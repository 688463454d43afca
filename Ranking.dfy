/** Ranking of the momentum score table (Algorithm.Python/_Mom_Based_Rotation.py, line 62):
    the table is ordered by score, highest first, and the first nine entries form the top set. */
module Ranking {

  /** A ticker, as the framework's `Symbol.Value` spells it. */
  type Symbol = string

  /** One entry of the score table: a ticker and the current value of its momentum indicator. */
  datatype Momentum = Momentum(symbol: Symbol, score: real)

  /** How many entries the rotation keeps. */
  const TopCount: nat := 9

  /** Scores never increase along `s`. */
  predicate NonIncreasing(s: seq<Momentum>) {
    forall i, j :: 0 <= i < j < |s| ==> s[i].score >= s[j].score
  }

  /** No ticker occurs twice in `s`: the score table is a dictionary keyed by ticker. */
  predicate DistinctSymbols(s: seq<Momentum>) {
    forall i, j :: 0 <= i < j < |s| ==> s[i].symbol != s[j].symbol
  }

  /** No element occurs twice in `s`. */
  predicate NoDuplicates(s: seq<Symbol>) {
    forall i, j :: 0 <= i < j < |s| ==> s[i] != s[j]
  }

  /** The tickers of `s`, in order (the `index` of the ranked series). */
  function SymbolsOf(s: seq<Momentum>): (r: seq<Symbol>)
    ensures |r| == |s|
    ensures forall i :: 0 <= i < |s| ==> r[i] == s[i].symbol
  {
    seq(|s|, i requires 0 <= i < |s| => s[i].symbol)
  }

  /** Places `m` into the ranked sequence `sorted`, ahead of every entry with an equal or lower score. */
  function Insert(m: Momentum, sorted: seq<Momentum>): (r: seq<Momentum>)
    ensures |r| == |sorted| + 1
    ensures r[0] == m || (sorted != [] && r[0] == sorted[0])
  {
    if sorted == [] || m.score >= sorted[0].score then
      [m] + sorted
    else
      [sorted[0]] + Insert(m, sorted[1..])
  }

  /** Inserting into a ranked sequence keeps it ranked. */
  lemma {:induction false} InsertKeepsOrder(m: Momentum, sorted: seq<Momentum>)
    requires NonIncreasing(sorted)
    ensures NonIncreasing(Insert(m, sorted))
  {
    if sorted != [] && m.score < sorted[0].score {
      var head, tail := sorted[0], sorted[1..];
      InsertKeepsOrder(m, tail);
      var rest := Insert(m, tail);
      var r := Insert(m, sorted);
      assert r == [head] + rest;
      assert head.score >= rest[0].score;
      forall i, j | 0 <= i < j < |r|
        ensures r[i].score >= r[j].score
      {
        if i == 0 {
          assert rest[0].score >= rest[j - 1].score;
        } else {
          assert r[i] == rest[i - 1] && r[j] == rest[j - 1];
        }
      }
    }
  }

  /** Inserting adds exactly the one entry: the result is a permutation of `sorted` plus `m`. */
  lemma {:induction false} InsertPermutes(m: Momentum, sorted: seq<Momentum>)
    ensures multiset(Insert(m, sorted)) == multiset(sorted) + multiset{m}
  {
    if sorted != [] && m.score < sorted[0].score {
      InsertPermutes(m, sorted[1..]);
      assert sorted == [sorted[0]] + sorted[1..];
    }
  }

  /** Inserting an entry whose ticker is new keeps the tickers distinct. */
  lemma {:induction false} InsertKeepsDistinct(m: Momentum, sorted: seq<Momentum>)
    requires DistinctSymbols(sorted)
    requires forall e :: e in sorted ==> e.symbol != m.symbol
    ensures DistinctSymbols(Insert(m, sorted))
  {
    if sorted != [] && m.score < sorted[0].score {
      var head, tail := sorted[0], sorted[1..];
      assert forall e :: e in tail ==> e in sorted;
      assert DistinctSymbols(tail) by {
        forall i, j | 0 <= i < j < |tail|
          ensures tail[i].symbol != tail[j].symbol
        {
          assert tail[i] == sorted[i + 1] && tail[j] == sorted[j + 1];
        }
      }
      InsertKeepsDistinct(m, tail);
      InsertPermutes(m, tail);
      var rest := Insert(m, tail);
      assert Insert(m, sorted) == [head] + rest;
      forall k | 0 <= k < |rest|
        ensures rest[k].symbol != head.symbol
      {
        var e := rest[k];
        assert e in multiset(rest);
        if e != m {
          assert e in tail;
          var j :| 0 <= j < |tail| && tail[j] == e;
          assert sorted[j + 1] == e;
        }
      }
    }
  }

  /** The score table ranked by score, highest first. */
  function Rank(data: seq<Momentum>): (r: seq<Momentum>)
    ensures |r| == |data|
  {
    if data == [] then [] else Insert(data[0], Rank(data[1..]))
  }

  /** The ranking is ordered by non-increasing score. */
  lemma {:induction false} RankIsOrdered(data: seq<Momentum>)
    ensures NonIncreasing(Rank(data))
  {
    if data != [] {
      RankIsOrdered(data[1..]);
      InsertKeepsOrder(data[0], Rank(data[1..]));
    }
  }

  /** The ranking is a permutation of the score table. */
  lemma {:induction false} RankPermutes(data: seq<Momentum>)
    ensures multiset(Rank(data)) == multiset(data)
  {
    if data != [] {
      RankPermutes(data[1..]);
      InsertPermutes(data[0], Rank(data[1..]));
      assert data == [data[0]] + data[1..];
    }
  }

  /** Ranking a table with distinct tickers keeps them distinct. */
  lemma {:induction false} RankKeepsDistinct(data: seq<Momentum>)
    requires DistinctSymbols(data)
    ensures DistinctSymbols(Rank(data))
  {
    if data != [] {
      var tail := data[1..];
      RankKeepsDistinct(tail);
      RankPermutes(tail);
      var rest := Rank(tail);
      forall e | e in rest
        ensures e.symbol != data[0].symbol
      {
        assert e in multiset(tail);
        var k :| 0 <= k < |tail| && tail[k] == e;
        assert data[k + 1] == e;
      }
      InsertKeepsDistinct(data[0], rest);
    }
  }

  /** The number of entries kept: nine, or the whole table when it is smaller. */
  function TopSize(data: seq<Momentum>): (n: nat)
    ensures n <= TopCount && n <= |data|
    ensures n == TopCount || n == |data|
  {
    if |data| < TopCount then |data| else TopCount
  }

  /** The top set: the first entries of the ranking (`sort_values(ascending = False)[:9]`). */
  function Top(data: seq<Momentum>): (top: seq<Momentum>)
  {
    Rank(data)[..TopSize(data)]
  }

  /** The entries of the ranking that are left out of the top set. */
  function LeftOut(data: seq<Momentum>): (rest: seq<Momentum>)
  {
    Rank(data)[TopSize(data)..]
  }

  /** The top set holds at most nine entries, and fewer only when the whole table fits; it is
      ordered by non-increasing score and has no ticker twice. */
  lemma TopShape(data: seq<Momentum>)
    requires DistinctSymbols(data)
    ensures |Top(data)| <= TopCount
    ensures |Top(data)| == TopCount || LeftOut(data) == []
    ensures NonIncreasing(Top(data)) && DistinctSymbols(Top(data))
  {
    var ranked, top := Rank(data), Top(data);
    RankIsOrdered(data);
    RankKeepsDistinct(data);
    forall i, j | 0 <= i < j < |top|
      ensures top[i].score >= top[j].score && top[i].symbol != top[j].symbol
    {
      assert top[i] == ranked[i] && top[j] == ranked[j];
    }
  }

  /** The top set and the entries left out together make up exactly the score table, and every
      entry in the top set scores at least as high as every entry left out. */
  lemma TopIsBest(data: seq<Momentum>)
    ensures multiset(Top(data)) + multiset(LeftOut(data)) == multiset(data)
    ensures forall i, j :: 0 <= i < |Top(data)| && 0 <= j < |LeftOut(data)| ==>
              Top(data)[i].score >= LeftOut(data)[j].score
  {
    var ranked, n := Rank(data), TopSize(data);
    var top, rest := Top(data), LeftOut(data);
    RankIsOrdered(data);
    RankPermutes(data);
    assert ranked == top + rest;
    forall i, j | 0 <= i < |top| && 0 <= j < |rest|
      ensures top[i].score >= rest[j].score
    {
      assert ranked[i] == top[i] && ranked[n + j] == rest[j];
    }
  }

  /** Every ticker of the top set comes from the score table, and no ticker occurs twice in it. */
  lemma TopSymbolsFromTable(data: seq<Momentum>)
    requires DistinctSymbols(data)
    ensures NoDuplicates(SymbolsOf(Top(data)))
    ensures forall s :: s in SymbolsOf(Top(data)) ==> s in SymbolsOf(data)
  {
    var ranked, top := Rank(data), Top(data);
    TopShape(data);
    RankPermutes(data);
    forall s | s in SymbolsOf(top)
      ensures s in SymbolsOf(data)
    {
      var i :| 0 <= i < |top| && SymbolsOf(top)[i] == s;
      assert top[i] == ranked[i] && ranked[i] in multiset(data);
      var j :| 0 <= j < |data| && data[j] == top[i];
      assert SymbolsOf(data)[j] == s;
    }
  }
}
