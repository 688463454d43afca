/** The daily momentum rotation (`Rebalance`, Algorithm.Python/_Mom_Based_Rotation.py, lines 60-74):
    sell every holding that left the top set, then buy the top-set tickers not yet held, each
    with an equal share of the portfolio. The orders are returned as a decision, not executed. */
module MomentumRotation {
  import opened Ranking

  /** Quantity held per ticker, as the framework's portfolio reports it. */
  type Portfolio = map<Symbol, int>

  /** A holding is invested when its quantity is not zero; a ticker the portfolio does not list is not. */
  predicate Invested(p: Portfolio, s: Symbol) {
    s in p && p[s] != 0
  }

  /** What one rebalance asks for: the tickers to liquidate, the newly added tickers in the order
      their orders are placed, and the target portfolio weight of each added ticker. */
  datatype Decision = Decision(liquidate: set<Symbol>, added: seq<Symbol>, targets: map<Symbol, real>)

  /** The decision that issues no order at all. */
  const NoOrders := Decision({}, [], map[])

  /** The holdings to liquidate: invested and no longer in the top set. */
  function Liquidations(top: seq<Symbol>, p: Portfolio): (sold: set<Symbol>)
  {
    set s | s in p && Invested(p, s) && s !in top
  }

  /** The top-set tickers not currently invested, in top-set order. */
  function NotInvested(top: seq<Symbol>, p: Portfolio): (added: seq<Symbol>)
  {
    if top == [] then []
    else
      var last := top[|top| - 1];
      NotInvested(top[..|top| - 1], p) + (if Invested(p, last) then [] else [last])
  }

  /** Each added ticker's weight `1/len(added_symbols)`; there is no division when nothing is added.
      Exactly the added tickers get a weight, and all weights are equal and positive. */
  function EqualWeights(added: seq<Symbol>): (w: map<Symbol, real>)
    ensures w.Keys == set s | s in added
    ensures forall s, t :: s in w && t in w ==> w[s] == w[t] > 0.0
  {
    map s | s in added :: 1.0 / (|added| as real)
  }

  /** The sum of the weights `w` gives the tickers of `xs`, one term per ticker of `xs`. */
  function SumOf(xs: seq<Symbol>, w: map<Symbol, real>): real
    requires forall s :: s in xs ==> s in w
  {
    if xs == [] then 0.0 else w[xs[0]] + SumOf(xs[1..], w)
  }

  /** The portfolio once the liquidations of `sold` have filled. */
  function AfterLiquidation(p: Portfolio, sold: set<Symbol>): (q: Portfolio)
    ensures q.Keys == p.Keys
  {
    map s | s in p :: if s in sold then 0 else p[s]
  }

  /** One scheduled rebalance. While the indicators warm up it does nothing; otherwise it ranks
      the score table, liquidates every invested holding outside the top set, collects the
      top-set tickers not yet invested, and gives each of them the same target weight. */
  method Rebalance(warmingUp: bool, data: seq<Momentum>, portfolio: Portfolio) returns (d: Decision)
    ensures warmingUp ==> d == NoOrders
    ensures !warmingUp ==>
      var top := SymbolsOf(Top(data));
      && d.liquidate == Liquidations(top, portfolio)
      && d.added == NotInvested(top, portfolio)
      && d.targets == EqualWeights(d.added)
  {
    if warmingUp {
      return NoOrders;
    }
    var top := SymbolsOf(Top(data));
    var liquidate := LiquidateOutsideTop(top, portfolio);
    var added := CollectAdded(top, portfolio);
    var targets := AssignEqualWeights(added);
    d := Decision(liquidate, added, targets);
  }

  /** The pass over the portfolio (lines 63-67): every invested holding outside the top set is
      marked for liquidation. */
  method LiquidateOutsideTop(top: seq<Symbol>, portfolio: Portfolio) returns (liquidate: set<Symbol>)
    ensures liquidate == Liquidations(top, portfolio)
  {
    liquidate := {};
    var unvisited := portfolio.Keys;
    while unvisited != {}
      invariant unvisited <= portfolio.Keys
      invariant liquidate == Liquidations(top, portfolio) - unvisited
      decreases |unvisited|
    {
      var s :| s in unvisited;
      if Invested(portfolio, s) && s !in top {
        liquidate := liquidate + {s};
      }
      unvisited := unvisited - {s};
    }
  }

  /** The pass over the top set (lines 69-72): the tickers not yet invested are appended in order. */
  method CollectAdded(top: seq<Symbol>, portfolio: Portfolio) returns (added: seq<Symbol>)
    ensures added == NotInvested(top, portfolio)
  {
    added := [];
    for i := 0 to |top|
      invariant added == NotInvested(top[..i], portfolio)
    {
      assert top[..i + 1][..i] == top[..i];
      if !Invested(portfolio, top[i]) {
        added := added + [top[i]];
      }
    }
    assert top[..|top|] == top;
  }

  /** The pass over the added tickers (lines 73-74): each gets the target weight `1/len(added)`. */
  method AssignEqualWeights(added: seq<Symbol>) returns (targets: map<Symbol, real>)
    ensures targets == EqualWeights(added)
  {
    targets := map[];
    for i := 0 to |added|
      invariant targets == map s | s in added[..i] :: 1.0 / (|added| as real)
    {
      assert added[..i + 1] == added[..i] + [added[i]];
      targets := targets[added[i] := 1.0 / (|added| as real)];
    }
    assert added[..|added|] == added;
  }

  /** A ticker is added exactly when it is in the top set and not invested. */
  lemma {:induction false} NotInvestedMembers(top: seq<Symbol>, p: Portfolio)
    ensures forall s :: s in NotInvested(top, p) <==> s in top && !Invested(p, s)
  {
    if top != [] {
      var init := top[..|top| - 1];
      NotInvestedMembers(init, p);
      assert top == init + [top[|top| - 1]];
    }
  }

  /** The added list repeats no ticker when the top set repeats none. */
  lemma {:induction false} NotInvestedNoDuplicates(top: seq<Symbol>, p: Portfolio)
    requires NoDuplicates(top)
    ensures NoDuplicates(NotInvested(top, p))
  {
    if top != [] {
      var init, last := top[..|top| - 1], top[|top| - 1];
      NotInvestedNoDuplicates(init, p);
      NotInvestedMembers(init, p);
      forall k | 0 <= k < |init|
        ensures init[k] != last
      {
        assert init[k] == top[k];
      }
    }
  }

  /** Where each added ticker sits in the top set: the positions strictly increase, so the
      added list keeps the top-set order. */
  ghost function AddedPositions(top: seq<Symbol>, p: Portfolio): (pos: seq<nat>)
    ensures |pos| == |NotInvested(top, p)|
    ensures forall k :: 0 <= k < |pos| ==> pos[k] < |top| && top[pos[k]] == NotInvested(top, p)[k]
    ensures forall k, l :: 0 <= k < l < |pos| ==> pos[k] < pos[l]
  {
    if top == [] then []
    else
      var init := top[..|top| - 1];
      var before := AddedPositions(init, p);
      if Invested(p, top[|top| - 1]) then before else before + [|top| - 1]
  }

  /** `n` copies of the same weight add up to `n` times that weight. */
  lemma {:induction false} SumOfEqual(xs: seq<Symbol>, w: map<Symbol, real>, v: real)
    requires forall s :: s in xs ==> s in w && w[s] == v
    ensures SumOf(xs, w) == (|xs| as real) * v
  {
    if xs != [] {
      SumOfEqual(xs[1..], w, v);
    }
  }

  /** The target weights of the added tickers add up to one whenever something is added. */
  lemma {:induction false} WeightsSumToOne(added: seq<Symbol>)
    requires |added| > 0
    ensures SumOf(added, EqualWeights(added)) == 1.0
  {
    var w, n := EqualWeights(added), |added| as real;
    var v := 1.0 / n;
    forall s | s in added
      ensures s in w && w[s] == v
    {
    }
    SumOfEqual(added, w, v);
    calc {
      SumOf(added, w);
    ==
      n * v;
    ==  { assert n * (1.0 / n) == 1.0; }
      1.0;
    }
  }

  /** No ticker is both liquidated and bought in one rebalance; once the liquidations fill, the
      only invested holdings are top-set ones; every top-set ticker is either kept or bought, and
      only tickers not yet invested are bought: after the orders fill, the invested tickers are
      exactly the top set. */
  lemma {:induction false} DecisionCoversTop(top: seq<Symbol>, p: Portfolio)
    ensures Liquidations(top, p) !! EqualWeights(NotInvested(top, p)).Keys
    ensures forall s :: Invested(AfterLiquidation(p, Liquidations(top, p)), s) <==> s in top && Invested(p, s)
    ensures forall s :: s in top ==> Invested(p, s) || s in EqualWeights(NotInvested(top, p))
    ensures forall s :: s in EqualWeights(NotInvested(top, p)) ==> s in top && !Invested(p, s)
  {
    NotInvestedMembers(top, p);
  }

  /** When every top-set ticker is already invested nothing is added and no weight is computed. */
  lemma {:induction false} AllInvestedNoTargets(top: seq<Symbol>, p: Portfolio)
    requires forall s :: s in top ==> Invested(p, s)
    ensures NotInvested(top, p) == [] && EqualWeights(NotInvested(top, p)) == map[]
  {
    if top != [] {
      AllInvestedNoTargets(top[..|top| - 1], p);
    }
  }

  /** The added list is the same whether it is computed before or after the liquidations fill:
      the liquidations only touch tickers outside the top set. */
  lemma {:induction false} LiquidationDoesNotChangeAdded(top: seq<Symbol>, p: Portfolio)
    ensures NotInvested(top, AfterLiquidation(p, Liquidations(top, p))) == NotInvested(top, p)
  {
    var sold := Liquidations(top, p);
    var q := AfterLiquidation(p, sold);
    forall s | s in top
      ensures Invested(q, s) == Invested(p, s)
    {
    }
    NotInvestedSameOnTop(top, p, q);
  }

  /** The added list depends only on the invested state of the top-set tickers. */
  lemma {:induction false} NotInvestedSameOnTop(top: seq<Symbol>, p: Portfolio, q: Portfolio)
    requires forall s :: s in top ==> Invested(p, s) == Invested(q, s)
    ensures NotInvested(top, p) == NotInvested(top, q)
  {
    if top != [] {
      NotInvestedSameOnTop(top[..|top| - 1], p, q);
    }
  }

  /** Everything a rebalance outside the warm-up promises, for the decision `Rebalance` returns:
      no ticker both sold and bought, added tickers distinct and exactly the top-set tickers not
      invested, their weights summing to one. */
  lemma RebalanceDecision(data: seq<Momentum>, p: Portfolio)
    requires DistinctSymbols(data)
    ensures var top := SymbolsOf(Top(data));
      var added := NotInvested(top, p);
      && |top| <= TopCount
      && NoDuplicates(added)
      && Liquidations(top, p) !! EqualWeights(added).Keys
      && (forall s :: s in added <==> s in top && !Invested(p, s))
      && (added != [] ==> SumOf(added, EqualWeights(added)) == 1.0)
  {
    var top := SymbolsOf(Top(data));
    TopShape(data);
    TopSymbolsFromTable(data);
    NotInvestedNoDuplicates(top, p);
    NotInvestedMembers(top, p);
    DecisionCoversTop(top, p);
    if NotInvested(top, p) != [] {
      WeightsSumToOne(NotInvested(top, p));
    }
  }
}
