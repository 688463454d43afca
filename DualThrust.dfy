/** The Dual Thrust breakout rule (Algorithm.Python/_DualThrust.py). Once a day, at the market
    open, `SetSignal` derives a range from the last daily bars and places a sell trigger and a buy
    trigger half that range from the opening price (below and above it when every bar's close lies
    within its low and high); on every new data point `OnData` goes long 80% of the
    portfolio at or above the sell trigger and short 80% below it, liquidating first when the
    current position is on the other side. */
module DualThrust {

  /** A value Python may leave as `None`. */
  datatype Option<T> = None | Some(value: T)

  /** One daily history bar; only its high, low and close are read. */
  datatype Bar = Bar(high: real, low: real, close: real)

  /** An order the rule issues: flatten the position, or set it to a fraction of the portfolio. */
  datatype Order = Liquidate | SetHoldings(weight: real)

  /** The multipliers of the range below and above the open (`k1`, `k2`). */
  const K1: real := 0.5
  const K2: real := 0.5

  /** The fraction of the portfolio held long or short. */
  const Exposure: real := 0.8

  /** The window's highs (`history.loc[symbol]['high']`). */
  function Highs(bars: seq<Bar>): seq<real>
  {
    seq(|bars|, i requires 0 <= i < |bars| => bars[i].high)
  }

  /** The window's lows. */
  function Lows(bars: seq<Bar>): seq<real>
  {
    seq(|bars|, i requires 0 <= i < |bars| => bars[i].low)
  }

  /** The window's closes. */
  function Closes(bars: seq<Bar>): seq<real>
  {
    seq(|bars|, i requires 0 <= i < |bars| => bars[i].close)
  }

  /** Python's `max` of a non-empty sequence: an element no other element exceeds. */
  function Max(xs: seq<real>): (m: real)
    requires |xs| > 0
    ensures m in xs
    ensures forall i :: 0 <= i < |xs| ==> xs[i] <= m
  {
    if |xs| == 1 then xs[0]
    else
      var rest := Max(xs[1..]);
      if xs[0] >= rest then xs[0] else rest
  }

  /** Python's `min` of a non-empty sequence: an element no other element undercuts. */
  function Min(xs: seq<real>): (m: real)
    requires |xs| > 0
    ensures m in xs
    ensures forall i :: 0 <= i < |xs| ==> m <= xs[i]
  {
    if |xs| == 1 then xs[0]
    else
      var rest := Min(xs[1..]);
      if xs[0] <= rest then xs[0] else rest
  }

  /** The highest high (HH). */
  function HH(bars: seq<Bar>): real requires |bars| > 0 { Max(Highs(bars)) }
  /** The highest close (HC). */
  function HC(bars: seq<Bar>): real requires |bars| > 0 { Max(Closes(bars)) }
  /** The lowest close (LC). */
  function LC(bars: seq<Bar>): real requires |bars| > 0 { Min(Closes(bars)) }
  /** The lowest low (LL). */
  function LL(bars: seq<Bar>): real requires |bars| > 0 { Min(Lows(bars)) }

  /** The signal range: the wider of HH - LC and HC - LL. */
  function SignalRange(bars: seq<Bar>): (r: real)
    requires |bars| > 0
    ensures r >= HH(bars) - LC(bars) && r >= HC(bars) - LL(bars)
    ensures r == HH(bars) - LC(bars) || r == HC(bars) - LL(bars)
  {
    var up, down := HH(bars) - LC(bars), HC(bars) - LL(bars);
    if up >= down then up else down
  }

  /** The sell trigger: `K1` times the range below the open. */
  function SellTrigger(openPrice: real, signalRange: real): real {
    openPrice - K1 * signalRange
  }

  /** The buy trigger: `K2` times the range above the open. */
  function BuyTrigger(openPrice: real, signalRange: real): real {
    openPrice + K2 * signalRange
  }

  /** Every bar's close lies between its low and its high. */
  predicate WellFormed(bars: seq<Bar>) {
    forall i :: 0 <= i < |bars| ==> bars[i].low <= bars[i].close <= bars[i].high
  }

  /** The state the algorithm keeps between calls. Python creates `high`, `low` and `close` only in
      the first `SetSignal`; here they start empty. The triggers and the open start as `None`. */
  class DualThrustAlgorithm {
    var high: seq<real>
    var low: seq<real>
    var close: seq<real>
    var currentOpen: Option<real>
    var sellTrig: Option<real>
    var buyTrig: Option<real>

    /** `Initialize`: no signal has been computed yet. */
    constructor ()
      ensures high == [] && low == [] && close == []
      ensures currentOpen == None && sellTrig == None && buyTrig == None
    {
      high, low, close := [], [], [];
      currentOpen, sellTrig, buyTrig := None, None, None;
    }

    /** The daily signal, from the history window `history` and the price `openPrice` at the open.
        With no bar at all, indexing the window by the ticker raises before any field is written,
        so the whole state is kept (`ok` is false). Otherwise the bars and the open are stored and
        the triggers sit `K1` and `K2` times the signal range below and above the open. */
    method SetSignal(history: seq<Bar>, openPrice: real) returns (ok: bool)
      modifies this
      ensures ok <==> |history| > 0
      ensures ok ==> high == Highs(history) && low == Lows(history) && close == Closes(history)
      ensures ok ==> currentOpen == Some(openPrice)
      ensures ok ==> sellTrig == Some(SellTrigger(openPrice, SignalRange(history)))
      ensures ok ==> buyTrig == Some(BuyTrigger(openPrice, SignalRange(history)))
      ensures !ok ==> high == old(high) && low == old(low) && close == old(close)
      ensures !ok ==> currentOpen == old(currentOpen)
      ensures !ok ==> sellTrig == old(sellTrig) && buyTrig == old(buyTrig)
    {
      if |history| == 0 {
        return false;
      }
      high, low, close := Highs(history), Lows(history), Closes(history);
      currentOpen := Some(openPrice);
      var signalRange := SignalRange(history);
      sellTrig := Some(SellTrigger(openPrice, signalRange));
      buyTrig := Some(BuyTrigger(openPrice, signalRange));
      ok := true;
    }

    /** The orders for a new data point at price `price` with `holdings` shares held; the buy
        trigger is not consulted. */
    method OnData(price: real, holdings: int) returns (orders: seq<Order>)
      requires sellTrig.Some?
      ensures orders == PositionRule(price, sellTrig.value, holdings)
    {
      if price >= sellTrig.value {
        if holdings >= 0 {
          orders := [SetHoldings(Exposure)];
        } else {
          orders := [Liquidate, SetHoldings(Exposure)];
        }
      } else {
        // `elif price < selltrig` is the complement of the first test over the reals.
        if holdings >= 0 {
          orders := [Liquidate, SetHoldings(-Exposure)];
        } else {
          orders := [SetHoldings(-Exposure)];
        }
      }
    }
  }

  /** A position counts as long when it is flat or long: only a short position is below zero. */
  predicate LongSide(holdings: int) {
    holdings >= 0
  }

  /** The orders the position rule issues: the target is long at or above the sell trigger and
      short below it; a liquidation goes first exactly when the current position is not on the
      target's side (flat counts as long). */
  function PositionRule(price: real, sellTrig: real, holdings: int): (orders: seq<Order>)
    ensures 1 <= |orders| <= 2
    ensures orders[|orders| - 1] == SetHoldings(if price >= sellTrig then Exposure else -Exposure)
    ensures orders[|orders| - 1].weight == Exposure <==> price >= sellTrig
    ensures orders[|orders| - 1].weight == -Exposure <==> price < sellTrig
    ensures |orders| == 2 <==> LongSide(holdings) != (price >= sellTrig)
    ensures |orders| == 2 ==> orders[0] == Liquidate
  {
    var target := if price >= sellTrig then Exposure else -Exposure;
    if LongSide(holdings) == (price >= sellTrig) then [SetHoldings(target)]
    else [Liquidate, SetHoldings(target)]
  }

  /** When every bar's close lies within its range, the signal range is not negative. */
  lemma RangeNonNegative(bars: seq<Bar>)
    requires |bars| > 0 && WellFormed(bars)
    ensures SignalRange(bars) >= 0.0
  {
    var closes, highs := Closes(bars), Highs(bars);
    var j :| 0 <= j < |bars| && closes[j] == LC(bars);
    assert highs[j] == bars[j].high && closes[j] == bars[j].close;
    assert bars[j].high <= HH(bars);
  }

  /** For well-formed bars the sell trigger lies at or below the open and the buy trigger at or
      above it, and they are symmetric about the open: each is half the range away. */
  lemma TriggersAroundOpen(bars: seq<Bar>, openPrice: real)
    requires |bars| > 0 && WellFormed(bars)
    ensures var sell, buy := SellTrigger(openPrice, SignalRange(bars)), BuyTrigger(openPrice, SignalRange(bars));
      && sell <= openPrice <= buy
      && buy - openPrice == openPrice - sell == SignalRange(bars) / 2.0
  {
    RangeNonNegative(bars);
  }

  /** At the opening price itself, with well-formed bars, the rule always goes long: the sell
      trigger never lies above the open. */
  lemma OpenPriceGoesLong(bars: seq<Bar>, openPrice: real, holdings: int)
    requires |bars| > 0 && WellFormed(bars)
    ensures var orders := PositionRule(openPrice, SellTrigger(openPrice, SignalRange(bars)), holdings);
      && orders[|orders| - 1] == SetHoldings(Exposure)
      && (orders[0] == Liquidate <==> holdings < 0)
  {
    RangeNonNegative(bars);
  }

  /** One trading day: the signal at the open followed by the rule at a later price. With a
      non-empty window, the rule compares the price against the trigger derived from that window. */
  method SignalThenTrade(algo: DualThrustAlgorithm, history: seq<Bar>, openPrice: real, price: real, holdings: int)
    returns (orders: seq<Order>)
    requires |history| > 0
    modifies algo
    ensures orders == PositionRule(price, SellTrigger(openPrice, SignalRange(history)), holdings)
  {
    var ok := algo.SetSignal(history, openPrice);
    orders := algo.OnData(price, holdings);
  }
}
