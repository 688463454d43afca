# Trading decision rules of two Lean strategies

This project models the decision rules of two QuantConnect/Lean strategies.

- **Momentum rotation** (`Algorithm.Python/_Mom_Based_Rotation.py`). `Rebalance` is scheduled
  every trading day (the comment beside the schedule says "month start"; the code uses
  `DateRules.EveryDay`). Each `Rebalance` does nothing while the momentum indicators warm up. Otherwise it ranks the score
  table (ticker → momentum value) from highest to lowest and keeps the first nine as the top set.
  It liquidates every invested holding outside the top set. It then collects the top-set tickers
  not yet invested, and gives each of them the target weight `1/len(added)`.
- **Dual Thrust** (`Algorithm.Python/_DualThrust.py`). Every day at the open, `SetSignal` reads
  the last daily bars. It computes HH (highest high), HC (highest close), LC (lowest close) and
  LL (lowest low), takes the signal range `max(HH - LC, HC - LL)`, and stores a sell trigger
  `open - 0.5·range` and a buy trigger `open + 0.5·range`. On each data point, `OnData` targets
  +80% of the portfolio at or above the sell trigger and -80% below it. It liquidates first when
  the current position is on the other side; a flat position counts as long.

The framework is reduced to plain values:

- the score table is a sequence of `(ticker, score)` entries with distinct tickers;
- the portfolio is a map from ticker to quantity, and a holding is invested when its quantity is not zero;
- the history window is a sequence of bars;
- prices are inputs;
- orders are returned as values (`Decision`, `seq<Order>`), not executed.

Prices, scores and weights are `real`.

Modules:

- `Ranking` (Ranking.dfy): the ranking and the top set.
- `MomentumRotation` (MomentumRotation.dfy): the rebalance. `Rebalance` calls one method per loop
  of the source. Each method is proved against a specification function: `Liquidations`,
  `NotInvested` or `EqualWeights`.
- `DualThrust` (DualThrust.dfy): the class `DualThrustAlgorithm` holds the fields that persist
  between calls (`high`, `low`, `close`, `currentOpen`, `sellTrig`, `buyTrig`). Python's `None`
  is `Option.None`.

What the code does and does not do:

- The code ranks every score. It does not drop non-positive or stale scores.
- The code does not size orders by cash or keep a fee buffer.
- The code does not track orders.
- The code sorts with pandas' default sort, which is not stable. So the order among equal scores
  is unspecified, and no property here depends on it.

As written, each added ticker gets `1/len(added)` of the portfolio. Tickers that stay invested
keep their current holdings. So when only some top-set tickers are new, the targeted exposure is
more than the whole portfolio. The model keeps this behaviour.

## Model

| member | source | states |
|---|---|---|
| `Ranking.Insert` | Algorithm.Python/_Mom_Based_Rotation.py:62 | inserting one entry lengthens the ranked sequence by one, and the new first entry is the inserted one or the old first |
| `Ranking.InsertKeepsOrder` | Algorithm.Python/_Mom_Based_Rotation.py:62 | inserting into a sequence ordered by non-increasing score keeps it ordered |
| `Ranking.InsertPermutes` | Algorithm.Python/_Mom_Based_Rotation.py:62 | inserting adds exactly the one entry (multiset) |
| `Ranking.InsertKeepsDistinct` | Algorithm.Python/_Mom_Based_Rotation.py:62 | inserting an entry with a new ticker keeps tickers distinct |
| `Ranking.Rank` | Algorithm.Python/_Mom_Based_Rotation.py:62 | the ranking has one entry per table entry |
| `Ranking.RankIsOrdered` | Algorithm.Python/_Mom_Based_Rotation.py:62 | the ranking is ordered by non-increasing score (`ascending = False`) |
| `Ranking.RankPermutes` | Algorithm.Python/_Mom_Based_Rotation.py:62 | the ranking is a permutation of the score table |
| `Ranking.RankKeepsDistinct` | Algorithm.Python/_Mom_Based_Rotation.py:62 | ranking a table with distinct tickers keeps them distinct |
| `Ranking.TopSize` | Algorithm.Python/_Mom_Based_Rotation.py:62 | `[:9]` keeps nine entries, or the whole table when it has fewer |
| `Ranking.TopShape` | Algorithm.Python/_Mom_Based_Rotation.py:62 | the top set has at most 9 entries, fewer only when nothing is left out, is ordered by non-increasing score and has no ticker twice |
| `Ranking.TopIsBest` | Algorithm.Python/_Mom_Based_Rotation.py:62 | the top set plus left-out entries is exactly the table (multiset), and every top entry scores at least as high as every left-out entry |
| `Ranking.TopSymbolsFromTable` | Algorithm.Python/_Mom_Based_Rotation.py:62 | the top-set tickers (`top.index`) come from the table and are pairwise distinct |
| `MomentumRotation.EqualWeights` | Algorithm.Python/_Mom_Based_Rotation.py:73-74 | exactly the added tickers get a weight, and all weights are equal and positive; no division happens when nothing is added |
| `MomentumRotation.Rebalance` | Algorithm.Python/_Mom_Based_Rotation.py:60-74 | while warming up no order at all; otherwise liquidations, added list and weights are those of the top set of the ranked table |
| `MomentumRotation.LiquidateOutsideTop` | Algorithm.Python/_Mom_Based_Rotation.py:63-67 | the loop over the portfolio liquidates exactly the invested holdings outside the top set |
| `MomentumRotation.CollectAdded` | Algorithm.Python/_Mom_Based_Rotation.py:69-72 | the loop over the top set appends exactly the not-invested tickers, in top-set order |
| `MomentumRotation.AssignEqualWeights` | Algorithm.Python/_Mom_Based_Rotation.py:73-74 | the loop over the added list gives each added ticker the weight `1/len(added)` and nothing else |
| `MomentumRotation.NotInvestedMembers` | Algorithm.Python/_Mom_Based_Rotation.py:69-72 | a ticker is added if and only if it is in the top set and not invested |
| `MomentumRotation.NotInvestedNoDuplicates` | Algorithm.Python/_Mom_Based_Rotation.py:69-72 | the added list has no duplicates when the top set has none |
| `MomentumRotation.AddedPositions` | Algorithm.Python/_Mom_Based_Rotation.py:69-72 | each added ticker sits at a top-set position, and the positions strictly increase, so the added list keeps top-set order |
| `MomentumRotation.WeightsSumToOne` | Algorithm.Python/_Mom_Based_Rotation.py:73-74 | when something is added, the weights of the added tickers sum to 1 |
| `MomentumRotation.DecisionCoversTop` | Algorithm.Python/_Mom_Based_Rotation.py:63-74 | liquidated and bought tickers are disjoint; once the liquidations fill, a ticker is invested exactly when it is in the top set and was invested; every top-set ticker is either kept or bought; only non-invested top-set tickers are bought |
| `MomentumRotation.AllInvestedNoTargets` | Algorithm.Python/_Mom_Based_Rotation.py:69-74 | when every top-set ticker is invested, the added list and the targets are empty (no division by zero) |
| `MomentumRotation.LiquidationDoesNotChangeAdded` | Algorithm.Python/_Mom_Based_Rotation.py:63-72 | the added list is the same before and after the liquidations fill, because they touch only tickers outside the top set |
| `MomentumRotation.NotInvestedSameOnTop` | Algorithm.Python/_Mom_Based_Rotation.py:70-71 | the added list depends only on the invested state of the top-set tickers |
| `MomentumRotation.RebalanceDecision` | Algorithm.Python/_Mom_Based_Rotation.py:62-74 | for any table with distinct tickers and any portfolio: top set of at most 9, added list without duplicates and equal to the not-invested top-set tickers, disjoint from the liquidations, weights summing to 1 when non-empty |
| `DualThrust.Max` | Algorithm.Python/_DualThrust.py:35 | `max` of a non-empty window is an element of it and bounds every element from above |
| `DualThrust.Min` | Algorithm.Python/_DualThrust.py:35 | `min` of a non-empty window is an element of it and bounds every element from below |
| `DualThrust.SignalRange` | Algorithm.Python/_DualThrust.py:35-39 | the range is at least HH - LC and at least HC - LL, and equals one of them |
| `DualThrust.DualThrustAlgorithm.constructor` | Algorithm.Python/_DualThrust.py:20-22 | triggers and open start as `None` |
| `DualThrust.DualThrustAlgorithm.SetSignal` | Algorithm.Python/_DualThrust.py:24-42 | with an empty window it fails and the whole state is kept; otherwise bars and open are stored and sell and buy triggers are open ∓ 0.5 × range |
| `DualThrust.DualThrustAlgorithm.OnData` | Algorithm.Python/_DualThrust.py:44-62 | once the triggers exist, the orders are those of the position rule on the stored sell trigger; the buy trigger is not read |
| `DualThrust.PositionRule` | Algorithm.Python/_DualThrust.py:50-62 | one or two orders, last a target of +0.8 exactly at or above the sell trigger and -0.8 exactly below it; a liquidation comes first exactly when the position is not on the target's side (flat counts as long) |
| `DualThrust.RangeNonNegative` | Algorithm.Python/_DualThrust.py:35-39 | if every bar has low ≤ close ≤ high, the signal range is not negative |
| `DualThrust.TriggersAroundOpen` | Algorithm.Python/_DualThrust.py:27-28 | for such bars, sell trigger ≤ open ≤ buy trigger, and both are half the range away from the open |
| `DualThrust.OpenPriceGoesLong` | Algorithm.Python/_DualThrust.py:41-55 | at the opening price, with such bars, the rule targets +0.8 and liquidates first only from a short position |
| `DualThrust.SignalThenTrade` | Algorithm.Python/_DualThrust.py:19-62 | a day's signal at the open followed by a data point trades against the sell trigger computed from that day's window |

## Left out

- Framework calls are not modelled; their results are inputs and their effects are returned
  values. This covers `AddEquity`/`AddSecurity`, the `MOM` indicator, `SetWarmUp`, `History`,
  `Schedule.On`, `Portfolio`, `Liquidate`/`SetHoldings` execution and fills, and `Log`.
- The `Initialize` loop that fills the score table, the symbol list, dates, cash and resolution
  are configuration. The table is an input of `Rebalance`.
- pandas is not modelled. `Series.sort_values` is replaced by an insertion sort (`Ranking.Rank`).
  The model keeps the intended ranking, not the failure caused by the commented-out
  `import pandas`. `DataFrame.loc` indexing is replaced by projections of the bar sequence.
- The iteration order of the portfolio is not modelled. Liquidations form a set.
- Floating point and `float(...)` conversions are not modelled; all arithmetic is over reals. The
  source's `elif price < selltrig` is therefore the exact complement of the first test. A NaN that
  would skip both branches is not modelled.
- DualThrust.DualThrustAlgorithm.OnData: requires that a signal was already computed. Before the
  first `SetSignal`, Python compares against `None` and raises; that case is not modelled.
- DualThrust.DualThrustAlgorithm.SetSignal: with an empty history window, `history.loc[...]` raises
  before any field is written. The model returns `ok == false` and keeps every field. The framework
  stopping the algorithm on that exception is not modelled.
- The closing `Log` line of `OnData`, which prints the open and both triggers, is not modelled.
