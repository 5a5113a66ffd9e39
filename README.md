# Rebalanced crypto portfolio: a Dafny model

This project models the core of `app.py`, a back-test of a crypto portfolio. The portfolio
is rebalanced on weight drift and switches to a defensive allocation when the VIX
volatility index is high. Two parts are modelled.

- **`simulate_rebalanced_portfolio`** (app.py:81-160) walks a price table day by day from
  a base date. Its state is:
  - the units held of each coin;
  - a regime flag (`prev_vix_above_threshold`);
  - the value series, the rebalancing dates and the weight snapshots.

  Each day it values the portfolio and normalises the weights. It then picks the day's
  targets: 50% "USDT" and 12.5% for every other coin when VIX is above the threshold,
  otherwise `target_weight` for every coin. It may leave the defensive regime through a
  hysteresis exit. It rebalances on drift or on a VIX trigger.
- **The drawdown statistic of `compute_performance_stats`** (app.py:172-174): the running
  maximum, the drawdown of each point from it, and their minimum.

Layout:

- `rebalancing.dfy`
  - Module `Rebalancing` is the specification. `Step` is one day of the loop, `Run`
    folds it over the rows, and `Simulation` is the whole function, including the
    missing-base-date error.
  - Module `RebalancingProperties` proves the allocation, one-day, whole-loop and
    whole-simulation properties.
- `simulation.dfy`
  - Module `Simulation` is the imperative loop: a method with the source's loops, its
    in-place updates and its `continue`s.
  - `Simulate` is proved to return exactly `Rebalancing.Simulation`.
- `drawdown.dfy`
  - Module `Drawdown` holds the running maximum, the drawdowns and the maximum drawdown
    as recursive functions, with their lemmas.
- `series.dfy`
  - Module `Series` holds the positivity predicate that both parts share.
- `performance.dfy`
  - Module `Performance` applies the drawdown to the simulated value series.

Representation:

- **Coins** are an ordered sequence of names. Every per-coin dictionary (holdings,
  weights, targets, a row's prices) is a `seq<real>` parallel to it. "USDT" is the safe
  coin.
- **Dates** are integer day numbers.
- **The price table** is a sequence of rows `(date, prices)`.
- **The VIX series** is a map from date to reading. A missing date reads as 0, like
  `vix_series.get(date, 0)`.
- **The value series** (a dictionary keyed by date) is a sequence of `(date, value)`
  entries. `RunDatesOrdered` shows that on a table with increasing dates these dates are
  strictly increasing. On such a table the sequence and the dictionary agree; on a table
  that repeats a processed date they do not (see "## Left out").
- **Prices and values** are mathematical reals.

Behaviour of the code that the model keeps:

- **The hysteresis exit skips the value entry.** It `continue`s before the day's value is
  stored (app.py:138 vs. 157). So an exit day gets a rebalancing date but no value entry
  and no weight snapshot. A plain reading of the docstring would record a value on every
  processed day; the model follows the code.
- **The exit test uses the drift threshold.** It compares the weights with `target_weight`
  using `threshold` (app.py:134). `vix_buffer` is accepted and never read.
- **Deviations are tested with a strict `>`** (app.py:134, 145).
- **The defensive weights are fixed at 0.50 and 0.125** (app.py:126).
  - `RebalancingProperties.DefensiveSum` shows they add up to
    `0.125·|coins| + 0.375·(number of "USDT" entries)`.
  - So they add up to 1 only for, e.g., four coins plus "USDT".
  - On other universes a VIX rebalance changes the portfolio's value by that factor
    (`RebalanceAccounting`).
- **In the defensive regime every processed day is a rebalancing date.** The exit test
  and the drift test then compare the same weights with the same targets, so one of them
  fires (`DefensiveDayRebalances`).

## Model

| member | source | states |
|---|---|---|
| `Simulation.InitialPositions` | app.py:96-99 | the loop builds exactly the base-date holdings `InitialHoldings` (each coin `base_value * target_weight / base_price`) |
| `Simulation.Valuation` | app.py:112-120 | the accumulation loop yields the portfolio value, and the in-place normalisation yields the weights `Weights` (each in (0, 1], summing to 1) |
| `Simulation.Rebalance` | app.py:149-150 | the in-place overwrite loop yields holdings worth `value * targets[c]` in each coin (`Reset`) |
| `Simulation.Simulate` | app.py:81-160 | the imperative day loop (skip before the base date, exit with `continue`, drift/VIX rebalance, value entry) returns exactly `Rebalancing.Simulation`, including the missing-base-date error |
| `Rebalancing.PositionValues` | app.py:114-115 | one position value per coin, positive when holdings and prices are |
| `Rebalancing.PortfolioValue` | app.py:112-116 | the portfolio value is positive when there is a coin and all holdings and prices are positive |
| `Rebalancing.Weights` | app.py:112-120 | the normalised weights: one per coin, each in (0, 1], together exactly 1 |
| `Rebalancing.Uniform` | app.py:129 | the normal targets: one per coin, positive when `target_weight` is |
| `Rebalancing.DefensiveTargets` | app.py:126 | the defensive targets: one per coin, all positive |
| `Rebalancing.Targets` | app.py:124-130 | the day's targets have one entry per coin and are positive |
| `Rebalancing.Reset` | app.py:149-150 | the reset holdings have one entry per coin and are positive for a positive value and positive targets |
| `Rebalancing.InitialHoldings` | app.py:96-99 | the base-date holdings have one entry per coin and are positive |
| `Rebalancing.Step` | app.py:107-157 | one day keeps the holdings positive and one per coin |
| `Rebalancing.Run` | app.py:107-157 | the loop keeps the holdings positive and one per coin on every prefix of the table |
| `Rebalancing.FindDate` | app.py:96 | finds the index of a row with the base date, or reports that no row has it |
| `RebalancingProperties.UniformSum` | app.py:129 | the normal targets add up to `n * target_weight` |
| `RebalancingProperties.DefensiveSum` | app.py:126 | the defensive targets add up to 0.125 per coin plus 0.375 per "USDT" entry |
| `RebalancingProperties.DefensiveSumIsOne` | app.py:126 | the defensive targets add up to 1 exactly when the number of coins plus three times the number of "USDT" entries is 8 |
| `RebalancingProperties.ResetPositions` | app.py:147-150 | after a reset, each coin's value at the day's prices is `current_value * new_target_weights[c]` |
| `RebalancingProperties.ResetValue` | app.py:147-150 | after a reset the portfolio is worth `current_value * Sum(targets)` |
| `RebalancingProperties.ResetHitsTargets` | app.py:147-150 | with targets summing to 1, a reset keeps the value and its weights are exactly the targets |
| `RebalancingProperties.InitialPositionsWorth` | app.py:96-99 | at base-date prices each coin is worth `base_value * target_weight` |
| `RebalancingProperties.InitialPortfolioWorth` | app.py:96-99 | at base-date prices the portfolio is worth `base_value * n * target_weight` |
| `RebalancingProperties.EarlyRowIgnored` | app.py:108-109 | a row dated before the base date leaves the whole state unchanged |
| `RebalancingProperties.TargetSelection` | app.py:124-130 | a missing VIX date reads as 0; above the threshold, targets are 0.50 for "USDT" and 0.125 for other coins, otherwise `target_weight` |
| `RebalancingProperties.MissingVixNeverTriggers` | app.py:124-125 | a date missing from the VIX series never triggers when the threshold is not negative |
| `RebalancingProperties.VixDayRebalances` | app.py:124-157 | a processed day whose VIX reading (0 for a missing date) exceeds the threshold always rebalances into the defensive targets, sets the flag, and appends the date, the pre-rebalance weights and the pre-rebalance value |
| `RebalancingProperties.FlagSetOnlyByVix` | app.py:141-142 | the flag goes from false to true only on a processed day with VIX above the threshold |
| `RebalancingProperties.HysteresisExit` | app.py:133-138 | in the defensive regime, the flag is cleared if and only if VIX does not trigger and every weight is within `threshold` of `target_weight`; that day appends a date and leaves holdings, values and snapshots unchanged |
| `RebalancingProperties.DriftRebalance` | app.py:145-157 | without a VIX trigger, a deviation beyond the threshold resets to equal weights, keeps the flag, and appends the date, snapshot and value |
| `RebalancingProperties.WithinThresholdHolds` | app.py:145-157 | in the normal regime with no VIX trigger, deviations at most `threshold` (equality included) change nothing but append the value |
| `RebalancingProperties.DefensiveDayRebalances` | app.py:133-151 | every processed day in the defensive regime appends a rebalancing date |
| `RebalancingProperties.RebalanceAccounting` | app.py:147-157 | on a rebalance the recorded value and the snapshot are the pre-rebalance ones, the new holdings are worth `value * Sum(targets)`, and with targets summing to 1 the value is conserved and the weights become the targets |
| `RebalancingProperties.Processed` | app.py:107-109 | the number of rows dated on or after the base date is at most the number of rows |
| `RebalancingProperties.RunBookkeeping` | app.py:101-157 | values + dates = processed days + snapshots; snapshots are at most the values and at most the dates, so the exit days are dates minus snapshots |
| `RebalancingProperties.StepKeepsRecords` | app.py:112-157 | one day keeps every recorded value positive and every snapshot a weight vector |
| `RebalancingProperties.RunKeepsRecords` | app.py:107-157 | with at least one coin, every recorded value is positive and every snapshot has weights in (0, 1] summing to 1 |
| `RebalancingProperties.StepDates` | app.py:133-157 | one day appends its own date at most once to each list, and only when processed |
| `RebalancingProperties.RunDatesOrdered` | app.py:101-157 | on increasing dates, value dates and rebalancing dates are strictly increasing and lie between the base date and the last date |
| `RebalancingProperties.SimulationFailsIffNoBaseDate` | app.py:96 | the simulation fails exactly when no row has the base date, with that date as the error |
| `RebalancingProperties.ProcessedPositive` | app.py:107-109 | a table with a row dated on or after the base date has at least one processed day |
| `RebalancingProperties.RunRecordsFirstDay` | app.py:104-157 | before the first processed day the state is the start state; from then on the value series is non-empty, because the flag starts false and the first processed day cannot be an exit |
| `RebalancingProperties.SimulationValuesNonEmpty` | app.py:96-157 | a successful simulation records at least one value, the base date's own |
| `RebalancingProperties.SimulationOutput` | app.py:81-160 | a successful run satisfies the bookkeeping equation, positivity, the weight-vector snapshots and, on increasing dates, the ordering |
| `RebalancingProperties.DriftScenario` | app.py:81-160 | two coins, BTC doubling on day 2: values (1, 100), (2, 150); one rebalance on day 2 with snapshot [2/3, 1/3] |
| `RebalancingProperties.ScenarioDayOne` | app.py:107-157 | day 1 of the scenario records value 100 and does not rebalance |
| `RebalancingProperties.ScenarioDayTwo` | app.py:107-157 | day 2 of the scenario records 150 and resets to 37.5 BTC and 75 USDT |
| `Drawdown.RunningMaxBounds` | app.py:172 | `cummax` at each point is at least every earlier value |
| `Drawdown.RunningMaxAttained` | app.py:172 | `cummax` at each point is one of the values up to it |
| `Drawdown.RunningMaxNonDecreasing` | app.py:172 | `cummax` is non-decreasing |
| `Drawdown.PointDrawdown` | app.py:173 | for a positive value below its peak, the drawdown lies in (-1, 0] and is 0 exactly at the peak |
| `Drawdown.Drawdowns` | app.py:172-173 | for positive values, every drawdown lies in (-1, 0] |
| `Drawdown.Min` | app.py:174 | the minimum is at most every element and is one of them |
| `Drawdown.MaxDrawdown` | app.py:172-174 | for a non-empty positive series, the maximum drawdown lies in (-1, 0] |
| `Drawdown.MaxDrawdownIsSmallest` | app.py:172-174 | the maximum drawdown is at most every drawdown and equal to one of them |
| `Drawdown.AtPeakIffRecord` | app.py:172-173 | a point's drawdown is 0 exactly when it is at least every earlier value |
| `Drawdown.NoDrawdownIffNonDecreasing` | app.py:172-174 | the maximum drawdown is 0 exactly when the series is non-decreasing |
| `Drawdown.DrawdownExample` | app.py:172-174 | the series 80, 100, 75 has a maximum drawdown of -0.25 |
| `Performance.SimulatedMaxDrawdown` | app.py:159-174 | the value series of a successful simulation, taken in order as `Amounts`, is non-empty and positive, so its maximum drawdown is defined and lies in (-1, 0] |

## Left out

- Loading prices and VIX from CSV (app.py:36-62), `save_weights_to_csv` (app.py:64-72) and `save_to_csv` (app.py:74-79) are file I/O. The model takes the table and the VIX series as parameters.
- `save_weights_to_csv` (app.py:155) is a no-op in the model. It would write the same snapshot that is appended to the weight history.
- `main` (app.py:184-244) is not modelled: merging and sorting the data frames, substituting the first available date for a missing base date, the BTC/VIX correlation, printing and plotting. The model reports a missing base date as `MissingBaseDate`, as `prices_df.loc` raises.
- CAGR, volatility and the Sharpe ratio (app.py:167-171) use fractional powers, standard deviations and square roots over floats. `pct_change` is left out with them.
- `vix_buffer` is a parameter of `Simulation.Simulate` and is never read, as in the source.
- Floating-point rounding is not modelled: prices, values and weights are exact reals.
- Rebalancing.Simulation: requires every price to be positive, `base_value > 0` and `target_weight > 0`. A zero price, or a zero `base_value` or `target_weight`, makes the source divide by zero or produce NaN or infinities, which reals cannot express. A negative `base_value` or `target_weight` would run a mirrored simulation with negative holdings; the model leaves that case out because its positivity invariants do not hold there, and the program's only caller passes 100 and 0.20.
- Rebalancing.FindDate: returns the first row with the base date. With a duplicated base date, pandas would return several rows.
- Rebalancing.Simulation: keeps the value series as a sequence with one entry per recorded day. The source keeps a dictionary keyed by date (app.py:101, 157). If a processed date repeats in the table, the source keeps one entry, holding the later value at the first occurrence's position, while the model keeps both entries. The two agree on tables with strictly increasing dates (`RebalancingProperties.RunDatesOrdered`).
- Coins are identified by position in the column order. Column labels, and the requirement that "USDT" appear at most once, are not modelled.
