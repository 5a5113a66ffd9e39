/**
  The drawdown statistic of `compute_performance_stats` (app.py:172-174) applied to the
  value series that `simulate_rebalanced_portfolio` returns (app.py:159-160).
*/
module Performance {
  import opened Series
  import opened Rebalancing
  import RebalancingProperties
  import Drawdown

  /** The values of the series in date order (`pd.Series(portfolio_values)`). */
  function Amounts(values: seq<Entry>): seq<real>
  {
    seq(|values|, k requires 0 <= k < |values| => values[k].value)
  }

  /**
    On a successful run over at least one coin, the value series is not empty and every
    value in it is positive, so its maximum drawdown is defined and lies in (-1, 0].
  */
  lemma SimulatedMaxDrawdown(coins: seq<Coin>, rows: seq<Row>, vix: map<int, real>, p: Params)
    requires TableOk(|coins|, rows) && p.baseValue > 0.0 && p.targetWeight > 0.0 && |coins| > 0
    requires Simulation(coins, rows, vix, p).Ok?
    ensures var series := Amounts(Simulation(coins, rows, vix, p).value.values);
            |series| > 0 && AllPositive(series)
    ensures var series := Amounts(Simulation(coins, rows, vix, p).value.values);
            -1.0 < Drawdown.MaxDrawdown(series) <= 0.0
  {
    RebalancingProperties.SimulationOutput(coins, rows, vix, p);
    RebalancingProperties.SimulationValuesNonEmpty(coins, rows, vix, p);
  }
}
