/**
  The imperative simulation loop of `simulate_rebalanced_portfolio`
  (app.py:81-160), proved to compute `Rebalancing.Simulation`.
*/
module Simulation {
  import opened Series
  import opened Rebalancing

  /** Holdings at the base date (app.py:96-99). */
  method InitialPositions(basePrices: seq<real>, baseValue: real, targetWeight: real)
    returns (holdings: seq<real>)
    requires AllPositive(basePrices)
    ensures holdings == InitialHoldings(basePrices, baseValue, targetWeight)
  {
    ghost var initial := InitialHoldings(basePrices, baseValue, targetWeight);
    holdings := [];
    for c := 0 to |basePrices|
      invariant holdings == initial[..c]
    {
      assert Uniform(|basePrices|, targetWeight)[c] == targetWeight;
      assert initial[c] == (baseValue * targetWeight) / basePrices[c];
      assert initial[..c + 1] == initial[..c] + [initial[c]];
      holdings := holdings + [(baseValue * targetWeight) / basePrices[c]];
    }
  }

  /** The day's portfolio value and normalised weights (app.py:112-120). */
  method Valuation(holdings: seq<real>, prices: seq<real>) returns (currentValue: real, weights: seq<real>)
    requires |holdings| == |prices| && AllPositive(holdings) && AllPositive(prices)
    ensures currentValue == PortfolioValue(holdings, prices)
    ensures weights == Weights(holdings, prices)
  {
    currentValue := 0.0;
    weights := [];
    ghost var positions := PositionValues(holdings, prices);
    for c := 0 to |holdings|
      invariant weights == positions[..c]
      invariant currentValue == Sum(weights)
    {
      var coinValue := holdings[c] * prices[c];
      currentValue := currentValue + coinValue;
      assert coinValue == positions[c];
      assert positions[..c + 1] == positions[..c] + [coinValue];
      assert (weights + [coinValue])[..c] == weights;
      weights := weights + [coinValue];
    }
    assert weights == positions;
    assert currentValue == PortfolioValue(holdings, prices);

    // Normalise in place.
    ghost var normalised := Normalized(positions, currentValue);
    for c := 0 to |holdings|
      invariant |weights| == |holdings|
      invariant forall k :: 0 <= k < c ==> weights[k] == normalised[k]
      invariant forall k :: c <= k < |holdings| ==> weights[k] == positions[k]
    {
      weights := weights[c := weights[c] / currentValue];
    }
    assert weights == normalised;
  }

  /** Overwrites every coin's holding so that it is worth `value * targets[c]` (app.py:149-150). */
  method Rebalance(holdings: seq<real>, value: real, targets: seq<real>, prices: seq<real>)
    returns (h: seq<real>)
    requires |holdings| == |targets| == |prices| && AllPositive(prices)
    ensures h == Reset(value, targets, prices)
  {
    h := holdings;
    ghost var reset := Reset(value, targets, prices);
    for c := 0 to |prices|
      invariant |h| == |prices|
      invariant forall k :: 0 <= k < c ==> h[k] == reset[k]
    {
      h := h[c := (value * targets[c]) / prices[c]];
    }
  }

  method Simulate(coins: seq<Coin>, rows: seq<Row>, vix: map<int, real>, baseDate: int,
                  baseValue: real, targetWeight: real, threshold: real,
                  vixThreshold: real, vixBuffer: real)
    returns (r: Result<Output>)
    requires TableOk(|coins|, rows) && baseValue > 0.0 && targetWeight > 0.0
    ensures r == Simulation(coins, rows, vix,
                            Params(baseDate, baseValue, targetWeight, threshold, vixThreshold, vixBuffer))
  {
    ghost var p := Params(baseDate, baseValue, targetWeight, threshold, vixThreshold, vixBuffer);
    var base := FindDate(rows, baseDate);
    if base.None? {
      return Err(MissingBaseDate(baseDate));
    }
    var basePrices := rows[base.value].prices;
    assert RowOk(|coins|, rows[base.value]);
    var holdings := InitialPositions(basePrices, baseValue, targetWeight);

    var values: seq<Entry> := [];
    var rebalanceDates: seq<int> := [];
    var weightsHistory: seq<seq<real>> := [];
    var defensive := false;
    ghost var s0 := Start(holdings);

    for i := 0 to |rows|
      invariant StateOk(|coins|, s0)
      invariant Sim(holdings, defensive, values, rebalanceDates, weightsHistory)
                == Run(coins, p, vix, s0, rows[..i])
    {
      assert rows[..i + 1][..i] == rows[..i];
      var row := rows[i];
      if row.date < baseDate {
        continue;
      }

      var currentValue, weights := Valuation(holdings, row.prices);

      // Targets for the day.
      var currentVix := VixAt(vix, row.date);
      var triggered: bool;
      var targets: seq<real>;
      if currentVix > vixThreshold {
        targets := Targets(coins, true, targetWeight);
        triggered := true;
      } else {
        targets := Targets(coins, false, targetWeight);
        triggered := false;
      }

      // Hysteresis exit from the defensive regime.
      if !triggered && defensive {
        var deviation := Deviates(weights, Uniform(|coins|, targetWeight), threshold);
        if !deviation {
          rebalanceDates := rebalanceDates + [row.date];
          defensive := false;
          continue;
        }
      }

      if triggered {
        defensive := true;
      }

      var deviation := Deviates(weights, targets, threshold);
      if deviation || triggered {
        holdings := Rebalance(holdings, currentValue, targets, row.prices);
        rebalanceDates := rebalanceDates + [row.date];
        weightsHistory := weightsHistory + [weights];
        // save_weights_to_csv(current_weights) persists the same snapshot; not modelled.
      }

      values := values + [Entry(row.date, currentValue)];
    }
    assert rows[..|rows|] == rows;
    r := Ok(Output(values, rebalanceDates, weightsHistory));
  }
}
