/**
  Pure specification of the day-by-day rebalancing state machine of
  `simulate_rebalanced_portfolio` (app.py).

  The universe of coins is an ordered sequence; every dictionary the source
  keys by coin (holdings, current weights, target weights, a weight snapshot)
  is a `seq<real>` parallel to that sequence. Dates are day numbers. One day
  of the loop is `Step`; the whole loop is `Run`, a fold of `Step` over the
  rows of the price table.
*/
module Rebalancing {
  import opened Series

  type Coin = string

  /** The coin the defensive allocation favours; the source compares coin names with it. */
  const SafeCoin: Coin := "USDT"
  /** Hard-coded defensive weights: the safe coin, and every other coin. */
  const DefensiveSafeWeight: real := 0.50
  const DefensiveOtherWeight: real := 0.125

  /** One row of the price table: its date and one price per coin, in coin order. */
  datatype Row = Row(date: int, prices: seq<real>)

  /** One entry of the portfolio value series. */
  datatype Entry = Entry(date: int, value: real)

  /** The scalar arguments of the simulation, in the order the source takes them. */
  datatype Params = Params(baseDate: int, baseValue: real, targetWeight: real,
                           threshold: real, vixThreshold: real, vixBuffer: real)

  /** The loop state: units held per coin, the defensive-regime flag, and the three outputs so far. */
  datatype Sim = Sim(holdings: seq<real>, defensive: bool, values: seq<Entry>,
                     rebalanceDates: seq<int>, weightsHistory: seq<seq<real>>)

  /** What the simulation returns: the value series, the rebalancing dates and the weight snapshots. */
  datatype Output = Output(values: seq<Entry>, rebalanceDates: seq<int>, weightsHistory: seq<seq<real>>)

  datatype SimError = MissingBaseDate(date: int)

  datatype Result<T> = Ok(value: T) | Err(error: SimError)

  datatype Option<T> = None | Some(value: T)

  // ---------------------------------------------------------------------------
  // Sums of reals

  /** Sum of a sequence, accumulated from the front as the source's loop does. */
  function Sum(xs: seq<real>): real
  {
    if |xs| == 0 then 0.0 else Sum(xs[..|xs| - 1]) + xs[|xs| - 1]
  }

  lemma {:induction false} SumOfPositives(xs: seq<real>)
    ensures AllPositive(xs) && |xs| > 0 ==> Sum(xs) > 0.0
    ensures AllPositive(xs) ==> forall i :: 0 <= i < |xs| ==> xs[i] <= Sum(xs)
  {
    if AllPositive(xs) && |xs| > 0 {
      var front := xs[..|xs| - 1];
      SumOfPositives(front);
      assert front == [] ==> Sum(front) == 0.0;
      forall i | 0 <= i < |xs| ensures xs[i] <= Sum(xs) {
        if i < |xs| - 1 {
          assert xs[i] == front[i];
        }
      }
    }
  }

  /** The sum of a sequence divided pointwise by `d` is its sum divided by `d`. */
  lemma {:induction false} SumDivided(xs: seq<real>, d: real)
    requires d != 0.0
    ensures Sum(seq(|xs|, i requires 0 <= i < |xs| => xs[i] / d)) == Sum(xs) / d
  {
    var q := seq(|xs|, i requires 0 <= i < |xs| => xs[i] / d);
    if |xs| > 0 {
      var front := xs[..|xs| - 1];
      SumDivided(front, d);
      assert q[..|q| - 1] == seq(|front|, i requires 0 <= i < |front| => front[i] / d);
      assert (Sum(front) + xs[|xs| - 1]) / d == Sum(front) / d + xs[|xs| - 1] / d;
    }
  }

  /** Every element multiplied by `c`. */
  function Scaled(xs: seq<real>, c: real): (r: seq<real>)
    ensures |r| == |xs|
  {
    seq(|xs|, i requires 0 <= i < |xs| => c * xs[i])
  }

  /** The sum of a sequence scaled pointwise by `c` is `c` times its sum. */
  lemma {:induction false} SumScaled(xs: seq<real>, c: real)
    ensures Sum(Scaled(xs, c)) == c * Sum(xs)
  {
    if |xs| > 0 {
      var front := xs[..|xs| - 1];
      SumScaled(front, c);
      var q, qFront := Scaled(xs, c), Scaled(front, c);
      forall i | 0 <= i < |front| ensures q[i] == qFront[i] {
        assert q[i] == c * xs[i];
        assert qFront[i] == c * front[i];
      }
      assert q[..|xs| - 1] == qFront;
      assert c * (Sum(front) + xs[|xs| - 1]) == c * Sum(front) + c * xs[|xs| - 1];
    }
  }

  /** Each part of a positive whole, divided by the whole, lies in (0, 1]. */
  lemma {:induction false} ShareOfSum(xs: seq<real>)
    requires AllPositive(xs)
    ensures |xs| > 0 ==> Sum(xs) > 0.0
    ensures forall i :: 0 <= i < |xs| ==> 0.0 < xs[i] / Sum(xs) <= 1.0
  {
    SumOfPositives(xs);
    forall i | 0 <= i < |xs| ensures 0.0 < xs[i] / Sum(xs) <= 1.0 {
      var total := Sum(xs);
      assert 0.0 < xs[i] <= total;
      assert xs[i] / total <= total / total;
    }
  }

  /** Sequences equal pointwise have equal sums. */
  lemma {:induction false} SumPointwise(xs: seq<real>, ys: seq<real>)
    requires |xs| == |ys|
    requires forall i :: 0 <= i < |xs| ==> xs[i] == ys[i]
    ensures Sum(xs) == Sum(ys)
  {
    assert xs == ys;
  }

  // ---------------------------------------------------------------------------
  // Valuation (app.py:112-120)

  /** Value of each position at the given prices (`coin_value` in the source). */
  function PositionValues(holdings: seq<real>, prices: seq<real>): (r: seq<real>)
    requires |holdings| == |prices|
    ensures |r| == |holdings|
    ensures AllPositive(holdings) && AllPositive(prices) ==> AllPositive(r)
  {
    seq(|holdings|, i requires 0 <= i < |holdings| => holdings[i] * prices[i])
  }

  /** Portfolio value: the sum of the position values (`current_value`). */
  function PortfolioValue(holdings: seq<real>, prices: seq<real>): (v: real)
    requires |holdings| == |prices|
    ensures AllPositive(holdings) && AllPositive(prices) && |holdings| > 0 ==> v > 0.0
  {
    var cv := PositionValues(holdings, prices);
    SumOfPositives(cv);
    Sum(cv)
  }

  /** Every element divided by `d` (the in-place division at app.py:119-120). */
  function Normalized(xs: seq<real>, d: real): (r: seq<real>)
    requires |xs| > 0 ==> d != 0.0
    ensures |r| == |xs|
  {
    seq(|xs|, i requires 0 <= i < |xs| => xs[i] / d)
  }

  /** Normalised weights (`current_weights` after app.py:120): each in (0, 1], together 1. */
  function Weights(holdings: seq<real>, prices: seq<real>): (w: seq<real>)
    requires |holdings| == |prices| && AllPositive(holdings) && AllPositive(prices)
    ensures |w| == |holdings|
    ensures forall i :: 0 <= i < |w| ==> 0.0 < w[i] <= 1.0
    ensures |w| > 0 ==> Sum(w) == 1.0
  {
    var cv := PositionValues(holdings, prices);
    var total := PortfolioValue(holdings, prices);
    WeightsBounds(cv, total);
    Normalized(cv, total)
  }

  lemma WeightsBounds(cv: seq<real>, total: real)
    requires AllPositive(cv) && total == Sum(cv)
    ensures |cv| > 0 ==> total > 0.0
    ensures forall i :: 0 <= i < |cv| ==> 0.0 < Normalized(cv, total)[i] <= 1.0
    ensures |cv| > 0 ==> Sum(Normalized(cv, total)) == 1.0
  {
    ShareOfSum(cv);
    if |cv| > 0 {
      SumDivided(cv, total);
      assert Normalized(cv, total) == seq(|cv|, i requires 0 <= i < |cv| => cv[i] / total);
    }
  }

  // ---------------------------------------------------------------------------
  // Target allocation (app.py:124-130)

  /** The VIX reading of a date; a date missing from the series reads as 0. */
  function VixAt(vix: map<int, real>, date: int): real
  {
    if date in vix then vix[date] else 0.0
  }

  /** The defensive target of one coin: 0.50 for the safe coin, 0.125 for any other. */
  function DefensiveWeight(c: Coin): real
  {
    if c == SafeCoin then DefensiveSafeWeight else DefensiveOtherWeight
  }

  /** Every coin gets the same target (the normal regime, and the hysteresis test). */
  function Uniform(n: nat, targetWeight: real): (t: seq<real>)
    ensures |t| == n
    ensures targetWeight > 0.0 ==> AllPositive(t)
  {
    seq(n, _ => targetWeight)
  }

  /** The defensive allocation, coin by coin. */
  function DefensiveTargets(coins: seq<Coin>): (t: seq<real>)
    ensures |t| == |coins| && AllPositive(t)
  {
    seq(|coins|, i requires 0 <= i < |coins| => DefensiveWeight(coins[i]))
  }

  /** The day's targets (`new_target_weights`). */
  function Targets(coins: seq<Coin>, triggered: bool, targetWeight: real): (t: seq<real>)
    ensures |t| == |coins|
    ensures targetWeight > 0.0 ==> AllPositive(t)
  {
    if triggered then DefensiveTargets(coins) else Uniform(|coins|, targetWeight)
  }

  function Abs(x: real): real
  {
    if x < 0.0 then -x else x
  }

  /** Some coin's weight differs from its target by strictly more than the threshold (`any(...)`). */
  predicate Deviates(weights: seq<real>, targets: seq<real>, threshold: real)
    requires |weights| == |targets|
  {
    exists i :: 0 <= i < |weights| && Abs(weights[i] - targets[i]) > threshold
  }

  // ---------------------------------------------------------------------------
  // Holdings reset (app.py:96-99 and 149-150)

  /** Units per coin so that each coin is worth `value * targets[c]` at `prices`. */
  function Reset(value: real, targets: seq<real>, prices: seq<real>): (h: seq<real>)
    requires |targets| == |prices| && AllPositive(prices)
    ensures |h| == |prices|
    ensures value > 0.0 && AllPositive(targets) ==> AllPositive(h)
  {
    seq(|prices|, i requires 0 <= i < |prices| => (value * targets[i]) / prices[i])
  }

  /** Holdings at the base date: every coin worth `baseValue * targetWeight`. */
  function InitialHoldings(basePrices: seq<real>, baseValue: real, targetWeight: real): (h: seq<real>)
    requires AllPositive(basePrices)
    ensures |h| == |basePrices|
    ensures baseValue > 0.0 && targetWeight > 0.0 ==> AllPositive(h)
  {
    Reset(baseValue, Uniform(|basePrices|, targetWeight), basePrices)
  }

  // ---------------------------------------------------------------------------
  // One day of the loop (app.py:107-157)

  predicate StateOk(n: nat, s: Sim)
  {
    |s.holdings| == n && AllPositive(s.holdings)
  }

  predicate RowOk(n: nat, row: Row)
  {
    |row.prices| == n && AllPositive(row.prices)
  }

  /** Every row prices every coin, and every price is positive. */
  predicate TableOk(n: nat, rows: seq<Row>)
  {
    forall i :: 0 <= i < |rows| ==> RowOk(n, rows[i])
  }

  predicate DatesIncreasing(rows: seq<Row>)
  {
    forall i, j :: 0 <= i < j < |rows| ==> rows[i].date < rows[j].date
  }

  /** The hysteresis exit applies: no VIX trigger, defensive regime, all weights near `targetWeight`. */
  predicate IsExit(n: nat, p: Params, triggered: bool, defensive: bool, weights: seq<real>)
    requires |weights| == n
  {
    !triggered && defensive && !Deviates(weights, Uniform(n, p.targetWeight), p.threshold)
  }

  function Step(coins: seq<Coin>, p: Params, vix: map<int, real>, s: Sim, row: Row): (r: Sim)
    requires StateOk(|coins|, s) && RowOk(|coins|, row) && p.targetWeight > 0.0
    ensures StateOk(|coins|, r)
  {
    if row.date < p.baseDate then s
    else
      var value := PortfolioValue(s.holdings, row.prices);
      var weights := Weights(s.holdings, row.prices);
      var triggered := VixAt(vix, row.date) > p.vixThreshold;
      var targets := Targets(coins, triggered, p.targetWeight);
      if IsExit(|coins|, p, triggered, s.defensive, weights) then
        s.(defensive := false, rebalanceDates := s.rebalanceDates + [row.date])
      else
        var defensive := triggered || s.defensive;
        var values := s.values + [Entry(row.date, value)];
        if Deviates(weights, targets, p.threshold) || triggered then
          Sim(Reset(value, targets, row.prices), defensive, values,
              s.rebalanceDates + [row.date], s.weightsHistory + [weights])
        else
          s.(defensive := defensive, values := values)
  }

  /** The loop over the first rows of the table, from state `s0`. */
  function Run(coins: seq<Coin>, p: Params, vix: map<int, real>, s0: Sim, rows: seq<Row>): (r: Sim)
    requires StateOk(|coins|, s0) && TableOk(|coins|, rows) && p.targetWeight > 0.0
    ensures StateOk(|coins|, r)
    decreases |rows|
  {
    if |rows| == 0 then s0
    else Step(coins, p, vix, Run(coins, p, vix, s0, rows[..|rows| - 1]), rows[|rows| - 1])
  }

  /** Index of the row with the given date (`prices_df.loc[base_date]`). */
  function FindDate(rows: seq<Row>, date: int): (r: Option<nat>)
    ensures r.Some? ==> r.value < |rows| && rows[r.value].date == date
    ensures r.None? ==> forall i :: 0 <= i < |rows| ==> rows[i].date != date
  {
    if |rows| == 0 then None
    else if rows[0].date == date then Some(0)
    else match FindDate(rows[1..], date)
      case None => None
      case Some(k) => Some(k + 1)
  }

  /** The state before the first day: base-date holdings, normal regime, empty outputs. */
  function Start(holdings: seq<real>): Sim
  {
    Sim(holdings, false, [], [], [])
  }

  /** The whole simulation: what `simulate_rebalanced_portfolio` returns, or the missing base date. */
  function Simulation(coins: seq<Coin>, rows: seq<Row>, vix: map<int, real>, p: Params): (r: Result<Output>)
    requires TableOk(|coins|, rows) && p.baseValue > 0.0 && p.targetWeight > 0.0
  {
    match FindDate(rows, p.baseDate)
    case None => Err(MissingBaseDate(p.baseDate))
    case Some(b) =>
      var h := InitialHoldings(rows[b].prices, p.baseValue, p.targetWeight);
      var s := Run(coins, p, vix, Start(h), rows);
      Ok(Output(s.values, s.rebalanceDates, s.weightsHistory))
  }
}

/** Properties of the allocation policy, of one day, and of the whole loop. */
module RebalancingProperties {
  import opened Series
  import opened Rebalancing

  // ---------------------------------------------------------------------------
  // Target allocations

  /** The equal-weight targets add up to n * targetWeight (1 exactly when targetWeight == 1/n). */
  lemma {:induction false} UniformSum(n: nat, targetWeight: real)
    ensures Sum(Uniform(n, targetWeight)) == n as real * targetWeight
  {
    if n > 0 {
      UniformSum(n - 1, targetWeight);
      assert Uniform(n, targetWeight)[..n - 1] == Uniform(n - 1, targetWeight);
    }
  }

  /** The defensive targets add up to 0.125 per coin plus 0.375 per occurrence of the safe coin. */
  lemma {:induction false} DefensiveSum(coins: seq<Coin>)
    ensures Sum(DefensiveTargets(coins)) == 0.125 * |coins| as real + 0.375 * multiset(coins)[SafeCoin] as real
  {
    if |coins| > 0 {
      var front := coins[..|coins| - 1];
      DefensiveSum(front);
      assert DefensiveTargets(coins)[..|coins| - 1] == DefensiveTargets(front);
      assert coins == front + [coins[|coins| - 1]];
    }
  }

  /**
    The hard-coded defensive weights add up to 1 exactly when the universe has
    |coins| + 3 * (occurrences of the safe coin) == 8: five coins one of which is
    the safe coin, or eight coins without it.
  */
  lemma DefensiveSumIsOne(coins: seq<Coin>)
    ensures Sum(DefensiveTargets(coins)) == 1.0 <==> |coins| + 3 * multiset(coins)[SafeCoin] == 8
  {
    DefensiveSum(coins);
  }

  // ---------------------------------------------------------------------------
  // Holdings reset

  /** After a reset the portfolio is worth `value * Sum(targets)` at the same prices. */
  lemma ResetValue(value: real, targets: seq<real>, prices: seq<real>)
    requires |targets| == |prices| && AllPositive(prices)
    ensures PortfolioValue(Reset(value, targets, prices), prices) == value * Sum(targets)
  {
    ResetPositions(value, targets, prices);
    SumScaled(targets, value);
  }

  /** After a reset each coin is worth `value` times its target. */
  lemma ResetPositions(value: real, targets: seq<real>, prices: seq<real>)
    requires |targets| == |prices| && AllPositive(prices)
    ensures PositionValues(Reset(value, targets, prices), prices) == Scaled(targets, value)
  {
    var h := Reset(value, targets, prices);
    var positions := PositionValues(h, prices);
    forall i | 0 <= i < |positions| ensures positions[i] == Scaled(targets, value)[i] {
      assert positions[i] == ((value * targets[i]) / prices[i]) * prices[i];
      assert ((value * targets[i]) / prices[i]) * prices[i] == value * targets[i];
    }
  }

  /** At the base date every coin is worth `baseValue * targetWeight`. */
  lemma InitialPositionsWorth(basePrices: seq<real>, baseValue: real, targetWeight: real)
    requires AllPositive(basePrices)
    ensures forall i :: 0 <= i < |basePrices| ==>
              PositionValues(InitialHoldings(basePrices, baseValue, targetWeight), basePrices)[i]
              == baseValue * targetWeight
  {
    var u := Uniform(|basePrices|, targetWeight);
    var h := InitialHoldings(basePrices, baseValue, targetWeight);
    ResetPositions(baseValue, u, basePrices);
    forall i | 0 <= i < |basePrices| ensures PositionValues(h, basePrices)[i] == baseValue * targetWeight {
      assert Scaled(u, baseValue)[i] == baseValue * u[i];
    }
  }

  /** At the base date the portfolio is worth `baseValue * n * targetWeight`. */
  lemma InitialPortfolioWorth(basePrices: seq<real>, baseValue: real, targetWeight: real)
    requires AllPositive(basePrices)
    ensures PortfolioValue(InitialHoldings(basePrices, baseValue, targetWeight), basePrices)
            == baseValue * (|basePrices| as real * targetWeight)
  {
    var u := Uniform(|basePrices|, targetWeight);
    var h := Reset(baseValue, u, basePrices);
    assert InitialHoldings(basePrices, baseValue, targetWeight) == h;
    ResetValue(baseValue, u, basePrices);
    UniformSum(|basePrices|, targetWeight);
    var total := Sum(u);
    assert PortfolioValue(h, basePrices) == baseValue * total;
    assert total == |basePrices| as real * targetWeight;
  }

  /** Scaling by a non-zero factor and dividing by it again gives back the sequence. */
  lemma NormalizedScaled(xs: seq<real>, c: real)
    requires c != 0.0
    ensures Normalized(Scaled(xs, c), c) == xs
  {
    var w := Normalized(Scaled(xs, c), c);
    forall i | 0 <= i < |w| ensures w[i] == xs[i] {
      assert w[i] == (c * xs[i]) / c;
      assert (c * xs[i]) / c == xs[i];
    }
  }

  /** When the targets add up to 1, a reset conserves the value and lands exactly on the targets. */
  lemma ResetHitsTargets(value: real, targets: seq<real>, prices: seq<real>)
    requires |targets| == |prices| && AllPositive(prices) && AllPositive(targets)
    requires value > 0.0 && Sum(targets) == 1.0
    ensures PortfolioValue(Reset(value, targets, prices), prices) == value
    ensures Weights(Reset(value, targets, prices), prices) == targets
  {
    var h := Reset(value, targets, prices);
    ResetValue(value, targets, prices);
    ResetPositions(value, targets, prices);
    assert PortfolioValue(h, prices) == value;
    assert Weights(h, prices) == Normalized(Scaled(targets, value), value);
    NormalizedScaled(targets, value);
  }

  // ---------------------------------------------------------------------------
  // One day

  /** Rows dated before the base date leave the state untouched (app.py:108-109). */
  lemma EarlyRowIgnored(coins: seq<Coin>, p: Params, vix: map<int, real>, s: Sim, row: Row)
    requires StateOk(|coins|, s) && RowOk(|coins|, row) && p.targetWeight > 0.0
    requires row.date < p.baseDate
    ensures Step(coins, p, vix, s, row) == s
  {
  }

  /**
    A day whose VIX reading (0 when the date is missing) exceeds the threshold always
    rebalances into the defensive allocation and sets the regime flag
    (app.py:124-127, 141-142, 147-154).
  */
  lemma VixDayRebalances(coins: seq<Coin>, p: Params, vix: map<int, real>, s: Sim, row: Row)
    requires StateOk(|coins|, s) && RowOk(|coins|, row) && p.targetWeight > 0.0
    requires row.date >= p.baseDate && VixAt(vix, row.date) > p.vixThreshold
    ensures var r := Step(coins, p, vix, s, row);
            var value := PortfolioValue(s.holdings, row.prices);
            && r.defensive
            && r.holdings == Reset(value, DefensiveTargets(coins), row.prices)
            && r.rebalanceDates == s.rebalanceDates + [row.date]
            && r.weightsHistory == s.weightsHistory + [Weights(s.holdings, row.prices)]
            && r.values == s.values + [Entry(row.date, value)]
  {
  }

  /** A date missing from the VIX series never triggers while the threshold is not negative. */
  lemma MissingVixNeverTriggers(vix: map<int, real>, date: int, vixThreshold: real)
    requires date !in vix && vixThreshold >= 0.0
    ensures !(VixAt(vix, date) > vixThreshold)
  {
  }

  /**
    The day's targets: with VIX (0 for a missing date) above the threshold, 0.50 for
    "USDT" and 0.125 for every other coin; otherwise `targetWeight` for every coin.
  */
  lemma TargetSelection(coins: seq<Coin>, vix: map<int, real>, date: int, vixThreshold: real,
                        targetWeight: real)
    ensures date !in vix ==> VixAt(vix, date) == 0.0
    ensures var t := Targets(coins, VixAt(vix, date) > vixThreshold, targetWeight);
            forall c :: 0 <= c < |coins| ==>
              t[c] == (if VixAt(vix, date) > vixThreshold
                       then (if coins[c] == "USDT" then 0.50 else 0.125)
                       else targetWeight)
  {
  }

  /** The flag is only ever set by a VIX trigger (app.py:141-142). */
  lemma FlagSetOnlyByVix(coins: seq<Coin>, p: Params, vix: map<int, real>, s: Sim, row: Row)
    requires StateOk(|coins|, s) && RowOk(|coins|, row) && p.targetWeight > 0.0
    requires !s.defensive && Step(coins, p, vix, s, row).defensive
    ensures row.date >= p.baseDate && VixAt(vix, row.date) > p.vixThreshold
  {
  }

  /**
    The flag is cleared exactly on the hysteresis exit: no VIX trigger and every weight
    within `threshold` of `targetWeight` (app.py:133-138). That day is a rebalancing
    date, but holdings, weight snapshots and the value series are left as they were.
  */
  lemma HysteresisExit(coins: seq<Coin>, p: Params, vix: map<int, real>, s: Sim, row: Row)
    requires StateOk(|coins|, s) && RowOk(|coins|, row) && p.targetWeight > 0.0
    requires s.defensive && row.date >= p.baseDate
    ensures var r := Step(coins, p, vix, s, row);
            var w := Weights(s.holdings, row.prices);
            !r.defensive <==> (VixAt(vix, row.date) <= p.vixThreshold
                               && forall i :: 0 <= i < |w| ==> Abs(w[i] - p.targetWeight) <= p.threshold)
    ensures var r := Step(coins, p, vix, s, row);
            !r.defensive ==> && r.holdings == s.holdings
                             && r.values == s.values
                             && r.weightsHistory == s.weightsHistory
                             && r.rebalanceDates == s.rebalanceDates + [row.date]
  {
  }

  /**
    Without a VIX trigger, a deviation from `targetWeight` beyond the threshold rebalances
    to equal weights and leaves the flag as it was (app.py:145-154).
  */
  lemma DriftRebalance(coins: seq<Coin>, p: Params, vix: map<int, real>, s: Sim, row: Row)
    requires StateOk(|coins|, s) && RowOk(|coins|, row) && p.targetWeight > 0.0
    requires row.date >= p.baseDate && VixAt(vix, row.date) <= p.vixThreshold
    requires exists i :: 0 <= i < |coins| &&
               Abs(Weights(s.holdings, row.prices)[i] - p.targetWeight) > p.threshold
    ensures var r := Step(coins, p, vix, s, row);
            var value := PortfolioValue(s.holdings, row.prices);
            && r.defensive == s.defensive
            && r.holdings == Reset(value, Uniform(|coins|, p.targetWeight), row.prices)
            && r.rebalanceDates == s.rebalanceDates + [row.date]
            && r.weightsHistory == s.weightsHistory + [Weights(s.holdings, row.prices)]
            && r.values == s.values + [Entry(row.date, value)]
  {
  }

  /**
    In the normal regime with no VIX trigger, weights within the threshold (a deviation
    equal to the threshold included, the test being a strict `>`) leave the holdings
    alone; only the value is recorded (app.py:145-157).
  */
  lemma WithinThresholdHolds(coins: seq<Coin>, p: Params, vix: map<int, real>, s: Sim, row: Row)
    requires StateOk(|coins|, s) && RowOk(|coins|, row) && p.targetWeight > 0.0
    requires row.date >= p.baseDate && VixAt(vix, row.date) <= p.vixThreshold && !s.defensive
    requires forall i :: 0 <= i < |coins| ==>
               Abs(Weights(s.holdings, row.prices)[i] - p.targetWeight) <= p.threshold
    ensures Step(coins, p, vix, s, row)
            == s.(values := s.values + [Entry(row.date, PortfolioValue(s.holdings, row.prices))])
  {
  }

  /**
    While the defensive flag is set, every processed day is a rebalancing date: the exit
    test and the drift test compare the same weights with the same equal-weight targets,
    so one of them fires.
  */
  lemma DefensiveDayRebalances(coins: seq<Coin>, p: Params, vix: map<int, real>, s: Sim, row: Row)
    requires StateOk(|coins|, s) && RowOk(|coins|, row) && p.targetWeight > 0.0
    requires s.defensive && row.date >= p.baseDate
    ensures Step(coins, p, vix, s, row).rebalanceDates == s.rebalanceDates + [row.date]
  {
  }

  /**
    On a rebalance the recorded value is the pre-rebalance value, the snapshot is the
    pre-rebalance weights, and the new holdings are worth `value * Sum(targets)`; when the
    targets add up to 1 the value is conserved and the new weights are the targets.
  */
  lemma RebalanceAccounting(coins: seq<Coin>, p: Params, vix: map<int, real>, s: Sim, row: Row)
    requires StateOk(|coins|, s) && RowOk(|coins|, row) && p.targetWeight > 0.0
    requires row.date >= p.baseDate
    requires |Step(coins, p, vix, s, row).weightsHistory| > |s.weightsHistory|
    ensures var r := Step(coins, p, vix, s, row);
            var value := PortfolioValue(s.holdings, row.prices);
            var targets := Targets(coins, VixAt(vix, row.date) > p.vixThreshold, p.targetWeight);
            && r.values == s.values + [Entry(row.date, value)]
            && r.weightsHistory == s.weightsHistory + [Weights(s.holdings, row.prices)]
            && PortfolioValue(r.holdings, row.prices) == value * Sum(targets)
            && (Sum(targets) == 1.0 && |coins| > 0 ==>
                  PortfolioValue(r.holdings, row.prices) == value
                  && Weights(r.holdings, row.prices) == targets)
  {
    var value := PortfolioValue(s.holdings, row.prices);
    var targets := Targets(coins, VixAt(vix, row.date) > p.vixThreshold, p.targetWeight);
    ResetValue(value, targets, row.prices);
    if Sum(targets) == 1.0 && |coins| > 0 {
      ResetHitsTargets(value, targets, row.prices);
    }
  }

  // ---------------------------------------------------------------------------
  // The whole loop

  /** Number of rows dated on or after the base date: the days the loop processes. */
  function Processed(rows: seq<Row>, baseDate: int): (n: nat)
    ensures n <= |rows|
    decreases |rows|
  {
    if |rows| == 0 then 0
    else Processed(rows[..|rows| - 1], baseDate) + (if rows[|rows| - 1].date >= baseDate then 1 else 0)
  }

  /**
    Every processed day adds a value, a rebalancing date, or both, and a weight snapshot
    exactly when it adds both: an exit day adds only a date, a quiet day only a value.
  */
  lemma {:induction false} RunBookkeeping(coins: seq<Coin>, p: Params, vix: map<int, real>,
                                          h: seq<real>, rows: seq<Row>)
    requires StateOk(|coins|, Start(h)) && TableOk(|coins|, rows) && p.targetWeight > 0.0
    ensures var r := Run(coins, p, vix, Start(h), rows);
            && |r.values| + |r.rebalanceDates| == Processed(rows, p.baseDate) + |r.weightsHistory|
            && |r.weightsHistory| <= |r.values| <= Processed(rows, p.baseDate)
            && |r.weightsHistory| <= |r.rebalanceDates| <= Processed(rows, p.baseDate)
    decreases |rows|
  {
    if |rows| > 0 {
      RunBookkeeping(coins, p, vix, h, rows[..|rows| - 1]);
    }
  }

  /** A weight vector over `n` coins: each weight in (0, 1], together 1. */
  predicate IsWeighting(n: nat, w: seq<real>)
  {
    && |w| == n
    && (forall c :: 0 <= c < n ==> 0.0 < w[c] <= 1.0)
    && (n > 0 ==> Sum(w) == 1.0)
  }

  /** Recorded values are positive and every snapshot is a weight vector. */
  predicate RecordsOk(n: nat, values: seq<Entry>, weightsHistory: seq<seq<real>>)
  {
    && (forall k :: 0 <= k < |values| ==> values[k].value > 0.0)
    && (forall k :: 0 <= k < |weightsHistory| ==> IsWeighting(n, weightsHistory[k]))
  }

  lemma StepKeepsRecords(coins: seq<Coin>, p: Params, vix: map<int, real>, s: Sim, row: Row)
    requires StateOk(|coins|, s) && RowOk(|coins|, row) && p.targetWeight > 0.0
    requires |coins| > 0 && RecordsOk(|coins|, s.values, s.weightsHistory)
    ensures var r := Step(coins, p, vix, s, row);
            RecordsOk(|coins|, r.values, r.weightsHistory)
  {
    if row.date >= p.baseDate {
      var r := Step(coins, p, vix, s, row);
      var w := Weights(s.holdings, row.prices);
      assert IsWeighting(|coins|, w);
      assert PortfolioValue(s.holdings, row.prices) > 0.0;
      assert forall k :: 0 <= k < |r.weightsHistory| ==>
        r.weightsHistory[k] == w || r.weightsHistory[k] == s.weightsHistory[k];
    }
  }

  /**
    With at least one coin, every value the loop records is positive and every weight
    snapshot holds weights in (0, 1] that add up to 1.
  */
  lemma {:induction false} RunKeepsRecords(coins: seq<Coin>, p: Params, vix: map<int, real>,
                                           h: seq<real>, rows: seq<Row>)
    requires StateOk(|coins|, Start(h)) && TableOk(|coins|, rows) && p.targetWeight > 0.0
    requires |coins| > 0
    ensures var r := Run(coins, p, vix, Start(h), rows);
            RecordsOk(|coins|, r.values, r.weightsHistory)
    decreases |rows|
  {
    if |rows| > 0 {
      RunKeepsRecords(coins, p, vix, h, rows[..|rows| - 1]);
      StepKeepsRecords(coins, p, vix, Run(coins, p, vix, Start(h), rows[..|rows| - 1]), rows[|rows| - 1]);
    }
  }

  predicate StrictlyIncreasing(ds: seq<int>)
  {
    forall i, j :: 0 <= i < j < |ds| ==> ds[i] < ds[j]
  }

  predicate Within(ds: seq<int>, lo: int, hi: int)
  {
    forall k :: 0 <= k < |ds| ==> lo <= ds[k] <= hi
  }

  function ValueDates(values: seq<Entry>): (ds: seq<int>)
    ensures |ds| == |values|
  {
    seq(|values|, k requires 0 <= k < |values| => values[k].date)
  }

  /** One day adds its own date to each list at most once, and only when it is processed. */
  lemma StepDates(coins: seq<Coin>, p: Params, vix: map<int, real>, s: Sim, row: Row)
    requires StateOk(|coins|, s) && RowOk(|coins|, row) && p.targetWeight > 0.0
    ensures var r := Step(coins, p, vix, s, row);
            && (r.values == s.values || (row.date >= p.baseDate && r.values == s.values + [Entry(row.date, r.values[|s.values|].value)]))
            && (r.rebalanceDates == s.rebalanceDates
                || (row.date >= p.baseDate && r.rebalanceDates == s.rebalanceDates + [row.date]))
  {
  }

  /** Appending a date later than every recorded one keeps the list increasing. */
  lemma AppendLater(ds: seq<int>, d: int, lo: int)
    requires StrictlyIncreasing(ds) && Within(ds, lo, d - 1) && lo <= d
    ensures StrictlyIncreasing(ds + [d]) && Within(ds + [d], lo, d)
  {
  }

  /**
    On a table with increasing dates, the value series and the rebalancing dates are
    strictly increasing and lie between the base date and the last date, so no date is
    recorded twice (the source keeps the values in a dictionary keyed by date).
  */
  lemma {:induction false} RunDatesOrdered(coins: seq<Coin>, p: Params, vix: map<int, real>,
                                           h: seq<real>, rows: seq<Row>)
    requires StateOk(|coins|, Start(h)) && TableOk(|coins|, rows) && p.targetWeight > 0.0
    requires DatesIncreasing(rows)
    ensures var r := Run(coins, p, vix, Start(h), rows);
            && StrictlyIncreasing(ValueDates(r.values))
            && StrictlyIncreasing(r.rebalanceDates)
            && (|rows| == 0 ==> r.values == [] && r.rebalanceDates == [])
            && (|rows| > 0 ==>
                  Within(ValueDates(r.values), p.baseDate, rows[|rows| - 1].date)
                  && Within(r.rebalanceDates, p.baseDate, rows[|rows| - 1].date))
    decreases |rows|
  {
    if |rows| > 0 {
      var front := rows[..|rows| - 1];
      var row := rows[|rows| - 1];
      RunDatesOrdered(coins, p, vix, h, front);
      var prev := Run(coins, p, vix, Start(h), front);
      var r := Step(coins, p, vix, prev, row);
      StepDates(coins, p, vix, prev, row);
      var pd := ValueDates(prev.values);
      if |front| > 0 {
        assert front[|front| - 1].date < row.date;
      }
      assert Within(pd, p.baseDate, row.date - 1);
      assert Within(prev.rebalanceDates, p.baseDate, row.date - 1);
      if r.values != prev.values {
        AppendLater(pd, row.date, p.baseDate);
        assert ValueDates(r.values) == pd + [row.date];
      }
      if r.rebalanceDates != prev.rebalanceDates {
        AppendLater(prev.rebalanceDates, row.date, p.baseDate);
      }
    }
  }

  // ---------------------------------------------------------------------------
  // The whole simulation

  /** The simulation fails exactly when no row carries the base date (`prices_df.loc` at app.py:97). */
  lemma SimulationFailsIffNoBaseDate(coins: seq<Coin>, rows: seq<Row>, vix: map<int, real>, p: Params)
    requires TableOk(|coins|, rows) && p.baseValue > 0.0 && p.targetWeight > 0.0
    ensures Simulation(coins, rows, vix, p).Err?
            <==> forall i :: 0 <= i < |rows| ==> rows[i].date != p.baseDate
    ensures Simulation(coins, rows, vix, p).Err? ==>
              Simulation(coins, rows, vix, p).error == MissingBaseDate(p.baseDate)
  {
  }

  /**
    What a successful simulation returns: one value or one rebalancing date (or both) per
    day on or after the base date, one weight snapshot per day that has both, positive
    values, snapshots that are weight vectors, and, on a table with increasing dates,
    increasing dates between the base date and the last date.
  */
  lemma SimulationOutput(coins: seq<Coin>, rows: seq<Row>, vix: map<int, real>, p: Params)
    requires TableOk(|coins|, rows) && p.baseValue > 0.0 && p.targetWeight > 0.0
    requires Simulation(coins, rows, vix, p).Ok?
    ensures var out := Simulation(coins, rows, vix, p).value;
            && |out.values| + |out.rebalanceDates| == Processed(rows, p.baseDate) + |out.weightsHistory|
            && |out.weightsHistory| <= |out.values| <= Processed(rows, p.baseDate)
            && |out.weightsHistory| <= |out.rebalanceDates| <= Processed(rows, p.baseDate)
    ensures var out := Simulation(coins, rows, vix, p).value;
            |coins| > 0 ==> RecordsOk(|coins|, out.values, out.weightsHistory)
    ensures var out := Simulation(coins, rows, vix, p).value;
            DatesIncreasing(rows) ==>
              && |rows| > 0
              && StrictlyIncreasing(ValueDates(out.values))
              && StrictlyIncreasing(out.rebalanceDates)
              && Within(ValueDates(out.values), p.baseDate, rows[|rows| - 1].date)
              && Within(out.rebalanceDates, p.baseDate, rows[|rows| - 1].date)
  {
    var b := FindDate(rows, p.baseDate).value;
    var h := InitialHoldings(rows[b].prices, p.baseValue, p.targetWeight);
    assert RowOk(|coins|, rows[b]);
    RunBookkeeping(coins, p, vix, h, rows);
    if |coins| > 0 {
      RunKeepsRecords(coins, p, vix, h, rows);
    }
    if DatesIncreasing(rows) {
      RunDatesOrdered(coins, p, vix, h, rows);
    }
  }

  /** A table with a row dated on or after the base date has a day to process. */
  lemma {:induction false} ProcessedPositive(rows: seq<Row>, baseDate: int, i: int)
    requires 0 <= i < |rows| && rows[i].date >= baseDate
    ensures Processed(rows, baseDate) > 0
    decreases |rows|
  {
    if i < |rows| - 1 {
      ProcessedPositive(rows[..|rows| - 1], baseDate, i);
    }
  }

  /**
    Until the first processed day the state is the start state; from then on the value
    series is not empty: the flag starts false, so the first processed day cannot be a
    hysteresis exit and records its value, and no later day removes one.
  */
  lemma {:induction false} RunRecordsFirstDay(coins: seq<Coin>, p: Params, vix: map<int, real>,
                                              h: seq<real>, rows: seq<Row>)
    requires StateOk(|coins|, Start(h)) && TableOk(|coins|, rows) && p.targetWeight > 0.0
    ensures Processed(rows, p.baseDate) == 0 ==> Run(coins, p, vix, Start(h), rows) == Start(h)
    ensures Processed(rows, p.baseDate) > 0 ==> |Run(coins, p, vix, Start(h), rows).values| > 0
    decreases |rows|
  {
    if |rows| > 0 {
      var front := rows[..|rows| - 1];
      var row := rows[|rows| - 1];
      RunRecordsFirstDay(coins, p, vix, h, front);
      var prev := Run(coins, p, vix, Start(h), front);
      StepDates(coins, p, vix, prev, row);
      if Processed(front, p.baseDate) == 0 && row.date >= p.baseDate {
        assert !prev.defensive;
        assert |Step(coins, p, vix, prev, row).values| == 1;
      }
    }
  }

  /** A successful simulation records at least one value: the base date's own row. */
  lemma SimulationValuesNonEmpty(coins: seq<Coin>, rows: seq<Row>, vix: map<int, real>, p: Params)
    requires TableOk(|coins|, rows) && p.baseValue > 0.0 && p.targetWeight > 0.0
    requires Simulation(coins, rows, vix, p).Ok?
    ensures |Simulation(coins, rows, vix, p).value.values| > 0
  {
    var b := FindDate(rows, p.baseDate).value;
    var h := InitialHoldings(rows[b].prices, p.baseValue, p.targetWeight);
    assert RowOk(|coins|, rows[b]);
    ProcessedPositive(rows, p.baseDate, b);
    RunRecordsFirstDay(coins, p, vix, h, rows);
  }

  /**
    Two coins, no VIX reading, a 5% threshold: on day 2 BTC doubles, its weight drifts to
    2/3 and the portfolio, worth 150, is rebalanced back to equal weights.
  */
  lemma DriftScenario()
    ensures Simulation(["BTC", "USDT"], [Row(1, [1.0, 1.0]), Row(2, [2.0, 1.0])], map[],
                       Params(1, 100.0, 0.5, 0.05, 20.0, 0.04))
            == Ok(Output([Entry(1, 100.0), Entry(2, 150.0)], [2], [[2.0 / 3.0, 1.0 / 3.0]]))
  {
    var coins := ["BTC", "USDT"];
    var rows := [Row(1, [1.0, 1.0]), Row(2, [2.0, 1.0])];
    var vix: map<int, real> := map[];
    var p := Params(1, 100.0, 0.5, 0.05, 20.0, 0.04);
    var h := [50.0, 50.0];
    assert FindDate(rows, 1) == Some(0);
    assert InitialHoldings([1.0, 1.0], 100.0, 0.5) == h;
    var s1 := Sim(h, false, [Entry(1, 100.0)], [], []);
    var s2 := Sim([37.5, 75.0], false, [Entry(1, 100.0), Entry(2, 150.0)], [2], [[2.0 / 3.0, 1.0 / 3.0]]);
    assert Run(coins, p, vix, Start(h), rows[..1]) == s1 by {
      assert rows[..1][..0] == [];
      assert Run(coins, p, vix, Start(h), rows[..1][..0]) == Start(h);
      ScenarioDayOne();
    }
    assert Run(coins, p, vix, Start(h), rows) == s2 by {
      assert rows[..1] == rows[..|rows| - 1];
      ScenarioDayTwo();
    }
  }

  /** Day 1 of the scenario: worth 100, already at equal weights, nothing to do. */
  lemma ScenarioDayOne()
    ensures Step(["BTC", "USDT"], Params(1, 100.0, 0.5, 0.05, 20.0, 0.04), map[],
                 Start([50.0, 50.0]), Row(1, [1.0, 1.0]))
            == Sim([50.0, 50.0], false, [Entry(1, 100.0)], [], [])
  {
    var h := [50.0, 50.0];
    assert PositionValues(h, [1.0, 1.0]) == [50.0, 50.0];
    assert Sum([50.0, 50.0]) == 100.0 by { assert [50.0, 50.0][..1] == [50.0]; }
    assert Weights(h, [1.0, 1.0]) == [0.5, 0.5];
  }

  /** Day 2 of the scenario: worth 150, BTC at 2/3, rebalanced to 37.5 BTC and 75 USDT. */
  lemma ScenarioDayTwo()
    ensures Step(["BTC", "USDT"], Params(1, 100.0, 0.5, 0.05, 20.0, 0.04), map[],
                 Sim([50.0, 50.0], false, [Entry(1, 100.0)], [], []), Row(2, [2.0, 1.0]))
            == Sim([37.5, 75.0], false, [Entry(1, 100.0), Entry(2, 150.0)], [2], [[2.0 / 3.0, 1.0 / 3.0]])
  {
    var h := [50.0, 50.0];
    assert PositionValues(h, [2.0, 1.0]) == [100.0, 50.0];
    assert Sum([100.0, 50.0]) == 150.0 by { assert [100.0, 50.0][..1] == [100.0]; }
    assert Weights(h, [2.0, 1.0]) == [2.0 / 3.0, 1.0 / 3.0];
    assert Deviates([2.0 / 3.0, 1.0 / 3.0], Uniform(2, 0.5), 0.05) by {
      assert Abs([2.0 / 3.0, 1.0 / 3.0][0] - Uniform(2, 0.5)[0]) > 0.05;
    }
    assert Reset(150.0, Uniform(2, 0.5), [2.0, 1.0]) == [37.5, 75.0];
  }
}
