/**
  The drawdown part of `compute_performance_stats` (app.py:172-174):
  the running maximum of the value series (`cummax`), the drawdown of
  every point from that maximum, and the smallest drawdown.
*/
module Drawdown {
  import opened Series

  predicate NonDecreasing(v: seq<real>)
  {
    forall i, j :: 0 <= i <= j < |v| ==> v[i] <= v[j]
  }

  function Max(a: real, b: real): real
  {
    if a < b then b else a
  }

  /** Prefix maximum: element i is the largest of v[0..i] (`cummax`). */
  function RunningMax(v: seq<real>): (m: seq<real>)
    ensures |m| == |v|
    decreases |v|
  {
    if |v| == 0 then []
    else
      var prev := RunningMax(v[..|v| - 1]);
      var last := v[|v| - 1];
      prev + [if |prev| == 0 then last else Max(prev[|prev| - 1], last)]
  }

  /** Each running maximum is at least every earlier point. */
  lemma {:induction false} RunningMaxBounds(v: seq<real>)
    ensures forall i, j :: 0 <= j <= i < |v| ==> v[j] <= RunningMax(v)[i]
    decreases |v|
  {
    if |v| > 0 {
      var front := v[..|v| - 1];
      RunningMaxBounds(front);
      var m := RunningMax(v);
      var prev := RunningMax(front);
      assert forall j :: 0 <= j < |v| - 1 ==> v[j] == front[j];
      assert forall i :: 0 <= i < |v| - 1 ==> m[i] == prev[i];
    }
  }

  /** Each running maximum is one of the points up to it. */
  lemma {:induction false} RunningMaxAttained(v: seq<real>)
    ensures forall i :: 0 <= i < |v| ==> exists j :: 0 <= j <= i && RunningMax(v)[i] == v[j]
    decreases |v|
  {
    if |v| > 0 {
      var front := v[..|v| - 1];
      RunningMaxAttained(front);
      var m := RunningMax(v);
      var prev := RunningMax(front);
      assert m == prev + [if |prev| == 0 then v[|v| - 1] else Max(prev[|prev| - 1], v[|v| - 1])];
      forall i | 0 <= i < |v| ensures exists j :: 0 <= j <= i && m[i] == v[j] {
        if i < |v| - 1 {
          var k :| 0 <= k <= i && prev[i] == front[k];
          assert m[i] == v[k];
        } else if |prev| > 0 {
          var k :| 0 <= k <= |v| - 2 && prev[|v| - 2] == front[k];
          assert front[k] == v[k];
          if m[i] == v[k] {
            assert 0 <= k <= i;
          } else {
            assert m[i] == v[i];
          }
        } else {
          assert m[i] == v[i];
        }
      }
    }
  }

  lemma {:induction false} RunningMaxNonDecreasing(v: seq<real>)
    ensures NonDecreasing(RunningMax(v))
  {
    var m := RunningMax(v);
    RunningMaxBounds(v);
    RunningMaxAttained(v);
    forall i, j | 0 <= i <= j < |v| ensures m[i] <= m[j] {
      var k :| 0 <= k <= i && m[i] == v[k];
    }
  }

  /** Drawdown of one point below a peak at least as high. */
  function PointDrawdown(x: real, peak: real): (d: real)
    requires 0.0 < x <= peak
    ensures -1.0 < d <= 0.0
    ensures d == 0.0 <==> x == peak
  {
    var d := (x - peak) / peak;
    ProductBounds(d, peak, x - peak);
    d
  }

  /** If d * p == q with p > 0 and -p < q <= 0, then -1 < d <= 0. */
  lemma ProductBounds(d: real, p: real, q: real)
    requires p > 0.0 && -p < q <= 0.0 && d == q / p
    ensures -1.0 < d <= 0.0
    ensures d == 0.0 <==> q == 0.0
  {
    assert d * p == q;
    if d > 0.0 {
      assert false;
    }
    if d <= -1.0 {
      assert false;
    }
  }

  /** Drawdown of each point from the running maximum: (value - peak) / peak. */
  function Drawdowns(v: seq<real>): (d: seq<real>)
    requires AllPositive(v)
    ensures |d| == |v|
    ensures forall i :: 0 <= i < |v| ==> -1.0 < d[i] <= 0.0
  {
    var m := RunningMax(v);
    RunningMaxBounds(v);
    seq(|v|, i requires 0 <= i < |v| => PointDrawdown(v[i], m[i]))
  }

  /** Smallest element of a non-empty sequence (`min`). */
  function Min(xs: seq<real>): (r: real)
    requires |xs| > 0
    ensures forall i :: 0 <= i < |xs| ==> r <= xs[i]
    ensures exists i :: 0 <= i < |xs| && r == xs[i]
    decreases |xs|
  {
    if |xs| == 1 then xs[0]
    else
      var rest := Min(xs[1..]);
      assert forall i :: 1 <= i < |xs| ==> xs[i] == xs[1..][i - 1];
      if xs[0] <= rest then xs[0] else rest
  }

  /** Maximum drawdown: the smallest of the drawdowns (`drawdowns.min()`). */
  function MaxDrawdown(v: seq<real>): (r: real)
    requires |v| > 0 && AllPositive(v)
    ensures -1.0 < r <= 0.0
  {
    var d := Drawdowns(v);
    Min(d)
  }

  /** The maximum drawdown is attained at some point and is no larger than any drawdown. */
  lemma MaxDrawdownIsSmallest(v: seq<real>)
    requires |v| > 0 && AllPositive(v)
    ensures forall i :: 0 <= i < |v| ==> MaxDrawdown(v) <= Drawdowns(v)[i]
    ensures exists i :: 0 <= i < |v| && MaxDrawdown(v) == Drawdowns(v)[i]
  {
    var d := Drawdowns(v);
    var k :| 0 <= k < |d| && Min(d) == d[k];
    assert MaxDrawdown(v) == d[k];
  }

  /** A point is at its running maximum exactly when it is at least every earlier point. */
  lemma {:induction false} AtPeakIffRecord(v: seq<real>, i: int)
    requires AllPositive(v) && 0 <= i < |v|
    ensures Drawdowns(v)[i] == 0.0 <==> forall j :: 0 <= j <= i ==> v[j] <= v[i]
  {
    var m := RunningMax(v);
    RunningMaxBounds(v);
    RunningMaxAttained(v);
    assert Drawdowns(v)[i] == PointDrawdown(v[i], m[i]);
    if forall j :: 0 <= j <= i ==> v[j] <= v[i] {
      var k :| 0 <= k <= i && m[i] == v[k];
      assert m[i] == v[i];
    }
  }

  /** No drawdown at all exactly when the series never falls (maximum drawdown 0). */
  lemma {:induction false} NoDrawdownIffNonDecreasing(v: seq<real>)
    requires |v| > 0 && AllPositive(v)
    ensures MaxDrawdown(v) == 0.0 <==> NonDecreasing(v)
  {
    var d := Drawdowns(v);
    MaxDrawdownIsSmallest(v);
    if MaxDrawdown(v) == 0.0 {
      forall i, j | 0 <= i <= j < |v| ensures v[i] <= v[j] {
        assert d[j] == 0.0;
        AtPeakIffRecord(v, j);
      }
    }
    if NonDecreasing(v) {
      forall i | 0 <= i < |v| ensures d[i] == 0.0 {
        AtPeakIffRecord(v, i);
      }
    }
  }

  /** A fall from 100 to 75 after a rise from 80 is a maximum drawdown of 25%. */
  lemma DrawdownExample()
    ensures MaxDrawdown([80.0, 100.0, 75.0]) == -0.25
  {
    ExampleDrawdowns();
    MinExample();
  }

  lemma MinExample()
    ensures Min([0.0, 0.0, -0.25]) == -0.25
  {
    assert [0.0, 0.0, -0.25][1..] == [0.0, -0.25];
    assert [0.0, -0.25][1..] == [-0.25];
  }

  lemma ExampleDrawdowns()
    ensures Drawdowns([80.0, 100.0, 75.0]) == [0.0, 0.0, -0.25]
  {
    var v := [80.0, 100.0, 75.0];
    ExampleRunningMax();
    ExamplePoints();
    var d := Drawdowns(v);
    assert d[0] == PointDrawdown(80.0, 80.0);
    assert d[1] == PointDrawdown(100.0, 100.0);
    assert d[2] == PointDrawdown(75.0, 100.0);
  }

  lemma ExamplePoints()
    ensures PointDrawdown(80.0, 80.0) == 0.0
    ensures PointDrawdown(100.0, 100.0) == 0.0
    ensures PointDrawdown(75.0, 100.0) == -0.25
  {
  }

  lemma ExampleRunningMax()
    ensures RunningMax([80.0, 100.0, 75.0]) == [80.0, 100.0, 100.0]
  {
    var v := [80.0, 100.0, 75.0];
    assert v[..2] == [80.0, 100.0];
    assert v[..2][..1] == [80.0];
    assert [80.0][..0] == [];
    assert RunningMax([80.0]) == [80.0];
    assert RunningMax([80.0, 100.0]) == [80.0, 100.0];
  }
}
