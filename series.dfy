/** Sequences of reals shared by the rebalancing loop and the drawdown statistic. */
module Series {

  /** Every element is strictly positive (prices, holdings, portfolio values). */
  predicate AllPositive(xs: seq<real>)
  {
    forall i :: 0 <= i < |xs| ==> xs[i] > 0.0
  }
}
