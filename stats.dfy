/** Column aggregates and the significance rule shared by the dashboards.
    Means are exact rationals (sum over count) instead of floats. */
module Stats {
  import opened Wrappers

  /** Sum of a numeric column. */
  function Sum(xs: seq<int>): int
  {
    if xs == [] then 0 else xs[0] + Sum(xs[1..])
  }

  /** pandas `Series.mean()`: the mean of the values; a column with no
      values has no mean (NaN in pandas), never 0. */
  function Mean(xs: seq<int>): (m: Option<real>)
    ensures m.None? <==> xs == []
  {
    if xs == [] then None else Some(Sum(xs) as real / |xs| as real)
  }

  /** A sum of values between `lo` and `hi` lies between `lo` and `hi` times
      the number of values. */
  lemma {:induction false} SumBounds(xs: seq<int>, lo: int, hi: int)
    requires forall i :: 0 <= i < |xs| ==> lo <= xs[i] <= hi
    ensures lo * |xs| <= Sum(xs) <= hi * |xs|
  {
    if xs != [] {
      SumBounds(xs[1..], lo, hi);
      assert lo * |xs| == lo + lo * |xs[1..]|;
      assert hi * |xs| == hi + hi * |xs[1..]|;
    }
  }

  /** A mean lies between any lower and upper bound of its values. */
  lemma MeanWithinBounds(xs: seq<int>, lo: int, hi: int)
    requires xs != []
    requires forall i :: 0 <= i < |xs| ==> lo <= xs[i] <= hi
    ensures lo as real <= Mean(xs).value <= hi as real
  {
    SumBounds(xs, lo, hi);
    var n := |xs| as real;
    var s := Sum(xs) as real;
    assert lo as real * n <= s && s <= hi as real * n;
    QuotientBounds(s, n, lo as real, hi as real);
  }

  lemma QuotientBounds(s: real, n: real, lo: real, hi: real)
    requires n > 0.0 && lo * n <= s <= hi * n
    ensures lo <= s / n <= hi
  {
    var q := s / n;
    assert q * n == s;
  }

  /** A p-value as returned by the test; `None` stands for NaN, which the
      test yields when a cohort has too few values. */
  type PValue = Option<real>

  /** The fixed two-tailed significance level. */
  const SIGNIFICANCE_LEVEL: real := 0.05

  /** `p_value < 0.05`: a NaN p-value compares false, so it is never significant. */
  predicate Significant(p: PValue)
  {
    p.Some? && p.value < SIGNIFICANCE_LEVEL
  }

  /** The test statistic and p-value of a two-sample test (`None` for NaN). */
  datatype TestResult = TestResult(statistic: Option<real>, p: PValue)

  /** The two-sample test, here Welch's unequal-variance t-test, is a foreign
      numeric routine: the model receives it as a value and only branches on
      what it returns. */
  type TwoSampleTest = (seq<int>, seq<int>) -> TestResult

  /** `abs(a - b)`; NaN when either mean is NaN. */
  function AbsDifference(a: Option<real>, b: Option<real>): (d: Option<real>)
    ensures d.Some? <==> a.Some? && b.Some?
    ensures d.Some? ==> d.value >= 0.0
    ensures d.Some? ==> d.value == a.value - b.value || d.value == b.value - a.value
  {
    if a.Some? && b.Some? then
      Some(if a.value >= b.value then a.value - b.value else b.value - a.value)
    else None
  }
}
