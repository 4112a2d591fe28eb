/** The per-sample statistics of `energy_plots`: extrema, means, the terminal
    rotational speed, and the mean/max ratios of the complete cycle and of the
    generation phase. A NaN result is `None`. */
module Reducers {
  import opened Numeric
  import Units

  /** `np.max(sublist) if sublist else np.nan`. */
  function MaxPower(p: seq<real>): (r: Option<real>)
    ensures r.None? <==> |p| == 0
    ensures r.Some? ==> forall i :: 0 <= i < |p| ==> p[i] <= r.value
    ensures r.Some? ==> r.value in p
  {
    if |p| == 0 then None else Some(Max(p))
  }

  /** `np.max(np.min(sublist)) if sublist else np.nan`: the outer `np.max` of a
      scalar is that scalar, so this is the minimum. */
  function MinPower(p: seq<real>): (r: Option<real>)
    ensures r.None? <==> |p| == 0
    ensures r.Some? ==> forall i :: 0 <= i < |p| ==> r.value <= p[i]
    ensures r.Some? ==> r.value in p
  {
    if |p| == 0 then None else Some(Min(p))
  }

  /** A quotient `q = total / n` with `n > 0` lies between any two bounds that,
      scaled by `n`, bound `total`. */
  lemma QuotientBetween(total: real, n: real, lo: real, hi: real, q: real)
    requires n > 0.0 && q * n == total
    requires n * lo <= total <= n * hi
    ensures lo <= q <= hi
  {
    assert n * lo <= n * q <= n * hi;
  }

  /** Any lower and upper bound of the samples bounds their mean. */
  lemma MeanBetween(s: seq<real>, lo: real, hi: real, q: real)
    requires |s| > 0 && q * (|s| as real) == Sum(s)
    requires forall i :: 0 <= i < |s| ==> lo <= s[i] <= hi
    ensures lo <= q <= hi
  {
    SumAtLeast(s, lo);
    SumBounded(s, hi);
    QuotientBetween(Sum(s), |s| as real, lo, hi, q);
  }

  /** `m` is the arithmetic mean of the non-empty `s`: `m * len(s) == sum(s)`. */
  predicate IsMeanOf(m: real, s: seq<real>)
  {
    |s| > 0 && m * (|s| as real) == Sum(s)
  }

  /** The arithmetic mean of a non-empty sequence lies between its extrema. */
  function Mean(s: seq<real>): (m: real)
    requires |s| > 0
    ensures IsMeanOf(m, s)
    ensures Min(s) <= m <= Max(s)
  {
    var m := Sum(s) / (|s| as real);
    MeanBetween(s, Min(s), Max(s), m);
    m
  }

  /** `np.mean(sublist) if sublist else np.nan`. */
  function MeanPower(p: seq<real>): (r: Option<real>)
    ensures r.None? <==> |p| == 0
    ensures r.Some? ==> r.value * (|p| as real) == Sum(p)
    ensures r.Some? ==> MinPower(p).value <= r.value <= MaxPower(p).value
  {
    if |p| == 0 then None else Some(Mean(p))
  }

  /** `np.mean([x for x in sublist if x > 0])`: the mean of the strictly
      positive samples, NaN when there are none. */
  function MeanPowerGen(p: seq<real>): (r: Option<real>)
    ensures r.None? <==> (forall i :: 0 <= i < |p| ==> p[i] <= 0.0)
    ensures r.Some? ==> IsMeanOf(r.value, Positives(p))
    ensures r.Some? ==> 0.0 < r.value <= MaxPower(p).value
  {
    var pos := Positives(p);
    if |pos| == 0 then None
    else
      var m := Mean(pos);
      assert Min(pos) in pos && Max(pos) in p;
      Some(m)
  }

  /** `60 * sublist[-1] / (2 * np.pi) if sublist else np.nan`: the terminal,
      not the peak, rotational speed in RPM. */
  function MaxRpm(omega: seq<real>): (r: Option<real>)
    ensures r.None? <==> |omega| == 0
    ensures r.Some? ==> r.value * 2.0 * Pi == omega[|omega| - 1] * 60.0
  {
    if |omega| == 0 then None else Some(Units.Rpm(omega[|omega| - 1]))
  }

  /** `q` is `num / den`, stated without division: `q * den == num`. */
  predicate IsQuotient(q: real, num: real, den: real)
  {
    q * den == num
  }

  /** `mean / max` on possibly-NaN operands; a zero divisor is NaN too. */
  function Ratio(num: Option<real>, den: Option<real>): (r: Option<real>)
    ensures r.Some? <==> num.Some? && den.Some? && den.value != 0.0
    ensures r.Some? ==> IsQuotient(r.value, num.value, den.value)
  {
    if num.Some? && den.Some? && den.value != 0.0 then Some(num.value / den.value) else None
  }

  /** Mean-max ratio of the complete cycle: at most one whenever the peak power
      is positive. */
  function MeanMaxTotal(p: seq<real>): (r: Option<real>)
    ensures r.Some? <==> |p| > 0 && Max(p) != 0.0
    ensures r.Some? ==> IsQuotient(r.value, MeanPower(p).value, Max(p))
    ensures r.Some? && Max(p) > 0.0 ==> r.value <= 1.0
  {
    var r := Ratio(MeanPower(p), MaxPower(p));
    if r.Some? && Max(p) > 0.0 then
      DivAtMostOne(MeanPower(p).value, Max(p));
      r
    else r
  }

  /** Mean-max ratio of the generation phase: defined exactly when some sample
      generates, and then in (0, 1]. */
  function MeanMaxGen(p: seq<real>): (r: Option<real>)
    ensures r.None? <==> (forall i :: 0 <= i < |p| ==> p[i] <= 0.0)
    ensures r.Some? ==> IsQuotient(r.value, MeanPowerGen(p).value, MaxPower(p).value)
    ensures r.Some? ==> 0.0 < r.value <= 1.0
  {
    var g := MeanPowerGen(p);
    var mx := MaxPower(p);
    if g.Some? then
      UnitRatio(g.value, mx.value);
      Ratio(g, mx)
    else Ratio(g, mx)
  }

  lemma UnitRatio(a: real, b: real)
    requires 0.0 < a <= b
    ensures 0.0 < a / b <= 1.0
  {
    DivAtMostOne(a, b);
  }

  lemma DivAtMostOne(a: real, b: real)
    requires 0.0 < b && a <= b
    ensures a / b <= 1.0
  {
  }

  lemma NegativeQuotient(a: real, b: real)
    requires a <= b < 0.0
    ensures a / b >= 1.0
  {
    assert a / b * b == a;
  }

  /** A sample whose power never goes above zero has no generation mean and no
      generation ratio. */
  lemma AllNegativeNoGeneration(p: seq<real>)
    requires forall i :: 0 <= i < |p| ==> p[i] < 0.0
    ensures MeanPowerGen(p).None? && MeanMaxGen(p).None?
    ensures |p| > 0 ==> MeanMaxTotal(p).Some? && MeanMaxTotal(p).value >= 1.0
  {
    if |p| > 0 {
      var m := Mean(p);
      var mx := Max(p);
      assert m <= mx < 0.0;
      NegativeQuotient(m, mx);
    }
  }
}
