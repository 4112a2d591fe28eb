/** The energy integrator `energy_calc`: `np.sum(powers[:-1] * np.diff(times))`,
    a left Riemann sum that never uses the final power sample, and its
    generation-only variant over the positive-power samples. */
module Energy {
  import opened Numeric

  /** `np.diff(times)`. */
  function Diff(t: seq<real>): (d: seq<real>)
    ensures |d| == if |t| < 2 then 0 else |t| - 1
  {
    if |t| < 2 then [] else seq(|t| - 1, i requires 0 <= i < |t| - 1 => t[i + 1] - t[i])
  }

  /** `powers[:-1]`. */
  function Init(p: seq<real>): (q: seq<real>)
    ensures |q| == if |p| == 0 then 0 else |p| - 1
  {
    if |p| == 0 then [] else p[..|p| - 1]
  }

  /** Element-wise product of two equally long arrays. */
  function Mul(a: seq<real>, b: seq<real>): (c: seq<real>)
    requires |a| == |b|
    ensures |c| == |a|
  {
    seq(|a|, i requires 0 <= i < |a| => a[i] * b[i])
  }

  /** `energy_calc(times, powers)`; the two arrays come from one engine run
      and are equally long. */
  function EnergyCalc(t: seq<real>, p: seq<real>): real
    requires |t| == |p|
  {
    Sum(Mul(Init(p), Diff(t)))
  }

  /** Fewer than two samples integrate to zero. */
  lemma EnergyOfShort(t: seq<real>, p: seq<real>)
    requires |t| == |p| < 2
    ensures EnergyCalc(t, p) == 0.0
  {
  }

  /** Adding one sample adds the rectangle of the previous last power over the
      new interval: the sum runs over i in [0, n-2] with p[i] * (t[i+1] - t[i]). */
  lemma EnergySnoc(t: seq<real>, p: seq<real>, t1: real, p1: real)
    requires |t| == |p| >= 1
    ensures EnergyCalc(t + [t1], p + [p1])
         == EnergyCalc(t, p) + p[|p| - 1] * (t1 - t[|t| - 1])
  {
    var a := Mul(Init(p), Diff(t));
    var b := Mul(Init(p + [p1]), Diff(t + [t1]));
    var last := p[|p| - 1] * (t1 - t[|t| - 1]);
    assert Init(p + [p1]) == p;
    assert |b| == |a| + 1;
    forall i | 0 <= i < |a|
      ensures b[i] == a[i]
    {
      assert Diff(t + [t1])[i] == Diff(t)[i];
    }
    assert Diff(t + [t1])[|a|] == t1 - t[|t| - 1];
    assert b[|a|] == last;
    assert b == a + [last];
    SumAppend(a, [last]);
  }

  /** The energy of a series is the energy of its prefix plus the last rectangle. */
  lemma EnergyPrefix(t: seq<real>, p: seq<real>)
    requires |t| == |p| >= 2
    ensures EnergyCalc(t, p)
         == EnergyCalc(t[..|t| - 1], p[..|p| - 1]) + p[|p| - 2] * (t[|t| - 1] - t[|t| - 2])
  {
    var n := |t| - 1;
    var t0, p0 := t[..n], p[..n];
    assert t0 + [t[n]] == t && p0 + [p[n]] == p;
    EnergySnoc(t0, p0, t[n], p[n]);
  }

  /** The final power sample is never used. */
  lemma EnergyIgnoresLastPower(t: seq<real>, p: seq<real>, x: real)
    requires |t| == |p| >= 1
    ensures EnergyCalc(t, p[..|p| - 1] + [x]) == EnergyCalc(t, p)
  {
    assert Init(p[..|p| - 1] + [x]) == Init(p);
  }

  /** The worked example `energy([0,1,2,3], [10,20,30,40]) == 60`. */
  lemma EnergyExample()
    ensures EnergyCalc([0.0, 1.0, 2.0, 3.0], [10.0, 20.0, 30.0, 40.0]) == 60.0
  {
    var d := Diff([0.0, 1.0, 2.0, 3.0]);
    assert d[0] == 1.0 && d[1] == 1.0 && d[2] == 1.0;
    assert Init([10.0, 20.0, 30.0, 40.0]) == [10.0, 20.0, 30.0];
    var m := Mul(Init([10.0, 20.0, 30.0, 40.0]), d);
    assert m[0] == 10.0 && m[1] == 20.0 && m[2] == 30.0;
    assert m == [10.0, 20.0, 30.0];
    assert [10.0][..0] == [];
    assert Sum([10.0]) == 10.0;
    assert [10.0, 20.0][..1] == [10.0];
    assert Sum([10.0, 20.0]) == 30.0;
    assert [10.0, 20.0, 30.0][..2] == [10.0, 20.0];
    assert Sum(m) == 60.0;
  }

  ghost predicate NonDecreasing(t: seq<real>)
  {
    forall i, j :: 0 <= i <= j < |t| ==> t[i] <= t[j]
  }

  lemma MulNonNegative(a: real, b: real)
    requires a >= 0.0 && b >= 0.0
    ensures a * b >= 0.0
  {
  }

  lemma NonDecreasingPrefix(t: seq<real>, n: nat)
    requires n <= |t| && NonDecreasing(t)
    ensures NonDecreasing(t[..n])
  {
    forall i, j | 0 <= i <= j < n
      ensures t[..n][i] <= t[..n][j]
    {
      assert t[i] <= t[j];
    }
  }

  /** The last rectangle of a non-decreasing axis with non-negative power adds
      a non-negative amount. */
  lemma EnergyStepNonNegative(t: seq<real>, p: seq<real>)
    requires |t| == |p| >= 2
    requires EnergyCalc(t[..|t| - 1], p[..|p| - 1]) >= 0.0
    requires t[|t| - 2] <= t[|t| - 1] && p[|p| - 2] >= 0.0
    ensures EnergyCalc(t, p) >= 0.0
  {
    EnergyPrefix(t, p);
    MulNonNegative(p[|p| - 2], t[|t| - 1] - t[|t| - 2]);
  }

  /** Over a non-decreasing time axis, non-negative power gives non-negative energy. */
  lemma {:induction false} EnergyNonNegative(t: seq<real>, p: seq<real>)
    requires |t| == |p|
    requires NonDecreasing(t)
    requires forall i :: 0 <= i < |p| ==> p[i] >= 0.0
    ensures EnergyCalc(t, p) >= 0.0
    decreases |t|
  {
    if |t| >= 2 {
      var n := |t| - 1;
      NonDecreasingPrefix(t, n);
      EnergyNonNegative(t[..n], p[..n]);
      EnergyStepNonNegative(t, p);
    }
  }

  /** The `(time, power)` pairs with `power > 0`, in their original order:
      `positive_times` and `positive_powers` of the generation energy. */
  function PositivePairs(t: seq<real>, p: seq<real>): (r: (seq<real>, seq<real>))
    requires |t| == |p|
    ensures |r.0| == |r.1|
    ensures forall i :: 0 <= i < |r.1| ==> r.1[i] > 0.0
    ensures forall x :: x in r.0 ==> x in t
    ensures forall x :: x in r.1 ==> x in p
    ensures (forall i :: 0 <= i < |p| ==> p[i] <= 0.0) ==> r == ([], [])
  {
    if |t| == 0 then ([], [])
    else
      var n := |t| - 1;
      var rest := PositivePairs(t[..n], p[..n]);
      if p[n] > 0.0 then (rest.0 + [t[n]], rest.1 + [p[n]]) else rest
  }

  /** The powers kept are `[x for x in p if x > 0]`. */
  lemma {:induction false} PositivePairsPowers(t: seq<real>, p: seq<real>)
    requires |t| == |p|
    ensures PositivePairs(t, p).1 == Positives(p)
    decreases |t|
  {
    if |t| > 0 {
      var n := |t| - 1;
      PositivePairsPowers(t[..n], p[..n]);
      assert p[..n] == p[..|p| - 1];
      assert Keep(p, IsPositive)
          == if IsPositive(p[n]) then Keep(p[..n], IsPositive) + [p[n]] else Keep(p[..n], IsPositive);
    }
  }

  /** The pairs are exactly the samples with positive power, in their order:
      both lists read their inputs at the same increasing positions, which
      are all the positions where `p > 0`. */
  lemma {:induction false} PositivePairsPick(t: seq<real>, p: seq<real>)
    requires |t| == |p|
    ensures Picks(PositivePairs(t, p).0, t, KeptIndices(p, IsPositive))
    ensures Picks(PositivePairs(t, p).1, p, KeptIndices(p, IsPositive))
    decreases |t|
  {
    if |t| > 0 {
      var n := |t| - 1;
      PositivePairsPick(t[..n], p[..n]);
      var rest := PositivePairs(t[..n], p[..n]);
      var idx := KeptIndices(p[..n], IsPositive);
      PicksPrefix(rest.0, t, n, idx);
      PicksPrefix(rest.1, p, n, idx);
      assert p[..n] == p[..|p| - 1];
      if IsPositive(p[n]) {
        assert KeptIndices(p, IsPositive) == idx + [n];
        PicksSnoc(rest.0, t, idx, n);
        PicksSnoc(rest.1, p, idx, n);
      } else {
        assert KeptIndices(p, IsPositive) == idx;
      }
    }
  }

  /** Generation energy: the same left Riemann sum over the positive-power samples. */
  function EnergyGen(t: seq<real>, p: seq<real>): real
    requires |t| == |p|
  {
    var pairs := PositivePairs(t, p);
    EnergyCalc(pairs.0, pairs.1)
  }

  /** Filtering keeps the time axis ordered. */
  lemma {:induction false} PositivePairsOrdered(t: seq<real>, p: seq<real>)
    requires |t| == |p|
    requires NonDecreasing(t)
    ensures NonDecreasing(PositivePairs(t, p).0)
    decreases |t|
  {
    if |t| > 0 {
      var n := |t| - 1;
      NonDecreasingPrefix(t, n);
      PositivePairsOrdered(t[..n], p[..n]);
      var rest := PositivePairs(t[..n], p[..n]);
      if p[n] > 0.0 {
        var ts := rest.0 + [t[n]];
        assert PositivePairs(t, p).0 == ts;
        forall i, j | 0 <= i <= j < |ts|
          ensures ts[i] <= ts[j]
        {
          if j == |ts| - 1 {
            assert ts[i] in t[..n] || i == j;
            if i < j {
              var k :| 0 <= k < n && t[..n][k] == ts[i];
              assert t[k] <= t[n];
            }
          } else {
            assert ts[i] == rest.0[i] && ts[j] == rest.0[j];
          }
        }
      }
    }
  }

  /** Generation energy is never negative over an ordered time axis. */
  lemma EnergyGenNonNegative(t: seq<real>, p: seq<real>)
    requires |t| == |p|
    requires NonDecreasing(t)
    ensures EnergyGen(t, p) >= 0.0
  {
    var pairs := PositivePairs(t, p);
    PositivePairsOrdered(t, p);
    EnergyNonNegative(pairs.0, pairs.1);
  }

  /** With no positive power, the generation energy is zero. */
  lemma EnergyGenNoGeneration(t: seq<real>, p: seq<real>)
    requires |t| == |p|
    requires forall i :: 0 <= i < |p| ==> p[i] <= 0.0
    ensures EnergyGen(t, p) == 0.0
  {
    var pairs := PositivePairs(t, p);
    EnergyOfShort(pairs.0, pairs.1);
  }

  /** When every sample generates, filtering keeps every pair. */
  lemma {:induction false} PositivePairsAll(t: seq<real>, p: seq<real>)
    requires |t| == |p|
    requires forall i :: 0 <= i < |p| ==> p[i] > 0.0
    ensures PositivePairs(t, p) == (t, p)
    decreases |t|
  {
    if |t| > 0 {
      var n := |t| - 1;
      PositivePairsAll(t[..n], p[..n]);
      assert t[..n] + [t[n]] == t;
      assert p[..n] + [p[n]] == p;
    }
  }

  /** When every sample generates, the generation energy is the total energy. */
  lemma EnergyGenAllPositive(t: seq<real>, p: seq<real>)
    requires |t| == |p|
    requires forall i :: 0 <= i < |p| ==> p[i] > 0.0
    ensures EnergyGen(t, p) == EnergyCalc(t, p)
  {
    PositivePairsAll(t, p);
  }
}
