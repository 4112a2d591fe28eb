/** The wind-speed sweep `sweep_data`: a 20-point inclusive grid, one engine
    call per grid point, and nine parallel lists collected from the successful
    calls. The engine is a parameter; a raised exception is `None`.

    Two collectors are modelled. `CollectAsWritten` follows the program line by
    line: its catch-all `except` also swallows the `ZeroDivisionError` that
    `sum(power_ground) / len(power_ground)` raises for an engine run without
    steady states, after seven of the lists were already appended, so
    `mean_power` and `retraction_power` fall behind `wind`. `Collect` drops
    such a point entirely; the rest of the model uses it. `CollectNaN` makes
    the repair the reducers anticipate instead: it keeps the point in every
    list, with a NaN mean. The two agree on sweeps without such points. */
module Sweep {
  import opened Numeric
  import opened Units
  import opened Kite

  /** `wind_step`: the number of grid points. */
  const GridSize: nat := 20

  /** `np.linspace(lo, hi, num, endpoint=True)`: `i * step + lo`, with the last
      element overwritten by `hi`. */
  function Linspace(lo: real, hi: real, num: nat): (g: seq<real>)
    requires num >= 2
    ensures |g| == num
    ensures g[0] == lo && g[num - 1] == hi
    ensures forall i :: 0 <= i < num ==> g[i] == lo + (i as real) * ((hi - lo) / ((num - 1) as real))
  {
    var step := (hi - lo) / ((num - 1) as real);
    assert lo + ((num - 1) as real) * step == hi;
    seq(num, i requires 0 <= i < num => if i == num - 1 then hi else lo + (i as real) * step)
  }

  function Grid(lo: real, hi: real): seq<real>
  {
    Linspace(lo, hi, GridSize)
  }

  lemma StepMonotone(lo: real, hi: real, step: real, i: int, j: int)
    requires 0.0 <= step && i <= j
    ensures lo + (i as real) * step <= lo + (j as real) * step
    ensures 0.0 < step && i < j ==> lo + (i as real) * step < lo + (j as real) * step
  {
    assert (j as real) * step - (i as real) * step == ((j - i) as real) * step;
  }

  /** The grid starts at `lo`, ends at `hi`, never decreases when `lo <= hi`,
      and strictly increases when `lo < hi`. */
  lemma GridOrdered(lo: real, hi: real)
    requires lo <= hi
    ensures |Grid(lo, hi)| == 20
    ensures Grid(lo, hi)[0] == lo && Grid(lo, hi)[19] == hi
    ensures forall i, j :: 0 <= i <= j < 20 ==> Grid(lo, hi)[i] <= Grid(lo, hi)[j]
    ensures lo < hi ==> forall i, j :: 0 <= i < j < 20 ==> Grid(lo, hi)[i] < Grid(lo, hi)[j]
    ensures forall i :: 0 <= i < 20 ==> lo <= Grid(lo, hi)[i] <= hi
  {
    var g := Grid(lo, hi);
    var step := (hi - lo) / 19.0;
    forall i, j | 0 <= i <= j < 20
      ensures g[i] <= g[j]
      ensures lo < hi && i < j ==> g[i] < g[j]
    {
      StepMonotone(lo, hi, step, i, j);
    }
    forall i | 0 <= i < 20
      ensures lo <= g[i] <= hi
    {
      StepMonotone(lo, hi, step, 0, i);
      StepMonotone(lo, hi, step, i, 19);
    }
  }

  /** One steady state of an engine run. `cycle.time` is taken to have one
      entry per steady state. */
  datatype Step = Step(time: real, reelingSpeed: real, tetherForce: real, powerGround: real)

  /** A successful engine run: the cycle's steady states, and the retraction
      phase's steady-state powers when the engine exposes them (`None` when
      `retraction` is `None` or has no `steady_states`; an entry is `None`
      when that state has no `power_ground`). */
  datatype Run = Run(steps: seq<Step>, retraction: Option<seq<Option<real>>>)

  /** The simulation engine: system properties and reference wind speed in,
      a run out, or `None` when `run_simulation` raises. */
  type Engine = (SystemProperties, real) -> Option<Run>

  function Times(s: seq<Step>): (r: seq<real>)
    ensures |r| == |s| && forall i :: 0 <= i < |s| ==> r[i] == s[i].time
  {
    seq(|s|, i requires 0 <= i < |s| => s[i].time)
  }

  function ReelingSpeeds(s: seq<Step>): (r: seq<real>)
    ensures |r| == |s| && forall i :: 0 <= i < |s| ==> r[i] == s[i].reelingSpeed
  {
    seq(|s|, i requires 0 <= i < |s| => s[i].reelingSpeed)
  }

  function Forces(s: seq<Step>): (r: seq<real>)
    ensures |r| == |s| && forall i :: 0 <= i < |s| ==> r[i] == s[i].tetherForce
  {
    seq(|s|, i requires 0 <= i < |s| => s[i].tetherForce)
  }

  function Powers(s: seq<Step>): (r: seq<real>)
    ensures |r| == |s| && forall i :: 0 <= i < |s| ==> r[i] == s[i].powerGround
  {
    seq(|s|, i requires 0 <= i < |s| => s[i].powerGround)
  }

  /** `[force * drum_radius / gearbox_ratio for force in tether_force_ground]`. */
  function Torques(s: seq<Step>, gearboxRatio: real): (r: seq<real>)
    requires gearboxRatio != 0.0 || |s| == 0
    ensures |r| == |s|
    ensures forall i :: 0 <= i < |s| ==> r[i] * gearboxRatio == s[i].tetherForce * DrumRadius
  {
    seq(|s|, i requires 0 <= i < |s| => Torque(s[i].tetherForce, gearboxRatio))
  }

  /** `[(speed / drum_radius) * gearbox_ratio for speed in reeling_speeds]`. */
  function Omegas(s: seq<Step>, gearboxRatio: real): (r: seq<real>)
    ensures |r| == |s|
    ensures forall i :: 0 <= i < |s| ==> r[i] * DrumRadius == s[i].reelingSpeed * gearboxRatio
  {
    seq(|s|, i requires 0 <= i < |s| => Omega(s[i].reelingSpeed, gearboxRatio))
  }

  /** The values of the present entries, in order: the retraction phase's
      `power_ground` list with its `None` entries removed. */
  function Present(xs: seq<Option<real>>): (r: seq<real>)
    ensures |r| <= |xs|
    ensures forall x :: x in r <==> Some(x) in xs
  {
    if |xs| == 0 then []
    else
      var rest := Present(xs[..|xs| - 1]);
      assert xs == xs[..|xs| - 1] + [xs[|xs| - 1]];
      match xs[|xs| - 1]
      case None => rest
      case Some(v) => rest + [v]
  }

  /** `retraction_power` of one kept point: the retraction phase's powers when
      that list is non-empty, else the negative cycle powers in cycle order. */
  function RetractionPower(run: Run): (r: seq<real>)
    ensures run.retraction.Some? && |Present(run.retraction.value)| > 0
            ==> r == Present(run.retraction.value)
    ensures !(run.retraction.Some? && |Present(run.retraction.value)| > 0)
            ==> r == Negatives(Powers(run.steps))
  {
    var listed := if run.retraction.Some? then Present(run.retraction.value) else [];
    if |listed| > 0 then listed else Negatives(Powers(run.steps))
  }

  /** The fallback list holds only negative powers, each taken from the cycle. */
  lemma RetractionFallbackNegative(run: Run)
    requires run.retraction.None? || |Present(run.retraction.value)| == 0
    ensures forall x :: x in RetractionPower(run) ==> x < 0.0 && x in Powers(run.steps)
  {
    var r := RetractionPower(run);
    forall x | x in r
      ensures x < 0.0
    {
      var i :| 0 <= i < |r| && r[i] == x;
    }
  }

  /** The nine lists of `data`. `retractionPower` is `None` in the older copy
      of the program, whose dictionary has no `retraction_power` key. */
  datatype SweepData = SweepData(
    reelingSpeed: seq<seq<real>>,
    tetherForce: seq<seq<real>>,
    time: seq<seq<real>>,
    wind: seq<real>,
    power: seq<seq<real>>,
    torque: seq<seq<real>>,
    omega: seq<seq<real>>,
    meanPower: seq<real>,
    retractionPower: Option<seq<seq<real>>>)

  function EmptyData(withRetraction: bool): SweepData
  {
    SweepData([], [], [], [], [], [], [], [], if withRetraction then Some([]) else None)
  }

  /** The first seven appends, done before `mean_power` is computed. */
  function AppendSeries(d: SweepData, ws: real, run: Run, gearboxRatio: real): SweepData
    requires gearboxRatio != 0.0 || |run.steps| == 0
  {
    d.(reelingSpeed := d.reelingSpeed + [ReelingSpeeds(run.steps)],
       tetherForce := d.tetherForce + [Forces(run.steps)],
       time := d.time + [Times(run.steps)],
       wind := d.wind + [ws],
       power := d.power + [Powers(run.steps)],
       torque := d.torque + [Torques(run.steps, gearboxRatio)],
       omega := d.omega + [Omegas(run.steps, gearboxRatio)])
  }

  /** The appends after the mean: `mean_power` and, when the key exists,
      `retraction_power`. */
  function AppendSummary(d: SweepData, run: Run): SweepData
    requires |run.steps| > 0
  {
    d.(meanPower := d.meanPower + [Sum(Powers(run.steps)) / (|run.steps| as real)],
       retractionPower := if d.retractionPower.Some?
                          then Some(d.retractionPower.value + [RetractionPower(run)])
                          else None)
  }

  /** One loop iteration as the program runs it. A zero gearbox ratio raises in
      the torque comprehension before any append (the engine's values are taken
      to be Python floats); an empty run raises in `sum / len` after the first
      seven appends; either exception is swallowed. */
  function CollectAsWritten(d: SweepData, ws: real, outcome: Option<Run>, gearboxRatio: real): SweepData
  {
    match outcome
    case None => d
    case Some(run) =>
      if gearboxRatio == 0.0 && |run.steps| > 0 then d
      else
        var d7 := AppendSeries(d, ws, run, gearboxRatio);
        if |run.steps| == 0 then d7 else AppendSummary(d7, run)
  }

  /** Whether a grid point contributes a whole sample. */
  predicate Keeps(outcome: Option<Run>, gearboxRatio: real)
  {
    outcome.Some? && |outcome.value.steps| > 0 && gearboxRatio != 0.0
  }

  /** One loop iteration with a failed point dropped entirely. */
  function Collect(d: SweepData, ws: real, outcome: Option<Run>, gearboxRatio: real): SweepData
  {
    if Keeps(outcome, gearboxRatio)
    then AppendSummary(AppendSeries(d, ws, outcome.value, gearboxRatio), outcome.value)
    else d
  }

  function SweepOverAsWritten(points: seq<real>, sp: SystemProperties, gearboxRatio: real,
                              engine: Engine, withRetraction: bool): SweepData
  {
    if |points| == 0 then EmptyData(withRetraction)
    else
      var n := |points| - 1;
      CollectAsWritten(SweepOverAsWritten(points[..n], sp, gearboxRatio, engine, withRetraction),
                       points[n], engine(sp, points[n]), gearboxRatio)
  }

  function SweepOver(points: seq<real>, sp: SystemProperties, gearboxRatio: real,
                     engine: Engine, withRetraction: bool): SweepData
  {
    if |points| == 0 then EmptyData(withRetraction)
    else
      var n := |points| - 1;
      Collect(SweepOver(points[..n], sp, gearboxRatio, engine, withRetraction),
              points[n], engine(sp, points[n]), gearboxRatio)
  }

  /** `sweep_data(kite_area, gearbox_ratio, min_wind_speed, max_wind_speed)` as
      written; `withRetraction` is false for the older copy. */
  function SweepAsWritten(kiteArea: real, gearboxRatio: real, lo: real, hi: real,
                          engine: Engine, withRetraction: bool): SweepData
  {
    SweepOverAsWritten(Grid(lo, hi), Initiate(kiteArea), gearboxRatio, engine, withRetraction)
  }

  /** `sweep_data` with a failed point dropped from every list. */
  function RunSweep(kiteArea: real, gearboxRatio: real, lo: real, hi: real,
                    engine: Engine, withRetraction: bool): SweepData
  {
    SweepOver(Grid(lo, hi), Initiate(kiteArea), gearboxRatio, engine, withRetraction)
  }

  // ---------------------------------------------------------------------------
  // Reference definition: the kept grid indices and the sample each one yields.

  /** The indices of the points that yield a sample, in grid order. */
  function Kept(points: seq<real>, sp: SystemProperties, gearboxRatio: real, engine: Engine): (k: seq<nat>)
    ensures |k| <= |points|
    ensures forall a :: 0 <= a < |k| ==> k[a] < |points|
  {
    if |points| == 0 then []
    else
      var n := |points| - 1;
      var rest := Kept(points[..n], sp, gearboxRatio, engine);
      if Keeps(engine(sp, points[n]), gearboxRatio) then rest + [n] else rest
  }

  /** The kept indices are strictly increasing, and an index is kept exactly
      when the engine yields a non-empty run there and the gearbox ratio is
      non-zero. */
  lemma {:induction false} KeptExactly(points: seq<real>, sp: SystemProperties, gearboxRatio: real, engine: Engine)
    ensures var k := Kept(points, sp, gearboxRatio, engine);
            && (forall a, b :: 0 <= a < b < |k| ==> k[a] < k[b])
            && (forall i :: 0 <= i < |points| ==>
                  (i in k <==> Keeps(engine(sp, points[i]), gearboxRatio)))
    decreases |points|
  {
    if |points| > 0 {
      var n := |points| - 1;
      KeptExactly(points[..n], sp, gearboxRatio, engine);
      assert forall i :: 0 <= i < n ==> points[..n][i] == points[i];
    }
  }

  /** One sweep sample: what a kept point contributes to each list. */
  datatype Sample = Sample(
    wind: real,
    reelingSpeed: seq<real>,
    tetherForce: seq<real>,
    time: seq<real>,
    power: seq<real>,
    torque: seq<real>,
    omega: seq<real>,
    meanPower: real,
    retractionPower: Option<seq<real>>)

  function SampleOf(ws: real, run: Run, gearboxRatio: real, withRetraction: bool): Sample
    requires |run.steps| > 0 && gearboxRatio != 0.0
  {
    Sample(ws, ReelingSpeeds(run.steps), Forces(run.steps), Times(run.steps), Powers(run.steps),
           Torques(run.steps, gearboxRatio), Omegas(run.steps, gearboxRatio),
           Sum(Powers(run.steps)) / (|run.steps| as real),
           if withRetraction then Some(RetractionPower(run)) else None)
  }

  /** Every list holds `n` entries; the retraction list exists as requested. */
  ghost predicate Shaped(d: SweepData, n: nat, withRetraction: bool)
  {
    && |d.reelingSpeed| == n && |d.tetherForce| == n && |d.time| == n && |d.wind| == n
    && |d.power| == n && |d.torque| == n && |d.omega| == n && |d.meanPower| == n
    && d.retractionPower.Some? == withRetraction
    && (withRetraction ==> |d.retractionPower.value| == n)
  }

  function SampleAt(d: SweepData, k: nat, withRetraction: bool): Sample
    requires Shaped(d, |d.wind|, withRetraction) && k < |d.wind|
  {
    Sample(d.wind[k], d.reelingSpeed[k], d.tetherForce[k], d.time[k], d.power[k],
           d.torque[k], d.omega[k], d.meanPower[k],
           if withRetraction then Some(d.retractionPower.value[k]) else None)
  }

  /** Keeping a point appends its sample and leaves the earlier samples alone. */
  lemma CollectExtends(d0: SweepData, ws: real, run: Run, gearboxRatio: real, withRetraction: bool)
    requires Shaped(d0, |d0.wind|, withRetraction)
    requires |run.steps| > 0 && gearboxRatio != 0.0
    ensures var d := AppendSummary(AppendSeries(d0, ws, run, gearboxRatio), run);
            && Shaped(d, |d0.wind| + 1, withRetraction)
            && (forall a :: 0 <= a < |d0.wind| ==> SampleAt(d, a, withRetraction) == SampleAt(d0, a, withRetraction))
            && SampleAt(d, |d0.wind|, withRetraction) == SampleOf(ws, run, gearboxRatio, withRetraction)
  {
  }

  /** Entry `a` of `d` is the sample of grid point `points[k[a]]`, for every
      `a`, and every list has one entry per index of `k`. */
  ghost predicate MatchesKept(d: SweepData, k: seq<nat>, points: seq<real>, sp: SystemProperties,
                              gearboxRatio: real, engine: Engine, withRetraction: bool)
  {
    && Shaped(d, |k|, withRetraction)
    && forall a :: 0 <= a < |k| ==>
         && k[a] < |points|
         && Keeps(engine(sp, points[k[a]]), gearboxRatio)
         && SampleAt(d, a, withRetraction)
            == SampleOf(points[k[a]], engine(sp, points[k[a]]).value, gearboxRatio, withRetraction)
  }

  /** A dropped grid point changes nothing. */
  lemma MatchesDrop(d0: SweepData, k0: seq<nat>, pre: seq<real>, ws: real, sp: SystemProperties,
                    gearboxRatio: real, engine: Engine, withRetraction: bool)
    requires MatchesKept(d0, k0, pre, sp, gearboxRatio, engine, withRetraction)
    ensures MatchesKept(d0, k0, pre + [ws], sp, gearboxRatio, engine, withRetraction)
  {
    var points := pre + [ws];
    forall a | 0 <= a < |k0|
      ensures k0[a] < |points| && points[k0[a]] == pre[k0[a]]
    {
    }
  }

  /** A kept grid point appends its own sample after the earlier ones. */
  lemma MatchesKeep(d0: SweepData, k0: seq<nat>, pre: seq<real>, ws: real, run: Run, sp: SystemProperties,
                    gearboxRatio: real, engine: Engine, withRetraction: bool)
    requires MatchesKept(d0, k0, pre, sp, gearboxRatio, engine, withRetraction)
    requires engine(sp, ws) == Some(run) && Keeps(Some(run), gearboxRatio)
    ensures MatchesKept(AppendSummary(AppendSeries(d0, ws, run, gearboxRatio), run), k0 + [|pre|],
                        pre + [ws], sp, gearboxRatio, engine, withRetraction)
  {
    var d := AppendSummary(AppendSeries(d0, ws, run, gearboxRatio), run);
    var k := k0 + [|pre|];
    var points := pre + [ws];
    CollectExtends(d0, ws, run, gearboxRatio, withRetraction);
    forall a | 0 <= a < |k|
      ensures && k[a] < |points|
              && Keeps(engine(sp, points[k[a]]), gearboxRatio)
              && SampleAt(d, a, withRetraction)
                 == SampleOf(points[k[a]], engine(sp, points[k[a]]).value, gearboxRatio, withRetraction)
    {
      if a < |k0| {
        assert k[a] == k0[a] && points[k0[a]] == pre[k0[a]];
      } else {
        assert k[a] == |pre| && points[|pre|] == ws;
      }
    }
  }

  /** One more grid point keeps the correspondence. */
  lemma MatchesSnoc(d0: SweepData, k0: seq<nat>, pre: seq<real>, ws: real, sp: SystemProperties,
                    gearboxRatio: real, engine: Engine, withRetraction: bool)
    requires MatchesKept(d0, k0, pre, sp, gearboxRatio, engine, withRetraction)
    ensures var o := engine(sp, ws);
            MatchesKept(Collect(d0, ws, o, gearboxRatio),
                        if Keeps(o, gearboxRatio) then k0 + [|pre|] else k0,
                        pre + [ws], sp, gearboxRatio, engine, withRetraction)
  {
    var o := engine(sp, ws);
    if Keeps(o, gearboxRatio) {
      MatchesKeep(d0, k0, pre, ws, o.value, sp, gearboxRatio, engine, withRetraction);
    } else {
      MatchesDrop(d0, k0, pre, ws, sp, gearboxRatio, engine, withRetraction);
    }
  }

  /** The corrected sweep holds exactly one sample per kept grid point, in grid
      order, each one the engine's run at that point converted by `SampleOf`. */
  lemma {:induction false} SweepMatchesKept(points: seq<real>, sp: SystemProperties, gearboxRatio: real,
                                            engine: Engine, withRetraction: bool)
    ensures MatchesKept(SweepOver(points, sp, gearboxRatio, engine, withRetraction),
                        Kept(points, sp, gearboxRatio, engine), points, sp, gearboxRatio, engine, withRetraction)
    decreases |points|
  {
    if |points| > 0 {
      var n := |points| - 1;
      var pre := points[..n];
      var d0 := SweepOver(pre, sp, gearboxRatio, engine, withRetraction);
      var k0 := Kept(pre, sp, gearboxRatio, engine);
      var o := engine(sp, points[n]);
      assert pre + [points[n]] == points;
      assert SweepOver(points, sp, gearboxRatio, engine, withRetraction) == Collect(d0, points[n], o, gearboxRatio);
      assert Kept(points, sp, gearboxRatio, engine) == if Keeps(o, gearboxRatio) then k0 + [|pre|] else k0;
      SweepMatchesKept(pre, sp, gearboxRatio, engine, withRetraction);
      MatchesSnoc(d0, k0, pre, points[n], sp, gearboxRatio, engine, withRetraction);
    }
  }

  /** The sweep over the grid: at most 20 samples whose wind speeds are an
      order-preserving selection of grid points, strictly increasing when
      `lo < hi`, all within `[lo, hi]`. */
  lemma RunSweepShape(kiteArea: real, gearboxRatio: real, lo: real, hi: real,
                      engine: Engine, withRetraction: bool)
    requires lo <= hi
    ensures var d := RunSweep(kiteArea, gearboxRatio, lo, hi, engine, withRetraction);
            && |d.wind| <= GridSize
            && Shaped(d, |d.wind|, withRetraction)
            && (forall a :: 0 <= a < |d.wind| ==> lo <= d.wind[a] <= hi)
            && (lo < hi ==> forall a, b :: 0 <= a < b < |d.wind| ==> d.wind[a] < d.wind[b])
  {
    var g := Grid(lo, hi);
    var sp := Initiate(kiteArea);
    GridOrdered(lo, hi);
    SweepMatchesKept(g, sp, gearboxRatio, engine, withRetraction);
    KeptExactly(g, sp, gearboxRatio, engine);
    var d := RunSweep(kiteArea, gearboxRatio, lo, hi, engine, withRetraction);
    var k := Kept(g, sp, gearboxRatio, engine);
    assert Shaped(d, |k|, withRetraction);
    forall a | 0 <= a < |k|
      ensures d.wind[a] == g[k[a]]
    {
      assert d.wind[a] == SampleAt(d, a, withRetraction).wind;
    }
    if lo < hi {
      forall a, b | 0 <= a < b < |k|
        ensures d.wind[a] < d.wind[b]
      {
        assert k[a] < k[b];
        assert g[k[a]] < g[k[b]];
      }
    }
  }

  /** When the engine succeeds everywhere with non-empty runs and the gearbox
      ratio is non-zero, the sweep has exactly 20 samples from `lo` to `hi`. */
  lemma RunSweepAllSucceed(kiteArea: real, gearboxRatio: real, lo: real, hi: real,
                           engine: Engine, withRetraction: bool)
    requires gearboxRatio != 0.0
    requires forall ws :: lo <= ws <= hi ==> Keeps(engine(Initiate(kiteArea), ws), gearboxRatio)
    requires lo <= hi
    ensures var d := RunSweep(kiteArea, gearboxRatio, lo, hi, engine, withRetraction);
            |d.wind| == 20 && d.wind[0] == lo && d.wind[19] == hi
  {
    var g := Grid(lo, hi);
    var sp := Initiate(kiteArea);
    GridOrdered(lo, hi);
    SweepMatchesKept(g, sp, gearboxRatio, engine, withRetraction);
    var d := RunSweep(kiteArea, gearboxRatio, lo, hi, engine, withRetraction);
    var k := Kept(g, sp, gearboxRatio, engine);
    KeptAll(g, sp, gearboxRatio, engine);
    assert d.wind[0] == SampleAt(d, 0, withRetraction).wind == g[k[0]];
    assert d.wind[19] == SampleAt(d, 19, withRetraction).wind == g[k[19]];
  }

  /** When every point is kept, the kept indices are all indices. */
  lemma {:induction false} KeptAll(points: seq<real>, sp: SystemProperties, gearboxRatio: real, engine: Engine)
    requires forall i :: 0 <= i < |points| ==> Keeps(engine(sp, points[i]), gearboxRatio)
    ensures |Kept(points, sp, gearboxRatio, engine)| == |points|
    ensures forall a :: 0 <= a < |points| ==> Kept(points, sp, gearboxRatio, engine)[a] == a
    decreases |points|
  {
    if |points| > 0 {
      var n := |points| - 1;
      assert forall i :: 0 <= i < n ==> points[..n][i] == points[i];
      KeptAll(points[..n], sp, gearboxRatio, engine);
    }
  }

  /** Every sample keeps the invariants of a sweep sample: all per-step lists
      equally long, torque and angular speed conserve the tether power, and
      `mean_power` is the mean of the power list. */
  lemma SampleInvariant(ws: real, run: Run, gearboxRatio: real, withRetraction: bool)
    requires |run.steps| > 0 && gearboxRatio != 0.0
    ensures var s := SampleOf(ws, run, gearboxRatio, withRetraction);
            && |s.reelingSpeed| == |s.tetherForce| == |s.time| == |s.power|
               == |s.torque| == |s.omega| == |run.steps| > 0
            && (forall j :: 0 <= j < |s.torque| ==>
                  s.torque[j] * s.omega[j] == s.tetherForce[j] * s.reelingSpeed[j])
            && s.meanPower * (|s.power| as real) == Sum(s.power)
  {
    SampleConservesPower(run.steps, gearboxRatio);
    MeanTimesCount(Sum(Powers(run.steps)), |run.steps| as real);
  }

  /** Step by step, torque times angular speed is force times reeling speed. */
  lemma SampleConservesPower(steps: seq<Step>, gearboxRatio: real)
    requires gearboxRatio != 0.0
    ensures var tq, om := Torques(steps, gearboxRatio), Omegas(steps, gearboxRatio);
            forall j :: 0 <= j < |steps| ==> tq[j] * om[j] == steps[j].tetherForce * steps[j].reelingSpeed
  {
    forall j | 0 <= j < |steps|
      ensures Torques(steps, gearboxRatio)[j] * Omegas(steps, gearboxRatio)[j]
              == steps[j].tetherForce * steps[j].reelingSpeed
    {
      assert Torques(steps, gearboxRatio)[j] == Torque(steps[j].tetherForce, gearboxRatio);
      assert Omegas(steps, gearboxRatio)[j] == Omega(steps[j].reelingSpeed, gearboxRatio);
      PowerConserved(steps[j].tetherForce, steps[j].reelingSpeed, gearboxRatio);
    }
  }

  lemma MeanTimesCount(total: real, n: real)
    requires n != 0.0
    ensures (total / n) * n == total
  {
  }

  // ---------------------------------------------------------------------------
  // The sweep as written.

  /** How many points return a run without steady states (and so raise in
      `sum / len` after seven appends). */
  function EmptyRuns(points: seq<real>, sp: SystemProperties, engine: Engine): nat
  {
    if |points| == 0 then 0
    else
      var n := |points| - 1;
      var o := engine(sp, points[n]);
      EmptyRuns(points[..n], sp, engine) + (if o.Some? && |o.value.steps| == 0 then 1 else 0)
  }

  /** As written, the seven series lists stay aligned with `wind`, but
      `mean_power` (and `retraction_power`) miss one entry for every point whose
      run had no steady states. */
  lemma {:induction false} AsWrittenLengths(points: seq<real>, sp: SystemProperties, gearboxRatio: real,
                                            engine: Engine, withRetraction: bool)
    ensures var d := SweepOverAsWritten(points, sp, gearboxRatio, engine, withRetraction);
            && |d.reelingSpeed| == |d.tetherForce| == |d.time| == |d.power|
               == |d.torque| == |d.omega| == |d.wind|
            && |d.wind| == |d.meanPower| + EmptyRuns(points, sp, engine)
            && d.retractionPower.Some? == withRetraction
            && (withRetraction ==> |d.retractionPower.value| == |d.meanPower|)
    decreases |points|
  {
    if |points| > 0 {
      var n := |points| - 1;
      AsWrittenLengths(points[..n], sp, gearboxRatio, engine, withRetraction);
    }
  }

  /** A single run without steady states is enough to misalign the lists. */
  lemma AsWrittenMisaligned(points: seq<real>, sp: SystemProperties, gearboxRatio: real,
                            engine: Engine, withRetraction: bool, i: nat)
    requires i < |points|
    requires engine(sp, points[i]).Some? && |engine(sp, points[i]).value.steps| == 0
    ensures var d := SweepOverAsWritten(points, sp, gearboxRatio, engine, withRetraction);
            |d.meanPower| < |d.wind|
  {
    AsWrittenLengths(points, sp, gearboxRatio, engine, withRetraction);
    EmptyRunsCounts(points, sp, engine, i);
  }

  lemma {:induction false} EmptyRunsCounts(points: seq<real>, sp: SystemProperties, engine: Engine, i: nat)
    requires i < |points|
    requires engine(sp, points[i]).Some? && |engine(sp, points[i]).value.steps| == 0
    ensures EmptyRuns(points, sp, engine) > 0
    decreases |points|
  {
    var n := |points| - 1;
    if i < n {
      assert points[..n][i] == points[i];
      EmptyRunsCounts(points[..n], sp, engine, i);
    }
  }

  /** Without empty runs, the program and the corrected sweep agree. */
  lemma {:induction false} AsWrittenAgreesWithoutEmptyRuns(points: seq<real>, sp: SystemProperties,
                                                           gearboxRatio: real, engine: Engine,
                                                           withRetraction: bool)
    requires forall i :: 0 <= i < |points| ==>
               engine(sp, points[i]).None? || |engine(sp, points[i]).value.steps| > 0
    ensures SweepOverAsWritten(points, sp, gearboxRatio, engine, withRetraction)
         == SweepOver(points, sp, gearboxRatio, engine, withRetraction)
    decreases |points|
  {
    if |points| > 0 {
      var n := |points| - 1;
      assert forall i :: 0 <= i < n ==> points[..n][i] == points[i];
      AsWrittenAgreesWithoutEmptyRuns(points[..n], sp, gearboxRatio, engine, withRetraction);
    }
  }

  // ---------------------------------------------------------------------------
  // The sweep with the NaN sentinel: the repair the reducers anticipate.

  /** The nine lists with `mean_power` allowed to hold NaN (`None`), as the
      reducers' `if sublist else np.nan` guards expect of a point whose run has
      no steady states. */
  datatype NaNSweepData = NaNSweepData(
    reelingSpeed: seq<seq<real>>,
    tetherForce: seq<seq<real>>,
    time: seq<seq<real>>,
    wind: seq<real>,
    power: seq<seq<real>>,
    torque: seq<seq<real>>,
    omega: seq<seq<real>>,
    meanPower: seq<Option<real>>,
    retractionPower: Option<seq<seq<real>>>)

  function EmptyNaNData(withRetraction: bool): NaNSweepData
  {
    NaNSweepData([], [], [], [], [], [], [], [], if withRetraction then Some([]) else None)
  }

  /** `m` is the mean of `p`, or NaN exactly when `p` is empty. */
  ghost predicate MeanEntry(m: Option<real>, p: seq<real>)
  {
    && (m.None? <==> |p| == 0)
    && (m.Some? ==> m.value * (|p| as real) == Sum(p))
  }

  /** `sum(power_ground) / len(power_ground)`, NaN for a run without steady states. */
  function MeanOrNaN(steps: seq<Step>): (m: Option<real>)
    ensures MeanEntry(m, Powers(steps))
  {
    if |steps| == 0 then None
    else
      MeanTimesCount(Sum(Powers(steps)), |steps| as real);
      Some(Sum(Powers(steps)) / (|steps| as real))
  }

  /** One loop iteration with the NaN sentinel. A failed engine call and a zero
      gearbox ratio still drop the point, since they raise before any append; a
      run without steady states is kept in every list, with a NaN mean and the
      fallback retraction list. */
  function CollectNaN(d: NaNSweepData, ws: real, outcome: Option<Run>, gearboxRatio: real): NaNSweepData
  {
    match outcome
    case None => d
    case Some(run) =>
      if gearboxRatio == 0.0 && |run.steps| > 0 then d
      else
        d.(reelingSpeed := d.reelingSpeed + [ReelingSpeeds(run.steps)],
           tetherForce := d.tetherForce + [Forces(run.steps)],
           time := d.time + [Times(run.steps)],
           wind := d.wind + [ws],
           power := d.power + [Powers(run.steps)],
           torque := d.torque + [Torques(run.steps, gearboxRatio)],
           omega := d.omega + [Omegas(run.steps, gearboxRatio)],
           meanPower := d.meanPower + [MeanOrNaN(run.steps)],
           retractionPower := if d.retractionPower.Some?
                              then Some(d.retractionPower.value + [RetractionPower(run)])
                              else None)
  }

  function SweepOverNaN(points: seq<real>, sp: SystemProperties, gearboxRatio: real,
                        engine: Engine, withRetraction: bool): NaNSweepData
  {
    if |points| == 0 then EmptyNaNData(withRetraction)
    else
      var n := |points| - 1;
      CollectNaN(SweepOverNaN(points[..n], sp, gearboxRatio, engine, withRetraction),
                 points[n], engine(sp, points[n]), gearboxRatio)
  }

  /** `sweep_data` with the NaN sentinel for runs without steady states. */
  function RunSweepNaN(kiteArea: real, gearboxRatio: real, lo: real, hi: real,
                       engine: Engine, withRetraction: bool): NaNSweepData
  {
    SweepOverNaN(Grid(lo, hi), Initiate(kiteArea), gearboxRatio, engine, withRetraction)
  }

  /** The number of points that reach the appends: the engine returns a run,
      and the torque conversion does not divide by a zero ratio. */
  function Visited(points: seq<real>, sp: SystemProperties, gearboxRatio: real, engine: Engine): nat
  {
    if |points| == 0 then 0
    else
      var n := |points| - 1;
      var o := engine(sp, points[n]);
      Visited(points[..n], sp, gearboxRatio, engine)
        + (if o.Some? && (gearboxRatio != 0.0 || |o.value.steps| == 0) then 1 else 0)
  }

  /** Every list holds `n` entries, the retraction list exists as requested,
      and every mean entry is the mean of its power list or NaN when it is empty. */
  ghost predicate NaNAligned(d: NaNSweepData, n: nat, withRetraction: bool)
  {
    && |d.reelingSpeed| == n && |d.tetherForce| == n && |d.time| == n && |d.wind| == n
    && |d.power| == n && |d.torque| == n && |d.omega| == n && |d.meanPower| == n
    && d.retractionPower.Some? == withRetraction
    && (withRetraction ==> |d.retractionPower.value| == n)
    && (forall k :: 0 <= k < n ==> MeanEntry(d.meanPower[k], d.power[k]))
  }

  /** With the NaN sentinel all nine lists stay aligned with `wind`, one entry
      per visited point, a run without steady states included; a mean is NaN
      exactly where its power list is empty. */
  lemma {:induction false} NaNSweepAligned(points: seq<real>, sp: SystemProperties, gearboxRatio: real,
                                           engine: Engine, withRetraction: bool)
    ensures NaNAligned(SweepOverNaN(points, sp, gearboxRatio, engine, withRetraction),
                       Visited(points, sp, gearboxRatio, engine), withRetraction)
    decreases |points|
  {
    if |points| > 0 {
      var n := |points| - 1;
      NaNSweepAligned(points[..n], sp, gearboxRatio, engine, withRetraction);
      var m := SweepOverNaN(points[..n], sp, gearboxRatio, engine, withRetraction);
      var d := SweepOverNaN(points, sp, gearboxRatio, engine, withRetraction);
      var o := engine(sp, points[n]);
      assert d == CollectNaN(m, points[n], o, gearboxRatio);
      if o.Some? && (gearboxRatio != 0.0 || |o.value.steps| == 0) {
        var c := |m.wind|;
        forall k | 0 <= k < c + 1
          ensures MeanEntry(d.meanPower[k], d.power[k])
        {
          if k < c {
            assert d.meanPower[k] == m.meanPower[k] && d.power[k] == m.power[k];
          } else {
            assert d.meanPower[k] == MeanOrNaN(o.value.steps) && d.power[k] == Powers(o.value.steps);
          }
        }
      } else {
        assert d == m;
      }
    }
  }

  /** The sentinel version differs from the program only in the two summary
      lists: it has the same seven per-step lists and winds, and its defined
      means, in order, are the program's `mean_power`. */
  lemma {:induction false} NaNSweepExtendsAsWritten(points: seq<real>, sp: SystemProperties, gearboxRatio: real,
                                                    engine: Engine, withRetraction: bool)
    ensures var d := SweepOverNaN(points, sp, gearboxRatio, engine, withRetraction);
            var w := SweepOverAsWritten(points, sp, gearboxRatio, engine, withRetraction);
            && d.reelingSpeed == w.reelingSpeed && d.tetherForce == w.tetherForce
            && d.time == w.time && d.wind == w.wind && d.power == w.power
            && d.torque == w.torque && d.omega == w.omega
            && Present(d.meanPower) == w.meanPower
    decreases |points|
  {
    if |points| > 0 {
      var n := |points| - 1;
      NaNSweepExtendsAsWritten(points[..n], sp, gearboxRatio, engine, withRetraction);
      var m := SweepOverNaN(points[..n], sp, gearboxRatio, engine, withRetraction);
      var d := SweepOverNaN(points, sp, gearboxRatio, engine, withRetraction);
      if d.meanPower != m.meanPower {
        var e := MeanOrNaN(engine(sp, points[n]).value.steps);
        assert d.meanPower == m.meanPower + [e];
        assert (m.meanPower + [e])[..|m.meanPower|] == m.meanPower;
      }
    }
  }

  /** Where no point yields a run without steady states, the sentinel version
      is the corrected sweep with every mean defined. */
  lemma {:induction false} NaNSweepAgreesWithoutEmptyRuns(points: seq<real>, sp: SystemProperties,
                                                          gearboxRatio: real, engine: Engine,
                                                          withRetraction: bool)
    requires forall i :: 0 <= i < |points| ==>
               engine(sp, points[i]).None? || |engine(sp, points[i]).value.steps| > 0
    ensures var d := SweepOverNaN(points, sp, gearboxRatio, engine, withRetraction);
            var c := SweepOver(points, sp, gearboxRatio, engine, withRetraction);
            && d.reelingSpeed == c.reelingSpeed && d.tetherForce == c.tetherForce
            && d.time == c.time && d.wind == c.wind && d.power == c.power
            && d.torque == c.torque && d.omega == c.omega
            && d.retractionPower == c.retractionPower
            && |d.meanPower| == |c.meanPower|
            && (forall k :: 0 <= k < |d.meanPower| ==> d.meanPower[k] == Some(c.meanPower[k]))
    decreases |points|
  {
    if |points| > 0 {
      var n := |points| - 1;
      assert forall i :: 0 <= i < n ==> points[..n][i] == points[i];
      NaNSweepAgreesWithoutEmptyRuns(points[..n], sp, gearboxRatio, engine, withRetraction);
      var o := engine(sp, points[n]);
      var m := SweepOverNaN(points[..n], sp, gearboxRatio, engine, withRetraction);
      var mc := SweepOver(points[..n], sp, gearboxRatio, engine, withRetraction);
      var d := SweepOverNaN(points, sp, gearboxRatio, engine, withRetraction);
      var c := SweepOver(points, sp, gearboxRatio, engine, withRetraction);
      if Keeps(o, gearboxRatio) {
        var mean := Sum(Powers(o.value.steps)) / (|o.value.steps| as real);
        assert d.meanPower == m.meanPower + [Some(mean)];
        assert c.meanPower == mc.meanPower + [mean];
      } else {
        assert d == m && c == mc;
      }
    }
  }
}
