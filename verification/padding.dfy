/** Zero-order-hold padding of the stored single-run profiles before they are
    drawn on one time axis (`plot_graphs_linear`): every profile whose last time
    is below the largest time of all profiles gains the times
    `np.arange(t[-1] + dt, max_time + 1e-8, dt)`, and its reeling speed, tether
    force and power repeat their last value as often. */
module Padding {
  import opened Numeric

  /** The time step of app/main.py and of the older copy of the program. */
  const MainStep: real := 0.04
  const CopyStep: real := 0.01

  /** The tolerance added to `max_time` at the end of the `arange`. */
  const Slack: real := 0.00000001

  /** A Plotly figure: only whether it exists matters here. */
  datatype Figure = Figure(id: nat)

  /** The `data` dictionary of one single-run profile. */
  datatype Series = Series(
    time: seq<real>,
    reelingSpeed: seq<real>,
    tetherForce: seq<real>,
    power: seq<real>,
    torque: seq<real>,
    omega: seq<real>)

  /** One `(fig1, fig2, fig3, wind_speed, kite_area, data)` tuple of `plot_data`. */
  datatype Profile = Profile(fig1: Figure, fig2: Figure, fig3: Figure,
                             windSpeed: real, kiteArea: real, data: Series)

  predicate HasTimes(profiles: seq<Profile>)
  {
    forall i :: 0 <= i < |profiles| ==> |profiles[i].data.time| > 0
  }

  /** `max(max(t) for t in all_times)`. */
  function MaxTime(profiles: seq<Profile>): real
    requires |profiles| > 0 && HasTimes(profiles)
  {
    Max(seq(|profiles|, i requires 0 <= i < |profiles| => Max(profiles[i].data.time)))
  }

  /** `max_time` bounds every stored time and is one of them. */
  lemma MaxTimeSpec(profiles: seq<Profile>)
    requires |profiles| > 0 && HasTimes(profiles)
    ensures forall i, j :: 0 <= i < |profiles| && 0 <= j < |profiles[i].data.time| ==>
              profiles[i].data.time[j] <= MaxTime(profiles)
    ensures exists i, j :: 0 <= i < |profiles| && 0 <= j < |profiles[i].data.time| &&
              profiles[i].data.time[j] == MaxTime(profiles)
  {
    var ms := seq(|profiles|, i requires 0 <= i < |profiles| => Max(profiles[i].data.time));
    forall i, j | 0 <= i < |profiles| && 0 <= j < |profiles[i].data.time|
      ensures profiles[i].data.time[j] <= MaxTime(profiles)
    {
      assert profiles[i].data.time[j] <= ms[i];
    }
    var i :| 0 <= i < |ms| && ms[i] == MaxTime(profiles);
    var j :| 0 <= j < |profiles[i].data.time| && profiles[i].data.time[j] == ms[i];
  }

  lemma MulMonotone(a: real, b: real, dt: real)
    requires a <= b && dt > 0.0
    ensures a * dt <= b * dt
  {
  }

  lemma MulStrict(a: real, b: real, dt: real)
    requires a < b && dt > 0.0
    ensures a * dt < b * dt
  {
  }

  lemma CeilSteps(x: real, dt: real)
    requires dt > 0.0
    ensures (Ceil(x / dt) as real) * dt >= x
    ensures ((Ceil(x / dt) - 1) as real) * dt < x
  {
    var q := x / dt;
    var c := Ceil(q);
    assert q * dt == x;
    MulMonotone(q, c as real, dt);
    assert (c - 1) as real < q;
    MulStrict((c - 1) as real, q, dt);
    assert ((c - 1) as real) * dt < q * dt;
    assert ((c - 1) as real) * dt < x;
  }

  /** `len(np.arange(start, stop, dt))` for `start = last + dt`: the number of
      steps `last + k * dt`, `k >= 1`, that stay below `stop`. */
  function PadCount(last: real, stop: real, dt: real): (n: nat)
    requires dt > 0.0
    ensures last + (n as real) * dt + dt >= stop
    ensures n > 0 ==> last + (n as real) * dt < stop
  {
    var x := stop - (last + dt);
    CeilSteps(x, dt);
    var c := Ceil(x / dt);
    assert (c as real) * dt - dt == ((c - 1) as real) * dt;
    if c < 0 then 0 else c
  }

  /** `np.arange(last + dt, stop, dt)`. */
  function PadTimes(last: real, stop: real, dt: real): (r: seq<real>)
    requires dt > 0.0
  {
    seq(PadCount(last, stop, dt), k requires 0 <= k => (last + dt) + (k as real) * dt)
  }

  lemma PadTimeAt(last: real, stop: real, dt: real, k: nat)
    requires dt > 0.0 && k < PadCount(last, stop, dt)
    ensures PadTimes(last, stop, dt)[k] == last + ((k + 1) as real) * dt
    ensures last < PadTimes(last, stop, dt)[k] < stop
  {
    var n := PadCount(last, stop, dt);
    var t := PadTimes(last, stop, dt)[k];
    assert t == last + ((k + 1) as real) * dt;
    MulMonotone((k + 1) as real, n as real, dt);
    assert last + (n as real) * dt < stop;
    assert t <= last + (n as real) * dt;
    MulStrict(0.0, (k + 1) as real, dt);
  }

  /** The padded times step forward by `dt` from the old last time, stay
      strictly below `stop`, and the next step would not. */
  lemma PadTimesSpec(last: real, stop: real, dt: real)
    requires dt > 0.0
    ensures var r := PadTimes(last, stop, dt);
            forall k :: 0 <= k < |r| ==> r[k] == last + ((k + 1) as real) * dt && last < r[k] < stop
    ensures var r := PadTimes(last, stop, dt);
            |r| == 0 ==> last + dt >= stop
    ensures var r := PadTimes(last, stop, dt);
            |r| > 0 ==> r[|r| - 1] < stop <= r[|r| - 1] + dt
  {
    var r := PadTimes(last, stop, dt);
    forall k | 0 <= k < |r|
      ensures r[k] == last + ((k + 1) as real) * dt && last < r[k] < stop
    {
      PadTimeAt(last, stop, dt, k);
    }
  }

  /** `np.concatenate([s, np.full(n, s[-1])])`. */
  function Hold(s: seq<real>, n: nat): (r: seq<real>)
    requires |s| > 0
    ensures |r| == |s| + n
    ensures r[..|s|] == s
    ensures forall k :: |s| <= k < |r| ==> r[k] == s[|s| - 1]
  {
    s + seq(n, _ => s[|s| - 1])
  }

  function Last(s: seq<real>): real
    requires |s| > 0
  {
    s[|s| - 1]
  }

  /** One iteration of the padding loop. `None` where `data[key][-1]` raises on
      an empty series. */
  function PadSeries(d: Series, maxTime: real, dt: real): Series
    requires |d.time| > 0 && dt > 0.0
    requires Last(d.time) < maxTime ==> |d.reelingSpeed| > 0 && |d.tetherForce| > 0 && |d.power| > 0
  {
    if Last(d.time) < maxTime then
      var n := PadCount(Last(d.time), maxTime + Slack, dt);
      d.(time := d.time + PadTimes(Last(d.time), maxTime + Slack, dt),
         reelingSpeed := Hold(d.reelingSpeed, n),
         tetherForce := Hold(d.tetherForce, n),
         power := Hold(d.power, n))
    else d
  }

  /** Whether `PadSeries` can run on a profile without raising. */
  predicate Paddable(d: Series, maxTime: real)
  {
    |d.time| > 0
    && (Last(d.time) < maxTime ==> |d.reelingSpeed| > 0 && |d.tetherForce| > 0 && |d.power| > 0)
  }

  function PadProfile(p: Profile, maxTime: real, dt: real): Profile
    requires dt > 0.0 && Paddable(p.data, maxTime)
  {
    p.(data := PadSeries(p.data, maxTime, dt))
  }

  /** The padding pass over all stored profiles, `None` where it raises: no
      profile at all or an empty time list (`max` of an empty sequence), or an
      empty series in a profile that needs padding. */
  function Pad(profiles: seq<Profile>, dt: real): (r: Option<seq<Profile>>)
    requires dt > 0.0
    ensures r.Some? ==> |r.value| == |profiles|
    ensures r.Some? <==> |profiles| > 0 && HasTimes(profiles)
                         && forall i :: 0 <= i < |profiles| ==> Paddable(profiles[i].data, MaxTime(profiles))
  {
    if |profiles| == 0 || !HasTimes(profiles) then None
    else
      var m := MaxTime(profiles);
      if forall i :: 0 <= i < |profiles| ==> Paddable(profiles[i].data, m)
      then Some(seq(|profiles|, i requires 0 <= i < |profiles| => PadProfile(profiles[i], m, dt)))
      else None
  }

  /** `held` is `s` followed by `n` copies of its last value, which is what
      `np.concatenate([s, np.full(pad.shape, s[-1])])` builds. */
  ghost predicate HeldBy(s: seq<real>, held: seq<real>, n: nat)
  {
    && |held| == |s| + n
    && held[..|s|] == s
    && (n > 0 ==> |s| > 0 && forall k :: |s| <= k < |held| ==> held[k] == s[|s| - 1])
  }

  /** What one padded profile looks like: the old times followed by steps of
      `dt` strictly below `max_time + 1e-8`; the held series gain as many
      copies of their last value; torque, omega, figures, wind speed and kite
      area are untouched; a profile that already reaches `max_time` is
      returned unchanged. */
  lemma PadSeriesSpec(d: Series, maxTime: real, dt: real)
    requires dt > 0.0 && Paddable(d, maxTime)
    ensures var q := PadSeries(d, maxTime, dt);
            var n := |q.time| - |d.time|;
            && |q.time| >= |d.time|
            && q.time[..|d.time|] == d.time
            && (forall k :: |d.time| <= k < |q.time| ==>
                  q.time[k] == Last(d.time) + ((k - |d.time| + 1) as real) * dt
                  && Last(d.time) < q.time[k] < maxTime + Slack)
            && HeldBy(d.reelingSpeed, q.reelingSpeed, n)
            && HeldBy(d.tetherForce, q.tetherForce, n)
            && HeldBy(d.power, q.power, n)
            && q.torque == d.torque && q.omega == d.omega
    ensures Last(d.time) >= maxTime ==> PadSeries(d, maxTime, dt) == d
  {
    if Last(d.time) < maxTime {
      var last := Last(d.time);
      PadTimesSpec(last, maxTime + Slack, dt);
      var q := PadSeries(d, maxTime, dt);
      var pad := PadTimes(last, maxTime + Slack, dt);
      assert q.time == d.time + pad;
      forall k | |d.time| <= k < |q.time|
        ensures q.time[k] == last + ((k - |d.time| + 1) as real) * dt
        ensures last < q.time[k] < maxTime + Slack
      {
        assert q.time[k] == pad[k - |d.time|];
      }
    }
  }

  /** `q` is `p` after any number of padding passes: the same figures, wind
      speed, kite area, torque and omega, and the time axis and the three held
      series each start with `p`'s values (`<=` is the prefix order). */
  ghost predicate Extends(p: Profile, q: Profile)
  {
    && q.fig1 == p.fig1 && q.fig2 == p.fig2 && q.fig3 == p.fig3
    && q.windSpeed == p.windSpeed && q.kiteArea == p.kiteArea
    && p.data.time <= q.data.time
    && p.data.reelingSpeed <= q.data.reelingSpeed
    && p.data.tetherForce <= q.data.tetherForce
    && p.data.power <= q.data.power
    && q.data.torque == p.data.torque && q.data.omega == p.data.omega
  }

  lemma ExtendsTransitive(p: Profile, q: Profile, r: Profile)
    requires Extends(p, q) && Extends(q, r)
    ensures Extends(p, r)
  {
  }

  /** A padding pass only extends the stored profiles: nothing stored before
      it is changed or reordered. */
  lemma PadExtends(profiles: seq<Profile>, dt: real)
    requires dt > 0.0
    ensures Pad(profiles, dt).Some? ==>
              forall i :: 0 <= i < |profiles| ==> Extends(profiles[i], Pad(profiles, dt).value[i])
  {
    if Pad(profiles, dt).Some? {
      var m := MaxTime(profiles);
      forall i | 0 <= i < |profiles|
        ensures Extends(profiles[i], Pad(profiles, dt).value[i])
      {
        var d := profiles[i].data;
        PadSeriesSpec(d, m, dt);
        assert Pad(profiles, dt).value[i] == PadProfile(profiles[i], m, dt);
      }
    }
  }

  /** Reeling speed, tether force and power gain as many entries as time, so
      series that were aligned with the time axis stay aligned. */
  lemma PadKeepsAlignment(d: Series, maxTime: real, dt: real)
    requires dt > 0.0 && Paddable(d, maxTime)
    requires |d.reelingSpeed| == |d.tetherForce| == |d.power| == |d.time|
    ensures var q := PadSeries(d, maxTime, dt);
            |q.reelingSpeed| == |q.tetherForce| == |q.power| == |q.time|
  {
  }

  /** After padding, a profile that was short of `max_time` ends within one
      step of it: not exactly there in general, and possibly past it by up to
      `1e-8`. */
  lemma PaddedEnd(d: Series, maxTime: real, dt: real)
    requires dt > 0.0 && Paddable(d, maxTime)
    requires Last(d.time) < maxTime
    ensures var q := PadSeries(d, maxTime, dt);
            |q.time| > 0 && maxTime + Slack - dt <= Last(q.time) < maxTime + Slack
  {
    var last := Last(d.time);
    var pad := PadTimes(last, maxTime + Slack, dt);
    PadTimesSpec(last, maxTime + Slack, dt);
    var t := PadSeries(d, maxTime, dt).time;
    assert t == d.time + pad;
    if |pad| > 0 {
      assert Last(t) == pad[|pad| - 1];
    } else {
      assert Last(t) == last;
    }
  }

  /** A profile padded once, against the same `max_time`, is padded no further. */
  lemma PadSeriesIdempotent(d: Series, maxTime: real, dt: real)
    requires dt > 0.0 && Paddable(d, maxTime)
    requires Last(d.time) <= maxTime
    ensures Paddable(PadSeries(d, maxTime, dt), maxTime)
    ensures PadSeries(PadSeries(d, maxTime, dt), maxTime, dt) == PadSeries(d, maxTime, dt)
  {
    var q := PadSeries(d, maxTime, dt);
    if Last(d.time) < maxTime {
      PaddedEnd(d, maxTime, dt);
      if Last(q.time) < maxTime {
        var n := PadCount(Last(q.time), maxTime + Slack, dt);
        if n > 0 {
          MulMonotone(1.0, n as real, dt);
          assert false;
        }
        assert PadTimes(Last(q.time), maxTime + Slack, dt) == [];
        assert q.time + [] == q.time;
      }
    }
  }

  /** A second pass changes nothing as long as the first pass did not raise
      `max_time`: every profile then already ends within one step of it. */
  lemma PadIdempotent(profiles: seq<Profile>, dt: real)
    requires dt > 0.0
    requires Pad(profiles, dt).Some?
    requires MaxTime(Pad(profiles, dt).value) == MaxTime(profiles)
    ensures Pad(Pad(profiles, dt).value, dt) == Pad(profiles, dt)
  {
    var m := MaxTime(profiles);
    var qs := Pad(profiles, dt).value;
    MaxTimeSpec(profiles);
    forall i | 0 <= i < |qs|
      ensures Paddable(qs[i].data, m) && PadProfile(qs[i], m, dt) == qs[i]
    {
      var d := profiles[i].data;
      assert d.time[|d.time| - 1] <= m;
      PadSeriesIdempotent(d, m, dt);
    }
    assert Pad(qs, dt).value == qs;
  }

  /** A two-sample profile ending at `end`, used by the counterexample below. */
  function Sample(fig: nat, end: real): Profile
  {
    var s := [0.0];
    Profile(Figure(fig), Figure(fig + 1), Figure(fig + 2), 5.0, 10.0, Series([0.0, end], s, s, s, s, s))
  }

  /** A sample profile's last time is its largest. */
  lemma SampleEnd(fig: nat, end: real)
    requires end >= 0.0
    ensures Max(Sample(fig, end).data.time) == end
  {
    MaxIs([0.0, end], end);
  }

  lemma SamplePaddable(fig: nat, end: real, m: real)
    ensures Paddable(Sample(fig, end).data, m)
  {
  }

  /** `max_time` read off the per-profile maxima. */
  lemma MaxTimeIs(profiles: seq<Profile>, ends: seq<real>, m: real)
    requires |profiles| == |ends| > 0 && HasTimes(profiles)
    requires forall i :: 0 <= i < |profiles| ==> Max(profiles[i].data.time) == ends[i]
    requires m in ends && forall i :: 0 <= i < |ends| ==> ends[i] <= m
    ensures MaxTime(profiles) == m
  {
    var ms := seq(|profiles|, i requires 0 <= i < |profiles| => Max(profiles[i].data.time));
    assert ms == ends;
    MaxIs(ms, m);
  }

  /** The pad lengths met by the counterexample below. */
  lemma CounterexampleCounts()
    ensures PadCount(0.990000009, 1.0 + Slack, CopyStep) == 1
    ensures PadCount(0.990000015, 1.0 + Slack, CopyStep) == 0
    ensures PadCount(0.990000015, 1.000000009 + Slack, CopyStep) == 1
  {
  }

  /** A profile short of `max_time` whose pad has a single step. */
  lemma PadSeriesOneStep(d: Series, maxTime: real, dt: real)
    requires dt > 0.0 && Paddable(d, maxTime) && Last(d.time) < maxTime
    requires PadCount(Last(d.time), maxTime + Slack, dt) == 1
    ensures var q := PadSeries(d, maxTime, dt);
            && q.time == d.time + [Last(d.time) + dt]
            && q.reelingSpeed == d.reelingSpeed + [Last(d.reelingSpeed)]
            && q.tetherForce == d.tetherForce + [Last(d.tetherForce)]
            && q.power == d.power + [Last(d.power)]
            && q.torque == d.torque && q.omega == d.omega
  {
    assert PadTimes(Last(d.time), maxTime + Slack, dt) == [Last(d.time) + dt];
  }

  /** A profile short of `max_time` whose pad is empty is left alone. */
  lemma PadSeriesNoStep(d: Series, maxTime: real, dt: real)
    requires dt > 0.0 && Paddable(d, maxTime) && Last(d.time) < maxTime
    requires PadCount(Last(d.time), maxTime + Slack, dt) == 0
    ensures PadSeries(d, maxTime, dt) == d
  {
    assert PadTimes(Last(d.time), maxTime + Slack, dt) == [];
    assert d.time + [] == d.time;
  }

  /** Once `max_time` is known and every profile can be padded, the pass pads
      each profile to it. */
  lemma PadWith(profiles: seq<Profile>, dt: real, m: real)
    requires dt > 0.0 && |profiles| > 0 && HasTimes(profiles) && MaxTime(profiles) == m
    requires forall i :: 0 <= i < |profiles| ==> Paddable(profiles[i].data, m)
    ensures Pad(profiles, dt).Some?
    ensures forall i :: 0 <= i < |profiles| ==> Pad(profiles, dt).value[i] == PadProfile(profiles[i], m, dt)
  {
  }

  /** The three profiles of the counterexample, padded to 1.0. */
  lemma FirstPassProfiles()
    ensures PadProfile(Sample(0, 1.0), 1.0, CopyStep) == Sample(0, 1.0)
    ensures PadProfile(Sample(3, 0.990000009), 1.0, CopyStep).data
            == Sample(3, 0.990000009).data.(time := [0.0, 0.990000009, 1.000000009], reelingSpeed := [0.0, 0.0],
                                            tetherForce := [0.0, 0.0], power := [0.0, 0.0])
    ensures PadProfile(Sample(6, 0.990000015), 1.0, CopyStep) == Sample(6, 0.990000015)
  {
    CounterexampleCounts();
    PadSeriesOneStep(Sample(3, 0.990000009).data, 1.0, CopyStep);
    PadSeriesNoStep(Sample(6, 0.990000015).data, 1.0, CopyStep);
  }

  lemma FirstPass()
    ensures var ps := [Sample(0, 1.0), Sample(3, 0.990000009), Sample(6, 0.990000015)];
            var once := Pad(ps, CopyStep);
            && once.Some?
            && once.value[0] == ps[0]
            && once.value[1].data.time == [0.0, 0.990000009, 1.000000009]
            && once.value[1].data.reelingSpeed == [0.0, 0.0]
            && once.value[2] == ps[2]
  {
    var ps := [Sample(0, 1.0), Sample(3, 0.990000009), Sample(6, 0.990000015)];
    SampleEnd(0, 1.0);
    SampleEnd(3, 0.990000009);
    SampleEnd(6, 0.990000015);
    MaxTimeIs(ps, [1.0, 0.990000009, 0.990000015], 1.0);
    SamplePaddable(0, 1.0, 1.0);
    SamplePaddable(3, 0.990000009, 1.0);
    SamplePaddable(6, 0.990000015, 1.0);
    PadWith(ps, CopyStep, 1.0);
    FirstPassProfiles();
  }

  /** After the first pass `max_time` has risen to 1.000000009. */
  lemma SecondMaxTime(once: seq<Profile>)
    requires |once| == 3
    requires once[0] == Sample(0, 1.0)
    requires once[1].data.time == [0.0, 0.990000009, 1.000000009]
    requires once[2] == Sample(6, 0.990000015)
    ensures HasTimes(once) && MaxTime(once) == 1.000000009
  {
    SampleEnd(0, 1.0);
    MaxIs([0.0, 0.990000009, 1.000000009], 1.000000009);
    SampleEnd(6, 0.990000015);
    MaxTimeIs(once, [1.0, 1.000000009, 0.990000015], 1.000000009);
  }

  /** The profile ending at 0.990000015 gains one step when padded to 1.000000009. */
  lemma SecondPassProfile()
    ensures |PadProfile(Sample(6, 0.990000015), 1.000000009, CopyStep).data.time| == 3
  {
    CounterexampleCounts();
    PadSeriesOneStep(Sample(6, 0.990000015).data, 1.000000009, CopyStep);
  }

  lemma SecondPass(once: seq<Profile>)
    requires |once| == 3
    requires once[0] == Sample(0, 1.0)
    requires once[1] == Sample(3, 0.990000009).(data := Sample(3, 0.990000009).data.(
                          time := [0.0, 0.990000009, 1.000000009], reelingSpeed := [0.0, 0.0],
                          tetherForce := [0.0, 0.0], power := [0.0, 0.0]))
    requires once[2] == Sample(6, 0.990000015)
    ensures Pad(once, CopyStep).Some?
    ensures |Pad(once, CopyStep).value[2].data.time| == 3
  {
    SecondMaxTime(once);
    PadWith(once, CopyStep, 1.000000009);
    SecondPassProfile();
  }

  /** Over exact reals the pass is not idempotent in general: with `dt = 0.01`,
      a profile ending at 0.990000009 pads to 1.000000009, past the common end
      1.0, which lifts `max_time`; a second pass then pads the profile ending at
      0.990000015 that the first pass left alone. */
  lemma PadNotIdempotent()
    ensures var ps := [Sample(0, 1.0), Sample(3, 0.990000009), Sample(6, 0.990000015)];
            var once := Pad(ps, CopyStep);
            once.Some? && Pad(once.value, CopyStep).Some? && Pad(once.value, CopyStep) != once
  {
    var ps := [Sample(0, 1.0), Sample(3, 0.990000009), Sample(6, 0.990000015)];
    FirstPass();
    var once := Pad(ps, CopyStep).value;
    assert once[1].data.tetherForce == [0.0, 0.0] && once[1].data.power == [0.0, 0.0];
    assert once[1].data.torque == [0.0] && once[1].data.omega == [0.0];
    SecondPass(once);
    assert |once[2].data.time| == 2;
  }
}
