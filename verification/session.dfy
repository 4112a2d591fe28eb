/** The two session collections, `plot_data` (single-run profiles) and
    `energy_plot_data` (stored sweeps), the operations that grow and reset them,
    and the per-sweep curves that `generate_energy_plots` draws against wind
    speed. The collections are values here: each operation returns the next
    session instead of mutating `st.session_state`. */
module Session {
  import opened Numeric
  import Kite
  import Sweep
  import Padding
  import Reducers
  import Energy

  /** One entry of `energy_plot_data`. */
  datatype SweepRecord = SweepRecord(
    kiteArea: real,
    gearboxRatio: real,
    minWindSpeed: real,
    maxWindSpeed: real,
    data: Sweep.SweepData)

  datatype State = State(plotData: seq<Padding.Profile>, energyPlotData: seq<SweepRecord>)

  /** The session before anything is added (and after a reset). */
  const Empty: State := State([], [])

  /** `add_linear_profile` / `add_rotational_profile`: `None` for a wind speed
      or kite area that `float` cannot parse, and for a figure the single-run
      simulation did not produce. The profile is appended only when both
      numbers parse and all three figures exist. */
  function AddProfile(s: State, windSpeed: Option<real>, kiteArea: Option<real>,
                      fig1: Option<Padding.Figure>, fig2: Option<Padding.Figure>,
                      fig3: Option<Padding.Figure>, data: Padding.Series): (r: State)
    ensures r.energyPlotData == s.energyPlotData
    ensures |r.plotData| == |s.plotData| || |r.plotData| == |s.plotData| + 1
    ensures r.plotData[..|s.plotData|] == s.plotData
    ensures |r.plotData| == |s.plotData| + 1 <==>
              windSpeed.Some? && kiteArea.Some? && fig1.Some? && fig2.Some? && fig3.Some?
    ensures |r.plotData| > |s.plotData| ==>
              r.plotData[|s.plotData|] == Padding.Profile(fig1.value, fig2.value, fig3.value,
                                                          windSpeed.value, kiteArea.value, data)
  {
    if windSpeed.Some? && kiteArea.Some? && fig1.Some? && fig2.Some? && fig3.Some? then
      s.(plotData := s.plotData + [Padding.Profile(fig1.value, fig2.value, fig3.value,
                                                    windSpeed.value, kiteArea.value, data)])
    else s
  }

  /** `plot_graphs_linear`'s padding pass with step `dt`, which rewrites the
      stored profiles in place. Where the pass raises (nothing stored, an empty
      time list, an empty series that needs holding) the session is left as it
      was. */
  function PadStored(s: State, dt: real): (r: State)
    requires dt > 0.0
    ensures r.energyPlotData == s.energyPlotData
    ensures |r.plotData| == |s.plotData|
    ensures forall i :: 0 <= i < |s.plotData| ==> Padding.Extends(s.plotData[i], r.plotData[i])
    ensures Padding.Pad(s.plotData, dt).Some? ==> r.plotData == Padding.Pad(s.plotData, dt).value
    ensures Padding.Pad(s.plotData, dt).None? ==> r == s
  {
    Padding.PadExtends(s.plotData, dt);
    match Padding.Pad(s.plotData, dt)
    case None => s
    case Some(padded) => s.(plotData := padded)
  }

  /** The linear Simulate button of app/main.py: `add_linear_profile` only
      appends, and the `plot_graphs_linear` call that follows it pads every
      stored profile with the 0.04 s step, whether or not anything was
      appended. */
  function AddLinearProfile(s: State, windSpeed: Option<real>, kiteArea: Option<real>,
                            fig1: Option<Padding.Figure>, fig2: Option<Padding.Figure>,
                            fig3: Option<Padding.Figure>, data: Padding.Series): (r: State)
    ensures var added := AddProfile(s, windSpeed, kiteArea, fig1, fig2, fig3, data);
            && r.energyPlotData == s.energyPlotData
            && |r.plotData| == |added.plotData|
            && (forall i :: 0 <= i < |added.plotData| ==> Padding.Extends(added.plotData[i], r.plotData[i]))
            && (Padding.Pad(added.plotData, Padding.MainStep).Some? ==>
                  r.plotData == Padding.Pad(added.plotData, Padding.MainStep).value)
            && (Padding.Pad(added.plotData, Padding.MainStep).None? ==> r == added)
  {
    PadStored(AddProfile(s, windSpeed, kiteArea, fig1, fig2, fig3, data), Padding.MainStep)
  }

  /** The older copy's `add_linear_profile`, which redraws (and so pads, with
      the 0.01 s step) the profiles right after a successful append, and only
      then. Where the padding pass raises, the appended list is kept unpadded. */
  function AddLinearProfileCopy(s: State, windSpeed: Option<real>, kiteArea: Option<real>,
                                fig1: Option<Padding.Figure>, fig2: Option<Padding.Figure>,
                                fig3: Option<Padding.Figure>, data: Padding.Series): (r: State)
    ensures var added := AddProfile(s, windSpeed, kiteArea, fig1, fig2, fig3, data);
            && r.energyPlotData == s.energyPlotData
            && |r.plotData| == |added.plotData|
            && (added == s ==> r == s)
            && (forall i :: 0 <= i < |added.plotData| ==> Padding.Extends(added.plotData[i], r.plotData[i]))
            && (added != s && Padding.Pad(added.plotData, Padding.CopyStep).Some? ==>
                  r.plotData == Padding.Pad(added.plotData, Padding.CopyStep).value)
            && (Padding.Pad(added.plotData, Padding.CopyStep).None? ==> r == added)
  {
    var added := AddProfile(s, windSpeed, kiteArea, fig1, fig2, fig3, data);
    if added == s then s else PadStored(added, Padding.CopyStep)
  }

  /** Where a profile was appended, the two versions differ only in the step
      of their padding pass. */
  lemma LinearVersionsDiffer(s: State, windSpeed: Option<real>, kiteArea: Option<real>,
                             fig1: Option<Padding.Figure>, fig2: Option<Padding.Figure>,
                             fig3: Option<Padding.Figure>, data: Padding.Series)
    requires windSpeed.Some? && kiteArea.Some? && fig1.Some? && fig2.Some? && fig3.Some?
    ensures var added := AddProfile(s, windSpeed, kiteArea, fig1, fig2, fig3, data);
            && AddLinearProfile(s, windSpeed, kiteArea, fig1, fig2, fig3, data) == PadStored(added, Padding.MainStep)
            && AddLinearProfileCopy(s, windSpeed, kiteArea, fig1, fig2, fig3, data) == PadStored(added, Padding.CopyStep)
  {
    var added := AddProfile(s, windSpeed, kiteArea, fig1, fig2, fig3, data);
    assert |added.plotData| == |s.plotData| + 1;
  }

  /** `energy_plots`: runs the sweep and appends its record. */
  function EnergyPlots(s: State, kiteArea: real, gearboxRatio: real, lo: real, hi: real,
                       engine: Sweep.Engine, withRetraction: bool): (r: State)
    ensures r.plotData == s.plotData
    ensures |r.energyPlotData| == |s.energyPlotData| + 1
    ensures r.energyPlotData[..|s.energyPlotData|] == s.energyPlotData
    ensures Last(r.energyPlotData).data == Sweep.RunSweep(kiteArea, gearboxRatio, lo, hi, engine, withRetraction)
  {
    var d := Sweep.RunSweep(kiteArea, gearboxRatio, lo, hi, engine, withRetraction);
    s.(energyPlotData := s.energyPlotData + [SweepRecord(kiteArea, gearboxRatio, lo, hi, d)])
  }

  /** Where no grid point yields a run without steady states, the record
      stored is exactly what `sweep_data` returns as written. */
  lemma EnergyPlotsAsWritten(s: State, kiteArea: real, gearboxRatio: real, lo: real, hi: real,
                             engine: Sweep.Engine, withRetraction: bool)
    requires var g, sp := Sweep.Grid(lo, hi), Kite.Initiate(kiteArea);
             forall i :: 0 <= i < |g| ==> engine(sp, g[i]).None? || |engine(sp, g[i]).value.steps| > 0
    ensures Last(EnergyPlots(s, kiteArea, gearboxRatio, lo, hi, engine, withRetraction).energyPlotData).data
         == Sweep.SweepAsWritten(kiteArea, gearboxRatio, lo, hi, engine, withRetraction)
  {
    Sweep.AsWrittenAgreesWithoutEmptyRuns(Sweep.Grid(lo, hi), Kite.Initiate(kiteArea), gearboxRatio,
                                          engine, withRetraction);
  }

  function Last<T>(s: seq<T>): T
    requires |s| > 0
  {
    s[|s| - 1]
  }

  /** `clear_plot` and `clear_all_plots`, whose bodies are the same. */
  function Clear(s: State): (r: State)
    ensures r.plotData == [] && r.energyPlotData == []
  {
    Empty
  }

  // ---------------------------------------------------------------------------
  // Sequences of user actions.

  /** A Simulate click on a single-run page (`linear` for the linear-variables
      cycle, whose redraw pads; the rotational one only draws), a sweep, or a
      reset. */
  datatype Action =
    | AddProfileAction(linear: bool, windSpeed: Option<real>, kiteArea: Option<real>,
                       fig1: Option<Padding.Figure>, fig2: Option<Padding.Figure>,
                       fig3: Option<Padding.Figure>, data: Padding.Series)
    | SweepAction(sweepKiteArea: real, gearboxRatio: real, lo: real, hi: real)
    | ClearAction

  function Apply(s: State, a: Action, engine: Sweep.Engine, withRetraction: bool): State
  {
    match a
    case AddProfileAction(linear, ws, ka, f1, f2, f3, data) =>
      if linear then AddLinearProfile(s, ws, ka, f1, f2, f3, data)
      else AddProfile(s, ws, ka, f1, f2, f3, data)
    case SweepAction(ka, g, lo, hi) => EnergyPlots(s, ka, g, lo, hi, engine, withRetraction)
    case ClearAction => Clear(s)
  }

  function ApplyAll(s: State, actions: seq<Action>, engine: Sweep.Engine, withRetraction: bool): State
  {
    if |actions| == 0 then s
    else Apply(ApplyAll(s, actions[..|actions| - 1], engine, withRetraction),
               actions[|actions| - 1], engine, withRetraction)
  }

  function Sweeps(actions: seq<Action>): nat
  {
    if |actions| == 0 then 0
    else Sweeps(actions[..|actions| - 1]) + (if Last(actions).SweepAction? then 1 else 0)
  }

  /** One action other than a reset keeps every stored profile, extended at
      most by padding, and every stored sweep record. */
  lemma ApplyExtends(m: State, a: Action, engine: Sweep.Engine, withRetraction: bool)
    requires !a.ClearAction?
    ensures var r := Apply(m, a, engine, withRetraction);
            && |m.plotData| <= |r.plotData|
            && (forall i :: 0 <= i < |m.plotData| ==> Padding.Extends(m.plotData[i], r.plotData[i]))
            && |r.energyPlotData| == |m.energyPlotData| + (if a.SweepAction? then 1 else 0)
            && r.energyPlotData[..|m.energyPlotData|] == m.energyPlotData
  {
    var r := Apply(m, a, engine, withRetraction);
    match a
    case AddProfileAction(linear, ws, ka, f1, f2, f3, data) =>
      var added := AddProfile(m, ws, ka, f1, f2, f3, data);
      forall i | 0 <= i < |m.plotData|
        ensures Padding.Extends(m.plotData[i], r.plotData[i])
      {
        assert added.plotData[i] == added.plotData[..|m.plotData|][i];
        if !linear {
          assert r.plotData[i] == m.plotData[i];
        }
      }
    case SweepAction(_, _, _, _) =>
  }

  /** Without a reset, both collections only grow: every stored profile stays
      in place, changed only by padding (same figures, wind speed, kite area,
      torque and omega, and its series extended), and every stored sweep stays
      as it was, with one record added per sweep. */
  lemma {:induction false} AppendOnly(s: State, actions: seq<Action>, engine: Sweep.Engine, withRetraction: bool)
    requires forall i :: 0 <= i < |actions| ==> !actions[i].ClearAction?
    ensures var r := ApplyAll(s, actions, engine, withRetraction);
            && |s.plotData| <= |r.plotData|
            && (forall i :: 0 <= i < |s.plotData| ==> Padding.Extends(s.plotData[i], r.plotData[i]))
            && |r.energyPlotData| == |s.energyPlotData| + Sweeps(actions)
            && r.energyPlotData[..|s.energyPlotData|] == s.energyPlotData
    decreases |actions|
  {
    if |actions| > 0 {
      var n := |actions| - 1;
      AppendOnly(s, actions[..n], engine, withRetraction);
      var m := ApplyAll(s, actions[..n], engine, withRetraction);
      var r := ApplyAll(s, actions, engine, withRetraction);
      assert r == Apply(m, actions[n], engine, withRetraction);
      ApplyExtends(m, actions[n], engine, withRetraction);
      forall i | 0 <= i < |s.plotData|
        ensures Padding.Extends(s.plotData[i], r.plotData[i])
      {
        Padding.ExtendsTransitive(s.plotData[i], m.plotData[i], r.plotData[i]);
      }
      assert r.energyPlotData[..|s.energyPlotData|]
          == r.energyPlotData[..|m.energyPlotData|][..|s.energyPlotData|];
    }
  }

  /** A reset forgets the whole history: what follows it runs as on a fresh session. */
  lemma {:induction false} ClearForgets(s: State, before: seq<Action>, after: seq<Action>,
                                        engine: Sweep.Engine, withRetraction: bool)
    ensures ApplyAll(s, before + [ClearAction] + after, engine, withRetraction)
         == ApplyAll(Empty, after, engine, withRetraction)
    decreases |after|
  {
    var all := before + [ClearAction] + after;
    if |after| == 0 {
      assert all[..|all| - 1] == before;
    } else {
      var n := |after| - 1;
      assert all[..|all| - 1] == before + [ClearAction] + after[..n];
      ClearForgets(s, before, after[..n], engine, withRetraction);
    }
  }

  // ---------------------------------------------------------------------------
  // Curves of one sweep against wind speed.

  /** The line plots of the energy page. */
  datatype View =
    | MaxPowerReelIn | MaxPowerReelOut | MaxSpeedReelOut | MeanPower
    | MeanMaxTotal | MeanMaxGen | EnergyTotal | EnergyReelOut

  /** `energy_calc` is applied to the paired time and power lists, which must
      be equally long. */
  predicate EnergyReady(d: Sweep.SweepData)
  {
    forall i :: 0 <= i < |d.time| && i < |d.power| ==> |d.time[i]| == |d.power[i]|
  }

  /** The y values a view draws for one sweep: one per power (or omega) list,
      `None` where numpy would give NaN or an infinite ratio. */
  function Curve(view: View, d: Sweep.SweepData): (y: seq<Option<real>>)
    requires EnergyReady(d)
  {
    var p := d.power;
    match view
    case MaxPowerReelIn => seq(|p|, i requires 0 <= i < |p| => Reducers.MinPower(p[i]))
    case MaxPowerReelOut => seq(|p|, i requires 0 <= i < |p| => Reducers.MaxPower(p[i]))
    case MaxSpeedReelOut => seq(|d.omega|, i requires 0 <= i < |d.omega| => Reducers.MaxRpm(d.omega[i]))
    case MeanPower => seq(|p|, i requires 0 <= i < |p| => Reducers.MeanPower(p[i]))
    case MeanMaxTotal => seq(|p|, i requires 0 <= i < |p| => Reducers.MeanMaxTotal(p[i]))
    case MeanMaxGen => seq(|p|, i requires 0 <= i < |p| => Reducers.MeanMaxGen(p[i]))
    case EnergyTotal =>
      var n := if |d.time| <= |p| then |d.time| else |p|;
      seq(n, i requires 0 <= i < n => Some(Energy.EnergyCalc(d.time[i], p[i])))
    case EnergyReelOut =>
      var n := if |d.time| <= |p| then |d.time| else |p|;
      seq(n, i requires 0 <= i < n => Some(Energy.EnergyGen(d.time[i], p[i])))
  }

  /** A sweep whose lists are aligned with its wind list, as the sweep builds them. */
  ghost predicate Plottable(d: Sweep.SweepData)
  {
    && |d.time| == |d.wind| && |d.power| == |d.wind| && |d.omega| == |d.wind|
    && EnergyReady(d)
  }

  /** On an aligned sweep every curve has one y value per wind speed. */
  lemma CurveAligned(view: View, d: Sweep.SweepData)
    requires Plottable(d)
    ensures |Curve(view, d)| == |d.wind|
  {
  }

  /** Every sweep the program stores is plottable. */
  lemma RunSweepPlottable(kiteArea: real, gearboxRatio: real, lo: real, hi: real,
                          engine: Sweep.Engine, withRetraction: bool)
    ensures Plottable(Sweep.RunSweep(kiteArea, gearboxRatio, lo, hi, engine, withRetraction))
  {
    var g := Sweep.Grid(lo, hi);
    var sp := Kite.Initiate(kiteArea);
    var d := Sweep.RunSweep(kiteArea, gearboxRatio, lo, hi, engine, withRetraction);
    var k := Sweep.Kept(g, sp, gearboxRatio, engine);
    Sweep.SweepMatchesKept(g, sp, gearboxRatio, engine, withRetraction);
    forall a | 0 <= a < |d.time| && a < |d.power|
      ensures |d.time[a]| == |d.power[a]|
    {
      var run := engine(sp, g[k[a]]).value;
      Sweep.SampleInvariant(g[k[a]], run, gearboxRatio, withRetraction);
      assert d.time[a] == Sweep.SampleAt(d, a, withRetraction).time;
      assert d.power[a] == Sweep.SampleAt(d, a, withRetraction).power;
    }
  }

  ghost predicate AllPlottable(records: seq<SweepRecord>)
  {
    forall i :: 0 <= i < |records| ==> Plottable(records[i].data)
  }

  /** Every stored sweep of a session built from a fresh one is plottable. */
  lemma {:induction false} SessionPlottable(actions: seq<Action>, engine: Sweep.Engine, withRetraction: bool)
    ensures AllPlottable(ApplyAll(Empty, actions, engine, withRetraction).energyPlotData)
    decreases |actions|
  {
    if |actions| > 0 {
      var n := |actions| - 1;
      SessionPlottable(actions[..n], engine, withRetraction);
      var m := ApplyAll(Empty, actions[..n], engine, withRetraction);
      var r := ApplyAll(Empty, actions, engine, withRetraction);
      match actions[n]
      case SweepAction(ka, g, lo, hi) =>
        RunSweepPlottable(ka, g, lo, hi, engine, withRetraction);
        assert r.energyPlotData == m.energyPlotData
          + [SweepRecord(ka, g, lo, hi, Sweep.RunSweep(ka, g, lo, hi, engine, withRetraction))];
      case AddProfileAction(_, _, _, _, _, _, _) =>
        assert r.energyPlotData == m.energyPlotData;
      case ClearAction =>
    }
  }

  // ---------------------------------------------------------------------------
  // One trace per stored sweep.

  datatype Trace = Trace(x: seq<real>, y: seq<Option<real>>)

  /** `generate_energy_plots` as written: every stored sweep's trace takes its
      x values from that sweep's `data["wind"]` but its y values from the
      curves just computed for the newest sweep. `None` when nothing is stored. */
  function TracesAsWritten(records: seq<SweepRecord>, view: View): (r: Option<seq<Trace>>)
    requires |records| > 0 ==> EnergyReady(Last(records).data)
    ensures r.None? <==> |records| == 0
    ensures r.Some? ==> |r.value| == |records|
  {
    if |records| == 0 then None
    else
      var y := Curve(view, Last(records).data);
      Some(seq(|records|, i requires 0 <= i < |records| => Trace(records[i].data.wind, y)))
  }

  /** One trace per stored sweep, each drawn from that sweep's own curves. */
  function Traces(records: seq<SweepRecord>, view: View): (r: Option<seq<Trace>>)
    requires forall i :: 0 <= i < |records| ==> EnergyReady(records[i].data)
    ensures r.None? <==> |records| == 0
    ensures r.Some? ==> |r.value| == |records|
  {
    if |records| == 0 then None
    else Some(seq(|records|, i requires 0 <= i < |records| =>
                    Trace(records[i].data.wind, Curve(view, records[i].data))))
  }

  /** As written, an older sweep that kept a different number of grid points
      than the newest gets a trace whose x and y lengths differ. */
  lemma TracesAsWrittenMismatch(records: seq<SweepRecord>, view: View, i: nat)
    requires |records| > 0 && Plottable(Last(records).data)
    requires i < |records| && |records[i].data.wind| != |Last(records).data.wind|
    ensures var t := TracesAsWritten(records, view).value[i];
            |t.x| != |t.y|
  {
    CurveAligned(view, Last(records).data);
  }

  /** Corrected: on plottable sweeps every trace pairs each wind speed with
      exactly one y value of the same sweep. */
  lemma TracesAligned(records: seq<SweepRecord>, view: View)
    requires forall i :: 0 <= i < |records| ==> Plottable(records[i].data)
    ensures forall i :: 0 <= i < |records| ==> EnergyReady(records[i].data)
    ensures Traces(records, view).Some? ==>
              forall i :: 0 <= i < |records| ==>
                && Traces(records, view).value[i].x == records[i].data.wind
                && |Traces(records, view).value[i].y| == |records[i].data.wind|
                && Traces(records, view).value[i].y == Curve(view, records[i].data)
  {
    forall i | 0 <= i < |records|
      ensures |Curve(view, records[i].data)| == |records[i].data.wind|
    {
      CurveAligned(view, records[i].data);
    }
  }

  /** In any session, the corrected traces pair every stored wind speed with one y value. */
  lemma SessionTracesAligned(actions: seq<Action>, engine: Sweep.Engine, withRetraction: bool, view: View)
    ensures var records := ApplyAll(Empty, actions, engine, withRetraction).energyPlotData;
            && (forall i :: 0 <= i < |records| ==> EnergyReady(records[i].data))
            && (Traces(records, view).Some? ==>
                  forall i :: 0 <= i < |records| ==>
                    |Traces(records, view).value[i].x| == |Traces(records, view).value[i].y|)
  {
    var records := ApplyAll(Empty, actions, engine, withRetraction).energyPlotData;
    SessionPlottable(actions, engine, withRetraction);
    TracesAligned(records, view);
  }

  /** The two agree on the newest sweep, and everywhere when only one sweep is stored. */
  lemma TracesAgreeOnNewest(records: seq<SweepRecord>, view: View)
    requires |records| > 0
    requires forall i :: 0 <= i < |records| ==> EnergyReady(records[i].data)
    ensures Last(TracesAsWritten(records, view).value) == Last(Traces(records, view).value)
    ensures |records| == 1 ==> TracesAsWritten(records, view) == Traces(records, view)
  {
    if |records| == 1 {
      assert TracesAsWritten(records, view).value[0] == Traces(records, view).value[0];
      assert TracesAsWritten(records, view).value == Traces(records, view).value;
    }
  }

  /** An engine that always yields one generating steady state. */
  function SteadyEngine(sp: Kite.SystemProperties, ws: real): Option<Sweep.Run>
  {
    Some(Sweep.Run([Sweep.Step(0.0, 1.0, 100.0, 100.0)], None))
  }

  /** An engine that fails at every wind speed. */
  function StalledEngine(sp: Kite.SystemProperties, ws: real): Option<Sweep.Run>
  {
    None
  }

  lemma {:induction false} StalledKeepsNothing(points: seq<real>, sp: Kite.SystemProperties, gearboxRatio: real)
    ensures Sweep.Kept(points, sp, gearboxRatio, StalledEngine) == []
    decreases |points|
  {
    if |points| > 0 {
      StalledKeepsNothing(points[..|points| - 1], sp, gearboxRatio);
    }
  }

  lemma StalledSweepEmpty(kiteArea: real, gearboxRatio: real, lo: real, hi: real, withRetraction: bool)
    ensures |Sweep.RunSweep(kiteArea, gearboxRatio, lo, hi, StalledEngine, withRetraction).wind| == 0
  {
    var g := Sweep.Grid(lo, hi);
    var sp := Kite.Initiate(kiteArea);
    StalledKeepsNothing(g, sp, gearboxRatio);
    Sweep.SweepMatchesKept(g, sp, gearboxRatio, StalledEngine, withRetraction);
  }

  /** The discrepancy on a concrete session: a full sweep from 5 to 10 m/s,
      then a sweep at which every point fails. The first sweep's trace plots
      20 wind speeds against the newest sweep's empty curve. */
  lemma TracesAsWrittenExample()
    ensures var full := Sweep.RunSweep(10.0, 1.0, 5.0, 10.0, SteadyEngine, true);
            var none := Sweep.RunSweep(10.0, 1.0, 5.0, 10.0, StalledEngine, true);
            var records := [SweepRecord(10.0, 1.0, 5.0, 10.0, full), SweepRecord(10.0, 1.0, 5.0, 10.0, none)];
            && EnergyReady(none)
            && |TracesAsWritten(records, MeanPower).value[0].x| == 20
            && |TracesAsWritten(records, MeanPower).value[0].y| == 0
  {
    var none := Sweep.RunSweep(10.0, 1.0, 5.0, 10.0, StalledEngine, true);
    Sweep.RunSweepAllSucceed(10.0, 1.0, 5.0, 10.0, SteadyEngine, true);
    StalledSweepEmpty(10.0, 1.0, 5.0, 10.0, true);
    RunSweepPlottable(10.0, 1.0, 5.0, 10.0, StalledEngine, true);
  }
}
