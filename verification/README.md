# AWES app core in Dafny

This project models the data layer of the Streamlit app for airborne wind
energy systems (AWES). The app sweeps a kite power system over 20 wind
speeds and turns each simulated pumping cycle into several outputs:

- per-step lists of reeling speed, tether force, ground power, drum torque
  and drum angular speed;
- per-sweep curves: maximum and minimum power, mean power, mean-to-max
  ratios, shaft RPM, and the energy of the whole cycle and of the
  generating part only;
- box-plot bins: by nearest RPM centre, and by wind speed rounded to a
  whole m/s;
- padded time series, so that the linear profiles overlay on one time axis;
- a session state holding the single-run profiles and the stored sweeps.

Modelling choices:

- Every quantity is a `real`.
- A NaN that the app puts in place of an undefined reduction is `None`.
- The cycle simulator (`Cycle.run_simulation` of the QSM engine) is not
  modelled. It is an `Engine` parameter, a function from system properties
  and wind speed to an optional run. `None` stands for the exception that
  the sweep swallows.

Modules:

| file | module | models |
|---|---|---|
| numeric.dfy | `Numeric` | sums, max/min, filters, flattening, Python's `round` and `ceil` |
| units.dfy | `Units` | drum torque, drum angular speed and RPM conversions |
| kite.dfy | `Kite` | the linear fits for projected area and mass, and `initiate` |
| energy.dfy | `Energy` | `energy_calc` and the generation-only energy |
| reducers.dfy | `Reducers` | the per-cycle reductions at the top of `energy_plots` |
| sweep.dfy | `Sweep` | `sweep_data`: the wind grid, the per-point conversions, the retraction fallback, and the as-written and corrected accumulators |
| nearest.dfy | `NearestBins` | the torque- and power-speed box plots (nearest of 20 RPM centres, first-seen dict order) |
| windbins.dfy | `WindBins` | the reel-out and reel-in power distributions (integer wind bins, ascending keys) |
| padding.dfy | `Padding` | the time padding in `plot_graphs_linear` (step 0.04 in app/main.py, 0.01 in the 2025-07-09 copy) |
| session.dfy | `Session` | `add_*_profile` and the padding pass that follows a linear one, `energy_plots`, `clear_*`, and the x/y pairing of `generate_energy_plots` |

Two properties of the padding are worth stating here, because the code's
own comment suggests otherwise.

- **Padding does not end at the common maximum time.** The pad is
  `np.arange(t[-1] + dt, max_time + 1e-8, dt)`. A padded profile therefore
  ends somewhere in `[max_time + 1e-8 - dt, max_time + 1e-8)`, not exactly
  at `max_time` (`Padding.PaddedEnd`).
- **Padding is idempotent only when the common maximum is unchanged.**
  Padding once leaves the list unchanged under a second pass exactly when
  the maximum time stays the same (`Padding.PadIdempotent`). The 1e-8
  slack can make a padded profile overshoot the old maximum, and a second
  pass then pads the others again (`Padding.PadNotIdempotent`). Both
  versions pad the whole list again after adding a linear profile:
  app/main.py on every linear Simulate click, with step 0.04, even when
  nothing was appended; the 2025-07-09 copy after every successful append,
  with step 0.01. So this case can arise in both.

## Model

| member | source | states |
|---|---|---|
| Numeric.KeptIndices | app/main.py:1091 | the positions a comprehension `[x for x in s if keep(x)]` visits and keeps: strictly increasing, each kept, none missing |
| Numeric.KeepEnumerates | app/main.py:1091 | the filter lists the elements at exactly those positions, in order |
| Numeric.SignFiltersEnumerate | app/main.py:683 | `[x for x in s if x > 0]` and `[x for x in s if x < 0]` keep every value of their sign and no other, in order |
| Numeric.RoundHalfEven | app/main.py:1090 | rounding to the nearest integer, with ties to the even neighbour, as Python's `round` does |
| Units.Torque | app/main.py:1740 | drum torque times gearbox ratio equals tether force times the 0.2 m drum radius |
| Units.Omega | app/main.py:1741 | drum angular speed times drum radius equals reeling speed times gearbox ratio |
| Units.Rpm | app/main.py:684 | RPM times 2π equals angular speed times 60 |
| Units.PowerConserved | app/main.py:1740-1741 | torque times angular speed equals tether force times reeling speed: the gearbox conversion keeps mechanical power |
| Units.ConversionRoundTrip | app/main.py:1740-1741 | undoing the torque and angular-speed conversions gives back the tether force and the reeling speed |
| Kite.ProjectedArea | app/main.py:714-715 | the projected-area fit is the line through (5 m², 3.7 m²) and (19 m², 13.9 m²) |
| Kite.KiteMass | app/main.py:717-722 | the mass fit is the line through (5, 2.2 kg) and (19, 4.7 kg), plus 0.5 kg of electronics |
| Kite.FitsIncreasing | app/main.py:714-722 | a larger kite has a strictly larger projected area and mass |
| Kite.Initiate | app/main.py:712-740 | the system properties carry both fits, and each min limit lies below its max limit |
| Energy.EnergyOfShort | app/main.py:1641-1646 | a cycle with fewer than two samples has zero energy |
| Energy.EnergySnoc | app/main.py:1641-1646 | appending a sample adds the last power times the new time step (left-rectangle rule) |
| Energy.EnergyPrefix | app/main.py:1641-1646 | the energy is the energy of the prefix without the last sample, plus the last interval |
| Energy.EnergyIgnoresLastPower | app/main.py:1644 | the power of the final sample never enters the energy (`powers[:-1]`) |
| Energy.EnergyExample | AWES_app_copy_version20250709.py:16-21 | times 0,1,2,3 with powers 10,20,30,40 give 60 |
| Energy.EnergyNonNegative | app/main.py:1641-1646 | non-decreasing times and non-negative powers give non-negative energy |
| Energy.PositivePairs | app/main.py:704-705 | the filtered time and power lists have equal length, are drawn from the inputs, and keep only positive powers; no positive power means both are empty |
| Energy.PositivePairsPowers | app/main.py:705 | the kept powers are exactly `[p for p in power if p > 0]` |
| Energy.PositivePairsPick | app/main.py:704-705 | both lists read their inputs at the same strictly increasing positions, which are exactly the positions with positive power, so each kept time stays paired with its own power |
| Energy.PositivePairsOrdered | app/main.py:704-705 | filtering keeps non-decreasing times non-decreasing |
| Energy.EnergyGenNonNegative | app/main.py:697-707 | the generation energy over an ordered time axis is never negative |
| Energy.EnergyGenNoGeneration | app/main.py:697-707 | a cycle with no positive power has zero generation energy |
| Energy.EnergyGenAllPositive | app/main.py:697-707 | when every power is positive, the generation energy is the full-cycle energy |
| Reducers.MaxPower | app/main.py:680 | NaN exactly for an empty cycle; otherwise an element of the list bounding every element from above |
| Reducers.MinPower | app/main.py:681 | NaN exactly for an empty cycle; otherwise an element of the list bounding every element from below |
| Reducers.MeanPower | app/main.py:682 | NaN exactly for an empty cycle; otherwise mean times length is the sum, and it lies between min and max |
| Reducers.MeanPowerGen | app/main.py:683 | NaN exactly when no power is positive; otherwise the mean of the positive powers (times their count it gives their sum), positive and at most the maximum power |
| Reducers.MaxRpm | app/main.py:684 | NaN exactly for an empty cycle; otherwise the RPM of the last angular speed |
| Reducers.Ratio | app/main.py:867 | the quotient is defined exactly when both sides are defined and the divisor is non-zero, and quotient times divisor is the dividend |
| Reducers.MeanMaxTotal | app/main.py:867 | defined exactly for a non-empty cycle with non-zero maximum; then the mean power divided by the maximum power, at most 1 when the maximum is positive |
| Reducers.MeanMaxGen | app/main.py:893 | NaN exactly when no power is positive; otherwise the mean positive power divided by the maximum power, in (0, 1] |
| Reducers.AllNegativeNoGeneration | app/main.py:680-683 | an all-negative cycle has no generation mean or ratio, and its full-cycle ratio is at least 1 |
| Sweep.Linspace | app/main.py:1696 | `num` points from `lo` to `hi` inclusive, evenly spaced, ending exactly at `hi` |
| Sweep.GridOrdered | app/main.py:1661-1696 | the 20-point wind grid starts at the minimum, ends at the maximum, stays within them, and is ordered (strictly when min < max) |
| Sweep.Torques | app/main.py:1740 | one torque per steady state, each satisfying the drum-torque relation |
| Sweep.Omegas | app/main.py:1741 | one angular speed per steady state, each satisfying the drum-speed relation |
| Sweep.Present | app/main.py:1761-1763 | keeps exactly the values that are not None |
| Sweep.RetractionPower | app/main.py:1754-1769 | the retraction powers when the retraction phase yields any, else the cycle's negative powers |
| Sweep.RetractionFallbackNegative | app/main.py:1767-1768 | in the fallback case every retraction value is a negative power of the cycle |
| Sweep.KeptExactly | app/main.py:1731-1773 | a grid point is kept exactly when the engine returns a non-empty run and the conversions do not raise |
| Sweep.SweepMatchesKept | app/main.py:1731-1773 | the corrected sweep has one entry per kept point in every list, and entry a is that point's own sample |
| Sweep.MatchesSnoc | app/main.py:1736-1752 | one more grid point either appends its own sample after the earlier ones, when the engine yields a non-empty run and the ratio is non-zero, or leaves every list as it was |
| Sweep.RunSweepShape | app/main.py:1696-1775 | every list of the corrected sweep has the same length |
| Sweep.RunSweepAllSucceed | app/main.py:1696-1775 | when every point succeeds, the sweep has 20 winds from the minimum to the maximum |
| Sweep.KeptAll | app/main.py:1731-1773 | when every point succeeds, every point is kept in grid order |
| Sweep.SampleInvariant | app/main.py:1737-1752 | one sample's lists have equal non-zero length, torque times angular speed equals force times speed step by step, and mean times length is the sum |
| Sweep.AsWrittenLengths | app/main.py:1743-1752 | as written, an empty run appends seven lists before `sum/len` raises, so mean power and retraction power fall behind by the number of empty runs |
| Sweep.AsWrittenMisaligned | app/main.py:1743-1752 | as written, one empty run makes the mean-power list shorter than the wind list |
| Sweep.EmptyRunsCounts | app/main.py:1743-1752 | the count of empty runs is positive exactly when some grid point's run is empty |
| Sweep.AsWrittenAgreesWithoutEmptyRuns | AWES_app_copy_version20250709.py:1620-1631 | without empty runs, the as-written accumulator equals the corrected one |
| Sweep.MeanOrNaN | app/main.py:1751 | the mean power of a run is NaN exactly when it has no steady states, and otherwise times the number of states gives their sum |
| Sweep.NaNSweepAligned | app/main.py:1743-1752 | with the NaN sentinel, all nine lists hold one entry per point that reaches the appends, a run without steady states included, and each mean is NaN exactly where its power list is empty |
| Sweep.NaNSweepExtendsAsWritten | app/main.py:1743-1752 | the sentinel version has the program's seven per-step lists and winds, and its defined means, in order, are the program's `mean_power` |
| Sweep.NaNSweepAgreesWithoutEmptyRuns | app/main.py:1743-1752 | without runs lacking steady states, the sentinel version is the dropping sweep with every mean defined |
| NearestBins.NearestIndex | app/main.py:972 | the index of a centre at minimal distance, and the first such index (Python's `min` keeps the first minimiser) |
| NearestBins.Assign | app/main.py:972 | every value is replaced by its nearest centre |
| NearestBins.TieGoesToFirst | app/main.py:972 | of two equally near centres, the later one is never chosen |
| NearestBins.DedupSpec | app/main.py:975-979 | the dict's key order lists every key once, in order of first appearance |
| NearestBins.GroupSpec | app/main.py:975-979 | each bin holds, in input order, exactly the values whose key is its centre; the centres are distinct in first-seen order |
| NearestBins.BinByNearestCenter | app/main.py:971-979 | no bins exactly when there are no RPM values (where `np.min` raises) or fewer y values than keys |
| NearestBins.BinByNearestCenterSpec | app/main.py:971-979 | the bins are keyed by distinct grid centres in first-seen order, hold exactly the matching values, and conserve the count |
| NearestBins.AllEqualOneBin | AWES_app_copy_version20250709.py:884-892 | when all RPM values are equal, the result is one bin with every value in order |
| NearestBins.SameKeysOneBin | AWES_app_copy_version20250709.py:946-954 | grouping under a single key gives one bin with the values in order |
| NearestBins.RpmLists | app/main.py:963 | the RPM lists have the shape of the angular-speed lists, and each entry times 2π equals its angular speed times 60 |
| NearestBins.TorqueSpeedBinsConserve | app/main.py:1344-1356 | the torque box plot has no bins exactly when there is no sample; otherwise its bins hold every torque sample |
| NearestBins.PowerSpeedBinsConserve | app/main.py:1376-1388 | the power box plot has no bins exactly when there is no sample; otherwise its bins hold every power sample |
| WindBins.Filtered | app/main.py:1091 | reel-out keeps only positive powers, reel-in only negative ones |
| WindBins.FilteredEnumerates | app/main.py:1091 | the filter keeps every value of its sign and no other, in the input's order |
| WindBins.AddSortedKeys | app/main.py:1094-1098 | adding to a bin keeps the keys strictly ascending, and the key set grows by the new key only |
| WindBins.AddSortedLookup | app/main.py:1094 | `setdefault(...).extend` appends the values to that key's list and changes no other key |
| WindBins.ZipLength | AWES_app_copy_version20250709.py:1002 | `zip` stops at the shorter of the wind and power lists |
| WindBins.BinFoldInv | app/main.py:1089-1094 | after the first n points, each key's list is the concatenation of the filtered lists of points rounding to it |
| WindBins.CollectedNonEmpty | app/main.py:1091-1094 | a key collects something exactly when some point rounds to it and has a surviving value |
| WindBins.CollectedSign | app/main.py:1091-1094 | every value collected under a key has the sign the direction filters for |
| WindBins.BinByWindSpec | app/main.py:1087-1098 | ascending distinct keys; a key is present exactly when some point rounds to it with a surviving value; each bin is that key's concatenation; the count is conserved |
| WindBins.BinByWindSigns | app/main.py:1138-1147 | every reel-out bin value is positive and every reel-in value negative |
| WindBins.RoundingTies | app/main.py:1090 | 2.5 rounds to 2, 3.5 to 4 and 5.25 to 5 |
| WindBins.ReelOutDistribution | app/main.py:1083-1098 | the reel-out boxes: keys ascend, a key is present exactly when some point rounds to it and has a positive power, each box is those points' positive powers in sweep order, and no value is lost or invented |
| WindBins.ReelInDistribution | app/main.py:1134-1147 | the reel-in distribution exists exactly when the sweep records retraction power; then its keys ascend, a key is present exactly when some point rounds to it and has a negative retraction power, each box is those points' negative values in sweep order, and no value is lost or invented |
| Padding.MaxTimeSpec | app/main.py:499-500 | the common maximum bounds every time of every profile and is one of them |
| Padding.CeilSteps | app/main.py:506 | the `arange` step count is the least whole number of steps reaching the stop |
| Padding.PadCount | app/main.py:506 | the pad is long enough that one more step reaches the stop, and when non-empty its last time is below the stop |
| Padding.PadTimesSpec | app/main.py:506 | the k-th pad time is last + (k+1)·dt, strictly between the last time and the stop; the pad is empty exactly when one step already reaches the stop |
| Padding.Hold | app/main.py:508-512 | `np.full` with the last value extends the series by n copies and keeps the prefix |
| Padding.Pad | app/main.py:499-512 | padding succeeds exactly when there are profiles, every time list is non-empty, and every padded series is non-empty; it keeps the number of profiles |
| Padding.PadSeriesSpec | app/main.py:503-512 | the original samples are a prefix, new times step by dt beyond the last one and stay below maximum + 1e-8; reeling speed, tether force and power each keep their samples and gain one copy of their last value per new time; torque and omega stay as they are, and a series already at the maximum is unchanged |
| Padding.PadExtends | app/main.py:503-512 | a padding pass only extends each stored profile: same figures, wind speed, kite area, torque and omega, and every padded list starts with the old one |
| Padding.PadSeriesOneStep | app/main.py:505-512 | when the pad has a single step, the time list gains last time + dt, each held list repeats its last value once, and torque and omega are unchanged |
| Padding.PadKeepsAlignment | app/main.py:506-512 | aligned time, speed, force and power lists stay aligned |
| Padding.PaddedEnd | app/main.py:506 | a padded series ends in [maximum + 1e-8 − dt, maximum + 1e-8) |
| Padding.PadSeriesIdempotent | app/main.py:503-512 | padding one series twice to the same maximum equals padding it once |
| Padding.PadIdempotent | AWES_app_copy_version20250709.py:414-430 | padding the whole list is idempotent when it leaves the common maximum unchanged |
| Padding.PadNotIdempotent | AWES_app_copy_version20250709.py:414-430 | three concrete profiles with step 0.01 for which a second pass changes the list |
| Session.AddProfile | app/main.py:628-644 | the profile is appended exactly when the inputs parse and all three figures exist; nothing else changes |
| Session.PadStored | app/main.py:496-512 | the padding pass keeps the number of profiles and the sweeps, only extends each profile, and leaves the session as it was where it would raise |
| Session.AddLinearProfile | app/main.py:271-277 | a linear Simulate appends as `add_linear_profile` does and then pads every stored profile with step 0.04, whether or not anything was appended |
| Session.AddLinearProfileCopy | AWES_app_copy_version20250709.py:541-558 | the 2025-07-09 copy pads with step 0.01 only after a successful append: a refused profile leaves the session unchanged, otherwise the appended list is padded (kept unpadded where padding raises), and each profile is only extended |
| Session.LinearVersionsDiffer | app/main.py:271-277 | after a successful append, the two versions differ only in the padding step |
| Session.EnergyPlots | app/main.py:666-679 | one sweep record is appended, holding this sweep; profiles are untouched |
| Session.EnergyPlotsAsWritten | app/main.py:666-679 | when no grid point yields a run without steady states, the stored record is what `sweep_data` returns as written |
| Session.Clear | app/main.py:1178-1181 | both collections are emptied |
| Session.ApplyExtends | app/main.py:271-308 | one action other than a clear keeps every stored profile, extended at most by padding, and every stored sweep |
| Session.AppendOnly | app/main.py:271-308 | without a clear, the profile count never falls, each stored profile keeps its figures, wind speed, kite area, torque and omega and only has its lists extended, and the sweeps keep their prefix and gain one per sweep action |
| Session.ClearForgets | app/main.py:1418-1420 | after a clear, the state depends only on the actions that follow it |
| Session.CurveAligned | app/main.py:680-707 | each curve has one value per wind point of a well-shaped sweep |
| Session.RunSweepPlottable | app/main.py:1743-1752 | the corrected sweep is always well shaped |
| Session.SessionPlottable | app/main.py:666-679 | every record stored in any session is well shaped |
| Session.TracesAsWritten | app/main.py:749-784 | as written: one trace per stored sweep, each pairing that sweep's winds with the newest sweep's curve |
| Session.TracesAsWrittenMismatch | app/main.py:749-784 | a stored sweep whose wind list differs in length from the newest sweep gets a trace with x and y of different lengths |
| Session.TracesAsWrittenExample | app/main.py:749-784 | a full sweep followed by a stalled one yields a trace with 20 x values and none on y |
| Session.Traces | app/main.py:749-784 | corrected: one trace per stored sweep |
| Session.TracesAligned | app/main.py:749-784 | corrected: each trace pairs a sweep's winds with that sweep's own curve, of equal length |
| Session.SessionTracesAligned | app/main.py:749-784 | in any session, every corrected trace has x and y of equal length |
| Session.TracesAgreeOnNewest | app/main.py:749-784 | the as-written and corrected traces agree on the newest sweep, and everywhere when only one is stored |
| Session.StalledSweepEmpty | app/main.py:1771-1773 | when every run raises, the sweep holds no points |

## Left out

- The user interface is not modelled: Streamlit widgets, CSS, Plotly figure layouts, colours and legends, and the CSV export.
- The QSM engine (`Cycle`, `LogProfile`, `SystemProperties` internals, `run_simulation`) is not modelled. It is the `Engine` parameter.
- The engine setup inside the sweep is not modelled: the logarithmic wind profile, the `np.sin`/`np.log` reel-in settings and phase settings. These feed only the engine.
- `Sweep`: assumes `cycle.time` holds one entry per steady state, so the per-step lists of a run share one length. The engine's own state list is not visible.
- `Sweep`: assumes engine values are Python floats. A zero gearbox ratio with a non-empty run therefore raises `ZeroDivisionError` in the torque conversion, and the point is dropped.
- Floating point is not modelled. There are no IEEE infinities or NaN propagation, `arange` and `linspace` are exact over the reals, and `np.pi` is the decimal constant 3.141592653589793.
- `Session.Curve`: requires equal-length time and power lists. The app would broadcast or raise on a mismatch, and the corrected sweep never produces one.
- `Padding.Pad`: returns `None` where the app raises part-way through its in-place loop. Profiles padded before the exception stay padded in the app.
- The rotational Simulate does not pad, but a later linear Simulate pads every stored profile, rotational ones included. Their single-run plots (`awes_cycle_linear`, `awes_cycle_rotational`) are modelled only through the conversions they share with the sweep.
- `NearestBins.TorqueSpeedBins`/`PowerSpeedBins` state their properties through the `...Conserve` lemmas rather than their own ensures.
- The box plots are rebuilt from scratch (`fig = go.Figure(...)`) on each pass of the loop over the stored sweeps, so only the newest sweep's distribution is shown. The binning members (`NearestBins.BinByNearestCenter`, `WindBins.ReelOutDistribution`, `WindBins.ReelInDistribution`) describe the boxes of any one stored `SweepData`; the choice of the newest one is not modelled.
- `Session.EnergyPlots`: stores `Sweep.RunSweep`, not `sweep_data` as written. The two differ only when a grid point yields a run without steady states (first Findings row); `Session.EnergyPlotsAsWritten` proves they agree otherwise. At such a point `Sweep.RunSweep` drops the point, where the intended repair (`Sweep.RunSweepNaN`) keeps it with a NaN mean. The session therefore shows no curve point at that wind speed where the repaired program would show NaN values. On sweeps without such points the two agree (`Sweep.NaNSweepAgreesWithoutEmptyRuns`).
- `location_utils.py`, `download_era5_spain.py` and `Curso.py` are not part of this model. They are location lookup, ERA5 download and course material, outside the sweep and plot data path.

## Findings

| source | as written | input that shows it | evidently intended | confidence | as-written member | corrected member |
|---|---|---|---|---|---|---|
| app/main.py:1743-1752 | an empty run appends seven per-point lists and then raises in `sum(power_ground) / len(power_ground)`; the exception is swallowed, so `mean_power` and `retraction_power` get no entry | an engine that returns no steady states at one grid point | keep the point in every list with a NaN mean, which the reducers' `if sublist else np.nan` guards at app/main.py:680-684 anticipate, so that all lists stay aligned | high (not executed) | Sweep.AsWrittenMisaligned | Sweep.NaNSweepAligned |
| app/main.py:749-784 | every stored sweep's trace takes `x=data["wind"]` from its own sweep but `y` from the lists computed for the newest sweep | a 20-point sweep followed by a sweep whose every run fails: x has 20 values, y has none | each trace plots a sweep's own curve against its own winds | high (not executed) | Session.TracesAsWrittenMismatch | Session.TracesAligned |
