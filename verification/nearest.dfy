/** The nearest-center binner behind the torque-speed and power-speed box
    plots: 20 evenly spaced centers over the observed RPM range, each sample
    assigned to the first center nearest to it (Python's `min` with a key keeps
    the first minimal element), and the paired values grouped per center in a
    dictionary that remembers first-encounter order. */
module NearestBins {
  import opened Numeric
  import Units
  import Sweep

  /** `num=20` in the `np.linspace` call. */
  const CenterCount: nat := 20

  /** The scan of `min(centers, key=lambda c: abs(c - x))`: start from the first
      center and move to a later one only when it is strictly nearer. */
  function NearestFrom(cs: seq<real>, x: real, i: nat, best: nat): (k: nat)
    requires best < i <= |cs|
    requires forall j :: 0 <= j < i ==> Abs(cs[best] - x) <= Abs(cs[j] - x)
    requires forall j :: 0 <= j < best ==> Abs(cs[best] - x) < Abs(cs[j] - x)
    ensures k < |cs|
    ensures forall j :: 0 <= j < |cs| ==> Abs(cs[k] - x) <= Abs(cs[j] - x)
    ensures forall j :: 0 <= j < k ==> Abs(cs[k] - x) < Abs(cs[j] - x)
    decreases |cs| - i
  {
    if i == |cs| then best
    else if Abs(cs[i] - x) < Abs(cs[best] - x) then NearestFrom(cs, x, i + 1, i)
    else NearestFrom(cs, x, i + 1, best)
  }

  /** The index of the first nearest center: no center is nearer, and every
      earlier center is strictly farther. */
  function NearestIndex(cs: seq<real>, x: real): (k: nat)
    requires |cs| > 0
    ensures k < |cs|
    ensures forall j :: 0 <= j < |cs| ==> Abs(cs[k] - x) <= Abs(cs[j] - x)
    ensures forall j :: 0 <= j < k ==> Abs(cs[k] - x) < Abs(cs[j] - x)
  {
    NearestFrom(cs, x, 1, 0)
  }

  /** `rounded_arr`: every sample replaced by its nearest center. */
  function Assign(cs: seq<real>, xs: seq<real>): (r: seq<real>)
    requires |cs| > 0
    ensures |r| == |xs|
    ensures forall i :: 0 <= i < |xs| ==> r[i] == cs[NearestIndex(cs, xs[i])]
  {
    seq(|xs|, i requires 0 <= i < |xs| => cs[NearestIndex(cs, xs[i])])
  }

  /** One dictionary entry: a center and the values assigned to it. */
  datatype Bin = Bin(center: real, values: seq<real>)

  function Centers(bins: seq<Bin>): (r: seq<real>)
    ensures |r| == |bins| && forall i :: 0 <= i < |bins| ==> r[i] == bins[i].center
  {
    seq(|bins|, i requires 0 <= i < |bins| => bins[i].center)
  }

  function TotalSize(bins: seq<Bin>): nat
  {
    if |bins| == 0 then 0 else TotalSize(bins[..|bins| - 1]) + |bins[|bins| - 1].values|
  }

  /** `if val not in x_dict: x_dict[val] = []` then `x_dict[val].append(y)`. */
  function Insert(bins: seq<Bin>, key: real, y: real): seq<Bin>
  {
    if key in Centers(bins) then
      var i := IndexOf(Centers(bins), key);
      bins[i := Bin(key, bins[i].values + [y])]
    else bins + [Bin(key, [y])]
  }

  function IndexOf(s: seq<real>, x: real): (i: nat)
    requires x in s
    ensures i < |s| && s[i] == x
  {
    if s[0] == x then 0 else 1 + IndexOf(s[1..], x)
  }

  /** The dictionary built by the loop over `enumerate(rounded_arr)`. */
  function Group(keys: seq<real>, ys: seq<real>): seq<Bin>
    requires |keys| <= |ys|
  {
    if |keys| == 0 then []
    else
      var n := |keys| - 1;
      Insert(Group(keys[..n], ys), keys[n], ys[n])
  }

  // ---------------------------------------------------------------------------
  // Reference definitions: distinct keys in first-encounter order, and the
  // values of one key in input order.

  function Dedup(keys: seq<real>): seq<real>
  {
    if |keys| == 0 then []
    else
      var n := |keys| - 1;
      var d := Dedup(keys[..n]);
      if keys[n] in d then d else d + [keys[n]]
  }

  function Select(keys: seq<real>, ys: seq<real>, c: real): seq<real>
    requires |keys| <= |ys|
  {
    if |keys| == 0 then []
    else
      var n := |keys| - 1;
      Select(keys[..n], ys, c) + (if keys[n] == c then [ys[n]] else [])
  }

  ghost predicate Distinct(s: seq<real>)
  {
    forall i, j :: 0 <= i < j < |s| ==> s[i] != s[j]
  }

  /** The first-encounter order has each key once, and only the keys. */
  lemma {:induction false} DedupSpec(keys: seq<real>)
    ensures Distinct(Dedup(keys))
    ensures forall c :: c in Dedup(keys) <==> c in keys
    decreases |keys|
  {
    if |keys| > 0 {
      var n := |keys| - 1;
      DedupSpec(keys[..n]);
      assert keys == keys[..n] + [keys[n]];
    }
  }

  lemma {:induction false} SelectAbsent(keys: seq<real>, ys: seq<real>, c: real)
    requires |keys| <= |ys|
    requires c !in keys
    ensures Select(keys, ys, c) == []
    decreases |keys|
  {
    if |keys| > 0 {
      var n := |keys| - 1;
      assert keys == keys[..n] + [keys[n]];
      SelectAbsent(keys[..n], ys, c);
    }
  }

  /** Replacing one bin changes the total size by the difference in its size. */
  lemma {:induction false} TotalSizeUpdate(bins: seq<Bin>, i: nat, b: Bin)
    requires i < |bins|
    ensures TotalSize(bins[i := b]) + |bins[i].values| == TotalSize(bins) + |b.values|
    decreases |bins|
  {
    var n := |bins| - 1;
    if i < n {
      assert bins[i := b][..n] == bins[..n][i := b];
      TotalSizeUpdate(bins[..n], i, b);
    } else {
      assert bins[i := b][..n] == bins[..n];
    }
  }

  /** The grouping agrees with the reference definitions on `keys`. */
  ghost predicate GroupInv(keys: seq<real>, ys: seq<real>, g: seq<Bin>)
    requires |keys| <= |ys|
  {
    && Centers(g) == Dedup(keys)
    && (forall i :: 0 <= i < |g| ==> g[i].values == Select(keys, ys, g[i].center))
    && TotalSize(g) == |keys|
  }

  /** Inserting a key already present extends that key's bin only. */
  lemma InsertPresent(pre: seq<real>, ys: seq<real>, key: real)
    requires |pre| < |ys|
    requires GroupInv(pre, ys, Group(pre, ys))
    requires key in Centers(Group(pre, ys))
    ensures GroupInv(pre + [key], ys, Group(pre + [key], ys))
  {
    var keys := pre + [key];
    var n := |pre|;
    assert keys[..n] == pre;
    var y := ys[n];
    var g0 := Group(pre, ys);
    var g := Group(keys, ys);
    var i := IndexOf(Centers(g0), key);
    assert g == g0[i := Bin(key, g0[i].values + [y])];
    assert Centers(g) == Centers(g0);
    assert Dedup(keys) == Dedup(pre);
    forall j | 0 <= j < |g|
      ensures g[j].values == Select(keys, ys, g[j].center)
    {
      if j != i {
        assert g[j] == g0[j];
        assert Centers(g0)[j] != Centers(g0)[i] by {
          DedupSpec(pre);
        }
      }
    }
    TotalSizeUpdate(g0, i, Bin(key, g0[i].values + [y]));
  }

  /** Inserting a new key opens a bin for it at the end. */
  lemma InsertAbsent(pre: seq<real>, ys: seq<real>, key: real)
    requires |pre| < |ys|
    requires GroupInv(pre, ys, Group(pre, ys))
    requires key !in Centers(Group(pre, ys))
    ensures GroupInv(pre + [key], ys, Group(pre + [key], ys))
  {
    var keys := pre + [key];
    var n := |pre|;
    assert keys[..n] == pre;
    var y := ys[n];
    var g0 := Group(pre, ys);
    var g := Group(keys, ys);
    assert g == g0 + [Bin(key, [y])];
    assert Centers(g) == Centers(g0) + [key];
    DedupSpec(pre);
    assert key !in pre;
    SelectAbsent(pre, ys, key);
    assert g[..|g| - 1] == g0;
    forall j | 0 <= j < |g|
      ensures g[j].values == Select(keys, ys, g[j].center)
    {
      if j < |g0| {
        assert g[j] == g0[j];
        assert g0[j].center != key;
      }
    }
  }

  /** The grouping is exactly the reference: its centers are the distinct
      keys in first-encounter order, each bin holds the values of its key in
      input order, and no value is lost or duplicated. */
  lemma {:induction false} GroupSpec(keys: seq<real>, ys: seq<real>)
    requires |keys| <= |ys|
    ensures GroupInv(keys, ys, Group(keys, ys))
    decreases |keys|
  {
    if |keys| > 0 {
      var n := |keys| - 1;
      var pre := keys[..n];
      GroupSpec(pre, ys);
      assert keys == pre + [keys[n]];
      if keys[n] in Centers(Group(pre, ys)) {
        InsertPresent(pre, ys, keys[n]);
      } else {
        InsertAbsent(pre, ys, keys[n]);
      }
    }
  }

  /** The fixed-count binner over a flattened sample set; `None` where the
      program raises: `np.min` of an empty array, or an index past the end of
      the shorter value array. */
  function BinByNearestCenter(xs: seq<real>, ys: seq<real>): (r: Option<seq<Bin>>)
    ensures r.None? <==> |xs| == 0 || |ys| < |xs|
  {
    if |xs| == 0 || |ys| < |xs| then None
    else
      var cs := Sweep.Linspace(Min(xs), Max(xs), CenterCount);
      Some(Group(Assign(cs, xs), ys))
  }

  /** What the binner promises: every bin is keyed by one of the 20 centers,
      the keys are the distinct assigned centers in first-encounter order, each
      bin keeps its values in input order, and the bin sizes add up to the
      number of samples. */
  lemma BinByNearestCenterSpec(xs: seq<real>, ys: seq<real>)
    requires |xs| > 0 && |ys| >= |xs|
    ensures var cs := Sweep.Linspace(Min(xs), Max(xs), CenterCount);
            var keys := Assign(cs, xs);
            var bins := BinByNearestCenter(xs, ys).value;
            && Centers(bins) == Dedup(keys)
            && Distinct(Centers(bins))
            && (forall i :: 0 <= i < |bins| ==> bins[i].center in cs)
            && (forall i :: 0 <= i < |bins| ==> bins[i].values == Select(keys, ys, bins[i].center))
            && TotalSize(bins) == |xs|
  {
    var cs := Sweep.Linspace(Min(xs), Max(xs), CenterCount);
    var keys := Assign(cs, xs);
    var bins := BinByNearestCenter(xs, ys).value;
    GroupSpec(keys, ys);
    DedupSpec(keys);
    forall i | 0 <= i < |bins|
      ensures bins[i].center in cs
    {
      assert bins[i].center == Centers(bins)[i];
      assert bins[i].center in keys;
      var j :| 0 <= j < |keys| && keys[j] == bins[i].center;
    }
  }

  /** When every RPM value is the same, the 20 centers coincide and every
      sample lands in one bin, in input order. */
  lemma AllEqualOneBin(xs: seq<real>, ys: seq<real>, v: real)
    requires |xs| > 0 && |ys| >= |xs|
    requires forall i :: 0 <= i < |xs| ==> xs[i] == v
    ensures BinByNearestCenter(xs, ys) == Some([Bin(v, ys[..|xs|])])
  {
    var cs := Sweep.Linspace(Min(xs), Max(xs), CenterCount);
    assert Min(xs) == v && Max(xs) == v;
    assert forall i :: 0 <= i < |cs| ==> cs[i] == v;
    var keys := Assign(cs, xs);
    assert forall i :: 0 <= i < |keys| ==> keys[i] == v;
    SameKeysOneBin(keys, ys, v);
  }

  lemma {:induction false} SameKeysOneBin(keys: seq<real>, ys: seq<real>, v: real)
    requires 0 < |keys| <= |ys|
    requires forall i :: 0 <= i < |keys| ==> keys[i] == v
    ensures Group(keys, ys) == [Bin(v, ys[..|keys|])]
    decreases |keys|
  {
    var n := |keys| - 1;
    if n == 0 {
      assert Group(keys[..0], ys) == [];
      assert Centers([]) == [];
      assert Group(keys, ys) == [Bin(v, [ys[0]])];
      assert ys[..1] == [ys[0]];
    } else {
      SameKeysOneBin(keys[..n], ys, v);
      var g0 := Group(keys[..n], ys);
      assert g0 == [Bin(v, ys[..n])];
      assert Centers(g0) == [v];
      assert IndexOf(Centers(g0), v) == 0;
      assert Group(keys, ys) == Insert(g0, v, ys[n]);
      assert ys[..n] + [ys[n]] == ys[..n + 1];
    }
  }

  /** A sample exactly halfway between two centers goes to the earlier one. */
  lemma TieGoesToFirst(cs: seq<real>, x: real, a: nat, b: nat)
    requires a < b < |cs|
    requires Abs(cs[a] - x) == Abs(cs[b] - x)
    requires forall j :: 0 <= j < |cs| ==> Abs(cs[a] - x) <= Abs(cs[j] - x)
    ensures NearestIndex(cs, x) <= a
    ensures NearestIndex(cs, x) != b
  {
  }

  /** `[[val * 60 / (2 * np.pi) for val in sublist] for sublist in omega]`. */
  function RpmLists(omega: seq<seq<real>>): (r: seq<seq<real>>)
    ensures |r| == |omega|
    ensures forall i :: 0 <= i < |omega| ==> |r[i]| == |omega[i]|
    ensures forall i, j :: 0 <= i < |omega| && 0 <= j < |omega[i]| ==>
              r[i][j] * 2.0 * Pi == omega[i][j] * 60.0
  {
    seq(|omega|, i requires 0 <= i < |omega| =>
      seq(|omega[i]|, j requires 0 <= j < |omega[i]| => Units.Rpm(omega[i][j])))
  }

  /** "Torque-speed boxplot": torque binned by rotational speed in RPM. */
  function TorqueSpeedBins(d: Sweep.SweepData): Option<seq<Bin>>
  {
    BinByNearestCenter(Flatten(RpmLists(d.omega)), Flatten(d.torque))
  }

  /** "Power-speed boxplot": power binned by rotational speed in RPM. */
  function PowerSpeedBins(d: Sweep.SweepData): Option<seq<Bin>>
  {
    BinByNearestCenter(Flatten(RpmLists(d.omega)), Flatten(d.power))
  }

  /** On a sweep whose samples have equally long omega and torque lists, the
      box plot fails only when there is no step at all, and then conserves the
      step count. */
  lemma TorqueSpeedBinsConserve(d: Sweep.SweepData)
    requires |d.omega| == |d.torque|
    requires forall i :: 0 <= i < |d.omega| ==> |d.omega[i]| == |d.torque[i]|
    ensures TorqueSpeedBins(d).None? <==> TotalLength(d.omega) == 0
    ensures TorqueSpeedBins(d).Some? ==> TotalSize(TorqueSpeedBins(d).value) == TotalLength(d.omega)
  {
    var rpm := RpmLists(d.omega);
    FlattenSameShape(rpm, d.torque);
    FlattenSameShape(rpm, d.omega);
    FlattenLength(d.omega);
    if TorqueSpeedBins(d).Some? {
      BinByNearestCenterSpec(Flatten(rpm), Flatten(d.torque));
    }
  }

  /** The same for the power box plot over power lists shaped like omega. */
  lemma PowerSpeedBinsConserve(d: Sweep.SweepData)
    requires |d.omega| == |d.power|
    requires forall i :: 0 <= i < |d.omega| ==> |d.omega[i]| == |d.power[i]|
    ensures PowerSpeedBins(d).None? <==> TotalLength(d.omega) == 0
    ensures PowerSpeedBins(d).Some? ==> TotalSize(PowerSpeedBins(d).value) == TotalLength(d.omega)
  {
    var rpm := RpmLists(d.omega);
    FlattenSameShape(rpm, d.power);
    FlattenSameShape(rpm, d.omega);
    FlattenLength(d.omega);
    if PowerSpeedBins(d).Some? {
      BinByNearestCenterSpec(Flatten(rpm), Flatten(d.power));
    }
  }
}
