/** The power-distribution box plots: every sweep point's power list is
    filtered by sign, keyed by its wind speed rounded to the nearest integer
    (ties to even, as Python's `round`), and concatenated per key; the boxes
    are drawn in ascending key order. The dictionary-then-`sorted` of the
    program is modelled as one ordered insertion per point. */
module WindBins {
  import opened Numeric
  import Sweep

  /** Reel-out keeps the strictly positive powers of `power`; reel-in keeps the
      strictly negative ones of `retraction_power`. */
  datatype Direction = ReelOut | ReelIn

  datatype WindBin = WindBin(key: int, values: seq<real>)

  /** `[p for p in p_list if p > 0]` or `[p for p in p_list if p < 0]`. */
  function Filtered(dir: Direction, ps: seq<real>): (r: seq<real>)
    ensures |r| <= |ps|
    ensures dir == ReelOut ==> forall i :: 0 <= i < |r| ==> r[i] > 0.0
    ensures dir == ReelIn ==> forall i :: 0 <= i < |r| ==> r[i] < 0.0
  {
    match dir
    case ReelOut => Positives(ps)
    case ReelIn => Negatives(ps)
  }

  /** The filter is the comprehension: it keeps, in their order, all the
      values of the direction's sign and only those. */
  lemma FilteredEnumerates(dir: Direction, ps: seq<real>)
    ensures dir == ReelOut ==> Enumerates(Filtered(dir, ps), ps, IsPositive)
    ensures dir == ReelIn ==> Enumerates(Filtered(dir, ps), ps, IsNegative)
  {
    SignFiltersEnumerate(ps);
  }

  function Keys(bins: seq<WindBin>): seq<int>
  {
    seq(|bins|, i requires 0 <= i < |bins| => bins[i].key)
  }

  ghost predicate Ascending(bins: seq<WindBin>)
  {
    forall i, j :: 0 <= i < j < |bins| ==> bins[i].key < bins[j].key
  }

  /** `speed_bins.get(k, [])`. */
  function Lookup(bins: seq<WindBin>, k: int): seq<real>
  {
    if |bins| == 0 then []
    else if bins[0].key == k then bins[0].values
    else Lookup(bins[1..], k)
  }

  function TotalSize(bins: seq<WindBin>): nat
  {
    if |bins| == 0 then 0 else |bins[0].values| + TotalSize(bins[1..])
  }

  /** `speed_bins.setdefault(k, []).extend(vs)`, with the bins kept in the
      order `sorted(speed_bins)` later visits them. */
  function AddSorted(bins: seq<WindBin>, k: int, vs: seq<real>): seq<WindBin>
  {
    if |bins| == 0 then [WindBin(k, vs)]
    else if bins[0].key == k then [WindBin(k, bins[0].values + vs)] + bins[1..]
    else if k < bins[0].key then [WindBin(k, vs)] + bins
    else [bins[0]] + AddSorted(bins[1..], k, vs)
  }

  lemma AscendingTail(bins: seq<WindBin>)
    requires |bins| > 0 && Ascending(bins)
    ensures Ascending(bins[1..])
    ensures forall c :: c in Keys(bins[1..]) ==> bins[0].key < c
  {
    forall c | c in Keys(bins[1..])
      ensures bins[0].key < c
    {
      var j :| 0 <= j < |bins[1..]| && Keys(bins[1..])[j] == c;
      assert bins[1..][j] == bins[j + 1];
    }
  }

  lemma {:induction false} LookupAbsent(bins: seq<WindBin>, c: int)
    requires c !in Keys(bins)
    ensures Lookup(bins, c) == []
    decreases |bins|
  {
    if |bins| > 0 {
      assert Keys(bins)[0] == bins[0].key;
      assert forall j :: 0 <= j < |bins| - 1 ==> Keys(bins[1..])[j] == Keys(bins)[j + 1];
      LookupAbsent(bins[1..], c);
    }
  }

  lemma KeysCons(b: WindBin, rest: seq<WindBin>)
    ensures Keys([b] + rest) == [b.key] + Keys(rest)
  {
  }

  /** A bin keyed below every key of an ascending list can go in front of it. */
  lemma ConsAscending(b: WindBin, rest: seq<WindBin>)
    requires Ascending(rest)
    requires forall c :: c in Keys(rest) ==> b.key < c
    ensures Ascending([b] + rest)
  {
    var r := [b] + rest;
    forall i, j | 0 <= i < j < |r|
      ensures r[i].key < r[j].key
    {
      assert r[j] == rest[j - 1];
      if i == 0 {
        assert Keys(rest)[j - 1] == rest[j - 1].key;
        assert rest[j - 1].key in Keys(rest);
      } else {
        assert r[i] == rest[i - 1];
      }
    }
  }

  /** Inserting adds exactly the key `k`. */
  lemma {:induction false} AddSortedKeySet(bins: seq<WindBin>, k: int, vs: seq<real>)
    ensures forall c :: c in Keys(AddSorted(bins, k, vs)) <==> c in Keys(bins) || c == k
    decreases |bins|
  {
    var r := AddSorted(bins, k, vs);
    if |bins| == 0 {
      assert Keys(r) == [k];
    } else {
      KeysCons(bins[0], bins[1..]);
      assert [bins[0]] + bins[1..] == bins;
      if bins[0].key == k {
        KeysCons(r[0], bins[1..]);
      } else if k < bins[0].key {
        KeysCons(r[0], bins);
      } else {
        AddSortedKeySet(bins[1..], k, vs);
        KeysCons(bins[0], AddSorted(bins[1..], k, vs));
      }
    }
  }

  /** Inserting keeps the keys ascending. */
  lemma {:induction false} AddSortedAscending(bins: seq<WindBin>, k: int, vs: seq<real>)
    requires Ascending(bins)
    ensures Ascending(AddSorted(bins, k, vs))
    decreases |bins|
  {
    if |bins| > 0 {
      AscendingTail(bins);
      KeysCons(bins[0], bins[1..]);
      assert [bins[0]] + bins[1..] == bins;
      if bins[0].key == k {
        ConsAscending(WindBin(k, bins[0].values + vs), bins[1..]);
      } else if k < bins[0].key {
        ConsAscending(WindBin(k, vs), bins);
      } else {
        AddSortedAscending(bins[1..], k, vs);
        AddSortedKeySet(bins[1..], k, vs);
        ConsAscending(bins[0], AddSorted(bins[1..], k, vs));
      }
    }
  }

  /** Inserting keeps the keys ascending and adds exactly the key `k`. */
  lemma AddSortedKeys(bins: seq<WindBin>, k: int, vs: seq<real>)
    requires Ascending(bins)
    ensures Ascending(AddSorted(bins, k, vs))
    ensures forall c :: c in Keys(AddSorted(bins, k, vs)) <==> c in Keys(bins) || c == k
  {
    AddSortedAscending(bins, k, vs);
    AddSortedKeySet(bins, k, vs);
  }

  /** Inserting extends the bin keyed `k` by `vs` and leaves every other bin alone. */
  lemma {:induction false} AddSortedLookup(bins: seq<WindBin>, k: int, vs: seq<real>, c: int)
    requires Ascending(bins)
    ensures Lookup(AddSorted(bins, k, vs), c) == Lookup(bins, c) + (if c == k then vs else [])
    decreases |bins|
  {
    if |bins| > 0 && bins[0].key != k {
      AscendingTail(bins);
      if k < bins[0].key {
        if c == k {
          assert Keys(bins) == [bins[0].key] + Keys(bins[1..]);
          LookupAbsent(bins, c);
        }
      } else {
        AddSortedLookup(bins[1..], k, vs, c);
      }
    }
  }

  lemma {:induction false} AddSortedTotal(bins: seq<WindBin>, k: int, vs: seq<real>)
    ensures TotalSize(AddSorted(bins, k, vs)) == TotalSize(bins) + |vs|
    decreases |bins|
  {
    if |bins| > 0 {
      if bins[0].key == k {
        assert AddSorted(bins, k, vs)[1..] == bins[1..];
      } else if k < bins[0].key {
        assert AddSorted(bins, k, vs)[1..] == bins;
      } else {
        AddSortedTotal(bins[1..], k, vs);
        assert AddSorted(bins, k, vs)[1..] == AddSorted(bins[1..], k, vs);
      }
    }
  }

  /** With ascending (hence distinct) keys, a bin's values are what its key looks up. */
  lemma {:induction false} LookupAt(bins: seq<WindBin>, j: nat)
    requires Ascending(bins) && j < |bins|
    ensures Lookup(bins, bins[j].key) == bins[j].values
    decreases j
  {
    if j > 0 {
      AscendingTail(bins);
      assert bins[0].key < bins[j].key;
      assert bins[1..][j - 1] == bins[j];
      LookupAt(bins[1..], j - 1);
    }
  }

  /** The number of points `zip(winds, powers)` visits. */
  function ZipLength(winds: seq<real>, lists: seq<seq<real>>): (n: nat)
    ensures n <= |winds| && n <= |lists|
    ensures n == |winds| || n == |lists|
  {
    if |winds| <= |lists| then |winds| else |lists|
  }

  /** Reference definition: the concatenation, in sweep order, of the filtered
      lists of the first `n` points whose wind rounds to `k`. */
  function Collected(winds: seq<real>, lists: seq<seq<real>>, dir: Direction, n: nat, k: int): seq<real>
    requires n <= |winds| && n <= |lists|
  {
    if n == 0 then []
    else
      Collected(winds, lists, dir, n - 1, k)
        + (if RoundHalfEven(winds[n - 1]) == k then Filtered(dir, lists[n - 1]) else [])
  }

  /** The number of values that survive the filter over the first `n` points. */
  function FilteredCount(lists: seq<seq<real>>, dir: Direction, n: nat): nat
    requires n <= |lists|
  {
    if n == 0 then 0 else FilteredCount(lists, dir, n - 1) + |Filtered(dir, lists[n - 1])|
  }

  /** The loop over the first `n` points. */
  function BinFold(winds: seq<real>, lists: seq<seq<real>>, dir: Direction, n: nat): seq<WindBin>
    requires n <= |winds| && n <= |lists|
  {
    if n == 0 then []
    else
      var bins := BinFold(winds, lists, dir, n - 1);
      var vs := Filtered(dir, lists[n - 1]);
      if |vs| == 0 then bins else AddSorted(bins, RoundHalfEven(winds[n - 1]), vs)
  }

  /** The integer wind-speed binner: one bin per key, in ascending key order. */
  function BinByWind(winds: seq<real>, lists: seq<seq<real>>, dir: Direction): seq<WindBin>
  {
    BinFold(winds, lists, dir, ZipLength(winds, lists))
  }

  ghost predicate FoldInv(winds: seq<real>, lists: seq<seq<real>>, dir: Direction, n: nat, bins: seq<WindBin>)
    requires n <= |winds| && n <= |lists|
  {
    && Ascending(bins)
    && (forall c :: Lookup(bins, c) == Collected(winds, lists, dir, n, c))
    && (forall c :: c in Keys(bins) <==> Collected(winds, lists, dir, n, c) != [])
    && TotalSize(bins) == FilteredCount(lists, dir, n)
  }

  /** Point `n - 1` adds its filtered list to its own key and nothing elsewhere. */
  lemma CollectedStep(winds: seq<real>, lists: seq<seq<real>>, dir: Direction, n: nat)
    requires 0 < n <= |winds| && n <= |lists|
    ensures var vs, k := Filtered(dir, lists[n - 1]), RoundHalfEven(winds[n - 1]);
            forall c :: Collected(winds, lists, dir, n, c)
                        == Collected(winds, lists, dir, n - 1, c) + (if c == k then vs else [])
  {
  }

  /** After inserting point `n - 1`, every key looks up what it has collected. */
  lemma FoldAddLookup(winds: seq<real>, lists: seq<seq<real>>, dir: Direction, n: nat, bins: seq<WindBin>)
    requires 0 < n <= |winds| && n <= |lists|
    requires Ascending(bins)
    requires forall c :: Lookup(bins, c) == Collected(winds, lists, dir, n - 1, c)
    ensures var r := AddSorted(bins, RoundHalfEven(winds[n - 1]), Filtered(dir, lists[n - 1]));
            forall c :: Lookup(r, c) == Collected(winds, lists, dir, n, c)
  {
    var vs, k := Filtered(dir, lists[n - 1]), RoundHalfEven(winds[n - 1]);
    CollectedStep(winds, lists, dir, n);
    forall c
      ensures Lookup(AddSorted(bins, k, vs), c) == Collected(winds, lists, dir, n, c)
    {
      AddSortedLookup(bins, k, vs, c);
    }
  }

  /** After inserting point `n - 1`, the keys are those that collected something. */
  lemma FoldAddKeys(winds: seq<real>, lists: seq<seq<real>>, dir: Direction, n: nat, bins: seq<WindBin>)
    requires 0 < n <= |winds| && n <= |lists|
    requires Ascending(bins) && |Filtered(dir, lists[n - 1])| > 0
    requires forall c :: c in Keys(bins) <==> Collected(winds, lists, dir, n - 1, c) != []
    ensures var r := AddSorted(bins, RoundHalfEven(winds[n - 1]), Filtered(dir, lists[n - 1]));
            forall c :: c in Keys(r) <==> Collected(winds, lists, dir, n, c) != []
  {
    var vs, k := Filtered(dir, lists[n - 1]), RoundHalfEven(winds[n - 1]);
    CollectedStep(winds, lists, dir, n);
    AddSortedKeySet(bins, k, vs);
    forall c
      ensures c in Keys(AddSorted(bins, k, vs)) <==> Collected(winds, lists, dir, n, c) != []
    {
      var before := Collected(winds, lists, dir, n - 1, c);
      assert Collected(winds, lists, dir, n, c) == before + (if c == k then vs else []);
    }
  }

  /** A point with filtered values keeps the invariant by inserting them. */
  lemma FoldStepAdd(winds: seq<real>, lists: seq<seq<real>>, dir: Direction, n: nat, bins: seq<WindBin>)
    requires 0 < n <= |winds| && n <= |lists|
    requires FoldInv(winds, lists, dir, n - 1, bins)
    requires |Filtered(dir, lists[n - 1])| > 0
    ensures FoldInv(winds, lists, dir, n, AddSorted(bins, RoundHalfEven(winds[n - 1]), Filtered(dir, lists[n - 1])))
  {
    var vs, k := Filtered(dir, lists[n - 1]), RoundHalfEven(winds[n - 1]);
    var r := AddSorted(bins, k, vs);
    AddSortedAscending(bins, k, vs);
    AddSortedTotal(bins, k, vs);
    assert TotalSize(r) == FilteredCount(lists, dir, n);
    FoldAddLookup(winds, lists, dir, n, bins);
    FoldAddKeys(winds, lists, dir, n, bins);
    FoldInvIntro(winds, lists, dir, n, r);
  }

  /** The invariant from its four parts. */
  lemma FoldInvIntro(winds: seq<real>, lists: seq<seq<real>>, dir: Direction, n: nat, bins: seq<WindBin>)
    requires n <= |winds| && n <= |lists|
    requires Ascending(bins)
    requires forall c :: Lookup(bins, c) == Collected(winds, lists, dir, n, c)
    requires forall c :: c in Keys(bins) <==> Collected(winds, lists, dir, n, c) != []
    requires TotalSize(bins) == FilteredCount(lists, dir, n)
    ensures FoldInv(winds, lists, dir, n, bins)
  {
  }

  /** A point with no filtered values changes nothing. */
  lemma FoldStepSkip(winds: seq<real>, lists: seq<seq<real>>, dir: Direction, n: nat, bins: seq<WindBin>)
    requires 0 < n <= |winds| && n <= |lists|
    requires FoldInv(winds, lists, dir, n - 1, bins)
    requires |Filtered(dir, lists[n - 1])| == 0
    ensures FoldInv(winds, lists, dir, n, bins)
  {
    CollectedStep(winds, lists, dir, n);
    forall c
      ensures Collected(winds, lists, dir, n, c) == Collected(winds, lists, dir, n - 1, c)
    {
      var before := Collected(winds, lists, dir, n - 1, c);
      assert before + [] == before;
    }
  }

  lemma {:induction false} BinFoldInv(winds: seq<real>, lists: seq<seq<real>>, dir: Direction, n: nat)
    requires n <= |winds| && n <= |lists|
    ensures FoldInv(winds, lists, dir, n, BinFold(winds, lists, dir, n))
    decreases n
  {
    if n > 0 {
      BinFoldInv(winds, lists, dir, n - 1);
      var bins := BinFold(winds, lists, dir, n - 1);
      if |Filtered(dir, lists[n - 1])| > 0 {
        FoldStepAdd(winds, lists, dir, n, bins);
      } else {
        FoldStepSkip(winds, lists, dir, n, bins);
      }
    }
  }

  /** A key collects something exactly when some point rounds to it and keeps
      a value after filtering. */
  lemma {:induction false} CollectedNonEmpty(winds: seq<real>, lists: seq<seq<real>>, dir: Direction, n: nat, c: int)
    requires n <= |winds| && n <= |lists|
    ensures Collected(winds, lists, dir, n, c) != []
            <==> exists i :: 0 <= i < n && RoundHalfEven(winds[i]) == c && |Filtered(dir, lists[i])| > 0
    decreases n
  {
    if n > 0 {
      CollectedNonEmpty(winds, lists, dir, n - 1, c);
    }
  }

  /** Every collected value has the direction's sign. */
  lemma {:induction false} CollectedSign(winds: seq<real>, lists: seq<seq<real>>, dir: Direction, n: nat, c: int)
    requires n <= |winds| && n <= |lists|
    ensures dir == ReelOut ==> forall x :: x in Collected(winds, lists, dir, n, c) ==> x > 0.0
    ensures dir == ReelIn ==> forall x :: x in Collected(winds, lists, dir, n, c) ==> x < 0.0
    decreases n
  {
    if n > 0 {
      CollectedSign(winds, lists, dir, n - 1, c);
      var tail := if RoundHalfEven(winds[n - 1]) == c then Filtered(dir, lists[n - 1]) else [];
      assert forall x :: x in tail ==> x in Filtered(dir, lists[n - 1]);
    }
  }

  /** What the box plots show: keys strictly ascending; a key is present exactly
      when some visited point rounds to it and has a value of the right sign;
      each bin is the sweep-order concatenation of those points' filtered
      lists, never empty; and no filtered value is lost or invented. */
  lemma BinByWindSpec(winds: seq<real>, lists: seq<seq<real>>, dir: Direction)
    ensures var bins := BinByWind(winds, lists, dir);
            forall i, j :: 0 <= i < j < |bins| ==> bins[i].key < bins[j].key
    ensures var bins := BinByWind(winds, lists, dir);
            var n := ZipLength(winds, lists);
            forall c :: c in Keys(bins)
              <==> exists i :: 0 <= i < n && RoundHalfEven(winds[i]) == c && |Filtered(dir, lists[i])| > 0
    ensures var bins := BinByWind(winds, lists, dir);
            var n := ZipLength(winds, lists);
            forall j :: 0 <= j < |bins| ==>
              bins[j].values == Collected(winds, lists, dir, n, bins[j].key) && |bins[j].values| > 0
    ensures TotalSize(BinByWind(winds, lists, dir)) == FilteredCount(lists, dir, ZipLength(winds, lists))
  {
    var n := ZipLength(winds, lists);
    var bins := BinByWind(winds, lists, dir);
    BinFoldInv(winds, lists, dir, n);
    forall c
      ensures c in Keys(bins)
              <==> exists i :: 0 <= i < n && RoundHalfEven(winds[i]) == c && |Filtered(dir, lists[i])| > 0
    {
      CollectedNonEmpty(winds, lists, dir, n, c);
    }
    forall j | 0 <= j < |bins|
      ensures bins[j].values == Collected(winds, lists, dir, n, bins[j].key) && |bins[j].values| > 0
    {
      LookupAt(bins, j);
      assert Keys(bins)[j] == bins[j].key;
    }
  }

  /** Reel-out boxes hold only generated power, reel-in boxes only consumed power. */
  lemma BinByWindSigns(winds: seq<real>, lists: seq<seq<real>>, dir: Direction)
    ensures var bins := BinByWind(winds, lists, dir);
            forall j, x :: 0 <= j < |bins| && x in bins[j].values ==>
              (dir == ReelOut ==> x > 0.0) && (dir == ReelIn ==> x < 0.0)
  {
    var n := ZipLength(winds, lists);
    var bins := BinByWind(winds, lists, dir);
    BinByWindSpec(winds, lists, dir);
    forall j, x | 0 <= j < |bins| && x in bins[j].values
      ensures (dir == ReelOut ==> x > 0.0) && (dir == ReelIn ==> x < 0.0)
    {
      CollectedSign(winds, lists, dir, n, bins[j].key);
    }
  }

  /** Half-way wind speeds go to the even neighbour: 2.5 m/s and 3.5 m/s land
      in the bins keyed 2 and 4. */
  lemma RoundingTies()
    ensures RoundHalfEven(2.5) == 2
    ensures RoundHalfEven(3.5) == 4
    ensures RoundHalfEven(5.25) == 5
  {
  }

  /** What a list of boxes shows for `lists` binned by `winds`: the facts of
      `BinByWindSpec` and `BinByWindSigns` about one result. */
  ghost predicate Distribution(bins: seq<WindBin>, winds: seq<real>, lists: seq<seq<real>>, dir: Direction)
  {
    var n := ZipLength(winds, lists);
    && Ascending(bins)
    && (forall c :: c in Keys(bins)
          <==> exists i :: 0 <= i < n && RoundHalfEven(winds[i]) == c && |Filtered(dir, lists[i])| > 0)
    && (forall j :: 0 <= j < |bins| ==>
          bins[j].values == Collected(winds, lists, dir, n, bins[j].key) && |bins[j].values| > 0)
    && (forall j, x :: 0 <= j < |bins| && x in bins[j].values ==>
          (dir == ReelOut ==> x > 0.0) && (dir == ReelIn ==> x < 0.0))
    && TotalSize(bins) == FilteredCount(lists, dir, n)
  }

  /** "Power-distribution boxplot (reel-out)": positive `power` binned by wind. */
  function ReelOutDistribution(d: Sweep.SweepData): (r: seq<WindBin>)
    ensures Distribution(r, d.wind, d.power, ReelOut)
  {
    BinByWindSpec(d.wind, d.power, ReelOut);
    BinByWindSigns(d.wind, d.power, ReelOut);
    BinByWind(d.wind, d.power, ReelOut)
  }

  /** "Power-distribution boxplot (reel-in)": negative `retraction_power` binned
      by wind; `None` where the dictionary has no such key. */
  function ReelInDistribution(d: Sweep.SweepData): (r: Option<seq<WindBin>>)
    ensures r.None? <==> d.retractionPower.None?
    ensures r.Some? ==> Distribution(r.value, d.wind, d.retractionPower.value, ReelIn)
  {
    match d.retractionPower
    case None => None
    case Some(rp) =>
      BinByWindSpec(d.wind, rp, ReelIn);
      BinByWindSigns(d.wind, rp, ReelIn);
      Some(BinByWind(d.wind, rp, ReelIn))
  }
}
