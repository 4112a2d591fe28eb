/** Numeric helpers shared by every part of the model: an Option type standing
    for numpy's NaN sentinel, sums and extrema over sequences of reals, order-
    preserving filters, flattening of ragged lists, and the two roundings the
    program relies on (Python's `round`, and the ceiling inside `np.arange`). */
module Numeric {

  /** `None` plays the role of NaN (or of a missing value). */
  datatype Option<+T> = None | Some(value: T)

  /** The value of `np.pi` as printed by Python. */
  const Pi: real := 3.141592653589793

  function Abs(x: real): (r: real)
    ensures r >= 0.0
    ensures r == x || r == -x
  {
    if x < 0.0 then -x else x
  }

  /** Left-to-right sum, as Python's `sum` and `np.sum` fold a list. */
  function Sum(s: seq<real>): real
  {
    if |s| == 0 then 0.0 else Sum(s[..|s| - 1]) + s[|s| - 1]
  }

  lemma {:induction false} SumAppend(a: seq<real>, b: seq<real>)
    ensures Sum(a + b) == Sum(a) + Sum(b)
    decreases |b|
  {
    if |b| == 0 {
      assert a + b == a;
    } else {
      assert (a + b)[..|a + b| - 1] == a + b[..|b| - 1];
      SumAppend(a, b[..|b| - 1]);
    }
  }

  /** A sum of terms that are all at most `m` is at most `|s| * m`. */
  lemma {:induction false} SumBounded(s: seq<real>, m: real)
    requires forall i :: 0 <= i < |s| ==> s[i] <= m
    ensures Sum(s) <= (|s| as real) * m
    decreases |s|
  {
    if |s| > 0 {
      SumBounded(s[..|s| - 1], m);
    }
  }

  /** A sum of terms that are all at least `m` is at least `|s| * m`. */
  lemma {:induction false} SumAtLeast(s: seq<real>, m: real)
    requires forall i :: 0 <= i < |s| ==> m <= s[i]
    ensures (|s| as real) * m <= Sum(s)
    decreases |s|
  {
    if |s| > 0 {
      SumAtLeast(s[..|s| - 1], m);
    }
  }

  /** `np.max` of a non-empty sequence. */
  function Max(s: seq<real>): (r: real)
    requires |s| > 0
    ensures forall i :: 0 <= i < |s| ==> s[i] <= r
    ensures r in s
  {
    if |s| == 1 then s[0]
    else
      var m := Max(s[..|s| - 1]);
      assert forall i :: 0 <= i < |s| - 1 ==> s[..|s| - 1][i] == s[i];
      if s[|s| - 1] > m then s[|s| - 1] else m
  }

  /** An element that bounds all the others is the maximum. */
  lemma MaxIs(s: seq<real>, m: real)
    requires m in s
    requires forall i :: 0 <= i < |s| ==> s[i] <= m
    ensures Max(s) == m
  {
    var i :| 0 <= i < |s| && s[i] == m;
    assert s[i] <= Max(s);
  }

  /** `np.min` of a non-empty sequence. */
  function Min(s: seq<real>): (r: real)
    requires |s| > 0
    ensures forall i :: 0 <= i < |s| ==> r <= s[i]
    ensures r in s
  {
    if |s| == 1 then s[0]
    else
      var m := Min(s[..|s| - 1]);
      assert forall i :: 0 <= i < |s| - 1 ==> s[..|s| - 1][i] == s[i];
      if s[|s| - 1] < m then s[|s| - 1] else m
  }

  /** The order-preserving sub-list of `s` whose elements satisfy `keep`,
      as a Python list comprehension `[x for x in s if keep(x)]` builds it. */
  function Keep(s: seq<real>, keep: real -> bool): (r: seq<real>)
    ensures |r| <= |s|
    ensures forall i :: 0 <= i < |r| ==> keep(r[i])
    ensures forall i :: 0 <= i < |s| && keep(s[i]) ==> s[i] in r
    ensures forall x :: x in r ==> x in s
  {
    if |s| == 0 then []
    else
      var rest := Keep(s[..|s| - 1], keep);
      assert forall i :: 0 <= i < |s| - 1 ==> s[..|s| - 1][i] == s[i];
      if keep(s[|s| - 1]) then rest + [s[|s| - 1]] else rest
  }

  lemma {:induction false} KeepAppend(a: seq<real>, b: seq<real>, keep: real -> bool)
    ensures Keep(a + b, keep) == Keep(a, keep) + Keep(b, keep)
    decreases |b|
  {
    if |b| == 0 {
      assert a + b == a;
    } else {
      assert (a + b)[..|a + b| - 1] == a + b[..|b| - 1];
      KeepAppend(a, b[..|b| - 1], keep);
    }
  }

  /** Keeping every element changes nothing. */
  lemma {:induction false} KeepAll(s: seq<real>, keep: real -> bool)
    requires forall i :: 0 <= i < |s| ==> keep(s[i])
    ensures Keep(s, keep) == s
    decreases |s|
  {
    if |s| > 0 {
      KeepAll(s[..|s| - 1], keep);
      assert s[..|s| - 1] + [s[|s| - 1]] == s;
    }
  }

  /** The positions of the elements of `s` that satisfy `keep`, in increasing
      order, every such position included. */
  function KeptIndices(s: seq<real>, keep: real -> bool): (idx: seq<nat>)
    ensures forall j :: 0 <= j < |idx| ==> idx[j] < |s| && keep(s[idx[j]])
    ensures forall j, k :: 0 <= j < k < |idx| ==> idx[j] < idx[k]
    ensures forall i :: 0 <= i < |s| && keep(s[i]) ==> i in idx
  {
    if |s| == 0 then []
    else
      var n := |s| - 1;
      var rest := KeptIndices(s[..n], keep);
      assert forall j :: 0 <= j < |rest| ==> s[..n][rest[j]] == s[rest[j]];
      if keep(s[n]) then rest + [n] else rest
  }

  /** `r` is `s` read at the positions `idx`, in that order. */
  ghost predicate Picks(r: seq<real>, s: seq<real>, idx: seq<nat>)
  {
    |r| == |idx| && forall j :: 0 <= j < |r| ==> idx[j] < |s| && r[j] == s[idx[j]]
  }

  /** `r` lists exactly the elements of `s` that satisfy `keep`, in their order in `s`. */
  ghost predicate Enumerates(r: seq<real>, s: seq<real>, keep: real -> bool)
  {
    Picks(r, s, KeptIndices(s, keep))
  }

  /** Reading a prefix at positions inside it is reading the whole sequence there. */
  lemma PicksPrefix(r: seq<real>, s: seq<real>, n: nat, idx: seq<nat>)
    requires n <= |s| && Picks(r, s[..n], idx)
    ensures Picks(r, s, idx)
    ensures forall j :: 0 <= j < |idx| ==> idx[j] < n
  {
  }

  /** Reading one more position appends the element found there. */
  lemma PicksSnoc(r: seq<real>, s: seq<real>, idx: seq<nat>, n: nat)
    requires Picks(r, s, idx) && n < |s|
    ensures Picks(r + [s[n]], s, idx + [n])
  {
  }

  /** `Keep` is the comprehension: it lists the kept elements in order, none missing. */
  lemma {:induction false} KeepEnumerates(s: seq<real>, keep: real -> bool)
    ensures Enumerates(Keep(s, keep), s, keep)
    decreases |s|
  {
    if |s| > 0 {
      var n := |s| - 1;
      KeepEnumerates(s[..n], keep);
      PicksPrefix(Keep(s[..n], keep), s, n, KeptIndices(s[..n], keep));
    }
  }

  predicate IsPositive(x: real) { x > 0.0 }

  predicate IsNegative(x: real) { x < 0.0 }

  /** `[x for x in s if x > 0]`. */
  function Positives(s: seq<real>): seq<real>
  {
    Keep(s, IsPositive)
  }

  /** `[x for x in s if x < 0]`. */
  function Negatives(s: seq<real>): seq<real>
  {
    Keep(s, IsNegative)
  }

  /** The two sign filters list, in order, all the values of their sign and only those. */
  lemma SignFiltersEnumerate(s: seq<real>)
    ensures Enumerates(Positives(s), s, IsPositive)
    ensures Enumerates(Negatives(s), s, IsNegative)
  {
    KeepEnumerates(s, IsPositive);
    KeepEnumerates(s, IsNegative);
  }

  /** Concatenation of a list of lists, as `[x for sub in ss for x in sub]`. */
  function Flatten(ss: seq<seq<real>>): seq<real>
  {
    if |ss| == 0 then [] else Flatten(ss[..|ss| - 1]) + ss[|ss| - 1]
  }

  function TotalLength(ss: seq<seq<real>>): nat
  {
    if |ss| == 0 then 0 else TotalLength(ss[..|ss| - 1]) + |ss[|ss| - 1]|
  }

  /** Flattening loses and invents nothing: its length is the total length. */
  lemma {:induction false} FlattenLength(ss: seq<seq<real>>)
    ensures |Flatten(ss)| == TotalLength(ss)
    decreases |ss|
  {
    if |ss| > 0 {
      FlattenLength(ss[..|ss| - 1]);
    }
  }

  /** Two ragged lists with the same shape flatten to equally long lists,
      so index `i` of one flattened list pairs with index `i` of the other. */
  lemma {:induction false} FlattenSameShape(a: seq<seq<real>>, b: seq<seq<real>>)
    requires |a| == |b|
    requires forall i :: 0 <= i < |a| ==> |a[i]| == |b[i]|
    ensures |Flatten(a)| == |Flatten(b)|
    decreases |a|
  {
    if |a| > 0 {
      FlattenSameShape(a[..|a| - 1], b[..|b| - 1]);
    }
  }

  /** Python's `round(x)` on a float: nearest integer, ties to the even one. */
  function RoundHalfEven(x: real): (r: int)
    ensures Abs(x - r as real) <= 0.5
    ensures Abs(x - r as real) == 0.5 ==> r % 2 == 0
  {
    var f := x.Floor;
    var frac := x - f as real;
    if frac < 0.5 then f
    else if frac > 0.5 then f + 1
    else if f % 2 == 0 then f
    else f + 1
  }

  /** The rounding is the unique nearest integer when there is no tie. */
  lemma RoundHalfEvenNearest(x: real, k: int)
    requires Abs(x - k as real) < 0.5
    ensures RoundHalfEven(x) == k
  {
    var r := RoundHalfEven(x);
    assert Abs(x - r as real) <= 0.5;
    assert -1.0 < (r - k) as real < 1.0;
  }

  /** Smallest integer not below `x`. */
  function Ceil(x: real): (r: int)
    ensures x <= r as real < x + 1.0
  {
    -((-x).Floor)
  }
}
