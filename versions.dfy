/**
 * `isVersionAtLeast(version, minimum)` as the support provider's tests describe it: both
 * strings are split at '.', a segment made of decimal digits counts as its value and any other
 * segment as 0, a missing segment counts as 0, and the first segment that differs decides.
 * Equal versions are "at least" each other.
 */
module Versions {
  import Text

  predicate IsDigit(c: char) {
    '0' <= c <= '9'
  }

  /** The value of a string of decimal digits. */
  function DecimalValue(s: string): nat
    requires forall i :: 0 <= i < |s| ==> IsDigit(s[i])
  {
    if s == [] then 0
    else
      assert IsDigit(s[|s| - 1]);
      DecimalValue(s[..|s| - 1]) * 10 + (s[|s| - 1] as int - '0' as int)
  }

  /** One segment: its value when it is a non-empty run of digits, otherwise 0. */
  function SegmentValue(s: string): nat {
    if s != [] && forall i :: 0 <= i < |s| ==> IsDigit(s[i]) then DecimalValue(s) else 0
  }

  /** The numeric segments of a version string. */
  function Segments(v: string): (r: seq<nat>)
    ensures |r| == |Text.Split(v, '.')|
    ensures forall k :: 0 <= k < |r| ==> r[k] == SegmentValue(Text.Split(v, '.')[k])
  {
    var parts := Text.Split(v, '.');
    seq(|parts|, k requires 0 <= k < |parts| => SegmentValue(parts[k]))
  }

  /** Segment `i`, or 0 past the end. */
  function Component(xs: seq<nat>, i: nat): nat {
    if i < |xs| then xs[i] else 0
  }

  function Max(a: nat, b: nat): nat {
    if a < b then b else a
  }

  /** Segment-wise comparison from index `i` on. */
  predicate AtLeastFrom(a: seq<nat>, b: seq<nat>, i: nat)
    decreases Max(|a|, |b|) - i
  {
    if i >= |a| && i >= |b| then true
    else if Component(a, i) != Component(b, i) then Component(a, i) > Component(b, i)
    else AtLeastFrom(a, b, i + 1)
  }

  /** `isVersionAtLeast(version, minimum)`. */
  predicate IsVersionAtLeast(version: string, minimum: string) {
    AtLeastFrom(Segments(version), Segments(minimum), 0)
  }

  lemma {:induction false} AtLeastFromReflexive(a: seq<nat>, i: nat)
    ensures AtLeastFrom(a, a, i)
    decreases |a| - i
  {
    if i < |a| { AtLeastFromReflexive(a, i + 1); }
  }

  lemma {:induction false} AtLeastFromTotal(a: seq<nat>, b: seq<nat>, i: nat)
    ensures AtLeastFrom(a, b, i) || AtLeastFrom(b, a, i)
    decreases Max(|a|, |b|) - i
  {
    if !(i >= |a| && i >= |b|) && Component(a, i) == Component(b, i) {
      AtLeastFromTotal(a, b, i + 1);
    }
  }

  lemma {:induction false} AtLeastFromTransitive(a: seq<nat>, b: seq<nat>, c: seq<nat>, i: nat)
    requires AtLeastFrom(a, b, i) && AtLeastFrom(b, c, i)
    ensures AtLeastFrom(a, c, i)
    decreases Max(Max(|a|, |b|), |c|) - i
  {
    if i >= |a| && i >= |b| && i >= |c| {
    } else if Component(a, i) == Component(b, i) && Component(b, i) == Component(c, i) {
      AtLeastFromTransitive(a, b, c, i + 1);
    }
  }

  /**
   * Two segment lists that agree at every index past `i` once padded with zeros compare
   * equal in both directions from `i` on.
   */
  lemma {:induction false} AtLeastFromPadding(a: seq<nat>, b: seq<nat>, i: nat)
    ensures AtLeastFrom(a + [0], b, i) == AtLeastFrom(a, b, i)
    decreases Max(|a| + 1, |b|) - i
  {
    assert Component(a + [0], i) == Component(a, i);
    if !(i >= |a| + 1 && i >= |b|) && Component(a, i) == Component(b, i) {
      AtLeastFromPadding(a, b, i + 1);
      if i >= |a| && i >= |b| {
        AllZeroAtLeast(a, b, i);
      }
    }
  }

  /** Past both ends everything is 0, so the comparison holds. */
  lemma {:induction false} AllZeroAtLeast(a: seq<nat>, b: seq<nat>, i: nat)
    requires i >= |a| && i >= |b|
    ensures AtLeastFrom(a + [0], b, i)
  {
    assert Component(a + [0], i) == 0 == Component(b, i);
    assert AtLeastFrom(a + [0], b, i + 1);
  }

  /** Every version is at least itself. */
  lemma Reflexive(v: string)
    ensures IsVersionAtLeast(v, v)
  {
    AtLeastFromReflexive(Segments(v), 0);
  }

  /** Any two versions are ordered one way or the other. */
  lemma Total(v: string, w: string)
    ensures IsVersionAtLeast(v, w) || IsVersionAtLeast(w, v)
  {
    AtLeastFromTotal(Segments(v), Segments(w), 0);
  }

  lemma Transitive(u: string, v: string, w: string)
    requires IsVersionAtLeast(u, v) && IsVersionAtLeast(v, w)
    ensures IsVersionAtLeast(u, w)
  {
    AtLeastFromTransitive(Segments(u), Segments(v), Segments(w), 0);
  }

  /** A missing segment counts as 0: appending `.0` to a version changes no comparison. */
  lemma TrailingZero(v: string, m: string)
    ensures IsVersionAtLeast(v + ".0", m) == IsVersionAtLeast(v, m)
  {
    Text.SplitAppend(v, "0", '.');
    assert v + ".0" == v + ['.'] + "0";
    assert "0"[1..] == "";
    assert Text.Split("", '.') == [""];
    assert Text.Split("0", '.') == [['0'] + ""] + [""][1..];
    assert ['0'] + "" == "0" && [""][1..] == [];
    assert Text.Split("0", '.') == ["0"];
    assert SegmentValue("0") == 0;
    var parts := Text.Split(v, '.');
    assert Text.Split(v + ".0", '.') == parts + ["0"];
    assert forall k :: 0 <= k < |parts| ==> (parts + ["0"])[k] == parts[k];
    assert Segments(v + ".0") == Segments(v) + [0];
    AtLeastFromPadding(Segments(v), Segments(m), 0);
  }

  /** From index `i` on, `a` has only zeros while `b` has a positive segment: `a` is below `b`. */
  lemma {:induction false} ZeroBelowPositive(a: seq<nat>, b: seq<nat>, i: nat)
    requires forall k :: i <= k < |a| ==> a[k] == 0
    requires exists j :: i <= j < |b| && b[j] > 0
    ensures !AtLeastFrom(a, b, i)
    decreases Max(|a|, |b|) - i
  {
    if Component(a, i) == Component(b, i) {
      assert !(i < |b| && b[i] > 0);
      ZeroBelowPositive(a, b, i + 1);
    }
  }

  /**
   * A version none of whose segments is numeric (`invalid`, the empty string) is below every
   * version with a non-zero segment.
   */
  lemma NonNumericBelow(v: string, m: string, j: nat)
    requires forall k :: 0 <= k < |Segments(v)| ==> Segments(v)[k] == 0
    requires j < |Segments(m)| && Segments(m)[j] > 0
    ensures !IsVersionAtLeast(v, m)
  {
    ZeroBelowPositive(Segments(v), Segments(m), 0);
  }

  /** A segment with a character other than a digit counts as 0: `0-beta`, `invalid`. */
  lemma NonNumericSegment(s: string, k: nat)
    requires k < |s| && !IsDigit(s[k])
    ensures SegmentValue(s) == 0
  {
  }

  /** Example: a missing segment counts as 0, in both directions: `1.1` is at least `1.0.0`. */
  lemma ShorterVersionExample()
    ensures IsVersionAtLeast("1.1", "1.0.0")
  {
  }

  /** Example: `1.0` is not at least `1.0.1`. */
  lemma MissingPatchExample()
    ensures !IsVersionAtLeast("1.0", "1.0.1")
  {
  }

  /** Example: the empty version is not at least `1.0.0`. */
  lemma EmptyVersionExample()
    ensures !IsVersionAtLeast("", "1.0.0")
  {
  }

  /** Example: segments compare as numbers, not as text: `10.0.0` is at least `9.9.9`. */
  lemma NumericOrderExample()
    ensures IsVersionAtLeast("10.0.0", "9.9.9")
  {
    assert "10"[..1] == "1";
    assert DecimalValue("10") == 10;
    assert Segments("10.0.0")[0] == 10;
    assert Segments("9.9.9")[0] == 9;
  }
}
