/**
 * The pure value arithmetic of the custom slider: the range derived from the
 * configured values, clamping a value into that range, and snapping a value
 * to the configured member nearest to it.
 *
 * The configured values are an ordered sequence of integers. Nothing checks
 * that they ascend; the range is simply taken from the first and the last.
 */
module SliderValues {

  datatype Option<T> = None | Some(value: T) {
    /** Swift's `??`: the wrapped value, or `default` when there is none. */
    function GetOr(default: T): T {
      match this
      case Some(v) => v
      case None => default
    }
  }

  /** Swift's `abs` on `Int` (its trap on the most negative 64-bit value is not modelled). */
  function Abs(x: int): nat {
    if x < 0 then -x else x
  }

  /** Configured values in ascending order (the order the slider is meant to be configured with). */
  ghost predicate Ascending(values: seq<int>) {
    forall i, j :: 0 <= i < j < |values| ==> values[i] <= values[j]
  }

  /** `values.first ?? 0`: the lower end of the range, a lower bound of ascending values. */
  function MinValue(values: seq<int>): (r: int)
    ensures |values| == 0 ==> r == 0
    ensures |values| > 0 ==> r in values
    ensures Ascending(values) ==> forall x :: x in values ==> r <= x
  {
    if |values| == 0 then 0 else values[0]
  }

  /** `values.last ?? 100`: the upper end of the range, an upper bound of ascending values. */
  function MaxValue(values: seq<int>): (r: int)
    ensures |values| == 0 ==> r == 100
    ensures |values| > 0 ==> r in values
    ensures Ascending(values) ==> forall x :: x in values ==> x <= r
  {
    if |values| == 0 then 100 else values[|values| - 1]
  }

  /** An unconfigured slider ranges over 0..100; a configured one starts and ends at its end members. */
  lemma RangeEnds(values: seq<int>)
    ensures |values| == 0 ==> MinValue(values) == 0 && MaxValue(values) == 100
    ensures |values| > 0 ==> MinValue(values) in values && MaxValue(values) in values
  {
  }

  /** For ascending values the range really bounds every member. */
  lemma AscendingRange(values: seq<int>)
    requires Ascending(values)
    ensures MinValue(values) <= MaxValue(values)
    ensures forall x :: x in values ==> MinValue(values) <= x <= MaxValue(values)
  {
    if |values| > 0 {
      forall x | x in values
        ensures MinValue(values) <= x <= MaxValue(values)
      {
        var i :| 0 <= i < |values| && values[i] == x;
        assert values[0] <= values[i] <= values[|values| - 1];
      }
    }
  }

  /**
   * `boundValue`: `min(max(v, minValue), maxValue)`. A clamp into the range
   * when the range is well formed; when the first configured value exceeds
   * the last, every value is sent to the last one.
   */
  function BoundValue(values: seq<int>, v: int): (r: int)
    ensures r <= MaxValue(values)
    ensures MinValue(values) <= MaxValue(values) ==> MinValue(values) <= r
    ensures MinValue(values) <= MaxValue(values) ==>
              (r == v <==> MinValue(values) <= v <= MaxValue(values))
    ensures v < MinValue(values) <= MaxValue(values) ==> r == MinValue(values)
    ensures MaxValue(values) < v ==> r == MaxValue(values)
    ensures MaxValue(values) < MinValue(values) ==> r == MaxValue(values)
  {
    var lo := MinValue(values);
    var hi := MaxValue(values);
    var raised := if v < lo then lo else v;
    if hi < raised then hi else raised
  }

  /** Clamping twice is clamping once. */
  lemma BoundValueIdempotent(values: seq<int>, v: int)
    ensures BoundValue(values, BoundValue(values, v)) == BoundValue(values, v)
  {
  }

  /** `diffs.min()`: the least element, or `None` for an empty sequence. */
  function MinElement(s: seq<int>): (r: Option<int>)
    ensures r.None? <==> |s| == 0
    ensures r.Some? ==> r.value in s && forall x :: x in s ==> r.value <= x
  {
    if |s| == 0 then None
    else
      assert forall x :: x in s ==> x == s[0] || x in s[1..];
      match MinElement(s[1..])
      case None => Some(s[0])
      case Some(m) => Some(if s[0] <= m then s[0] else m)
  }

  /** `firstIndex(of:)`: the position of the first occurrence of `x`, or `None`. */
  function FirstIndex(s: seq<int>, x: int): (r: Option<nat>)
    ensures r.None? <==> x !in s
    ensures r.Some? ==> r.value < |s| && s[r.value] == x
    ensures r.Some? ==> forall j :: 0 <= j < r.value ==> s[j] != x
  {
    if |s| == 0 then None
    else if s[0] == x then Some(0)
    else
      match FirstIndex(s[1..], x)
      case None => None
      case Some(i) => Some(i + 1)
  }

  /**
   * `values.map { abs($0 - v) }`: the distance of each configured value from
   * `v`, zero exactly where that value is `v` itself.
   */
  function Distances(values: seq<int>, v: int): (d: seq<nat>)
    ensures |d| == |values|
    ensures forall i :: 0 <= i < |values| ==> d[i] == Abs(values[i] - v)
    ensures forall i :: 0 <= i < |values| ==> (d[i] == 0 <==> values[i] == v)
    ensures v in values <==> 0 in d
  {
    seq(|values|, i requires 0 <= i < |values| => Abs(values[i] - v))
  }

  /** Index `k` holds a member closest to `v`, and no earlier member is as close. */
  ghost predicate IsFirstClosest(values: seq<int>, v: int, k: int) {
    && 0 <= k < |values|
    && (forall j :: 0 <= j < |values| ==> Abs(values[k] - v) <= Abs(values[j] - v))
    && (forall j :: 0 <= j < k ==> Abs(values[k] - v) < Abs(values[j] - v))
  }

  /**
   * `minIndex` in `nearestValue`: the first index of the least distance.
   * With no configured values the source falls back to index 0 and then
   * traps on `values[0]`, hence the precondition.
   */
  function NearestIndex(values: seq<int>, v: int): (k: nat)
    requires |values| > 0
    ensures IsFirstClosest(values, v, k)
  {
    var diffs := Distances(values, v);
    var least := MinElement(diffs).GetOr(MinValue(values));
    var k := FirstIndex(diffs, least).GetOr(0);
    assert forall j :: 0 <= j < |diffs| ==> diffs[j] in diffs;
    k
  }

  /** There is only one first closest index, so the tie-break is determined. */
  lemma FirstClosestUnique(values: seq<int>, v: int, k1: int, k2: int)
    requires IsFirstClosest(values, v, k1) && IsFirstClosest(values, v, k2)
    ensures k1 == k2
  {
    assert Abs(values[k1] - v) == Abs(values[k2] - v);
  }

  /** `nearestValue`: the configured value closest to `v`, the earliest one on a tie. */
  function NearestValue(values: seq<int>, v: int): (r: int)
    requires |values| > 0
    ensures r in values
    ensures forall x :: x in values ==> Abs(r - v) <= Abs(x - v)
  {
    values[NearestIndex(values, v)]
  }

  /** Snapping a configured value leaves it where it is. */
  lemma NearestValueOfMember(values: seq<int>, v: int)
    requires v in values
    ensures NearestValue(values, v) == v
  {
    var r := NearestValue(values, v);
    assert Abs(r - v) <= Abs(v - v);
  }

  /** The tie-break picks the first equidistant member: 15 in [10, 20, 30] snaps to 10, not 20. */
  lemma TieBreakTakesFirst()
    ensures NearestValue([10, 20, 30], 15) == 10
  {
    var values := [10, 20, 30];
    assert IsFirstClosest(values, 15, 0);
    FirstClosestUnique(values, 15, 0, NearestIndex(values, 15));
  }

  /**
   * The value a drag settles on for the raw value read off the touch
   * position: clamped into the range, then snapped to a configured value.
   */
  function TrackedValue(values: seq<int>, raw: int): (r: int)
    requires |values| > 0
    ensures r in values
    ensures forall x :: x in values ==> Abs(r - BoundValue(values, raw)) <= Abs(x - BoundValue(values, raw))
  {
    NearestValue(values, BoundValue(values, raw))
  }

  /**
   * Whatever the order of the configured values, dragging to where a drag
   * landed lands there again: a well-formed range keeps the landed value in
   * range (an end member would be closer otherwise), and a reversed range
   * sends every drag to the last value.
   */
  lemma TrackedValueSettled(values: seq<int>, raw: int)
    requires |values| > 0
    ensures TrackedValue(values, TrackedValue(values, raw)) == TrackedValue(values, raw)
  {
    var lo, hi := MinValue(values), MaxValue(values);
    var b := BoundValue(values, raw);
    var t := TrackedValue(values, raw);
    if lo <= hi {
      assert Abs(t - b) <= Abs(lo - b) && Abs(t - b) <= Abs(hi - b);
      assert lo <= t <= hi;
    } else {
      assert b == hi;
      NearestValueOfMember(values, hi);
    }
    NearestValueOfMember(values, t);
  }

  /** For ascending values a drag lands inside the range, and dragging to where it landed stays there. */
  lemma TrackedValueStable(values: seq<int>, raw: int)
    requires |values| > 0 && Ascending(values)
    ensures MinValue(values) <= TrackedValue(values, raw) <= MaxValue(values)
    ensures TrackedValue(values, TrackedValue(values, raw)) == TrackedValue(values, raw)
  {
    var t := TrackedValue(values, raw);
    AscendingRange(values);
    assert BoundValue(values, t) == t;
    NearestValueOfMember(values, t);
  }
}
