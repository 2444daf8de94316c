/**
 * The slider control's state: the configured values, the current value, the
 * markers drawn at the inner values and the labels drawn at every value.
 * Markers and labels are Core Animation layers in the control; here only
 * their keys (and each label's text alignment) are kept.
 */
module Slider {
  import opened SliderValues

  /** The text alignment given to a value label. */
  datatype Alignment = Left | Center | Right

  /**
   * A label is left-aligned at the lower end, right-aligned at the upper end,
   * centred elsewhere; when both ends coincide the left alignment wins.
   */
  function AlignmentOf(values: seq<int>, v: int): (a: Alignment)
    ensures a == Left <==> v == MinValue(values)
    ensures a == Right <==> v == MaxValue(values) && v != MinValue(values)
    ensures a == Center <==> v != MinValue(values) && v != MaxValue(values)
  {
    if v == MinValue(values) then Left
    else if v == MaxValue(values) then Right
    else Center
  }

  /** The values that get a marker: every configured value except the two ends of the range. */
  function MarkerKeys(values: seq<int>): (keys: set<int>)
    ensures MinValue(values) !in keys && MaxValue(values) !in keys
    ensures forall v :: v in keys <==> v in values && AlignmentOf(values, v) == Center
  {
    set v | v in values && v != MinValue(values) && v != MaxValue(values)
  }

  /** One label per configured value, keyed by the value. */
  function LabelMap(values: seq<int>): (labels: map<int, Alignment>)
    ensures forall v :: v in labels <==> v in values
    ensures |values| > 0 ==> MinValue(values) in labels && labels[MinValue(values)] == Left
    ensures |values| > 0 && MinValue(values) != MaxValue(values) ==>
              MaxValue(values) in labels && labels[MaxValue(values)] == Right
  {
    map v | v in values :: AlignmentOf(values, v)
  }

  /** Markers are exactly the labelled values minus the two ends of the range. */
  lemma MarkersAreInnerLabels(values: seq<int>)
    ensures MarkerKeys(values) == LabelMap(values).Keys - {MinValue(values), MaxValue(values)}
    ensures MarkerKeys(values) <= LabelMap(values).Keys
  {
  }

  /**
   * Every label's alignment: left exactly at the lower end, right exactly at
   * an upper end that differs from the lower one, centred exactly at the
   * values that carry a marker.
   */
  lemma LabelAlignments(values: seq<int>, k: int)
    requires k in LabelMap(values)
    ensures LabelMap(values)[k] == Left <==> k == MinValue(values)
    ensures LabelMap(values)[k] == Right <==> k == MaxValue(values) && k != MinValue(values)
    ensures LabelMap(values)[k] == Center <==> k in MarkerKeys(values)
  {
  }

  /** With a single configured value there are no markers and one left-aligned label. */
  lemma SingleValue(x: int)
    ensures MarkerKeys([x]) == {}
    ensures LabelMap([x]) == map[x := Left]
  {
    assert forall v :: v in [x] <==> v == x;
  }

  /** `[1, 10, 30, 40]` gets markers at 10 and 30 and labels at all four values. */
  lemma FourValues()
    ensures MarkerKeys([1, 10, 30, 40]) == {10, 30}
    ensures LabelMap([1, 10, 30, 40]) == map[1 := Left, 10 := Center, 30 := Center, 40 := Right]
  {
    var values := [1, 10, 30, 40];
    assert MinValue(values) == 1 && MaxValue(values) == 40;
    assert forall v :: v in values <==> v == 1 || v == 10 || v == 30 || v == 40;
  }

  class CustomSlider {
    var values: seq<int>
    var value: int
    /** The keys of the `points` dictionary (one marker per key). */
    var points: set<int>
    /** The `labels` dictionary, each label reduced to its alignment. */
    var labels: map<int, Alignment>

    /** Markers and labels reflect the configured values. */
    ghost predicate Valid()
      reads this
    {
      points == MarkerKeys(values) && labels == LabelMap(values)
    }

    /**
     * `init(frame:)`. The lazy `value` is first read while the appearance is
     * set up, before anything is configured, so it is fixed at the default
     * lower end 0.
     */
    constructor ()
      ensures Valid()
      ensures values == [] && value == 0 && points == {} && labels == map[]
    {
      values := [];
      new;
      value := MinValue(values);
      ConfigurePoints();
      ConfigureLabels();
    }

    /** Programmatic jump: clamped into the range, not snapped to a configured value. */
    method SetValue(v: int)
      requires Valid()
      modifies this
      ensures Valid()
      ensures value == BoundValue(values, v)
      ensures values == old(values) && points == old(points) && labels == old(labels)
    {
      value := BoundValue(values, v);
    }

    /** Replaces the configured values and rebuilds markers and labels; the current value is kept. */
    method Configure(vs: seq<int>)
      modifies this
      ensures Valid()
      ensures values == vs && value == old(value)
      ensures points == MarkerKeys(vs) && labels == LabelMap(vs)
    {
      values := vs;
      ConfigurePoints();
      ConfigureLabels();
    }

    /** Drops every marker. */
    method RemoveOldPoints()
      modifies this
      ensures points == {}
      ensures values == old(values) && value == old(value) && labels == old(labels)
    {
      points := {};
    }

    /** Drops every label. */
    method RemoveOldLabels()
      modifies this
      ensures labels == map[]
      ensures values == old(values) && value == old(value) && points == old(points)
    {
      labels := map[];
    }

    /** Rebuilds the markers from scratch, skipping the two ends of the range. */
    method ConfigurePoints()
      modifies this
      ensures points == MarkerKeys(values)
      ensures values == old(values) && value == old(value) && labels == old(labels)
    {
      RemoveOldPoints();
      for i := 0 to |values|
        invariant values == old(values) && value == old(value) && labels == old(labels)
        invariant points == MarkerKeys(values) * set v | v in values[..i]
      {
        var v := values[i];
        if v != MinValue(values) && v != MaxValue(values) {
          points := points + {v};
        }
        assert forall x :: x in values[..i + 1] <==> x in values[..i] || x == v;
      }
      assert values[..|values|] == values;
    }

    /** Rebuilds the labels from scratch, one per configured value. */
    method ConfigureLabels()
      modifies this
      ensures labels == LabelMap(values)
      ensures values == old(values) && value == old(value) && points == old(points)
    {
      RemoveOldLabels();
      for i := 0 to |values|
        invariant values == old(values) && value == old(value) && points == old(points)
        invariant labels.Keys == set v | v in values[..i]
        invariant forall k :: k in labels ==> labels[k] == AlignmentOf(values, k)
      {
        var v := values[i];
        labels := labels[v := AlignmentOf(values, v)];
        assert forall x :: x in values[..i + 1] <==> x in values[..i] || x == v;
      }
      assert values[..|values|] == values;
    }

    /** Touch down: accepted, and nothing changes. */
    method HandleBeginTracking() returns (continueTracking: bool)
      ensures continueTracking
    {
      continueTracking := true;
    }

    /**
     * Touch moved to a position whose raw value is `raw`: clamp, snap, and
     * when the result differs from the current value take it and send
     * `valueChanged` (`sent`). Snapping traps when no values are configured.
     */
    method HandleContinueTracking(raw: int) returns (continueTracking: bool, sent: bool)
      requires Valid()
      requires |values| > 0
      modifies this
      ensures Valid()
      ensures values == old(values) && points == old(points) && labels == old(labels)
      ensures continueTracking
      ensures value == TrackedValue(values, raw) && value in values
      ensures sent <==> old(value) != TrackedValue(values, raw)
    {
      var newValue := BoundValue(values, raw);
      newValue := NearestValue(values, newValue);
      sent := false;
      if newValue != value {
        value := newValue;
        sent := true;
      }
      continueTracking := true;
    }

    /** Touch up: the value was already applied while dragging. */
    method HandleEndTracking()
      ensures unchanged(this)
    {
    }
  }

  /** The playground: an unconfigured slider given 50 holds 50, inside the default range 0..100. */
  method PlaygroundScenario() returns (v: int, markers: set<int>)
    ensures v == 50 && markers == {}
  {
    var slider := new CustomSlider();
    slider.SetValue(50);
    v, markers := slider.value, slider.points;
  }

  /**
   * Configuring `[1, 10, 30, 40]` on a fresh slider leaves the value at 0,
   * outside the new range and not a configured value, with markers at 10 and 30.
   */
  method ConfigureKeepsValueScenario() returns (v: int, markers: set<int>)
    ensures v == 0 && v !in [1, 10, 30, 40]
    ensures markers == {10, 30}
  {
    var slider := new CustomSlider();
    slider.Configure([1, 10, 30, 40]);
    FourValues();
    v, markers := slider.value, slider.points;
  }

  /**
   * Dragging to raw 15 over `[10, 20, 30]` snaps to 10 and notifies; dragging
   * there again does not notify; a `setValue(25)` afterwards is not snapped.
   */
  method DragScenario() returns (first: bool, second: bool, afterSet: int)
    ensures first && !second && afterSet == 25
  {
    var slider := new CustomSlider();
    slider.Configure([10, 20, 30]);
    var began := slider.HandleBeginTracking();
    TieBreakTakesFirst();
    var ok;
    ok, first := slider.HandleContinueTracking(15);
    ok, second := slider.HandleContinueTracking(15);
    slider.HandleEndTracking();
    slider.SetValue(25);
    afterSet := slider.value;
  }
}
