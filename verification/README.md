# CustomSlider value model

A Dafny model of the value logic of `CustomSlider`, a discrete-valued UIKit
slider control. The control holds an ordered list of allowed integer values.
Its range runs from the first value to the last, or from 0 to 100 when no
values are set. A drag clamps the raw value into that range and snaps it to
the nearest allowed value. On a tie the earliest value wins. `setValue`
clamps but does not snap. `configure` replaces the values and rebuilds the
markers (one per inner value) and the labels (one per value, aligned left,
centre or right).

- `slider_values.dfy`, module `SliderValues`: the pure helpers. These are
  `minValue`/`maxValue`, `boundValue`, and `nearestValue` built as in the
  source from `map`, `min()` and `firstIndex(of:)`. The module also has the
  lemmas about them: clamp laws, the tie-break, snapping a member, and
  stability of a drag.
- `custom_slider.dfy`, module `Slider`: the class `CustomSlider` with fields
  `values`, `value`, `points` and `labels`. `points` holds the marker keys.
  `labels` maps each value to its label's alignment. The module has the
  operations that update these fields in place, the `Valid()` invariant
  (markers and labels match the values), and three client scenarios.

Three behaviours of the code are easy to miss:
- `configure` keeps the current value. It does not reset it to the new
  minimum. `ConfigureKeepsValueScenario` shows the value left outside the
  new range.
- `setValue` does not snap to a configured value.
- There is no thumb and no grab-versus-tap logic. Every drag updates the
  value live, and the end of a touch does nothing.

## Model

| member | source | states |
|---|---|---|
| `SliderValues.MinValue` | CustomSlider.playground/Sources/CustomSlider.swift:31-33 | `minValue` is 0 with no values, otherwise a configured value (the first); for ascending values it is no greater than any value |
| `SliderValues.MaxValue` | CustomSlider.playground/Sources/CustomSlider.swift:34-36 | `maxValue` is 100 with no values, otherwise a configured value (the last); for ascending values it is no smaller than any value |
| `SliderValues.RangeEnds` | CustomSlider.playground/Sources/CustomSlider.swift:31-36 | with no values the range is 0..100; otherwise both ends are configured values |
| `SliderValues.AscendingRange` | CustomSlider.playground/Sources/CustomSlider.swift:31-36 | for ascending values, `minValue <= maxValue` and every value lies between them |
| `SliderValues.BoundValue` | CustomSlider.playground/Sources/CustomSlider.swift:156-158 | result never exceeds `maxValue`; for a well-formed range it lies in the range, equals the input exactly when the input is in range, and is the nearer end otherwise; when first > last every input goes to the last |
| `SliderValues.BoundValueIdempotent` | CustomSlider.playground/Sources/CustomSlider.swift:156-158 | clamping twice equals clamping once |
| `SliderValues.Distances` | CustomSlider.playground/Sources/CustomSlider.swift:279-281 | one distance per configured value, `abs(value - v)`; a distance is zero exactly where that value equals `v`, so `v` is configured exactly when some distance is zero |
| `SliderValues.MinElement` | CustomSlider.playground/Sources/CustomSlider.swift:282 | `diffs.min()` is absent exactly for an empty sequence; otherwise it is a member no greater than any member |
| `SliderValues.FirstIndex` | CustomSlider.playground/Sources/CustomSlider.swift:282 | `firstIndex(of:)` is absent exactly when the element is missing; otherwise it points at the element, and no earlier position holds it |
| `SliderValues.NearestIndex` | CustomSlider.playground/Sources/CustomSlider.swift:279-282 | for non-empty values, `minIndex` holds a value at least distance, and every earlier value is strictly farther |
| `SliderValues.FirstClosestUnique` | CustomSlider.playground/Sources/CustomSlider.swift:282 | only one index is the first at least distance, so the tie-break is deterministic |
| `SliderValues.NearestValue` | CustomSlider.playground/Sources/CustomSlider.swift:278-284 | for non-empty values, the result is a configured value at least distance from the input |
| `SliderValues.NearestValueOfMember` | CustomSlider.playground/Sources/CustomSlider.swift:278-284 | snapping a configured value returns that value |
| `SliderValues.TieBreakTakesFirst` | CustomSlider.playground/Sources/CustomSlider.swift:279-283 | over `[10, 20, 30]`, 15 snaps to 10 and not to 20 |
| `SliderValues.TrackedValue` | CustomSlider.playground/Sources/CustomSlider.swift:141-143 | a drag's value is a configured value at least distance from the clamped raw value |
| `SliderValues.TrackedValueSettled` | CustomSlider.playground/Sources/CustomSlider.swift:141-143 | for any non-empty values, ascending or not, dragging to the value a drag landed on lands on it again |
| `SliderValues.TrackedValueStable` | CustomSlider.playground/Sources/CustomSlider.swift:141-143 | for ascending values a drag lands in the range, and dragging to the landed value again lands on it |
| `Slider.AlignmentOf` | CustomSlider.playground/Sources/CustomSlider.swift:187-193 | left exactly at `minValue`; right exactly at a `maxValue` different from `minValue`; centred exactly away from both ends |
| `Slider.MarkerKeys` | CustomSlider.playground/Sources/CustomSlider.swift:163-166 | neither end of the range gets a marker; a configured value gets one exactly when its label is centred |
| `Slider.LabelMap` | CustomSlider.playground/Sources/CustomSlider.swift:178-195 | exactly the configured values are labelled; the lower end is left-aligned and a distinct upper end right-aligned |
| `Slider.MarkersAreInnerLabels` | CustomSlider.playground/Sources/CustomSlider.swift:160-198 | marker keys are the label keys minus `minValue` and `maxValue` |
| `Slider.LabelAlignments` | CustomSlider.playground/Sources/CustomSlider.swift:186-193 | a label is left exactly at `minValue`; right exactly at a `maxValue` different from `minValue`; centred exactly where a marker is |
| `Slider.SingleValue` | CustomSlider.playground/Sources/CustomSlider.swift:160-198 | one configured value gives no markers and a single left-aligned label |
| `Slider.FourValues` | CustomSlider.playground/Sources/CustomSlider.swift:160-198 | `[1, 10, 30, 40]` gives markers at 10 and 30, and labels left, centre, centre, right |
| `Slider.CustomSlider.constructor` | CustomSlider.playground/Sources/CustomSlider.swift:26-101 | a new slider has no values, no markers and no labels; its lazy `value` is fixed at 0 by its first read, `percentage(for: value)` at line 94 in `configureAppearance` |
| `Slider.CustomSlider.SetValue` | CustomSlider.playground/Sources/CustomSlider.swift:77-80 | `value` becomes the clamped input, not snapped; nothing else changes; no notification is sent |
| `Slider.CustomSlider.Configure` | CustomSlider.playground/Sources/CustomSlider.swift:82-87 | replaces `values` and keeps `value`; markers become the inner values and labels become all values with their alignments |
| `Slider.CustomSlider.RemoveOldPoints` | CustomSlider.playground/Sources/CustomSlider.swift:263-269 | empties the markers and leaves the other fields alone |
| `Slider.CustomSlider.RemoveOldLabels` | CustomSlider.playground/Sources/CustomSlider.swift:271-276 | empties the labels and leaves the other fields alone |
| `Slider.CustomSlider.ConfigurePoints` | CustomSlider.playground/Sources/CustomSlider.swift:160-173 | the markers rebuilt from scratch are exactly the values other than `minValue` and `maxValue` |
| `Slider.CustomSlider.ConfigureLabels` | CustomSlider.playground/Sources/CustomSlider.swift:175-198 | the labels rebuilt from scratch are exactly the values, each with its alignment |
| `Slider.CustomSlider.HandleBeginTracking` | CustomSlider.playground/Sources/CustomSlider.swift:132-134 | always accepts the touch and changes nothing |
| `Slider.CustomSlider.HandleContinueTracking` | CustomSlider.playground/Sources/CustomSlider.swift:136-152 | always continues tracking; `value` becomes the clamped and snapped raw value, a configured value; `valueChanged` is sent exactly when that differs from the old value; values, markers and labels are unchanged |
| `Slider.CustomSlider.HandleEndTracking` | CustomSlider.playground/Sources/CustomSlider.swift:154 | changes nothing |
| `Slider.PlaygroundScenario` | CustomSlider.playground/Contents.swift:4-6 | an unconfigured slider given 50 holds 50, inside the default range 0..100 |
| `Slider.ConfigureKeepsValueScenario` | CustomSlider.playground/Sources/CustomSlider.swift:82-87 | configuring `[1, 10, 30, 40]` on a new slider leaves `value` at 0, not a configured value, with markers at 10 and 30 |
| `Slider.DragScenario` | CustomSlider.playground/Sources/CustomSlider.swift:136-152 | over `[10, 20, 30]`, a drag to raw 15 moves to 10 and notifies; repeating it does not notify; a later `setValue(25)` keeps 25 |

## Left out

- Slider.CustomSlider.HandleContinueTracking: requires at least one configured value. With none, `nearestValue` falls back to index 0 and the source traps on `values[0]`, so dragging an unconfigured slider crashes. The precondition marks that crash; there is no behaviour to model after it.
- SliderValues.NearestValue: requires at least one configured value, for the same trap at CustomSlider.swift:283.
- SliderValues.NearestIndex: requires at least one configured value, for the same trap at CustomSlider.swift:283.
- SliderValues.TrackedValue: requires at least one configured value, because it calls `nearestValue` and so reaches the same trap.
- The touch position is not modelled. `HandleContinueTracking` takes as input the raw integer that CustomSlider.swift:141 computes. Making it needs floating-point (`CGFloat`) geometry and the truncating `Int(...)` conversion.
- The UIKit overrides `beginTracking`, `continueTracking` and `endTracking` are not modelled (CustomSlider.swift:55-65). Each only forwards a touch location, and the begin and end handlers ignore it.
- `sendActions(for: .valueChanged)` is the returned flag `sent`. Event delivery to listeners is platform plumbing.
- `percentage(for:)`, `position(for:)` and `animateChanging` are floating-point geometry, so they are not modelled. `percentage` divides by `maxValue - minValue` with no guard. With equal ends it gives a non-finite `CGFloat` and does not trap.
- Layer geometry and drawing are rendering with `CGFloat` frames, fonts and colours, so they are not modelled. This covers `layoutSubviews`, `updateLayerFrames`, `drawPoints`, `drawLabels`, `smallPointOrigin`, `bigPointOrigin`, `trackOrigin` and the layer properties.
- A label's text (`String(value)`) is not modelled either. Markers and labels keep only their keys and each label's alignment.
- The loops in `removeOldPoints`/`removeOldLabels` only detach layers from the view. Only the clearing of the dictionaries is modelled.
- `CustomSliderTrackLayer.swift` (animated drawing of the filled track) and `Constants.swift` (colours, animation duration) are not modelled. They are platform animation and drawing constants.
- Swift's 64-bit `Int` is modelled as unbounded `int`. The overflow traps of `abs($0 - value)` and of the subtraction before it, at extreme values, are not modelled.
