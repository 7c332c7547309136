# Carousel layout and scroll model

A Dafny model of the carousel in `Carousel/ContentView.swift`. The carousel
places `num` image views on a closed track:

- two eased front runs;
- a right end-cap;
- a flat back run;
- a left end-cap.

It moves the views along the track as the user drags or taps.

The model has four modules:

- `Wrappers`: the `Option` type. `None` stands for a Swift run-time trap, such as an array subscript out of range or a NaN converted to `Int`.
- `Numerics`: the numeric behaviour the source relies on.
  - `Int(x)` truncates toward zero (`Trunc`).
  - `truncatingRemainder` is followed by the source's "add the divisor back when negative" fix-up (`Reduce`). This is proved equal to the Euclidean remainder.
  - Swift's `round`, with halfway cases away from zero (`Round`).
- `CarouselEffect`: `CarouselViewEffect`.
  - The phase and size breakpoint tables, built by loops (`ImagePhases`, `ImageSizes`) and specified by `Phases` and `Sizes`.
  - The scale (`ViewScale`) and track phase (`ViewPhase`, `ViewPosition`) of a view at a fractional virtual index.
  - The track itself: `PathPosition`, specified segment by segment and computed by `ComputePathPosition` with the source's reassignments of `x` and `y`.
  - The ease curve and the values `body` derives from the scale.
- `CarouselScroll`: `ImageCarouselView`.
  - The drag normaliser and the settle rule.
  - The pure transitions of the four `@State` fields.
  - The class `ImageCarousel`, with one method per gesture handler. Each method is specified by its transition.
  - What a tap or a resting offset means for the views' places on the track.

`CGFloat` and `Double` are mathematical reals. The track's cosine and sine are not computed. They come with a `Trig` value supplied by the caller. The lemmas about the end-caps assume only its values at the quarter turns (`ExactAtQuarterTurns`).

Two points about the code worth knowing:

- The tables have `num + 1` entries: the `num` slots and one closing guard. They do not have `num + 2`. Slot lookups use entries `i` and `i + 1` for `i < num`, so they stay in range.
- A tap advances only `scrollOffset`. `baseOffset`, the offset the drag handlers commit (line 204), does not move. See "## Findings".

## Model

| member | source | states |
|---|---|---|
| Numerics.Trunc | Carousel/ContentView.swift:29-30 | `Int(x)` truncates toward zero: it is the floor for non-negative `x`, lies in `[x, x + 1)` for negative `x`, and is always strictly within 1 of `x` |
| Numerics.TruncRem | Carousel/ContentView.swift:24 | `truncatingRemainder(dividingBy:)`: `x - d * Int(x / d)`; `TruncRemBounds` states its sign and size |
| Numerics.TruncRemBounds | Carousel/ContentView.swift:24-27 | for `d > 0` the truncating remainder lies in `[0, d)` for non-negative `x` and in `(-d, 0]` for negative `x`, which is why the fix-up adds `d` exactly when it is negative |
| Numerics.Reduce | Carousel/ContentView.swift:24-27 | the truncating remainder followed by the add-the-divisor-back fix-up; `ReduceIsEuclidean` proves it is the Euclidean remainder |
| Numerics.ReduceIsEuclidean | Carousel/ContentView.swift:24-27 | the truncating remainder plus the negative fix-up lies in `[0, d)` and equals `x - d * floor(x / d)` |
| Numerics.ReducePeriodic | Carousel/ContentView.swift:24-35 | adding `k` periods to the input leaves the reduced value unchanged |
| Numerics.Round | Carousel/ContentView.swift:203 | `round` is within 1/2 of its input, and an exact half goes away from zero |
| Numerics.RoundNearest | Carousel/ContentView.swift:203 | no whole number is closer to the input than its rounding |
| Numerics.RoundWhole | Carousel/ContentView.swift:203 | whole numbers round to themselves |
| Numerics.RoundOdd | Carousel/ContentView.swift:203 | `round(-x) == -round(x)`: schoolbook rounding treats negative offsets as mirror images of positive ones |
| CarouselEffect.PhaseEntry | Carousel/ContentView.swift:103-108 | entry `i` of `imagePhases`: 0.2, 1.0, 1.8, then `3 + step * (i - 2)` with `step = 1 / (num - 2)`, then the guard 5.2 |
| CarouselEffect.SizeEntry | Carousel/ContentView.swift:115-119 | entry `i` of `imageSizes`: 0.3, 1.0, 0.3, then 0.05, then the guard 0.3 |
| CarouselEffect.Phases | Carousel/ContentView.swift:100-110 | the phase table has `num + 1` entries when `num > 3` and is empty otherwise |
| CarouselEffect.Sizes | Carousel/ContentView.swift:112-121 | the scale table has `num + 1` entries when `num > 3` and is empty otherwise |
| CarouselEffect.ImagePhases | Carousel/ContentView.swift:100-110 | the loop that appends one phase per further view builds exactly the phase table |
| CarouselEffect.ImageSizes | Carousel/ContentView.swift:112-121 | the loop that appends 0.05 per further view builds exactly the scale table |
| CarouselEffect.BackRunPhase | Carousel/ContentView.swift:104-107 | a middle entry `i` is `3 + (i - 2) / (num - 2)` and lies strictly inside `(3, 4)` |
| CarouselEffect.PhaseEntryLess | Carousel/ContentView.swift:103-108 | phase entries strictly increase with their position |
| CarouselEffect.PhasesShape | Carousel/ContentView.swift:103-108 | the phase table runs from 0.2 to 5.2 (5.2 ≡ 0.2 mod 5), its middle entries are evenly spaced inside `(3, 4)`, and it is strictly increasing |
| CarouselEffect.SizesShape | Carousel/ContentView.swift:115-119 | every scale entry lies in `[0.05, 1]`; the hero slots are 0.3, 1, 0.3; the rest are 0.05; the guard equals the first entry |
| CarouselEffect.LookupsInRange | Carousel/ContentView.swift:23-38 | the slot of a reduced index is in `[0, num)`, `Int(indexNormalized + 1)` is the next slot, the fraction is in `[0, 1)`, and every subscript is in range when `num > 3` |
| CarouselEffect.ReduceOnSlot | Carousel/ContentView.swift:24-35 | for whole `k` and `t` in `[0, 1)`, index `k + t` reduces to slot `k mod num` with fraction `t` |
| CarouselEffect.ModSucc | Carousel/ContentView.swift:24-27 | the slot after `k mod num` is `(k + 1) mod num`, wrapping from `num - 1` to 0 |
| CarouselEffect.ScaleLookup | Carousel/ContentView.swift:53 | `scalePhases[i] * (1 - t) + t * scalePhases[i + 1]`, `None` when a subscript is out of range (the trap) |
| CarouselEffect.ViewScale | Carousel/ContentView.swift:41-54 | `viewScale(at:rect:)`: reduce the index onto slot `Int(indexNormalized)` and fraction `phaseRemainder`, then look up; `None` for no views (NaN conversion) or an empty table; its properties are the `ViewScale…` lemmas |
| CarouselEffect.ViewScaleDefined | Carousel/ContentView.swift:41-54 | the scale avoids a trap exactly when there are more than three views |
| CarouselEffect.ViewScaleBounds | Carousel/ContentView.swift:53 | the scale is a convex combination of two table entries, hence in `[0.05, 1]` |
| CarouselEffect.ViewScaleOnSlot | Carousel/ContentView.swift:53 | between whole indices `k` and `k + 1` the scale interpolates linearly from slot `k mod num`'s entry to the next entry |
| CarouselEffect.ViewScaleAtWhole | Carousel/ContentView.swift:53 | at a whole index `k` the scale is `sizes[k mod num]` |
| CarouselEffect.NextSizeEntry | Carousel/ContentView.swift:115-120 | the entry after slot `k mod num` is the entry of slot `(k + 1) mod num`, including the closing guard at the wrap |
| CarouselEffect.ViewScaleAtNextWhole | Carousel/ContentView.swift:41-54 | the scale at `k + 1` is the entry the interpolation from `k` runs toward; together with OnSlot and AtWhole, the scale is continuous in the index |
| CarouselEffect.ViewScalePeriodic | Carousel/ContentView.swift:42-51 | `viewScale(index + num) == viewScale(index)` |
| CarouselEffect.PhaseLookup | Carousel/ContentView.swift:29-38 | `basePhase + phaseRemainder * (phases[j] - phases[i])`, `None` when a subscript is out of range |
| CarouselEffect.ViewPhase | Carousel/ContentView.swift:23-38 | the phase `viewPosition(at:rect:)` passes to `pathPosition`, with the following slot taken as `Int(indexNormalized + 1)` as in line 36 |
| CarouselEffect.ViewPosition | Carousel/ContentView.swift:23-39 | `viewPosition(at:rect:)`: the track point of that phase, `None` where the source traps |
| CarouselEffect.ViewPositionDefined | Carousel/ContentView.swift:23-39 | the position avoids a trap exactly when there are more than three views |
| CarouselEffect.PhaseLookupBounds | Carousel/ContentView.swift:36-38 | an interpolated phase lies in `[ps[i], ps[i + 1])` when the table rises there |
| CarouselEffect.ViewPhaseBounds | Carousel/ContentView.swift:29-38 | the phase handed to `pathPosition` lies in `[phases[i], phases[i + 1])` for the index's slot `i`, so in `[0.2, 5.2)` |
| CarouselEffect.ViewPhaseOnSlot | Carousel/ContentView.swift:29-38 | between whole indices `k` and `k + 1` the phase runs linearly from slot `k mod num`'s phase toward the next table phase |
| CarouselEffect.ViewPositionSeam | Carousel/ContentView.swift:23-39 | the point a slot's phase run ends at is the point the next whole index starts at, across the wrap seam too |
| CarouselEffect.ViewPhasePeriodic | Carousel/ContentView.swift:24-35 | the phase of `index + num` equals the phase of `index` |
| CarouselEffect.ViewPositionPeriodic | Carousel/ContentView.swift:23-39 | `viewPosition(index + num) == viewPosition(index)` |
| CarouselEffect.Ease | Carousel/ContentView.swift:73-74 | the ease `p²/(p² + (1-p)²)` always lies in `[0, 1]` |
| CarouselEffect.EaseDenominator | Carousel/ContentView.swift:74 | the ease's denominator is at least 1/2, so it never divides by zero |
| CarouselEffect.EaseMirror | Carousel/ContentView.swift:73-82 | `ease(1 - p) == 1 - ease(p)`, and the ease fixes 0, 1/2 and 1 |
| CarouselEffect.LineSegment | Carousel/ContentView.swift:65 | `lineSegment = rect.width - 2 * pathRadius`, the length of a straight run |
| CarouselEffect.FrontRise | Carousel/ContentView.swift:70-76 | the point for phases `[0, 1)`: `x = phase/2 * L + r`, `y = h - 2r - ease(phase) * h/3` |
| CarouselEffect.FrontFall | Carousel/ContentView.swift:77-83 | the point for phases `[1, 2)`: the same with `ease(2 - phase)` |
| CarouselEffect.RightCapAngle | Carousel/ContentView.swift:93 | the right cap's angle `-pi/2 + (phase - 2) * pi` |
| CarouselEffect.RightCap | Carousel/ContentView.swift:92-96 | the point for the final `else`: `(r + L + cos(angle) * r, h - r + sin(angle) * r)` |
| CarouselEffect.BackRun | Carousel/ContentView.swift:84-86 | the point for phases `(3, 4)`: `x = w - r - (phase - 3) * L`, `y` left at `h` |
| CarouselEffect.LeftCapAngle | Carousel/ContentView.swift:88 | the left cap's angle `pi/2 + (phase - 4) * pi` |
| CarouselEffect.LeftCap | Carousel/ContentView.swift:87-91 | the point for phases from 4: `(r + cos(angle) * r, h - r + sin(angle) * r)` |
| CarouselEffect.TrackPoint | Carousel/ContentView.swift:67-96 | the segment a reduced phase selects, by the source's tests in the source's order |
| CarouselEffect.PathPosition | Carousel/ContentView.swift:60-97 | `pathPosition(at:rect:)`: the track point of the phase reduced into `[0, 5)`; its properties are `PathPeriodic` and the boundary lemmas |
| CarouselEffect.FixedRemainder | Carousel/ContentView.swift:61-64 | the remainder-and-fix-up steps compute the reduced phase, in `[0, d)` for `d > 0` |
| CarouselEffect.ComputePathPosition | Carousel/ContentView.swift:60-97 | `pathPosition` as written returns the point of the segment its reduced phase selects |
| CarouselEffect.ComputeTrackPoint | Carousel/ContentView.swift:65-96 | the if-chain over the reduced phase, starting from `(0, rect.height)`, returns the selected segment's point, with phase 3 in the final `else` |
| CarouselEffect.FrontRiseStep | Carousel/ContentView.swift:70-76 | the branch for `[0, 1)` computes the first front run's point |
| CarouselEffect.FrontFallStep | Carousel/ContentView.swift:77-83 | the branch for `[1, 2)` computes the second front run's point |
| CarouselEffect.BackRunStep | Carousel/ContentView.swift:84-86 | the branch for `(3, 4)` moves only `x`, and the point is on the back run |
| CarouselEffect.LeftCapStep | Carousel/ContentView.swift:87-91 | the branch for `[4, 5)` computes the left cap's point |
| CarouselEffect.RightCapStep | Carousel/ContentView.swift:92-96 | the remaining branch computes the right cap's point |
| CarouselEffect.PathPeriodic | Carousel/ContentView.swift:61-64 | the track has period 5 |
| CarouselEffect.FrontRunsMeet | Carousel/ContentView.swift:70-83 | at phase 1 the two front runs meet at the valley floor `(r + L/2, h - 2r - h/3)` |
| CarouselEffect.FrontMeetsRightCap | Carousel/ContentView.swift:77-96 | at phase 2 the front-run formula and the right cap agree at `(w - r, h - 2r)` |
| CarouselEffect.RightCapMeetsBackRun | Carousel/ContentView.swift:84-96 | phase 3 goes to the right cap, which ends at `(w - r, h)`, where the back-run formula starts |
| CarouselEffect.BackRunMeetsLeftCap | Carousel/ContentView.swift:84-91 | at phase 4 the back-run formula and the left cap agree at `(r, h)` |
| CarouselEffect.LeftCapMeetsFrontRun | Carousel/ContentView.swift:70-91 | the left cap at phase 5 ends where phase 0 starts, `(r, h - 2r)` |
| CarouselEffect.PathFrontRuns | Carousel/ContentView.swift:70-83 | on `[0, 2)` x is `r + phase/2 * L`, linear from `r` to `r + L`, and y stays between `h - 2r - h/3` and `h - 2r` |
| CarouselEffect.PathOnFrontRuns | Carousel/ContentView.swift:61-83 | phases in `[0, 2)` select the rising run below 1 and the falling run from 1 |
| CarouselEffect.PathBackRun | Carousel/ContentView.swift:84-86 | on `(3, 4)` the track is flat at `y = h`, and x falls linearly from `r + L` toward `r` |
| CarouselEffect.OverlayOpacity | Carousel/ContentView.swift:139 | `overlayOpacity = 1 - viewScale` |
| CarouselEffect.ItemSize | Carousel/ContentView.swift:138 | `itemSize = rect.width / 2` |
| CarouselEffect.CornerRadius | Carousel/ContentView.swift:150 | the clip shape's corner radius `16 + itemSize * (1 - viewScale)` |
| CarouselEffect.DerivedFromScale | Carousel/ContentView.swift:138-150 | for a scale in `[0.05, 1]` the overlay opacity `1 - scale` is in `[0, 0.95]` and the corner radius `16 + itemSize * (1 - scale)` is in `[16, 16 + 0.95 * itemSize]` |
| CarouselEffect.CornerRadiusAntitone | Carousel/ContentView.swift:150 | a larger scale never gives a rounder corner |
| CarouselEffect.ViewDerivedValues | Carousel/ContentView.swift:137-150 | every view's overlay opacity is in `[0, 0.95]` and its corner radius is at least 16 |
| CarouselEffect.ColorRotation | Carousel/ContentView.swift:56-58 | the hue offset is the fraction `viewIndex / num` of a full turn, in `[0, 2 pi)` for the carousel's views |
| CarouselEffect.HueSpacing | Carousel/ContentView.swift:56-58 | consecutive views' hue offsets differ by exactly `2 pi / num` |
| CarouselScroll.DragScale | Carousel/ContentView.swift:172 | the divisor `(rectWidth - 2 * pathRadius) * 0.4` of `normalizeDragValue` |
| CarouselScroll.NormalizeDragValue | Carousel/ContentView.swift:171-173 | the normalised drag times `(w - 2r) * 0.4` is the translation |
| CarouselScroll.NormalizeDragLinear | Carousel/ContentView.swift:171-173 | the normaliser maps 0 to 0 and is additive; for `w > 2r` it keeps the sign of the drag |
| CarouselScroll.SettleTarget | Carousel/ContentView.swift:203 | the settle target is within 1/2 of `0.7 * live + 0.3 * predicted` |
| CarouselScroll.SettleNearest | Carousel/ContentView.swift:203 | no whole number is closer to the blend than the settle target |
| CarouselScroll.SettleWithoutFling | Carousel/ContentView.swift:203 | when predicted equals live, the target is `round(live)` |
| CarouselScroll.SettleExample | Carousel/ContentView.swift:203 | `round(0.7 * 1.3 + 0.3 * 1.3) == 1` |
| CarouselScroll.AfterDragChanged | Carousel/ContentView.swift:195-199 | the fields after `onChanged`: normalised drag, `scrollOffset = baseOffset + dragOffset`, dragging |
| CarouselScroll.Predicted | Carousel/ContentView.swift:202 | `predicted = baseOffset + normalizeDragValue(predictedEndTranslation.width)` |
| CarouselScroll.AfterDragEnded | Carousel/ContentView.swift:200-207 | the fields after `onEnded`: the settled offset shown and committed, no drag, not dragging |
| CarouselScroll.AfterTap | Carousel/ContentView.swift:183-187 | the fields after `onTapGesture` as written: `scrollOffset + 1` outside a drag, otherwise unchanged |
| CarouselScroll.AfterTapCommitted | Carousel/ContentView.swift:183-187 | the corrected tap: also `baseOffset + 1` outside a drag |
| CarouselScroll.Consistent | Carousel/ContentView.swift:162-207 | the invariant the handlers keep: whole `baseOffset`; `scroll == base + drag` during a drag; no drag and whole `scroll` between drags |
| CarouselScroll.Committed | Carousel/ContentView.swift:197-204 | the stronger invariant of a committing tap: also `scroll == base` between drags |
| CarouselScroll.ConsistentInvariant | Carousel/ContentView.swift:162-207 | every transition from the initial values keeps the invariant. The invariant: `baseOffset` is whole; during a drag `scrollOffset == baseOffset + dragOffset`; between drags `dragOffset == 0` and `scrollOffset` is whole |
| CarouselScroll.DragChangedFollows | Carousel/ContentView.swift:195-199 | drag-changed sets the normalised drag, `scroll == base + drag`, dragging, base unchanged; only the latest translation matters; translation 0 shows `baseOffset` |
| CarouselScroll.DragEndedSettles | Carousel/ContentView.swift:200-207 | drag-ended leaves `scrollOffset` a whole number nearest to and within 1/2 of the blend, with `baseOffset == scrollOffset`, `dragOffset == 0` and not dragging |
| CarouselScroll.DragEndedWithoutFling | Carousel/ContentView.swift:195-207 | a drag whose predicted translation equals its last live translation settles on `round(live offset)` |
| CarouselScroll.TapAdvances | Carousel/ContentView.swift:183-187 | a tap adds exactly 1 to `scrollOffset` when not dragging, changes nothing while dragging, and never changes the other fields |
| CarouselScroll.TapLostOnDrag | Carousel/ContentView.swift:183-199 | as written, a tap makes no difference to the state after the next drag-changed |
| CarouselScroll.TapLostExample | Carousel/ContentView.swift:183-199 | from the initial state, a tap shows view 1, and a drag that has not moved yet shows view 0 again |
| CarouselScroll.TapBreaksCommitted | Carousel/ContentView.swift:183-187 | one tap from the initial state leaves shown and committed offsets apart between drags |
| CarouselScroll.TapCommittedKept | Carousel/ContentView.swift:183-187 | the committed tap moves the views as the written tap does, and the next drag continues from the tapped view |
| CarouselScroll.CommittedInvariant | Carousel/ContentView.swift:162-207 | with the committed tap, every handler keeps `scrollOffset == baseOffset` between drags |
| CarouselScroll.ViewOffset | Carousel/ContentView.swift:182 | the virtual index `Double(index) + Double(scrollOffset)` each view's effect is given |
| CarouselScroll.ShiftByOne | Carousel/ContentView.swift:182 | raising the offset by one puts view `i` at the scale and phase view `(i + 1) mod num` had |
| CarouselScroll.SuccessorOffset | Carousel/ContentView.swift:182 | view `i` one step on has the virtual index of view `i + 1`, or of view 0 one turn later |
| CarouselScroll.TapShiftsViews | Carousel/ContentView.swift:182-187 | after a tap outside a drag every view has the scale and position its successor had |
| CarouselScroll.RestingOnSlots | Carousel/ContentView.swift:182 | between drags view `i` shows exactly the scale and phase of slot `(i + offset) mod num` |
| CarouselScroll.DistinctSlots | Carousel/ContentView.swift:182 | different views rest on different slots |
| CarouselScroll.ImageCarousel.constructor | Carousel/ContentView.swift:162-165 | the four fields start at 0, 0, 0, false and the invariant holds |
| CarouselScroll.ImageCarousel.DragChanged | Carousel/ContentView.swift:195-199 | `onChanged` updates the fields as the drag-changed transition says and keeps the invariant |
| CarouselScroll.ImageCarousel.DragEnded | Carousel/ContentView.swift:200-207 | `onEnded` updates the fields as the drag-ended transition says and keeps the invariant |
| CarouselScroll.ImageCarousel.Tap | Carousel/ContentView.swift:183-187 | `onTapGesture` as written updates the fields as the tap transition says and keeps the invariant |
| CarouselScroll.ImageCarousel.TapCommitted | Carousel/ContentView.swift:183-187 | the corrected tap also advances `baseOffset` and keeps the invariant |

## Left out

- SwiftUI plumbing is not modelled: `body`'s view composition, `GeometryReader`, `ZStack`/`ForEach`, image loading, colour assets, blend modes, and `ContentView`'s layout and gradient. Only the numbers `body` computes from the scale are modelled.
- `effectValue(size:)` and `ProjectionTransform` are not modelled. They are a chain of affine-transform library calls, and `body` does not use them.
- Animation is not modelled: `springAnimation`, `animatableData`, and the frames between `withAnimation`'s start and end. Each animated assignment is its end value. The settle animation's partial values, and a drag that starts during one, are not modelled.
- Cosine and sine in the end-caps are parameters (`Trig`). Only their values at the quarter turns are assumed, so nothing is proved about the interior of a cap.
- IEEE floating point is not modelled. This includes rounding, for example a tiny negative remainder rounding `indexNormalized` up to `num`, and infinities and NaN.
- CarouselScroll.NormalizeDragValue: requires `rectWidth != 2 * pathRadius`. At that width Swift divides by zero and yields an infinity or NaN, which reals cannot represent.
- CarouselEffect.ColorRotation: requires `num > 0`. With no views Swift divides by zero, but then there is no view to colour.
- CarouselEffect.ViewScale: a count of 0 is `None`, standing for the trap on converting a NaN to `Int`.
- `Int` overflow is not modelled. `Int(indexNormalized)` is always in `[0, num)`.
- Gesture recognition is not modelled: minimum distance, coordinate spaces, and how simultaneous gestures are arbitrated. The handlers receive the translation and the predicted end translation as arguments.
- The view's width reaches the handlers as an argument. `pathRadius` is the constant 20.
- CarouselEffect.ViewScaleAtNextWhole: the scale's continuity in the index is stated as three lemmas (OnSlot, AtWhole, AtNextWhole), not as one limit statement.
- CarouselEffect.ComputeTrackPoint: its front-run branches call `Ease` for the source's inline `easeInOut` expression (the same formula). Each branch's assignments are a separate step method.

## Findings

| source | as written | input that shows it | evidently intended | confidence | as-written member | corrected member |
|---|---|---|---|---|---|---|
| Carousel/ContentView.swift:183-187 | a tap advances only `scrollOffset`; the next `onChanged` recomputes `scrollOffset` from the unchanged `baseOffset` (line 197), so the tap is undone as soon as a drag starts | initial state, one tap (`scrollOffset` 1), then a drag-changed with translation 0: `scrollOffset` is 0 again | the drag-ended handler commits the shown offset into `baseOffset` (line 204) and drag-changed rebuilds `scrollOffset` from `baseOffset` (line 197); a tap that moves the shown offset should commit it the same way, advancing `baseOffset` with `scrollOffset`, so that the next drag continues from the tapped view | not executed | CarouselScroll.TapLostExample | CarouselScroll.CommittedInvariant |
