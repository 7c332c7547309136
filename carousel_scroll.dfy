/** The scroll state of `ImageCarouselView`: the four `@State` fields, the
    drag normaliser, the settle rule, and the drag-changed, drag-ended and
    tap handlers that update the fields. Each `withAnimation` block is the
    instantaneous assignment of its end values. Each view `index` is laid
    out by `CarouselViewEffect` at the virtual index `index + scrollOffset`. */
module CarouselScroll {
  import opened Wrappers
  import opened Numerics
  import opened CarouselEffect

  /** `pathRadius` of `ImageCarouselView`. */
  const PathRadius: real := 20.0

  // ---------------------------------------------------------------------
  // The helpers
  // ---------------------------------------------------------------------

  /** The width of the track's two straight runs, scaled by 0.4: the drag
      distance that scrolls by one view. */
  function DragScale(rectWidth: real): real {
    (rectWidth - 2.0 * PathRadius) * 0.4
  }

  /** `normalizeDragValue(_:rectWidth:)`: a horizontal translation in points
      as a number of views. The source divides by zero when the width is
      exactly twice the path radius; that call is excluded. */
  function NormalizeDragValue(value: real, rectWidth: real): (drag: real)
    requires DragScale(rectWidth) != 0.0
    ensures drag * DragScale(rectWidth) == value
  {
    DivCancel(value, DragScale(rectWidth));
    value / DragScale(rectWidth)
  }

  /** The normaliser is linear: it maps no translation to no scroll, sums to
      sums and, on a track wider than its end-caps, keeps the direction of
      the drag. */
  lemma NormalizeDragLinear(a: real, b: real, rectWidth: real)
    requires DragScale(rectWidth) != 0.0
    ensures NormalizeDragValue(0.0, rectWidth) == 0.0
    ensures NormalizeDragValue(a + b, rectWidth)
      == NormalizeDragValue(a, rectWidth) + NormalizeDragValue(b, rectWidth)
    ensures rectWidth > 2.0 * PathRadius ==>
      (NormalizeDragValue(a, rectWidth) > 0.0 <==> a > 0.0)
  {
    var c := DragScale(rectWidth);
    DivSum(a, b, c);
    DivUnique(0.0, c, 0.0);
    if rectWidth > 2.0 * PathRadius {
      var n := NormalizeDragValue(a, rectWidth);
      if n > 0.0 {
        MulPos(n, c);
      } else {
        MulMono(c, n, 0.0);
        assert c * n == a;
      }
    }
  }

  /** The settle rule of the drag-ended handler: blend the live offset with
      the predicted one 0.7 to 0.3 and round to a whole view, halfway cases
      away from zero. */
  function SettleTarget(live: real, predicted: real): (n: int)
    ensures -0.5 <= n as real - (live * 0.7 + predicted * 0.3) <= 0.5
  {
    Round(live * 0.7 + predicted * 0.3)
  }

  /** No whole offset is closer to the blend than the settled one. */
  lemma SettleNearest(live: real, predicted: real, k: int)
    ensures Abs(live * 0.7 + predicted * 0.3 - SettleTarget(live, predicted) as real)
      <= Abs(live * 0.7 + predicted * 0.3 - k as real)
  {
    RoundNearest(live * 0.7 + predicted * 0.3, k);
  }

  /** When the prediction agrees with the live offset, the blend is the live
      offset itself and the carousel settles on the nearest whole view. */
  lemma SettleWithoutFling(live: real)
    ensures SettleTarget(live, live) == Round(live)
  {
    assert live * 0.7 + live * 0.3 == live;
  }

  /** A drag released at 1.3 views with no fling settles on view 1. */
  lemma SettleExample()
    ensures SettleTarget(1.3, 1.3) == 1
  {
    SettleWithoutFling(1.3);
    FloorUnique(1.8, 1);
  }

  // ---------------------------------------------------------------------
  // The state and its transitions
  // ---------------------------------------------------------------------

  /** The values of the four `@State` fields. */
  datatype ScrollState = ScrollState(
    dragOffset: real,
    baseOffset: real,
    scrollOffset: real,
    isDragging: bool)

  /** The fields' declared initial values. */
  const Initial: ScrollState := ScrollState(0.0, 0.0, 0.0, false)

  /** What the handlers keep true: the committed offset is a whole number of
      views; during a drag the shown offset is the committed one plus the
      drag; between drags there is no drag offset and the shown offset is a
      whole number of views. */
  predicate Consistent(s: ScrollState) {
    && IsWhole(s.baseOffset)
    && (s.isDragging ==> s.scrollOffset == s.baseOffset + s.dragOffset)
    && (!s.isDragging ==> s.dragOffset == 0.0 && IsWhole(s.scrollOffset))
  }

  /** The drag-changed handler: the drag offset is the normalised live
      translation, the shown offset is the committed one plus the drag. */
  function AfterDragChanged(s: ScrollState, translationWidth: real, rectWidth: real): ScrollState
    requires DragScale(rectWidth) != 0.0
  {
    var dragOffset := NormalizeDragValue(translationWidth, rectWidth);
    s.(dragOffset := dragOffset, scrollOffset := s.baseOffset + dragOffset, isDragging := true)
  }

  /** The offset the drag-ended handler predicts: the committed offset plus
      the normalised predicted end translation. */
  function Predicted(s: ScrollState, predictedWidth: real, rectWidth: real): real
    requires DragScale(rectWidth) != 0.0
  {
    s.baseOffset + NormalizeDragValue(predictedWidth, rectWidth)
  }

  /** The drag-ended handler: settle on a whole view, commit it, clear the
      drag. */
  function AfterDragEnded(s: ScrollState, predictedWidth: real, rectWidth: real): ScrollState
    requires DragScale(rectWidth) != 0.0
  {
    var settled := SettleTarget(s.scrollOffset, Predicted(s, predictedWidth, rectWidth)) as real;
    ScrollState(0.0, settled, settled, false)
  }

  /** The tap handler as written: outside a drag, advance the shown offset
      by one view; the committed offset stays. */
  function AfterTap(s: ScrollState): ScrollState {
    if !s.isDragging then s.(scrollOffset := s.scrollOffset + 1.0) else s
  }

  /** A tap that commits: advance `baseOffset` with `scrollOffset`, as the
      drag-ended handler commits its settled offset, so that the next
      drag-changed, which rebuilds the shown offset from `baseOffset`, starts
      from the new view. */
  function AfterTapCommitted(s: ScrollState): ScrollState {
    if !s.isDragging then
      s.(scrollOffset := s.scrollOffset + 1.0, baseOffset := s.baseOffset + 1.0)
    else s
  }

  lemma WholeShift(x: real)
    requires IsWhole(x)
    ensures IsWhole(x + 1.0)
  {
    FloorUnique(x + 1.0, x.Floor + 1);
  }

  lemma WholeCast(n: int)
    ensures IsWhole(n as real)
  {
    FloorUnique(n as real, n);
  }

  /** The handlers keep the state consistent, from the initial state on. */
  lemma ConsistentInvariant(s: ScrollState, width: real, rectWidth: real)
    requires Consistent(s) && DragScale(rectWidth) != 0.0
    ensures Consistent(Initial)
    ensures Consistent(AfterDragChanged(s, width, rectWidth))
    ensures Consistent(AfterDragEnded(s, width, rectWidth))
    ensures Consistent(AfterTap(s))
    ensures Consistent(AfterTapCommitted(s))
  {
    WholeCast(0);
    WholeCast(SettleTarget(s.scrollOffset, Predicted(s, width, rectWidth)));
    if !s.isDragging {
      WholeShift(s.scrollOffset);
    }
    WholeShift(s.baseOffset);
  }

  /** Drag-changed: the drag offset is the normalised translation, the shown
      offset follows the committed one by exactly the drag, the carousel is
      dragging, and the committed offset is unchanged. Only the latest
      translation counts: translations are measured from the drag's start. */
  lemma DragChangedFollows(s: ScrollState, t: real, t': real, rectWidth: real)
    requires DragScale(rectWidth) != 0.0
    ensures var r := AfterDragChanged(s, t, rectWidth);
      && r.dragOffset * DragScale(rectWidth) == t
      && r.scrollOffset - r.baseOffset == r.dragOffset
      && r.baseOffset == s.baseOffset && r.isDragging
    ensures AfterDragChanged(AfterDragChanged(s, t, rectWidth), t', rectWidth)
      == AfterDragChanged(s, t', rectWidth)
    ensures AfterDragChanged(s, 0.0, rectWidth).scrollOffset == s.baseOffset
  {
    NormalizeDragLinear(0.0, 0.0, rectWidth);
  }

  /** Drag-ended: the shown offset is a whole number of views within half a
      view of `0.7 * live + 0.3 * predicted`, and no whole number is closer;
      it is committed, the drag is cleared and dragging stops. */
  lemma DragEndedSettles(s: ScrollState, predictedWidth: real, rectWidth: real, k: int)
    requires DragScale(rectWidth) != 0.0
    ensures var r := AfterDragEnded(s, predictedWidth, rectWidth);
      var blend := s.scrollOffset * 0.7 + Predicted(s, predictedWidth, rectWidth) * 0.3;
      && IsWhole(r.scrollOffset)
      && -0.5 <= r.scrollOffset - blend <= 0.5
      && Abs(blend - r.scrollOffset) <= Abs(blend - k as real)
      && r.baseOffset == r.scrollOffset && r.dragOffset == 0.0 && !r.isDragging
  {
    var predicted := Predicted(s, predictedWidth, rectWidth);
    WholeCast(SettleTarget(s.scrollOffset, predicted));
    SettleNearest(s.scrollOffset, predicted, k);
  }

  /** A drag that ends with the predicted translation equal to the last live
      one settles on the whole view nearest the live offset. */
  lemma DragEndedWithoutFling(s: ScrollState, t: real, rectWidth: real)
    requires DragScale(rectWidth) != 0.0
    ensures var live := AfterDragChanged(s, t, rectWidth);
      AfterDragEnded(live, t, rectWidth).scrollOffset == Round(live.scrollOffset) as real
  {
    var live := AfterDragChanged(s, t, rectWidth);
    assert Predicted(live, t, rectWidth) == live.scrollOffset;
    SettleWithoutFling(live.scrollOffset);
  }

  /** Tap: outside a drag the shown offset advances by exactly one view; during
      a drag nothing changes; nothing else changes in either case. */
  lemma TapAdvances(s: ScrollState)
    ensures AfterTap(s).scrollOffset == if s.isDragging then s.scrollOffset else s.scrollOffset + 1.0
    ensures AfterTap(s).dragOffset == s.dragOffset
    ensures AfterTap(s).baseOffset == s.baseOffset
    ensures AfterTap(s).isDragging == s.isDragging
  {
  }

  /** As written, a tap is lost once a drag starts: the drag-changed handler
      recomputes the shown offset from the committed one, which the tap did
      not advance. */
  lemma TapLostOnDrag(s: ScrollState, t: real, rectWidth: real)
    requires DragScale(rectWidth) != 0.0
    ensures AfterDragChanged(AfterTap(s), t, rectWidth) == AfterDragChanged(s, t, rectWidth)
  {
  }

  /** From the initial state, a tap and then a drag that has not moved yet
      shows view 0 again, not view 1. */
  lemma TapLostExample(rectWidth: real)
    requires DragScale(rectWidth) != 0.0
    ensures AfterTap(Initial).scrollOffset == 1.0
    ensures AfterDragChanged(AfterTap(Initial), 0.0, rectWidth).scrollOffset == 0.0
  {
    TapLostOnDrag(Initial, 0.0, rectWidth);
    DragChangedFollows(Initial, 0.0, 0.0, rectWidth);
  }

  /** With the committed tap, the views move exactly as with the tap as
      written, the next drag continues from the tapped view, and between
      drags the shown offset stays the committed one. */
  lemma TapCommittedKept(s: ScrollState, t: real, rectWidth: real)
    requires DragScale(rectWidth) != 0.0
    requires !s.isDragging
    ensures AfterTapCommitted(s).scrollOffset == s.scrollOffset + 1.0
    ensures AfterTapCommitted(s).scrollOffset == AfterTap(s).scrollOffset
    ensures AfterDragChanged(AfterTapCommitted(s), t, rectWidth).scrollOffset
      == AfterDragChanged(s, t, rectWidth).scrollOffset + 1.0
    ensures s.scrollOffset == s.baseOffset ==>
      AfterTapCommitted(s).scrollOffset == AfterTapCommitted(s).baseOffset
  {
  }

  /** The stronger invariant a committing tap would keep: between drags
      nothing is shown that is not committed to `baseOffset`. */
  predicate Committed(s: ScrollState) {
    Consistent(s) && (!s.isDragging ==> s.scrollOffset == s.baseOffset)
  }

  /** As written, one tap from the initial state already breaks it. */
  lemma TapBreaksCommitted()
    ensures Committed(Initial)
    ensures !Committed(AfterTap(Initial))
  {
    WholeCast(0);
  }

  /** With the committed tap, every handler keeps it. */
  lemma CommittedInvariant(s: ScrollState, width: real, rectWidth: real)
    requires Committed(s) && DragScale(rectWidth) != 0.0
    ensures Committed(AfterDragChanged(s, width, rectWidth))
    ensures Committed(AfterDragEnded(s, width, rectWidth))
    ensures Committed(AfterTapCommitted(s))
  {
    ConsistentInvariant(s, width, rectWidth);
  }

  // ---------------------------------------------------------------------
  // What the views show
  // ---------------------------------------------------------------------

  /** The virtual index view `index` is laid out at: `Double(index) +
      Double(scrollOffset)`. */
  function ViewOffset(index: int, scrollOffset: real): real {
    index as real + scrollOffset
  }

  /** Advancing the offset by one view moves every view onto the place of its
      successor, the last view onto the place of the first: its scale and
      its phase on the track are the successor's before the step. */
  lemma ShiftByOne(num: nat, index: nat, offset: real)
    requires index < num
    ensures ViewScale(num, ViewOffset(index, offset + 1.0))
      == ViewScale(num, ViewOffset((index + 1) % num, offset))
    ensures ViewPhase(num, ViewOffset(index, offset + 1.0))
      == ViewPhase(num, ViewOffset((index + 1) % num, offset))
  {
    SuccessorOffset(num, index, offset);
    if index + 1 == num {
      ViewScalePeriodic(num, ViewOffset(0, offset));
      ViewPhasePeriodic(num, ViewOffset(0, offset));
    }
  }

  /** One view further on is the successor's offset, or the first view's
      offset one turn later. */
  lemma SuccessorOffset(num: nat, index: nat, offset: real)
    requires index < num
    ensures index + 1 < num ==>
      ViewOffset(index, offset + 1.0) == ViewOffset((index + 1) % num, offset)
    ensures index + 1 == num ==>
      (index + 1) % num == 0 && ViewOffset(index, offset + 1.0) == ViewOffset(0, offset) + num as real
  {
    if index + 1 < num {
      assert (index + 1) % num == index + 1;
    }
  }

  /** A tap outside a drag moves every view, by scale and by position, to
      where its successor was. */
  lemma TapShiftsViews(s: ScrollState, num: nat, index: nat, rect: Rect, trig: Trig)
    requires !s.isDragging && index < num
    ensures ViewScale(num, ViewOffset(index, AfterTap(s).scrollOffset))
      == ViewScale(num, ViewOffset((index + 1) % num, s.scrollOffset))
    ensures ViewPosition(num, ViewOffset(index, AfterTap(s).scrollOffset), rect, PathRadius, trig)
      == ViewPosition(num, ViewOffset((index + 1) % num, s.scrollOffset), rect, PathRadius, trig)
  {
    ShiftByOne(num, index, s.scrollOffset);
  }

  /** Between drags every view rests exactly on a slot: view `index` shows
      the table scale and phase of slot `(index + offset) mod num`. */
  lemma RestingOnSlots(s: ScrollState, num: nat, index: nat)
    requires Consistent(s) && !s.isDragging && num > 3
    ensures ViewScale(num, ViewOffset(index, s.scrollOffset))
      == Some(Sizes(num)[(index + s.scrollOffset.Floor) % num])
    ensures ViewPhase(num, ViewOffset(index, s.scrollOffset))
      == Some(Phases(num)[(index + s.scrollOffset.Floor) % num])
  {
    var k := index + s.scrollOffset.Floor;
    assert ViewOffset(index, s.scrollOffset) == k as real + 0.0;
    ViewScaleAtWhole(num, k);
    ViewPhaseOnSlot(num, k, 0.0);
  }

  /** Different views rest on different slots. */
  lemma DistinctSlots(num: nat, i: nat, j: nat, k: int)
    requires i < j < num
    ensures (i + k) % num != (j + k) % num
  {
    if (i + k) % num == (j + k) % num {
      var qi, qj := (i + k) / num, (j + k) / num;
      assert j - i == num * (qj - qi);
      SmallMultiple(num, qj - qi);
      assert false;
    }
  }

  // ---------------------------------------------------------------------
  // The view's state
  // ---------------------------------------------------------------------

  /** The four `@State` fields of `ImageCarouselView`, updated in place by the
      gesture handlers. The rendered width is a parameter of the handlers
      that need it. */
  class ImageCarousel {
    var dragOffset: real
    var baseOffset: real
    var scrollOffset: real
    var isDragging: bool

    function State(): ScrollState
      reads this
    {
      ScrollState(dragOffset, baseOffset, scrollOffset, isDragging)
    }

    ghost predicate Valid()
      reads this
    {
      Consistent(State())
    }

    constructor ()
      ensures State() == Initial && Valid()
    {
      dragOffset := 0.0;
      baseOffset := 0.0;
      scrollOffset := 0.0;
      isDragging := false;
      WholeCast(0);
    }

    /** `onChanged` of the drag gesture. */
    method DragChanged(translationWidth: real, rectWidth: real)
      requires Valid() && DragScale(rectWidth) != 0.0
      modifies this
      ensures State() == AfterDragChanged(old(State()), translationWidth, rectWidth)
      ensures Valid()
    {
      dragOffset := NormalizeDragValue(translationWidth, rectWidth);
      scrollOffset := baseOffset + dragOffset;
      isDragging := true;
    }

    /** `onEnded` of the drag gesture. */
    method DragEnded(predictedWidth: real, rectWidth: real)
      requires Valid() && DragScale(rectWidth) != 0.0
      modifies this
      ensures State() == AfterDragEnded(old(State()), predictedWidth, rectWidth)
      ensures Valid()
    {
      var predicted := baseOffset + NormalizeDragValue(predictedWidth, rectWidth);
      scrollOffset := Round(scrollOffset * 0.7 + predicted * 0.3) as real;
      baseOffset := scrollOffset;
      dragOffset := 0.0;
      isDragging := false;
      WholeCast(Round(old(scrollOffset) * 0.7 + predicted * 0.3));
    }

    /** `onTapGesture` of a view, as written. */
    method Tap()
      requires Valid()
      modifies this
      ensures State() == AfterTap(old(State()))
      ensures Valid()
    {
      if !isDragging {
        scrollOffset := scrollOffset + 1.0;
        WholeShift(old(scrollOffset));
      }
    }

    /** `onTapGesture` of a view, committing the tap. */
    method TapCommitted()
      requires Valid()
      modifies this
      ensures State() == AfterTapCommitted(old(State()))
      ensures Valid()
    {
      if !isDragging {
        scrollOffset := scrollOffset + 1.0;
        baseOffset := baseOffset + 1.0;
        WholeShift(old(scrollOffset));
        WholeShift(old(baseOffset));
      }
    }
  }
}
