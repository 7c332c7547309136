/** The layout arithmetic of `CarouselViewEffect`: the per-slot phase and
    scale tables, the reduction of a fractional virtual index onto a slot,
    the interpolated scale and phase of a view, the closed five-segment
    track a phase maps to, and the values derived from a view's scale.

    The effect's stored properties (`numberOfViews`, `pathRadius`, `rect`,
    `viewIndex`) become explicit parameters. `CGFloat` and `Double` are
    mathematical reals. */
module CarouselEffect {
  import opened Wrappers
  import opened Numerics

  datatype Rect = Rect(width: real, height: real)

  datatype Point = Point(x: real, y: real)

  /** The trigonometry the end-caps call: the value of pi and the cosine and
      sine functions, supplied by the caller. */
  datatype Trig = Trig(pi: real, cos: real -> real, sin: real -> real)

  /** The supplied `cos` and `sin`. */
  function Cos(trig: Trig, angle: real): real {
    trig.cos(angle)
  }

  function Sin(trig: Trig, angle: real): real {
    trig.sin(angle)
  }

  /** What the proofs below need of `Trig`: the cosine and sine at the
      quarter turns the end-caps start and stop at. */
  predicate ExactAtQuarterTurns(t: Trig) {
    && t.pi > 0.0
    && Cos(t, t.pi / 2.0) == 0.0 && Sin(t, t.pi / 2.0) == 1.0
    && Cos(t, -t.pi / 2.0) == 0.0 && Sin(t, -t.pi / 2.0) == -1.0
    && Cos(t, 3.0 * t.pi / 2.0) == 0.0 && Sin(t, 3.0 * t.pi / 2.0) == -1.0
  }

  // ---------------------------------------------------------------------
  // Breakpoint tables
  // ---------------------------------------------------------------------

  /** Entry `i` of the phase table for `num > 3` views: three hero slots on
      the front runs, the other views spread evenly over the back run, and a
      closing guard one period past the first entry. */
  function PhaseEntry(num: nat, i: nat): real
    requires num > 3
  {
    if i == 0 then 0.2
    else if i == 1 then 1.0
    else if i == 2 then 1.8
    else if i < num then 3.0 + (1.0 / (num - 2) as real) * (i - 2) as real
    else 5.2
  }

  /** The table `imagePhases(num:)` returns. */
  function Phases(num: nat): (ps: seq<real>)
    ensures |ps| == if num > 3 then num + 1 else 0
  {
    if num > 3 then seq(num + 1, i requires 0 <= i <= num => PhaseEntry(num, i)) else []
  }

  /** Entry `i` of the scale table for `num > 3` views. */
  function SizeEntry(num: nat, i: nat): real
    requires num > 3
  {
    if i == 0 then 0.3
    else if i == 1 then 1.0
    else if i == 2 then 0.3
    else if i < num then 0.05
    else 0.3
  }

  /** The table `imageSizes(num:)` returns. */
  function Sizes(num: nat): (ss: seq<real>)
    ensures |ss| == if num > 3 then num + 1 else 0
  {
    if num > 3 then seq(num + 1, i requires 0 <= i <= num => SizeEntry(num, i)) else []
  }

  /** `imagePhases(num:)`: the guard for small counts, then the three hero
      phases, one appended phase per further view, and the closing 5.2. */
  method ImagePhases(num: nat) returns (positions: seq<real>)
    ensures positions == Phases(num)
  {
    if num <= 3 {
      return [];
    }
    positions := [0.2, 1.0, 1.8];
    for i := 3 to num
      invariant |positions| == i
      invariant forall k :: 0 <= k < i ==> positions[k] == PhaseEntry(num, k)
    {
      var step := 1.0 / (num - 2) as real;
      positions := positions + [3.0 + step * (i - 2) as real];
    }
    positions := positions + [5.2];
  }

  /** `imageSizes(num:)`: the guard for small counts, then the three hero
      scales, 0.05 per further view, and the closing 0.3. */
  method ImageSizes(num: nat) returns (sizes: seq<real>)
    ensures sizes == Sizes(num)
  {
    if num <= 3 {
      return [];
    }
    sizes := [0.3, 1.0, 0.3];
    for i := 3 to num
      invariant |sizes| == i
      invariant forall k :: 0 <= k < i ==> sizes[k] == SizeEntry(num, k)
    {
      sizes := sizes + [0.05];
    }
    sizes := sizes + [0.3];
  }

  /** A back-run phase is `3 + (i - 2) / (num - 2)` and lies strictly inside
      the back run `(3, 4)`; later back-run slots have larger phases. */
  lemma BackRunPhase(num: nat, i: nat)
    requires num > 3 && 3 <= i < num
    ensures PhaseEntry(num, i) == 3.0 + (i - 2) as real / (num - 2) as real
    ensures 3.0 < PhaseEntry(num, i) < 4.0
  {
    var d := (num - 2) as real;
    var a := (i - 2) as real;
    DivAsProduct(a, d);
    DivUnitInterval(a, d);
  }

  lemma BackRunIncreasing(num: nat, i: nat, j: nat)
    requires num > 3 && 3 <= i < j < num
    ensures PhaseEntry(num, i) < PhaseEntry(num, j)
  {
    BackRunPhase(num, i);
    BackRunPhase(num, j);
    DivStrict((i - 2) as real, (j - 2) as real, (num - 2) as real);
  }

  lemma PhaseEntryLess(num: nat, i: nat, j: nat)
    requires num > 3 && i < j <= num
    ensures PhaseEntry(num, i) < PhaseEntry(num, j)
  {
    if 3 <= i && j < num {
      BackRunIncreasing(num, i, j);
    } else {
      if 3 <= i {
        BackRunPhase(num, i);
      }
      if 3 <= j < num {
        BackRunPhase(num, j);
      }
    }
  }

  /** The phase table: it starts at 0.2 and ends at 5.2, which is the same
      point of the track one period later; its back-run entries are evenly
      spaced strictly inside `(3, 4)`; and it is strictly increasing. */
  lemma PhasesShape(num: nat)
    requires num > 3
    ensures Phases(num)[0] == 0.2 && Phases(num)[num] == 5.2
    ensures Phases(num)[num] - 5.0 == Phases(num)[0]
    ensures Phases(num)[1] == 1.0 && Phases(num)[2] == 1.8
    ensures forall i :: 3 <= i < num ==>
      Phases(num)[i] == 3.0 + (i - 2) as real / (num - 2) as real && 3.0 < Phases(num)[i] < 4.0
    ensures forall i, j :: 0 <= i < j <= num ==> Phases(num)[i] < Phases(num)[j]
  {
    var ps := Phases(num);
    forall i | 3 <= i < num
      ensures ps[i] == 3.0 + (i - 2) as real / (num - 2) as real && 3.0 < ps[i] < 4.0
    {
      BackRunPhase(num, i);
    }
    forall i, j | 0 <= i < j <= num
      ensures ps[i] < ps[j]
    {
      PhaseEntryLess(num, i, j);
    }
  }

  /** The scale table: every entry lies in `[0.05, 1.0]`, the middle hero
      slot has full scale, and the closing guard equals the first entry, so
      the scale is the same on both sides of the wrap seam. */
  lemma SizesShape(num: nat)
    requires num > 3
    ensures forall i :: 0 <= i <= num ==> 0.05 <= Sizes(num)[i] <= 1.0
    ensures Sizes(num)[0] == 0.3 && Sizes(num)[1] == 1.0 && Sizes(num)[2] == 0.3
    ensures forall i :: 3 <= i < num ==> Sizes(num)[i] == 0.05
    ensures Sizes(num)[num] == Sizes(num)[0]
  {
  }

  // ---------------------------------------------------------------------
  // Reducing a virtual index onto a slot
  // ---------------------------------------------------------------------

  /** The slot `Int(indexNormalized)` of a reduced index is in `[0, num)`, and
      `Int(indexNormalized + 1)` is the next slot; so for `num > 3` all the
      table subscripts of `viewPosition` and `viewScale` are in range. */
  lemma LookupsInRange(num: nat, index: real)
    requires num > 0
    ensures 0 <= Trunc(Reduce(index, num as real)) < num
    ensures Trunc(Reduce(index, num as real) + 1.0) == Trunc(Reduce(index, num as real)) + 1
    ensures 0.0 <= Reduce(index, 1.0) < 1.0
    ensures num > 3 ==> Trunc(Reduce(index, num as real)) + 1 < |Phases(num)| == |Sizes(num)|
  {
    var n := Reduce(index, num as real);
    ReduceIsEuclidean(index, num as real);
    ReduceIsEuclidean(index, 1.0);
    FloorUnique(n + 1.0, n.Floor + 1);
  }

  /** The reduced index of `k + t` for a whole `k` and `t` in `[0, 1)` is
      `k mod num + t`, and its fractional part is `t`. */
  lemma ReduceOnSlot(num: nat, k: int, t: real)
    requires num > 0 && 0.0 <= t < 1.0
    ensures Reduce(k as real + t, num as real) == (k % num) as real + t
    ensures Trunc(Reduce(k as real + t, num as real)) == k % num
    ensures Reduce(k as real + t, 1.0) == t
  {
    var x := k as real + t;
    var n := num as real;
    var q, r := k / num, k % num;
    DivModReal(k, num);
    assert x - n * q as real == r as real + t;
    ReduceByQuotient(x, n, q);
    assert x - 1.0 * k as real == t;
    ReduceByQuotient(x, 1.0, k);
    FloorUnique(r as real + t, r);
  }

  lemma ModSucc(k: int, num: nat)
    requires num > 0
    ensures (k + 1) % num == if k % num == num - 1 then 0 else k % num + 1
  {
    var q, r := k / num, k % num;
    if r == num - 1 {
      assert k + 1 == num * (q + 1) + 0;
      DivModUnique(k + 1, num, q + 1, 0);
    } else {
      DivModUnique(k + 1, num, q, r + 1);
    }
  }

  // ---------------------------------------------------------------------
  // The scale of a view
  // ---------------------------------------------------------------------

  /** The table half of `viewScale(at:rect:)`, once the index is reduced to
      slot `i` and fraction `t`: interpolate between the slot's scale and the
      next one's. `None` stands for the run-time trap of a subscript out of
      range. */
  function ScaleLookup(scalePhases: seq<real>, i: int, t: real): Option<real> {
    if 0 <= i && i + 1 < |scalePhases| then
      Some(scalePhases[i] * (1.0 - t) + t * scalePhases[i + 1])
    else
      None
  }

  /** `viewScale(at:rect:)`: reduce the index onto a slot and interpolate
      between that slot's scale and the next one's by the index's fractional
      part. `None` also stands for the trap on a zero count, whose remainder
      is NaN; every count up to 3 has an empty table and traps on the
      subscript. */
  function ViewScale(num: nat, index: real): Option<real> {
    if num == 0 then None
    else ScaleLookup(Sizes(num), Trunc(Reduce(index, num as real)), Reduce(index, 1.0))
  }

  lemma ConvexBetween(a: real, b: real, t: real, lo: real, hi: real)
    requires lo <= a <= hi && lo <= b <= hi && 0.0 <= t <= 1.0
    ensures lo <= a * (1.0 - t) + t * b <= hi
  {
    MulNonneg(1.0 - t, a - lo);
    MulNonneg(t, b - lo);
    assert a * (1.0 - t) + t * b - lo == (1.0 - t) * (a - lo) + t * (b - lo);
    MulNonneg(1.0 - t, hi - a);
    MulNonneg(t, hi - b);
    assert hi - (a * (1.0 - t) + t * b) == (1.0 - t) * (hi - a) + t * (hi - b);
  }

  /** A view has a scale exactly when the carousel has more than three views. */
  lemma ViewScaleDefined(num: nat, index: real)
    ensures ViewScale(num, index).Some? <==> num > 3
  {
    if num > 3 {
      LookupsInRange(num, index);
    }
  }

  /** The scale of a view lies between the smallest and largest table entries. */
  lemma ViewScaleBounds(num: nat, index: real)
    requires num > 3
    ensures ViewScale(num, index).Some?
    ensures 0.05 <= ViewScale(num, index).value <= 1.0
  {
    LookupsInRange(num, index);
    var ss := Sizes(num);
    var i := Trunc(Reduce(index, num as real));
    assert 0.05 <= ss[i] <= 1.0 && 0.05 <= ss[i + 1] <= 1.0;
    ConvexBetween(ss[i], ss[i + 1], Reduce(index, 1.0), 0.05, 1.0);
  }

  /** On the unit interval from a whole index `k`, the scale interpolates
      linearly from slot `k mod num`'s entry to the following entry. */
  lemma ViewScaleOnSlot(num: nat, k: int, t: real)
    requires num > 3 && 0.0 <= t < 1.0
    ensures ViewScale(num, k as real + t)
      == Some(Sizes(num)[k % num] * (1.0 - t) + t * Sizes(num)[k % num + 1])
  {
    ReduceOnSlot(num, k, t);
  }

  /** At a whole index the scale is exactly the table entry of its slot. */
  lemma ViewScaleAtWhole(num: nat, k: int)
    requires num > 3
    ensures ViewScale(num, k as real) == Some(Sizes(num)[k % num])
  {
    ViewScaleOnSlot(num, k, 0.0);
    assert k as real + 0.0 == k as real;
  }

  /** The entry after slot `k mod num` is the entry of slot `(k + 1) mod num`:
      at the wrap this is the closing guard, which repeats entry 0. */
  lemma NextSizeEntry(num: nat, k: int)
    requires num > 3
    ensures Sizes(num)[k % num + 1] == Sizes(num)[(k + 1) % num]
  {
    ModSucc(k, num);
  }

  /** The scale at the next whole index is the entry `ViewScaleOnSlot`
      interpolates toward, including across the wrap from slot `num - 1` to
      slot 0. With `ViewScaleOnSlot` and `ViewScaleAtWhole` this says that
      between two consecutive whole indices the scale is the straight line
      between its values there, so it is continuous in the index. */
  lemma ViewScaleAtNextWhole(num: nat, k: int)
    requires num > 3
    ensures ViewScale(num, (k + 1) as real) == Some(Sizes(num)[k % num + 1])
  {
    ViewScaleAtWhole(num, k + 1);
    NextSizeEntry(num, k);
  }

  /** Adding a whole number of turns to the index leaves the scale unchanged. */
  lemma ViewScalePeriodic(num: nat, index: real)
    ensures ViewScale(num, index + num as real) == ViewScale(num, index)
  {
    if num > 0 {
      ReduceShift(index, num as real);
      FractionShift(index, num);
    }
  }

  // ---------------------------------------------------------------------
  // The position of a view
  // ---------------------------------------------------------------------

  /** The table half of `viewPosition(at:rect:)`, once the index is reduced to
      slot `i`, following slot `j` and fraction `t`: the slot's phase plus the
      fraction `t` of the gap to the following slot's phase. */
  function PhaseLookup(imagePhases: seq<real>, i: int, j: int, t: real): Option<real> {
    if 0 <= i < |imagePhases| && 0 <= j < |imagePhases| then
      Some(imagePhases[i] + t * (imagePhases[j] - imagePhases[i]))
    else
      None
  }

  /** The phase `viewPosition(at:rect:)` hands to `pathPosition`. The
      following slot is `Int(indexNormalized + 1)`, as in the source
      (`None` as for `ViewScale`). */
  function ViewPhase(num: nat, index: real): Option<real> {
    if num == 0 then None
    else
      var indexNormalized := Reduce(index, num as real);
      PhaseLookup(Phases(num), Trunc(indexNormalized), Trunc(indexNormalized + 1.0), Reduce(index, 1.0))
  }

  /** `viewPosition(at:rect:)`: the track point of the view's phase. */
  function ViewPosition(num: nat, index: real, rect: Rect, pathRadius: real, trig: Trig): Option<Point> {
    match ViewPhase(num, index)
    case None => None
    case Some(phase) => Some(PathPosition(phase, rect, pathRadius, trig))
  }

  /** A view has a position exactly when the carousel has more than three views. */
  lemma ViewPositionDefined(num: nat, index: real, rect: Rect, pathRadius: real, trig: Trig)
    ensures ViewPosition(num, index, rect, pathRadius, trig).Some? <==> num > 3
  {
    if num > 3 {
      LookupsInRange(num, index);
    }
  }

  /** A looked-up phase lies in `[ps[i], ps[i + 1])` when the table rises there. */
  lemma PhaseLookupBounds(ps: seq<real>, i: int, t: real)
    requires 0 <= i && i + 1 < |ps| && ps[i] < ps[i + 1] && 0.0 <= t < 1.0
    ensures PhaseLookup(ps, i, i + 1, t).Some?
    ensures ps[i] <= PhaseLookup(ps, i, i + 1, t).value < ps[i + 1]
  {
    var len := ps[i + 1] - ps[i];
    ScaledFraction(len, t, t * len);
  }

  /** The phase of a view lies in `[phases[i], phases[i + 1])` for its slot
      `i`, hence in `[0.2, 5.2)`. */
  lemma ViewPhaseBounds(num: nat, index: real)
    requires num > 3
    ensures ViewPhase(num, index).Some?
    ensures var i := Trunc(Reduce(index, num as real));
      0 <= i < num && Phases(num)[i] <= ViewPhase(num, index).value < Phases(num)[i + 1]
    ensures 0.2 <= ViewPhase(num, index).value < 5.2
  {
    LookupsInRange(num, index);
    var ps := Phases(num);
    var i := Trunc(Reduce(index, num as real));
    PhaseEntryLess(num, i, i + 1);
    PhaseLookupBounds(ps, i, Reduce(index, 1.0));
    if i > 0 {
      PhaseEntryLess(num, 0, i);
    }
    if i + 1 < num {
      PhaseEntryLess(num, i + 1, num);
    }
  }

  /** On the unit interval from a whole index `k`, the phase runs linearly
      from slot `k mod num`'s table phase toward the following table phase. */
  lemma ViewPhaseOnSlot(num: nat, k: int, t: real)
    requires num > 3 && 0.0 <= t < 1.0
    ensures ViewPhase(num, k as real + t) == PhaseLookup(Phases(num), k % num, k % num + 1, t)
    ensures ViewPhase(num, k as real + t)
      == Some(Phases(num)[k % num] + t * (Phases(num)[k % num + 1] - Phases(num)[k % num]))
  {
    ReduceOnSlot(num, k, t);
    LookupsInRange(num, k as real + t);
  }

  /** The point a slot's phase run ends at is the point the next whole index
      starts at, including across the wrap seam (phase 5.2 is phase 0.2 one
      period on); with `ViewPhaseOnSlot` this makes a view's position
      continuous wherever the track is. */
  lemma ViewPositionSeam(num: nat, k: int, rect: Rect, pathRadius: real, trig: Trig)
    requires num > 3
    ensures ViewPosition(num, (k + 1) as real, rect, pathRadius, trig)
      == Some(PathPosition(Phases(num)[k % num + 1], rect, pathRadius, trig))
  {
    ViewPhaseOnSlot(num, k + 1, 0.0);
    assert (k + 1) as real + 0.0 == (k + 1) as real;
    ModSucc(k, num);
    var ps := Phases(num);
    if k % num == num - 1 {
      assert ps[num] == ps[0] + 5.0 * 1 as real;
      PathPeriodic(ps[0], rect, pathRadius, trig, 1);
    }
  }

  /** Adding a whole number of turns to the index leaves the phase unchanged. */
  lemma ViewPhasePeriodic(num: nat, index: real)
    ensures ViewPhase(num, index + num as real) == ViewPhase(num, index)
  {
    if num > 0 {
      ReduceShift(index, num as real);
      FractionShift(index, num);
    }
  }

  /** Adding a whole number of turns to the index leaves the position unchanged. */
  lemma ViewPositionPeriodic(num: nat, index: real, rect: Rect, pathRadius: real, trig: Trig)
    ensures ViewPosition(num, index + num as real, rect, pathRadius, trig)
      == ViewPosition(num, index, rect, pathRadius, trig)
  {
    ViewPhasePeriodic(num, index);
  }

  // ---------------------------------------------------------------------
  // The track
  // ---------------------------------------------------------------------

  /** The ease-in-out curve of the front runs, `p² / (p² + (1 - p)²)`. Its
      denominator is at least 1/2, so it is defined everywhere, and its
      value is a fraction in `[0, 1]`. */
  function Ease(p: real): (e: real)
    ensures 0.0 <= e <= 1.0
  {
    EaseDenominator(p);
    Square(p);
    Square(1.0 - p);
    DivUnitInterval(p * p, p * p + (1.0 - p) * (1.0 - p));
    p * p / (p * p + (1.0 - p) * (1.0 - p))
  }

  lemma EaseDenominator(p: real)
    ensures p * p + (1.0 - p) * (1.0 - p) >= 0.5
  {
    Square(p - 0.5);
    assert p * p + (1.0 - p) * (1.0 - p) == 2.0 * ((p - 0.5) * (p - 0.5)) + 0.5;
  }

  /** The ease fixes 0, 1/2 and 1 and is point-symmetric about (1/2, 1/2),
      which is what makes the two front runs meet at the valley floor. */
  lemma EaseMirror(p: real)
    ensures Ease(1.0 - p) == 1.0 - Ease(p)
    ensures Ease(0.0) == 0.0 && Ease(0.5) == 0.5 && Ease(1.0) == 1.0
  {
    var a := p * p;
    var b := (1.0 - p) * (1.0 - p);
    EaseDenominator(p);
    assert (1.0 - p) * (1.0 - p) + (1.0 - (1.0 - p)) * (1.0 - (1.0 - p)) == b + a;
    assert Ease(p) == a / (a + b);
    assert Ease(1.0 - p) == b / (a + b);
    DivSum(a, b, a + b);
    DivSelf(a + b);
  }

  /** Segment [0, 1): rightward along the front, easing down into the valley. */
  function FrontRise(pn: real, rect: Rect, pathRadius: real): Point {
    var lineSegment := LineSegment(rect, pathRadius);
    Point(pn / 2.0 * lineSegment + pathRadius,
          rect.height - 2.0 * pathRadius - Ease(pn) * rect.height / 3.0)
  }

  /** The length of each straight run: the width less the two end-caps. */
  function LineSegment(rect: Rect, pathRadius: real): real {
    rect.width - 2.0 * pathRadius
  }

  /** Segment [1, 2): rightward along the front, easing back up, mirrored. */
  function FrontFall(pn: real, rect: Rect, pathRadius: real): Point {
    var lineSegment := LineSegment(rect, pathRadius);
    Point(pn / 2.0 * lineSegment + pathRadius,
          rect.height - 2.0 * pathRadius - Ease(2.0 - pn) * rect.height / 3.0)
  }

  /** Segment [2, 3]: the right end-cap, a half circle. */
  function RightCap(pn: real, rect: Rect, pathRadius: real, trig: Trig): Point {
    Point(pathRadius + LineSegment(rect, pathRadius) + Cos(trig, RightCapAngle(pn, trig)) * pathRadius,
          rect.height - pathRadius + Sin(trig, RightCapAngle(pn, trig)) * pathRadius)
  }

  /** The angle on the right end-cap: from -pi/2 at phase 2 to pi/2 at phase 3. */
  function RightCapAngle(pn: real, trig: Trig): real {
    -trig.pi / 2.0 + (pn - 2.0) * trig.pi
  }

  /** Segment (3, 4): leftward along the flat back run. */
  function BackRun(pn: real, rect: Rect, pathRadius: real): Point {
    var lineSegment := LineSegment(rect, pathRadius);
    Point(rect.width - pathRadius - (pn - 3.0) * lineSegment, rect.height)
  }

  /** Segment [4, 5): the left end-cap, a half circle. */
  function LeftCap(pn: real, rect: Rect, pathRadius: real, trig: Trig): Point {
    Point(pathRadius + Cos(trig, LeftCapAngle(pn, trig)) * pathRadius,
          rect.height - pathRadius + Sin(trig, LeftCapAngle(pn, trig)) * pathRadius)
  }

  /** The angle on the left end-cap: from pi/2 at phase 4 to 3pi/2 at phase 5. */
  function LeftCapAngle(pn: real, trig: Trig): real {
    trig.pi / 2.0 + (pn - 4.0) * trig.pi
  }

  /** The segment a reduced phase in `[0, 5)` selects, by the same tests, in
      the same order, as the source; phase 3 itself falls through to the
      right end-cap. */
  function TrackPoint(phaseNormalized: real, rect: Rect, pathRadius: real, trig: Trig): Point {
    if phaseNormalized >= 0.0 && phaseNormalized < 1.0 then
      FrontRise(phaseNormalized, rect, pathRadius)
    else if phaseNormalized >= 1.0 && phaseNormalized < 2.0 then
      FrontFall(phaseNormalized, rect, pathRadius)
    else if phaseNormalized > 3.0 && phaseNormalized < 4.0 then
      BackRun(phaseNormalized, rect, pathRadius)
    else if phaseNormalized >= 4.0 then
      LeftCap(phaseNormalized, rect, pathRadius, trig)
    else
      RightCap(phaseNormalized, rect, pathRadius, trig)
  }

  /** `pathPosition(at:rect:)`: reduce the phase into `[0, 5)` and take the
      point of the segment it selects. */
  function PathPosition(phase: real, rect: Rect, pathRadius: real, trig: Trig): Point {
    TrackPoint(Reduce(phase, 5.0), rect, pathRadius, trig)
  }

  /** The remainder idiom `pathPosition`, `viewPosition` and `viewScale`
      share, as the source writes it: take the truncating remainder and add
      the divisor back when it is negative. */
  method FixedRemainder(x: real, d: real) returns (r: real)
    requires d != 0.0
    ensures r == Reduce(x, d)
    ensures d > 0.0 ==> 0.0 <= r < d
  {
    r := TruncRem(x, d);
    if r < 0.0 {
      r := r + d;
    }
    if d > 0.0 {
      ReduceIsEuclidean(x, d);
    }
  }

  /** `pathPosition(at:rect:)` as the source writes it: reduce the phase,
      then compute the point of the segment it selects. */
  method ComputePathPosition(phase: real, rect: Rect, pathRadius: real, trig: Trig) returns (position: Point)
    ensures position == PathPosition(phase, rect, pathRadius, trig)
  {
    var phaseNormalized := FixedRemainder(phase, 5.0);
    position := ComputeTrackPoint(phaseNormalized, rect, pathRadius, trig);
  }

  /** The branches of `pathPosition(at:rect:)`: start from `(0, rect.height)`
      and reassign `x` and `y` in the branch the reduced phase selects. */
  method ComputeTrackPoint(phaseNormalized: real, rect: Rect, pathRadius: real, trig: Trig)
    returns (position: Point)
    ensures position == TrackPoint(phaseNormalized, rect, pathRadius, trig)
  {
    var lineSegment := LineSegment(rect, pathRadius);
    var x := 0.0;
    var y := rect.height;
    if phaseNormalized >= 0.0 && phaseNormalized < 1.0 {
      x, y := FrontRiseStep(phaseNormalized, lineSegment, rect, pathRadius);
    } else if phaseNormalized >= 1.0 && phaseNormalized < 2.0 {
      x, y := FrontFallStep(phaseNormalized, lineSegment, rect, pathRadius);
    } else if phaseNormalized > 3.0 && phaseNormalized < 4.0 {
      x := BackRunStep(phaseNormalized, lineSegment, rect, pathRadius);
    } else if phaseNormalized >= 4.0 {
      x, y := LeftCapStep(phaseNormalized, rect, pathRadius, trig);
    } else {
      x, y := RightCapStep(phaseNormalized, lineSegment, rect, pathRadius, trig);
    }
    position := Point(x, y);
  }

  // The assignments of each branch of `pathPosition(at:rect:)`.

  /** Phases `[0, 1)`: `x` along the run, `y` eased down by `easeInOut(p)`. */
  method FrontRiseStep(phaseNormalized: real, lineSegment: real, rect: Rect, pathRadius: real)
    returns (x: real, y: real)
    requires lineSegment == LineSegment(rect, pathRadius)
    ensures Point(x, y) == FrontRise(phaseNormalized, rect, pathRadius)
  {
    x := phaseNormalized / 2.0 * lineSegment + pathRadius;
    var p := phaseNormalized;
    var easeInOut := Ease(p);
    y := rect.height - 2.0 * pathRadius - easeInOut * rect.height / 3.0;
  }

  /** Phases `[1, 2)`: the same with `p = 2 - phase`. */
  method FrontFallStep(phaseNormalized: real, lineSegment: real, rect: Rect, pathRadius: real)
    returns (x: real, y: real)
    requires lineSegment == LineSegment(rect, pathRadius)
    ensures Point(x, y) == FrontFall(phaseNormalized, rect, pathRadius)
  {
    x := phaseNormalized / 2.0 * lineSegment + pathRadius;
    var p := 2.0 - phaseNormalized;
    var easeInOut := Ease(p);
    y := rect.height - 2.0 * pathRadius - easeInOut * rect.height / 3.0;
    assert Point(x, y).y == FrontFall(phaseNormalized, rect, pathRadius).y;
  }

  /** Phases `(3, 4)`: only `x` moves; `y` keeps its initial `rect.height`. */
  method BackRunStep(phaseNormalized: real, lineSegment: real, rect: Rect, pathRadius: real)
    returns (x: real)
    requires lineSegment == LineSegment(rect, pathRadius)
    ensures Point(x, rect.height) == BackRun(phaseNormalized, rect, pathRadius)
  {
    x := rect.width - pathRadius - (phaseNormalized - 3.0) * lineSegment;
  }

  /** Phases `[4, 5)`: around the left end-cap. */
  method LeftCapStep(phaseNormalized: real, rect: Rect, pathRadius: real, trig: Trig)
    returns (x: real, y: real)
    ensures Point(x, y) == LeftCap(phaseNormalized, rect, pathRadius, trig)
  {
    var angle := LeftCapAngle(phaseNormalized, trig);
    x := pathRadius + Cos(trig, angle) * pathRadius;
    y := rect.height - pathRadius + Sin(trig, angle) * pathRadius;
  }

  /** Phases `[2, 3]`: around the right end-cap. */
  method RightCapStep(phaseNormalized: real, lineSegment: real, rect: Rect, pathRadius: real, trig: Trig)
    returns (x: real, y: real)
    requires lineSegment == LineSegment(rect, pathRadius)
    ensures Point(x, y) == RightCap(phaseNormalized, rect, pathRadius, trig)
  {
    var angle := RightCapAngle(phaseNormalized, trig);
    x := pathRadius + lineSegment + Cos(trig, angle) * pathRadius;
    y := rect.height - pathRadius + Sin(trig, angle) * pathRadius;
  }

  lemma FrontRiseFormula(pn: real, rect: Rect, pathRadius: real)
    ensures FrontRise(pn, rect, pathRadius).x == pn / 2.0 * LineSegment(rect, pathRadius) + pathRadius
    ensures FrontRise(pn, rect, pathRadius).y == rect.height - 2.0 * pathRadius - Ease(pn) * rect.height / 3.0
  {
  }

  lemma FrontFallFormula(pn: real, rect: Rect, pathRadius: real)
    ensures FrontFall(pn, rect, pathRadius).x == pn / 2.0 * LineSegment(rect, pathRadius) + pathRadius
    ensures FrontFall(pn, rect, pathRadius).y == rect.height - 2.0 * pathRadius - Ease(2.0 - pn) * rect.height / 3.0
  {
  }

  lemma ReduceInRange(x: real, d: real)
    requires d > 0.0 && 0.0 <= x < d
    ensures Reduce(x, d) == x
  {
    ReduceByQuotient(x, d, 0);
  }

  /** The track has period 5. */
  lemma PathPeriodic(phase: real, rect: Rect, pathRadius: real, trig: Trig, k: int)
    ensures PathPosition(phase + 5.0 * k as real, rect, pathRadius, trig)
      == PathPosition(phase, rect, pathRadius, trig)
  {
    ReducePeriodic(phase, 5.0, k);
  }

  /** Phase 1, the bottom of the valley: the first front run's formula
      reaches the point the second front run starts at. */
  lemma FrontRunsMeet(rect: Rect, pathRadius: real, trig: Trig)
    ensures FrontRise(1.0, rect, pathRadius) == PathPosition(1.0, rect, pathRadius, trig)
    ensures PathPosition(1.0, rect, pathRadius, trig)
      == Point(pathRadius + (rect.width - 2.0 * pathRadius) / 2.0,
               rect.height - 2.0 * pathRadius - rect.height / 3.0)
  {
    ReduceInRange(1.0, 5.0);
    EaseMirror(0.0);
  }

  /** Phase 2: the front run's formula reaches the start of the right cap. */
  lemma FrontMeetsRightCap(rect: Rect, pathRadius: real, trig: Trig)
    requires ExactAtQuarterTurns(trig)
    ensures FrontFall(2.0, rect, pathRadius) == PathPosition(2.0, rect, pathRadius, trig)
    ensures PathPosition(2.0, rect, pathRadius, trig)
      == Point(rect.width - pathRadius, rect.height - 2.0 * pathRadius)
  {
    ReduceInRange(2.0, 5.0);
    EaseMirror(0.0);
    var angle := RightCapAngle(2.0, trig);
    assert angle == -trig.pi / 2.0;
    MulByZero(Cos(trig, angle), pathRadius);
    MulByOne(Sin(trig, angle), pathRadius);
  }

  /** Phase 3, which the source sends to the right cap: the cap ends where
      the back run's formula starts. */
  lemma RightCapMeetsBackRun(rect: Rect, pathRadius: real, trig: Trig)
    requires ExactAtQuarterTurns(trig)
    ensures BackRun(3.0, rect, pathRadius) == PathPosition(3.0, rect, pathRadius, trig)
    ensures PathPosition(3.0, rect, pathRadius, trig) == Point(rect.width - pathRadius, rect.height)
  {
    ReduceInRange(3.0, 5.0);
    var angle := RightCapAngle(3.0, trig);
    assert angle == trig.pi / 2.0;
    MulByZero(Cos(trig, angle), pathRadius);
    MulByOne(Sin(trig, angle), pathRadius);
  }

  /** Phase 4: the back run's formula reaches the start of the left cap. */
  lemma BackRunMeetsLeftCap(rect: Rect, pathRadius: real, trig: Trig)
    requires ExactAtQuarterTurns(trig)
    ensures BackRun(4.0, rect, pathRadius) == PathPosition(4.0, rect, pathRadius, trig)
    ensures PathPosition(4.0, rect, pathRadius, trig) == Point(pathRadius, rect.height)
  {
    ReduceInRange(4.0, 5.0);
    var angle := LeftCapAngle(4.0, trig);
    assert angle == trig.pi / 2.0;
    MulByZero(Cos(trig, angle), pathRadius);
    MulByOne(Sin(trig, angle), pathRadius);
  }

  /** Phase 5, which is phase 0: the left cap's formula closes the loop at the
      start of the first front run. */
  lemma LeftCapMeetsFrontRun(rect: Rect, pathRadius: real, trig: Trig)
    requires ExactAtQuarterTurns(trig)
    ensures LeftCap(5.0, rect, pathRadius, trig) == PathPosition(0.0, rect, pathRadius, trig)
    ensures PathPosition(0.0, rect, pathRadius, trig)
      == Point(pathRadius, rect.height - 2.0 * pathRadius)
  {
    PathAtZero(rect, pathRadius, trig);
    LeftCapAtFive(rect, pathRadius, trig);
  }

  lemma PathAtZero(rect: Rect, pathRadius: real, trig: Trig)
    ensures PathPosition(0.0, rect, pathRadius, trig)
      == Point(pathRadius, rect.height - 2.0 * pathRadius)
  {
    ReduceInRange(0.0, 5.0);
    FrontRiseAtZero(rect, pathRadius);
  }

  lemma FrontRiseAtZero(rect: Rect, pathRadius: real)
    ensures FrontRise(0.0, rect, pathRadius) == Point(pathRadius, rect.height - 2.0 * pathRadius)
  {
    EaseMirror(0.0);
    MulByZero(Ease(0.0), rect.height);
  }

  lemma LeftCapAtFive(rect: Rect, pathRadius: real, trig: Trig)
    requires ExactAtQuarterTurns(trig)
    ensures LeftCap(5.0, rect, pathRadius, trig) == Point(pathRadius, rect.height - 2.0 * pathRadius)
  {
    var angle := LeftCapAngle(5.0, trig);
    assert angle == 3.0 * trig.pi / 2.0;
    MulByZero(Cos(trig, angle), pathRadius);
    MulByOne(Sin(trig, angle), pathRadius);
  }

  /** On the front runs, phases `[0, 2)`, x moves linearly from the left end
      of the straight run to its right end, and y stays between the valley
      floor `h - 2r - h/3` and the baseline `h - 2r`. */
  lemma PathFrontRuns(phase: real, rect: Rect, pathRadius: real, trig: Trig)
    requires 0.0 <= phase < 2.0
    ensures var lineSegment := rect.width - 2.0 * pathRadius;
      PathPosition(phase, rect, pathRadius, trig).x == pathRadius + phase / 2.0 * lineSegment
    ensures rect.height >= 0.0 ==>
      rect.height - 2.0 * pathRadius - rect.height / 3.0
        <= PathPosition(phase, rect, pathRadius, trig).y
        <= rect.height - 2.0 * pathRadius
  {
    PathOnFrontRuns(phase, rect, pathRadius, trig);
    if phase < 1.0 {
      FrontRiseFormula(phase, rect, pathRadius);
      FrontHeight(Ease(phase), rect, pathRadius, FrontRise(phase, rect, pathRadius));
    } else {
      FrontFallFormula(phase, rect, pathRadius);
      FrontHeight(Ease(2.0 - phase), rect, pathRadius, FrontFall(phase, rect, pathRadius));
    }
  }

  /** Phases in `[0, 2)` are their own reduction and select the front runs. */
  lemma PathOnFrontRuns(phase: real, rect: Rect, pathRadius: real, trig: Trig)
    requires 0.0 <= phase < 2.0
    ensures PathPosition(phase, rect, pathRadius, trig)
      == if phase < 1.0 then FrontRise(phase, rect, pathRadius) else FrontFall(phase, rect, pathRadius)
  {
    ReduceInRange(phase, 5.0);
  }

  /** A front-run point whose height is set by an ease value `e` in `[0, 1]`. */
  lemma FrontHeight(e: real, rect: Rect, pathRadius: real, pos: Point)
    requires 0.0 <= e <= 1.0
    requires pos.y == rect.height - 2.0 * pathRadius - e * rect.height / 3.0
    ensures rect.height >= 0.0 ==>
      rect.height - 2.0 * pathRadius - rect.height / 3.0 <= pos.y <= rect.height - 2.0 * pathRadius
  {
    if rect.height >= 0.0 {
      MulMono(rect.height, 0.0, e);
      MulMono(rect.height, e, 1.0);
    }
  }

  /** On the back run, phases `(3, 4)`, the track is flat at the bottom edge
      and x moves linearly from the right end of the straight run back to
      its left end. */
  lemma PathBackRun(phase: real, rect: Rect, pathRadius: real, trig: Trig)
    requires 3.0 < phase < 4.0
    ensures var lineSegment := rect.width - 2.0 * pathRadius;
      PathPosition(phase, rect, pathRadius, trig)
        == Point(pathRadius + lineSegment - (phase - 3.0) * lineSegment, rect.height)
  {
    ReduceInRange(phase, 5.0);
  }

  // ---------------------------------------------------------------------
  // Values derived from the scale and the view index
  // ---------------------------------------------------------------------

  /** The overlay's opacity: a view darkens as it shrinks. */
  function OverlayOpacity(scale: real): real {
    1.0 - scale
  }

  /** The side of a view's square frame: half the carousel's width. */
  function ItemSize(rect: Rect): real {
    rect.width / 2.0
  }

  /** The clip shape's corner radius: rounder as the view shrinks. */
  function CornerRadius(rect: Rect, scale: real): real {
    16.0 + ItemSize(rect) * (1.0 - scale)
  }

  /** For every scale a view can have (see `ViewScaleBounds`), the overlay's
      opacity lies in `[0, 0.95]` and the corner radius between 16 and
      `16 + 0.95 * itemSize`. */
  lemma DerivedFromScale(rect: Rect, scale: real)
    requires rect.width >= 0.0 && 0.05 <= scale <= 1.0
    ensures 0.0 <= OverlayOpacity(scale) <= 0.95
    ensures 16.0 <= CornerRadius(rect, scale) <= 16.0 + ItemSize(rect) * 0.95
  {
    var size := ItemSize(rect);
    var shrink := 1.0 - scale;
    MulMono(size, 0.0, shrink);
    MulMono(size, shrink, 0.95);
  }

  /** A larger view never has a rounder corner. */
  lemma CornerRadiusAntitone(rect: Rect, s: real, s': real)
    requires rect.width >= 0.0 && s <= s'
    ensures CornerRadius(rect, s') <= CornerRadius(rect, s)
  {
    MulMono(ItemSize(rect), 1.0 - s', 1.0 - s);
  }

  /** What `body(content:)` derives from a view's scale: the overlay of a
      view of a carousel of more than three views is at most 95% opaque,
      and its corner radius is at least 16. */
  lemma ViewDerivedValues(num: nat, index: real, rect: Rect)
    requires num > 3 && rect.width >= 0.0
    ensures ViewScale(num, index).Some?
    ensures 0.0 <= OverlayOpacity(ViewScale(num, index).value) <= 0.95
    ensures 16.0 <= CornerRadius(rect, ViewScale(num, index).value) <= 16.0 + ItemSize(rect) * 0.95
  {
    ViewScaleBounds(num, index);
    DerivedFromScale(rect, ViewScale(num, index).value);
  }

  /** `colorRotation()`: the view's hue offset, a fraction
      `viewIndex / numberOfViews` of a full turn. The views of a carousel get
      offsets in `[0, 2 pi)`, evenly spaced `2 pi / num` apart. */
  function ColorRotation(viewIndex: int, num: nat, pi: real): (r: real)
    requires num > 0
    ensures r * num as real == viewIndex as real * pi * 2.0
    ensures 0 <= viewIndex < num && pi > 0.0 ==> 0.0 <= r < 2.0 * pi
  {
    TurnFraction(viewIndex, num, pi);
    viewIndex as real / num as real * pi * 2.0
  }

  lemma TurnFraction(viewIndex: int, num: nat, pi: real)
    requires num > 0
    ensures var r := viewIndex as real / num as real * pi * 2.0;
      r * num as real == viewIndex as real * pi * 2.0
      && (0 <= viewIndex < num && pi > 0.0 ==> 0.0 <= r < 2.0 * pi)
  {
    var f := viewIndex as real / num as real;
    assert f * num as real == viewIndex as real;
    if 0 <= viewIndex < num && pi > 0.0 {
      assert 0.0 <= f < 1.0 by {
        if f < 0.0 { MulStrict(num as real, f, 0.0); }
        if f >= 1.0 { MulMono(num as real, 1.0, f); }
      }
      MulMono(2.0 * pi, 0.0, f);
      MulStrict(2.0 * pi, f, 1.0);
    }
  }

  /** Consecutive views' hue offsets differ by exactly `2 pi / num`. */
  lemma HueSpacing(viewIndex: int, num: nat, pi: real)
    requires num > 0
    ensures ColorRotation(viewIndex + 1, num, pi) - ColorRotation(viewIndex, num, pi)
      == 2.0 * pi / num as real
  {
    var n := num as real;
    var a := ColorRotation(viewIndex, num, pi);
    var b := ColorRotation(viewIndex + 1, num, pi);
    assert (b - a) * n == 2.0 * pi;
    assert (2.0 * pi / n) * n == 2.0 * pi;
    var g := 2.0 * pi / n;
    assert (b - a - g) * n == 0.0;
  }
}
