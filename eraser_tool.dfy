/** The eraser tool: a press deletes the topmost element near the pointer, and dragging
    deletes every element near any point of the path dragged so far; the deletions of one
    gesture are committed to the history once, on release. */
module EraserTool {
  import opened Base
  import opened Types
  import opened Geometry
  import opened ToolContext
  import opened CanvasStore
  import ArrowTool

  /** How close, inclusive, the eraser must come to an element to delete it. */
  const EraserRadius: real := 20.0

  // ---------------------------------------------------------------- distance to a segment
  //
  // `distanceToLineSegment(px, py, x1, y1, x2, y2)` works on the offsets A = px - x1,
  // B = py - y1 (pointer from the start) and C = x2 - x1, D = y2 - y1 (segment direction);
  // everything below is stated on those offsets, and squared instead of square-rooted.

  function Dot(A: real, B: real, C: real, D: real): real { A * C + B * D }

  function LenSq(C: real, D: real): real { C * C + D * D }

  /** The projection parameter `dot / lenSq`, or -1 for a zero-length segment.  The code tests
      `lenSq !== 0`; a sum of two squares is never negative, so the test is written `> 0`. */
  function Param(dot: real, lenSq: real): real
  {
    if lenSq > 0.0 then dot / lenSq else -1.0
  }

  /** The parameter of the point actually measured to: the projection clamped to [0, 1]
      (a parameter below 0 measures to the start, above 1 to the end). */
  function ClosestParam(A: real, B: real, C: real, D: real): (t: real)
    ensures 0.0 <= t <= 1.0
    ensures LenSq(C, D) == 0.0 ==> t == 0.0
  {
    var t := Param(Dot(A, B, C, D), LenSq(C, D));
    if t < 0.0 then 0.0 else if t > 1.0 then 1.0 else t
  }

  /** The squared distance from the pointer to the point a fraction `t` along the segment. */
  function OffsetDistSq(A: real, B: real, C: real, D: real, t: real): real
  {
    (A - t * C) * (A - t * C) + (B - t * D) * (B - t * D)
  }

  /** The point a fraction `s` of the way from `a` to `b`. */
  function Lerp(a: Point, b: Point, s: real): Point
  {
    Point(a.x + s * (b.x - a.x), a.y + s * (b.y - a.y))
  }

  /** The square of `distanceToLineSegment(p.x, p.y, a.x, a.y, b.x, b.y)`. */
  function SegmentDistSq(p: Point, a: Point, b: Point): real
  {
    var A, B, C, D := p.x - a.x, p.y - a.y, b.x - a.x, b.y - a.y;
    OffsetDistSq(A, B, C, D, ClosestParam(A, B, C, D))
  }

  lemma DivFacts(dot: real, lenSq: real)
    requires lenSq > 0.0
    ensures Param(dot, lenSq) * lenSq == dot
    ensures Param(dot, lenSq) < 0.0 <==> dot < 0.0
    ensures Param(dot, lenSq) > 1.0 <==> dot > lenSq
  {
  }

  /** The squared distance along the line, as a quadratic in the parameter. */
  lemma Expand(A: real, B: real, C: real, D: real, s: real)
    ensures OffsetDistSq(A, B, C, D, s)
      == A * A + B * B - 2.0 * s * Dot(A, B, C, D) + s * s * LenSq(C, D)
  {
  }

  /** The three cases of minimising `s * s * len - 2 * s * dot` over [0, 1]. */
  lemma QuadBeforeStart(dot: real, len: real, s: real)
    requires len > 0.0 && dot < 0.0 && 0.0 <= s
    ensures s * s * len - 2.0 * s * dot >= 0.0
  {
    assert s * s >= 0.0;
    assert s * s * len >= 0.0;
    assert s * dot <= 0.0;
  }

  lemma QuadBeyondEnd(dot: real, len: real, s: real)
    requires dot > len > 0.0 && 0.0 <= s <= 1.0
    ensures s * s * len - 2.0 * s * dot >= len - 2.0 * dot
  {
    assert s * len <= len;
    var k := 2.0 * dot - (1.0 + s) * len;
    assert k > 0.0;
    assert (1.0 - s) * k >= 0.0;
  }

  lemma QuadInside(t: real, len: real, s: real)
    requires len > 0.0
    ensures s * s * len - 2.0 * s * (t * len) >= t * t * len - 2.0 * t * (t * len)
  {
    assert (s - t) * (s - t) >= 0.0;
    assert (s - t) * (s - t) * len >= 0.0;
  }

  /** On offsets: the measured point is the nearest point of the segment.  The second
      requires excludes no input: a sum of two squares is zero only when both are zero.  It
      is there to hand that fact to the solver, which does not find it unaided. */
  lemma {:induction false} NearestOnOffsets(A: real, B: real, C: real, D: real, s: real)
    requires 0.0 <= s <= 1.0
    requires LenSq(C, D) > 0.0 || (C == 0.0 && D == 0.0)
    ensures OffsetDistSq(A, B, C, D, ClosestParam(A, B, C, D)) <= OffsetDistSq(A, B, C, D, s)
  {
    var t := Param(Dot(A, B, C, D), LenSq(C, D));
    if !(LenSq(C, D) > 0.0) {
      assert t == -1.0;
      Expand(A, B, C, D, s);
      Expand(A, B, C, D, 0.0);
    } else {
      DivFacts(Dot(A, B, C, D), LenSq(C, D));
      Expand(A, B, C, D, s);
      if t < 0.0 {
        Expand(A, B, C, D, 0.0);
        QuadBeforeStart(Dot(A, B, C, D), LenSq(C, D), s);
      } else if t > 1.0 {
        Expand(A, B, C, D, 1.0);
        QuadBeyondEnd(Dot(A, B, C, D), LenSq(C, D), s);
      } else {
        Expand(A, B, C, D, t);
        QuadInside(t, LenSq(C, D), s);
      }
    }
  }

  lemma LerpOffset(p: Point, a: Point, b: Point, s: real)
    ensures DistSq(p, Lerp(a, b, s))
         == OffsetDistSq(p.x - a.x, p.y - a.y, b.x - a.x, b.y - a.y, s)
  {
    var q := Lerp(a, b, s);
    assert p.x - q.x == (p.x - a.x) - s * (b.x - a.x);
    assert p.y - q.y == (p.y - a.y) - s * (b.y - a.y);
  }

  /** The distance `distanceToLineSegment` measures is the distance to the nearest point of
      the segment: no point of the segment, endpoints included, is closer.  The second
      requires holds for every pair of points (the squared length is zero only when a == b),
      so the lemma covers every segment, a single point included. */
  lemma SegmentNearest(p: Point, a: Point, b: Point, s: real)
    requires 0.0 <= s <= 1.0
    requires LenSq(b.x - a.x, b.y - a.y) > 0.0 || a == b
    ensures SegmentDistSq(p, a, b) <= DistSq(p, Lerp(a, b, s))
    ensures SegmentDistSq(p, a, b) <= DistSq(p, a) && SegmentDistSq(p, a, b) <= DistSq(p, b)
  {
    NearestOnOffsets(p.x - a.x, p.y - a.y, b.x - a.x, b.y - a.y, s);
    LerpOffset(p, a, b, s);
    NearestOnOffsets(p.x - a.x, p.y - a.y, b.x - a.x, b.y - a.y, 0.0);
    LerpOffset(p, a, b, 0.0);
    assert Lerp(a, b, 0.0) == a;
    NearestOnOffsets(p.x - a.x, p.y - a.y, b.x - a.x, b.y - a.y, 1.0);
    LerpOffset(p, a, b, 1.0);
    assert Lerp(a, b, 1.0) == b;
  }

  /** The start of a segment is at distance zero from it, and its end at no more than zero,
      whatever the segment (no precondition on its length). */
  lemma SegmentEnds(a: Point, b: Point)
    ensures SegmentDistSq(a, a, b) <= 0.0 && SegmentDistSq(b, a, b) <= 0.0
  {
    var C, D := b.x - a.x, b.y - a.y;
    assert Dot(0.0, 0.0, C, D) == 0.0;
    if LenSq(C, D) > 0.0 {
      DivFacts(0.0, LenSq(C, D));
      DivFacts(LenSq(C, D), LenSq(C, D));
      assert Dot(C, D, C, D) == LenSq(C, D);
      assert ClosestParam(C, D, C, D) == 1.0;
    } else {
      assert Dot(C, D, C, D) == LenSq(C, D);
      assert ClosestParam(C, D, C, D) == 0.0;
    }
  }

  // ---------------------------------------------------------------- hit test

  /** `isPointNearElement`: whether the eraser at `p` touches `e`.
      - rectangles and text: the box grown by the radius on every side, edges included;
      - ellipses: the ellipse whose semi-axes are grown by the radius; a zero semi-axis makes
        the code divide by zero, and the comparison of the resulting infinity or NaN fails;
      - arrows and lines: the segment from the box's top-left to its bottom-right corner;
      - freehand strokes: any recorded point within the radius;
      - any other type: never. */
  predicate NearElement(p: Point, e: Element)
  {
    var r := EraserRadius;
    if e.kind == "rectangle" || e.kind == "text" then
      e.x - r <= p.x <= e.x + e.width + r && e.y - r <= p.y <= e.y + e.height + r
    else if e.kind == "ellipse" then
      var cx := e.x + e.width / 2.0;
      var cy := e.y + e.height / 2.0;
      var rx := e.width / 2.0 + r;
      var ry := e.height / 2.0 + r;
      rx != 0.0 && ry != 0.0 &&
      var nx := (p.x - cx) / rx;
      var ny := (p.y - cy) / ry;
      nx * nx + ny * ny <= 1.0
    else if e.kind == "arrow" || e.kind == "line" then
      SegmentDistSq(p, Point(e.x, e.y), Point(e.x + e.width, e.y + e.height)) <= r * r
    else if e.kind == "draw" || e.kind == "freedraw" then
      exists i :: 0 <= i < |e.points| && DistSq(p, e.points[i]) <= r * r
    else
      false
  }

  /** What the hit test is meant to catch: every point of a rectangle's or a text's box, the
      centre of an ellipse, both ends of an arrow's diagonal and every recorded point of a
      stroke are near their element; elements of any other type are never near. */
  lemma NearCovers(e: Element, p: Point)
    ensures (e.kind == "rectangle" || e.kind == "text") && InBox(p, BoxOf(e)) ==> NearElement(p, e)
    ensures e.kind == "ellipse" && e.width >= 0.0 && e.height >= 0.0 ==>
      NearElement(Point(e.x + e.width / 2.0, e.y + e.height / 2.0), e)
    ensures e.kind == "arrow" || e.kind == "line" ==>
      NearElement(Point(e.x, e.y), e) && NearElement(Point(e.x + e.width, e.y + e.height), e)
    ensures e.kind == "draw" || e.kind == "freedraw" ==>
      forall i :: 0 <= i < |e.points| ==> NearElement(e.points[i], e)
    ensures e.kind !in {"rectangle", "text", "ellipse", "arrow", "line", "draw", "freedraw"} ==>
      !NearElement(p, e)
  {
    SegmentEnds(Point(e.x, e.y), Point(e.x + e.width, e.y + e.height));
    if e.kind == "draw" || e.kind == "freedraw" {
      forall i | 0 <= i < |e.points|
        ensures NearElement(e.points[i], e)
      {
        assert DistSq(e.points[i], e.points[i]) == 0.0;
      }
    }
  }

  // ---------------------------------------------------------------- arrows and their diagonal

  // As written, an arrow is tested against the diagonal of its box.  An arrow dragged from
  // (100, 0) to (0, 100) gets the box (0, 0, 100, 100): the eraser on the arrow's own tail
  // misses it, and the eraser on the empty corner (0, 0), more than 70 away from the arrow,
  // deletes it.

  /** An arrow drawn from (100, 0) down-left to (0, 100) is kept with the box (0, 0, 100, 100),
      whose top-left to bottom-right diagonal is not the arrow. */
  lemma ArrowFinishedBox(preview: Element, freshId: string)
    requires preview.kind == "arrow" && preview.ends == Some(Ends(100.0, 0.0, 0.0, 100.0))
    ensures var arrow := ArrowTool.Finished(preview, freshId);
      && arrow.kind == "arrow" && arrow.ends == preview.ends
      && BoxOf(arrow) == Box(0.0, 0.0, 100.0, 100.0)
  {
    var tail, head := ArrowTool.Tail(preview.ends.value), ArrowTool.Head(preview.ends.value);
    assert tail == Point(100.0, 0.0) && head == Point(0.0, 100.0);
    assert Span(tail, head) == Box(0.0, 0.0, 100.0, 100.0);
  }

  /** Such an arrow is missed by the eraser at its own starting point (100, 0), which is
      50 * sqrt(2) > 20 away from the box diagonal, and hit at (0, 0), a corner the arrow
      never passes near. */
  lemma ArrowDiagonalMisses(arrow: Element)
    requires arrow.kind == "arrow" && arrow.ends == Some(Ends(100.0, 0.0, 0.0, 100.0))
    requires BoxOf(arrow) == Box(0.0, 0.0, 100.0, 100.0)
    ensures ArrowTool.Tail(arrow.ends.value) == Point(100.0, 0.0)
    ensures !NearElement(Point(100.0, 0.0), arrow) && NearElement(Point(0.0, 0.0), arrow)
  {
    var a, b := Point(arrow.x, arrow.y), Point(arrow.x + arrow.width, arrow.y + arrow.height);
    assert a == Point(0.0, 0.0) && b == Point(100.0, 100.0);
    NearArrow(Point(100.0, 0.0), arrow);
    NearArrow(Point(0.0, 0.0), arrow);
    TailOffDiagonal();
    SegmentEnds(Point(0.0, 0.0), Point(100.0, 100.0));
  }

  /** For an arrow the hit test is exactly the radius test against its box's diagonal. */
  lemma NearArrow(p: Point, e: Element)
    requires e.kind == "arrow"
    ensures NearElement(p, e)
        <==> SegmentDistSq(p, Point(e.x, e.y), Point(e.x + e.width, e.y + e.height)) <= 400.0
  {
  }

  lemma TailOffDiagonal()
    ensures SegmentDistSq(Point(100.0, 0.0), Point(0.0, 0.0), Point(100.0, 100.0)) == 5000.0
  {
    assert Dot(100.0, 0.0, 100.0, 100.0) == 10000.0 && LenSq(100.0, 100.0) == 20000.0;
    DivFacts(10000.0, 20000.0);
    assert ClosestParam(100.0, 0.0, 100.0, 100.0) == 0.5;
  }

  lemma CornerOffArrow()
    ensures SegmentDistSq(Point(0.0, 0.0), Point(100.0, 0.0), Point(0.0, 100.0)) == 5000.0
  {
    assert Dot(-100.0, 0.0, -100.0, 100.0) == 10000.0 && LenSq(-100.0, 100.0) == 20000.0;
    DivFacts(10000.0, 20000.0);
    assert ClosestParam(-100.0, 0.0, -100.0, 100.0) == 0.5;
  }

  /** The evidently intended test: an arrow that records its endpoints is tested against the
      segment between them; everything else as before. */
  predicate NearElementFixed(p: Point, e: Element)
  {
    if e.kind == "arrow" && e.ends.Some? then
      SegmentDistSq(p, ArrowTool.Tail(e.ends.value), ArrowTool.Head(e.ends.value))
        <= EraserRadius * EraserRadius
    else NearElement(p, e)
  }

  /** With the fix, the eraser on either end of any arrow deletes it, whichever way it was
      drawn, and the empty corner of the example no longer does; no other element's test
      changes. */
  lemma NearElementFixedEnds(e: Element, p: Point)
    ensures e.kind == "arrow" && e.ends.Some? ==>
      NearElementFixed(ArrowTool.Tail(e.ends.value), e)
      && NearElementFixed(ArrowTool.Head(e.ends.value), e)
    ensures !(e.kind == "arrow" && e.ends.Some?) ==> (NearElementFixed(p, e) <==> NearElement(p, e))
    ensures e.kind == "arrow" && e.ends == Some(Ends(100.0, 0.0, 0.0, 100.0)) ==>
      !NearElementFixed(Point(0.0, 0.0), e)
  {
    if e.ends.Some? {
      SegmentEnds(ArrowTool.Tail(e.ends.value), ArrowTool.Head(e.ends.value));
    }
    CornerOffArrow();
  }

  /** The loop over a stroke's points. */
  method NearAnyPoint(p: Point, pts: seq<Point>) returns (b: bool)
    ensures b <==> exists i :: 0 <= i < |pts| && DistSq(p, pts[i]) <= EraserRadius * EraserRadius
  {
    if |pts| == 0 {
      return false;
    }
    var i := 0;
    while i < |pts|
      invariant 0 <= i <= |pts|
      invariant forall j :: 0 <= j < i ==> DistSq(p, pts[j]) > EraserRadius * EraserRadius
    {
      if DistSq(p, pts[i]) <= EraserRadius * EraserRadius {
        return true;
      }
      i := i + 1;
    }
    return false;
  }

  /** `isPointNearElement`, with the stroke case as its loop. */
  method IsPointNearElement(p: Point, e: Element) returns (b: bool)
    ensures b == NearElement(p, e)
  {
    if e.kind == "draw" || e.kind == "freedraw" {
      b := NearAnyPoint(p, e.points);
    } else {
      b := NearElement(p, e);
    }
  }

  /** Some point of the eraser path touches the element. */
  predicate PathHits(path: seq<Point>, e: Element)
  {
    exists i :: 0 <= i < |path| && NearElement(path[i], e)
  }

  /** `intersectsWithEraserPath`. */
  method IntersectsPath(path: seq<Point>, e: Element) returns (b: bool)
    ensures b == PathHits(path, e)
  {
    var i := 0;
    while i < |path|
      invariant 0 <= i <= |path|
      invariant forall j :: 0 <= j < i ==> !NearElement(path[j], e)
    {
      var near := IsPointNearElement(path[i], e);
      if near {
        return true;
      }
      i := i + 1;
    }
    return false;
  }

  // ---------------------------------------------------------------- topmost element

  /** The index of the topmost (last) element near `p`, if any. */
  function Topmost(p: Point, els: seq<Element>): (r: Option<nat>)
    ensures r.Some? ==> r.value < |els|
  {
    if |els| == 0 then None
    else if NearElement(p, els[|els| - 1]) then Some(|els| - 1)
    else Topmost(p, els[..|els| - 1])
  }

  /** The chosen element is near, every element above it is not, and there is none only when
      no element is near. */
  lemma {:induction false} TopmostSpec(p: Point, els: seq<Element>)
    ensures Topmost(p, els).Some? ==>
      var i := Topmost(p, els).value;
      NearElement(p, els[i]) && forall j :: i < j < |els| ==> !NearElement(p, els[j])
    ensures Topmost(p, els).None? <==> forall j :: 0 <= j < |els| ==> !NearElement(p, els[j])
  {
    if |els| > 0 && !NearElement(p, els[|els| - 1]) {
      var init := els[..|els| - 1];
      TopmostSpec(p, init);
      assert forall j :: 0 <= j < |init| ==> init[j] == els[j];
    }
  }

  /** `getElementAtPoint`: the scan from the top of the stack down. */
  method ElementAtPoint(p: Point, els: seq<Element>) returns (r: Option<nat>)
    ensures r == Topmost(p, els)
  {
    var i := |els|;
    assert els[..i] == els;
    while i > 0
      invariant 0 <= i <= |els|
      invariant Topmost(p, els) == Topmost(p, els[..i])
    {
      var near := IsPointNearElement(p, els[i - 1]);
      if near {
        assert els[..i][..i - 1] == els[..i - 1];
        return Some(i - 1);
      }
      assert els[..i][..i - 1] == els[..i - 1];
      i := i - 1;
    }
    return None;
  }

  // ---------------------------------------------------------------- erasing along the path

  /** The ids a drag step erases: those of elements, in stacking order, not erased earlier in
      the gesture and touched by some point of the path. */
  function Erased(els: seq<Element>, path: seq<Point>, done: set<string>): set<string>
  {
    if |els| == 0 then {}
    else
      var e := els[|els| - 1];
      Erased(els[..|els| - 1], path, done)
      + (if e.id !in done && PathHits(path, e) then {e.id} else {})
  }

  /** An id is erased exactly when some element carrying it is touched by the path and the
      id was not erased earlier in the gesture. */
  lemma {:induction false} ErasedMembers(els: seq<Element>, path: seq<Point>, done: set<string>)
    ensures forall id :: id in Erased(els, path, done) <==>
      id !in done && exists i :: 0 <= i < |els| && els[i].id == id && PathHits(path, els[i])
  {
    if |els| > 0 {
      var init := els[..|els| - 1];
      ErasedMembers(init, path, done);
      assert forall j :: 0 <= j < |init| ==> init[j] == els[j];
    }
  }

  /** One more element of the scan. */
  lemma ErasedStep(els: seq<Element>, i: nat, path: seq<Point>, done: set<string>)
    requires i < |els|
    ensures Erased(els[..i + 1], path, done)
         == Erased(els[..i], path, done)
            + (if els[i].id !in done && PathHits(path, els[i]) then {els[i].id} else {})
  {
    assert els[..i + 1][..i] == els[..i];
  }

  /** What visiting element `i` does to the erased ids and to the surviving elements, given
      the ids erased before it. */
  lemma SweepStep(els: seq<Element>, i: nat, path: seq<Point>, done: set<string>, gone: set<string>)
    requires i < |els| && gone == Erased(els[..i], path, done)
    ensures els[i].id !in done + gone && PathHits(path, els[i]) ==>
      Erased(els[..i + 1], path, done) == gone + {els[i].id}
      && RemoveIds(RemoveIds(els, gone), {els[i].id}) == RemoveIds(els, Erased(els[..i + 1], path, done))
    ensures !(els[i].id !in done + gone && PathHits(path, els[i])) ==>
      Erased(els[..i + 1], path, done) == gone
  {
    ErasedStep(els, i, path, done);
    RemoveIdsTwice(els, gone, {els[i].id});
  }

  class Eraser {
    var isDragging: bool
    var deleted: set<string>
    var path: seq<Point>

    /** While idle nothing is remembered; while dragging the path is never empty. */
    ghost predicate Valid()
      reads this
    {
      (!isDragging ==> deleted == {} && path == []) && (isDragging ==> |path| > 0)
    }

    constructor()
      ensures !isDragging && deleted == {} && path == [] && Valid()
    {
      isDragging := false;
      deleted := {};
      path := [];
    }

    method Reset()
      modifies this
      ensures !isDragging && deleted == {} && path == [] && Valid()
    {
      isDragging := false;
      deleted := {};
      path := [];
    }

    /** A press starts a gesture at `p` and deletes the topmost element near it. */
    method OnMouseDown(ctx: Context, p: Point)
      requires ctx.Valid()
      modifies this, ctx
      ensures isDragging && path == [p] && Valid() && ctx.Valid()
      ensures Topmost(p, old(ctx.elements)).None? ==>
        deleted == {} && ctx.elements == old(ctx.elements)
      ensures Topmost(p, old(ctx.elements)).Some? ==>
        var id := old(ctx.elements)[Topmost(p, old(ctx.elements)).value].id;
        deleted == {id} && ctx.elements == RemoveId(old(ctx.elements), id)
      ensures ctx.committed == old(ctx.committed) && ctx.hasCanvas == old(ctx.hasCanvas)
      ensures ctx.selected == old(ctx.selected) && ctx.clipboard == old(ctx.clipboard)
      ensures ctx.currentTool == old(ctx.currentTool)
    {
      isDragging := true;
      deleted := {};
      path := [p];
      var els := ctx.elements;
      var hit := ElementAtPoint(p, els);
      if hit.Some? {
        var id := els[hit.value].id;
        deleted := deleted + {id};
        ctx.DeleteElement(id);
      }
    }

    /** A drag step extends the path and deletes every element of the canvas, as it was when
        the step began, that the whole path now touches and that this gesture has not deleted
        yet. */
    method OnMouseMove(ctx: Context, p: Point)
      requires Valid() && ctx.Valid()
      modifies this, ctx
      ensures Valid() && ctx.Valid() && isDragging == old(isDragging)
      ensures !old(isDragging) ==>
        path == old(path) && deleted == old(deleted) && ctx.elements == old(ctx.elements)
      ensures old(isDragging) ==>
        var gone := Erased(old(ctx.elements), old(path) + [p], old(deleted));
        && path == old(path) + [p]
        && deleted == old(deleted) + gone
        && ctx.elements == RemoveIds(old(ctx.elements), gone)
      ensures ctx.committed == old(ctx.committed) && ctx.hasCanvas == old(ctx.hasCanvas)
      ensures ctx.selected == old(ctx.selected) && ctx.clipboard == old(ctx.clipboard)
      ensures ctx.currentTool == old(ctx.currentTool)
    {
      if !isDragging {
        return;
      }
      path := path + [p];
      Sweep(ctx);
    }

    /** The scan of a drag step over the elements as they were when the step began. */
    method Sweep(ctx: Context)
      requires isDragging && Valid() && ctx.Valid()
      modifies this, ctx
      ensures isDragging && Valid() && ctx.Valid() && path == old(path)
      ensures deleted == old(deleted) + Erased(old(ctx.elements), path, old(deleted))
      ensures ctx.elements == RemoveIds(old(ctx.elements), Erased(old(ctx.elements), path, old(deleted)))
      ensures ctx.committed == old(ctx.committed) && ctx.hasCanvas == old(ctx.hasCanvas)
      ensures ctx.selected == old(ctx.selected) && ctx.clipboard == old(ctx.clipboard)
      ensures ctx.currentTool == old(ctx.currentTool)
    {
      var els := ctx.elements;
      var done := deleted;
      RemoveIdsNone(els, {});
      var i := 0;
      ghost var gone: set<string> := {};
      while i < |els|
        invariant 0 <= i <= |els| && ctx.Valid() && path == old(path)
        invariant gone == Erased(els[..i], path, done)
        invariant deleted == done + gone
        invariant ctx.elements == RemoveIds(els, gone)
        invariant isDragging && Valid()
        invariant ctx.committed == old(ctx.committed) && ctx.hasCanvas == old(ctx.hasCanvas)
        invariant ctx.selected == old(ctx.selected) && ctx.clipboard == old(ctx.clipboard)
        invariant ctx.currentTool == old(ctx.currentTool)
      {
        SweepStep(els, i, path, done, gone);
        Visit(ctx, els[i]);
        gone := Erased(els[..i + 1], path, done);
        i := i + 1;
      }
      assert els[..i] == els;
    }

    /** One element of a drag step: delete it if it is not deleted yet and the path
        touches it. */
    method Visit(ctx: Context, e: Element)
      requires Valid() && ctx.Valid()
      modifies this, ctx
      ensures Valid() && ctx.Valid()
      ensures isDragging == old(isDragging) && path == old(path)
      ensures e.id !in old(deleted) && PathHits(path, e) ==>
        deleted == old(deleted) + {e.id} && ctx.elements == RemoveIds(old(ctx.elements), {e.id})
      ensures !(e.id !in old(deleted) && PathHits(path, e)) ==>
        deleted == old(deleted) && ctx.elements == old(ctx.elements)
      ensures ctx.committed == old(ctx.committed) && ctx.hasCanvas == old(ctx.hasCanvas)
      ensures ctx.selected == old(ctx.selected) && ctx.clipboard == old(ctx.clipboard)
      ensures ctx.currentTool == old(ctx.currentTool)
    {
      if e.id !in deleted {
        var hits := IntersectsPath(path, e);
        if hits {
          deleted := deleted + {e.id};
          ctx.DeleteElement(e.id);
        }
      }
    }

    /** Release commits once if the gesture deleted anything, and ends the gesture. */
    method OnMouseUp(ctx: Context)
      modifies this, ctx
      ensures !isDragging && deleted == {} && path == [] && Valid()
      ensures ctx.committed == (if old(isDragging) && old(deleted) != {} && ctx.hasCanvas
                                then old(ctx.committed) + [ctx.elements] else old(ctx.committed))
      ensures ctx.elements == old(ctx.elements) && ctx.hasCanvas == old(ctx.hasCanvas)
      ensures ctx.selected == old(ctx.selected) && ctx.clipboard == old(ctx.clipboard)
      ensures ctx.currentTool == old(ctx.currentTool) && ctx.dirty == old(ctx.dirty)
    {
      if isDragging && |deleted| > 0 {
        ctx.CommitChanges();
      }
      Reset();
    }
  }
}
