/** The collision resolver: the corner-overlap test against labels placed
    earlier in the pass, the checks of the polar-aware mode, and the two
    resolution loops. Mode A ("generic") pushes the label away from its anchor
    until the corner test finds no placed label. Mode B ("polar-aware"), under
    an iteration budget, checks in every iteration first the canvas bounds and
    the placed labels, moving vertically on failure, and then the chart body
    and the clearance band, moving horizontally on failure. */
module Resolver {
  import opened Wrappers
  import opened Geometry
  import opened Anchor

  /** Iteration budget of mode B. */
  const UpdateLoopLimit: nat := 300

  /** Step of the mode B movers, in pixels. */
  const MoveStep: real := 2.0

  /** How a resolution ended: collision-free, out of mode B's budget, or out of
      the fuel that bounds mode A in this model. */
  datatype Outcome = Placed | Abandoned | OutOfFuel

  /** Corner `p` of either rectangle lies in the other (default tolerance). */
  predicate CornerHitAt(rect: Rect, other: Rect, p: nat)
    requires p < 4
  {
    ContainsPoint(other, Corners(rect)[p], None) || ContainsPoint(rect, Corners(other)[p], None)
  }

  /** The symmetric corner test between two label rectangles. */
  predicate CornerHit(rect: Rect, other: Rect)
  {
    exists p :: 0 <= p < 4 && CornerHitAt(rect, other, p)
  }

  /** Some label among the first `n` elements (elements without a label are
      skipped) collides with `rect`. */
  predicate CollidesWithPlaced(rect: Rect, elements: seq<Option<Rect>>, n: nat)
    requires n <= |elements|
  {
    exists e :: 0 <= e < n && elements[e].Some? && CornerHit(rect, elements[e].value)
  }

  /** The corner test is symmetric in its two rectangles. */
  lemma CornerHitSymmetric(a: Rect, b: Rect)
    ensures CornerHit(a, b) == CornerHit(b, a)
  {
    if CornerHit(a, b) {
      var p :| 0 <= p < 4 && CornerHitAt(a, b, p);
      assert CornerHitAt(b, a, p);
    }
    if CornerHit(b, a) {
      var p :| 0 <= p < 4 && CornerHitAt(b, a, p);
      assert CornerHitAt(a, b, p);
    }
  }

  /** `a`, grown by `t` on every side, meets `b`. */
  predicate Overlap(a: Rect, b: Rect, t: real)
  {
    a.x - t <= b.x + b.width && b.x <= a.x + a.width + t &&
    a.y - t <= b.y + b.height && b.y <= a.y + a.height + t
  }

  /** A corner hit means the rectangles, one grown by the tolerance, meet. */
  lemma CornerHitMeansOverlap(a: Rect, b: Rect)
    requires a.width >= 0.0 && a.height >= 0.0 && b.width >= 0.0 && b.height >= 0.0
    ensures CornerHit(a, b) ==> Overlap(a, b, DefaultTolerance)
  {
    if CornerHit(a, b) {
      var p :| 0 <= p < 4 && CornerHitAt(a, b, p);
    }
  }

  /** The converse fails: a wide flat label crossing a tall narrow one has no
      corner inside the other, so the test lets the two overlap. */
  lemma CornerTestMissesCrossing()
    ensures var wide := Rect(0.0, 40.0, 100.0, 10.0);
            var tall := Rect(40.0, 0.0, 10.0, 100.0);
            Overlap(wide, tall, 0.0) && !CornerHit(wide, tall)
  {
    var wide := Rect(0.0, 40.0, 100.0, 10.0);
    var tall := Rect(40.0, 0.0, 10.0, 100.0);
    forall p | 0 <= p < 4 ensures !CornerHitAt(wide, tall, p) {
    }
  }

  /** The overlap loop of both modes: every placed label's corner test against
      `rect`, skipping elements without a label. */
  method CheckOverlaps(rect: Rect, elements: seq<Option<Rect>>, max: nat) returns (valid: bool)
    requires max <= |elements|
    ensures valid <==> !CollidesWithPlaced(rect, elements, max)
  {
    valid := true;
    var rectPoints := Corners(rect);
    var e := 0;
    while e < max
      invariant 0 <= e <= max
      invariant valid <==> !CollidesWithPlaced(rect, elements, e)
    {
      var element := elements[e];
      if element.Some? {
        var elPoints := Corners(element.value);
        ghost var validBefore := valid;
        var p := 0;
        while p < |rectPoints|
          invariant 0 <= p <= 4
          invariant valid == validBefore
          invariant forall q :: 0 <= q < p ==> !CornerHitAt(rect, element.value, q)
        {
          if ContainsPoint(element.value, rectPoints[p], None) {
            valid := false;
            assert CornerHitAt(rect, element.value, p);
            break;
          }
          if ContainsPoint(rect, elPoints[p], None) {
            valid := false;
            assert CornerHitAt(rect, element.value, p);
            break;
          }
          p := p + 1;
        }
        assert valid ==> !CornerHit(rect, element.value);
      }
      e := e + 1;
    }
  }

  /** Every corner of `rect` is within the canvas vertically. */
  predicate CornersWithinCanvas(rect: Rect, canvasHeight: real)
  {
    forall p :: 0 <= p < 4 ==> 0.0 <= Corners(rect)[p].y <= canvasHeight
  }

  /** For a rectangle of non-negative height, the corner condition says the
      whole rectangle is within the canvas vertically. */
  lemma CornersWithinCanvasIff(rect: Rect, canvasHeight: real)
    requires rect.height >= 0.0
    ensures CornersWithinCanvas(rect, canvasHeight)
            <==> 0.0 <= rect.y && rect.y + rect.height <= canvasHeight
  {
    if 0.0 <= rect.y && rect.y + rect.height <= canvasHeight {
      forall p | 0 <= p < 4 ensures 0.0 <= Corners(rect)[p].y <= canvasHeight {
      }
    }
    if CornersWithinCanvas(rect, canvasHeight) {
      assert Corners(rect)[0].y == rect.y;
      assert Corners(rect)[2].y == rect.y + rect.height;
    }
  }

  /** The canvas loop of mode B's vertical check. */
  method CheckWithinCanvas(rectPoints: seq<Point>, canvasHeight: real) returns (validVsY: bool)
    ensures validVsY <==> forall p :: 0 <= p < |rectPoints| ==> 0.0 <= rectPoints[p].y <= canvasHeight
  {
    validVsY := true;
    var p := 0;
    while p < |rectPoints|
      invariant 0 <= p <= |rectPoints|
      invariant forall q :: 0 <= q < p ==> 0.0 <= rectPoints[q].y <= canvasHeight
    {
      if rectPoints[p].y < 0.0 || rectPoints[p].y > canvasHeight {
        validVsY := false;
        break;
      }
      p := p + 1;
    }
  }

  /** `point` is at distance at most the outer radius from the arc centre. */
  predicate InsideArc(arc: Arc, point: Point)
  {
    DistAtMost(SquaredDistance(arc.x, arc.y, point.x, point.y), arc.outerRadius)
  }

  /** The corner loop of mode B's horizontal check. */
  method CheckOutsideArc(rectPoints: seq<Point>, arc: Arc) returns (validVsX: bool)
    ensures validVsX <==> forall p :: 0 <= p < |rectPoints| ==> !InsideArc(arc, rectPoints[p])
  {
    validVsX := true;
    var p := 0;
    while p < |rectPoints|
      invariant 0 <= p <= |rectPoints|
      invariant forall q :: 0 <= q < p ==> !InsideArc(arc, rectPoints[q])
    {
      var pointDistance := SquaredDistance(arc.x, arc.y, rectPoints[p].x, rectPoints[p].y);
      if DistAtMost(pointDistance, arc.outerRadius) {
        validVsX := false;
        break;
      }
      p := p + 1;
    }
  }

  /** The centre keeps the clearance band: distance to the arc centre at least
      half the label width plus the outer radius plus the stretch. */
  predicate CentreClear(center: Center, labelRect: Rect, stretch: real)
  {
    !DistBelow(SquaredDistance(center.arc.x, center.arc.y, center.x, center.y),
               labelRect.width / 2.0 + center.arc.outerRadius + stretch)
  }

  /** What a mode B placement guarantees. */
  predicate PolarPlacementOk(center: Center, labelRect: Rect, stretch: real,
                             elements: seq<Option<Rect>>, max: nat, canvasHeight: real)
    requires max <= |elements|
  {
    CornersWithinCanvas(labelRect, canvasHeight)
    && !CollidesWithPlaced(labelRect, elements, max)
    && (forall p :: 0 <= p < 4 ==> !InsideArc(center.arc, Corners(labelRect)[p]))
    && CentreClear(center, labelRect, stretch)
  }

  /** The label rectangle of a centre. */
  function LabelRectAt(center: Center, size: Size, style: Style): Rect
  {
    LabelRect(TextRect(center.Position(), size), style)
  }

  /** Mode B, the polar-aware loop of `update`. */
  method ResolvePolar(start: Center, size: Size, style: Style, stretch: real,
                      elements: seq<Option<Rect>>, max: nat, canvasHeight: real,
                      naturalAbove: (Arc, real) -> bool)
    returns (center: Center, textRect: Rect, labelRect: Rect, updateLoop: nat, outcome: Outcome)
    requires max <= |elements|
    ensures textRect == TextRect(center.Position(), size) && labelRect == LabelRect(textRect, style)
    ensures 1 <= updateLoop <= UpdateLoopLimit + 1
    ensures outcome == Placed || outcome == Abandoned
    ensures outcome == Abandoned <==> updateLoop == UpdateLoopLimit + 1
    ensures outcome == Placed ==>
      PolarPlacementOk(center, labelRect, stretch, elements, max, canvasHeight)
    ensures center.arc == start.arc && center.anchor == start.anchor
    ensures center.flipX == (start.flipX || updateLoop > UpdateLoopLimit / 3)
    ensures PolarPlacementOk(start, LabelRectAt(start, size, style), stretch, elements, max, canvasHeight)
            ==> outcome == Placed && updateLoop == 1 && center == start
  {
    center := start;
    textRect := TextRect(center.Position(), size);
    labelRect := LabelRect(textRect, style);
    updateLoop := 0;
    var valid := false;
    while !valid
      invariant updateLoop <= UpdateLoopLimit
      invariant center.arc == start.arc && center.anchor == start.anchor
      invariant center.flipX == (start.flipX || updateLoop > UpdateLoopLimit / 3)
      invariant valid ==> 1 <= updateLoop
      invariant valid ==> textRect == TextRect(center.Position(), size)
      invariant valid ==> labelRect == LabelRect(textRect, style)
      invariant valid ==> PolarPlacementOk(center, labelRect, stretch, elements, max, canvasHeight)
      invariant PolarPlacementOk(start, LabelRectAt(start, size, style), stretch, elements, max, canvasHeight)
                ==> center == start && (if valid then updateLoop == 1 else updateLoop == 0)
      decreases UpdateLoopLimit - updateLoop
    {
      textRect := TextRect(center.Position(), size);
      labelRect := LabelRect(textRect, style);
      var rectPoints := Corners(labelRect);
      valid := true;

      updateLoop := updateLoop + 1;
      if updateLoop > UpdateLoopLimit {
        break;
      }
      if updateLoop > UpdateLoopLimit / 3 {
        center := center.(flipX := true);
      }

      // Vertical check: on the canvas and clear of the placed labels.
      var validVsY := CheckWithinCanvas(rectPoints, canvasHeight);
      if validVsY {
        validVsY := CheckOverlaps(labelRect, elements, max);
      }
      if !validVsY {
        center := MoveVertically(center, MoveStep, naturalAbove(center.arc, center.dSquared));
        valid := validVsY;
        continue;
      }

      // Horizontal check: clear of the chart body and of the clearance band.
      var validVsX := CheckOutsideArc(rectPoints, center.arc);
      if validVsX {
        var pointDistance := SquaredDistance(center.arc.x, center.arc.y, center.x, center.y);
        if DistBelow(pointDistance, labelRect.width / 2.0 + center.arc.outerRadius + stretch) {
          validVsX := false;
        }
      }
      if !validVsX {
        center := MoveHorizontally(center, MoveStep);
        valid := validVsX;
        continue;
      }
    }
    outcome := if updateLoop > UpdateLoopLimit then Abandoned else Placed;
  }

  /** The centre after `k` pushes of mode A: `moveFromAnchor(c, 1)` with the
      label offset added back each time. */
  function Pushed(start: Center, offset: Point, moveFromAnchor: (Center, real) -> Center, k: nat): Center
  {
    if k == 0 then start
    else moveFromAnchor(Pushed(start, offset, moveFromAnchor, k - 1), 1.0).Shifted(offset)
  }

  /** Mode A, the generic loop of `update`. The source loop has no bound;
      here it stops after `fuel` pushes. */
  method ResolveGeneric(start: Center, offset: Point, size: Size, style: Style,
                        elements: seq<Option<Rect>>, max: nat,
                        moveFromAnchor: (Center, real) -> Center, fuel: nat)
    returns (center: Center, textRect: Rect, labelRect: Rect, moves: nat, outcome: Outcome)
    requires max <= |elements|
    ensures outcome == Placed || outcome == OutOfFuel
    ensures moves <= fuel && center == Pushed(start, offset, moveFromAnchor, moves)
    ensures textRect == TextRect(center.Position(), size) && labelRect == LabelRect(textRect, style)
    ensures forall k :: 0 <= k < moves ==>
      CollidesWithPlaced(LabelRectAt(Pushed(start, offset, moveFromAnchor, k), size, style), elements, max)
    ensures outcome == Placed <==> !CollidesWithPlaced(labelRect, elements, max)
    ensures outcome == OutOfFuel ==> moves == fuel
  {
    center := start;
    textRect := TextRect(center.Position(), size);
    labelRect := LabelRect(textRect, style);
    moves := 0;
    var valid := false;
    while !valid
      invariant moves <= fuel && center == Pushed(start, offset, moveFromAnchor, moves)
      invariant forall k :: 0 <= k < moves ==>
        CollidesWithPlaced(LabelRectAt(Pushed(start, offset, moveFromAnchor, k), size, style), elements, max)
      invariant valid ==> textRect == TextRect(center.Position(), size)
      invariant valid ==> labelRect == LabelRect(textRect, style)
      invariant valid ==> !CollidesWithPlaced(labelRect, elements, max)
      decreases fuel - moves, if valid then 0 else 1
    {
      textRect := TextRect(center.Position(), size);
      labelRect := LabelRect(textRect, style);
      valid := CheckOverlaps(labelRect, elements, max);
      if !valid {
        if moves == fuel {
          break;
        }
        center := moveFromAnchor(center, 1.0).Shifted(offset);
        moves := moves + 1;
      }
    }
    outcome := if valid then Placed else OutOfFuel;
  }
}
