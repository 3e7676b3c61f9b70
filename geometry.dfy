/** The geometry kernel of an outside label: the text rectangle centred on the
    label's anchor, the label rectangle grown by border and padding, its four
    corners and the tolerant point-in-rectangle test used for collisions.
    Coordinates are canvas coordinates: x grows to the right, y grows down. */
module Geometry {
  import opened Wrappers

  datatype Point = Point(x: real, y: real)

  /** Measured size of the text block. */
  datatype Size = Size(width: real, height: real)

  datatype Rect = Rect(x: real, y: real, width: real, height: real)

  /** Padding as the chart library normalises it: `width` and `height` are the
      totals of both sides (left + right, top + bottom). */
  datatype Padding = Padding(top: real, left: real, width: real, height: real)

  /** The part of the resolved label style that the geometry uses. */
  datatype Style = Style(borderWidth: real, padding: Padding)

  /** Tolerance used by the collision test when the caller gives none. */
  const DefaultTolerance: real := 5.0

  function Abs(x: real): real
  {
    if x < 0.0 then -x else x
  }

  /** The centre of a rectangle. */
  function Centre(r: Rect): Point
  {
    Point(r.x + r.width / 2.0, r.y + r.height / 2.0)
  }

  /** The text rectangle: a box of the measured size centred on `center`. */
  function TextRect(center: Point, size: Size): (r: Rect)
    ensures r.width == size.width && r.height == size.height
    ensures Centre(r) == center
  {
    Rect(center.x - size.width / 2.0, center.y - size.height / 2.0, size.width, size.height)
  }

  /** The label rectangle: the text rectangle grown by the border on every side
      and by the padding (left/top before the text, the padding totals in the
      dimensions). */
  function LabelRect(text: Rect, style: Style): (r: Rect)
    ensures text.x - r.x == style.padding.left + style.borderWidth
    ensures text.y - r.y == style.padding.top + style.borderWidth
    ensures (r.x + r.width) - (text.x + text.width)
            == (style.padding.width - style.padding.left) + style.borderWidth
    ensures (r.y + r.height) - (text.y + text.height)
            == (style.padding.height - style.padding.top) + style.borderWidth
  {
    var width := text.width + 2.0 * style.borderWidth + style.padding.width;
    var height := text.height + 2.0 * style.borderWidth + style.padding.height;
    Rect(text.x - style.padding.left - style.borderWidth,
         text.y - style.padding.top - style.borderWidth,
         width, height)
  }

  /** `outer` covers `inner`. */
  predicate Encloses(outer: Rect, inner: Rect)
  {
    outer.x <= inner.x && inner.x + inner.width <= outer.x + outer.width &&
    outer.y <= inner.y && inner.y + inner.height <= outer.y + outer.height
  }

  /** With a non-negative border and padding on each side the label rectangle
      covers the text rectangle. */
  lemma LabelRectEnclosesText(text: Rect, style: Style)
    requires style.borderWidth >= 0.0
    requires style.padding.left >= 0.0 && style.padding.width >= style.padding.left
    requires style.padding.top >= 0.0 && style.padding.height >= style.padding.top
    ensures Encloses(LabelRect(text, style), text)
  {
  }

  /** The four corners of a rectangle: top-left, top-right, bottom-right,
      bottom-left. */
  function Corners(r: Rect): (ps: seq<Point>)
    ensures |ps| == 4
  {
    [Point(r.x, r.y),
     Point(r.x + r.width, r.y),
     Point(r.x + r.width, r.y + r.height),
     Point(r.x, r.y + r.height)]
  }

  /** For a rectangle of positive size the corners run clockwise on the canvas
      starting at the top-left one, which is the smallest in both coordinates,
      and they span exactly the rectangle. */
  lemma CornersClockwise(r: Rect)
    requires r.width > 0.0 && r.height > 0.0
    ensures var ps := Corners(r);
      ps[0].y == ps[1].y && ps[0].x < ps[1].x &&
      ps[1].x == ps[2].x && ps[1].y < ps[2].y &&
      ps[2].y == ps[3].y && ps[3].x < ps[2].x &&
      ps[3].x == ps[0].x && ps[0].y < ps[3].y
    ensures forall p :: 0 <= p < 4 ==>
      Corners(r)[0].x <= Corners(r)[p].x && Corners(r)[0].y <= Corners(r)[p].y
    ensures Corners(r)[0] == Point(r.x, r.y)
    ensures Corners(r)[2] == Point(r.x + r.width, r.y + r.height)
  {
  }

  /** Tolerance actually used: a missing or zero argument is falsy and becomes
      the default. */
  function Tolerance(offset: Option<real>): (t: real)
    ensures offset == None || offset == Some(0.0) ==> t == DefaultTolerance
    ensures offset.Some? && offset.value != 0.0 ==> t == offset.value
  {
    if offset.None? || offset.value == 0.0 then DefaultTolerance else offset.value
  }

  /** Point-in-rectangle test with a soft margin of `Tolerance(offset)` on every
      side. */
  predicate ContainsPoint(r: Rect, point: Point, offset: Option<real>)
  {
    var t := Tolerance(offset);
    r.x - t <= point.x && point.x <= r.x + r.width + t &&
    r.y - t <= point.y && point.y <= r.y + r.height + t
  }

  /** Zero behaves like a missing tolerance, and both like the default 5. */
  lemma ZeroToleranceIsDefault(r: Rect, point: Point)
    ensures ContainsPoint(r, point, Some(0.0)) == ContainsPoint(r, point, None)
    ensures ContainsPoint(r, point, None) == ContainsPoint(r, point, Some(DefaultTolerance))
  {
  }

  /** On the line through a rectangle, a point `m` outside one of its edges is
      contained exactly when `m` is at most the tolerance. */
  lemma ContainsPointMargin(r: Rect, offset: Option<real>, m: real, along: real)
    requires r.width >= 0.0 && r.height >= 0.0 && Tolerance(offset) >= 0.0 && m >= 0.0
    ensures r.y <= along <= r.y + r.height ==>
      (ContainsPoint(r, Point(r.x - m, along), offset) <==> m <= Tolerance(offset))
    ensures r.y <= along <= r.y + r.height ==>
      (ContainsPoint(r, Point(r.x + r.width + m, along), offset) <==> m <= Tolerance(offset))
    ensures r.x <= along <= r.x + r.width ==>
      (ContainsPoint(r, Point(along, r.y - m), offset) <==> m <= Tolerance(offset))
    ensures r.x <= along <= r.x + r.width ==>
      (ContainsPoint(r, Point(along, r.y + r.height + m), offset) <==> m <= Tolerance(offset))
  {
  }

  /** A rectangle of non-negative size contains its own corners. */
  lemma CornersContained(r: Rect, offset: Option<real>)
    requires r.width >= 0.0 && r.height >= 0.0 && Tolerance(offset) >= 0.0
    ensures forall p :: 0 <= p < 4 ==> ContainsPoint(r, Corners(r)[p], offset)
  {
  }

  /** The square of the Euclidean distance between (x1, y1) and (x2, y2); the
      square root of the source is left out, comparisons use the square. */
  function SquaredDistance(x1: real, y1: real, x2: real, y2: real): (r: real)
    ensures r >= 0.0
  {
    (x2 - x1) * (x2 - x1) + (y2 - y1) * (y2 - y1)
  }

  /** "distance <= bound" for the distance whose square is `sq`. */
  predicate DistAtMost(sq: real, bound: real)
  {
    bound >= 0.0 && sq <= bound * bound
  }

  /** "distance < bound" for the distance whose square is `sq`. */
  predicate DistBelow(sq: real, bound: real)
  {
    bound > 0.0 && sq < bound * bound
  }

  lemma SquareMonotone(a: real, b: real)
    requires 0.0 <= a <= b
    ensures a * a <= b * b
  {
  }

  lemma SquareStrictlyMonotone(a: real, b: real)
    requires 0.0 <= a < b
    ensures a * a < b * b
  {
    var aa, ab, bb := a * a, a * b, b * b;
    assert aa <= ab;
    assert ab < bb;
  }

  /** The square-based comparisons agree with comparing the distance itself. */
  lemma SqrtFreeComparisons(sq: real, d: real, bound: real)
    requires d >= 0.0 && d * d == sq
    ensures d <= bound <==> DistAtMost(sq, bound)
    ensures d < bound <==> DistBelow(sq, bound)
  {
    if bound >= 0.0 {
      if d <= bound { SquareMonotone(d, bound); } else { SquareStrictlyMonotone(bound, d); }
      if d < bound { SquareStrictlyMonotone(d, bound); } else { SquareMonotone(bound, d); }
    }
  }
}
