/** The anchor model: a label's candidate centre together with the polar data
    of the slice it belongs to, and the two movement helpers the polar-aware
    resolution uses. */
module Anchor {
  import opened Geometry

  /** The slice a label is attached to: centre of the chart, angles, radii. */
  datatype Arc = Arc(x: real, y: real, startAngle: real, endAngle: real,
                     innerRadius: real, outerRadius: real)

  /** A candidate label centre. `dSquared` is the square of the radial distance
      `d` from the arc centre (the movers recompute it; the square root is left
      out), `anchor` the slice point the connector starts from, `copy` the last
      moved-to point the connector ends at, and `flipX` the direction flip of
      the vertical mover. */
  datatype Center = Center(x: real, y: real, dSquared: real, arc: Arc,
                           anchor: Point, flipX: bool, copy: Point)
  {
    function Position(): Point
    {
      Point(x, y)
    }

    /** The same centre displaced by `delta` (the label offset added after each
        positioning step). */
    function Shifted(delta: Point): (c: Center)
      ensures c.Position() == Point(x + delta.x, y + delta.y)
      ensures c.arc == arc && c.anchor == anchor && c.flipX == flipX
      ensures c.dSquared == dSquared && c.copy == copy
    {
      this.(x := x + delta.x, y := y + delta.y)
    }
  }

  /** Step `dist` horizontally away from the arc centre (a centre exactly level
      with it moves right). Only `x`, the distance and the connector end
      change. */
  function MoveHorizontally(center: Center, dist: real): (r: Center)
    ensures r.y == center.y && r.arc == center.arc
    ensures r.anchor == center.anchor && r.flipX == center.flipX
    ensures r.copy == r.Position()
    ensures r.dSquared == SquaredDistance(center.arc.x, center.arc.y, r.x, r.y)
    ensures Abs(r.x - center.x) == Abs(dist)
    ensures dist >= 0.0 ==> Abs(r.x - center.arc.x) == Abs(center.x - center.arc.x) + dist
    ensures dist >= 0.0 ==> (r.x < center.arc.x <==> center.x < center.arc.x)
  {
    var arc := center.arc;
    var newX := if center.x < arc.x then center.x - dist else center.x + dist;
    Center(newX, center.y, SquaredDistance(arc.x, arc.y, newX, center.y), arc,
           center.anchor, center.flipX, Point(newX, center.y))
  }

  /** Step `dist` vertically. `naturalAbove` says whether the slice's natural
      label point (arc centre plus `d` along the mid-angle) lies above the arc
      centre on the canvas; it decides the direction, reversed by `flipX`.
      Only `y`, the distance and the connector end change. */
  function MoveVertically(center: Center, dist: real, naturalAbove: bool): (r: Center)
    ensures r.x == center.x && r.arc == center.arc
    ensures r.anchor == center.anchor && r.flipX == center.flipX
    ensures r.copy == r.Position()
    ensures r.dSquared == SquaredDistance(center.arc.x, center.arc.y, r.x, r.y)
    ensures r.y == center.y + dist || r.y == center.y - dist
  {
    var arc := center.arc;
    var down := (naturalAbove && !center.flipX) || (!naturalAbove && center.flipX);
    var newY := if down then center.y + dist else center.y - dist;
    Center(center.x, newY, SquaredDistance(arc.x, arc.y, center.x, newY), arc,
           center.anchor, center.flipX, Point(center.x, newY))
  }

  /** Toggling `flipX` reverses the vertical step. */
  lemma FlipReversesVerticalMove(center: Center, dist: real, naturalAbove: bool)
    ensures var flipped := center.(flipX := !center.flipX);
      MoveVertically(flipped, dist, naturalAbove).y - center.y
        == -(MoveVertically(center, dist, naturalAbove).y - center.y)
  {
  }

  /** Without the flip, a label whose natural point is above the arc centre is
      stepped down the canvas (towards larger y), and one below is stepped up;
      the flip swaps the two. */
  lemma VerticalMoveDirection(center: Center, dist: real, naturalAbove: bool)
    requires dist > 0.0
    ensures MoveVertically(center, dist, naturalAbove).y > center.y
            <==> naturalAbove != center.flipX
  {
  }
}
