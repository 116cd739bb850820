/**
 * Floating-point rectangles with pygame's FRect semantics, 2-D vectors and
 * Python's truncating int() conversion. Every other module measures the
 * world with these.
 */
module Geometry {

  /** pygame's Vector2: a point or a displacement. */
  datatype Vec = Vec(x: real, y: real) {
    function Plus(o: Vec): Vec { Vec(x + o.x, y + o.y) }
    function Minus(o: Vec): Vec { Vec(x - o.x, y - o.y) }
    function Scale(k: real): Vec { Vec(k * x, k * y) }
  }

  const Zero: Vec := Vec(0.0, 0.0)

  function Min(a: real, b: real): real { if a <= b then a else b }
  function Max(a: real, b: real): real { if a >= b then a else b }
  function Abs(a: real): real { if a >= 0.0 then a else -a }

  /**
   * pygame's FRect: the top-left corner (x, y) and a size (w, h). The size
   * may be zero or negative; every edge accessor reads the stored fields
   * without normalising them, as pygame does.
   */
  datatype Rect = Rect(x: real, y: real, w: real, h: real) {
    function Left(): real { x }
    function Right(): real { x + w }
    function Top(): real { y }
    function Bottom(): real { y + h }
    function CenterX(): real { x + w / 2.0 }
    function CenterY(): real { y + h / 2.0 }
    function Center(): Vec { Vec(CenterX(), CenterY()) }
    function TopLeft(): Vec { Vec(x, y) }
    function TopRight(): Vec { Vec(x + w, y) }
    function BottomLeft(): Vec { Vec(x, y + h) }
    function BottomRight(): Vec { Vec(x + w, y + h) }

    // Assigning one edge moves the rectangle and keeps its size.
    function WithLeft(v: real): Rect { this.(x := v) }
    function WithRight(v: real): Rect { this.(x := v - w) }
    function WithTop(v: real): Rect { this.(y := v) }
    function WithBottom(v: real): Rect { this.(y := v - h) }
    function WithCenterX(v: real): Rect { this.(x := v - w / 2.0) }
    function WithCenterY(v: real): Rect { this.(y := v - h / 2.0) }
    function WithCenter(c: Vec): Rect { this.(x := c.x - w / 2.0, y := c.y - h / 2.0) }
    function WithTopLeft(p: Vec): Rect { this.(x := p.x, y := p.y) }
    function WithMidLeft(p: Vec): Rect { this.(x := p.x, y := p.y - h / 2.0) }
    function WithMidTop(p: Vec): Rect { this.(x := p.x - w / 2.0, y := p.y) }
    function Moved(d: Vec): Rect { this.(x := x + d.x, y := y + d.y) }

    /** FRect.inflate: grows by (dx, dy) about the same centre. */
    function Inflate(dx: real, dy: real): (r: Rect)
      ensures r.Center() == Center()
      ensures r.w == w + dx && r.h == h + dy
    {
      Rect(x - dx / 2.0, y - dy / 2.0, w + dx, h + dy)
    }

    // The extent of the rectangle once a negative size is normalised.
    function MinX(): real { Min(x, x + w) }
    function MaxX(): real { Max(x, x + w) }
    function MinY(): real { Min(y, y + h) }
    function MaxY(): real { Max(y, y + h) }

    /** The same area with a non-negative size (FRect.normalize). */
    function Normalized(): Rect { Rect(MinX(), MinY(), Abs(w), Abs(h)) }

    predicate Empty() { w == 0.0 || h == 0.0 }
  }

  /**
   * FRect.colliderect: a zero-size rectangle collides with nothing; otherwise
   * the normalised areas must overlap strictly (touching edges do not count).
   */
  predicate Collide(a: Rect, b: Rect) {
    !a.Empty() && !b.Empty() &&
    a.MinX() < b.MaxX() && a.MinY() < b.MaxY() &&
    a.MaxX() > b.MinX() && a.MaxY() > b.MinY()
  }

  lemma CollideSymmetric(a: Rect, b: Rect)
    ensures Collide(a, b) == Collide(b, a)
  {
  }

  lemma EmptyNeverCollides(a: Rect, b: Rect)
    requires a.Empty()
    ensures !Collide(a, b) && !Collide(b, a)
  {
  }

  /** Colliding does not depend on the sign of either size. */
  lemma CollideNormalized(a: Rect, b: Rect)
    ensures Collide(a, b) == Collide(a.Normalized(), b)
    ensures Collide(a, b) == Collide(a, b.Normalized())
  {
  }

  /**
   * Two rectangles with positive sizes collide exactly when each starts
   * strictly before the other ends, on both axes.
   */
  lemma CollidePositive(a: Rect, b: Rect)
    requires a.w > 0.0 && a.h > 0.0 && b.w > 0.0 && b.h > 0.0
    ensures Collide(a, b) <==>
      a.Left() < b.Right() && b.Left() < a.Right() &&
      a.Top() < b.Bottom() && b.Top() < a.Bottom()
  {
  }

  /**
   * FRect.collidelist: the index of the first rectangle of the list that
   * collides with r, or -1 when none does.
   */
  function CollideList(r: Rect, rects: seq<Rect>): (i: int)
    ensures -1 <= i < |rects|
    ensures i == -1 <==> forall j :: 0 <= j < |rects| ==> !Collide(r, rects[j])
    ensures i >= 0 ==> Collide(r, rects[i]) && forall j :: 0 <= j < i ==> !Collide(r, rects[j])
  {
    if |rects| == 0 then -1
    else if Collide(r, rects[0]) then 0
    else
      var k := CollideList(r, rects[1..]);
      if k == -1 then -1 else k + 1
  }

  predicate HitsAny(r: Rect, rects: seq<Rect>) {
    exists j :: 0 <= j < |rects| && Collide(r, rects[j])
  }

  /** Python's int() on a float: truncation toward zero. */
  function Trunc(r: real): (n: int)
    ensures r >= 0.0 ==> n as real <= r < n as real + 1.0
    ensures r < 0.0 ==> n as real - 1.0 < r <= n as real
  {
    if r >= 0.0 then r.Floor else -((-r).Floor)
  }

  /** Truncation is monotone, which makes the source's int() comparisons sound. */
  lemma TruncMonotone(a: real, b: real)
    requires a <= b
    ensures Trunc(a) <= Trunc(b)
  {
  }

  lemma TruncOfInt(n: int)
    ensures Trunc(n as real) == n
  {
  }
}
