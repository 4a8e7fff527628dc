/**
  Plane geometry shared by the projector and both plan renderers: Core Graphics'
  points, sizes and rectangles over the reals, and the current transformation
  matrix (CTM) of a graphics context, restricted to the scales and translations
  the plan drawing code applies to it.
 */
module Geometry {

  datatype Point = Point(x: real, y: real)

  datatype Size = Size(width: real, height: real)

  /**
    CGRect: an origin and a size; the width and the height may be negative.
    CGRect's width and height accessors return the standardized extent; the
    scale computations read the raw fields instead, which agree with them
    because every box reaching those computations (an Outset box, the box of
    a non-empty projection) already has a non-negative size.
   */
  datatype Rect = Rect(x: real, y: real, width: real, height: real)

  function Min(a: real, b: real): (m: real)
    ensures m <= a && m <= b
    ensures m == a || m == b
  {
    if b < a then b else a
  }

  function Max(a: real, b: real): (m: real)
    ensures m >= a && m >= b
    ensures m == a || m == b
  {
    if b > a then b else a
  }

  function Abs(a: real): real { if a < 0.0 then -a else a }

  function MinX(r: Rect): real { Min(r.x, r.x + r.width) }
  function MaxX(r: Rect): real { Max(r.x, r.x + r.width) }
  function MinY(r: Rect): real { Min(r.y, r.y + r.height) }
  function MaxY(r: Rect): real { Max(r.y, r.y + r.height) }
  function MidX(r: Rect): real { r.x + r.width / 2.0 }
  function MidY(r: Rect): real { r.y + r.height / 2.0 }

  function Center(r: Rect): Point { Point(MidX(r), MidY(r)) }

  predicate Contains(r: Rect, p: Point) {
    MinX(r) <= p.x <= MaxX(r) && MinY(r) <= p.y <= MaxY(r)
  }

  /** CGRect.standardized: the same point set, with a non-negative width and height. */
  function Standardized(r: Rect): (s: Rect)
    ensures s.width >= 0.0 && s.height >= 0.0
    ensures MinX(s) == MinX(r) && MaxX(s) == MaxX(r)
    ensures MinY(s) == MinY(r) && MaxY(s) == MaxY(r)
  {
    Rect(MinX(r), MinY(r), Abs(r.width), Abs(r.height))
  }

  /**
    CGRect.insetBy(dx: -d, dy: -d) for d >= 0: the standardized rectangle grown
    by d on every side.
   */
  function Outset(r: Rect, d: real): (o: Rect)
    requires d >= 0.0
    ensures Center(o) == Center(r)
    ensures o.width == Abs(r.width) + 2.0 * d && o.height == Abs(r.height) + 2.0 * d
    ensures MinX(o) == MinX(r) - d && MaxX(o) == MaxX(r) + d
    ensures MinY(o) == MinY(r) - d && MaxY(o) == MaxY(r) + d
  {
    var s := Standardized(r);
    Rect(s.x - d, s.y - d, s.width + 2.0 * d, s.height + 2.0 * d)
  }

  /** The rectangle of the given size whose centre is c (a label's frame). */
  function CenteredRect(c: Point, size: Size): (r: Rect)
    ensures Center(r) == c
    ensures r.width == size.width && r.height == size.height
  {
    Rect(c.x - size.width / 2.0, c.y - size.height / 2.0, size.width, size.height)
  }

  /** The midpoint of a segment: as far from one end as from the other, on each axis. */
  function Midpoint(a: Point, b: Point): (m: Point)
    ensures m.x - a.x == b.x - m.x && m.y - a.y == b.y - m.y
  {
    Point((a.x + b.x) / 2.0, (a.y + b.y) / 2.0)
  }

  /**
    A CTM made of scales and translations only: user-space p is drawn at
    device-space (sx * p.x + tx, sy * p.y + ty).
   */
  datatype Ctm = Ctm(sx: real, sy: real, tx: real, ty: real)

  const Identity: Ctm := Ctm(1.0, 1.0, 0.0, 0.0)

  function Apply(c: Ctm, p: Point): Point {
    Point(c.sx * p.x + c.tx, c.sy * p.y + c.ty)
  }

  /** translateBy(x: dx, y: dy) */
  function Translated(c: Ctm, dx: real, dy: real): Ctm {
    Ctm(c.sx, c.sy, c.tx + c.sx * dx, c.ty + c.sy * dy)
  }

  /** scaleBy(x: a, y: b) */
  function Scaled(c: Ctm, a: real, b: real): Ctm {
    Ctm(c.sx * a, c.sy * b, c.tx, c.ty)
  }

  /** After translateBy, user-space p is drawn where p + (dx, dy) was drawn before. */
  lemma TranslatedMaps(c: Ctm, dx: real, dy: real, p: Point)
    ensures Apply(Translated(c, dx, dy), p) == Apply(c, Point(p.x + dx, p.y + dy))
  {
    var q := Apply(Translated(c, dx, dy), p);
    assert q.x == c.sx * p.x + (c.tx + c.sx * dx);
    assert q.y == c.sy * p.y + (c.ty + c.sy * dy);
    assert c.sx * (p.x + dx) == c.sx * p.x + c.sx * dx;
    assert c.sy * (p.y + dy) == c.sy * p.y + c.sy * dy;
    assert q.x == c.sx * (p.x + dx) + c.tx && q.y == c.sy * (p.y + dy) + c.ty;
  }

  /** After scaleBy, user-space p is drawn where (a * p.x, b * p.y) was drawn before. */
  lemma ScaledMaps(c: Ctm, a: real, b: real, p: Point)
    ensures Apply(Scaled(c, a, b), p) == Apply(c, Point(a * p.x, b * p.y))
  {
    assert (c.sx * a) * p.x == c.sx * (a * p.x);
    assert (c.sy * b) * p.y == c.sy * (b * p.y);
  }

  /**
    The three calls both plan renderers make: translate to a surface point,
    scale uniformly, translate back by a plan point.
   */
  function CenteringCtm(c: Ctm, surfacePoint: Point, scale: real, planPoint: Point): Ctm {
    Translated(Scaled(Translated(c, surfacePoint.x, surfacePoint.y), scale, scale), -planPoint.x, -planPoint.y)
  }

  /**
    The centring CTM sends p to (p - planPoint) * scale + surfacePoint, with the
    same scale on both axes, and so sends planPoint to surfacePoint.
   */
  lemma CenteringCtmMaps(c: Ctm, surfacePoint: Point, scale: real, planPoint: Point, p: Point)
    ensures Apply(CenteringCtm(c, surfacePoint, scale, planPoint), p)
         == Apply(c, Point((p.x - planPoint.x) * scale + surfacePoint.x, (p.y - planPoint.y) * scale + surfacePoint.y))
    ensures Apply(CenteringCtm(c, surfacePoint, scale, planPoint), planPoint) == Apply(c, surfacePoint)
  {
    var c1 := Translated(c, surfacePoint.x, surfacePoint.y);
    var c2 := Scaled(c1, scale, scale);
    var c3 := Translated(c2, -planPoint.x, -planPoint.y);
    var q := Point(p.x - planPoint.x, p.y - planPoint.y);
    TranslatedMaps(c2, -planPoint.x, -planPoint.y, p);
    ScaledMaps(c1, scale, scale, q);
    TranslatedMaps(c, surfacePoint.x, surfacePoint.y, Point(scale * q.x, scale * q.y));
    assert scale * q.x == (p.x - planPoint.x) * scale && scale * q.y == (p.y - planPoint.y) * scale;
    TranslatedMaps(c2, -planPoint.x, -planPoint.y, planPoint);
    ScaledMaps(c1, scale, scale, Point(0.0, 0.0));
    TranslatedMaps(c, surfacePoint.x, surfacePoint.y, Point(0.0, 0.0));
  }

  /**
    An offset of at most half the box's extent from the box centre, scaled by s,
    stays within half the content's extent when the box scaled by s fits.
   */
  lemma OffsetScaledWithin(d: real, boxExtent: real, contentExtent: real, s: real)
    requires -(boxExtent / 2.0) <= d <= boxExtent / 2.0
    requires s >= 0.0 && boxExtent * s <= contentExtent
    ensures -(contentExtent / 2.0) <= d * s <= contentExtent / 2.0
  {
    var half := boxExtent / 2.0;
    assert d * s <= half * s;
    assert -(half * s) <= d * s;
    assert half * s == (boxExtent * s) / 2.0;
  }

  /**
    A point of a box, drawn at its offset from the box centre scaled by s plus
    the centre of a target rectangle, lies in the target when the box scaled
    by s fits it.
   */
  lemma ScaledPointWithin(target: Rect, box: Rect, p: Point, s: real, q: Point)
    requires target.width >= 0.0 && target.height >= 0.0
    requires box.width >= 0.0 && box.height >= 0.0 && Contains(box, p)
    requires s >= 0.0 && box.width * s <= target.width && box.height * s <= target.height
    requires q == Point((p.x - MidX(box)) * s + MidX(target), (p.y - MidY(box)) * s + MidY(target))
    ensures Contains(target, q)
  {
    assert MinX(box) == box.x && MaxX(box) == box.x + box.width && MinY(box) == box.y && MaxY(box) == box.y + box.height;
    assert MinX(target) == target.x && MaxX(target) == target.x + target.width;
    assert MinY(target) == target.y && MaxY(target) == target.y + target.height;
    OffsetScaledWithin(p.x - MidX(box), box.width, target.width, s);
    OffsetScaledWithin(p.y - MidY(box), box.height, target.height, s);
  }
}
