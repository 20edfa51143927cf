/** Plain value shapes shared by the transform engine. */
module Types {

  /** A point in the caller's coordinate space (`Point`, also spelled `MousePoint`). */
  datatype Point = Point(x: real, y: real)

  /** The four corners of the unrotated box: left-top, right-top, right-bottom, left-bottom. */
  datatype Coordinate = Coordinate(lt: Point, rt: Point, rb: Point, lb: Point)

  /** The record `getStyle` hands to the renderer; `rotate` is in degrees. */
  datatype Style = Style(left: real, top: real, width: real, height: real, rotate: real)

  /** A value a JavaScript caller may leave `undefined`. */
  datatype Option<T> = None | Some(value: T)

  /** The value, or `default` when it was left out (a destructuring default). */
  function GetOr<T>(o: Option<T>, default: T): (r: T)
    ensures o.Some? ==> r == o.value
    ensures o.None? ==> r == default
  {
    match o
    case Some(v) => v
    case None => default
  }

  /** `p` moved by the vector `t`. */
  function Translate(p: Point, t: Point): Point
  {
    Point(p.x + t.x, p.y + t.y)
  }

  /** The vector from `q` to `p`. */
  function Sub(p: Point, q: Point): Point
  {
    Point(p.x - q.x, p.y - q.y)
  }

  /** The point symmetric to `p` through `c`. */
  function Reflect(p: Point, c: Point): (r: Point)
    ensures r.x - c.x == c.x - p.x && r.y - c.y == c.y - p.y
  {
    Point(2.0 * c.x - p.x, 2.0 * c.y - p.y)
  }

  /** Dot product of two vectors. */
  function Dot(u: Point, v: Point): real
  {
    u.x * v.x + u.y * v.y
  }

  /** `a`, `b` and `c` lie on one line. */
  predicate Collinear(a: Point, b: Point, c: Point)
  {
    (b.x - a.x) * (c.y - a.y) == (b.y - a.y) * (c.x - a.x)
  }

  /** Squared Euclidean distance. */
  function Dist2(p: Point, q: Point): real
  {
    (p.x - q.x) * (p.x - q.x) + (p.y - q.y) * (p.y - q.y)
  }
}
