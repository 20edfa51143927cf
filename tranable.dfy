/**
 * lib/core/tranable.ts: the `Transable` transform engine. The class keeps the
 * box (`left`, `top`, `width`, `height`, `rotate` in degrees), a cache of its
 * four unrotated corners (`coordinate`) and the per-gesture resize record
 * (`resizePoint`). Each mutator is specified by a function on the whole state,
 * so that properties spanning several calls can be proved about those functions
 * (see module TranableProperties).
 */
module Tranable {
  import opened Types
  import opened JsMath
  import opened CoreUtils

  /** `TransableOptions`, each field `None` where a JavaScript caller leaves it undefined. */
  datatype Options = Options(left: Option<real>, top: Option<real>, width: Option<real>,
                             height: Option<real>, rotate: Option<real>)

  /** `resizePoint`: the mouse, its mirror image through the centre, and the centre. */
  datatype ResizePoint = ResizePoint(mousePoint: Point, staticPoint: Point, centerPoint: Point)

  /** The `type` argument of `_resize`. */
  datatype ResizeKind = Vertex | EdgeX | EdgeY

  /** Everything a `Transable` holds, as one value. */
  datatype TransableState = TransableState(style: Style, coordinate: Coordinate, resizePoint: ResizePoint)

  const Origin: Point := Point(0.0, 0.0)

  /** The field initialisers of `coordinate` and `resizePoint`: every point at (0, 0). */
  const InitialCoordinate: Coordinate := Coordinate(Origin, Origin, Origin, Origin)
  const InitialResizePoint: ResizePoint := ResizePoint(Origin, Origin, Origin)

  /** The defaults of the constructor's destructuring. */
  const DefaultLeft: real := 0.0
  const DefaultTop: real := 0.0
  const DefaultWidth: real := 100.0
  const DefaultHeight: real := 100.0
  const DefaultRotate: real := 0.0

  /** The style the constructor starts from. */
  function InitialStyle(options: Options): (r: Style)
    ensures options.left.None? ==> r.left == 0.0
    ensures options.left.Some? ==> r.left == options.left.value
    ensures options.top.None? ==> r.top == 0.0
    ensures options.top.Some? ==> r.top == options.top.value
    ensures options.width.None? ==> r.width == 100.0
    ensures options.width.Some? ==> r.width == options.width.value
    ensures options.height.None? ==> r.height == 100.0
    ensures options.height.Some? ==> r.height == options.height.value
    ensures options.rotate.None? ==> r.rotate == 0.0
    ensures options.rotate.Some? ==> r.rotate == options.rotate.value
  {
    Style(GetOr(options.left, DefaultLeft), GetOr(options.top, DefaultTop), GetOr(options.width, DefaultWidth),
          GetOr(options.height, DefaultHeight), GetOr(options.rotate, DefaultRotate))
  }

  /** The corners `calcCoordinate` derives from a box: an axis-aligned rectangle. */
  function CoordinateOf(left: real, top: real, width: real, height: real): (r: Coordinate)
    ensures r.lt == Point(left, top)
    ensures r.lt.y == r.rt.y && r.lb.y == r.rb.y && r.lt.x == r.lb.x && r.rt.x == r.rb.x
    ensures r.rt.x - r.lt.x == width && r.lb.y - r.lt.y == height
  {
    Coordinate(Point(left, top), Point(left + width, top), Point(left + width, top + height), Point(left, top + height))
  }

  /** The corners of a style's box. */
  function CoordinateOfStyle(style: Style): Coordinate
  {
    CoordinateOf(style.left, style.top, style.width, style.height)
  }

  /** The centre of a style's box. */
  function BoxCentre(style: Style): Point
  {
    Point(style.left + style.width / 2.0, style.top + style.height / 2.0)
  }

  /** The cached corners match the box. */
  predicate Synced(st: TransableState)
  {
    st.coordinate == CoordinateOfStyle(st.style)
  }

  /** `calcCoordinate` on the state. */
  function Recalculated(st: TransableState): (r: TransableState)
    ensures Synced(r)
    ensures r.style == st.style && r.resizePoint == st.resizePoint
  {
    st.(coordinate := CoordinateOfStyle(st.style))
  }

  /** `_drag`: the box moves by the deltas; its size, angle and resize record stay; the cache is refreshed. */
  function Dragged(st: TransableState, deltaX: real, deltaY: real): (r: TransableState)
    ensures Synced(r) && r.resizePoint == st.resizePoint
    ensures r.style.width == st.style.width && r.style.height == st.style.height && r.style.rotate == st.style.rotate
    ensures BoxCentre(r.style) == Translate(BoxCentre(st.style), Point(deltaX, deltaY))
  {
    Recalculated(st.(style := st.style.(left := st.style.left + deltaX, top := st.style.top + deltaY)))
  }

  /** The angle, in degrees, swept about `centerPoint` from `beforePoint` to `afterPoint`. */
  function RotateDelta(trig: Trig, centerPoint: Point, beforePoint: Point, afterPoint: Point): (r: real)
    ensures beforePoint == afterPoint ==> r == 0.0
    ensures r / DegreesPerRadian
      == trig.atan2(afterPoint.y - centerPoint.y, afterPoint.x - centerPoint.x)
       - trig.atan2(beforePoint.y - centerPoint.y, beforePoint.x - centerPoint.x)
  {
    var rotateAfter := trig.atan2(afterPoint.y - centerPoint.y, afterPoint.x - centerPoint.x) * DegreesPerRadian;
    var rotateBefore := trig.atan2(beforePoint.y - centerPoint.y, beforePoint.x - centerPoint.x) * DegreesPerRadian;
    rotateAfter - rotateBefore
  }

  /** The centre `_rotate` and `_initResizePoints` read: the middle of the cached lt-rb diagonal. */
  function CachedCentre(st: TransableState): Point
  {
    GetCenterPoint2(st.coordinate.lt, st.coordinate.rb)
  }

  /** `_rotate`: only the angle changes, by the sweep about the cached centre; the cache is refreshed. */
  function Rotated(trig: Trig, st: TransableState, beforePoint: Point, afterPoint: Point): (r: TransableState)
    ensures Synced(r) && r.resizePoint == st.resizePoint
    ensures r.style == st.style.(rotate := r.style.rotate)
    ensures r.style.rotate - st.style.rotate == RotateDelta(trig, CachedCentre(st), beforePoint, afterPoint)
  {
    var deltaTheta := RotateDelta(trig, CachedCentre(st), beforePoint, afterPoint);
    Recalculated(st.(style := st.style.(rotate := st.style.rotate + deltaTheta)))
  }

  /**
   * `_initResizePoints`: the mouse is recorded, the centre is read from the cache
   * and the static point is the mouse mirrored through it; the box is untouched.
   */
  function WithResizePoints(st: TransableState, mousePoint: Point): (r: TransableState)
    ensures r.style == st.style && r.coordinate == st.coordinate
    ensures r.resizePoint.mousePoint == mousePoint && r.resizePoint.centerPoint == CachedCentre(st)
    ensures r.resizePoint.staticPoint == Reflect(mousePoint, r.resizePoint.centerPoint)
  {
    var centerPoint := CachedCentre(st);
    st.(resizePoint := ResizePoint(mousePoint, Point(2.0 * centerPoint.x - mousePoint.x, 2.0 * centerPoint.y - mousePoint.y), centerPoint))
  }

  /** `_vertexResize`: width and height from the unrotated corner, box centred on `centerPoint`. */
  function VertexResized(st: TransableState, before: Point): (r: TransableState)
    ensures r.resizePoint == st.resizePoint && r.coordinate == st.coordinate && r.style.rotate == st.style.rotate
    ensures r.style.width >= 0.0 && r.style.height >= 0.0
    ensures BoxCentre(r.style) == st.resizePoint.centerPoint
  {
    var centerPoint := st.resizePoint.centerPoint;
    var width := Abs(before.x - centerPoint.x) * 2.0;
    var height := Abs(before.y - centerPoint.y) * 2.0;
    st.(style := st.style.(width := width, height := height, left := centerPoint.x - width / 2.0, top := centerPoint.y - height / 2.0))
  }

  /** `_edgeResizeX`: height from the unrotated edge point, width kept. */
  function EdgeResizedX(st: TransableState, before: Point): (r: TransableState)
    ensures r.resizePoint == st.resizePoint && r.coordinate == st.coordinate && r.style.rotate == st.style.rotate
    ensures r.style.width == st.style.width && r.style.height >= 0.0
    ensures BoxCentre(r.style) == st.resizePoint.centerPoint
  {
    var centerPoint := st.resizePoint.centerPoint;
    var height := Abs(before.y - centerPoint.y) * 2.0;
    st.(style := st.style.(height := height, top := centerPoint.y - height / 2.0, left := centerPoint.x - st.style.width / 2.0))
  }

  /** `_edgeResizeY`: width from the unrotated edge point, height kept. */
  function EdgeResizedY(st: TransableState, before: Point): (r: TransableState)
    ensures r.resizePoint == st.resizePoint && r.coordinate == st.coordinate && r.style.rotate == st.style.rotate
    ensures r.style.height == st.style.height && r.style.width >= 0.0
    ensures BoxCentre(r.style) == st.resizePoint.centerPoint
  {
    var centerPoint := st.resizePoint.centerPoint;
    var width := Abs(before.x - centerPoint.x) * 2.0;
    st.(style := st.style.(width := width, left := centerPoint.x - width / 2.0, top := centerPoint.y - st.style.height / 2.0))
  }

  /**
   * The axis through `staticPoint` and `centerPoint` is neither vertical nor
   * horizontal, so its slope and the perpendicular slope both exist.
   */
  predicate AxisDefined(staticPoint: Point, centerPoint: Point)
  {
    staticPoint.x != centerPoint.x && staticPoint.y != centerPoint.y
  }

  /**
   * What a resize of `kind` needs of the state: an edge resize needs the static
   * point and the centre to differ, so that they fix an axis.
   */
  predicate ResizeDefined(st: TransableState, kind: ResizeKind)
  {
    kind == Vertex || st.resizePoint.staticPoint != st.resizePoint.centerPoint
  }

  /** On a defined axis, the axis slope is non-zero and differs from its perpendicular. */
  lemma AxisSlopes(staticPoint: Point, centerPoint: Point)
    requires AxisDefined(staticPoint, centerPoint)
    ensures GetSlopeAndIntercept(staticPoint, centerPoint).slope != 0.0
    ensures GetSlopeAndIntercept(staticPoint, centerPoint).slope != GetVerticalSlope(GetSlopeAndIntercept(staticPoint, centerPoint).slope)
  {
    var k := GetSlopeAndIntercept(staticPoint, centerPoint).slope;
    if k != 0.0 {
      var k2 := GetVerticalSlope(k);
      assert k2 * k == -1.0;
    }
  }

  /**
   * The point where the perpendicular through `mousePoint` meets the axis through
   * `staticPoint` and `centerPoint`: it lies on the axis, and the mouse sits
   * square to the axis from it.
   */
  function EdgeProjection(staticPoint: Point, centerPoint: Point, mousePoint: Point): (r: Point)
    requires AxisDefined(staticPoint, centerPoint)
    ensures Collinear(staticPoint, centerPoint, r)
    ensures Dot(Sub(mousePoint, r), Sub(centerPoint, staticPoint)) == 0.0
  {
    AxisSlopes(staticPoint, centerPoint);
    var axis := GetSlopeAndIntercept(staticPoint, centerPoint);
    var k := axis.slope;
    var k2 := GetVerticalSlope(k);
    var perpendicular := GetPointBySlopeOrIntercept(mousePoint, k2);
    var p := GetIntersectionPoint(axis, perpendicular);
    var s, c, m := staticPoint, centerPoint, mousePoint;
    assert c.y - s.y == k * (c.x - s.x);
    assert p.y - s.y == k * (p.x - s.x);
    assert m.y - p.y == k2 * (m.x - p.x);
    PerpendicularMeetAlgebra(c.x - s.x, c.y - s.y, p.x - s.x, p.y - s.y, m.x - p.x, m.y - p.y, k, k2);
    p
  }

  /**
   * The scalar identities behind `EdgeProjection`: an offset `(px, py)` of slope
   * `k` is parallel to the axis `(a, b)` of slope `k`, and an offset `(mx, my)`
   * of the perpendicular slope `k2` is square to it.
   */
  lemma PerpendicularMeetAlgebra(a: real, b: real, px: real, py: real, mx: real, my: real, k: real, k2: real)
    requires b == k * a && py == k * px && my == k2 * mx
    requires k2 * k == -1.0
    ensures a * py == b * px
    ensures mx * a + my * b == 0.0
  {
    assert a * py == (k * a) * px;
    assert mx * a + my * b == mx * a * (1.0 + k2 * k);
  }

  /** The scalar identities behind `SlopeFoot`, with the static point at the origin. */
  lemma SlopeFootAlgebra(a: real, b: real, p: real, q: real, k: real, t: real)
    requires b == k * a
    requires t * (1.0 + k * k) == p + k * q
    ensures a * (k * t) == b * t
    ensures (p - t) * a + (q - k * t) * b == 0.0
  {
    assert (q - k * t) * b == (q - k * t) * k * a;
    assert (p - t) * a + (q - k * t) * k * a == a * ((p + k * q) - t * (1.0 + k * k));
  }

  /**
   * On an axis of slope `k` through `s`, the point `t` along from `s` in x, with
   * `t (1 + k²)` the mouse's offset projected on `(1, k)`, is the foot.
   */
  lemma SlopeFoot(s: Point, c: Point, m: Point, k: real, t: real)
    requires c.y - s.y == k * (c.x - s.x)
    requires t * (1.0 + k * k) == (m.x - s.x) + k * (m.y - s.y)
    ensures Collinear(s, c, Point(s.x + t, s.y + k * t))
    ensures Dot(Sub(m, Point(s.x + t, s.y + k * t)), Sub(c, s)) == 0.0
  {
    var a, b, p, q := c.x - s.x, c.y - s.y, m.x - s.x, m.y - s.y;
    SlopeFootAlgebra(a, b, p, q, k, t);
    var r := Point(s.x + t, s.y + k * t);
    assert r.x - s.x == t && r.y - s.y == k * t;
    assert m.x - r.x == p - t && m.y - r.y == q - k * t;
  }

  /**
   * The foot of the perpendicular from `mousePoint` to the axis through
   * `staticPoint` and `centerPoint`, for any direction of the axis: through the
   * axis slope when the axis is not vertical, straight across otherwise.
   */
  function EdgeFoot(staticPoint: Point, centerPoint: Point, mousePoint: Point): (r: Point)
    requires staticPoint != centerPoint
    ensures Collinear(staticPoint, centerPoint, r)
    ensures Dot(Sub(mousePoint, r), Sub(centerPoint, staticPoint)) == 0.0
  {
    var s, c, m := staticPoint, centerPoint, mousePoint;
    if c.x != s.x then
      var k := (c.y - s.y) / (c.x - s.x);
      assert 1.0 + k * k > 0.0 by { assert k * k >= 0.0; }
      var t := ((m.x - s.x) + k * (m.y - s.y)) / (1.0 + k * k);
      SlopeFoot(s, c, m, k, t);
      Point(s.x + t, s.y + k * t)
    else
      Point(s.x, m.y)
  }

  /** The foot of the perpendicular is the only point on the axis square to the mouse. */
  lemma FootUnique(staticPoint: Point, centerPoint: Point, mousePoint: Point, q: Point)
    requires staticPoint != centerPoint
    requires Collinear(staticPoint, centerPoint, q)
    requires Dot(Sub(mousePoint, q), Sub(centerPoint, staticPoint)) == 0.0
    ensures q == EdgeFoot(staticPoint, centerPoint, mousePoint)
  {
    var f := EdgeFoot(staticPoint, centerPoint, mousePoint);
    var d := Sub(centerPoint, staticPoint);
    var e := Sub(q, f);
    assert d.x * e.y == d.y * e.x;
    assert e.x * d.x + e.y * d.y == 0.0;
    ParallelAndSquareIsZero(d.x, d.y, e.x, e.y);
  }

  /** A vector both parallel and square to a non-zero vector is zero. */
  lemma ParallelAndSquareIsZero(dx: real, dy: real, ex: real, ey: real)
    requires dx != 0.0 || dy != 0.0
    requires dx * ey == dy * ex
    requires ex * dx + ey * dy == 0.0
    ensures ex == 0.0 && ey == 0.0
  {
    if dx != 0.0 {
      var r := dy / dx;
      assert dx * (ey - r * ex) == 0.0;
      ZeroFactor(ey - r * ex, dx);
      assert dx * (ex * (1.0 + r * r)) == 0.0;
      ZeroFactor(ex * (1.0 + r * r), dx);
      assert 1.0 + r * r > 0.0;
      ZeroFactor(ex, 1.0 + r * r);
    } else {
      ZeroFactor(ex, dy);
      ZeroFactor(ey, dy);
    }
  }

  /** A product with a non-zero factor is zero only when the other factor is. */
  lemma ZeroFactor(x: real, y: real)
    requires y != 0.0
    requires x * y == 0.0
    ensures x == 0.0
  {
    assert x == x * y / y;
  }

  /** Where the slope-based construction is defined, it finds the foot of the perpendicular. */
  lemma EdgeFootAgrees(staticPoint: Point, centerPoint: Point, mousePoint: Point)
    requires AxisDefined(staticPoint, centerPoint)
    ensures EdgeProjection(staticPoint, centerPoint, mousePoint) == EdgeFoot(staticPoint, centerPoint, mousePoint)
  {
    FootUnique(staticPoint, centerPoint, mousePoint, EdgeProjection(staticPoint, centerPoint, mousePoint));
  }

  /** The `'vertex'` branch of `_resize`: the new centre is midway between the mouse and the static point. */
  function ResizedAtVertex(trig: Trig, st: TransableState, mousePoint: Point): (r: TransableState)
    ensures Synced(r) && r.style.rotate == st.style.rotate
    ensures r.resizePoint.staticPoint == st.resizePoint.staticPoint && r.resizePoint.mousePoint == mousePoint
    ensures r.resizePoint.centerPoint == GetCenterPoint2(mousePoint, st.resizePoint.staticPoint)
    ensures BoxCentre(r.style) == r.resizePoint.centerPoint
  {
    var staticPoint := st.resizePoint.staticPoint;
    var centerPoint := Point((mousePoint.x + staticPoint.x) / 2.0, (mousePoint.y + staticPoint.y) / 2.0);
    var before := RotatePoint(trig, mousePoint, centerPoint, -st.style.rotate);
    var st1 := st.(resizePoint := st.resizePoint.(mousePoint := mousePoint, centerPoint := centerPoint));
    Recalculated(VertexResized(st1, before))
  }

  /**
   * The `'edgeX'`/`'edgeY'` branch of `_resize`, with the edge point found as
   * the foot of the perpendicular from the mouse to the axis.
   */
  function ResizedAtEdge(trig: Trig, st: TransableState, mousePoint: Point, kind: ResizeKind): (r: TransableState)
    requires kind != Vertex && st.resizePoint.staticPoint != st.resizePoint.centerPoint
    ensures Synced(r) && r.style.rotate == st.style.rotate
    ensures r.resizePoint.staticPoint == st.resizePoint.staticPoint && r.resizePoint.mousePoint == mousePoint
    ensures r.resizePoint.centerPoint
      == GetCenterPoint2(EdgeFoot(st.resizePoint.staticPoint, st.resizePoint.centerPoint, mousePoint), st.resizePoint.staticPoint)
    ensures BoxCentre(r.style) == r.resizePoint.centerPoint
    ensures kind == EdgeX ==> r.style.width == st.style.width
    ensures kind == EdgeY ==> r.style.height == st.style.height
  {
    var staticPoint := st.resizePoint.staticPoint;
    var p := EdgeFoot(staticPoint, st.resizePoint.centerPoint, mousePoint);
    var centerPoint := Point((p.x + staticPoint.x) / 2.0, (p.y + staticPoint.y) / 2.0);
    var before := RotatePoint(trig, p, centerPoint, -st.style.rotate);
    var st1 := st.(resizePoint := st.resizePoint.(mousePoint := mousePoint, centerPoint := centerPoint));
    Recalculated(if kind == EdgeX then EdgeResizedX(st1, before) else EdgeResizedY(st1, before))
  }

  /** `_resize(mousePoint, type)`. */
  function Resized(trig: Trig, st: TransableState, mousePoint: Point, kind: ResizeKind): (r: TransableState)
    requires ResizeDefined(st, kind)
    ensures Synced(r) && r.style.rotate == st.style.rotate
    ensures r.resizePoint.staticPoint == st.resizePoint.staticPoint && r.resizePoint.mousePoint == mousePoint
    ensures BoxCentre(r.style) == r.resizePoint.centerPoint
    ensures kind == Vertex ==> r.resizePoint.centerPoint == GetCenterPoint2(mousePoint, st.resizePoint.staticPoint)
  {
    if kind == Vertex then ResizedAtVertex(trig, st, mousePoint) else ResizedAtEdge(trig, st, mousePoint, kind)
  }

  /**
   * On an axis where the source's slope construction is defined, an edge
   * resize puts the new centre midway between its intersection point and the
   * static point, exactly as the source computes it.
   */
  lemma ResizedFollowsSlopeConstruction(trig: Trig, st: TransableState, mousePoint: Point, kind: ResizeKind)
    requires kind != Vertex && AxisDefined(st.resizePoint.staticPoint, st.resizePoint.centerPoint)
    ensures var s, c := st.resizePoint.staticPoint, st.resizePoint.centerPoint;
      Resized(trig, st, mousePoint, kind).resizePoint.centerPoint == GetCenterPoint2(EdgeProjection(s, c, mousePoint), s)
  {
    EdgeFootAgrees(st.resizePoint.staticPoint, st.resizePoint.centerPoint, mousePoint);
  }

  /** The widget's transform state, updated in place by its gesture handlers. */
  class Transable {
    var left: real
    var top: real
    var width: real
    var height: real
    var rotate: real
    var coordinate: Coordinate
    var resizePoint: ResizePoint

    /** The whole state as a value. */
    function Snapshot(): TransableState
      reads this
    {
      TransableState(Style(left, top, width, height, rotate), coordinate, resizePoint)
    }

    /** The cached corners match the fields. */
    predicate Valid()
      reads this
    {
      Synced(Snapshot())
    }

    constructor (options: Options)
      ensures Snapshot().style == InitialStyle(options)
      ensures resizePoint == InitialResizePoint
      ensures Valid()
    {
      left := GetOr(options.left, DefaultLeft);
      top := GetOr(options.top, DefaultTop);
      width := GetOr(options.width, DefaultWidth);
      height := GetOr(options.height, DefaultHeight);
      rotate := GetOr(options.rotate, DefaultRotate);
      coordinate := InitialCoordinate;
      resizePoint := InitialResizePoint;
      new;
      CalcCoordinate();
    }

    /** `calcCoordinate`: refresh the corner cache from the fields. */
    method CalcCoordinate()
      modifies this`coordinate
      ensures Snapshot() == Recalculated(old(Snapshot()))
    {
      var lt := Point(left, top);
      var rt := Point(left + width, top);
      var rb := Point(left + width, top + height);
      var lb := Point(left, top + height);
      coordinate := Coordinate(lt, rt, rb, lb);
    }

    /** `getCoordinate`: the cached corners, which in a valid state are the box's. */
    function GetCoordinate(): (r: Coordinate)
      reads this
      ensures Valid() ==> r == CoordinateOf(left, top, width, height)
    {
      coordinate
    }

    /** `getStyle`: a snapshot of the five box fields, describing the same box as the cache. */
    function GetStyle(): (r: Style)
      reads this
      ensures Valid() ==> CoordinateOfStyle(r) == coordinate
      ensures BoxCentre(r) == Point(left + width / 2.0, top + height / 2.0) && r.rotate == rotate
    {
      Style(left, top, width, height, rotate)
    }

    /** `_drag({deltaX, deltaY})`. */
    method Drag(deltaX: real, deltaY: real) returns (style: Style)
      modifies this
      ensures Snapshot() == Dragged(old(Snapshot()), deltaX, deltaY)
      ensures Valid() && style == Snapshot().style
    {
      left := left + deltaX;
      top := top + deltaY;
      CalcCoordinate();
      style := GetStyle();
    }

    /** `_rotate(beforePoint, afterPoint)`. */
    method Rotate(trig: Trig, beforePoint: Point, afterPoint: Point) returns (style: Style)
      modifies this
      ensures Snapshot() == Rotated(trig, old(Snapshot()), beforePoint, afterPoint)
      ensures Valid() && style == Snapshot().style
    {
      var centerPoint := GetCenterPoint2(coordinate.lt, coordinate.rb);
      var ratio := 180.0 / PI;
      var rotateAfter := trig.atan2(afterPoint.y - centerPoint.y, afterPoint.x - centerPoint.x) * ratio;
      var rotateBefore := trig.atan2(beforePoint.y - centerPoint.y, beforePoint.x - centerPoint.x) * ratio;
      var deltaTheta := rotateAfter - rotateBefore;
      rotate := rotate + deltaTheta;
      CalcCoordinate();
      style := GetStyle();
    }

    /** `_initResizePoints(mousePoint)`: start a resize gesture. */
    method InitResizePoints(mousePoint: Point)
      modifies this`resizePoint
      ensures Snapshot() == WithResizePoints(old(Snapshot()), mousePoint)
      ensures old(Valid()) ==> Valid()
    {
      resizePoint := resizePoint.(mousePoint := mousePoint);
      resizePoint := resizePoint.(centerPoint := GetCenterPoint2(coordinate.lt, coordinate.rb));
      resizePoint := resizePoint.(staticPoint := Point(2.0 * resizePoint.centerPoint.x - mousePoint.x,
                                                       2.0 * resizePoint.centerPoint.y - mousePoint.y));
    }

    /** `_resize(mousePoint, type)`. */
    method Resize(trig: Trig, mousePoint: Point, kind: ResizeKind) returns (style: Style)
      requires kind != Vertex ==> AxisDefined(resizePoint.staticPoint, resizePoint.centerPoint)
      modifies this
      ensures Snapshot() == Resized(trig, old(Snapshot()), mousePoint, kind)
      ensures Valid() && style == Snapshot().style
    {
      ghost var st0 := Snapshot();
      if kind == Vertex {
        resizePoint := resizePoint.(mousePoint := mousePoint);
        resizePoint := resizePoint.(centerPoint := Point((mousePoint.x + resizePoint.staticPoint.x) / 2.0,
                                                         (mousePoint.y + resizePoint.staticPoint.y) / 2.0));
        var before := RotatePoint(trig, mousePoint, resizePoint.centerPoint, -rotate);
        VertexResize(before);
        assert Recalculated(Snapshot()) == ResizedAtVertex(trig, st0, mousePoint);
      }
      if kind.EdgeX? || kind.EdgeY? {
        resizePoint := resizePoint.(mousePoint := mousePoint);
        var staticPoint := resizePoint.staticPoint;
        var axisCentre := resizePoint.centerPoint;
        AxisSlopes(staticPoint, axisCentre);
        var axis := GetSlopeAndIntercept(staticPoint, axisCentre);
        var k2 := GetVerticalSlope(axis.slope);
        var perpendicular := GetPointBySlopeOrIntercept(mousePoint, k2);
        var p := GetIntersectionPoint(axis, perpendicular);
        EdgeFootAgrees(staticPoint, axisCentre, mousePoint);
        resizePoint := resizePoint.(centerPoint := Point((p.x + staticPoint.x) / 2.0, (p.y + staticPoint.y) / 2.0));
        var before := RotatePoint(trig, p, resizePoint.centerPoint, -rotate);
        if kind == EdgeX {
          EdgeResizeX(before);
        }
        if kind == EdgeY {
          EdgeResizeY(before);
        }
        assert Recalculated(Snapshot()) == ResizedAtEdge(trig, st0, mousePoint, kind);
      }
      CalcCoordinate();
      style := GetStyle();
    }

    /** `_vertexResize(before)`; leaves the corner cache stale until `calcCoordinate`. */
    method VertexResize(before: Point)
      modifies this`left, this`top, this`width, this`height
      ensures Snapshot() == VertexResized(old(Snapshot()), before)
    {
      var centerPoint := resizePoint.centerPoint;
      var w := Abs(before.x - centerPoint.x) * 2.0;
      var h := Abs(before.y - centerPoint.y) * 2.0;
      width := w;
      height := h;
      left := centerPoint.x - w / 2.0;
      top := centerPoint.y - h / 2.0;
    }

    /** `_edgeResizeX(before)`: height changes, width stays. */
    method EdgeResizeX(before: Point)
      modifies this`left, this`top, this`height
      ensures Snapshot() == EdgeResizedX(old(Snapshot()), before)
    {
      var centerPoint := resizePoint.centerPoint;
      var h := Abs(before.y - centerPoint.y) * 2.0;
      height := h;
      top := centerPoint.y - h / 2.0;
      left := centerPoint.x - width / 2.0;
    }

    /** `_edgeResizeY(before)`: width changes, height stays. */
    method EdgeResizeY(before: Point)
      modifies this`left, this`top, this`width
      ensures Snapshot() == EdgeResizedY(old(Snapshot()), before)
    {
      var centerPoint := resizePoint.centerPoint;
      var w := Abs(before.x - centerPoint.x) * 2.0;
      width := w;
      left := centerPoint.x - w / 2.0;
      top := centerPoint.y - height / 2.0;
    }
  }
}
