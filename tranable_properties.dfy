/**
 * What the `Transable` mutators promise, proved about the functions that specify
 * them (module Tranable): the corner cache stays in step with the box, drags
 * translate, rotations only turn, and a resize gesture keeps its anchor and its
 * angle and centres the box where the geometry says.
 */
module TranableProperties {
  import opened Types
  import opened JsMath
  import opened CoreUtils
  import opened Tranable

  // ---------------------------------------------------------------------------
  // The corner cache

  /** Both diagonals of the cached corners meet at the box centre. */
  lemma CoordinateCentre(style: Style)
    ensures GetCenterPoint2(CoordinateOfStyle(style).lt, CoordinateOfStyle(style).rb) == BoxCentre(style)
    ensures GetCenterPoint2(CoordinateOfStyle(style).rt, CoordinateOfStyle(style).lb) == BoxCentre(style)
  {
  }

  /** The corners determine the box: two styles with the same corners have the same position and size. */
  lemma CoordinateDeterminesBox(a: Style, b: Style)
    requires CoordinateOfStyle(a) == CoordinateOfStyle(b)
    ensures a.left == b.left && a.top == b.top && a.width == b.width && a.height == b.height
  {
    assert CoordinateOfStyle(a).rb == CoordinateOfStyle(b).rb;
  }

  /** In a synced state the centre read from the cache is the box centre. */
  lemma SyncedCentre(st: TransableState)
    requires Synced(st)
    ensures CachedCentre(st) == BoxCentre(st.style)
  {
    CoordinateCentre(st.style);
  }

  // ---------------------------------------------------------------------------
  // _drag

  /** A drag adds exactly the deltas to `left` and `top` and changes nothing else but the cache. */
  lemma DragTranslates(st: TransableState, deltaX: real, deltaY: real)
    ensures var r := Dragged(st, deltaX, deltaY);
      r.style.left - st.style.left == deltaX && r.style.top - st.style.top == deltaY
      && r.style.width == st.style.width && r.style.height == st.style.height && r.style.rotate == st.style.rotate
      && r.resizePoint == st.resizePoint && Synced(r)
      && BoxCentre(r.style) == Translate(BoxCentre(st.style), Point(deltaX, deltaY))
  {
  }

  /** Two drags are one drag by the summed deltas. */
  lemma DragCompose(st: TransableState, dx1: real, dy1: real, dx2: real, dy2: real)
    ensures Dragged(Dragged(st, dx1, dy1), dx2, dy2) == Dragged(st, dx1 + dx2, dy1 + dy2)
  {
  }

  /** Dragging back by the opposite deltas restores a synced state. */
  lemma DragUndo(st: TransableState, deltaX: real, deltaY: real)
    requires Synced(st)
    ensures Dragged(Dragged(st, deltaX, deltaY), -deltaX, -deltaY) == st
  {
  }

  /** The sum of a sequence of drag deltas. */
  function TotalDelta(deltas: seq<Point>): Point
  {
    if |deltas| == 0 then Point(0.0, 0.0) else Translate(deltas[0], TotalDelta(deltas[1..]))
  }

  /** The state after one `_drag` call per delta, in order. */
  function DragStream(st: TransableState, deltas: seq<Point>): TransableState
    decreases |deltas|
  {
    if |deltas| == 0 then st else DragStream(Dragged(st, deltas[0].x, deltas[0].y), deltas[1..])
  }

  /** Any number of drags from a synced state equal one drag by the summed deltas. */
  lemma {:induction false} DragStreamIsOneDrag(st: TransableState, deltas: seq<Point>)
    requires Synced(st)
    ensures DragStream(st, deltas) == Dragged(st, TotalDelta(deltas).x, TotalDelta(deltas).y)
    decreases |deltas|
  {
    if |deltas| > 0 {
      var st1 := Dragged(st, deltas[0].x, deltas[0].y);
      DragStreamIsOneDrag(st1, deltas[1..]);
      DragCompose(st, deltas[0].x, deltas[0].y, TotalDelta(deltas[1..]).x, TotalDelta(deltas[1..]).y);
    }
  }

  // ---------------------------------------------------------------------------
  // _rotate

  /** A rotation changes only `rotate` (the recomputed cache is the same as before when it was synced). */
  lemma RotateChangesOnlyAngle(trig: Trig, st: TransableState, beforePoint: Point, afterPoint: Point)
    ensures var r := Rotated(trig, st, beforePoint, afterPoint);
      r.style.left == st.style.left && r.style.top == st.style.top
      && r.style.width == st.style.width && r.style.height == st.style.height
      && r.resizePoint == st.resizePoint && Synced(r)
      && (Synced(st) ==> r.coordinate == st.coordinate)
  {
  }

  /** In a synced state the angle grows by the atan2 sweep about the box centre. */
  lemma RotateAboutBoxCentre(trig: Trig, st: TransableState, beforePoint: Point, afterPoint: Point)
    requires Synced(st)
    ensures Rotated(trig, st, beforePoint, afterPoint).style.rotate
         == st.style.rotate + RotateDelta(trig, BoxCentre(st.style), beforePoint, afterPoint)
  {
    SyncedCentre(st);
  }

  /** A pointer that has not moved leaves the angle exactly as it was. */
  lemma RotateSamePoint(trig: Trig, st: TransableState, p: Point)
    ensures Rotated(trig, st, p, p).style == st.style
  {
  }

  /**
   * Incremental rotations telescope: from `p` to `q` and then from `q` to `r` is
   * the same as from `p` to `r`, because the centre does not move.
   */
  lemma RotateTelescopes(trig: Trig, st: TransableState, p: Point, q: Point, r: Point)
    requires Synced(st)
    ensures Rotated(trig, Rotated(trig, st, p, q), q, r) == Rotated(trig, st, p, r)
  {
    var st1 := Rotated(trig, st, p, q);
    assert st1.coordinate == st.coordinate;
  }

  /** Rotating from `p` to `q` and back from `q` to `p` restores a synced state. */
  lemma RotateUndo(trig: Trig, st: TransableState, p: Point, q: Point)
    requires Synced(st)
    ensures Rotated(trig, Rotated(trig, st, p, q), q, p) == st
  {
    RotateTelescopes(trig, st, p, q, p);
  }

  /**
   * The state after one `_rotate` call per pointer move: each call goes from one
   * pointer position to the next.
   */
  function RotateStream(trig: Trig, st: TransableState, points: seq<Point>): TransableState
    decreases |points|
  {
    if |points| < 2 then st else RotateStream(trig, Rotated(trig, st, points[0], points[1]), points[1..])
  }

  /**
   * Fed incremental pointer positions, a rotate gesture from a synced state ends
   * where one rotation from the first position to the last would.
   */
  lemma {:induction false} RotateStreamIsOneRotation(trig: Trig, st: TransableState, points: seq<Point>)
    requires Synced(st) && |points| > 0
    ensures RotateStream(trig, st, points) == Rotated(trig, st, points[0], points[|points| - 1])
    decreases |points|
  {
    if |points| == 1 {
      RotateSamePoint(trig, st, points[0]);
    } else {
      var st1 := Rotated(trig, st, points[0], points[1]);
      RotateStreamIsOneRotation(trig, st1, points[1..]);
      RotateTelescopes(trig, st, points[0], points[1], points[|points| - 1]);
    }
  }

  /**
   * The quarter turn of a 100×100 box at the origin: the pointer moves from
   * (100, 50) to (50, 100) about the centre (50, 50), given `atan2(0, 50) = 0`
   * and that `atan2(50, 0)` is 90 degrees in radians.
   */
  lemma RotateQuarterTurn(trig: Trig)
    requires trig.atan2(0.0, 50.0) == 0.0 && trig.atan2(50.0, 0.0) == Radian(90.0)
    ensures var st := Recalculated(TransableState(Style(0.0, 0.0, 100.0, 100.0, 0.0), InitialCoordinate, InitialResizePoint));
      Rotated(trig, st, Point(100.0, 50.0), Point(50.0, 100.0)).style.rotate == 90.0
  {
    RadianRoundTrip(90.0);
  }

  // ---------------------------------------------------------------------------
  // _initResizePoints

  /**
   * Starting a gesture leaves the box alone, records the mouse, takes the cached
   * centre, and puts the static point opposite the mouse through that centre.
   */
  lemma InitResizePointsAnchor(st: TransableState, mousePoint: Point)
    ensures var r := WithResizePoints(st, mousePoint);
      r.style == st.style && r.coordinate == st.coordinate
      && r.resizePoint.mousePoint == mousePoint
      && r.resizePoint.staticPoint == Reflect(mousePoint, r.resizePoint.centerPoint)
      && GetCenterPoint2(mousePoint, r.resizePoint.staticPoint) == r.resizePoint.centerPoint
      && (Synced(st) ==> r.resizePoint.centerPoint == BoxCentre(st.style))
  {
    if Synced(st) {
      SyncedCentre(st);
    }
  }

  // ---------------------------------------------------------------------------
  // _resize, every kind

  /**
   * A resize never moves the static point nor turns the box; it records the
   * mouse, centres the box on the new centre point, refreshes the cache and
   * keeps width and height non-negative.
   */
  lemma ResizeKeepsAnchorAndAngle(trig: Trig, st: TransableState, mousePoint: Point, kind: ResizeKind)
    requires ResizeDefined(st, kind)
    ensures var r := Resized(trig, st, mousePoint, kind);
      r.resizePoint.staticPoint == st.resizePoint.staticPoint && r.style.rotate == st.style.rotate
      && r.resizePoint.mousePoint == mousePoint && Synced(r)
      && BoxCentre(r.style) == r.resizePoint.centerPoint
      && (st.style.width >= 0.0 && st.style.height >= 0.0 ==> r.style.width >= 0.0 && r.style.height >= 0.0)
  {
  }

  /** One call of `_resize` in a gesture. */
  datatype ResizeStep = ResizeStep(mousePoint: Point, kind: ResizeKind)

  /** Every call of the sequence meets the needs of `_resize`. */
  predicate GestureDefined(trig: Trig, st: TransableState, steps: seq<ResizeStep>)
    decreases |steps|
  {
    |steps| == 0 ||
    (ResizeDefined(st, steps[0].kind) &&
     GestureDefined(trig, Resized(trig, st, steps[0].mousePoint, steps[0].kind), steps[1..]))
  }

  /** The state after the resize calls of `steps`, one after the other. */
  function Gesture(trig: Trig, st: TransableState, steps: seq<ResizeStep>): TransableState
    requires GestureDefined(trig, st, steps)
    decreases |steps|
  {
    if |steps| == 0 then st
    else Gesture(trig, Resized(trig, st, steps[0].mousePoint, steps[0].kind), steps[1..])
  }

  /** What one resize call keeps of the state it starts from. */
  predicate KeepsAnchor(st: TransableState, r: TransableState)
  {
    r.resizePoint.staticPoint == st.resizePoint.staticPoint && r.style.rotate == st.style.rotate
    && (st.style.width >= 0.0 && st.style.height >= 0.0 ==> r.style.width >= 0.0 && r.style.height >= 0.0)
  }

  /** The anchor, the angle and non-negative sizes survive any number of resize calls. */
  lemma {:induction false} GestureKeepsAnchor(trig: Trig, st: TransableState, steps: seq<ResizeStep>)
    requires GestureDefined(trig, st, steps)
    ensures KeepsAnchor(st, Gesture(trig, st, steps))
    decreases |steps|
  {
    if |steps| > 0 {
      var st1 := Resized(trig, st, steps[0].mousePoint, steps[0].kind);
      ResizeKeepsAnchorAndAngle(trig, st, steps[0].mousePoint, steps[0].kind);
      assert KeepsAnchor(st, st1);
      GestureKeepsAnchor(trig, st1, steps[1..]);
      assert Gesture(trig, st, steps) == Gesture(trig, st1, steps[1..]);
    }
  }

  /**
   * Through a whole gesture the static point stays where `_initResizePoints` put
   * it: opposite the first mouse point through the centre at that instant.
   */
  lemma GestureAfterInit(trig: Trig, st: TransableState, mousePoint: Point, steps: seq<ResizeStep>)
    requires GestureDefined(trig, WithResizePoints(st, mousePoint), steps)
    ensures var r := Gesture(trig, WithResizePoints(st, mousePoint), steps);
      r.resizePoint.staticPoint == Reflect(mousePoint, CachedCentre(st)) && r.style.rotate == st.style.rotate
  {
    GestureKeepsAnchor(trig, WithResizePoints(st, mousePoint), steps);
  }

  // ---------------------------------------------------------------------------
  // _resize, 'vertex'

  /** A corner resize centres the box on the midpoint of the mouse and the static point. */
  lemma VertexResizeCentres(trig: Trig, st: TransableState, mousePoint: Point)
    ensures var r := Resized(trig, st, mousePoint, Vertex);
      r.style.width >= 0.0 && r.style.height >= 0.0
      && r.resizePoint.centerPoint == GetCenterPoint2(mousePoint, st.resizePoint.staticPoint)
      && BoxCentre(r.style) == r.resizePoint.centerPoint
  {
  }

  /** Repeating a corner resize with the same mouse point changes nothing. */
  lemma VertexResizeIdempotent(trig: Trig, st: TransableState, mousePoint: Point)
    ensures Resized(trig, Resized(trig, st, mousePoint, Vertex), mousePoint, Vertex) == Resized(trig, st, mousePoint, Vertex)
  {
  }

  /** `p` is one of the four corners of `c`. */
  predicate IsCorner(c: Coordinate, p: Point)
  {
    p == c.lt || p == c.rt || p == c.rb || p == c.lb
  }

  /**
   * After a corner resize, the mouse point seen in the box's own frame is a
   * corner of the new box; turning the box by its angle about its centre takes
   * that corner to the mouse and the diagonally opposite corner to the static
   * point. Needs the rotation identities at the box's angle.
   */
  lemma VertexResizePivot(trig: Trig, st: TransableState, mousePoint: Point)
    requires RotationIdentities(trig, Radian(st.style.rotate))
    ensures var r := Resized(trig, st, mousePoint, Vertex);
      var c := r.resizePoint.centerPoint;
      var corner := RotatePoint(trig, mousePoint, c, -r.style.rotate);
      IsCorner(r.coordinate, corner) && IsCorner(r.coordinate, Reflect(corner, c))
      && RotatePoint(trig, corner, c, r.style.rotate) == mousePoint
      && RotatePoint(trig, Reflect(corner, c), c, r.style.rotate) == st.resizePoint.staticPoint
  {
    var r := Resized(trig, st, mousePoint, Vertex);
    var c := r.resizePoint.centerPoint;
    var a := st.style.rotate;
    var corner := RotatePoint(trig, mousePoint, c, -a);
    ResizeKeepsAnchorAndAngle(trig, st, mousePoint, Vertex);
    UndoThenRotate(trig, mousePoint, c, a);
    RotateReflect(trig, corner, c, a);
    assert Reflect(mousePoint, c) == st.resizePoint.staticPoint;
  }

  /**
   * A `'vertex'` drag of an unrotated box spans the box between the static
   * point and the mouse, whichever side of the static point the mouse is on.
   */
  lemma UnrotatedVertexResize(trig: Trig, st: TransableState, mousePoint: Point)
    requires ZeroAngle(trig) && st.style.rotate == 0.0
    ensures var s, m := st.resizePoint.staticPoint, mousePoint;
      Resized(trig, st, m, Vertex).style
        == Style(if m.x < s.x then m.x else s.x, if m.y < s.y then m.y else s.y,
                 Abs(m.x - s.x), Abs(m.y - s.y), 0.0)
  {
    var s, m := st.resizePoint.staticPoint, mousePoint;
    var c := Point((m.x + s.x) / 2.0, (m.y + s.y) / 2.0);
    assert -st.style.rotate == 0.0;
    RotateByZero(trig, m, c);
    assert Abs(m.x - c.x) * 2.0 == Abs(m.x - s.x);
    assert Abs(m.y - c.y) * 2.0 == Abs(m.y - s.y);
  }

  /**
   * The corner scenario: a 100×100 box at the origin, unrotated, grabbed at
   * (100, 100) and dragged to (150, 150) becomes a 150×150 box at the origin.
   */
  lemma VertexResizeScenario(trig: Trig)
    requires ZeroAngle(trig)
    ensures var st := Recalculated(TransableState(Style(0.0, 0.0, 100.0, 100.0, 0.0), InitialCoordinate, InitialResizePoint));
      var st1 := WithResizePoints(st, Point(100.0, 100.0));
      st1.resizePoint.staticPoint == Point(0.0, 0.0)
      && Resized(trig, st1, Point(150.0, 150.0), Vertex).style == Style(0.0, 0.0, 150.0, 150.0, 0.0)
  {
    var st := Recalculated(TransableState(Style(0.0, 0.0, 100.0, 100.0, 0.0), InitialCoordinate, InitialResizePoint));
    var st1 := WithResizePoints(st, Point(100.0, 100.0));
    assert st1.resizePoint.staticPoint == Point(0.0, 0.0);
    VertexDragFromOrigin(trig, st1);
  }

  /** The last step of the corner scenario, for any unrotated state pinned at the origin. */
  lemma VertexDragFromOrigin(trig: Trig, st: TransableState)
    requires ZeroAngle(trig) && st.style.rotate == 0.0 && st.resizePoint.staticPoint == Point(0.0, 0.0)
    ensures Resized(trig, st, Point(150.0, 150.0), Vertex).style == Style(0.0, 0.0, 150.0, 150.0, 0.0)
  {
    UnrotatedVertexResize(trig, st, Point(150.0, 150.0));
  }

  // ---------------------------------------------------------------------------
  // _resize, 'edgeX' and 'edgeY'

  /** `'edgeX'` keeps the width; the new height is non-negative; the box is centred on the new centre point. */
  lemma EdgeResizeXShape(trig: Trig, st: TransableState, mousePoint: Point)
    requires ResizeDefined(st, EdgeX)
    ensures var r := Resized(trig, st, mousePoint, EdgeX);
      r.style.width == st.style.width && r.style.height >= 0.0
      && BoxCentre(r.style) == r.resizePoint.centerPoint
  {
  }

  /** `'edgeY'` keeps the height; the new width is non-negative; the box is centred on the new centre point. */
  lemma EdgeResizeYShape(trig: Trig, st: TransableState, mousePoint: Point)
    requires ResizeDefined(st, EdgeY)
    ensures var r := Resized(trig, st, mousePoint, EdgeY);
      r.style.height == st.style.height && r.style.width >= 0.0
      && BoxCentre(r.style) == r.resizePoint.centerPoint
  {
  }

  /**
   * An edge resize moves the centre point along the axis: the new centre lies on
   * the line through the static point and the previous centre, and the point the
   * dragged edge's midpoint goes to, opposite the static point, is the foot of
   * the perpendicular from the mouse.
   */
  lemma EdgeCentreOnAxis(trig: Trig, st: TransableState, mousePoint: Point, kind: ResizeKind)
    requires kind != Vertex && ResizeDefined(st, kind)
    ensures var s := st.resizePoint.staticPoint;
      var c := st.resizePoint.centerPoint;
      var c1 := Resized(trig, st, mousePoint, kind).resizePoint.centerPoint;
      Collinear(s, c, c1)
      && Dot(Sub(mousePoint, Reflect(s, c1)), Sub(c, s)) == 0.0
  {
    var s := st.resizePoint.staticPoint;
    var c := st.resizePoint.centerPoint;
    assert Resized(trig, st, mousePoint, kind).resizePoint.centerPoint == GetCenterPoint2(EdgeFoot(s, c, mousePoint), s);
    FootMidpointOnAxis(s, c, mousePoint);
  }

  /** The midpoint of the static point and the foot lies on the axis, and reflects the static point onto the foot. */
  lemma FootMidpointOnAxis(s: Point, c: Point, m: Point)
    requires s != c
    ensures var c1 := GetCenterPoint2(EdgeFoot(s, c, m), s);
      Collinear(s, c, c1) && Reflect(s, c1) == EdgeFoot(s, c, m)
  {
    var p := EdgeFoot(s, c, m);
    var c1 := GetCenterPoint2(p, s);
    assert c1.x - s.x == (p.x - s.x) / 2.0 && c1.y - s.y == (p.y - s.y) / 2.0;
    calc {
      (c.x - s.x) * (c1.y - s.y);
      (c.x - s.x) * (p.y - s.y) / 2.0;
      (c.y - s.y) * (p.x - s.x) / 2.0;
      (c.y - s.y) * (c1.x - s.x);
    }
  }

  /**
   * A point on the axis keeps any linear relation the axis direction satisfies:
   * if `(c - s)` is square to `(u, -v)`, so is `(f - s)`.
   */
  lemma CollinearKeepsDirection(s: Point, c: Point, f: Point, u: real, v: real)
    requires s != c && Collinear(s, c, f)
    requires (c.x - s.x) * u == (c.y - s.y) * v
    ensures (f.x - s.x) * u == (f.y - s.y) * v
  {
    var d, e := Sub(c, s), Sub(f, s);
    assert d.x * e.y == d.y * e.x;
    if d.x != 0.0 {
      var q := e.x / d.x;
      assert e.x == q * d.x;
      assert d.x * e.y == d.x * (q * d.y);
      assert e.y == q * d.y;
      calc {
        e.x * u;
        q * (d.x * u);
        q * (d.y * v);
        e.y * v;
      }
    } else {
      assert d.y != 0.0;
      assert d.y * e.x == 0.0;
      assert e.x == 0.0;
      assert d.y * v == 0.0;
      assert v == 0.0;
    }
  }

  /**
   * The foot is the same whether the axis is given by the old centre or by the
   * midpoint of the foot and the static point.
   */
  lemma FootThroughNewCentre(s: Point, c: Point, m: Point)
    requires s != c
    requires s != GetCenterPoint2(EdgeFoot(s, c, m), s)
    ensures EdgeFoot(s, GetCenterPoint2(EdgeFoot(s, c, m), s), m) == EdgeFoot(s, c, m)
  {
    var f := EdgeFoot(s, c, m);
    var c1 := GetCenterPoint2(f, s);
    var w := Sub(m, f);
    CollinearKeepsDirection(s, c, f, w.x, -w.y);
    assert Dot(w, Sub(f, s)) == 0.0;
    assert Sub(c1, s) == Point((f.x - s.x) / 2.0, (f.y - s.y) / 2.0);
    assert Dot(w, Sub(c1, s)) == Dot(w, Sub(f, s)) / 2.0;
    FootUnique(s, c1, m, f);
  }

  /**
   * Repeating an edge resize with the same mouse point changes nothing, as long
   * as the new centre still differs from the static point.
   */
  lemma EdgeResizeIdempotent(trig: Trig, st: TransableState, mousePoint: Point, kind: ResizeKind)
    requires kind != Vertex && ResizeDefined(st, kind)
    requires ResizeDefined(Resized(trig, st, mousePoint, kind), kind)
    ensures Resized(trig, Resized(trig, st, mousePoint, kind), mousePoint, kind) == Resized(trig, st, mousePoint, kind)
  {
    var s := st.resizePoint.staticPoint;
    var f := EdgeFoot(s, st.resizePoint.centerPoint, mousePoint);
    assert Resized(trig, st, mousePoint, kind).resizePoint.centerPoint == GetCenterPoint2(f, s);
    FootThroughNewCentre(s, st.resizePoint.centerPoint, mousePoint);
  }

  // ---------------------------------------------------------------------------
  // Which point an edge resize holds still

  /** The axis runs along the box's rotated width: `centerPoint - staticPoint` is parallel to `(cos θ, sin θ)`. */
  predicate AxisAlongWidth(trig: Trig, st: TransableState)
  {
    var s, c := st.resizePoint.staticPoint, st.resizePoint.centerPoint;
    var rad := Radian(st.style.rotate);
    (c.x - s.x) * trig.sin(rad) == (c.y - s.y) * trig.cos(rad)
  }

  /** The axis runs along the box's rotated height: `centerPoint - staticPoint` is square to `(cos θ, sin θ)`. */
  predicate AxisAlongHeight(trig: Trig, st: TransableState)
  {
    var s, c := st.resizePoint.staticPoint, st.resizePoint.centerPoint;
    var rad := Radian(st.style.rotate);
    (c.x - s.x) * trig.cos(rad) + (c.y - s.y) * trig.sin(rad) == 0.0
  }

  /**
   * Grabbing a synced box at the middle of its (rotated) right edge puts the axis
   * along the width; grabbing it at the middle of its bottom edge puts the axis
   * along the height.
   */
  lemma EdgeGrabAlignsAxis(trig: Trig, st: TransableState)
    requires Synced(st)
    ensures var o := BoxCentre(st.style);
      var right := RotatePoint(trig, Point(st.style.left + st.style.width, st.style.top + st.style.height / 2.0), o, st.style.rotate);
      var bottom := RotatePoint(trig, Point(st.style.left + st.style.width / 2.0, st.style.top + st.style.height), o, st.style.rotate);
      AxisAlongWidth(trig, WithResizePoints(st, right)) && AxisAlongHeight(trig, WithResizePoints(st, bottom))
  {
    SyncedCentre(st);
    var o, a := BoxCentre(st.style), st.style.rotate;
    var rad := Radian(a);
    var rightEdge := Point(st.style.left + st.style.width, st.style.top + st.style.height / 2.0);
    var bottomEdge := Point(st.style.left + st.style.width / 2.0, st.style.top + st.style.height);
    var right := RotatePoint(trig, rightEdge, o, a);
    var bottom := RotatePoint(trig, bottomEdge, o, a);
    assert Sub(rightEdge, o) == Point(st.style.width / 2.0, 0.0);
    assert Sub(bottomEdge, o) == Point(0.0, st.style.height / 2.0);
    WidthOffsetParallel(trig, o, right, st.style.width / 2.0, rad);
    HeightOffsetParallel(trig, o, bottom, st.style.height / 2.0, rad);
    AxisAlongWidthFrom(trig, WithResizePoints(st, right), Reflect(right, o), o, a);
    AxisAlongHeightFrom(trig, WithResizePoints(st, bottom), Reflect(bottom, o), o, a);
  }

  /** A point `w` along the rotated width from `o` and its mirror image through `o` span a line along the width. */
  lemma WidthOffsetParallel(trig: Trig, o: Point, p: Point, w: real, rad: real)
    requires Sub(p, o) == Rotation(trig, rad, Point(w, 0.0))
    ensures Parallel(Reflect(p, o), o, trig.sin(rad), trig.cos(rad))
  {
    assert o.x - Reflect(p, o).x == w * trig.cos(rad) && o.y - Reflect(p, o).y == w * trig.sin(rad);
  }

  /** A point `h` along the rotated height from `o` and its mirror image through `o` span a line along the height. */
  lemma HeightOffsetParallel(trig: Trig, o: Point, p: Point, h: real, rad: real)
    requires Sub(p, o) == Rotation(trig, rad, Point(0.0, h))
    ensures Parallel(Reflect(p, o), o, trig.cos(rad), -trig.sin(rad))
  {
    assert o.x - Reflect(p, o).x == -(h * trig.sin(rad)) && o.y - Reflect(p, o).y == h * trig.cos(rad);
  }

  /** Turning back by the box's angle a point offset from `c` along the rotated width leaves it level with `c`. */
  lemma UnturnAlongWidth(trig: Trig, f: Point, c: Point, angle: real)
    requires EvenOdd(trig, Radian(angle))
    requires (f.x - c.x) * trig.sin(Radian(angle)) == (f.y - c.y) * trig.cos(Radian(angle))
    ensures RotatePoint(trig, f, c, -angle).y == c.y
  {
    RadianOfNegation(angle);
  }

  /** Turning back by the box's angle a point offset from `c` along the rotated height leaves it plumb with `c`. */
  lemma UnturnAlongHeight(trig: Trig, f: Point, c: Point, angle: real)
    requires EvenOdd(trig, Radian(angle))
    requires (f.x - c.x) * trig.cos(Radian(angle)) + (f.y - c.y) * trig.sin(Radian(angle)) == 0.0
    ensures RotatePoint(trig, f, c, -angle).x == c.x
  {
    RadianOfNegation(angle);
  }

  /** Of `r`'s rotated left and right edge midpoints, one is `p` and the other its mirror image through the centre. */
  predicate LeftRightMidpointsAt(trig: Trig, r: TransableState, p: Point)
  {
    var c1 := r.resizePoint.centerPoint;
    var leftMid := RotatePoint(trig, Point(r.style.left, r.style.top + r.style.height / 2.0), c1, r.style.rotate);
    var rightMid := RotatePoint(trig, Point(r.style.left + r.style.width, r.style.top + r.style.height / 2.0), c1, r.style.rotate);
    (leftMid == p && rightMid == Reflect(p, c1)) || (rightMid == p && leftMid == Reflect(p, c1))
  }

  /** Of `r`'s rotated top and bottom edge midpoints, one is `p` and the other its mirror image through the centre. */
  predicate TopBottomMidpointsAt(trig: Trig, r: TransableState, p: Point)
  {
    var c1 := r.resizePoint.centerPoint;
    var topMid := RotatePoint(trig, Point(r.style.left + r.style.width / 2.0, r.style.top), c1, r.style.rotate);
    var bottomMid := RotatePoint(trig, Point(r.style.left + r.style.width / 2.0, r.style.top + r.style.height), c1, r.style.rotate);
    (topMid == p && bottomMid == Reflect(p, c1)) || (bottomMid == p && topMid == Reflect(p, c1))
  }

  /**
   * When the edge point `f`, turned back about the new centre, is level with it,
   * `_edgeResizeY` puts `f` at one of the rotated left and right edge midpoints
   * and its mirror image through the centre at the other.
   */
  lemma EdgeResizedYMidpoints(trig: Trig, st1: TransableState, f: Point)
    requires RotationIdentities(trig, Radian(st1.style.rotate))
    requires RotatePoint(trig, f, st1.resizePoint.centerPoint, -st1.style.rotate).y == st1.resizePoint.centerPoint.y
    ensures var c1, a := st1.resizePoint.centerPoint, st1.style.rotate;
      var r := EdgeResizedY(st1, RotatePoint(trig, f, c1, -a));
      var leftMid := RotatePoint(trig, Point(r.style.left, r.style.top + r.style.height / 2.0), c1, a);
      var rightMid := RotatePoint(trig, Point(r.style.left + r.style.width, r.style.top + r.style.height / 2.0), c1, a);
      (rightMid == f && leftMid == Reflect(f, c1)) || (leftMid == f && rightMid == Reflect(f, c1))
  {
    var c1, a := st1.resizePoint.centerPoint, st1.style.rotate;
    var before := RotatePoint(trig, f, c1, -a);
    var r := EdgeResizedY(st1, before);
    UndoThenRotate(trig, f, c1, a);
    RotateReflect(trig, before, c1, a);
    var lm := Point(r.style.left, r.style.top + r.style.height / 2.0);
    var rm := Point(r.style.left + r.style.width, r.style.top + r.style.height / 2.0);
    if before.x >= c1.x {
      assert rm == before && lm == Reflect(before, c1);
    } else {
      assert lm == before && rm == Reflect(before, c1);
    }
  }

  /**
   * When the edge point `f`, turned back about the new centre, is plumb with it,
   * `_edgeResizeX` puts `f` at one of the rotated top and bottom edge midpoints
   * and its mirror image through the centre at the other.
   */
  lemma EdgeResizedXMidpoints(trig: Trig, st1: TransableState, f: Point)
    requires RotationIdentities(trig, Radian(st1.style.rotate))
    requires RotatePoint(trig, f, st1.resizePoint.centerPoint, -st1.style.rotate).x == st1.resizePoint.centerPoint.x
    ensures var c1, a := st1.resizePoint.centerPoint, st1.style.rotate;
      var r := EdgeResizedX(st1, RotatePoint(trig, f, c1, -a));
      var topMid := RotatePoint(trig, Point(r.style.left + r.style.width / 2.0, r.style.top), c1, a);
      var bottomMid := RotatePoint(trig, Point(r.style.left + r.style.width / 2.0, r.style.top + r.style.height), c1, a);
      (bottomMid == f && topMid == Reflect(f, c1)) || (topMid == f && bottomMid == Reflect(f, c1))
  {
    var c1, a := st1.resizePoint.centerPoint, st1.style.rotate;
    var before := RotatePoint(trig, f, c1, -a);
    var r := EdgeResizedX(st1, before);
    UndoThenRotate(trig, f, c1, a);
    RotateReflect(trig, before, c1, a);
    var tm := Point(r.style.left + r.style.width / 2.0, r.style.top);
    var bm := Point(r.style.left + r.style.width / 2.0, r.style.top + r.style.height);
    if before.y >= c1.y {
      assert bm == before && tm == Reflect(before, c1);
    } else {
      assert tm == before && bm == Reflect(before, c1);
    }
  }

  /** With the axis along the width, the edge point turned back about the new centre is level with it. */
  lemma EdgeFootLevelAlongWidth(trig: Trig, st: TransableState, mousePoint: Point)
    requires ResizeDefined(st, EdgeY)
    requires EvenOdd(trig, Radian(st.style.rotate))
    requires AxisAlongWidth(trig, st)
    ensures var s := st.resizePoint.staticPoint;
      var f := EdgeFoot(s, st.resizePoint.centerPoint, mousePoint);
      var c1 := GetCenterPoint2(f, s);
      RotatePoint(trig, f, c1, -st.style.rotate).y == c1.y
  {
    var s, c, a := st.resizePoint.staticPoint, st.resizePoint.centerPoint, st.style.rotate;
    var rad := Radian(a);
    var f := EdgeFoot(s, c, mousePoint);
    CollinearKeepsDirection(s, c, f, trig.sin(rad), trig.cos(rad));
    UnturnAlongWidth(trig, f, GetCenterPoint2(f, s), a);
  }

  /** With the axis along the height, the edge point turned back about the new centre is plumb with it. */
  lemma EdgeFootPlumbAlongHeight(trig: Trig, st: TransableState, mousePoint: Point)
    requires ResizeDefined(st, EdgeX)
    requires EvenOdd(trig, Radian(st.style.rotate))
    requires AxisAlongHeight(trig, st)
    ensures var s := st.resizePoint.staticPoint;
      var f := EdgeFoot(s, st.resizePoint.centerPoint, mousePoint);
      var c1 := GetCenterPoint2(f, s);
      RotatePoint(trig, f, c1, -st.style.rotate).x == c1.x
  {
    var s, c, a := st.resizePoint.staticPoint, st.resizePoint.centerPoint, st.style.rotate;
    var rad := Radian(a);
    var f := EdgeFoot(s, c, mousePoint);
    CollinearKeepsDirection(s, c, f, trig.cos(rad), -trig.sin(rad));
    UnturnAlongHeight(trig, f, GetCenterPoint2(f, s), a);
  }

  /**
   * With the axis along the width, `'edgeY'` keeps the height and the resized
   * box's rotated left and right edge midpoints land one on the static point and
   * the other on the foot of the perpendicular from the mouse: the opposite edge
   * stays where it was.
   */
  lemma EdgeYPinsStaticPoint(trig: Trig, st: TransableState, mousePoint: Point)
    requires ResizeDefined(st, EdgeY)
    requires RotationIdentities(trig, Radian(st.style.rotate))
    requires AxisAlongWidth(trig, st)
    ensures var r := Resized(trig, st, mousePoint, EdgeY);
      r.style.height == st.style.height && r.style.rotate == st.style.rotate
      && LeftRightMidpointsAt(trig, r, st.resizePoint.staticPoint)
  {
    var s, c, a := st.resizePoint.staticPoint, st.resizePoint.centerPoint, st.style.rotate;
    var f := EdgeFoot(s, c, mousePoint);
    var c1 := GetCenterPoint2(f, s);
    var r := Resized(trig, st, mousePoint, EdgeY);
    var st1 := st.(resizePoint := st.resizePoint.(mousePoint := mousePoint, centerPoint := c1));
    assert r.style == EdgeResizedY(st1, RotatePoint(trig, f, c1, -a)).style;
    EdgeFootLevelAlongWidth(trig, st, mousePoint);
    EdgeResizedYMidpoints(trig, st1, f);
    assert Reflect(f, c1) == s && Reflect(s, c1) == f;
  }

  /**
   * With the axis along the height, `'edgeX'` keeps the width and the resized
   * box's rotated top and bottom edge midpoints land one on the static point and
   * the other on the foot of the perpendicular from the mouse.
   */
  lemma EdgeXPinsStaticPoint(trig: Trig, st: TransableState, mousePoint: Point)
    requires ResizeDefined(st, EdgeX)
    requires RotationIdentities(trig, Radian(st.style.rotate))
    requires AxisAlongHeight(trig, st)
    ensures var r := Resized(trig, st, mousePoint, EdgeX);
      r.style.width == st.style.width && r.style.rotate == st.style.rotate
      && TopBottomMidpointsAt(trig, r, st.resizePoint.staticPoint)
  {
    var s, c, a := st.resizePoint.staticPoint, st.resizePoint.centerPoint, st.style.rotate;
    var f := EdgeFoot(s, c, mousePoint);
    var c1 := GetCenterPoint2(f, s);
    var r := Resized(trig, st, mousePoint, EdgeX);
    var st1 := st.(resizePoint := st.resizePoint.(mousePoint := mousePoint, centerPoint := c1));
    assert r.style == EdgeResizedX(st1, RotatePoint(trig, f, c1, -a)).style;
    EdgeFootPlumbAlongHeight(trig, st, mousePoint);
    EdgeResizedXMidpoints(trig, st1, f);
    assert Reflect(f, c1) == s && Reflect(s, c1) == f;
  }

  /** `p - s` runs along the direction `(v, u)`. */
  predicate Parallel(s: Point, p: Point, u: real, v: real)
  {
    (p.x - s.x) * u == (p.y - s.y) * v
  }

  /** The new centre of an edge resize lies in the direction from `s` that the old centre does. */
  lemma FootMidpointKeepsDirection(s: Point, c: Point, m: Point, u: real, v: real)
    requires s != c && Parallel(s, c, u, v)
    ensures Parallel(s, GetCenterPoint2(EdgeFoot(s, c, m), s), u, v)
  {
    var f := EdgeFoot(s, c, m);
    CollinearKeepsDirection(s, c, f, u, v);
    var c1 := GetCenterPoint2(f, s);
    assert c1.x - s.x == (f.x - s.x) / 2.0 && c1.y - s.y == (f.y - s.y) / 2.0;
  }

  /** `AxisAlongWidth` read off the static point, the centre and the angle. */
  lemma AxisAlongWidthFrom(trig: Trig, r: TransableState, s: Point, c1: Point, angle: real)
    requires r.resizePoint.staticPoint == s && r.resizePoint.centerPoint == c1 && r.style.rotate == angle
    requires Parallel(s, c1, trig.sin(Radian(angle)), trig.cos(Radian(angle)))
    ensures AxisAlongWidth(trig, r)
  {
  }

  /** `AxisAlongHeight` read off the static point, the centre and the angle. */
  lemma AxisAlongHeightFrom(trig: Trig, r: TransableState, s: Point, c1: Point, angle: real)
    requires r.resizePoint.staticPoint == s && r.resizePoint.centerPoint == c1 && r.style.rotate == angle
    requires Parallel(s, c1, trig.cos(Radian(angle)), -trig.sin(Radian(angle)))
    ensures AxisAlongHeight(trig, r)
  {
    assert (c1.y - s.y) * -trig.sin(Radian(angle)) == -((c1.y - s.y) * trig.sin(Radian(angle)));
  }

  /** `'edgeY'` keeps the axis along the width: the new centre stays on the old axis and the angle is kept. */
  lemma EdgeYKeepsAxisAlongWidth(trig: Trig, st: TransableState, mousePoint: Point)
    requires ResizeDefined(st, EdgeY) && AxisAlongWidth(trig, st)
    ensures AxisAlongWidth(trig, Resized(trig, st, mousePoint, EdgeY))
  {
    var s, c := st.resizePoint.staticPoint, st.resizePoint.centerPoint;
    var rad := Radian(st.style.rotate);
    FootMidpointKeepsDirection(s, c, mousePoint, trig.sin(rad), trig.cos(rad));
    var c1 := GetCenterPoint2(EdgeFoot(s, c, mousePoint), s);
    AxisAlongWidthFrom(trig, Resized(trig, st, mousePoint, EdgeY), s, c1, st.style.rotate);
  }

  /** `'edgeX'` keeps the axis along the height. */
  lemma EdgeXKeepsAxisAlongHeight(trig: Trig, st: TransableState, mousePoint: Point)
    requires ResizeDefined(st, EdgeX) && AxisAlongHeight(trig, st)
    ensures AxisAlongHeight(trig, Resized(trig, st, mousePoint, EdgeX))
  {
    var s, c := st.resizePoint.staticPoint, st.resizePoint.centerPoint;
    var rad := Radian(st.style.rotate);
    assert (c.x - s.x) * trig.cos(rad) == (c.y - s.y) * -trig.sin(rad);
    FootMidpointKeepsDirection(s, c, mousePoint, trig.cos(rad), -trig.sin(rad));
    var c1 := GetCenterPoint2(EdgeFoot(s, c, mousePoint), s);
    AxisAlongHeightFrom(trig, Resized(trig, st, mousePoint, EdgeX), s, c1, st.style.rotate);
  }

  /** Every call of `steps` is of `kind`. */
  predicate AllOfKind(steps: seq<ResizeStep>, kind: ResizeKind)
  {
    forall i :: 0 <= i < |steps| ==> steps[i].kind == kind
  }

  /** A run of `'edgeY'` calls keeps the axis along the width. */
  lemma {:induction false} EdgeYGestureKeepsAxis(trig: Trig, st: TransableState, steps: seq<ResizeStep>)
    requires GestureDefined(trig, st, steps) && AllOfKind(steps, EdgeY) && AxisAlongWidth(trig, st)
    ensures AxisAlongWidth(trig, Gesture(trig, st, steps))
    decreases |steps|
  {
    if |steps| > 0 {
      var st1 := Resized(trig, st, steps[0].mousePoint, EdgeY);
      EdgeYKeepsAxisAlongWidth(trig, st, steps[0].mousePoint);
      assert AllOfKind(steps[1..], EdgeY) by {
        forall i | 0 <= i < |steps[1..]| ensures steps[1..][i].kind == EdgeY {
          assert steps[1..][i] == steps[i + 1];
        }
      }
      EdgeYGestureKeepsAxis(trig, st1, steps[1..]);
    }
  }

  /** A run of `'edgeX'` calls keeps the axis along the height. */
  lemma {:induction false} EdgeXGestureKeepsAxis(trig: Trig, st: TransableState, steps: seq<ResizeStep>)
    requires GestureDefined(trig, st, steps) && AllOfKind(steps, EdgeX) && AxisAlongHeight(trig, st)
    ensures AxisAlongHeight(trig, Gesture(trig, st, steps))
    decreases |steps|
  {
    if |steps| > 0 {
      var st1 := Resized(trig, st, steps[0].mousePoint, EdgeX);
      EdgeXKeepsAxisAlongHeight(trig, st, steps[0].mousePoint);
      assert AllOfKind(steps[1..], EdgeX) by {
        forall i | 0 <= i < |steps[1..]| ensures steps[1..][i].kind == EdgeX {
          assert steps[1..][i] == steps[i + 1];
        }
      }
      EdgeXGestureKeepsAxis(trig, st1, steps[1..]);
    }
  }

  /**
   * However many `'edgeY'` calls a gesture has made, the next one still leaves
   * one of the rotated left and right edge midpoints on the static point that
   * the gesture started with.
   */
  lemma EdgeYGesturePinsStaticPoint(trig: Trig, st: TransableState, steps: seq<ResizeStep>, mousePoint: Point)
    requires RotationIdentities(trig, Radian(st.style.rotate)) && AxisAlongWidth(trig, st)
    requires GestureDefined(trig, st, steps) && AllOfKind(steps, EdgeY)
    requires ResizeDefined(Gesture(trig, st, steps), EdgeY)
    ensures LeftRightMidpointsAt(trig, Resized(trig, Gesture(trig, st, steps), mousePoint, EdgeY), st.resizePoint.staticPoint)
  {
    GestureKeepsAnchor(trig, st, steps);
    EdgeYGestureKeepsAxis(trig, st, steps);
    EdgeYPinsStaticPoint(trig, Gesture(trig, st, steps), mousePoint);
  }

  /**
   * However many `'edgeX'` calls a gesture has made, the next one still leaves
   * one of the rotated top and bottom edge midpoints on the static point that
   * the gesture started with.
   */
  lemma EdgeXGesturePinsStaticPoint(trig: Trig, st: TransableState, steps: seq<ResizeStep>, mousePoint: Point)
    requires RotationIdentities(trig, Radian(st.style.rotate)) && AxisAlongHeight(trig, st)
    requires GestureDefined(trig, st, steps) && AllOfKind(steps, EdgeX)
    requires ResizeDefined(Gesture(trig, st, steps), EdgeX)
    ensures TopBottomMidpointsAt(trig, Resized(trig, Gesture(trig, st, steps), mousePoint, EdgeX), st.resizePoint.staticPoint)
  {
    GestureKeepsAnchor(trig, st, steps);
    EdgeXGestureKeepsAxis(trig, st, steps);
    EdgeXPinsStaticPoint(trig, Gesture(trig, st, steps), mousePoint);
  }

  // ---------------------------------------------------------------------------
  // The slope construction on an unrotated box

  /**
   * An unrotated box grabbed at the middle of its right edge gets a horizontal
   * axis: the slope construction needs the perpendicular slope `-1 / 0`, while
   * the foot of the perpendicular is still defined.
   */
  lemma UnrotatedEdgeGrabHasNoAxis(st: TransableState)
    requires Synced(st) && st.style.width != 0.0
    ensures var grab := Point(st.style.left + st.style.width, st.style.top + st.style.height / 2.0);
      var st1 := WithResizePoints(st, grab);
      var s, c := st1.resizePoint.staticPoint, st1.resizePoint.centerPoint;
      !AxisDefined(s, c) && s.x != c.x && GetSlopeAndIntercept(s, c).slope == 0.0
      && ResizeDefined(st1, EdgeY)
  {
    SyncedCentre(st);
  }

  /**
   * With the foot of the perpendicular, an `'edgeY'` drag of an unrotated box
   * on a level axis spans the box from the static point to the mouse's x: the
   * mouse's y, the top and the height play no part.
   */
  lemma UnrotatedEdgeYResize(trig: Trig, st: TransableState, mousePoint: Point)
    requires ZeroAngle(trig) && st.style.rotate == 0.0
    requires st.resizePoint.staticPoint.x != st.resizePoint.centerPoint.x
    requires st.resizePoint.staticPoint.y == st.resizePoint.centerPoint.y
    ensures var s := st.resizePoint.staticPoint;
      Resized(trig, st, mousePoint, EdgeY).style
        == Style(if mousePoint.x < s.x then mousePoint.x else s.x, s.y - st.style.height / 2.0,
                 Abs(mousePoint.x - s.x), st.style.height, 0.0)
  {
    var s, c := st.resizePoint.staticPoint, st.resizePoint.centerPoint;
    EdgeFootOnLevelAxis(s, c, mousePoint);
    var f := Point(mousePoint.x, s.y);
    var c1 := Point((f.x + s.x) / 2.0, (f.y + s.y) / 2.0);
    assert -st.style.rotate == 0.0;
    RotateByZero(trig, f, c1);
    assert Abs(f.x - c1.x) * 2.0 == Abs(mousePoint.x - s.x);
  }

  /** On a level axis the foot of the perpendicular keeps the mouse's x and the axis's y. */
  lemma EdgeFootOnLevelAxis(s: Point, c: Point, m: Point)
    requires s.x != c.x && s.y == c.y
    ensures EdgeFoot(s, c, m) == Point(m.x, s.y)
  {
    var k := (c.y - s.y) / (c.x - s.x);
    assert k == 0.0;
  }
}
