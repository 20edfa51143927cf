/**
 * lib/core/utils.ts: `rotatePoint`, plus the line helpers the transform engine
 * imports from the same module. Only `rotatePoint` is present in the source we
 * model; the other five are RECONSTRUCTED from their names and from how
 * lib/core/tranable.ts uses them (textbook slope/intercept formulas), each with
 * the non-zero denominators it needs stated as a `requires`.
 */
module CoreUtils {
  import opened Types
  import opened JsMath

  /**
   * `rotatePoint(currentPoint, centerPoint, angle)`: move to the centre, apply
   * the rotation matrix for `angle` degrees, move back. The result's offset from
   * the centre is the rotated offset of `currentPoint`.
   */
  function RotatePoint(trig: Trig, currentPoint: Point, centerPoint: Point, angle: real): (r: Point)
    ensures Sub(r, centerPoint) == Rotation(trig, Radian(angle), Sub(currentPoint, centerPoint))
  {
    var radian := Radian(angle);
    var dx := currentPoint.x - centerPoint.x;
    var dy := currentPoint.y - centerPoint.y;
    var x := dx * trig.cos(radian) - dy * trig.sin(radian) + centerPoint.x;
    var y := dx * trig.sin(radian) + dy * trig.cos(radian) + centerPoint.y;
    assert x - centerPoint.x == Rotation(trig, radian, Sub(currentPoint, centerPoint)).x;
    assert y - centerPoint.y == Rotation(trig, radian, Sub(currentPoint, centerPoint)).y;
    Point(x, y)
  }

  /** The rotation matrix `R(radian)` applied to the vector `v`. */
  function Rotation(trig: Trig, radian: real, v: Point): Point
  {
    Point(v.x * trig.cos(radian) - v.y * trig.sin(radian),
          v.x * trig.sin(radian) + v.y * trig.cos(radian))
  }

  /** The centre is a fixed point of every rotation about it. */
  lemma RotateCentreFixed(trig: Trig, c: Point, angle: real)
    ensures RotatePoint(trig, c, c, angle) == c
  {
  }

  /** Moving point and centre by `t` moves the result by `t`. */
  lemma RotateTranslationEquivariant(trig: Trig, p: Point, c: Point, t: Point, angle: real)
    ensures RotatePoint(trig, Translate(p, t), Translate(c, t), angle) == Translate(RotatePoint(trig, p, c, angle), t)
  {
  }

  /** Rotating by 0 degrees is the identity, given `cos 0 = 1` and `sin 0 = 0`. */
  lemma RotateByZero(trig: Trig, p: Point, c: Point)
    requires ZeroAngle(trig)
    ensures RotatePoint(trig, p, c, 0.0) == p
  {
  }

  /** A rotation matrix keeps the squared length of a vector. */
  lemma RotationKeepsLength(trig: Trig, r: real, v: Point)
    requires Pythagorean(trig, r)
    ensures Dist2(Rotation(trig, r, v), Point(0.0, 0.0)) == Dist2(v, Point(0.0, 0.0))
  {
    var c, s := trig.cos(r), trig.sin(r);
    var w := Rotation(trig, r, v);
    calc {
      Dist2(w, Point(0.0, 0.0));
      (v.x * c - v.y * s) * (v.x * c - v.y * s) + (v.x * s + v.y * c) * (v.x * s + v.y * c);
      v.x * v.x * (s * s + c * c) + v.y * v.y * (s * s + c * c);
      { assert s * s + c * c == 1.0; }
      v.x * v.x * 1.0 + v.y * v.y * 1.0;
      Dist2(v, Point(0.0, 0.0));
    }
  }

  /** Rotating keeps the squared distance to the centre, given `sin² + cos² = 1`. */
  lemma RotateKeepsDistance(trig: Trig, p: Point, c: Point, angle: real)
    requires Pythagorean(trig, Radian(angle))
    ensures Dist2(RotatePoint(trig, p, c, angle), c) == Dist2(p, c)
  {
    RotationKeepsLength(trig, Radian(angle), Sub(p, c));
  }

  /** `R(−r)` undoes `R(r)`, given the even/odd and Pythagorean identities at `r`. */
  lemma RotationUndo(trig: Trig, r: real, v: Point)
    requires RotationIdentities(trig, r)
    ensures Rotation(trig, -r, Rotation(trig, r, v)) == v
  {
    var c, s := trig.cos(r), trig.sin(r);
    var w := Rotation(trig, r, v);
    assert trig.cos(-r) == c && trig.sin(-r) == -s;
    calc {
      Rotation(trig, -r, w).x;
      w.x * c + w.y * s;
      (v.x * c - v.y * s) * c + (v.x * s + v.y * c) * s;
      v.x * (s * s + c * c);
      { assert s * s + c * c == 1.0; }
      v.x;
    }
    calc {
      Rotation(trig, -r, w).y;
      -w.x * s + w.y * c;
      -(v.x * c - v.y * s) * s + (v.x * s + v.y * c) * c;
      v.y * (s * s + c * c);
      { assert s * s + c * c == 1.0; }
      v.y;
    }
  }

  /**
   * Rotating by `angle` and then by `-angle` about the same centre gives the
   * point back: the undo step the resize gestures rely on.
   */
  lemma RotateThenUndo(trig: Trig, p: Point, c: Point, angle: real)
    requires RotationIdentities(trig, Radian(angle))
    ensures RotatePoint(trig, RotatePoint(trig, p, c, angle), c, -angle) == p
  {
    var r := Radian(angle);
    RadianOfNegation(angle);
    RotationUndo(trig, r, Sub(p, c));
  }

  /** The same in the other order: undo by `-angle` first, then redo by `angle`. */
  lemma UndoThenRotate(trig: Trig, p: Point, c: Point, angle: real)
    requires RotationIdentities(trig, Radian(angle))
    ensures RotatePoint(trig, RotatePoint(trig, p, c, -angle), c, angle) == p
  {
    RadianOfNegation(angle);
    IdentitiesAtNegation(trig, Radian(angle));
    RotateThenUndo(trig, p, c, -angle);
    assert -(-angle) == angle;
  }

  /** Rotation about `c` commutes with the point reflection through `c`. */
  lemma RotateReflect(trig: Trig, p: Point, c: Point, angle: real)
    ensures RotatePoint(trig, Reflect(p, c), c, angle) == Reflect(RotatePoint(trig, p, c, angle), c)
  {
    var r := Radian(angle);
    var q := Reflect(p, c);
    assert q.x - c.x == -(p.x - c.x) && q.y - c.y == -(p.y - c.y);
  }

  // ---------------------------------------------------------------------------
  // Reconstructed line helpers (not part of the lib/core/utils.ts we model).

  /** A non-vertical line `y = slope * x + intercept`. */
  datatype Line = Line(slope: real, intercept: real)

  predicate OnLine(l: Line, p: Point)
  {
    p.y == l.slope * p.x + l.intercept
  }

  /** Reconstructed `getCenterPoint2`: the midpoint of `a` and `b`. */
  function GetCenterPoint2(a: Point, b: Point): (r: Point)
    ensures r.x - a.x == b.x - r.x && r.y - a.y == b.y - r.y
  {
    Point((a.x + b.x) / 2.0, (a.y + b.y) / 2.0)
  }

  /** Reconstructed `getSlopeAndIntercept`: the line through two points with different x. */
  function GetSlopeAndIntercept(p1: Point, p2: Point): (r: Line)
    requires p1.x != p2.x
    ensures OnLine(r, p1) && OnLine(r, p2)
  {
    var k := (p2.y - p1.y) / (p2.x - p1.x);
    assert k * (p2.x - p1.x) == p2.y - p1.y;
    Line(k, p1.y - k * p1.x)
  }

  /** Reconstructed `getVerticalSlope`: the slope perpendicular to `k`. */
  function GetVerticalSlope(k: real): (r: real)
    requires k != 0.0
    ensures r * k == -1.0
  {
    -1.0 / k
  }

  /** Reconstructed `getPointBySlopeOrIntercept`, slope given: the line with that slope through `p`. */
  function GetPointBySlopeOrIntercept(p: Point, slope: real): (r: Line)
    ensures r.slope == slope && OnLine(r, p)
  {
    Line(slope, p.y - slope * p.x)
  }

  /** Reconstructed `getIntersectionPoint`: where two lines of different slopes meet. */
  function GetIntersectionPoint(l1: Line, l2: Line): (r: Point)
    requires l1.slope != l2.slope
    ensures OnLine(l1, r) && OnLine(l2, r)
  {
    var x := (l2.intercept - l1.intercept) / (l1.slope - l2.slope);
    assert x * (l1.slope - l2.slope) == l2.intercept - l1.intercept;
    Point(x, l1.slope * x + l1.intercept)
  }

  /** Two points with different x lie on exactly one line. */
  lemma LineThroughTwoPointsUnique(l: Line, p1: Point, p2: Point)
    requires p1.x != p2.x && OnLine(l, p1) && OnLine(l, p2)
    ensures l == GetSlopeAndIntercept(p1, p2)
  {
    var m := GetSlopeAndIntercept(p1, p2);
    assert (l.slope - m.slope) * (p2.x - p1.x) == 0.0;
  }

  /** Two lines of different slopes meet in one point only. */
  lemma IntersectionUnique(l1: Line, l2: Line, p: Point)
    requires l1.slope != l2.slope && OnLine(l1, p) && OnLine(l2, p)
    ensures p == GetIntersectionPoint(l1, l2)
  {
    var q := GetIntersectionPoint(l1, l2);
    assert (l1.slope - l2.slope) * (p.x - q.x) == 0.0;
  }
}
