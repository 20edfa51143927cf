/**
 * lib/utils.ts: its own copy of `rotatePoint`. The DOM-reading `getCenterPoint`
 * of that file is not part of this model.
 */
module Utils {
  import opened Types
  import opened JsMath
  import CoreUtils

  /**
   * `rotatePoint`, written out again exactly as this file has it: the result's
   * offset from the centre is the rotated offset of `currentPoint`.
   */
  function RotatePoint(trig: Trig, currentPoint: Point, centerPoint: Point, angle: real): (r: Point)
    ensures Sub(r, centerPoint) == CoreUtils.Rotation(trig, Radian(angle), Sub(currentPoint, centerPoint))
  {
    var radian := Radian(angle);
    var dx := currentPoint.x - centerPoint.x;
    var dy := currentPoint.y - centerPoint.y;
    var x := dx * trig.cos(radian) - dy * trig.sin(radian) + centerPoint.x;
    var y := dx * trig.sin(radian) + dy * trig.cos(radian) + centerPoint.y;
    assert x - centerPoint.x == CoreUtils.Rotation(trig, radian, Sub(currentPoint, centerPoint)).x;
    assert y - centerPoint.y == CoreUtils.Rotation(trig, radian, Sub(currentPoint, centerPoint)).y;
    Point(x, y)
  }

  /** This copy and the one in lib/core/utils.ts agree on every input. */
  lemma SameAsCore(trig: Trig, p: Point, c: Point, angle: real)
    ensures RotatePoint(trig, p, c, angle) == CoreUtils.RotatePoint(trig, p, c, angle)
  {
  }

  /** The centre is a fixed point of every rotation about it. */
  lemma RotateCentreFixed(trig: Trig, c: Point, angle: real)
    ensures RotatePoint(trig, c, c, angle) == c
  {
    SameAsCore(trig, c, c, angle);
    CoreUtils.RotateCentreFixed(trig, c, angle);
  }

  /** Moving point and centre by `t` moves the result by `t`. */
  lemma RotateTranslationEquivariant(trig: Trig, p: Point, c: Point, t: Point, angle: real)
    ensures RotatePoint(trig, Translate(p, t), Translate(c, t), angle) == Translate(RotatePoint(trig, p, c, angle), t)
  {
    SameAsCore(trig, p, c, angle);
    SameAsCore(trig, Translate(p, t), Translate(c, t), angle);
    CoreUtils.RotateTranslationEquivariant(trig, p, c, t, angle);
  }

  /** Rotating by 0 degrees is the identity, given `cos 0 = 1` and `sin 0 = 0`. */
  lemma RotateByZero(trig: Trig, p: Point, c: Point)
    requires ZeroAngle(trig)
    ensures RotatePoint(trig, p, c, 0.0) == p
  {
    SameAsCore(trig, p, c, 0.0);
    CoreUtils.RotateByZero(trig, p, c);
  }
}
