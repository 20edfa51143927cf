/**
 * The part of JavaScript's `Math` the engine uses. `Math.sin`, `Math.cos` and
 * `Math.atan2` are not modelled: they travel as the fields of a `Trig` value that
 * every caller passes in, and a lemma that needs one of their identities names
 * it in its `requires`. Numbers are exact reals: no rounding.
 */
module JsMath {

  /** Uninterpreted `Math.sin`, `Math.cos` (radians) and `Math.atan2(y, x)`. */
  datatype Trig = Trig(sin: real -> real, cos: real -> real, atan2: (real, real) -> real)

  /** `Math.PI`, written as the shortest decimal of the double. */
  const PI: real := 3.141592653589793

  /** The `180 / Math.PI` ratio that turns radians into degrees. */
  const DegreesPerRadian: real := 180.0 / PI

  /** `Math.abs`. */
  function Abs(x: real): (r: real)
    ensures r >= 0.0
    ensures r == x || r == -x
  {
    if x < 0.0 then -x else x
  }

  /** `angle * Math.PI / 180`: degrees to radians. */
  function Radian(angle: real): real
  {
    angle * PI / 180.0
  }

  /** `cos 0 = 1` and `sin 0 = 0`. */
  predicate ZeroAngle(trig: Trig)
  {
    trig.cos(0.0) == 1.0 && trig.sin(0.0) == 0.0
  }

  /** Cosine is even and sine is odd at `r`. */
  predicate EvenOdd(trig: Trig, r: real)
  {
    trig.cos(-r) == trig.cos(r) && trig.sin(-r) == -trig.sin(r)
  }

  /** `sin² r + cos² r = 1`. */
  predicate Pythagorean(trig: Trig, r: real)
  {
    trig.sin(r) * trig.sin(r) + trig.cos(r) * trig.cos(r) == 1.0
  }

  /** The identities a rotation and its inverse need at `r`. */
  predicate RotationIdentities(trig: Trig, r: real)
  {
    EvenOdd(trig, r) && Pythagorean(trig, r)
  }

  /** The identities at `r` give them at `-r`. */
  lemma IdentitiesAtNegation(trig: Trig, r: real)
    requires RotationIdentities(trig, r)
    ensures RotationIdentities(trig, -r)
  {
    assert -(-r) == r;
  }

  /** Negating degrees negates radians. */
  lemma RadianOfNegation(angle: real)
    ensures Radian(-angle) == -Radian(angle)
  {
  }

  /** Degrees to radians and back is the identity. */
  lemma RadianRoundTrip(angle: real)
    ensures Radian(angle) * DegreesPerRadian == angle
  {
  }
}
