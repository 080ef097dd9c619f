/** The angle arithmetic of the perspective-taking test: the egocentric "correct"
    angle after atan2, the dial angle from a pointer position, the display-only
    mirror of the red feedback line, and the shortest-arc error between two angles.

    Trigonometry is abstracted: `atan2` is a parameter whose values are only known
    to lie in [-180, 180] degrees. Dot and cross products are taken on the integer
    scene vectors without normalising the facing direction, since dividing both
    arguments of atan2 by the same positive length leaves its value unchanged. */
module Geometry {
  import opened JsMath

  /** A 2-D vector in the scene's percentage coordinates (y grows downward). */
  datatype Vec = Vec(x: int, y: int)

  function Sub(a: Vec, b: Vec): Vec { Vec(a.x - b.x, a.y - b.y) }

  function Dot(a: Vec, b: Vec): int { a.x * b.x + a.y * b.y }

  /** The scalar 2-D cross product `a.x * b.y - a.y * b.x`. */
  function Cross(a: Vec, b: Vec): int { a.x * b.y - a.y * b.x }

  /** `Math.atan2(y, x) * 180 / Math.PI` as far as the model knows it. */
  ghost predicate Atan2Range(atan2: (int, int) -> real)
  {
    forall y: int, x: int :: -180.0 <= atan2(y, x) <= 180.0
  }

  /** atan2 of a point on the positive x axis is 0. */
  ghost predicate Atan2ZeroAhead(atan2: (int, int) -> real)
  {
    forall x: int :: x > 0 ==> atan2(0, x) == 0.0
  }

  /** A vector's dot product with itself is positive unless it is zero. */
  lemma DotSelfPositive(v: Vec)
    requires v != Vec(0, 0)
    ensures Dot(v, v) > 0
  {
    if v.x != 0 {
      assert v.x * v.x > 0;
    } else {
      assert v.y * v.y > 0;
    }
  }

  /** Negate the raw atan2 degrees, bring them into [0, 360) with `(a + 360) % 360`,
      then mirror with `(180 + a) % 360`. */
  function CorrectAngleFromRaw(raw: real): (angle: real)
    requires -180.0 <= raw <= 180.0
    ensures 0.0 <= angle < 360.0
  {
    var clockwise := -raw;
    var normalised := Rem360(clockwise + 360.0);
    Rem360(180.0 + normalised)
  }

  /** The correct angle is the bearing `180 - raw` taken modulo 360. */
  lemma CorrectAngleIsMirroredBearing(raw: real)
    requires -180.0 <= raw <= 180.0
    ensures CorrectAngleFromRaw(raw) == Normalize360(180.0 - raw)
  {
    if raw > -180.0 {
      NormalizeUnique(180.0 - raw, 180.0 - raw, 0);
    } else {
      NormalizeUnique(180.0 - raw, 0.0, 1);
    }
  }

  /** The dial angle from a pointer: raw `atan2(dy, dx)` degrees, brought into
      [0, 360), then turned by 90 so that straight up reads 0. */
  function PointerAngle(raw: real): (angle: real)
    requires -180.0 <= raw <= 180.0
    ensures 0.0 <= angle < 360.0
  {
    var normalised := Rem360(raw + 360.0);
    Rem360(normalised + 90.0)
  }

  /** The dial angle is the screen bearing `raw + 90` taken modulo 360. */
  lemma PointerAngleIsBearing(raw: real)
    requires -180.0 <= raw <= 180.0
    ensures PointerAngle(raw) == Normalize360(raw + 90.0)
  {
    if raw < -90.0 {
      NormalizeUnique(raw + 90.0, raw + 450.0, -1);
    } else {
      NormalizeUnique(raw + 90.0, raw + 90.0, 0);
    }
  }

  /** The mirror of the red feedback line: `180 - a` up to 180, `540 - a` above. */
  function MirroredAngle(a: real): (m: real)
    ensures 0.0 <= a < 360.0 ==> 0.0 <= m < 360.0
  {
    if a <= 180.0 then 180.0 - a else 540.0 - a
  }

  /** On [0, 360) the display mirror is the reflection `180 - a` modulo 360, it is
      its own inverse, and its only fixed points are 90 and 270. */
  lemma MirrorIsReflection(a: real)
    requires 0.0 <= a < 360.0
    ensures MirroredAngle(a) == Normalize360(180.0 - a)
    ensures MirroredAngle(MirroredAngle(a)) == a
    ensures MirroredAngle(a) == a <==> a == 90.0 || a == 270.0
  {
    if a <= 180.0 {
      NormalizeUnique(180.0 - a, 180.0 - a, 0);
    } else {
      NormalizeUnique(180.0 - a, 540.0 - a, -1);
    }
  }

  /** The two mirrors cancel: the red line is drawn at the raw atan2 bearing, taken
      modulo 360, not at the correct angle that is scored. */
  lemma DisplayedLineIsRawBearing(raw: real)
    requires -180.0 <= raw <= 180.0
    ensures MirroredAngle(CorrectAngleFromRaw(raw)) == Normalize360(raw)
  {
    var c := CorrectAngleFromRaw(raw);
    if raw >= 0.0 {
      assert c == 180.0 - raw;
      NormalizeUnique(raw, raw, 0);
    } else if raw > -180.0 {
      assert c == 180.0 - raw;
      NormalizeUnique(raw, raw + 360.0, -1);
    } else {
      assert c == 0.0;
      NormalizeUnique(raw, 180.0, -1);
    }
  }

  /** The error between a response and a correct angle: `|response - correct|`,
      replaced by `360 - d` when it exceeds 180. */
  function AngularError(response: real, correct: real): (e: real)
    ensures 0.0 <= response < 360.0 && 0.0 <= correct < 360.0 ==> 0.0 <= e <= 180.0
  {
    var d := Abs(response - correct);
    if d > 180.0 then 360.0 - d else d
  }

  /** The shortest way round the circle between two angles, as a reference. */
  function ArcDistance(a: real, b: real): real
  {
    Min(Normalize360(a - b), Normalize360(b - a))
  }

  /** For angles in [0, 360) the error is the shortest arc; it is symmetric, and 0
      exactly when the two angles are equal. */
  lemma AngularErrorIsShortestArc(a: real, b: real)
    requires 0.0 <= a < 360.0 && 0.0 <= b < 360.0
    ensures AngularError(a, b) == ArcDistance(a, b)
    ensures AngularError(a, b) == AngularError(b, a)
    ensures AngularError(a, b) == 0.0 <==> a == b
  {
    if a >= b {
      NormalizeUnique(a - b, a - b, 0);
      if a == b {
        NormalizeUnique(b - a, 0.0, 0);
      } else {
        NormalizeUnique(b - a, 360.0 + b - a, -1);
      }
    } else {
      NormalizeUnique(b - a, b - a, 0);
      NormalizeUnique(a - b, 360.0 + a - b, -1);
    }
  }
}
