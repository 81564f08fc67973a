/**
 * Two- and three-component vectors over the reals, the length oracle used in place of a square
 * root, the clamped linear interpolation of the game engine, and a record of applied rotations.
 */
module Vectors {

  datatype Vec2 = Vec2(x: real, y: real)
  datatype Vec3 = Vec3(x: real, y: real, z: real)

  const Zero2: Vec2 := Vec2(0.0, 0.0)
  const Zero3: Vec3 := Vec3(0.0, 0.0, 0.0)

  function NormSq(v: Vec2): real {
    v.x * v.x + v.y * v.y
  }

  function NormSq3(v: Vec3): real {
    v.x * v.x + v.y * v.y + v.z * v.z
  }

  /**
   * `len` is the Euclidean length of `v`. Reals have no square root in Dafny, so every place
   * where the source takes a magnitude receives it as an extra value that satisfies this.
   */
  predicate IsLength(v: Vec2, len: real) {
    len >= 0.0 && len * len == NormSq(v)
  }

  /** `u` points the same way as `v`: parallel to it, and not against it. */
  predicate SameDirection(u: Vec2, v: Vec2) {
    u.x * v.y == u.y * v.x && u.x * v.x + u.y * v.y >= 0.0
  }

  function Scale2(v: Vec2, k: real): Vec2 {
    Vec2(v.x * k, v.y * k)
  }

  function Scale3(v: Vec3, k: real): Vec3 {
    Vec3(v.x * k, v.y * k, v.z * k)
  }

  function Add3(a: Vec3, b: Vec3): Vec3 {
    Vec3(a.x + b.x, a.y + b.y, a.z + b.z)
  }

  function Neg3(v: Vec3): Vec3 {
    Vec3(-v.x, -v.y, -v.z)
  }

  function Abs(r: real): real {
    if r < 0.0 then -r else r
  }

  /** The point at fraction `s` of the way from `a` to `b`. */
  function PointAt(a: Vec3, b: Vec3, s: real): Vec3 {
    Vec3(a.x + (b.x - a.x) * s, a.y + (b.y - a.y) * s, a.z + (b.z - a.z) * s)
  }

  /** `p` lies on the closed segment from `a` to `b`. */
  ghost predicate OnSegment(a: Vec3, b: Vec3, p: Vec3) {
    exists s :: 0.0 <= s <= 1.0 && p == PointAt(a, b, s)
  }

  lemma MulNonNeg(x: real, y: real)
    requires x >= 0.0 && y >= 0.0
    ensures x * y >= 0.0
  {
  }

  lemma MulPos(x: real, y: real)
    requires x > 0.0 && y > 0.0
    ensures x * y > 0.0
  {
  }

  /** A non-zero factor can be cancelled. */
  lemma MulCancel(f: real, c: real, d: real)
    requires d != 0.0 && f * d == c * d
    ensures f == c
  {
    assert (f - c) * d == 0.0;
    if f > c {
      if d > 0.0 { MulPos(f - c, d); } else { MulPos(f - c, -d); }
    } else if f < c {
      if d > 0.0 { MulPos(c - f, d); } else { MulPos(c - f, -d); }
    }
  }

  lemma DivSelf(d: real)
    requires d != 0.0
    ensures d / d == 1.0 && 0.0 / d == 0.0
  {
    assert (d / d) * d == 1.0 * d;
    MulCancel(d / d, 1.0, d);
    assert (0.0 / d) * d == 0.0 * d;
    MulCancel(0.0 / d, 0.0, d);
  }

  /** Multiplying by a non-zero d and dividing by it again gives the value back. */
  lemma MulDiv(g: real, d: real)
    requires d != 0.0
    ensures (g * d) / d == g
  {
    MulCancel((g * d) / d, g, d);
  }

  /** Scaling a vector by k scales its squared length by k * k. */
  lemma ScaledNormSq(v: Vec2, k: real)
    ensures NormSq(Scale2(v, k)) == k * k * NormSq(v)
  {
    assert (v.x * k) * (v.x * k) == k * k * (v.x * v.x);
    assert (v.y * k) * (v.y * k) == k * k * (v.y * v.y);
  }

  /** A length scaled to m has square m * m. */
  lemma RimLength(k: real, dist: real, m: real)
    requires k * dist == m
    ensures k * k * (dist * dist) == m * m
  {
    assert k * k * (dist * dist) == (k * dist) * (k * dist);
  }

  /** Scaling by a non-negative factor keeps the direction. */
  lemma ScaledDirection(v: Vec2, k: real)
    requires k >= 0.0
    ensures SameDirection(Scale2(v, k), v)
  {
    assert (v.x * k) * v.y == (v.y * k) * v.x;
    assert (v.x * k) * v.x + (v.y * k) * v.y == k * NormSq(v);
    MulNonNeg(k, NormSq(v));
  }

  /** A quotient of a value in [0, d] by a positive d lies in [0, 1]. */
  lemma FractionInUnit(a: real, d: real)
    requires d > 0.0 && 0.0 <= a <= d
    ensures 0.0 <= a / d <= 1.0
  {
    var f := a / d;
    assert f * d == a;
    if f < 0.0 {
      MulPos(-f, d);
    }
    if f > 1.0 {
      MulPos(f - 1.0, d);
    }
  }

  /** Mathf.Clamp01. */
  function Clamp01(t: real): (r: real)
    ensures 0.0 <= r <= 1.0
    ensures 0.0 <= t <= 1.0 ==> r == t
    ensures t < 0.0 ==> r == 0.0
    ensures t > 1.0 ==> r == 1.0
  {
    if t < 0.0 then 0.0 else if t > 1.0 then 1.0 else t
  }

  /**
   * Mathf.Lerp: the engine clamps the fraction to [0, 1] before interpolating, so the ends are
   * reached exactly and never passed (LerpBetween).
   */
  function Lerp(a: real, b: real, t: real): (r: real)
    ensures t <= 0.0 ==> r == a
    ensures t >= 1.0 ==> r == b
  {
    a + (b - a) * Clamp01(t)
  }

  /** The interpolated value never leaves the interval between the two ends. */
  lemma LerpBetween(a: real, b: real, t: real)
    ensures a <= b ==> a <= Lerp(a, b, t) <= b
    ensures b <= a ==> b <= Lerp(a, b, t) <= a
  {
    BetweenEnds(a, b, Clamp01(t));
  }

  lemma BetweenEnds(a: real, b: real, c: real)
    requires 0.0 <= c <= 1.0
    ensures a <= b ==> a <= a + (b - a) * c <= b
    ensures b <= a ==> b <= a + (b - a) * c <= a
  {
    if a <= b {
      MulNonNeg(b - a, c);
      MulNonNeg(b - a, 1.0 - c);
      assert (b - a) * (1.0 - c) == (b - a) - (b - a) * c;
    } else {
      MulNonNeg(a - b, c);
      MulNonNeg(a - b, 1.0 - c);
      assert (a - b) * (1.0 - c) == (a - b) - (a - b) * c;
      assert (a - b) * c == -((b - a) * c);
    }
  }

  /** One interpolation step closes the gap to the target by exactly the clamped fraction. */
  lemma LerpClosesGap(a: real, b: real, t: real)
    ensures Abs(Lerp(a, b, t) - b) == (1.0 - Clamp01(t)) * Abs(a - b)
    ensures Abs(Lerp(a, b, t) - b) <= Abs(a - b)
  {
    var c := Clamp01(t);
    assert Lerp(a, b, t) - b == (a - b) * (1.0 - c);
    if a <= b {
      MulNonNeg(b - a, 1.0 - c);
      MulNonNeg(b - a, c);
      assert (a - b) * (1.0 - c) == -((b - a) * (1.0 - c));
      assert (b - a) * (1.0 - c) == (b - a) - (b - a) * c;
    } else {
      MulNonNeg(a - b, 1.0 - c);
      MulNonNeg(a - b, c);
      assert (a - b) * (1.0 - c) == (a - b) - (a - b) * c;
    }
  }

  /** Vector2.Lerp, component by component with the same clamped fraction. */
  function Lerp2(a: Vec2, b: Vec2, t: real): (r: Vec2)
    ensures t <= 0.0 ==> r == a
    ensures t >= 1.0 ==> r == b
  {
    Vec2(Lerp(a.x, b.x, t), Lerp(a.y, b.y, t))
  }

  /** Vector3.Lerp, component by component with the same clamped fraction. */
  function Lerp3(a: Vec3, b: Vec3, t: real): (r: Vec3)
    ensures t <= 0.0 ==> r == a
    ensures t >= 1.0 ==> r == b
  {
    Vec3(Lerp(a.x, b.x, t), Lerp(a.y, b.y, t), Lerp(a.z, b.z, t))
  }

  /** A vector interpolation ends on the segment between its two ends, so it never overshoots. */
  lemma Lerp3OnSegment(a: Vec3, b: Vec3, t: real)
    ensures OnSegment(a, b, Lerp3(a, b, t))
    ensures t >= 1.0 ==> Lerp3(a, b, t) == b
    ensures t <= 0.0 ==> Lerp3(a, b, t) == a
  {
    assert Lerp3(a, b, t) == PointAt(a, b, Clamp01(t));
  }

  /**
   * An applied rotation, kept as a record because quaternion arithmetic is not modelled: the
   * orientation of an object is the identity followed by the turns in its log.
   */
  datatype Turn =
    | FaceToward(direction: Vec3, fraction: real)  // Quaternion.Slerp toward LookRotation(direction)
    | Yaw(degrees: real)                            // Transform.Rotate around the world up axis
    | Pitch(degrees: real)                          // Transform.Rotate around the world right axis
}
