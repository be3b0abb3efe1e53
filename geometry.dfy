/** A value that may be absent, as a nullable reference is in the game. */
module Optional {
  datatype Option<+T> = None | Some(value: T)
}

/**
 * Vectors and axis-aligned boxes shared by the player, the enemies and the
 * level. Coordinates are exact reals; square roots, which the game takes
 * through its 3D engine, are supplied by the caller as a function `sqrt`.
 */
module FpsGeometry {

  /** A three.js Vector3. */
  datatype Vec3 = Vec3(x: real, y: real, z: real)

  /** A collider: an axis-aligned box given by its two corners. */
  datatype Aabb = Aabb(min: Vec3, max: Vec3)

  const Zero: Vec3 := Vec3(0.0, 0.0, 0.0)
  const Up: Vec3 := Vec3(0.0, 1.0, 0.0)

  function MaxReal(a: real, b: real): real { if a < b then b else a }
  function MinReal(a: real, b: real): real { if a < b then a else b }
  function MinInt(a: int, b: int): int { if a < b then a else b }
  function MaxInt(a: int, b: int): int { if a < b then b else a }

  function Add(a: Vec3, b: Vec3): Vec3 { Vec3(a.x + b.x, a.y + b.y, a.z + b.z) }
  function Sub(a: Vec3, b: Vec3): Vec3 { Vec3(a.x - b.x, a.y - b.y, a.z - b.z) }
  function Scale(a: Vec3, k: real): Vec3 { Vec3(a.x * k, a.y * k, a.z * k) }
  function Dot(a: Vec3, b: Vec3): real { a.x * b.x + a.y * b.y + a.z * b.z }

  /** `Vector3.crossVectors(a, b)`. */
  function Cross(a: Vec3, b: Vec3): Vec3 {
    Vec3(a.y * b.z - a.z * b.y, a.z * b.x - a.x * b.z, a.x * b.y - a.y * b.x)
  }

  function LengthSq(a: Vec3): (r: real)
    ensures 0.0 <= r
  {
    assert 0.0 <= a.x * a.x && 0.0 <= a.y * a.y && 0.0 <= a.z * a.z;
    Dot(a, a)
  }

  /** The square of the speed in the horizontal plane. */
  function HorizontalSpeedSq(v: Vec3): real {
    v.x * v.x + v.z * v.z
  }

  function DistanceSq(a: Vec3, b: Vec3): (r: real)
    ensures 0.0 <= r
  {
    LengthSq(Sub(a, b))
  }

  /** `sqrt(v)` is the non-negative square root of `v`, when `v` has one. */
  ghost predicate RootAt(sqrt: real -> real, v: real) {
    0.0 <= v ==> 0.0 <= sqrt(v) && sqrt(v) * sqrt(v) == v
  }

  /** `sqrt` is the non-negative square root on the non-negative reals. */
  ghost predicate IsSquareRoot(sqrt: real -> real) {
    forall v: real :: RootAt(sqrt, v)
  }

  /**
   * `Vector3.normalize()`: divide by the length, or by 1 when the length is
   * 0 (three.js writes `divideScalar(this.length() || 1)`), so the zero
   * vector stays zero.
   */
  function Normalize(a: Vec3, sqrt: real -> real): Vec3 {
    var len := sqrt(LengthSq(a));
    if len == 0.0 then a else Scale(a, 1.0 / len)
  }

  /**
   * `Ray.closestPointToPoint`: the point of the ray from `origin` along `dir`
   * nearest to `p`; the origin itself when `p` lies behind it.
   */
  function ClosestPointOnRay(origin: Vec3, dir: Vec3, p: Vec3): Vec3 {
    var t := Dot(Sub(p, origin), dir);
    if t < 0.0 then origin else Add(origin, Scale(dir, t))
  }

  /**
   * `distance < limit` for the distance whose square is `d2`, decided without
   * a square root.
   */
  predicate Within(d2: real, limit: real) {
    0.0 < limit && d2 < limit * limit
  }

  /** Comparing squares decides the same question as comparing distances. */
  lemma WithinMatchesDistance(sqrt: real -> real, d2: real, limit: real)
    requires IsSquareRoot(sqrt) && 0.0 <= d2
    ensures Within(d2, limit) <==> sqrt(d2) < limit
  {
    assert RootAt(sqrt, d2);
    var d := sqrt(d2);
    assert 0.0 <= d && d * d == d2;
    if d < limit {
      assert 0.0 < limit;
      calc {
        d2;
      ==
        d * d;
      <=
        d * limit;
      <
        limit * limit;
      }
    } else if 0.0 < limit {
      assert limit * limit <= limit * d <= d * d;
    }
  }

  /** Only a positive number has a positive square root. */
  lemma PositiveRootOfPositive(sqrt: real -> real, v: real)
    requires IsSquareRoot(sqrt) && 0.0 <= v && 0.0 < sqrt(v)
    ensures v != 0.0
  {
    assert RootAt(sqrt, v);
    var r := sqrt(v);
    ProductOfPositives(r, r);
    calc {
      0.0;
    <
      r * r;
    ==
      v;
    }
  }

  lemma ProductOfPositives(a: real, b: real)
    requires 0.0 < a && 0.0 < b
    ensures 0.0 < a * b
  {
  }

  /** A normalised non-zero vector has length 1. */
  lemma NormalizeHasUnitLength(a: Vec3, sqrt: real -> real)
    requires IsSquareRoot(sqrt) && LengthSq(a) != 0.0
    ensures LengthSq(Normalize(a, sqrt)) == 1.0
  {
    assert RootAt(sqrt, LengthSq(a));
    var len := sqrt(LengthSq(a));
    assert len * len == LengthSq(a);
    assert len != 0.0;
    var k := 1.0 / len;
    assert k * k * (len * len) == 1.0;
    calc {
      LengthSq(Scale(a, k));
      (a.x * k) * (a.x * k) + (a.y * k) * (a.y * k) + (a.z * k) * (a.z * k);
      k * k * LengthSq(a);
      1.0;
    }
  }

  /** Normalising keeps a horizontal vector horizontal. */
  lemma NormalizeKeepsHorizontal(a: Vec3, sqrt: real -> real)
    requires a.y == 0.0
    ensures Normalize(a, sqrt).y == 0.0
  {
  }

  /** A velocity that scales a horizontal unit vector by `speed` has horizontal speed exactly `speed`. */
  lemma ScaledUnitSpeed(n: Vec3, v: Vec3, speed: real)
    requires n.x * n.x + n.z * n.z == 1.0
    requires v.x == n.x * speed && v.z == n.z * speed
    ensures v.x * v.x + v.z * v.z == speed * speed
  {
    calc {
      v.x * v.x + v.z * v.z;
      (n.x * speed) * (n.x * speed) + (n.z * speed) * (n.z * speed);
      (n.x * n.x + n.z * n.z) * (speed * speed);
      speed * speed;
    }
  }

  /**
   * A vector whose horizontal part is `m`'s scaled by `c` points along `m`
   * in the horizontal plane, the same way round when `c` is not negative.
   */
  lemma ScaledAlong(m: Vec3, d: Vec3, c: real)
    requires d.x == m.x * c && d.z == m.z * c
    ensures d.x * m.z == d.z * m.x
    ensures 0.0 <= c ==> 0.0 <= d.x * m.x + d.z * m.z
  {
    var sq := m.x * m.x + m.z * m.z;
    assert 0.0 <= sq;
    assert d.x * m.x + d.z * m.z == c * sq;
    if 0.0 <= c {
      assert 0.0 <= c * sq;
    }
  }

  lemma HorizontalUnit(n: Vec3)
    requires LengthSq(n) == 1.0 && n.y == 0.0
    ensures n.x * n.x + n.z * n.z == 1.0
  {
  }

  /** Moving along the normalised form of a non-zero horizontal vector at `speed`. */
  lemma DirectionSpeed(m: Vec3, sqrt: real -> real, v: Vec3, speed: real)
    requires IsSquareRoot(sqrt) && m.y == 0.0 && 0.0 < sqrt(LengthSq(m))
    requires v.x == Normalize(m, sqrt).x * speed && v.z == Normalize(m, sqrt).z * speed
    ensures HorizontalSpeedSq(v) == speed * speed
  {
    var n := Normalize(m, sqrt);
    PositiveRootOfPositive(sqrt, LengthSq(m));
    NormalizeHasUnitLength(m, sqrt);
    NormalizeKeepsHorizontal(m, sqrt);
    HorizontalUnit(n);
    ScaledUnitSpeed(n, v, speed);
  }
}
