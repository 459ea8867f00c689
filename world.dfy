/** Shared vocabulary of the underwater scene: 3-vectors over the reals, the
    axis-aligned boxes the scene library measures props with, the world's
    configuration constants, and the abstract square root. */
module World {

  datatype Vec3 = Vec3(x: real, y: real, z: real)

  /** An axis-aligned bounding box as the scene library reports it. */
  datatype Box = Box(min: Vec3, max: Vec3)

  /** Radius of the square/circle the world is confined to. */
  const WORLD_RADIUS: real := 250.0
  /** Collision radius of the camera. */
  const PLAYER_R: real := 1.5
  /** Horizontal speed of the player, units per second. */
  const SPEED: real := 12.0
  /** Vertical speed of the player, units per second. */
  const VERT_SPEED: real := 9.0
  /** Lowest camera altitude: the seafloor at 0 plus eye height. */
  const MIN_Y: real := 0.0 + 1.6
  /** Highest camera altitude. */
  const MAX_Y: real := 70.0
  /** Longest simulation step, in seconds. */
  const MAX_DT: real := 0.033
  /** Added to the distance before dividing by it in the boundary pull-back. */
  const BOUNDARY_EPS: real := 0.000001

  function Size(b: Box): (s: Vec3)
    ensures b.min.x + s.x == b.max.x && b.min.y + s.y == b.max.y && b.min.z + s.z == b.max.z
  {
    Vec3(b.max.x - b.min.x, b.max.y - b.min.y, b.max.z - b.min.z)
  }

  function Center(b: Box): (c: Vec3)
    ensures c.x - b.min.x == b.max.x - c.x
    ensures c.y - b.min.y == b.max.y - c.y
    ensures c.z - b.min.z == b.max.z - c.z
  {
    Vec3((b.min.x + b.max.x) / 2.0, (b.min.y + b.max.y) / 2.0, (b.min.z + b.max.z) / 2.0)
  }

  function Max(a: real, b: real): (m: real)
    ensures m >= a && m >= b && (m == a || m == b)
  {
    if a >= b then a else b
  }

  function Min(a: real, b: real): (m: real)
    ensures m <= a && m <= b && (m == a || m == b)
  {
    if a <= b then a else b
  }

  function Abs(a: real): (m: real)
    ensures m >= 0.0 && (m == a || m == -a)
  {
    if a < 0.0 then -a else a
  }

  /** `sqrt` behaves as the square root on every non-negative argument. */
  ghost predicate IsSqrt(sqrt: real -> real)
  {
    forall v: real :: 0.0 <= v ==> 0.0 <= sqrt(v) && sqrt(v) * sqrt(v) == v
  }

  /** What IsSqrt promises at one argument. */
  lemma SqrtAt(sqrt: real -> real, v: real)
    requires IsSqrt(sqrt) && 0.0 <= v
    ensures 0.0 <= sqrt(v) && sqrt(v) * sqrt(v) == v
  {
  }

  /** A product kept behind a function symbol, so that the solver treats the
      facts below about it as plain linear facts. */
  function Mul(x: real, y: real): real
  {
    x * y
  }

  /** Multiplying by 0 gives 0 and by 1 changes nothing. */
  lemma MulZeroOne(x: real, y: real)
    requires y == 0.0 || y == 1.0
    ensures Mul(x, y) == (if y == 0.0 then 0.0 else x)
  {
  }

  /** Multiplying by a positive factor keeps a strict order. */
  lemma MulStrict(c: real, a: real, b: real)
    requires c > 0.0 && a < b
    ensures Mul(c, a) < Mul(c, b)
  {
    assert c * b - c * a == c * (b - a);
  }

  /** Multiplying by a non-negative factor keeps a weak order. */
  lemma MulMono(c: real, a: real, b: real)
    requires c >= 0.0 && a <= b
    ensures Mul(c, a) <= Mul(c, b)
  {
    assert c * b - c * a == c * (b - a);
  }

  /** Squaring keeps the strict order of non-negative numbers. */
  lemma SquareStrict(a: real, b: real)
    requires 0.0 <= a < b
    ensures a * a < b * b
  {
    MulMono(a, a, b);
    MulStrict(b, a, b);
    assert Mul(a, b) == Mul(b, a);
  }

  /** Squaring keeps the weak order of non-negative numbers. */
  lemma SquareMono(a: real, b: real)
    requires 0.0 <= a <= b
    ensures a * a <= b * b
  {
    MulMono(a, a, b);
    MulMono(b, a, b);
    assert Mul(a, b) == Mul(b, a);
  }

  /** A square is never negative, and positive unless its root is 0. */
  lemma SquareNonNegative(a: real)
    ensures Mul(a, a) >= 0.0 && (a != 0.0 ==> Mul(a, a) > 0.0)
  {
    if a > 0.0 {
      MulStrict(a, 0.0, a);
    } else if a < 0.0 {
      MulStrict(-a, 0.0, -a);
      assert Mul(-a, -a) == Mul(a, a);
    }
  }
}
