/** One frame of first-person locomotion (main.js:378-427): the wish vector
    built from held keys and the camera's horizontal frame, its resolution
    against the obstacle registry with wall-sliding, vertical movement with
    its altitude clamp, and the pull-back onto the world circle. */
module Player {
  import opened World
  import opened Obstacles
  import opened Input

  /** `right` is `forward` x up (0, 1, 0) for a horizontal `forward`: the
      camera's frame after zeroing forward.y. */
  predicate QuarterTurn(forward: Vec3, right: Vec3)
  {
    forward.y == 0.0 && right == Vec3(-forward.z, 0.0, forward.x)
  }

  /** The camera's horizontal frame as the scene computes it: forward with
      its y zeroed and normalised (a unit vector, or the zero vector when
      the camera looks straight up or down), and right its quarter turn. */
  predicate HorizontalFrame(forward: Vec3, right: Vec3)
  {
    QuarterTurn(forward, right) &&
    (PlanarSq(forward) == 1.0 || (forward.x == 0.0 && forward.z == 0.0))
  }

  function Add(u: Vec3, v: Vec3): Vec3 { Vec3(u.x + v.x, u.y + v.y, u.z + v.z) }

  function Sub(u: Vec3, v: Vec3): Vec3 { Vec3(u.x - v.x, u.y - v.y, u.z - v.z) }

  function LengthSq(v: Vec3): real { v.x * v.x + v.y * v.y + v.z * v.z }

  function PlanarSq(v: Vec3): real { v.x * v.x + v.z * v.z }

  /** +1, -1 or 0 for a pair of opposite keys. */
  function Axis(plus: bool, minus: bool): (a: real)
    ensures a == 0.0 <==> plus == minus
    ensures plus && !minus ==> a == 1.0
    ensures minus && !plus ==> a == -1.0
    ensures a * a == (if plus == minus then 0.0 else 1.0)
  {
    (if plus then 1.0 else 0.0) - (if minus then 1.0 else 0.0)
  }

  /** The wish vector before normalisation: forward for W, minus forward
      for S, right for D, minus right for A. */
  function Wish(keys: Keys, forward: Vec3, right: Vec3): Vec3
  {
    var a, b := Axis(keys.w, keys.s), Axis(keys.d, keys.a);
    Vec3(a * forward.x + b * right.x, a * forward.y + b * right.y, a * forward.z + b * right.z)
  }

  /** W alone wishes along forward, D alone along right, and cancelled
      pairs wish for nothing. */
  lemma WishSinglePair(keys: Keys, forward: Vec3, right: Vec3)
    ensures keys.w == keys.s && keys.d == keys.a ==> Wish(keys, forward, right) == Vec3(0.0, 0.0, 0.0)
    ensures keys.w && !keys.s && keys.d == keys.a ==> Wish(keys, forward, right) == forward
    ensures keys.d && !keys.a && keys.w == keys.s ==> Wish(keys, forward, right) == right
  {
  }

  /** Wish is what adding the key contributions one after another yields,
      in the order W, S, D, A, starting from the zero vector. */
  lemma WishBySteps(keys: Keys, forward: Vec3, right: Vec3)
    ensures var w0 := Vec3(0.0, 0.0, 0.0);
            var w1 := if keys.w then Add(w0, forward) else w0;
            var w2 := if keys.s then Sub(w1, forward) else w1;
            var w3 := if keys.d then Add(w2, right) else w2;
            var w4 := if keys.a then Sub(w3, right) else w3;
            Wish(keys, forward, right) == w4
  {
  }

  /** How many of the two opposite key pairs are not cancelled out: the sum
      of the squares of their axis values. */
  function Uncancelled(keys: Keys): (n: real)
    ensures n == 0.0 <==> keys.w == keys.s && keys.d == keys.a
    ensures n >= 0.0
  {
    Axis(keys.w, keys.s) * Axis(keys.w, keys.s) + Axis(keys.d, keys.a) * Axis(keys.d, keys.a)
  }

  /** The squared length of the wish vector is the number of uncancelled key
      pairs times the squared length of forward. */
  lemma WishLengthSq(keys: Keys, forward: Vec3, right: Vec3)
    requires QuarterTurn(forward, right)
    ensures LengthSq(Wish(keys, forward, right)) == Mul(Uncancelled(keys), PlanarSq(forward))
  {
    RotationLength(Axis(keys.w, keys.s), Axis(keys.d, keys.a), forward.x, forward.z);
  }

  /** |a f + b f'|^2 = (a^2 + b^2) |f|^2 for f' the quarter turn of f. */
  lemma RotationLength(a: real, b: real, fx: real, fz: real)
    ensures (a * fx + b * -fz) * (a * fx + b * -fz) + (a * 0.0 + b * 0.0) * (a * 0.0 + b * 0.0) +
            (a * fz + b * fx) * (a * fz + b * fx)
         == (a * a + b * b) * (fx * fx + fz * fz)
  {
  }

  /** Only the zero vector has squared length 0. */
  lemma ZeroLength(v: Vec3)
    requires LengthSq(v) == 0.0
    ensures v == Vec3(0.0, 0.0, 0.0)
  {
    SquareNonNegative(v.x);
    SquareNonNegative(v.y);
    SquareNonNegative(v.z);
  }

  /** The player moves horizontally exactly when the camera has a heading
      and some pair of opposite movement keys is not cancelled out. */
  lemma WishNonZero(keys: Keys, forward: Vec3, right: Vec3)
    requires HorizontalFrame(forward, right)
    ensures LengthSq(Wish(keys, forward, right)) > 0.0 <==>
      (forward.x != 0.0 || forward.z != 0.0) && (keys.w != keys.s || keys.d != keys.a)
  {
    WishLengthSq(keys, forward, right);
    if forward.x == 0.0 && forward.z == 0.0 {
      NoHeading(forward);
    }
    MulZeroOne(Uncancelled(keys), PlanarSq(forward));
  }

  /** A forward vector with no horizontal part has planar length 0. */
  lemma NoHeading(v: Vec3)
    requires v.x == 0.0 && v.z == 0.0
    ensures PlanarSq(v) == 0.0
  {
  }

  /** `w` divided by `len` and multiplied by `s`, component by component:
      `normalize().multiplyScalar(s)` once the length `len` is known. */
  function ScaleTo(w: Vec3, len: real, s: real): Vec3
    requires len != 0.0
  {
    Vec3(w.x / len * s, w.y / len * s, w.z / len * s)
  }

  /** The displacement of one frame from the wish vector `w`: normalised
      (divided by its length, or by 1 should that length be 0) and scaled to
      SPEED * dt, or left as it is when its squared length is 0. */
  function Displacement(w: Vec3, dt: real, sqrt: real -> real): (d: Vec3)
    ensures LengthSq(w) == 0.0 ==> d == Vec3(0.0, 0.0, 0.0)
    ensures w.y == 0.0 ==> d.y == 0.0
  {
    var lenSq := LengthSq(w);
    if lenSq > 0.0 then
      ScaleTo(w, if sqrt(lenSq) == 0.0 then 1.0 else sqrt(lenSq), SPEED * dt)
    else
      assert lenSq == 0.0 ==> w == Vec3(0.0, 0.0, 0.0) by {
        if lenSq == 0.0 { ZeroLength(w); }
      }
      w
  }

  /** The scalar product of two vectors. */
  function Dot(u: Vec3, v: Vec3): real { u.x * v.x + u.y * v.y + u.z * v.z }

  /** A non-zero wish becomes a step of length exactly SPEED * dt; a wish of
      length 1 is simply scaled by SPEED * dt. */
  lemma DisplacementSize(w: Vec3, dt: real, sqrt: real -> real)
    requires IsSqrt(sqrt)
    ensures var d, s := Displacement(w, dt, sqrt), SPEED * dt;
            LengthSq(w) > 0.0 ==>
              LengthSq(d) == s * s &&
              (LengthSq(w) == 1.0 ==> d == Vec3(w.x * s, w.y * s, w.z * s))
  {
    if LengthSq(w) > 0.0 {
      DisplacementScales(w, dt, sqrt);
      NormalisedLength(w, sqrt(LengthSq(w)), SPEED * dt, Displacement(w, dt, sqrt));
      if LengthSq(w) == 1.0 {
        UnitRoot(sqrt(LengthSq(w)));
      }
    }
  }

  /** A non-zero wish becomes a step that points the way the wish does:
      parallel to it, and on its side whenever time passes. */
  lemma DisplacementDirection(w: Vec3, dt: real, sqrt: real -> real)
    requires LengthSq(w) > 0.0 ==> sqrt(LengthSq(w)) > 0.0
    ensures var d := Displacement(w, dt, sqrt);
            LengthSq(w) > 0.0 ==>
              d.x * w.y == d.y * w.x && d.y * w.z == d.z * w.y && d.x * w.z == d.z * w.x &&
              (dt > 0.0 ==> Dot(d, w) > 0.0)
  {
    if LengthSq(w) > 0.0 {
      assert Displacement(w, dt, sqrt) == ScaleTo(w, sqrt(LengthSq(w)), SPEED * dt);
      ScaledAlong(w, sqrt(LengthSq(w)), SPEED * dt, Displacement(w, dt, sqrt));
    }
  }

  /** A non-zero wish is divided by its own length. */
  lemma DisplacementScales(w: Vec3, dt: real, sqrt: real -> real)
    requires IsSqrt(sqrt) && LengthSq(w) > 0.0
    ensures sqrt(LengthSq(w)) > 0.0 && sqrt(LengthSq(w)) * sqrt(LengthSq(w)) == LengthSq(w)
    ensures Displacement(w, dt, sqrt) == ScaleTo(w, sqrt(LengthSq(w)), SPEED * dt)
  {
    SqrtAt(sqrt, LengthSq(w));
  }

  /** Normalising by the length and scaling by s gives length s. */
  lemma NormalisedLength(w: Vec3, len: real, s: real, d: Vec3)
    requires len > 0.0 && len * len == LengthSq(w) && d == ScaleTo(w, len, s)
    ensures LengthSq(d) == s * s
  {
    var c := s / len;
    assert c * len == s;
    assert d == Vec3(w.x * c, w.y * c, w.z * c);
    calc {
      LengthSq(Vec3(w.x * c, w.y * c, w.z * c));
      (w.x * w.x + w.y * w.y + w.z * w.z) * (c * c);
      (len * len) * (c * c);
      (c * len) * (c * len);
    }
  }

  /** Dividing by a positive length and scaling keeps the direction: the
      result is parallel to `w`, and on the same side when `s` is positive. */
  lemma ScaledAlong(w: Vec3, len: real, s: real, d: Vec3)
    requires len > 0.0 && d == ScaleTo(w, len, s)
    ensures d.x * w.y == d.y * w.x && d.y * w.z == d.z * w.y && d.x * w.z == d.z * w.x &&
            (s > 0.0 && LengthSq(w) > 0.0 ==> Dot(d, w) > 0.0)
  {
    var c := s / len;
    assert d == Vec3(w.x * c, w.y * c, w.z * c);
    assert Dot(Vec3(w.x * c, w.y * c, w.z * c), w) == Mul(c, LengthSq(w));
    if s > 0.0 && LengthSq(w) > 0.0 {
      assert c > 0.0;
      MulStrict(c, 0.0, LengthSq(w));
    }
  }

  /** The non-negative root of 1 is 1. */
  lemma UnitRoot(r: real)
    requires 0.0 <= r && r * r == 1.0
    ensures r == 1.0
  {
    if r < 1.0 {
      SquareStrict(r, 1.0);
    } else if r > 1.0 {
      SquareStrict(1.0, r);
    }
  }

  /** With the camera's horizontal frame, a frame moves the player by
      exactly SPEED * dt when some movement key pair is uncancelled and the
      camera has a heading, and not at all otherwise; diagonal moves are no
      faster than straight ones. */
  lemma MoveLength(keys: Keys, forward: Vec3, right: Vec3, dt: real, sqrt: real -> real)
    requires IsSqrt(sqrt) && HorizontalFrame(forward, right)
    ensures var d := Displacement(Wish(keys, forward, right), dt, sqrt);
            var moving := (forward.x != 0.0 || forward.z != 0.0) && (keys.w != keys.s || keys.d != keys.a);
            d.y == 0.0 &&
            (moving ==> LengthSq(d) == (SPEED * dt) * (SPEED * dt)) &&
            (!moving ==> d == Vec3(0.0, 0.0, 0.0))
  {
    WishNonZero(keys, forward, right);
    WishFlat(keys, forward, right);
    LengthSqNonNegative(Wish(keys, forward, right));
    DisplacementSize(Wish(keys, forward, right), dt, sqrt);
  }

  /** With the camera's horizontal frame and a heading, W alone moves the
      player along forward and D alone along right, by SPEED * dt. */
  lemma MoveAlong(keys: Keys, forward: Vec3, right: Vec3, dt: real, sqrt: real -> real)
    requires IsSqrt(sqrt) && HorizontalFrame(forward, right)
    requires forward.x != 0.0 || forward.z != 0.0
    ensures var d, s := Displacement(Wish(keys, forward, right), dt, sqrt), SPEED * dt;
            (keys.w && !keys.s && keys.d == keys.a ==> d == Vec3(forward.x * s, forward.y * s, forward.z * s)) &&
            (keys.d && !keys.a && keys.w == keys.s ==> d == Vec3(right.x * s, right.y * s, right.z * s))
  {
    FrameUnit(forward, right);
    WishSinglePair(keys, forward, right);
    if keys.w && !keys.s && keys.d == keys.a {
      DisplacementSize(forward, dt, sqrt);
    } else if keys.d && !keys.a && keys.w == keys.s {
      DisplacementSize(right, dt, sqrt);
    }
  }

  /** Both vectors of a horizontal frame with a heading have length 1. */
  lemma FrameUnit(forward: Vec3, right: Vec3)
    requires HorizontalFrame(forward, right) && (forward.x != 0.0 || forward.z != 0.0)
    ensures LengthSq(forward) == 1.0 && LengthSq(right) == 1.0
  {
    FlatLength(forward);
    FlatLength(right);
    assert PlanarSq(right) == PlanarSq(forward);
  }

  /** A horizontal vector's length is its planar length. */
  lemma FlatLength(v: Vec3)
    requires v.y == 0.0
    ensures LengthSq(v) == PlanarSq(v)
  {
  }

  /** A wish built from horizontal vectors is horizontal. */
  lemma WishFlat(keys: Keys, forward: Vec3, right: Vec3)
    requires forward.y == 0.0 && right.y == 0.0
    ensures Wish(keys, forward, right).y == 0.0
  {
    var a, b := Axis(keys.w, keys.s), Axis(keys.d, keys.a);
    assert a * 0.0 == 0.0 && b * 0.0 == 0.0;
  }

  lemma LengthSqNonNegative(v: Vec3)
    ensures LengthSq(v) >= 0.0
  {
    SquareNonNegative(v.x);
    SquareNonNegative(v.y);
    SquareNonNegative(v.z);
  }

  /** Horizontal collision resolution (main.js:393-408): take the whole move
      when it is free; otherwise take the X part and the Z part each on its
      own when that part alone is free. */
  function Resolve(obstacles: seq<Obstacle>, p: Vec3, nx: real, nz: real): (q: Vec3)
    ensures q.y == p.y
    ensures (q.x == p.x || q.x == nx) && (q.z == p.z || q.z == nz)
    ensures !Blocked(obstacles, nx, p.y, nz) ==> q.x == nx && q.z == nz
    ensures Blocked(obstacles, nx, p.y, nz) ==>
      (q.x == nx <==> nx == p.x || !Blocked(obstacles, nx, p.y, p.z)) &&
      (q.z == nz <==> nz == p.z || !Blocked(obstacles, p.x, p.y, nz))
  {
    if !Blocked(obstacles, nx, p.y, nz) then
      p.(x := nx, z := nz)
    else
      var q1 := if !Blocked(obstacles, nx, p.y, p.z) then p.(x := nx) else p;
      if !Blocked(obstacles, p.x, p.y, nz) then q1.(z := nz) else q1
  }

  /** The move a corner lets through: the diagonal is blocked, yet each axis
      alone is free, so both are committed. */
  predicate CornerCut(obstacles: seq<Obstacle>, p: Vec3, nx: real, nz: real)
  {
    Blocked(obstacles, nx, p.y, nz) &&
    !Blocked(obstacles, nx, p.y, p.z) && !Blocked(obstacles, p.x, p.y, nz)
  }

  /** Resolution only ends in a blocked spot when it started in one or when
      it cut a corner. */
  lemma ResolveEndsFree(obstacles: seq<Obstacle>, p: Vec3, nx: real, nz: real)
    requires !Blocked(obstacles, p.x, p.y, p.z)
    requires !CornerCut(obstacles, p, nx, nz)
    ensures var q := Resolve(obstacles, p, nx, nz); !Blocked(obstacles, q.x, q.y, q.z)
  {
  }

  /** Wall-sliding: an obstacle ahead on the X side stops the X part of a
      diagonal move and lets the Z part through. */
  lemma WallSlide()
    ensures var obstacles := [Obstacle(4.0, 0.0, 0.0, 2.0, 10.0)];
            Resolve(obstacles, Vec3(0.0, 2.0, 0.0), 0.6, 0.8) == Vec3(0.0, 2.0, 0.8)
  {
    var obstacles := [Obstacle(4.0, 0.0, 0.0, 2.0, 10.0)];
    assert Collides(obstacles[0], 0.6, 2.0, 0.8);
    assert Collides(obstacles[0], 0.6, 2.0, 0.0);
    assert !Blocked(obstacles, 0.0, 2.0, 0.8) by {
      forall i | 0 <= i < |obstacles| ensures !Collides(obstacles[i], 0.0, 2.0, 0.8) {
        assert obstacles[i] == obstacles[0];
      }
    }
  }

  /** The corner case happens: from a free spot, a diagonal step past the
      corner of an obstacle lands inside its collision circle. */
  lemma CornerCutEntersObstacle()
    ensures var obstacles := [Obstacle(3.0, 2.0, 3.0, 1.5, 10.0)];
            var p := Vec3(0.0, 2.0, 0.0);
            var q := Resolve(obstacles, p, 1.0, 1.0);
            !Blocked(obstacles, p.x, p.y, p.z) && q == Vec3(1.0, 2.0, 1.0) &&
            Blocked(obstacles, q.x, q.y, q.z)
  {
    var obstacles := [Obstacle(3.0, 2.0, 3.0, 1.5, 10.0)];
    assert Collides(obstacles[0], 1.0, 2.0, 1.0);
    forall x, z | (x, z) in {(0.0, 0.0), (1.0, 0.0), (0.0, 1.0)}
      ensures !Blocked(obstacles, x, 2.0, z)
    {
      forall i | 0 <= i < |obstacles| ensures !Collides(obstacles[i], x, 2.0, z) {
        assert obstacles[i] == obstacles[0];
      }
    }
  }

  /** THREE.MathUtils.clamp. */
  function Clamp(v: real, lo: real, hi: real): real
  {
    Max(lo, Min(hi, v))
  }

  /** Signed vertical travel of one frame: up with Space, down with Shift. */
  function VerticalDelta(keys: Keys, dt: real): real
  {
    Axis(keys.space, keys.shift) * (VERT_SPEED * dt)
  }

  /** The altitude after the vertical keys and the clamp (main.js:411-414). */
  function Climb(y: real, keys: Keys, dt: real): (r: real)
    ensures MIN_Y <= r <= MAX_Y
    ensures var t := y + VerticalDelta(keys, dt);
            (MIN_Y <= t <= MAX_Y ==> r == t) && (t < MIN_Y ==> r == MIN_Y) && (t > MAX_Y ==> r == MAX_Y)
  {
    var y1 := if keys.space then y + VERT_SPEED * dt else y;
    var y2 := if keys.shift then y1 - VERT_SPEED * dt else y1;
    Clamp(y2, MIN_Y, MAX_Y)
  }

  /** Holding both vertical keys, or neither, only clamps. */
  lemma ClimbCancels(y: real, keys: Keys, dt: real)
    requires keys.space == keys.shift
    ensures Climb(y, keys, dt) == Clamp(y, MIN_Y, MAX_Y)
  {
  }

  /** The factor a position outside the world circle is scaled by. */
  function PullBack(dist: real): (k: real)
    requires dist > WORLD_RADIUS
    ensures 0.0 < k < 1.0
    ensures WORLD_RADIUS - BOUNDARY_EPS < k * dist < WORLD_RADIUS
  {
    var k := WORLD_RADIUS / (dist + BOUNDARY_EPS);
    assert k * (dist + BOUNDARY_EPS) == WORLD_RADIUS;
    assert k * BOUNDARY_EPS < BOUNDARY_EPS;
    k
  }

  /** The boundary step (main.js:416-424): a planar position farther than
      WORLD_RADIUS from the origin is scaled towards it; `dist` is its
      planar distance. */
  function Reproject(p: Vec3, dist: real): (q: Vec3)
    requires dist >= 0.0 && dist * dist == PlanarSq(p)
    ensures q.y == p.y
    ensures dist <= WORLD_RADIUS ==> q == p
    ensures dist > WORLD_RADIUS ==>
      q.x == p.x * PullBack(dist) && q.z == p.z * PullBack(dist) &&
      (WORLD_RADIUS - BOUNDARY_EPS) * (WORLD_RADIUS - BOUNDARY_EPS) < PlanarSq(q) < WORLD_RADIUS * WORLD_RADIUS
    ensures PlanarSq(q) <= WORLD_RADIUS * WORLD_RADIUS
  {
    if dist > WORLD_RADIUS then
      var k := PullBack(dist);
      ScaledDistance(p, dist, k);
      p.(x := p.x * k, z := p.z * k)
    else
      SquareMono(dist, WORLD_RADIUS);
      p
  }

  /** Scaling a planar position by k scales its distance by k. */
  lemma ScaledDistance(p: Vec3, dist: real, k: real)
    requires dist >= 0.0 && dist * dist == PlanarSq(p) && k > 0.0
    requires WORLD_RADIUS - BOUNDARY_EPS < k * dist < WORLD_RADIUS
    ensures var q := p.(x := p.x * k, z := p.z * k);
            (WORLD_RADIUS - BOUNDARY_EPS) * (WORLD_RADIUS - BOUNDARY_EPS) < PlanarSq(q) < WORLD_RADIUS * WORLD_RADIUS
  {
    var q := p.(x := p.x * k, z := p.z * k);
    var nd := k * dist;
    calc {
      PlanarSq(q);
      (p.x * p.x + p.z * p.z) * (k * k);
      (dist * dist) * (k * k);
      nd * nd;
    }
    SquareStrict(WORLD_RADIUS - BOUNDARY_EPS, nd);
    SquareStrict(nd, WORLD_RADIUS);
  }

  /** The boundary step with the planar distance measured by `sqrt`: a
      position on or inside the world circle stays where it is. */
  function Confine(v: Vec3, sqrt: real -> real): (q: Vec3)
    requires IsSqrt(sqrt)
    ensures q.y == v.y
    ensures PlanarSq(q) <= WORLD_RADIUS * WORLD_RADIUS
    ensures PlanarSq(v) <= WORLD_RADIUS * WORLD_RADIUS ==> q == v
  {
    var planarSq := PlanarSq(v);
    SquareNonNegative(v.x);
    SquareNonNegative(v.z);
    SqrtAt(sqrt, planarSq);
    var dist := sqrt(planarSq);
    RootBelow(planarSq, dist);
    Reproject(v, dist)
  }

  /** A square root of a number no larger than WORLD_RADIUS^2 is no larger
      than WORLD_RADIUS. */
  lemma RootBelow(sq: real, root: real)
    requires 0.0 <= root && root * root == sq
    ensures sq <= WORLD_RADIUS * WORLD_RADIUS ==> root <= WORLD_RADIUS
  {
    if root > WORLD_RADIUS {
      SquareStrict(WORLD_RADIUS, root);
    }
  }

  /** The camera position after one frame with the pointer locked. */
  function Step(obstacles: seq<Obstacle>, p: Vec3, keys: Keys, dt: real,
                forward: Vec3, right: Vec3, sqrt: real -> real): (q: Vec3)
    requires IsSqrt(sqrt)
    ensures MIN_Y <= q.y <= MAX_Y
    ensures PlanarSq(q) <= WORLD_RADIUS * WORLD_RADIUS
  {
    var d := Displacement(Wish(keys, forward, right), dt, sqrt);
    var h := Resolve(obstacles, p, p.x + d.x, p.z + d.z);
    var v := h.(y := Climb(h.y, keys, dt));
    var b := Confine(v, sqrt);
    if b.y < MIN_Y then b.(y := MIN_Y) else b
  }
}
