/** The whale: a straight-line bouncer inside the world box (main.js:149-162,
    176, 189-190, 348-365). Each frame it moves along its velocity, is
    reflected by the walls x, z = +-WORLD_RADIUS and by the ceiling yMax, and
    is pushed up onto its floor max(yMin, bottomOffset + margin). */
module Whale {
  import opened World

  /** The whale's state record. */
  datatype Body = Body(pos: Vec3, vel: Vec3, speed: real, yMin: real, yMax: real, margin: real)

  /** The record before the model has loaded (main.js:154-162). */
  const UNLOADED := Body(Vec3(0.0, 16.0, 0.0), Vec3(1.0, 0.0, 0.0), 9.0, 10.0, 30.0, 0.8)

  /** The record once the model has loaded (main.js:189-190). */
  function Launch(b: Body): (r: Body)
    ensures r.pos == Vec3(0.0, 16.0, 0.0) && r.vel == Vec3(1.0, 2.0, 0.0)
    ensures r.speed == b.speed && r.yMin == b.yMin && r.yMax == b.yMax && r.margin == b.margin
  {
    b.(pos := Vec3(0.0, 16.0, 0.0), vel := Vec3(1.0, 2.0, 0.0))
  }

  /** Lowest altitude allowed: yMin, or higher when the model's lowest point
      hangs `bottomOffset` below its pivot. */
  function Floor(b: Body, bottomOffset: real): (f: real)
    ensures f >= b.yMin && f >= bottomOffset + b.margin
    ensures f == b.yMin || f == bottomOffset + b.margin
  {
    Max(b.yMin, bottomOffset + b.margin)
  }

  /** The position after integrating one frame, before any wall is applied:
      the horizontal velocity is scaled by `speed`, the vertical one is not. */
  function Moved(b: Body, dt: real): (m: Vec3)
    ensures dt == 0.0 ==> m == b.pos
    ensures b.speed == 0.0 ==> m.x == b.pos.x && m.z == b.pos.z
  {
    Vec3(b.pos.x + b.speed * b.vel.x * dt, b.pos.y + b.vel.y * dt, b.pos.z + b.speed * b.vel.z * dt)
  }

  /** One horizontal coordinate and its velocity after the two wall checks. */
  function Bounce(c: real, v: real): (r: (real, real))
    ensures -WORLD_RADIUS <= r.0 <= WORLD_RADIUS
    ensures -WORLD_RADIUS <= c <= WORLD_RADIUS ==> r == (c, v)
    ensures c > WORLD_RADIUS ==> r == (WORLD_RADIUS, -v)
    ensures c < -WORLD_RADIUS ==> r == (-WORLD_RADIUS, -v)
  {
    var (c1, v1) := if c > WORLD_RADIUS then (WORLD_RADIUS, v * -1.0) else (c, v);
    if c1 < -WORLD_RADIUS then (-WORLD_RADIUS, v1 * -1.0) else (c1, v1)
  }

  /** One frame of the whale, `bottomOffset` being the depth of the model's
      lowest point below its pivot. */
  function Step(b: Body, bottomOffset: real, dt: real): (r: Body)
    ensures r.speed == b.speed && r.yMin == b.yMin && r.yMax == b.yMax && r.margin == b.margin
    ensures -WORLD_RADIUS <= r.pos.x <= WORLD_RADIUS && -WORLD_RADIUS <= r.pos.z <= WORLD_RADIUS
    ensures r.pos.y >= Floor(b, bottomOffset)
    ensures Floor(b, bottomOffset) <= b.yMax ==> r.pos.y <= b.yMax
    ensures Floor(b, bottomOffset) > b.yMax ==> r.pos.y == Floor(b, bottomOffset)
    ensures Abs(r.vel.x) == Abs(b.vel.x) && Abs(r.vel.y) == Abs(b.vel.y) && Abs(r.vel.z) == Abs(b.vel.z)
    ensures (r.pos.x, r.vel.x) == Bounce(Moved(b, dt).x, b.vel.x)
    ensures (r.pos.z, r.vel.z) == Bounce(Moved(b, dt).z, b.vel.z)
    ensures Moved(b, dt).y < Floor(b, bottomOffset) ==> r.pos.y == Floor(b, bottomOffset) && r.vel.y == Abs(b.vel.y)
    ensures Moved(b, dt).y > b.yMax ==>
              if Floor(b, bottomOffset) <= b.yMax then r.pos.y == b.yMax && r.vel.y == -b.vel.y
              else r.pos.y == Floor(b, bottomOffset) && r.vel.y == Abs(b.vel.y)
    ensures Floor(b, bottomOffset) <= Moved(b, dt).y <= b.yMax ==> r.pos.y == Moved(b, dt).y && r.vel.y == b.vel.y
  {
    var m := Moved(b, dt);
    var (x, vx) := Bounce(m.x, b.vel.x);
    var (z, vz) := Bounce(m.z, b.vel.z);
    var (y1, vy1) := if m.y > b.yMax then (b.yMax, b.vel.y * -1.0) else (m.y, b.vel.y);
    var minY := Floor(b, bottomOffset);
    var (y, vy) := if y1 < minY then (minY, Abs(vy1)) else (y1, vy1);
    b.(pos := Vec3(x, y, z), vel := Vec3(vx, vy, vz))
  }

  /** Where the whale may be at the end of a frame. */
  predicate InBounds(b: Body, bottomOffset: real)
  {
    -WORLD_RADIUS <= b.pos.x <= WORLD_RADIUS && -WORLD_RADIUS <= b.pos.z <= WORLD_RADIUS &&
    b.pos.y >= Floor(b, bottomOffset) &&
    (Floor(b, bottomOffset) <= b.yMax ==> b.pos.y <= b.yMax)
  }

  /** A wall only ever sends the whale back inside: a whale that starts the
      frame inside the box, moving forward in time at a positive speed, and
      crosses a wall leaves the frame heading away from that wall. */
  lemma BounceTurnsInward(b: Body, bottomOffset: real, dt: real)
    requires InBounds(b, bottomOffset) && b.speed > 0.0 && dt > 0.0
    ensures var r := Step(b, bottomOffset, dt);
            (Moved(b, dt).x > WORLD_RADIUS ==> r.vel.x < 0.0) &&
            (Moved(b, dt).x < -WORLD_RADIUS ==> r.vel.x > 0.0) &&
            (Moved(b, dt).z > WORLD_RADIUS ==> r.vel.z < 0.0) &&
            (Moved(b, dt).z < -WORLD_RADIUS ==> r.vel.z > 0.0)
  {
    DriftSign(b.speed, b.vel.x, dt);
    DriftSign(b.speed, b.vel.z, dt);
  }

  /** The horizontal drift speed * v * dt has the sign of v. */
  lemma DriftSign(speed: real, v: real, dt: real)
    requires speed > 0.0 && dt > 0.0
    ensures v > 0.0 ==> speed * v * dt > 0.0
    ensures v < 0.0 ==> speed * v * dt < 0.0
    ensures v == 0.0 ==> speed * v * dt == 0.0
  {
    if v > 0.0 {
      MulStrict(speed, 0.0, v);
      MulStrict(dt, 0.0, speed * v);
    } else if v < 0.0 {
      MulStrict(speed, v, 0.0);
      MulStrict(dt, speed * v, 0.0);
    }
    assert Mul(dt, speed * v) == speed * v * dt;
  }

  /** The whale after the frames whose steps are `dts`, in order. However
      many frames pass, its speeds and parameters stay what they were: walls,
      ceiling and floor only ever flip signs. */
  function Run(b: Body, bottomOffset: real, dts: seq<real>): (r: Body)
    ensures Abs(r.vel.x) == Abs(b.vel.x) && Abs(r.vel.y) == Abs(b.vel.y) && Abs(r.vel.z) == Abs(b.vel.z)
    ensures r.speed == b.speed && r.yMin == b.yMin && r.yMax == b.yMax && r.margin == b.margin
    decreases |dts|
  {
    if dts == [] then b else Run(Step(b, bottomOffset, dts[0]), bottomOffset, dts[1..])
  }

  /** Running two batches of frames one after the other is running them
      all. */
  lemma {:induction false} RunAppend(b: Body, bottomOffset: real, xs: seq<real>, ys: seq<real>)
    ensures Run(b, bottomOffset, xs + ys) == Run(Run(b, bottomOffset, xs), bottomOffset, ys)
    decreases |xs|
  {
    if xs != [] {
      var next := Step(b, bottomOffset, xs[0]);
      assert (xs + ys)[0] == xs[0];
      assert (xs + ys)[1..] == xs[1..] + ys;
      assert Run(b, bottomOffset, xs + ys) == Run(next, bottomOffset, xs[1..] + ys);
      assert Run(b, bottomOffset, xs) == Run(next, bottomOffset, xs[1..]);
      RunAppend(next, bottomOffset, xs[1..], ys);
    } else {
      assert xs + ys == ys;
    }
  }

  /** After at least one frame the whale is inside the box and between its
      floor and ceiling, whatever state it started from. */
  lemma {:induction false} RunInBounds(b: Body, bottomOffset: real, dts: seq<real>)
    requires dts != [] || InBounds(b, bottomOffset)
    ensures InBounds(Run(b, bottomOffset, dts), bottomOffset)
    decreases |dts|
  {
    if dts != [] {
      var next := Step(b, bottomOffset, dts[0]);
      assert Floor(next, bottomOffset) == Floor(b, bottomOffset);
      RunInBounds(next, bottomOffset, dts[1..]);
    }
  }

  /** The launch position already lies between floor and ceiling exactly
      when the model hangs no more than 15.2 below its pivot; otherwise the
      first frame lifts it. */
  lemma LaunchInBounds(bottomOffset: real)
    ensures InBounds(Launch(UNLOADED), bottomOffset) <==> bottomOffset <= 15.2
  {
  }
}
