/** The scene's mutable state and its per-event and per-frame updates
    (main.js:149-162, 189-190, 210-236, 239-296, 306-316, 336-427), gathered
    in one simulation object. Each method changes the fields the code
    changes, in the code's order, and is proved against the pure
    definitions of the other modules. */
module Scene {
  import opened World
  import opened Obstacles
  import opened Props
  import opened Input
  import Player
  import Whale

  /** The obstacle records of the props whose draws are `draws`, six per
      prop, in spawn order; `boxOf` is the bounding box the scene library
      measures for a prop of this kind at a placement. */
  function Footprints(kind: PropKind, draws: seq<Unit>, boxOf: Placement -> Box): (obs: seq<Obstacle>)
    requires |draws| % 6 == 0
    ensures 6 * |obs| == |draws|
    decreases |draws|
  {
    if |draws| == 0 then []
    else
      var n := |draws| - 6;
      Footprints(kind, draws[..n], boxOf) + [Footprint(boxOf(Place(kind, draws[n..])))]
  }

  /** The record of prop number `i` of a run of draws: the footprint of the
      box measured at the placement drawn from its six values. */
  function PropRecord(kind: PropKind, draws: seq<Unit>, i: nat, boxOf: Placement -> Box): Obstacle
    requires 6 * i + 6 <= |draws|
  {
    Footprint(boxOf(Place(kind, draws[6 * i..6 * i + 6])))
  }

  /** Record number `i` of a run is the record of prop number `i`: the
      registry keeps the props in spawn order, each from its own draws. */
  lemma {:induction false} FootprintsAt(kind: PropKind, draws: seq<Unit>, boxOf: Placement -> Box)
    requires |draws| % 6 == 0
    ensures forall i: nat :: 6 * i < |draws| ==>
              Footprints(kind, draws, boxOf)[i] == PropRecord(kind, draws, i, boxOf)
    decreases |draws|
  {
    if |draws| > 0 {
      var n := |draws| - 6;
      var prefix := Footprints(kind, draws[..n], boxOf);
      FootprintsAt(kind, draws[..n], boxOf);
      assert Footprints(kind, draws, boxOf) == prefix + [Footprint(boxOf(Place(kind, draws[n..])))];
      forall i: nat | 6 * i < |draws|
        ensures Footprints(kind, draws, boxOf)[i] == PropRecord(kind, draws, i, boxOf)
      {
        if 6 * i < n {
          assert Footprints(kind, draws, boxOf)[i] == prefix[i] == PropRecord(kind, draws[..n], i, boxOf);
          assert draws[..n][6 * i..6 * i + 6] == draws[6 * i..6 * i + 6];
        } else {
          assert i == |prefix|;
          assert draws[6 * i..6 * i + 6] == draws[n..];
        }
      }
    }
  }

  /** One more prop's draws add its record at the end. */
  lemma FootprintsSnoc(kind: PropKind, draws: seq<Unit>, n: nat, boxOf: Placement -> Box)
    requires n % 6 == 0 && n + 6 <= |draws|
    ensures Footprints(kind, draws[..n + 6], boxOf) ==
            Footprints(kind, draws[..n], boxOf) + [Footprint(boxOf(Place(kind, draws[n..n + 6])))]
  {
    var done := draws[..n + 6];
    assert done[..n] == draws[..n];
    assert done[n..] == draws[n..n + 6];
  }

  /** The records of the first `i` props of a run of draws. */
  function Spawned(kind: PropKind, draws: seq<Unit>, i: nat, boxOf: Placement -> Box): (obs: seq<Obstacle>)
    requires 6 * i <= |draws|
    ensures |obs| == i
    ensures i == 0 ==> obs == []
    ensures 6 * i == |draws| ==> obs == Footprints(kind, draws, boxOf)
  {
    assert 6 * i == |draws| ==> draws[..6 * i] == draws;
    Footprints(kind, draws[..6 * i], boxOf)
  }

  /** Pushing the record of the next prop onto a registry that holds the
      records of the props so far gives the records of one prop more. */
  lemma SpawnOne(kind: PropKind, draws: seq<Unit>, i: nat, boxOf: Placement -> Box,
                 base: seq<Obstacle>, current: seq<Obstacle>)
    requires 6 * i + 6 <= |draws|
    requires current == base + Spawned(kind, draws, i, boxOf)
    ensures current + [PropRecord(kind, draws, i, boxOf)] == base + Spawned(kind, draws, i + 1, boxOf)
  {
    FootprintsSnoc(kind, draws, 6 * i, boxOf);
  }

  /** The held keys' directions summed in the order W, S, D, A. */
  method KeyDirection(keys: Keys, forward: Vec3, right: Vec3) returns (wish: Vec3)
    ensures wish == Player.Wish(keys, forward, right)
  {
    wish := Vec3(0.0, 0.0, 0.0);
    if keys.w { wish := Player.Add(wish, forward); }
    if keys.s { wish := Player.Sub(wish, forward); }
    if keys.d { wish := Player.Add(wish, right); }
    if keys.a { wish := Player.Sub(wish, right); }
    Player.WishBySteps(keys, forward, right);
  }

  /** The horizontal displacement of one frame: the keys' direction,
      normalised and scaled to SPEED * dt unless it is zero. */
  method Heading(keys: Keys, forward: Vec3, right: Vec3, dt: real, sqrt: real -> real) returns (move: Vec3)
    ensures move == Player.Displacement(Player.Wish(keys, forward, right), dt, sqrt)
  {
    move := KeyDirection(keys, forward, right);
    var lenSq := Player.LengthSq(move);
    if lenSq > 0.0 {
      var len := sqrt(lenSq);
      if len == 0.0 { len := 1.0; }
      var s := SPEED * dt;
      move := Vec3(move.x / len * s, move.y / len * s, move.z / len * s);
    }
  }

  /** The boundary step: a position farther than WORLD_RADIUS from the
      vertical axis is scaled towards it. */
  method PullInside(p: Vec3, sqrt: real -> real) returns (q: Vec3)
    requires IsSqrt(sqrt)
    ensures q == Player.Confine(p, sqrt)
  {
    q := p;
    var dist := sqrt(Player.PlanarSq(q));
    if dist > WORLD_RADIUS {
      var k := WORLD_RADIUS / (dist + BOUNDARY_EPS);
      q := q.(x := q.x * k);
      q := q.(z := q.z * k);
    }
  }

  class Underwater {
    /** The registry: one record per spawned prop, never removed. */
    var obstacles: seq<Obstacle>
    /** The camera position, which is the player's position. */
    var camera: Vec3
    var keys: Keys
    /** Whether the whale model has arrived; until then it does not move. */
    var whaleLoaded: bool
    var whalePos: Vec3
    var whaleVel: Vec3
    var whaleSpeed: real
    var whaleYMin: real
    var whaleYMax: real
    var whaleMargin: real
    /** Depth of the whale model's lowest point below its pivot. */
    var whaleBottomOffset: real
    /** Clock reading at the start of the previous frame, in milliseconds. */
    var lastTime: real

    /** The whale's state as one record. */
    ghost function WhaleBody(): Whale.Body
      reads this
    {
      Whale.Body(whalePos, whaleVel, whaleSpeed, whaleYMin, whaleYMax, whaleMargin)
    }

    /** The scene as the module sets it up, `now` being the clock at start. */
    constructor (now: real)
      ensures obstacles == [] && camera == Vec3(0.0, 20.0, 0.0) && keys == NO_KEYS
      ensures !whaleLoaded && WhaleBody() == Whale.UNLOADED && whaleBottomOffset == 0.0
      ensures lastTime == now
    {
      obstacles := [];
      camera := Vec3(0.0, 20.0, 0.0);
      keys := NO_KEYS;
      whaleLoaded := false;
      whalePos := Vec3(0.0, 16.0, 0.0);
      whaleVel := Vec3(1.0, 0.0, 0.0);
      whaleSpeed := 9.0;
      whaleYMin := 10.0;
      whaleYMax := 30.0;
      whaleMargin := 0.8;
      whaleBottomOffset := 0.0;
      lastTime := now;
    }

    /** The whale model has loaded and its bounding box bottom is at
        `boxMinY` relative to its pivot. */
    method WhaleLoaded(boxMinY: real)
      modifies this`whaleLoaded, this`whaleBottomOffset, this`whalePos, this`whaleVel
      ensures whaleLoaded && whaleBottomOffset == -boxMinY
      ensures WhaleBody() == Whale.Launch(old(WhaleBody()))
    {
      whaleLoaded := true;
      whaleBottomOffset := -boxMinY;
      whalePos := Vec3(0.0, 16.0, 0.0);
      whaleVel := Vec3(1.0, 2.0, 0.0);
    }

    /** Whether the camera at (x, y, z) would touch a registered obstacle. */
    method HitObstacle(x: real, y: real, z: real) returns (hit: bool)
      ensures hit <==> Blocked(obstacles, x, y, z)
      ensures obstacles == [] ==> !hit
    {
      for i := 0 to |obstacles|
        invariant forall j :: 0 <= j < i ==> !Collides(obstacles[j], x, y, z)
      {
        var o := obstacles[i];
        var halfH := o.h / 2.0;
        if y < o.y - halfH || y > o.y + halfH {
          continue;
        }
        var dx := x - o.x;
        var dz := z - o.z;
        var distSq := dx * dx + dz * dz;
        var minCleanDist := PLAYER_R + o.r;
        if distSq < minCleanDist * minCleanDist {
          return true;
        }
      }
      return false;
    }

    /** One model file's load callback: `count` props of `kind`, each placed
        from six consecutive values of `draws` and recorded by the footprint
        of its bounding box. */
    method SpawnProps(kind: PropKind, count: nat, draws: seq<Unit>, boxOf: Placement -> Box)
      requires |draws| == count * 6
      modifies this`obstacles
      ensures obstacles == old(obstacles) + Footprints(kind, draws, boxOf)
      ensures |obstacles| == |old(obstacles)| + count
    {
      for i := 0 to count
        invariant obstacles == old(obstacles) + Spawned(kind, draws, i, boxOf)
      {
        SpawnOne(kind, draws, i, boxOf, old(obstacles), obstacles);
        SpawnProp(kind, draws, i, boxOf);
      }
    }

    /** One pass of the spawn loop: prop number `i` is placed from its six
        draws and the record of its bounding box is pushed. */
    method SpawnProp(kind: PropKind, draws: seq<Unit>, i: nat, boxOf: Placement -> Box)
      requires 6 * i + 6 <= |draws|
      modifies this`obstacles
      ensures obstacles == old(obstacles) + [PropRecord(kind, draws, i, boxOf)]
    {
      var placement := Place(kind, draws[6 * i..6 * i + 6]);
      var box := boxOf(placement);
      obstacles := obstacles + [Footprint(box)];
    }

    /** A key event: `down` is true for keydown and false for keyup. */
    method SetKey(code: string, down: bool)
      modifies this`keys
      ensures keys == Press(old(keys), code, down)
    {
      if code == "KeyW" { keys := keys.(w := down); }
      if code == "KeyA" { keys := keys.(a := down); }
      if code == "KeyS" { keys := keys.(s := down); }
      if code == "KeyD" { keys := keys.(d := down); }
      if code == "Space" { keys := keys.(space := down); }
      if code == "ShiftLeft" || code == "ShiftRight" { keys := keys.(shift := down); }
    }

    /** The whale block of a frame of `dt` seconds. */
    method WhaleFrame(dt: real)
      modifies this`whalePos, this`whaleVel
      ensures whaleLoaded ==> WhaleBody() == Whale.Step(old(WhaleBody()), whaleBottomOffset, dt)
      ensures !whaleLoaded ==> whalePos == old(whalePos) && whaleVel == old(whaleVel)
    {
      if whaleLoaded {
        var pos, vel, speed := whalePos, whaleVel, whaleSpeed;
        ghost var b := Whale.Body(pos, vel, speed, whaleYMin, whaleYMax, whaleMargin);
        ghost var m := Whale.Moved(b, dt);
        pos := pos.(x := pos.x + speed * vel.x * dt);
        assert pos.x == m.x;
        pos := pos.(z := pos.z + speed * vel.z * dt);
        assert pos.z == m.z;
        pos := pos.(y := pos.y + vel.y * dt);
        assert pos == m;

        if pos.x > WORLD_RADIUS { pos := pos.(x := WORLD_RADIUS); vel := vel.(x := vel.x * -1.0); }
        if pos.x < -WORLD_RADIUS { pos := pos.(x := -WORLD_RADIUS); vel := vel.(x := vel.x * -1.0); }
        if pos.z > WORLD_RADIUS { pos := pos.(z := WORLD_RADIUS); vel := vel.(z := vel.z * -1.0); }
        if pos.z < -WORLD_RADIUS { pos := pos.(z := -WORLD_RADIUS); vel := vel.(z := vel.z * -1.0); }

        if pos.y > whaleYMax { pos := pos.(y := whaleYMax); vel := vel.(y := vel.y * -1.0); }

        var minRigY := whaleBottomOffset + whaleMargin;
        var minY := Max(whaleYMin, minRigY);
        if pos.y < minY { pos := pos.(y := minY); vel := vel.(y := Abs(vel.y)); }
        whalePos, whaleVel := pos, vel;
      }
    }

    /** The player block of a frame of `dt` seconds; `locked` is the pointer
        lock state, `forward` and `right` the camera's horizontal frame. */
    method PlayerFrame(dt: real, locked: bool, forward: Vec3, right: Vec3, sqrt: real -> real)
      requires IsSqrt(sqrt)
      modifies this`camera
      ensures camera == if locked then Player.Step(obstacles, old(camera), keys, dt, forward, right, sqrt) else old(camera)
    {
      if locked {
        var move := Heading(keys, forward, right, dt, sqrt);

        var cam := camera;
        var ox, oy, oz := cam.x, cam.y, cam.z;
        var nx := ox + move.x;
        var nz := oz + move.z;

        var hit := HitObstacle(nx, oy, nz);
        if !hit {
          cam := cam.(x := nx);
          cam := cam.(z := nz);
        } else {
          var hitX := HitObstacle(nx, oy, oz);
          if !hitX { cam := cam.(x := nx); }
          var hitZ := HitObstacle(ox, oy, nz);
          if !hitZ { cam := cam.(z := nz); }
        }
        ghost var h := Player.Resolve(obstacles, camera, nx, nz);
        assert cam == h;

        if keys.space { cam := cam.(y := cam.y + VERT_SPEED * dt); }
        if keys.shift { cam := cam.(y := cam.y - VERT_SPEED * dt); }
        cam := cam.(y := Player.Clamp(cam.y, MIN_Y, MAX_Y));
        assert cam == h.(y := Player.Climb(h.y, keys, dt));

        cam := PullInside(cam, sqrt);

        if cam.y < MIN_Y { cam := cam.(y := MIN_Y); }
        camera := cam;
      }
    }

    /** One animation frame started when the clock reads `now`. */
    method Frame(now: real, locked: bool, forward: Vec3, right: Vec3, sqrt: real -> real)
      requires IsSqrt(sqrt)
      modifies this`lastTime, this`whalePos, this`whaleVel, this`camera
      ensures lastTime == now
      ensures var dt := FrameDt(now, old(lastTime));
              (whaleLoaded ==> WhaleBody() == Whale.Step(old(WhaleBody()), whaleBottomOffset, dt)) &&
              (!whaleLoaded ==> whalePos == old(whalePos) && whaleVel == old(whaleVel)) &&
              camera == if locked then Player.Step(obstacles, old(camera), keys, dt, forward, right, sqrt) else old(camera)
      ensures locked ==> MIN_Y <= camera.y <= MAX_Y && Player.PlanarSq(camera) <= WORLD_RADIUS * WORLD_RADIUS
      ensures whaleLoaded ==> Whale.InBounds(WhaleBody(), whaleBottomOffset)
    {
      var dt := FrameDt(now, lastTime);
      lastTime := now;
      WhaleFrame(dt);
      PlayerFrame(dt, locked, forward, right, sqrt);
    }
  }
}
