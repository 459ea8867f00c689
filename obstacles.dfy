/** The obstacle registry and the collision query against it (main.js:210-236
    and the obstacle record built in spawnAntekAntek, main.js:264-285). */
module Obstacles {
  import opened World

  /** An upright cylinder standing in for one prop: centre (x, y, z),
      horizontal radius r and height h. */
  datatype Obstacle = Obstacle(x: real, y: real, z: real, r: real, h: real)

  /** The vertical band the obstacle occupies, in the form hitObstacle tests it:
      the point is skipped when it lies below the bottom or above the top. */
  predicate InBand(o: Obstacle, y: real)
  {
    !(y < o.y - o.h / 2.0 || y > o.y + o.h / 2.0)
  }

  /** One obstacle stops the camera at (x, y, z). */
  predicate Collides(o: Obstacle, x: real, y: real, z: real)
  {
    InBand(o, y) &&
    var dx, dz := x - o.x, z - o.z;
    dx * dx + dz * dz < (PLAYER_R + o.r) * (PLAYER_R + o.r)
  }

  /** Some registered obstacle stops the camera at (x, y, z). */
  predicate Blocked(obstacles: seq<Obstacle>, x: real, y: real, z: real)
  {
    exists i :: 0 <= i < |obstacles| && Collides(obstacles[i], x, y, z)
  }

  /** The record pushed for a prop whose bounding box is `box`, exactly as the
      code builds it: the centre and size of the box measured before the prop
      is lifted onto the seafloor, radius 0.4 * max(size.x, size.z), height
      size.y. */
  function FootprintAsWritten(box: Box): (o: Obstacle)
    ensures o.x == (box.min.x + box.max.x) / 2.0 && o.z == (box.min.z + box.max.z) / 2.0
    ensures o.r >= 0.4 * Size(box).x && o.r >= 0.4 * Size(box).z
    ensures o.r == 0.4 * Size(box).x || o.r == 0.4 * Size(box).z
    ensures o.h == box.max.y - box.min.y
    ensures o.y - o.h / 2.0 == box.min.y && o.y + o.h / 2.0 == box.max.y
  {
    var size, center := Size(box), Center(box);
    Obstacle(center.x, center.y, center.z, Max(size.x, size.z) * 0.4, size.y)
  }

  /** The code lifts each prop by -box.min.y so that its lowest point rests on
      the seafloor at y = 0 (main.js:272); this is the vertical interval the
      prop then occupies. */
  predicate InPlacedProp(box: Box, y: real)
  {
    0.0 <= y <= box.max.y - box.min.y
  }

  /** The record for a prop measured after it is lifted onto the seafloor:
      the same radius and height as the code computes, with the centre moved
      up by the lift. */
  function Footprint(box: Box): (o: Obstacle)
    ensures o.x == FootprintAsWritten(box).x && o.z == FootprintAsWritten(box).z
    ensures o.r == FootprintAsWritten(box).r && o.h == FootprintAsWritten(box).h
    ensures forall y :: InBand(o, y) <==> InPlacedProp(box, y)
  {
    var size, center := Size(box), Center(box);
    Obstacle(center.x, center.y - box.min.y, center.z, Max(size.x, size.z) * 0.4, size.y)
  }

  /** The code's record misses the placed prop: a centred model 4 units tall
      rests on [0, 4] once lifted, but its record covers [-2, 2], so a camera
      at altitude 3 beside the prop's axis passes through it. */
  lemma FootprintAsWrittenMissesProp()
    ensures var box := Box(Vec3(-1.0, -2.0, -1.0), Vec3(1.0, 2.0, 1.0));
            InPlacedProp(box, 3.0) && MIN_Y <= 3.0 <= MAX_Y &&
            !Collides(FootprintAsWritten(box), 0.0, 3.0, 0.0) &&
            Collides(Footprint(box), 0.0, 3.0, 0.0)
  {
    var box := Box(Vec3(-1.0, -2.0, -1.0), Vec3(1.0, 2.0, 1.0));
    assert FootprintAsWritten(box) == Obstacle(0.0, 0.0, 0.0, 0.8, 4.0);
    assert Footprint(box) == Obstacle(0.0, 2.0, 0.0, 0.8, 4.0);
  }

  /** Both records agree whenever the model's pivot already sits at its
      lowest point. */
  lemma FootprintAgreesOnGroundedModels(box: Box)
    requires box.min.y == 0.0
    ensures Footprint(box) == FootprintAsWritten(box)
  {
  }

  /** Appending one obstacle to the registry adds exactly its own collisions. */
  lemma BlockedAppend(obstacles: seq<Obstacle>, o: Obstacle, x: real, y: real, z: real)
    ensures Blocked(obstacles + [o], x, y, z) <==> Blocked(obstacles, x, y, z) || Collides(o, x, y, z)
  {
    var s := obstacles + [o];
    if Blocked(obstacles, x, y, z) {
      var i :| 0 <= i < |obstacles| && Collides(obstacles[i], x, y, z);
      assert s[i] == obstacles[i];
    }
    if Collides(o, x, y, z) {
      assert s[|obstacles|] == o;
    }
    if Blocked(s, x, y, z) {
      var i :| 0 <= i < |s| && Collides(s[i], x, y, z);
      if i < |obstacles| {
        assert s[i] == obstacles[i];
      }
    }
  }

  /** The registry only grows, so a point once blocked stays blocked. */
  lemma BlockedPersists(obstacles: seq<Obstacle>, more: seq<Obstacle>, x: real, y: real, z: real)
    requires Blocked(obstacles, x, y, z)
    ensures Blocked(obstacles + more, x, y, z)
  {
    var i :| 0 <= i < |obstacles| && Collides(obstacles[i], x, y, z);
    assert (obstacles + more)[i] == obstacles[i];
  }
}
