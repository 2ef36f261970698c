/**
 * Where the spawn step of the game loop puts a new point: each coordinate is
 * the difference of two random draws reduced modulo the renderer's boundary.
 * The draws are non-negative integers supplied by the caller.
 */
module Spawning {
  import opened Geometry

  /** The renderer's world scale. */
  const WORLD_SCALE: int := 40

  /** The boundary the renderer reports: one less than the world scale. */
  const SPAWN_BOUND: int := WORLD_SCALE - 1

  /** One spawn coordinate from two draws; it lies in [-(b - 1), b - 1]. */
  function SpawnCoord(r1: nat, r2: nat): (c: int)
    ensures -(SPAWN_BOUND - 1) <= c <= SPAWN_BOUND - 1
  {
    r1 % SPAWN_BOUND - r2 % SPAWN_BOUND
  }

  /** The spawned point, from two draws per coordinate. */
  function SpawnPoint(xa: nat, xb: nat, ya: nat, yb: nat, za: nat, zb: nat): Point3D
  {
    Point3D(SpawnCoord(xa, xb) as real, SpawnCoord(ya, yb) as real, SpawnCoord(za, zb) as real)
  }

  /** A spawned point lies strictly inside the box (-b, b) on every axis. */
  lemma SpawnPointInside(xa: nat, xb: nat, ya: nat, yb: nat, za: nat, zb: nat)
    ensures var p := SpawnPoint(xa, xb, ya, yb, za, zb);
            -SPAWN_BOUND as real < p.x < SPAWN_BOUND as real &&
            -SPAWN_BOUND as real < p.y < SPAWN_BOUND as real &&
            -SPAWN_BOUND as real < p.z < SPAWN_BOUND as real
  {
  }

  /** Every integer of [-(b - 1), b - 1] is reachable by some pair of draws. */
  lemma SpawnCoordCovers(c: int)
    requires -(SPAWN_BOUND - 1) <= c <= SPAWN_BOUND - 1
    ensures exists r1: nat, r2: nat :: SpawnCoord(r1, r2) == c
  {
    if c >= 0 {
      assert SpawnCoord(c, 0) == c;
    } else {
      assert SpawnCoord(0, -c) == c;
    }
  }
}
