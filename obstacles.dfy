/** The obstacle pool of src/entities/Obstacles.js: timer-driven spawning
    ahead of the player, removal of what the player has passed, and the
    hit test against a car. */
module Obstacles {
  import opened Geometry
  import opened Pools
  import opened Random

  datatype ObstacleKind = Rock | Log | Barrel | Boulder

  /** The pool entry `{ position, radius, type }` without its mesh. */
  datatype Obstacle = Obstacle(position: Vec3, radius: real, kind: ObstacleKind)

  /** Obstacles this far behind the player (larger z) are removed. */
  const CleanBehind: real := 50.0
  /** The car's own margin in the hit test. */
  const CarMargin: real := 1.2

  /** The spawn interval tier for the distance driven so far. */
  function SpawnInterval(distance: real): (r: real)
    ensures 0.35 <= r <= 1.8
  {
    if distance < 500.0 then 1.8
    else if distance < 1500.0 then 1.0
    else if distance < 3000.0 then 0.6
    else 0.35
  }

  /** Obstacles only ever come more often as the distance grows. */
  lemma SpawnIntervalNonIncreasing(d1: real, d2: real)
    requires d1 <= d2
    ensures SpawnInterval(d2) <= SpawnInterval(d1)
  {
  }

  /** Whether the type draw needs a size draw (rocks and boulders). */
  predicate NeedsSize(typeDraw: Unit)
  {
    typeDraw < 0.35 || 0.8 <= typeDraw
  }

  /** spawnObstacle with its create* helpers, for the draws of x, z, type
      and size (the size draw is used only by rocks and boulders). */
  function SpawnObstacle(playerZ: real, rx: Unit, rz: Unit, rtype: Unit, rsize: Unit): (o: Obstacle)
    ensures -12.0 <= o.position.x < 12.0
    ensures playerZ - 200.0 < o.position.z <= playerZ - 120.0
    ensures rtype < 0.35 ==> o.kind == Rock && 1.1 <= o.radius < 2.1
    ensures 0.35 <= rtype < 0.6 ==> o.kind == Log && o.radius == 1.2
    ensures 0.6 <= rtype < 0.8 ==> o.kind == Barrel && o.radius == 0.8
    ensures 0.8 <= rtype ==> o.kind == Boulder && 1.8 <= o.radius < 3.3
    ensures o.radius > 0.0
  {
    var x := (rx as real - 0.5) * 24.0;
    var z := playerZ - 120.0 - rz as real * 80.0;
    if rtype < 0.35 then
      var size := 0.8 + rsize * 1.0;
      Obstacle(Vec3(x, size * 0.4, z), size + 0.3, Rock)
    else if rtype < 0.6 then
      Obstacle(Vec3(x, 0.4, z), 1.2, Log)
    else if rtype < 0.8 then
      Obstacle(Vec3(x, 0.55, z), 0.8, Barrel)
    else
      var size := 1.5 + rsize * 1.5;
      Obstacle(Vec3(x, size * 0.4, z), size + 0.3, Boulder)
  }

  /** The obstacles `update` keeps: those not further behind than 50. */
  function KeepNear(playerZ: real): Obstacle -> bool
  {
    (o: Obstacle) => o.position.z <= playerZ + CleanBehind
  }

  /** `dist < obs.radius + 1.2` for the car at `carPos`. */
  predicate Hits(carPos: Vec3, o: Obstacle)
  {
    WithinRadius(PlanarDistSq(carPos, o.position), o.radius + CarMargin)
  }

  function HitBy(carPos: Vec3): Obstacle -> bool
  {
    (o: Obstacle) => Hits(carPos, o)
  }

  /** After an update no obstacle is more than 50 behind the player, and
      every obstacle that is not is still there. */
  lemma {:induction false} KeptWindow(s: seq<Obstacle>, playerZ: real)
    ensures forall o :: o in Filter(s, KeepNear(playerZ)) ==> o.position.z <= playerZ + 50.0
    ensures forall o :: o in s && o.position.z <= playerZ + 50.0 ==> o in Filter(s, KeepNear(playerZ))
  {
    forall o | o in s && o.position.z <= playerZ + 50.0
      ensures o in Filter(s, KeepNear(playerZ))
    {
      FilterComplete(s, KeepNear(playerZ), o);
    }
  }

  class Obstacles {
    var obstacles: seq<Obstacle>
    var spawnTimer: real
    var totalDistance: real

    constructor()
      ensures obstacles == [] && spawnTimer == 0.0 && totalDistance == 0.0
    {
      obstacles := [];
      spawnTimer := 0.0;
      totalDistance := 0.0;
    }

    /** One frame: advance the timer, spawn at most one obstacle when it
        reaches the interval, then drop what is far behind. */
    method Update(dt: real, playerZ: real, distance: real, rng: Rng)
      modifies this, rng
      ensures totalDistance == distance
      ensures var spawn := old(spawnTimer) + dt >= SpawnInterval(distance);
        && (spawn ==> spawnTimer == 0.0)
        && (!spawn ==> spawnTimer == old(spawnTimer) + dt)
        && obstacles == Filter(old(obstacles) + Spawned(spawn, playerZ, rng.draw, old(rng.next)), KeepNear(playerZ))
        && rng.next == old(rng.next) + (if spawn then DrawsUsed(rng.draw(old(rng.next) + 2)) else 0)
    {
      totalDistance := distance;
      spawnTimer := spawnTimer + dt;
      var spawnInterval := SpawnInterval(distance);
      if spawnTimer >= spawnInterval {
        spawnTimer := 0.0;
        SpawnObstacleInto(playerZ, rng);
      } else {
        assert obstacles + Spawned(false, playerZ, rng.draw, rng.next) == obstacles;
      }
      obstacles := RemoveWhereNot(obstacles, KeepNear(playerZ));
    }

    /** spawnObstacle: three Math.random() calls for x, z and the type,
        then the create* helper for that type, appended at the end of the
        pool. */
    method SpawnObstacleInto(playerZ: real, rng: Rng)
      modifies this`obstacles, rng
      ensures obstacles == old(obstacles) + Spawned(true, playerZ, rng.draw, old(rng.next))
      ensures rng.next == old(rng.next) + DrawsUsed(rng.draw(old(rng.next) + 2))
    {
      var rx := rng.Random();
      var x: real := (rx as real - 0.5) * 24.0;
      var rz := rng.Random();
      var z: real := playerZ - 120.0 - rz as real * 80.0;
      var rtype := rng.Random();
      if rtype < 0.35 {
        CreateRock(x, z, rng);
      } else if rtype < 0.6 {
        CreateLog(x, z, rng);
      } else if rtype < 0.8 {
        CreateBarrel(x, z);
      } else {
        CreateBoulder(x, z, rng);
      }
    }

    /** createRock: a size draw, then a shade and three rotation draws that
        only the mesh uses. */
    method CreateRock(x: real, z: real, rng: Rng)
      modifies this`obstacles, rng
      ensures var size := 0.8 + rng.draw(old(rng.next)) * 1.0;
        obstacles == old(obstacles) + [Obstacle(Vec3(x, size * 0.4, z), size + 0.3, Rock)]
      ensures rng.next == old(rng.next) + 5
    {
      var r := rng.Random();
      var size: real := 0.8 + r as real * 1.0;
      var shade := rng.Random();
      var rotX := rng.Random();
      var rotY := rng.Random();
      var rotZ := rng.Random();
      obstacles := obstacles + [Obstacle(Vec3(x, size * 0.4, z), size + 0.3, Rock)];
    }

    /** createLog: a length and a yaw draw that only the mesh uses. */
    method CreateLog(x: real, z: real, rng: Rng)
      modifies this`obstacles, rng
      ensures obstacles == old(obstacles) + [Obstacle(Vec3(x, 0.4, z), 1.2, Log)]
      ensures rng.next == old(rng.next) + 2
    {
      var length := rng.Random();
      var yaw := rng.Random();
      obstacles := obstacles + [Obstacle(Vec3(x, 0.4, z), 1.2, Log)];
    }

    /** createBarrel: no draws. */
    method CreateBarrel(x: real, z: real)
      modifies this`obstacles
      ensures obstacles == old(obstacles) + [Obstacle(Vec3(x, 0.55, z), 0.8, Barrel)]
    {
      obstacles := obstacles + [Obstacle(Vec3(x, 0.55, z), 0.8, Barrel)];
    }

    /** createBoulder: a size draw. */
    method CreateBoulder(x: real, z: real, rng: Rng)
      modifies this`obstacles, rng
      ensures var size := 1.5 + rng.draw(old(rng.next)) * 1.5;
        obstacles == old(obstacles) + [Obstacle(Vec3(x, size * 0.4, z), size + 0.3, Boulder)]
      ensures rng.next == old(rng.next) + 1
    {
      var r := rng.Random();
      var size: real := 1.5 + r as real * 1.5;
      obstacles := obstacles + [Obstacle(Vec3(x, size * 0.4, z), size + 0.3, Boulder)];
    }

    /** checkCollision: the first obstacle in list order that the car hits. */
    function CheckCollision(carPos: Vec3): (hit: Option<Obstacle>)
      reads this
      ensures hit.None? <==> forall i :: 0 <= i < |obstacles| ==> !Hits(carPos, obstacles[i])
      ensures hit.Some? ==> Hits(carPos, hit.value)
      ensures hit.Some? ==>
        exists i :: 0 <= i < |obstacles| && obstacles[i] == hit.value &&
          forall j :: 0 <= j < i ==> !Hits(carPos, obstacles[j])
    {
      match FirstIndex(obstacles, HitBy(carPos))
      case None => None
      case Some(i) => Some(obstacles[i])
    }

    /** getActiveObstacles. */
    function ActiveObstacles(): (r: seq<Obstacle>)
      reads this
      ensures r == obstacles
    {
      obstacles
    }

    method Destroy()
      modifies this`obstacles
      ensures obstacles == []
    {
      obstacles := [];
    }
  }

  /** Draws spawnObstacle takes from Math.random() given its type draw:
      x, z and type, then 5 for a rock, 2 for a log, none for a barrel and
      1 for a boulder. */
  function DrawsUsed(rtype: Unit): (n: nat)
    ensures 3 <= n <= 8
  {
    if rtype < 0.35 then 8
    else if rtype < 0.6 then 5
    else if rtype < 0.8 then 3
    else 4
  }

  /** The obstacle one update appends: none, or the one spawned from the
      draws at positions k, k+1, k+2 of the stream (and k+3 for the size of
      a rock or boulder). */
  function Spawned(spawn: bool, playerZ: real, draw: nat -> Unit, k: nat): seq<Obstacle>
  {
    if !spawn then []
    else
      var rtype := draw(k + 2);
      [SpawnObstacle(playerZ, draw(k), draw(k + 1), rtype, if NeedsSize(rtype) then draw(k + 3) else 0.0)]
  }
}
