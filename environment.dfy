/** The forest of src/entities/Environment.js: rows of trees and scenery
    spawned every 20 units ahead of the player, denser the further the
    row is from the start, and removed once they are 150 behind. */
module Environment {
  import opened Geometry
  import opened Pools
  import opened Random

  /** A tree group, with its position and whether it is deep-forest filler. */
  datatype Tree = Tree(position: Vec3, filler: bool)
  /** A scenery mesh: a rock or a grass tuft. */
  datatype Scenery = Scenery(position: Vec3, rock: bool)

  const SpawnAhead: real := 500.0
  const CleanBehind: real := 150.0
  const RoadWidth: real := 35.0
  const MountainBoundary: real := 55.0
  const SceneryCount: nat := 15

  /** 1 at the start, growing by 1 per 5000 units of distance, capped at 3. */
  function DensityMultiplier(z: real): (m: real)
    ensures 1.0 <= m <= 3.0
    ensures Abs(z) <= 10000.0 ==> m == 1.0 + Abs(z) / 5000.0
    ensures 10000.0 <= Abs(z) ==> m == 3.0
  {
    1.0 + Min(2.0, Abs(z) / 5000.0)
  }

  lemma DensityGrowsWithDistance(z1: real, z2: real)
    requires Abs(z1) <= Abs(z2)
    ensures DensityMultiplier(z1) <= DensityMultiplier(z2)
  {
  }

  /** floor(k * m) for a whole k in [lo, hi] and m in [1, 3]. */
  lemma ScaledCountBounds(k: int, m: real, lo: int, hi: int)
    requires 0 <= lo <= k <= hi && 1.0 <= m <= 3.0
    ensures lo <= Floor(k as real * m) <= 3 * hi
  {
    MulNonNegative(k as real, m - 1.0);
    MulNonNegative(k as real, 3.0 - m);
  }

  lemma MulNonNegative(a: real, b: real)
    requires 0.0 <= a && 0.0 <= b
    ensures 0.0 <= a * b
  {
  }

  /** The road-tree count of a row: 6 to 13 scaled by the density. */
  function RoadTreeCount(r: Unit, m: real): (n: nat)
    requires 1.0 <= m <= 3.0
    ensures 6 <= n <= 39
    ensures m == 1.0 ==> n <= 13
  {
    var k := 6 + Floor(r * 8.0);
    ScaledCountBounds(k, m, 6, 13);
    Floor(k as real * m)
  }

  /** The filler count of a row: 10 to 19 scaled by the density. */
  function FillerCount(r: Unit, m: real): (n: nat)
    requires 1.0 <= m <= 3.0
    ensures 10 <= n <= 57
    ensures m == 1.0 ==> n <= 19
  {
    var k := 10 + Floor(r * 10.0);
    ScaledCountBounds(k, m, 10, 19);
    Floor(k as real * m)
  }

  /** Where a road tree may stand: 22.5 to 52.5 to either side of the
      centre line, within 7.5 of its row. */
  predicate RoadTreeAt(t: Tree, curveX: real, z: real)
  {
    && !t.filler && t.position.y == 0.0
    && RoadWidth * 0.5 + 5.0 <= Abs(t.position.x - curveX) < RoadWidth * 0.5 + 35.0
    && z - 7.5 <= t.position.z < z + 7.5
  }

  /** Where a filler tree may stand: more than 60 and at most 500 off the
      centre line, within 10 of its row. */
  predicate FillerAt(t: Tree, curveX: real, z: real)
  {
    && t.filler && t.position.y == 0.0
    && 60.0 < Abs(t.position.x - curveX) <= 500.0
    && z - 10.0 <= t.position.z < z + 10.0
  }

  /** Where a scenery piece may lie: more than 20 and at most 100 off the
      centre line, within 10 of its row; a rock rests on its base, a tuft
      at 0.1. */
  predicate SceneryAt(s: Scenery, curveX: real, z: real)
  {
    && 20.0 < Abs(s.position.x - curveX) <= 100.0
    && z - 10.0 <= s.position.z < z + 10.0
    && (s.rock ==> 0.5 <= s.position.y < 2.0)
    && (!s.rock ==> s.position.y == 0.1)
  }

  /** One road tree from its side, offset and z-jitter draws. */
  function RoadTree(curveX: real, z: real, sideDraw: Unit, offsetDraw: Unit, zDraw: Unit): (t: Tree)
    ensures RoadTreeAt(t, curveX, z)
    ensures sideDraw > 0.5 <==> t.position.x > curveX
  {
    var offset := RoadWidth * 0.5 + 5.0 + offsetDraw * 30.0;
    var x := if sideDraw > 0.5 then curveX + offset else curveX - offset;
    Tree(Vec3(x, 0.0, z + (zDraw - 0.5) * 15.0), false)
  }

  /** A filler tree's x, up to 500 either side of the centre line. */
  function FillerX(curveX: real, r: Unit): (x: real)
    ensures Abs(x - curveX) <= 500.0
  {
    curveX + (r - 0.5) * 1000.0
  }

  /** A scenery piece's x, up to 100 either side of the centre line. */
  function SceneryX(curveX: real, r: Unit): (x: real)
    ensures Abs(x - curveX) <= 100.0
  {
    curveX + (r - 0.5) * 200.0
  }

  /** The z of a filler tree or scenery piece, within 10 of the row. */
  function RowJitter(z: real, r: Unit): (rz: real)
    ensures z - 10.0 <= rz < z + 10.0
  {
    z + (r - 0.5) * 20.0
  }

  /** createScenery(x, z): a rock when the first draw exceeds 0.7, of size
      1 to 4 from the second; otherwise a flattened tuft. */
  function SceneryPiece(x: real, z: real, rockDraw: Unit, sizeDraw: Unit): (s: Scenery)
    ensures s.position.x == x && s.position.z == z
    ensures s.rock <==> rockDraw > 0.7
    ensures s.rock ==> 0.5 <= s.position.y < 2.0
    ensures !s.rock ==> s.position.y == 0.1
  {
    var rock := rockDraw > 0.7;
    if rock then Scenery(Vec3(x, (1.0 + sizeDraw * 3.0) * 0.5, z), true)
    else Scenery(Vec3(x, 0.1, z), false)
  }

  /** The distant mountains ringing the scene. */
  const MountainCount: nat := 40

  /** createBackgroundMountains: forty cones, each taking five draws (height,
      base radius, shade, angle and distance) that only the meshes use. */
  method CreateBackgroundMountains(rng: Rng)
    modifies rng
    ensures rng.next == old(rng.next) + MountainCount * 5
  {
    var i := 0;
    while i < MountainCount
      invariant 0 <= i <= MountainCount
      invariant rng.next == old(rng.next) + i * 5
    {
      var h := rng.Random();
      var r := rng.Random();
      var shade := rng.Random();
      var angle := rng.Random();
      var dist := rng.Random();
      i := i + 1;
    }
  }

  function KeepTreeNear(playerZ: real): Tree -> bool
  {
    (t: Tree) => t.position.z <= playerZ + CleanBehind
  }

  function KeepSceneryNear(playerZ: real): Scenery -> bool
  {
    (s: Scenery) => s.position.z <= playerZ + CleanBehind
  }

  class Environment {
    /** getCurveX, the road's centre line; a parameter of the model. */
    const curve: real -> real
    var trees: seq<Tree>
    var scenery: seq<Scenery>
    var lastSpawnZ: real

    /** Rows sit at 0, -20, -40, ... down to the cursor (exclusive), so
        everything spawned lies between the cursor and the start line. */
    predicate Valid()
      reads this
    {
      && lastSpawnZ <= 0.0
      && (forall t :: t in trees ==> lastSpawnZ + 10.0 <= t.position.z < 10.0)
      && (forall s :: s in scenery ==> lastSpawnZ + 10.0 <= s.position.z < 10.0)
    }

    /** The constructor with createGround and createBackgroundMountains:
        the mountains are scenery outside the pools, but take their draws. */
    constructor(curve: real -> real, rng: Rng)
      modifies rng
      ensures this.curve == curve && trees == [] && scenery == [] && lastSpawnZ == 0.0
      ensures Valid()
      ensures rng.next == old(rng.next) + MountainCount * 5
    {
      this.curve := curve;
      trees := [];
      scenery := [];
      lastSpawnZ := 0.0;
      CreateBackgroundMountains(rng);
    }

    /** update(playerZ): spawn rows until the cursor is 500 ahead of the
        player, then clean up what is more than 150 behind. */
    method Update(playerZ: real, rng: Rng) returns (ghost addedTrees: seq<Tree>, ghost addedScenery: seq<Scenery>)
      requires Valid()
      modifies this, rng
      ensures Valid()
      ensures trees == Filter(old(trees) + addedTrees, KeepTreeNear(playerZ))
      ensures scenery == Filter(old(scenery) + addedScenery, KeepSceneryNear(playerZ))
      ensures forall t :: t in addedTrees ==> lastSpawnZ + 10.0 <= t.position.z < old(lastSpawnZ) + 10.0
      ensures forall s :: s in addedScenery ==> lastSpawnZ + 10.0 <= s.position.z < old(lastSpawnZ) + 10.0
      ensures forall t :: t in addedTrees && t.position.z <= playerZ + CleanBehind ==> t in trees
      ensures forall s :: s in addedScenery && s.position.z <= playerZ + CleanBehind ==> s in scenery
      ensures lastSpawnZ == old(lastSpawnZ) - 20.0 * CursorSteps(old(lastSpawnZ), playerZ - SpawnAhead, 20.0) as real
      ensures lastSpawnZ <= playerZ - SpawnAhead && lastSpawnZ <= old(lastSpawnZ)
      ensures forall t :: t in trees ==> t.position.z <= playerZ + CleanBehind
      ensures forall t :: t in old(trees) && t.position.z <= playerZ + CleanBehind ==> t in trees
      ensures forall t :: t in trees && t !in old(trees) ==> lastSpawnZ + 10.0 <= t.position.z < old(lastSpawnZ) + 10.0
      ensures forall s :: s in scenery ==> s.position.z <= playerZ + CleanBehind
      ensures forall s :: s in old(scenery) && s.position.z <= playerZ + CleanBehind ==> s in scenery
      ensures forall s :: s in scenery && s !in old(scenery) ==> lastSpawnZ + 10.0 <= s.position.z < old(lastSpawnZ) + 10.0
    {
      addedTrees, addedScenery := SpawnRows(playerZ - SpawnAhead, rng);
      ghost var spawnedTrees, spawnedScenery := trees, scenery;
      CleanUp(playerZ);
      forall t | t in spawnedTrees && t.position.z <= playerZ + CleanBehind
        ensures t in trees
      {
        FilterComplete(spawnedTrees, KeepTreeNear(playerZ), t);
      }
      forall s | s in spawnedScenery && s.position.z <= playerZ + CleanBehind
        ensures s in scenery
      {
        FilterComplete(spawnedScenery, KeepSceneryNear(playerZ), s);
      }
    }

    /** The while loop of `update`: one forest row per turn. */
    method SpawnRows(limit: real, rng: Rng) returns (ghost addedTrees: seq<Tree>, ghost addedScenery: seq<Scenery>)
      requires Valid()
      modifies this`trees, this`scenery, this`lastSpawnZ, rng
      ensures Valid()
      ensures trees == old(trees) + addedTrees && scenery == old(scenery) + addedScenery
      ensures forall t :: t in addedTrees ==> lastSpawnZ + 10.0 <= t.position.z < old(lastSpawnZ) + 10.0
      ensures forall s :: s in addedScenery ==> lastSpawnZ + 10.0 <= s.position.z < old(lastSpawnZ) + 10.0
      ensures lastSpawnZ == old(lastSpawnZ) - 20.0 * CursorSteps(old(lastSpawnZ), limit, 20.0) as real
      ensures lastSpawnZ <= limit && lastSpawnZ <= old(lastSpawnZ)
      ensures old(trees) <= trees && old(scenery) <= scenery
      ensures forall t :: t in trees && t !in old(trees) ==> lastSpawnZ + 10.0 <= t.position.z < old(lastSpawnZ) + 10.0
      ensures forall s :: s in scenery && s !in old(scenery) ==> lastSpawnZ + 10.0 <= s.position.z < old(lastSpawnZ) + 10.0
    {
      ghost var c0 := lastSpawnZ;
      ghost var n := CursorSteps(c0, limit, 20.0);
      ghost var j := 0;
      while lastSpawnZ > limit
        invariant 0 <= j <= n
        invariant lastSpawnZ == c0 - 20.0 * j as real
        invariant CursorSteps(lastSpawnZ, limit, 20.0) == n - j
        invariant Valid()
        invariant old(trees) <= trees && old(scenery) <= scenery
        invariant forall i :: |old(trees)| <= i < |trees| ==> lastSpawnZ + 10.0 <= trees[i].position.z < c0 + 10.0
        invariant forall i :: |old(scenery)| <= i < |scenery| ==> lastSpawnZ + 10.0 <= scenery[i].position.z < c0 + 10.0
        decreases n - j
      {
        SpawnForestRow(lastSpawnZ, rng);
        lastSpawnZ := lastSpawnZ - 20.0;
        j := j + 1;
      }
      addedTrees, addedScenery := trees[|old(trees)|..], scenery[|old(scenery)|..];
      assert trees == old(trees) + addedTrees && scenery == old(scenery) + addedScenery;
      assert forall i :: 0 <= i < |addedTrees| ==> addedTrees[i] == trees[|old(trees)| + i];
      assert forall i :: 0 <= i < |addedScenery| ==> addedScenery[i] == scenery[|old(scenery)| + i];
    }

    /** cleanUp(playerZ): both reverse splice loops. */
    method CleanUp(playerZ: real)
      requires Valid()
      modifies this`trees, this`scenery
      ensures Valid()
      ensures trees == Filter(old(trees), KeepTreeNear(playerZ))
      ensures scenery == Filter(old(scenery), KeepSceneryNear(playerZ))
    {
      trees := RemoveWhereNot(trees, KeepTreeNear(playerZ));
      scenery := RemoveWhereNot(scenery, KeepSceneryNear(playerZ));
    }

    /** spawnForestRow(z): road trees, then fillers, then scenery. */
    method SpawnForestRow(z: real, rng: Rng)
      modifies this`trees, this`scenery, rng
      ensures var roadCount := RoadTreeCount(rng.draw(old(rng.next)), DensityMultiplier(z));
        && |old(trees)| + roadCount <= |trees| <= |old(trees)| + roadCount + 57
        && trees[..|old(trees)|] == old(trees)
        && (forall i :: |old(trees)| <= i < |old(trees)| + roadCount ==> RoadTreeAt(trees[i], curve(z), z))
        && (forall i :: |old(trees)| + roadCount <= i < |trees| ==> FillerAt(trees[i], curve(z), z))
      ensures |old(scenery)| <= |scenery| <= |old(scenery)| + SceneryCount
      ensures scenery[..|old(scenery)|] == old(scenery)
      ensures forall i :: |old(scenery)| <= i < |scenery| ==> SceneryAt(scenery[i], curve(z), z)
      ensures forall i :: |old(trees)| <= i < |trees| ==> z - 10.0 <= trees[i].position.z < z + 10.0
      ensures forall i :: |old(scenery)| <= i < |scenery| ==> z - 10.0 <= scenery[i].position.z < z + 10.0
      ensures forall t :: t in trees && t !in old(trees) ==> z - 10.0 <= t.position.z < z + 10.0
      ensures forall s :: s in scenery && s !in old(scenery) ==> z - 10.0 <= s.position.z < z + 10.0
    {
      var curveX := curve(z);
      var m := DensityMultiplier(z);
      var r := rng.Random();
      var roadCount := RoadTreeCount(r, m);
      SpawnRoadTrees(curveX, z, roadCount, rng);
      var r2 := rng.Random();
      var fillerCount := FillerCount(r2, m);
      SpawnFillers(curveX, z, fillerCount, rng);
      SpawnScenery(curveX, z, rng);
      assert forall i :: 0 <= i < |old(trees)| ==> trees[i] == trees[..|old(trees)|][i];
      forall t | t in trees && t !in old(trees)
        ensures z - 10.0 <= t.position.z < z + 10.0
      {
        var i :| 0 <= i < |trees| && trees[i] == t;
      }
      assert forall i :: 0 <= i < |old(scenery)| ==> scenery[i] == scenery[..|old(scenery)|][i];
      forall s | s in scenery && s !in old(scenery)
        ensures z - 10.0 <= s.position.z < z + 10.0
      {
        var i :| 0 <= i < |scenery| && scenery[i] == s;
      }
    }

    /** The road-tree loop of spawnForestRow: `count` trees, five draws each. */
    method SpawnRoadTrees(curveX: real, z: real, count: nat, rng: Rng)
      modifies this`trees, rng
      ensures |trees| == |old(trees)| + count && trees[..|old(trees)|] == old(trees)
      ensures forall i :: |old(trees)| <= i < |trees| ==> RoadTreeAt(trees[i], curveX, z)
      ensures rng.next == old(rng.next) + 5 * count
    {
      var i := 0;
      while i < count
        invariant 0 <= i <= count
        invariant |trees| == |old(trees)| + i && trees[..|old(trees)|] == old(trees)
        invariant forall j :: |old(trees)| <= j < |trees| ==> RoadTreeAt(trees[j], curveX, z)
        invariant rng.next == old(rng.next) + 5 * i
      {
        var side := rng.Random();
        var offset := rng.Random();
        var jitter := rng.Random();
        var t := RoadTree(curveX, z, side, offset, jitter);
        CreateTree(t.position.x, t.position.z, false, rng);
        i := i + 1;
      }
    }

    /** The filler loop of spawnForestRow: a tree only when it falls more
        than 60 off the centre line. */
    method SpawnFillers(curveX: real, z: real, count: nat, rng: Rng)
      modifies this`trees, rng
      ensures |old(trees)| <= |trees| <= |old(trees)| + count && trees[..|old(trees)|] == old(trees)
      ensures forall i :: |old(trees)| <= i < |trees| ==> FillerAt(trees[i], curveX, z)
      ensures rng.next >= old(rng.next) + count
    {
      var i := 0;
      while i < count
        invariant 0 <= i <= count
        invariant |old(trees)| <= |trees| <= |old(trees)| + i && trees[..|old(trees)|] == old(trees)
        invariant forall j :: |old(trees)| <= j < |trees| ==> FillerAt(trees[j], curveX, z)
        invariant rng.next >= old(rng.next) + i
      {
        var r := rng.Random();
        var x := FillerX(curveX, r);
        if Abs(x - curveX) > 60.0 {
          var jitter := rng.Random();
          CreateTree(x, RowJitter(z, jitter), true, rng);
        }
        i := i + 1;
      }
    }

    /** The scenery loop of spawnForestRow: fifteen tries, a piece only when
        it falls more than 20 off the centre line. */
    method SpawnScenery(curveX: real, z: real, rng: Rng)
      modifies this`scenery, rng
      ensures |old(scenery)| <= |scenery| <= |old(scenery)| + SceneryCount
      ensures scenery[..|old(scenery)|] == old(scenery)
      ensures forall i :: |old(scenery)| <= i < |scenery| ==> SceneryAt(scenery[i], curveX, z)
      ensures rng.next >= old(rng.next) + SceneryCount
    {
      var i := 0;
      while i < SceneryCount
        invariant 0 <= i <= SceneryCount
        invariant |old(scenery)| <= |scenery| <= |old(scenery)| + i
        invariant scenery[..|old(scenery)|] == old(scenery)
        invariant forall j :: |old(scenery)| <= j < |scenery| ==> SceneryAt(scenery[j], curveX, z)
        invariant rng.next >= old(rng.next) + i
      {
        var r := rng.Random();
        var x := SceneryX(curveX, r);
        if Abs(x - curveX) > 20.0 {
          var jitter := rng.Random();
          CreateScenery(x, RowJitter(z, jitter), rng);
        }
        i := i + 1;
      }
    }

    /** createTree(x, z, isFiller): the group stands on the ground at (x, z);
        its height and leaf colour take two draws. */
    method CreateTree(x: real, z: real, filler: bool, rng: Rng)
      modifies this`trees, rng
      ensures trees == old(trees) + [Tree(Vec3(x, 0.0, z), filler)]
      ensures rng.next == old(rng.next) + 2
    {
      var baseHeight := rng.Random();
      var leafShade := rng.Random();
      trees := trees + [Tree(Vec3(x, 0.0, z), filler)];
    }

    /** createScenery(x, z): two draws, rock or tuft and its size. */
    method CreateScenery(x: real, z: real, rng: Rng)
      modifies this`scenery, rng
      ensures scenery == old(scenery) + [SceneryPiece(x, z, rng.draw(old(rng.next)), rng.draw(old(rng.next) + 1))]
      ensures rng.next == old(rng.next) + 2
    {
      var isRock := rng.Random();
      var size := rng.Random();
      var s: real := 1.0 + size as real * 3.0;
      var y: real := if isRock > 0.7 then s * 0.5 else 0.1;
      scenery := scenery + [Scenery(Vec3(x, y, z), isRock > 0.7)];
    }
  }
}
