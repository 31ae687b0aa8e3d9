/** The roadside animals of src/entities/Animals.js: timer-driven spawning
    beside the road, walking toward the player, removal outside a window
    around the player, the size tables and the hit test. */
module Animals {
  import opened Geometry
  import opened Pools
  import opened Random

  /** The pool entry without its mesh and legs. `kind` is the type name. */
  datatype Animal = Animal(kind: string, position: Vec3, speed: real, idleTime: real, baseY: real, radius: real)

  const AnimalTypes: seq<string> := ["rhino", "lion", "tiger", "deer", "dinosaur", "horse", "zebra", "giraffe"]
  const BaseInterval: real := 1.5
  /** 2 * Math.PI, as the double the source multiplies by. */
  const TwoPi: real := 6.283185307179586

  const Heights: map<string, real> := map[
    "rhino" := 2.5, "lion" := 1.8, "tiger" := 1.8, "deer" := 1.5,
    "dinosaur" := 3.0, "horse" := 2.0, "zebra" := 2.0, "giraffe" := 5.0]

  const Radii: map<string, real> := map[
    "rhino" := 4.0, "lion" := 2.5, "tiger" := 2.5, "deer" := 2.0,
    "dinosaur" := 5.0, "horse" := 2.5, "zebra" := 2.5, "giraffe" := 3.0]

  /** getAnimalHeight: the table value, 1.5 for a type not in the table. */
  function AnimalHeight(kind: string): (h: real)
    ensures 1.5 <= h <= 5.0
    ensures kind !in Heights ==> h == 1.5
    ensures kind in Heights ==> h == Heights[kind]
  {
    if kind in Heights then Heights[kind] else 1.5
  }

  /** getAnimalRadius: the table value, 2 for a type not in the table. */
  function AnimalRadius(kind: string): (r: real)
    ensures 2.0 <= r <= 5.0
    ensures kind !in Radii ==> r == 2.0
    ensures kind in Radii ==> r == Radii[kind]
  {
    if kind in Radii then Radii[kind] else 2.0
  }

  /** Every type the spawner can pick has an entry in both tables, so the
      defaults are never used for a spawned animal. */
  lemma TablesCoverTypes()
    ensures forall i :: 0 <= i < |AnimalTypes| ==> AnimalTypes[i] in Heights && AnimalTypes[i] in Radii
  {
  }

  /** The interval after which the next animal spawns. */
  function DynamicInterval(levelDifficulty: real): (r: real)
    ensures r >= 1.5
    ensures levelDifficulty >= 0.0 ==> r == 1.5
  {
    Max(1.5, BaseInterval - levelDifficulty * 0.2)
  }

  /** The Math.random() draws spawnAnimalBesideRoad takes, in call order. */
  datatype AnimalDraws = AnimalDraws(kind: Unit, side: Unit, offset: Unit, z: Unit, speed: Unit, idle: Unit)

  /** spawnAnimalBesideRoad: a type from the list, a side, 20 to 45 from the
      road's centre line (taken as x = 0), 200 to 350 ahead. */
  function SpawnAnimal(playerZ: real, d: AnimalDraws): (a: Animal)
    ensures a.kind in AnimalTypes
    ensures 20.0 <= Abs(a.position.x) < 45.0
    ensures playerZ - 350.0 < a.position.z <= playerZ - 200.0
    ensures 5.0 <= a.speed < 13.0
    ensures a.radius == AnimalRadius(a.kind) && a.baseY == AnimalHeight(a.kind) && a.position.y == a.baseY
  {
    var i := Floor(d.kind * 8.0);
    var kind := AnimalTypes[i];
    var roadCurveX := 0.0;
    var side := if d.side > 0.5 then 1.0 else -1.0;
    var distanceFromRoad := 20.0 + d.offset * 25.0;
    var spawnX := roadCurveX + side * distanceFromRoad;
    var spawnZ := playerZ - 200.0 - d.z * 150.0;
    var baseY := AnimalHeight(kind);
    Animal(kind, Vec3(spawnX, baseY, spawnZ), 5.0 + d.speed * 8.0, d.idle * TwoPi, baseY, AnimalRadius(kind))
  }

  /** One animal's movement in `update`: it walks toward +z at half its
      speed, its idle clock advances, it sways sideways and bobs.
      `sin` stands for Math.sin. */
  function Walk(a: Animal, dt: real, sin: real -> real): (b: Animal)
    ensures b.position.z == a.position.z + a.speed * dt * 0.5
    ensures b.kind == a.kind && b.speed == a.speed && b.radius == a.radius && b.baseY == a.baseY
    ensures b.idleTime == a.idleTime + dt
  {
    var t := a.idleTime + dt;
    var z := a.position.z + a.speed * dt * 0.5;
    var x := a.position.x + sin(t * 0.5) * 0.02;
    var y := a.baseY + sin(t) * 0.1;
    a.(position := Vec3(x, y, z), idleTime := t)
  }

  function WalkAll(s: seq<Animal>, dt: real, sin: real -> real): (r: seq<Animal>)
    ensures |r| == |s|
    ensures forall i :: 0 <= i < |s| ==> r[i] == Walk(s[i], dt, sin)
  {
    if s == [] then [] else [Walk(s[0], dt, sin)] + WalkAll(s[1..], dt, sin)
  }

  /** Every animal of the pool takes its own walking step. */
  lemma {:induction false} WalkAllAt(s: seq<Animal>, dt: real, sin: real -> real, i: nat)
    requires i < |s|
    ensures WalkAll(s, dt, sin)[i] == Walk(s[i], dt, sin)
  {
    if i > 0 {
      WalkAllAt(s[1..], dt, sin, i - 1);
    }
  }

  /** The animals `update` keeps: at most 100 behind and 300 ahead. */
  predicate InWindow(playerZ: real, a: Animal)
  {
    !(a.position.z > playerZ + 100.0 || a.position.z < playerZ - 300.0)
  }

  function KeepInWindow(playerZ: real): Animal -> bool
  {
    (a: Animal) => InWindow(playerZ, a)
  }

  /** After an update every animal lies in the window around the player,
      and every walked animal in the window survives. */
  lemma {:induction false} CulledWindow(s: seq<Animal>, playerZ: real)
    ensures forall a :: a in Filter(s, KeepInWindow(playerZ)) ==>
      playerZ - 300.0 <= a.position.z <= playerZ + 100.0
    ensures forall a :: a in s && InWindow(playerZ, a) ==> a in Filter(s, KeepInWindow(playerZ))
  {
    forall a | a in s && InWindow(playerZ, a)
      ensures a in Filter(s, KeepInWindow(playerZ))
    {
      FilterComplete(s, KeepInWindow(playerZ), a);
    }
  }

  /** The spawn range reaches 50 past the far edge of the window: an
      animal spawned from a z draw above 0.7 on a short frame is removed
      in the same update that spawned it. */
  lemma FarSpawnDroppedAtOnce(playerZ: real, d: AnimalDraws, dt: real, sin: real -> real)
    requires d.z > 0.7 && 0.0 < dt <= 0.1
    ensures !InWindow(playerZ, Walk(SpawnAnimal(playerZ, d), dt, sin))
  {
    var a := SpawnAnimal(playerZ, d);
    assert a.position.z == playerZ - 200.0 - d.z * 150.0;
    assert a.speed == 5.0 + d.speed * 8.0;
    assert a.position.z < playerZ - 305.0;
    var b := Walk(a, dt, sin);
    assert b.position.z == a.position.z + a.speed * dt * 0.5;
    WalkStepBound(a.speed, dt);
    assert b.position.z < playerZ - 300.0;
  }

  /** A walking step on a frame of at most 0.1 is below 0.65. */
  lemma WalkStepBound(speed: real, dt: real)
    requires 0.0 <= speed < 13.0 && 0.0 < dt <= 0.1
    ensures speed * dt * 0.5 < 0.65
  {
    assert (13.0 - speed) * dt > 0.0;
  }

  /** `dist < animal.radius + 1.5` for the car at `carPos`. */
  predicate Hits(carPos: Vec3, a: Animal)
  {
    WithinRadius(PlanarDistSq(carPos, a.position), a.radius + 1.5)
  }

  function HitBy(carPos: Vec3): Animal -> bool
  {
    (a: Animal) => Hits(carPos, a)
  }

  class Animals {
    var animals: seq<Animal>
    var spawnTimer: real

    constructor()
      ensures animals == [] && spawnTimer == 0.0
    {
      animals := [];
      spawnTimer := 0.0;
    }

    /** update(dt, playerZ, levelDifficulty): at most one spawn, then every
        animal walks and those outside the window are spliced out. */
    method Update(dt: real, playerZ: real, levelDifficulty: real, rng: Rng, sin: real -> real)
      modifies this, rng
      ensures var spawn := old(spawnTimer) + dt >= DynamicInterval(levelDifficulty);
        && (spawn ==> spawnTimer == 0.0 && rng.next == old(rng.next) + 6)
        && (!spawn ==> spawnTimer == old(spawnTimer) + dt && rng.next == old(rng.next))
        && animals == Filter(WalkAll(old(animals) + Spawned(spawn, playerZ, rng.draw, old(rng.next)), dt, sin),
                             KeepInWindow(playerZ))
    {
      spawnTimer := spawnTimer + dt;
      var dynamicInterval := DynamicInterval(levelDifficulty);
      if spawnTimer >= dynamicInterval {
        spawnTimer := 0.0;
        SpawnAnimalBesideRoad(playerZ, rng);
      } else {
        assert animals + Spawned(false, playerZ, rng.draw, rng.next) == animals;
      }
      WalkAndCull(dt, playerZ, sin);
    }

    /** The reverse loop of `update`: walk each animal, then splice it out
        when it has left the window. */
    method WalkAndCull(dt: real, playerZ: real, sin: real -> real)
      modifies this`animals
      ensures animals == Filter(WalkAll(old(animals), dt, sin), KeepInWindow(playerZ))
    {
      ghost var before := animals;
      var i := |animals|;
      while i > 0
        invariant 0 <= i <= |before| && i <= |animals|
        invariant animals[..i] == before[..i]
        invariant animals[i..] == Filter(WalkAll(before[i..], dt, sin), KeepInWindow(playerZ))
      {
        i := i - 1;
        ghost var walked := WalkAll(before[i..], dt, sin);
        assert before[i..][1..] == before[i + 1..];
        assert walked[1..] == WalkAll(before[i + 1..], dt, sin);
        FilterUnfold(walked, KeepInWindow(playerZ));
        assert animals[i] == animals[..i + 1][i] == before[..i + 1][i] == before[i];
        assert animals[..i] == animals[..i + 1][..i] == before[..i + 1][..i] == before[..i];
        animals := animals[i := Walk(animals[i], dt, sin)];
        assert animals[..i] == before[..i];
        if !InWindow(playerZ, animals[i]) {
          assert animals[i + 1..] == animals[i..][1..];
          animals := animals[..i] + animals[i + 1..];
        } else {
          assert animals[i..] == [animals[i]] + animals[i + 1..];
        }
      }
      assert animals == animals[0..] && before == before[0..];
    }

    /** spawnAnimalBesideRoad: six Math.random() calls, appended at the end. */
    method SpawnAnimalBesideRoad(playerZ: real, rng: Rng)
      modifies this`animals, rng
      ensures animals == old(animals) + Spawned(true, playerZ, rng.draw, old(rng.next))
      ensures rng.next == old(rng.next) + 6
    {
      var rk := rng.Random();
      var rs := rng.Random();
      var ro := rng.Random();
      var rz := rng.Random();
      var rv := rng.Random();
      var ri := rng.Random();
      animals := animals + [SpawnAnimal(playerZ, AnimalDraws(rk, rs, ro, rz, rv, ri))];
    }

    /** checkCollision: the first animal in list order that the car hits. */
    function CheckCollision(carPos: Vec3): (hit: Option<Animal>)
      reads this
      ensures hit.None? <==> forall i :: 0 <= i < |animals| ==> !Hits(carPos, animals[i])
      ensures hit.Some? ==> Hits(carPos, hit.value)
      ensures hit.Some? ==>
        exists i :: 0 <= i < |animals| && animals[i] == hit.value &&
          forall j :: 0 <= j < i ==> !Hits(carPos, animals[j])
    {
      match FirstIndex(animals, HitBy(carPos))
      case None => None
      case Some(i) => Some(animals[i])
    }

    method Destroy()
      modifies this`animals
      ensures animals == []
    {
      animals := [];
    }
  }

  /** The animal one update appends: none, or the one spawned from the six
      draws starting at position k of the stream. */
  function Spawned(spawn: bool, playerZ: real, draw: nat -> Unit, k: nat): seq<Animal>
  {
    if !spawn then []
    else [SpawnAnimal(playerZ, AnimalDraws(draw(k), draw(k + 1), draw(k + 2), draw(k + 3), draw(k + 4), draw(k + 5)))]
  }
}
