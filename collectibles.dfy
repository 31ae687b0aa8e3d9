/** The nitro bottles of src/entities/Collectibles.js: a spawn cursor that
    walks ahead of the player in 80-unit slots, removal of what the player
    has passed, and pick-up on contact. */
module Collectibles {
  import opened Geometry
  import opened Pools
  import opened Random

  /** The pool entry `{ mesh, type }`, with the mesh's position. */
  datatype Item = Item(position: Vec3, kind: string)

  const SpawnAhead: real := 400.0
  const CleanBehind: real := 100.0
  /** A pick-up happens within this planar distance. */
  const PickupRadius: real := 2.5

  /** spawnNitro(z): a bottle at the slot's z, up to 10 to either side of
      the road's centre line. */
  function NitroAt(curve: real -> real, z: real, lane: Unit): (it: Item)
    ensures it.kind == "nitro" && it.position.z == z
    ensures Abs(it.position.x - curve(z)) <= 10.0
  {
    var curveX := curve(z);
    Item(Vec3(curveX + (lane - 0.5) * 20.0, 1.0, z), "nitro")
  }

  /** What `n` turns of the spawn loop from `cursor` produce: the items,
      the slot (turn) each item came from, and the stream position after. */
  datatype Run = Run(items: seq<Item>, slots: seq<nat>, next: nat)

  function NitroRun(curve: real -> real, draw: nat -> Unit, cursor: real, n: nat, k: nat): (r: Run)
    ensures |r.items| == |r.slots| <= n
    ensures k + n <= r.next <= k + 2 * n
  {
    if n == 0 then Run([], [], k)
    else
      var prev := NitroRun(curve, draw, cursor, n - 1, k);
      Extend(curve, draw, prev, cursor - 80.0 * (n - 1) as real, n - 1)
  }

  /** A run one slot longer is the shorter run extended at the next slot. */
  lemma NitroRunSnoc(curve: real -> real, draw: nat -> Unit, cursor: real, j: nat, k: nat)
    ensures NitroRun(curve, draw, cursor, j + 1, k) ==
      Extend(curve, draw, NitroRun(curve, draw, cursor, j, k), cursor - 80.0 * j as real, j)
  {
  }

  /** One turn of the spawn loop at slot `slot`, cursor `z`: a bottle when
      the check draw exceeds 0.7, which then takes a second draw. */
  function Extend(curve: real -> real, draw: nat -> Unit, prev: Run, z: real, slot: nat): (r: Run)
    ensures draw(prev.next) > 0.7 ==> |r.items| == |prev.items| + 1 && r.next == prev.next + 2
    ensures draw(prev.next) <= 0.7 ==> r.items == prev.items && r.next == prev.next + 1
    ensures prev.items <= r.items && (r.slots == prev.slots || r.slots == prev.slots + [slot])
  {
    if draw(prev.next) > 0.7 then
      Run(prev.items + [NitroAt(curve, z, draw(prev.next + 1))], prev.slots + [slot], prev.next + 2)
    else
      Run(prev.items, prev.slots, prev.next + 1)
  }

  /** A nitro bottle at most 10 off the centre line, at the z of slot
      `slot` below `cursor`. */
  predicate Placed(curve: real -> real, cursor: real, it: Item, slot: nat)
  {
    && it.kind == "nitro"
    && it.position.z == cursor - 80.0 * slot as real
    && Abs(it.position.x - curve(it.position.z)) <= 10.0
  }

  /** Every bottle of run `r` is placed at the slot it came from, one of
      the first `n`. */
  predicate RunPlaced(curve: real -> real, cursor: real, r: Run, n: nat)
    requires |r.items| == |r.slots|
  {
    forall i :: 0 <= i < |r.items| ==> r.slots[i] < n && Placed(curve, cursor, r.items[i], r.slots[i])
  }

  /** The slots of run `r` strictly increase: no slot yields two bottles. */
  predicate OnePerSlot(r: Run)
  {
    forall i, j :: 0 <= i < j < |r.slots| ==> r.slots[i] < r.slots[j]
  }

  lemma {:induction false} NitroRunPlacement(curve: real -> real, draw: nat -> Unit, cursor: real, n: nat, k: nat)
    ensures RunPlaced(curve, cursor, NitroRun(curve, draw, cursor, n, k), n)
  {
    if n > 0 {
      var prev := NitroRun(curve, draw, cursor, n - 1, k);
      NitroRunPlacement(curve, draw, cursor, n - 1, k);
      var z := cursor - 80.0 * (n - 1) as real;
      var r := NitroRun(curve, draw, cursor, n, k);
      assert r == Extend(curve, draw, prev, z, n - 1);
      if draw(prev.next) > 0.7 {
        var it := NitroAt(curve, z, draw(prev.next + 1));
        assert r.items == prev.items + [it] && r.slots == prev.slots + [n - 1];
        forall i | 0 <= i < |r.items|
          ensures r.slots[i] < n && Placed(curve, cursor, r.items[i], r.slots[i])
        {
          if i < |prev.items| {
            assert r.items[i] == prev.items[i] && r.slots[i] == prev.slots[i];
          } else {
            assert r.items[i] == it && r.slots[i] == n - 1;
          }
        }
      }
    }
  }

  lemma {:induction false} NitroRunOnePerSlot(curve: real -> real, draw: nat -> Unit, cursor: real, n: nat, k: nat)
    ensures OnePerSlot(NitroRun(curve, draw, cursor, n, k))
  {
    if n > 0 {
      var prev := NitroRun(curve, draw, cursor, n - 1, k);
      NitroRunOnePerSlot(curve, draw, cursor, n - 1, k);
      NitroRunPlacement(curve, draw, cursor, n - 1, k);
      var r := NitroRun(curve, draw, cursor, n, k);
      assert r == Extend(curve, draw, prev, cursor - 80.0 * (n - 1) as real, n - 1);
      if draw(prev.next) > 0.7 {
        assert r.slots == prev.slots + [n - 1];
      }
    }
  }

  /** No draw above 0.7, no bottle. */
  lemma {:induction false} NoLuckyDrawNoItems(curve: real -> real, draw: nat -> Unit, cursor: real, n: nat, k: nat)
    requires forall i :: k <= i ==> draw(i) <= 0.7
    ensures NitroRun(curve, draw, cursor, n, k).items == []
    ensures NitroRun(curve, draw, cursor, n, k).next == k + n
  {
    if n > 0 {
      NoLuckyDrawNoItems(curve, draw, cursor, n - 1, k);
    }
  }

  /** Every draw above 0.7: one bottle in every slot. */
  lemma {:induction false} AllLuckyDrawsFillSlots(curve: real -> real, draw: nat -> Unit, cursor: real, n: nat, k: nat)
    requires forall i :: k <= i ==> draw(i) > 0.7
    ensures |NitroRun(curve, draw, cursor, n, k).items| == n
  {
    if n > 0 {
      AllLuckyDrawsFillSlots(curve, draw, cursor, n - 1, k);
    }
  }

  /** The items `update` keeps: those not further behind than 100. */
  function KeepNear(playerZ: real): Item -> bool
  {
    (it: Item) => it.position.z <= playerZ + CleanBehind
  }

  predicate Near(carPos: Vec3, it: Item)
  {
    WithinRadius(PlanarDistSq(carPos, it.position), PickupRadius)
  }

  function NearTo(carPos: Vec3): Item -> bool
  {
    (it: Item) => Near(carPos, it)
  }

  class Collectibles {
    /** getCurveX, the road's centre line; a parameter of the model. */
    const curve: real -> real
    var items: seq<Item>
    var lastSpawnZ: real

    predicate Valid()
      reads this
    {
      forall i :: 0 <= i < |items| ==> items[i].kind == "nitro"
    }

    constructor(curve: real -> real)
      ensures this.curve == curve && items == [] && lastSpawnZ == 0.0 && Valid()
    {
      this.curve := curve;
      items := [];
      lastSpawnZ := 0.0;
    }

    /** update(dt, playerZ): spawn slot by slot until the cursor is 400
        ahead of the player, then drop what is more than 100 behind. */
    method Update(dt: real, playerZ: real, rng: Rng)
      requires Valid()
      modifies this, rng
      ensures Valid()
      ensures var n := CursorSteps(old(lastSpawnZ), playerZ - SpawnAhead, 80.0);
        var run := NitroRun(curve, rng.draw, old(lastSpawnZ), n, old(rng.next));
        && lastSpawnZ == old(lastSpawnZ) - 80.0 * n as real
        && rng.next == run.next
        && items == Filter(old(items) + run.items, KeepNear(playerZ))
      ensures lastSpawnZ <= playerZ - SpawnAhead && lastSpawnZ <= old(lastSpawnZ)
    {
      ghost var n := CursorSteps(lastSpawnZ, playerZ - SpawnAhead, 80.0);
      ghost var run := NitroRun(curve, rng.draw, lastSpawnZ, n, rng.next);
      NitroRunPlacement(curve, rng.draw, lastSpawnZ, n, rng.next);
      NitroRunValid(items, run.items);
      SpawnUpTo(playerZ - SpawnAhead, rng);
      FilterSound(items, KeepNear(playerZ));
      items := RemoveWhereNot(items, KeepNear(playerZ));
    }

    /** The spawn loop of `update`: one slot per turn while the cursor is
        beyond `limit`. */
    method SpawnUpTo(limit: real, rng: Rng)
      modifies this`items, this`lastSpawnZ, rng
      ensures var n := CursorSteps(old(lastSpawnZ), limit, 80.0);
        var run := NitroRun(curve, rng.draw, old(lastSpawnZ), n, old(rng.next));
        && lastSpawnZ == old(lastSpawnZ) - 80.0 * n as real
        && rng.next == run.next
        && items == old(items) + run.items
      ensures lastSpawnZ <= limit && lastSpawnZ <= old(lastSpawnZ)
    {
      ghost var c0, k0, items0 := lastSpawnZ, rng.next, items;
      ghost var n := CursorSteps(c0, limit, 80.0);
      ghost var j := 0;
      ghost var run := NitroRun(curve, rng.draw, c0, 0, k0);
      while lastSpawnZ > limit
        invariant 0 <= j <= n
        invariant lastSpawnZ == c0 - 80.0 * j as real
        invariant CursorSteps(lastSpawnZ, limit, 80.0) == n - j
        invariant run == NitroRun(curve, rng.draw, c0, j, k0)
        invariant items == items0 + run.items && rng.next == run.next
        decreases n - j
      {
        CursorStepsUnfold(lastSpawnZ, limit, 80.0);
        NitroRunSnoc(curve, rng.draw, c0, j, k0);
        SpawnSlot(lastSpawnZ, rng, items0, run, j);
        run := Extend(curve, rng.draw, run, lastSpawnZ, j);
        assert run == NitroRun(curve, rng.draw, c0, j + 1, k0);
        lastSpawnZ := lastSpawnZ - 80.0;
        j := j + 1;
      }
    }

    /** The body of the spawn loop for the slot at `z`. */
    method SpawnSlot(z: real, rng: Rng, ghost base: seq<Item>, ghost prev: Run, ghost slot: nat)
      requires items == base + prev.items && rng.next == prev.next
      modifies this`items, rng
      ensures items == base + Extend(curve, rng.draw, prev, z, slot).items
      ensures rng.next == Extend(curve, rng.draw, prev, z, slot).next
    {
      var r := rng.Random();
      if r > 0.7 {
        SpawnNitro(z, rng);
      }
    }

    /** spawnNitro(z): one Math.random() call for the lateral position. */
    method SpawnNitro(z: real, rng: Rng)
      modifies this`items, rng
      ensures items == old(items) + [NitroAt(curve, z, rng.draw(old(rng.next)))]
      ensures rng.next == old(rng.next) + 1
    {
      var lane := rng.Random();
      var curveX := curve(z);
      var lx := curveX + (lane - 0.5) * 20.0;
      items := items + [Item(Vec3(lx, 1.0, z), "nitro")];
    }

    /** checkCollision: scan from the last item to the first, remove the
        first one found within 2.5 and report its type. */
    method CheckCollision(carPos: Vec3) returns (picked: Option<string>)
      requires Valid()
      modifies this`items
      ensures Valid()
      ensures match LastIndex(old(items), NearTo(carPos))
        case None => picked == None && items == old(items)
        case Some(k) => picked == Some(old(items)[k].kind) && items == old(items)[..k] + old(items)[k + 1..]
      ensures picked.Some? ==> picked.value == "nitro" && |items| == |old(items)| - 1
    {
      var i := |items|;
      while i > 0
        invariant 0 <= i <= |items| && items == old(items)
        invariant forall j :: i <= j < |items| ==> !Near(carPos, items[j])
      {
        i := i - 1;
        var item := items[i];
        if WithinRadius(PlanarDistSq(carPos, item.position), PickupRadius) {
          LastIndexIs(items, NearTo(carPos), i);
          items := items[..i] + items[i + 1..];
          assert forall j :: 0 <= j < |items| ==> items[j] == old(items)[if j < i then j else j + 1];
          return Some(item.kind);
        }
      }
      return None;
    }

    method Destroy()
      modifies this`items
      ensures items == [] && Valid()
    {
      items := [];
    }
  }

  /** Appending a run of bottles keeps the pool all nitro. */
  lemma NitroRunValid(base: seq<Item>, run: seq<Item>)
    requires forall i :: 0 <= i < |base| ==> base[i].kind == "nitro"
    requires forall i :: 0 <= i < |run| ==> run[i].kind == "nitro"
    ensures forall i :: 0 <= i < |base + run| ==> (base + run)[i].kind == "nitro"
  {
  }

  /** Every item a filter keeps is a nitro bottle when the pool was. */
  lemma FilterSound(s: seq<Item>, keep: Item -> bool)
    requires forall i :: 0 <= i < |s| ==> s[i].kind == "nitro"
    ensures forall i :: 0 <= i < |Filter(s, keep)| ==> Filter(s, keep)[i].kind == "nitro"
  {
    forall i | 0 <= i < |Filter(s, keep)|
      ensures Filter(s, keep)[i].kind == "nitro"
    {
      assert Filter(s, keep)[i] in Filter(s, keep);
    }
  }
}
