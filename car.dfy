/** A car of src/entities/Car.js: the per-frame integrator, the player's
    keyboard control, the AI's speed policy and obstacle avoidance, and
    elimination. */
module Car {
  import opened Geometry
  import opened Pools
  import opened Obstacles
  import Input

  const MaxSpeed: real := 45.0
  const Acceleration: real := 18.0
  /** The auto-forward speed. */
  const BaseSpeed: real := 25.0
  const SteerSpeed: real := 15.0
  const MaxNitro: real := 100.0
  /** The car's lateral bound, |position.x| <= 12. */
  const RoadHalfWidth: real := 12.0
  const GroundY: real := 0.5
  /** The fixed step that replaces an out-of-range dt. */
  const DefaultDt: real := 1.0 / 60.0

  /** The state the simulation reads and writes (everything but the mesh
      and the wheels). */
  datatype CarState = CarState(position: Vec3, speed: real, laneX: real, nitro: real, eliminated: bool)

  /** The state a new car starts in: the player on the left, the AI on the
      right. */
  function InitialState(isPlayer: bool): CarState
  {
    var side := if isPlayer then -3.0 else 3.0;
    CarState(Vec3(side, GroundY, 0.0), 0.0, side, 50.0, false)
  }

  /** The step `update` integrates with: dt itself when it lies in
      (0, 0.1], the fixed 1/60 otherwise. */
  function EffectiveDt(dt: real): (h: real)
    ensures 0.0 < h <= 0.1
    ensures 0.0 < dt <= 0.1 ==> h == dt
    ensures !(0.0 < dt <= 0.1) ==> h == DefaultDt
  {
    if dt <= 0.0 || dt > 0.1 then DefaultDt else dt
  }

  /** updatePlayer: throttle, brake, auto-drive or coast, nitro, the speed
      clamp and steering of the target lane. Without an input object
      nothing changes. */
  function PlayerControl(s: CarState, dt: real, input: Option<Input.Keys>): (r: CarState)
    ensures input.None? ==> r == s
    ensures r.position == s.position && r.eliminated == s.eliminated
    ensures input.Some? ==> 5.0 <= r.speed <= MaxSpeed * (if input.value.nitro then 1.5 else 1.0)
    ensures input.Some? ==> -RoadHalfWidth <= r.laneX <= RoadHalfWidth
    ensures dt > 0.0 ==> r.nitro <= s.nitro
    ensures dt > 0.0 ==> (r.nitro < s.nitro <==> input.Some? && input.value.nitro && s.nitro > 0.0)
    ensures s.nitro >= 0.0 ==> r.nitro >= 0.0
  {
    match input
    case None => s
    case Some(k) =>
      var boost := k.nitro && s.nitro > 0.0;
      var v := Throttle(s.speed, k, dt);
      var v2 := if boost then v + Acceleration * 2.0 * dt else v;
      s.(speed := Clamp(5.0, MaxSpeed * (if k.nitro then 1.5 else 1.0), v2),
         laneX := SteerLane(s.laneX, k, dt),
         nitro := if boost then Burn(s.nitro, dt) else s.nitro)
  }

  /** The throttle part of updatePlayer: accelerate, brake, or drift back
      up to the base speed and coast above it. */
  function Throttle(speed: real, k: Input.Keys, dt: real): real
  {
    if k.forward then speed + Acceleration * dt
    else if k.backward then speed - Acceleration * 1.5 * dt
    else if speed < BaseSpeed then speed + Acceleration * 0.5 * dt
    else speed * 0.995
  }

  /** Over a positive step the forward key speeds the car up, the brake
      key alone slows it down, and with neither the car drifts up toward
      the base speed or coasts down from above it without falling below
      0.995 of it. */
  lemma ThrottleDirection(speed: real, k: Input.Keys, dt: real)
    ensures dt > 0.0 && k.forward ==> Throttle(speed, k, dt) > speed
    ensures dt > 0.0 && !k.forward && k.backward ==> Throttle(speed, k, dt) < speed
    ensures dt > 0.0 && !k.forward && !k.backward && speed < BaseSpeed ==> Throttle(speed, k, dt) > speed
    ensures !k.forward && !k.backward && speed >= BaseSpeed ==>
      BaseSpeed * 0.995 <= Throttle(speed, k, dt) <= speed
  {
  }

  /** Nitro burns 25 per second and stops at 0. */
  function Burn(nitro: real, dt: real): (r: real)
    ensures dt > 0.0 ==> r < nitro || r == 0.0
    ensures r >= 0.0
  {
    var n := nitro - 25.0 * dt;
    if n < 0.0 then 0.0 else n
  }

  /** The steering part of updatePlayer: the target lane moves 15 per
      second per held key and stays on the road. */
  function SteerLane(laneX: real, k: Input.Keys, dt: real): (r: real)
    ensures -RoadHalfWidth <= r <= RoadHalfWidth
  {
    var l1 := if k.left then laneX - SteerSpeed * dt else laneX;
    var l2 := if k.right then l1 + SteerSpeed * dt else l1;
    Clamp(-RoadHalfWidth, RoadHalfWidth, l2)
  }

  /** An obstacle the AI reacts to: ahead of the car by less than 40 and
      less than 4 to either side. */
  predicate Threatens(carPos: Vec3, o: Obstacle)
  {
    var dz := o.position.z - carPos.z;
    var dx := o.position.x - carPos.x;
    dz < 0.0 && dz > -40.0 && Abs(dx) < 4.0
  }

  function ThreatTo(carPos: Vec3): Obstacle -> bool
  {
    (o: Obstacle) => Threatens(carPos, o)
  }

  /** The lane change one obstacle causes: away from the obstacle's side. */
  function Reaction(carPos: Vec3, o: Obstacle, dt: real): real
  {
    if Threatens(carPos, o) then
      if o.position.x - carPos.x > 0.0 then -(SteerSpeed * 0.8 * dt) else SteerSpeed * 0.8 * dt
    else 0.0
  }

  /** The total lane change of the avoidance loop over the obstacle list. */
  function AvoidanceShift(obs: seq<Obstacle>, carPos: Vec3, dt: real): (r: real)
    ensures dt >= 0.0 ==> -(|obs| as real) * (SteerSpeed * 0.8 * dt) <= r <= (|obs| as real) * (SteerSpeed * 0.8 * dt)
  {
    if obs == [] then 0.0 else Reaction(carPos, obs[0], dt) + AvoidanceShift(obs[1..], carPos, dt)
  }

  lemma {:induction false} AvoidanceAppend(a: seq<Obstacle>, b: seq<Obstacle>, carPos: Vec3, dt: real)
    ensures AvoidanceShift(a + b, carPos, dt) == AvoidanceShift(a, carPos, dt) + AvoidanceShift(b, carPos, dt)
  {
    if a == [] {
      assert a + b == b;
    } else {
      assert (a + b)[1..] == a[1..] + b;
      AvoidanceAppend(a[1..], b, carPos, dt);
    }
  }

  /** Only the obstacles in the reaction window move the lane: the shift
      over the whole list equals the shift over its threats. */
  lemma {:induction false} AvoidanceOnlyThreats(obs: seq<Obstacle>, carPos: Vec3, dt: real)
    ensures AvoidanceShift(obs, carPos, dt) == AvoidanceShift(Filter(obs, ThreatTo(carPos)), carPos, dt)
  {
    if obs != [] {
      AvoidanceOnlyThreats(obs[1..], carPos, dt);
    }
  }

  /** The avoidance steers away: threats only on the right (larger x) push
      the lane left, threats only on the left push it right, and any
      threat moves it. */
  lemma {:induction false} AvoidanceSteersAway(obs: seq<Obstacle>, carPos: Vec3, dt: real)
    requires dt > 0.0
    ensures (forall i :: 0 <= i < |obs| && Threatens(carPos, obs[i]) ==> obs[i].position.x > carPos.x)
      ==> AvoidanceShift(obs, carPos, dt) <= 0.0
    ensures (forall i :: 0 <= i < |obs| && Threatens(carPos, obs[i]) ==> obs[i].position.x <= carPos.x)
      ==> AvoidanceShift(obs, carPos, dt) >= 0.0
    ensures (forall i :: 0 <= i < |obs| ==> !Threatens(carPos, obs[i])) ==> AvoidanceShift(obs, carPos, dt) == 0.0
  {
    if obs != [] {
      AvoidanceSteersAway(obs[1..], carPos, dt);
      assert forall i :: 1 <= i < |obs| ==> obs[i] == obs[1..][i - 1];
    }
  }

  /** updateAI: rubber-band-free speed policy, avoidance and weave, then
      the AI's own clamps. `weave` stands for sin(Date.now() * 0.001). */
  function AIControl(s: CarState, dt: real, obstacles: seq<Obstacle>, weave: real): (r: CarState)
    ensures BaseSpeed * 0.9 <= r.speed <= MaxSpeed * 0.95
    ensures -10.0 <= r.laneX <= 10.0
    ensures r.position == s.position && r.nitro == s.nitro && r.eliminated == s.eliminated
  {
    var v1 := if s.speed < BaseSpeed * 1.05 then s.speed + Acceleration * 0.4 * dt else s.speed;
    var v2 := Clamp(BaseSpeed * 0.9, MaxSpeed * 0.95, v1);
    var l1 := s.laneX + AvoidanceShift(obstacles, s.position, dt);
    var l2 := l1 + (weave * 0.5) * dt;
    s.(speed := v2, laneX := Clamp(-10.0, 10.0, l2))
  }

  /** The lateral step toward the absolute target lane. */
  function Steer(x: real, lane: real, dt: real): real
  {
    x + (lane - x) * 5.0 * dt
  }

  /** With the step in (0, 0.1] the gain 5*dt is at most 0.5: the lateral
      step lands between x and the lane, never overshoots, and shrinks
      the gap by the factor 1 - 5*dt. */
  lemma SteerConverges(x: real, lane: real, dt: real)
    requires 0.0 < dt <= 0.1
    ensures Min(x, lane) <= Steer(x, lane, dt) <= Max(x, lane)
    ensures Abs(lane - Steer(x, lane, dt)) == (1.0 - 5.0 * dt) * Abs(lane - x)
    ensures x != lane ==> Abs(lane - Steer(x, lane, dt)) < Abs(lane - x)
  {
    var e, q := lane - x, 1.0 - 5.0 * dt;
    SteerGap(x, lane, dt);
    ScaleGap(e, q);
    StepBetween(x, lane, e - e * q);
  }

  /** The gap left after one lateral step is the old gap times 1 - 5*dt. */
  lemma SteerGap(x: real, lane: real, dt: real)
    ensures lane - Steer(x, lane, dt) == (lane - x) * (1.0 - 5.0 * dt)
  {
  }

  /** A gap scaled by a factor in [0.5, 1) keeps its sign, does not grow
      past itself, and shrinks when it is not zero. */
  lemma ScaleGap(e: real, q: real)
    requires 0.5 <= q < 1.0
    ensures e >= 0.0 ==> 0.0 <= e * q <= e
    ensures e < 0.0 ==> e <= e * q <= 0.0
    ensures Abs(e * q) == q * Abs(e)
    ensures e != 0.0 ==> Abs(e * q) < Abs(e)
  {
    if e > 0.0 {
      assert e * q < e * 1.0;
      assert Abs(e * q) == e * q == q * Abs(e);
    } else if e < 0.0 {
      assert (-e) * q < (-e) * 1.0 == Abs(e);
      assert Abs(e * q) == (-e) * q == q * Abs(e);
      assert Abs(e * q) < Abs(e);
    }
  }

  /** A step from `x` by at most the gap, toward `lane`, stays between them. */
  lemma StepBetween(x: real, lane: real, p: real)
    requires lane - x >= 0.0 ==> 0.0 <= p <= lane - x
    requires lane - x < 0.0 ==> lane - x <= p <= 0.0
    ensures Min(x, lane) <= x + p <= Max(x, lane)
  {
  }

  /** The motion part of `update`: move forward, steer, clamp x, stay on
      the ground. */
  function Integrate(s: CarState, dt: real): (r: CarState)
    ensures r.position.z == s.position.z - s.speed * dt
    ensures r.position.y == GroundY
    ensures -RoadHalfWidth <= r.position.x <= RoadHalfWidth
    ensures r.position.x == Clamp(-RoadHalfWidth, RoadHalfWidth, Steer(s.position.x, s.laneX, dt))
    ensures r.speed == s.speed && r.laneX == s.laneX && r.nitro == s.nitro && r.eliminated == s.eliminated
  {
    var z := s.position.z - s.speed * dt;
    var x := Clamp(-RoadHalfWidth, RoadHalfWidth, Steer(s.position.x, s.laneX, dt));
    s.(position := Vec3(x, GroundY, z))
  }

  /** One `update` of a car. An eliminated car does not move. */
  function Step(isPlayer: bool, s: CarState, dt: real, input: Option<Input.Keys>,
                obstacles: seq<Obstacle>, weave: real): (r: CarState)
    ensures s.eliminated ==> r == s
    ensures r.eliminated == s.eliminated
    ensures !s.eliminated ==> r.position.z == s.position.z - r.speed * EffectiveDt(dt)
    ensures !s.eliminated ==> r.position.y == GroundY && -RoadHalfWidth <= r.position.x <= RoadHalfWidth
    ensures !s.eliminated ==> r.position.x == Clamp(-RoadHalfWidth, RoadHalfWidth, Steer(s.position.x, r.laneX, EffectiveDt(dt)))
    ensures !s.eliminated && isPlayer && input.Some? ==>
      5.0 <= r.speed <= MaxSpeed * (if input.value.nitro then 1.5 else 1.0) &&
      -RoadHalfWidth <= r.laneX <= RoadHalfWidth
    ensures isPlayer ==> r.nitro <= s.nitro && (s.nitro >= 0.0 ==> r.nitro >= 0.0)
    ensures !isPlayer ==> r.nitro == s.nitro
    ensures !s.eliminated && !isPlayer ==>
      BaseSpeed * 0.9 <= r.speed <= MaxSpeed * 0.95 && -10.0 <= r.laneX <= 10.0
  {
    if s.eliminated then s
    else if isPlayer then Integrate(PlayerControl(s, EffectiveDt(dt), input), EffectiveDt(dt))
    else Integrate(AIControl(s, EffectiveDt(dt), obstacles, weave), EffectiveDt(dt))
  }

  /** The speed readout: floor(|speed| * 3.6). */
  function Kmh(speed: real): (r: int)
    ensures r >= 0
    ensures r as real <= Abs(speed) * 3.6 < r as real + 1.0
  {
    Floor(Abs(speed) * 3.6)
  }

  /** What an input object hands the car: its key record, or nothing. */
  function KeysOf(input: Input.Input?): Option<Input.Keys>
    reads input
  {
    if input == null then None else Some(input.keys)
  }

  class Car {
    const isPlayer: bool
    var position: Vec3
    var speed: real
    var laneX: real
    var nitro: real
    var eliminated: bool

    function State(): CarState
      reads this
    {
      CarState(position, speed, laneX, nitro, eliminated)
    }

    constructor(isPlayer: bool)
      ensures this.isPlayer == isPlayer && State() == InitialState(isPlayer)
    {
      this.isPlayer := isPlayer;
      position := Vec3(if isPlayer then -3.0 else 3.0, GroundY, 0.0);
      speed := 0.0;
      laneX := if isPlayer then -3.0 else 3.0;
      eliminated := false;
      nitro := 50.0;
    }

    /** update(dt, input, obstacles); `weave` is the AI's sine draw. */
    method Update(dt: real, input: Input.Input?, obstacles: seq<Obstacle>, weave: real)
      modifies this
      ensures State() == Step(isPlayer, old(State()), dt, KeysOf(input), obstacles, weave)
    {
      if eliminated {
        return;
      }
      var h := dt;
      if h <= 0.0 || h > 0.1 {
        h := DefaultDt;
      }
      assert h == EffectiveDt(dt);
      if isPlayer {
        UpdatePlayer(h, input);
      } else {
        UpdateAI(h, obstacles, weave);
      }
      Move(h);
    }

    /** Move forward, steer toward the target lane, clamp x, stay on the
        ground. */
    method Move(h: real)
      modifies this
      ensures State() == Integrate(old(State()), h)
    {
      var x, z := position.x, position.z - speed * h;
      var laneErr := laneX - x;
      x := x + laneErr * 5.0 * h;
      assert x == Steer(old(position.x), laneX, h);
      x := Max(-RoadHalfWidth, Min(RoadHalfWidth, x));
      position := Vec3(x, GroundY, z);
    }

    method UpdatePlayer(dt: real, input: Input.Input?)
      modifies this
      ensures State() == PlayerControl(old(State()), dt, KeysOf(input))
    {
      if input == null {
        return;
      }
      var keys := input.keys;
      ApplyThrottle(keys, dt);
      if keys.nitro && nitro > 0.0 {
        speed := speed + Acceleration * 2.0 * dt;
        nitro := nitro - 25.0 * dt;
        if nitro < 0.0 {
          nitro := 0.0;
        }
      }
      speed := Max(5.0, Min(MaxSpeed * (if keys.nitro then 1.5 else 1.0), speed));
      ApplySteering(keys, dt);
    }

    method ApplyThrottle(keys: Input.Keys, dt: real)
      modifies this`speed
      ensures speed == Throttle(old(speed), keys, dt)
    {
      if keys.forward {
        speed := speed + Acceleration * dt;
      } else if keys.backward {
        speed := speed - Acceleration * 1.5 * dt;
      } else {
        if speed < BaseSpeed {
          speed := speed + Acceleration * 0.5 * dt;
        } else {
          speed := speed * 0.995;
        }
      }
    }

    method ApplySteering(keys: Input.Keys, dt: real)
      modifies this`laneX
      ensures laneX == SteerLane(old(laneX), keys, dt)
    {
      if keys.left {
        laneX := laneX - SteerSpeed * dt;
      }
      if keys.right {
        laneX := laneX + SteerSpeed * dt;
      }
      laneX := Max(-RoadHalfWidth, Min(RoadHalfWidth, laneX));
    }

    method UpdateAI(dt: real, obstacles: seq<Obstacle>, weave: real)
      modifies this
      ensures State() == AIControl(old(State()), dt, obstacles, weave)
    {
      if speed < BaseSpeed * 1.05 {
        speed := speed + Acceleration * 0.4 * dt;
      }
      speed := Max(BaseSpeed * 0.9, Min(MaxSpeed * 0.95, speed));
      ghost var v := speed;
      if |obstacles| > 0 {
        var i := 0;
        while i < |obstacles|
          invariant 0 <= i <= |obstacles|
          invariant laneX == old(laneX) + AvoidanceShift(obstacles[..i], position, dt)
          invariant position == old(position) && nitro == old(nitro) && eliminated == old(eliminated) && speed == v
        {
          var obs := obstacles[i];
          var dz := obs.position.z - position.z;
          var dx := obs.position.x - position.x;
          if dz < 0.0 && dz > -40.0 && Abs(dx) < 4.0 {
            if dx > 0.0 {
              laneX := laneX - SteerSpeed * 0.8 * dt;
            } else {
              laneX := laneX + SteerSpeed * 0.8 * dt;
            }
          }
          assert obstacles[..i + 1] == obstacles[..i] + [obs];
          AvoidanceAppend(obstacles[..i], [obs], position, dt);
          assert [obs][1..] == [];
          i := i + 1;
        }
        assert obstacles[..|obstacles|] == obstacles;
      }
      laneX := laneX + (weave * 0.5) * dt;
      laneX := Max(-10.0, Min(10.0, laneX));
    }

    method Eliminate()
      modifies this
      ensures State() == old(State()).(eliminated := true, speed := 0.0)
    {
      eliminated := true;
      speed := 0.0;
    }

    /** getSpeedKmh. */
    function GetSpeedKmh(): (r: int)
      reads this
      ensures r >= 0 && r == Kmh(speed)
    {
      Kmh(speed)
    }
  }
}
