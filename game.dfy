/** The tick orchestrator of src/core/Game.js: the frame-time guard, the
    pause/game-over freeze, distance and score, obstacle hits, car-to-car
    contact and the resolution of eliminations. */
module Game {
  import opened Geometry
  import opened Pools
  import opened Random
  import Input
  import Car
  import Obstacles
  import Environment

  /** eliminationResult: '', 'player', 'computer' or 'both'. */
  datatype Outcome = NoResult | PlayerOut | ComputerOut | BothOut

  const ContactRadius: real := 2.5
  const Push: real := 3.0

  /** The frame time `update` works with: a frame longer than 0.1 counts
      as 1/60; a non-positive one is skipped by the caller. */
  function FrameDt(raw: real): (h: real)
    ensures raw > 0.1 ==> h == 1.0 / 60.0
    ensures raw <= 0.1 ==> h == raw
    ensures h > 0.0 <==> raw > 0.0
    ensures h <= 0.1
  {
    if raw > 0.1 then 1.0 / 60.0 else raw
  }

  /** The car's own substitution of the frame time never fires under the
      game loop: every frame the game lets through is already in range. */
  lemma FrameDtPassesCar(raw: real)
    requires FrameDt(raw) > 0.0
    ensures Car.EffectiveDt(FrameDt(raw)) == FrameDt(raw)
  {
  }

  /** The obstacle pool after `Obstacles.update` at the player's new `z`:
      the old pool plus the obstacle spawned when the timer reaches the
      interval, with everything more than 50 behind the player removed. */
  function ObstaclesAfter(pool: seq<Obstacles.Obstacle>, timer: real, dt: real, distance: real,
                          playerZ: real, draw: nat -> Unit, k: nat): seq<Obstacles.Obstacle>
  {
    Filter(pool + Obstacles.Spawned(timer + dt >= Obstacles.SpawnInterval(distance), playerZ, draw, k),
           Obstacles.KeepNear(playerZ))
  }

  /** Whether `update` runs the simulation branch this frame. */
  predicate Advances(running: bool, paused: bool, gameOver: bool, raw: real)
  {
    running && FrameDt(raw) > 0.0 && !paused && !gameOver
  }

  /** score = floor(distance / 10). */
  function Score(distance: real): (s: int)
    ensures 10 * s <= distance.Floor && distance.Floor < 10 * s + 10
    ensures (10 * s) as real <= distance < (10 * s + 10) as real
    ensures distance >= 0.0 ==> s >= 0
  {
    Floor(distance / 10.0)
  }

  /** Score only grows with distance. */
  lemma ScoreMonotone(d1: real, d2: real)
    requires d1 <= d2
    ensures Score(d1) <= Score(d2)
  {
    assert d1 / 10.0 <= d2 / 10.0;
  }

  /** The two cars touch: both still racing and closer than 2.5 in space. */
  predicate Touching(p: Car.CarState, c: Car.CarState)
  {
    !p.eliminated && !c.eliminated && WithinRadius(DistSq(p.position, c.position), ContactRadius)
  }

  datatype Pair = Pair(player: Car.CarState, computer: Car.CarState)

  /** Car-to-car contact: the car behind (larger z; the player on a tie)
      loses half its speed, and the target lanes are pushed 3 apart each. */
  function Contact(p: Car.CarState, c: Car.CarState): (r: Pair)
    ensures !Touching(p, c) ==> r == Pair(p, c)
    ensures r.player.position == p.position && r.computer.position == c.position
    ensures r.player.nitro == p.nitro && r.computer.nitro == c.nitro
    ensures r.player.eliminated == p.eliminated && r.computer.eliminated == c.eliminated
    ensures Touching(p, c) ==>
      if p.position.z >= c.position.z
      then r.player.speed == p.speed * 0.5 && r.computer.speed == c.speed
      else r.computer.speed == c.speed * 0.5 && r.player.speed == p.speed
    ensures Touching(p, c) && p.position.x < c.position.x ==>
      r.player.laneX == p.laneX - Push && r.computer.laneX == c.laneX + Push
    ensures Touching(p, c) && p.position.x >= c.position.x ==>
      r.player.laneX == p.laneX + Push && r.computer.laneX == c.laneX - Push
  {
    if !Touching(p, c) then Pair(p, c)
    else
      var playerAhead := p.position.z < c.position.z;
      var p1 := if playerAhead then p else p.(speed := p.speed * 0.5);
      var c1 := if playerAhead then c.(speed := c.speed * 0.5) else c;
      var pushDir := if p.position.x < c.position.x then -1.0 else 1.0;
      Pair(p1.(laneX := p.laneX + pushDir * Push), c1.(laneX := c.laneX - pushDir * Push))
  }

  /** Contact pushes the target lanes apart: the lane gap, measured from
      the car on the left, widens by 6. */
  lemma ContactSeparates(p: Car.CarState, c: Car.CarState)
    requires Touching(p, c)
    ensures p.position.x < c.position.x ==>
      Contact(p, c).computer.laneX - Contact(p, c).player.laneX == c.laneX - p.laneX + 2.0 * Push
    ensures p.position.x >= c.position.x ==>
      Contact(p, c).player.laneX - Contact(p, c).computer.laneX == p.laneX - c.laneX + 2.0 * Push
  {
  }

  /** Whether the obstacle check reports a hit for a car; an eliminated car
      is not tested. */
  predicate HitByObstacle(obs: seq<Obstacles.Obstacle>, s: Car.CarState)
  {
    !s.eliminated && FirstIndex(obs, Obstacles.HitBy(s.position)).Some?
  }

  lemma HitByObstacleMeans(obs: seq<Obstacles.Obstacle>, s: Car.CarState)
    ensures HitByObstacle(obs, s) <==>
      !s.eliminated && exists i :: 0 <= i < |obs| && Obstacles.Hits(s.position, obs[i])
  {
    if !s.eliminated && exists i :: 0 <= i < |obs| && Obstacles.Hits(s.position, obs[i]) {
      var i :| 0 <= i < |obs| && Obstacles.Hits(s.position, obs[i]);
      assert Obstacles.HitBy(s.position)(obs[i]);
    }
  }

  /** The branch that processes eliminations. */
  function OutcomeOf(playerHit: bool, computerHit: bool): (o: Outcome)
    ensures o == BothOut <==> playerHit && computerHit
    ensures o == PlayerOut <==> playerHit && !computerHit
    ensures o == ComputerOut <==> !playerHit && computerHit
    ensures o == NoResult <==> !playerHit && !computerHit
  {
    if playerHit && computerHit then BothOut
    else if playerHit then PlayerOut
    else if computerHit then ComputerOut
    else NoResult
  }

  /** eliminate() when the car was hit. */
  function Knock(s: Car.CarState, hit: bool): (r: Car.CarState)
    ensures hit ==> r == s.(eliminated := true, speed := 0.0)
    ensures !hit ==> r == s
  {
    if hit then s.(eliminated := true, speed := 0.0) else s
  }

  datatype Frame = Frame(player: Car.CarState, computer: Car.CarState, result: Outcome)

  /** The collision part of a frame, after the cars have moved: obstacle
      hits, the contact between the cars, then the eliminations. */
  function Collide(p: Car.CarState, c: Car.CarState, obs: seq<Obstacles.Obstacle>): (f: Frame)
    ensures f.result == OutcomeOf(HitByObstacle(obs, p), HitByObstacle(obs, c))
    ensures f.player.eliminated <==> p.eliminated || HitByObstacle(obs, p)
    ensures f.computer.eliminated <==> c.eliminated || HitByObstacle(obs, c)
    ensures HitByObstacle(obs, p) ==> f.player.speed == 0.0
    ensures HitByObstacle(obs, c) ==> f.computer.speed == 0.0
    ensures f.player.position == p.position && f.computer.position == c.position
    ensures f.player.nitro == p.nitro && f.computer.nitro == c.nitro
  {
    var playerHit := HitByObstacle(obs, p);
    var computerHit := HitByObstacle(obs, c);
    var bumped := Contact(p, c);
    Frame(Knock(bumped.player, playerHit), Knock(bumped.computer, computerHit), OutcomeOf(playerHit, computerHit))
  }

  /** With both cars racing, exactly the cars hit are out, and the frame
      has a result exactly when one of them is. */
  lemma CollideEliminatesExactlyTheHit(p: Car.CarState, c: Car.CarState, obs: seq<Obstacles.Obstacle>)
    requires !p.eliminated && !c.eliminated
    ensures var f := Collide(p, c, obs);
      && (f.player.eliminated <==> f.result == PlayerOut || f.result == BothOut)
      && (f.computer.eliminated <==> f.result == ComputerOut || f.result == BothOut)
      && (f.result != NoResult <==> f.player.eliminated || f.computer.eliminated)
  {
  }

  /** togglePause as a function of the two flags. */
  function Toggled(paused: bool, gameOver: bool): (r: bool)
    ensures gameOver ==> r == paused
    ensures !gameOver ==> r != paused
  {
    if gameOver then paused else !paused
  }

  lemma ToggleTwiceRestores(paused: bool, gameOver: bool)
    ensures Toggled(Toggled(paused, gameOver), gameOver) == paused
  {
  }

  /** The range a racing car stays in. */
  predicate CarSane(s: Car.CarState, laneBound: real, speedBound: real)
  {
    && -laneBound <= s.laneX <= laneBound
    && -Car.RoadHalfWidth <= s.position.x <= Car.RoadHalfWidth
    && s.position.y == Car.GroundY
    && 0.0 <= s.speed <= speedBound
    && 0.0 <= s.nitro <= Car.MaxNitro
  }

  /** The player's lane is clamped to 12 and may be pushed 3 further; the
      computer's is clamped to 10. */
  const PlayerLaneBound: real := Car.RoadHalfWidth + Push
  const ComputerLaneBound: real := 10.0 + Push
  const PlayerSpeedBound: real := Car.MaxSpeed * 1.5
  const ComputerSpeedBound: real := Car.MaxSpeed * 0.95

  /** A frame keeps both cars in range. */
  lemma FrameKeepsCarsSane(p: Car.CarState, c: Car.CarState, h: real, keys: Input.Keys,
                           before: seq<Obstacles.Obstacle>, after: seq<Obstacles.Obstacle>, weave: real)
    requires CarSane(p, PlayerLaneBound, PlayerSpeedBound) && CarSane(c, ComputerLaneBound, ComputerSpeedBound)
    requires !p.eliminated && !c.eliminated && h > 0.0
    ensures var f := Collide(Car.Step(true, p, h, Some(keys), [], weave), Car.Step(false, c, h, None, before, weave), after);
      CarSane(f.player, PlayerLaneBound, PlayerSpeedBound) && CarSane(f.computer, ComputerLaneBound, ComputerSpeedBound)
  {
    var p1 := Car.Step(true, p, h, Some(keys), [], weave);
    var c1 := Car.Step(false, c, h, None, before, weave);
    var b := Contact(p1, c1);
    assert -Car.RoadHalfWidth <= p1.laneX <= Car.RoadHalfWidth;
    assert 5.0 <= p1.speed <= PlayerSpeedBound;
    assert -PlayerLaneBound <= b.player.laneX <= PlayerLaneBound;
    assert 0.0 <= b.player.speed <= PlayerSpeedBound;
    assert -ComputerLaneBound <= b.computer.laneX <= ComputerLaneBound;
    assert 0.0 <= b.computer.speed <= ComputerSpeedBound;
  }

  class Game {
    const input: Input.Input
    const playerCar: Car.Car
    const computerCar: Car.Car
    const environment: Environment.Environment
    const obstacles: Obstacles.Obstacles
    /** Math.random as a stream, shared by obstacles and environment. */
    const rng: Rng
    var running: bool
    var paused: bool
    var gameOver: bool
    var distance: real
    var score: int
    var startZ: real
    var result: Outcome

    predicate Valid()
      reads this, playerCar, computerCar, environment
    {
      && playerCar != computerCar
      && playerCar.isPlayer && !computerCar.isPlayer
      && environment.Valid()
      && CarSane(playerCar.State(), PlayerLaneBound, PlayerSpeedBound)
      && CarSane(computerCar.State(), ComputerLaneBound, ComputerSpeedBound)
      && (gameOver <==> result != NoResult)
      && (playerCar.eliminated <==> result == PlayerOut || result == BothOut)
      && (computerCar.eliminated <==> result == ComputerOut || result == BothOut)
      && distance == Abs(playerCar.position.z - startZ)
      && score == Score(distance)
    }

    /** The constructor, createWorld and start. */
    constructor(curve: real -> real, rng: Rng)
      modifies rng
      ensures Valid()
      ensures rng.next == old(rng.next) + Environment.MountainCount * 5
      ensures running && !paused && !gameOver && result == NoResult
      ensures distance == 0.0 && score == 0 && startZ == 0.0
      ensures playerCar.State() == Car.InitialState(true) && computerCar.State() == Car.InitialState(false)
      ensures obstacles.obstacles == [] && environment.trees == [] && environment.scenery == []
      ensures input.keys == Input.AllReleased && this.rng == rng
      ensures fresh(input) && fresh(playerCar) && fresh(computerCar) && fresh(environment) && fresh(obstacles)
    {
      input := new Input.Input();
      environment := new Environment.Environment(curve, rng);
      playerCar := new Car.Car(true);
      computerCar := new Car.Car(false);
      obstacles := new Obstacles.Obstacles();
      this.rng := rng;
      paused := false;
      gameOver := false;
      distance := 0.0;
      score := 0;
      result := NoResult;
      new;
      startZ := playerCar.position.z;
      running := true;
    }

    /** update(); `rawDt` is the clock's delta and `weave` the AI's sine of
        the wall clock. */
    method Update(rawDt: real, weave: real)
      requires Valid()
      modifies this, playerCar, computerCar, obstacles, environment, rng
      ensures Valid()
      ensures old(gameOver) ==> gameOver && result == old(result)
      ensures !Advances(old(running), old(paused), old(gameOver), rawDt) ==>
        && unchanged(this, playerCar, computerCar, obstacles, environment, rng)
      ensures Advances(old(running), old(paused), old(gameOver), rawDt) ==>
        var h := FrameDt(rawDt);
        var p1 := Car.Step(true, old(playerCar.State()), h, Some(input.keys), [], weave);
        var c1 := Car.Step(false, old(computerCar.State()), h, None, old(obstacles.obstacles), weave);
        var f := Collide(p1, c1, obstacles.obstacles);
        && playerCar.State() == f.player && computerCar.State() == f.computer
        && result == f.result && (gameOver <==> f.result != NoResult)
        && running == old(running) && paused == old(paused) && startZ == old(startZ)
        && distance == Abs(p1.position.z - startZ) && score == Score(distance)
        && obstacles.obstacles == ObstaclesAfter(old(obstacles.obstacles), old(obstacles.spawnTimer), h,
                                                 distance, p1.position.z, rng.draw, old(rng.next))
        && (forall o :: o in obstacles.obstacles ==> o.position.z <= p1.position.z + Obstacles.CleanBehind)
        && environment.lastSpawnZ <= p1.position.z - Environment.SpawnAhead
    {
      if !running {
        return;
      }
      var dt := rawDt;
      if dt > 0.1 {
        dt := 1.0 / 60.0;
      }
      if dt <= 0.0 {
        return;
      }
      if !paused && !gameOver {
        Advance(dt, weave);
      }
    }

    /** The simulation branch of `update`. */
    method Advance(dt: real, weave: real)
      requires Valid() && !gameOver && 0.0 < dt <= 0.1
      modifies this, playerCar, computerCar, obstacles, environment, rng
      ensures Valid()
      ensures running == old(running) && paused == old(paused) && startZ == old(startZ)
      ensures var p1 := Car.Step(true, old(playerCar.State()), dt, Some(input.keys), [], weave);
        var c1 := Car.Step(false, old(computerCar.State()), dt, None, old(obstacles.obstacles), weave);
        var f := Collide(p1, c1, obstacles.obstacles);
        && playerCar.State() == f.player && computerCar.State() == f.computer
        && result == f.result && (gameOver <==> f.result != NoResult)
        && distance == Abs(p1.position.z - startZ) && score == Score(distance)
        && obstacles.obstacles == ObstaclesAfter(old(obstacles.obstacles), old(obstacles.spawnTimer), dt,
                                                 distance, p1.position.z, rng.draw, old(rng.next))
        && (forall o :: o in obstacles.obstacles ==> o.position.z <= p1.position.z + Obstacles.CleanBehind)
        && environment.lastSpawnZ <= p1.position.z - Environment.SpawnAhead
    {
      ghost var p0, c0 := playerCar.State(), computerCar.State();
      ghost var obstaclesBefore := obstacles.obstacles;
      Simulate(dt, weave);
      ghost var p1, c1 := playerCar.State(), computerCar.State();
      Collisions();
      FrameKeepsCarsSane(p0, c0, dt, input.keys, obstaclesBefore, obstacles.obstacles, weave);
      CollideEliminatesExactlyTheHit(p1, c1, obstacles.obstacles);
    }

    /** The cars, distance, score, obstacles and forest, before the
        collision checks. */
    method Simulate(dt: real, weave: real)
      requires playerCar != computerCar && playerCar.isPlayer && !computerCar.isPlayer
      requires environment.Valid()
      modifies this`distance, this`score, playerCar, computerCar, obstacles, environment, rng
      ensures environment.Valid()
      ensures var p1 := Car.Step(true, old(playerCar.State()), dt, Some(input.keys), [], weave);
        var c1 := Car.Step(false, old(computerCar.State()), dt, None, old(obstacles.obstacles), weave);
        && playerCar.State() == p1 && computerCar.State() == c1
        && distance == Abs(p1.position.z - startZ) && score == Score(distance)
        && obstacles.obstacles == ObstaclesAfter(old(obstacles.obstacles), old(obstacles.spawnTimer), dt,
                                                 distance, p1.position.z, rng.draw, old(rng.next))
        && (forall o :: o in obstacles.obstacles ==> o.position.z <= p1.position.z + Obstacles.CleanBehind)
        && environment.lastSpawnZ <= p1.position.z - Environment.SpawnAhead
    {
      MoveCars(dt, weave);
      distance := Abs(playerCar.position.z - startZ);
      score := Score(distance);
      UpdateWorld(dt);
    }

    /** The collision checks, car-to-car contact and eliminations. */
    method Collisions()
      requires playerCar != computerCar && !gameOver && result == NoResult
      modifies this, playerCar, computerCar
      ensures var f := Collide(old(playerCar.State()), old(computerCar.State()), obstacles.obstacles);
        && playerCar.State() == f.player && computerCar.State() == f.computer
        && result == f.result && (gameOver <==> f.result != NoResult)
      ensures running == old(running) && paused == old(paused)
      ensures distance == old(distance) && score == old(score) && startZ == old(startZ)
    {
      var playerHit, computerHit := CheckHits();
      CarContact();
      ResolveEliminations(playerHit, computerHit);
    }

    /** The obstacle and forest updates at the player's new position. */
    method UpdateWorld(dt: real)
      requires environment.Valid()
      modifies obstacles, environment, rng
      ensures environment.Valid()
      ensures obstacles.obstacles == ObstaclesAfter(old(obstacles.obstacles), old(obstacles.spawnTimer), dt,
                                                    distance, playerCar.position.z, rng.draw, old(rng.next))
      ensures forall o :: o in obstacles.obstacles ==> o.position.z <= playerCar.position.z + Obstacles.CleanBehind
      ensures environment.lastSpawnZ <= playerCar.position.z - Environment.SpawnAhead
    {
      obstacles.Update(dt, playerCar.position.z, distance, rng);
      var addedTrees, addedScenery := environment.Update(playerCar.position.z, rng);
    }

    /** The two car updates: the player with the input and no obstacles,
        the computer with no input and the active obstacles. */
    method MoveCars(dt: real, weave: real)
      requires playerCar != computerCar && playerCar.isPlayer && !computerCar.isPlayer
      modifies playerCar, computerCar
      ensures playerCar.State() == Car.Step(true, old(playerCar.State()), dt, Some(input.keys), [], weave)
      ensures computerCar.State() == Car.Step(false, old(computerCar.State()), dt, None, obstacles.obstacles, weave)
    {
      playerCar.Update(dt, input, [], weave);
      computerCar.Update(dt, null, obstacles.ActiveObstacles(), weave);
    }

    /** The obstacle checks; an eliminated car is not tested. */
    method CheckHits() returns (playerHit: bool, computerHit: bool)
      ensures playerHit == HitByObstacle(obstacles.obstacles, playerCar.State())
      ensures computerHit == HitByObstacle(obstacles.obstacles, computerCar.State())
    {
      playerHit := false;
      computerHit := false;
      if !playerCar.eliminated {
        var pHit := obstacles.CheckCollision(playerCar.position);
        if pHit.Some? {
          playerHit := true;
        }
      }
      if !computerCar.eliminated {
        var cHit := obstacles.CheckCollision(computerCar.position);
        if cHit.Some? {
          computerHit := true;
        }
      }
    }

    /** Car-to-car contact. */
    method CarContact()
      requires playerCar != computerCar
      modifies playerCar, computerCar
      ensures playerCar.State() == Contact(old(playerCar.State()), old(computerCar.State())).player
      ensures computerCar.State() == Contact(old(playerCar.State()), old(computerCar.State())).computer
    {
      var carDistSq := DistSq(playerCar.position, computerCar.position);
      if WithinRadius(carDistSq, ContactRadius) && !playerCar.eliminated && !computerCar.eliminated {
        var playerAhead := playerCar.position.z < computerCar.position.z;
        if playerAhead {
          computerCar.speed := computerCar.speed * 0.5;
        } else {
          playerCar.speed := playerCar.speed * 0.5;
        }
        var pushDir := if playerCar.position.x < computerCar.position.x then -1.0 else 1.0;
        playerCar.laneX := playerCar.laneX + pushDir * Push;
        computerCar.laneX := computerCar.laneX - pushDir * Push;
      }
    }

    /** The elimination branch and the state part of onElimination. */
    method ResolveEliminations(playerHit: bool, computerHit: bool)
      requires playerCar != computerCar && !gameOver
      modifies this, playerCar, computerCar
      ensures playerCar.State() == Knock(old(playerCar.State()), playerHit)
      ensures computerCar.State() == Knock(old(computerCar.State()), computerHit)
      ensures result == (if playerHit || computerHit then OutcomeOf(playerHit, computerHit) else old(result))
      ensures gameOver == (playerHit || computerHit)
      ensures running == old(running) && paused == old(paused)
      ensures distance == old(distance) && score == old(score) && startZ == old(startZ)
    {
      if playerHit && computerHit {
        playerCar.Eliminate();
        computerCar.Eliminate();
        OnElimination(BothOut);
      } else if playerHit {
        playerCar.Eliminate();
        OnElimination(PlayerOut);
      } else if computerHit {
        computerCar.Eliminate();
        OnElimination(ComputerOut);
      }
    }

    method OnElimination(who: Outcome)
      modifies this`gameOver, this`result
      ensures gameOver && result == who
    {
      gameOver := true;
      result := who;
    }

    method TogglePause()
      modifies this`paused
      ensures paused == Toggled(old(paused), gameOver)
    {
      if gameOver {
        return;
      }
      paused := !paused;
    }

    /** The Escape listener the game adds beside the input's own. */
    method KeyDown(code: string)
      modifies input, this`paused
      ensures input.keys == Input.Press(old(input.keys), code)
      ensures paused == (if code == "Escape" then Toggled(old(paused), gameOver) else old(paused))
    {
      var handled := input.OnKeyDown(code);
      if code == "Escape" {
        TogglePause();
      }
    }
  }
}
