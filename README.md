# Panda Racing 3D: the per-frame simulation, in Dafny

This project models the simulation core of Panda Racing 3D, a browser
racing game. A player car and a computer car drive down an endless road
that scrolls toward negative `z`. Obstacles are spawned ahead of them and
removed once they are behind. Every frame `Game.update`:

1. guards the frame time;
2. moves both cars;
3. derives distance and score;
4. updates the obstacle pool and the forest;
5. tests both cars against the obstacles;
6. applies car-to-car contact;
7. resolves eliminations into a final outcome.

Beside the race the model covers four more components of the source:

- the roadside animal pool and the nitro-bottle pool, which exist in the
  source but are not wired into the game loop;
- the keyboard state machine;
- the save record with its stat-upgrade economy.

There is one module per source file: `Car`, `Game`, `Obstacles`,
`Animals`, `Collectibles`, `Environment`, `SaveSystem` and `Input`. Three
small shared modules support them:

- `Geometry`: clamp, floor, absolute value, and the squared-distance test
  that replaces `Math.sqrt`;
- `Pools`: the reverse splice loop as `Filter`, and first-match and
  last-match search;
- `Random`: `Math.random()` as an injectable stream of draws in `[0, 1)`.

Objects whose fields the source updates in place are classes. Their
methods are proved against pure functions of the old state: `Car.Step`,
`Game.Collide`, `Obstacles.SpawnObstacle`, `Pools.Filter`,
`Collectibles.NitroRun`, `SaveSystem.TryUpgrade` and `Input.Press`. The
properties the source promises are proved about those functions as
lemmas.

Conventions:

- JavaScript numbers are `real`, and stat levels are `int`.
- `Math.sqrt(d2) < r` is written `0 < r && d2 < r * r`;
  `Geometry.WithinRadiusIsSqrtTest` shows the two agree.
- The road curve `getCurveX` (sine and cosine terms) is a function
  parameter `curve`.
- The AI's weave `sin(Date.now() * 0.001)` is a parameter `weave`.
- The animals' idle sway uses a parameter `sin`.
- Every `Math.random()` call of the source takes one draw from the stream,
  in source order. This includes draws that only feed the mesh (the 200
  draws of the forty background mountains, rock shade and rotation, log
  length, tree height and colour). Every pool therefore sees the same
  stream position that the source would give it.

Notes on the code's behaviour:

- A car steers toward its absolute target lane `laneX`; the road curve
  plays no part in steering. `laneX` is clamped to `[-12, 12]` for the
  player and `[-10, 10]` for the computer. Car-to-car contact can push a
  lane 3 past those clamps, and `Game.FrameKeepsCarsSane` shows the lanes
  still stay within 15 (player) and 13 (computer).
- Only the car that was hit is eliminated. The other car keeps
  `eliminated == false` and keeps its speed.
- `Game.js` wires only the cars, the environment, the obstacles and the
  input. Animals and collectibles are never updated or tested by the game
  loop, and it keeps no level counter. Cars have no passive drag, and the
  AI has no rubber-banding and no lane search beyond the avoidance loop.
- A frame longer than 0.1 s counts as 1/60 s, and a non-positive frame is
  skipped entirely (`Game.FrameDt`). The car's own substitution maps both
  cases to 1/60 (`Car.EffectiveDt`). `Game.FrameDtPassesCar` shows the
  car's guard never fires under the game loop.
- The animal spawn interval is `max(1.5, 1.5 - 0.2 * difficulty)`.
  `Animals.DynamicInterval` shows it is exactly 1.5 for every non-negative
  difficulty, so difficulty never speeds up animal spawning.

## Model

| member | source | states |
|---|---|---|
| Geometry.WithinRadiusIsSqrtTest | panda-racing-3d/src/entities/Obstacles.js:116-119 | for a non-negative root `d`, the squared test holds iff `d < r` |
| Pools.RemoveWhereNot | panda-racing-3d/src/entities/Obstacles.js:34-39 | the reverse loop that splices out failing entries leaves exactly `Filter`: the passing entries, in their original order |
| Pools.FilterComplete | panda-racing-3d/src/entities/Obstacles.js:34-39 | no entry that passes the test is lost by the splice loop |
| Pools.FirstIndex | panda-racing-3d/src/entities/Obstacles.js:114-124 | the first-match search: the index it returns passes and no earlier entry does; None iff no entry passes |
| Pools.LastIndex | panda-racing-3d/src/entities/Collectibles.js:72-86 | the last-match search of a count-down loop: the index it returns passes and no later entry does; None iff no entry passes |
| Pools.CursorSteps | panda-racing-3d/src/entities/Collectibles.js:14-19 | the number of turns of a cursor loop: afterwards the cursor is at or below the limit, and before the last turn it was above it |
| Random.Rng.Random | panda-racing-3d/src/entities/Obstacles.js:43 | one `Math.random()` call returns the next draw of the stream and advances the stream by one |
| Car.EffectiveDt | panda-racing-3d/src/entities/Car.js:108 | the step actually used always lies in `(0, 0.1]`; it is `dt` itself when in range and 1/60 otherwise |
| Car.ThrottleDirection | panda-racing-3d/src/entities/Car.js:140-152 | over a positive step the forward key raises the speed, the brake key (without forward) lowers it, and with neither the speed rises while below the base speed 25; at or above 25 it coasts down by at most 0.5 % and never below 25 * 0.995 |
| Car.Burn | panda-racing-3d/src/entities/Car.js:155-159 | over a positive step nitro strictly decreases or reaches 0, and it never goes below 0 (the 25-per-second rate is the function's body) |
| Car.SteerLane | panda-racing-3d/src/entities/Car.js:164-171 | after the player's steering the target lane lies in `[-12, 12]` |
| Car.PlayerControl | panda-racing-3d/src/entities/Car.js:137-172 | with no input nothing changes; with input the speed ends in `[5, 45*1.5]` while the nitro key is held and in `[5, 45]` otherwise, and the lane ends in `[-12, 12]`; nitro falls iff the key is held and nitro was positive, and never below 0 |
| Car.AvoidanceShift | panda-racing-3d/src/entities/Car.js:183-196 | the avoidance loop moves the AI lane by at most `15 * 0.8 * dt` per obstacle in the list, in either direction |
| Car.AvoidanceOnlyThreats | panda-racing-3d/src/entities/Car.js:183-196 | only obstacles with `-40 < dz < 0` and `|dx| < 4` move the AI's lane: the shift over the whole list equals the shift over those obstacles |
| Car.AvoidanceSteersAway | panda-racing-3d/src/entities/Car.js:188-195 | when every threat lies at larger `x` than the car the lane shift is ≤ 0 (steer left); when every threat lies at smaller or equal `x` it is ≥ 0 (steer right); with no threat the shift is 0 |
| Car.AIControl | panda-racing-3d/src/entities/Car.js:174-202 | after the AI's control the speed lies in `[25*0.9, 45*0.95]` and the lane in `[-10, 10]`; position, nitro and the elimination flag are untouched |
| Car.SteerGap | panda-racing-3d/src/entities/Car.js:119-121 | the gap between the lane and `x` left after one lateral `Steer` step is the old gap times `1 - 5*dt` |
| Car.SteerConverges | panda-racing-3d/src/entities/Car.js:119-121 | with the step in `(0, 0.1]` the lateral step `Steer` lands between `x` and the lane (no overshoot), and the gap shrinks by the factor `1 - 5*dt`, strictly when the car is off its lane |
| Car.Integrate | panda-racing-3d/src/entities/Car.js:116-127 | `z` falls by `speed*dt`, `x` is the clamped steering step and lies in `[-12, 12]`, `y` is 0.5, and nothing else changes |
| Car.Step | panda-racing-3d/src/entities/Car.js:106-135 | an eliminated car is unchanged; otherwise the car moves by the new speed times the effective step, stays in `[-12, 12]` on the ground, and meets the player's or the AI's speed and lane ranges; only the player burns nitro |
| Car.Kmh | panda-racing-3d/src/entities/Car.js:209-211 | the km/h readout is the non-negative `floor(|speed| * 3.6)` |
| Car.Car.constructor | panda-racing-3d/src/entities/Car.js:4-21 | a new car starts at `x = ∓3` with speed 0, nitro 50 and target lane `∓3`, and is not eliminated |
| Car.Car.Update | panda-racing-3d/src/entities/Car.js:106-135 | the car's new state is `Step` of its old state |
| Car.Car.Move | panda-racing-3d/src/entities/Car.js:116-127 | the motion part of `update` is `Integrate` of the old state |
| Car.Car.UpdatePlayer | panda-racing-3d/src/entities/Car.js:137-172 | the player's control step is `PlayerControl` of the old state |
| Car.Car.ApplyThrottle | panda-racing-3d/src/entities/Car.js:140-152 | the speed after the throttle branch: accelerate, brake, drift up to the base speed, or coast above it |
| Car.Car.ApplySteering | panda-racing-3d/src/entities/Car.js:164-171 | the lane after steering is `SteerLane` of the old lane |
| Car.Car.UpdateAI | panda-racing-3d/src/entities/Car.js:174-202 | the obstacle loop accumulates exactly `AvoidanceShift`, and the AI's step is `AIControl` of the old state |
| Car.Car.Eliminate | panda-racing-3d/src/entities/Car.js:204-207 | `eliminate` sets the flag and zeroes the speed, and changes nothing else |
| Car.Car.GetSpeedKmh | panda-racing-3d/src/entities/Car.js:209-211 | the readout is `Kmh` of this car's speed, so never negative |
| Game.FrameDt | panda-racing-3d/src/core/Game.js:115-117 | a frame over 0.1 becomes 1/60; the result is positive iff the raw delta was, and never above 0.1 |
| Game.FrameDtPassesCar | panda-racing-3d/src/core/Game.js:115-117 | every frame the game lets through is already in the car's range, so the car's own substitution never fires |
| Game.Score | panda-racing-3d/src/core/Game.js:125-126 | `score = floor(distance / 10)`, so `10*score ≤ distance < 10*score + 10`, and the score is non-negative for a non-negative distance |
| Game.ScoreMonotone | panda-racing-3d/src/core/Game.js:125-126 | the score never falls as the distance grows |
| Game.Contact | panda-racing-3d/src/core/Game.js:159-172 | with both cars racing and closer than 2.5, the car with larger `z` has its speed halved (the player on a tie) and the other keeps its speed; the lanes move 3 each in opposite directions, away from each other; otherwise nothing changes |
| Game.ContactSeparates | panda-racing-3d/src/core/Game.js:169-171 | contact widens the lane gap, measured from the car on the left, by exactly 6 |
| Game.HitByObstacleMeans | panda-racing-3d/src/core/Game.js:144-156 | a car is reported hit iff it is not already eliminated and some obstacle lies within its radius plus 1.2 |
| Game.OutcomeOf | panda-racing-3d/src/core/Game.js:175-185 | both hit gives `both`, only the player `player`, only the computer `computer`, neither no result, each as an if-and-only-if |
| Game.Knock | panda-racing-3d/src/core/Game.js:176-183 | a hit car is eliminated with speed 0; a car not hit is unchanged |
| Game.Collide | panda-racing-3d/src/core/Game.js:141-185 | the frame's outcome is `OutcomeOf` the two hit tests; a car ends eliminated iff it already was or was hit; a hit car's speed is 0; positions and nitro are untouched |
| Game.CollideEliminatesExactlyTheHit | panda-racing-3d/src/core/Game.js:175-185 | with both cars racing, exactly the cars named by the outcome are eliminated, and there is an outcome iff some car is |
| Game.Toggled | panda-racing-3d/src/core/Game.js:272-274 | pausing is a no-op once the game is over and flips the flag otherwise |
| Game.ToggleTwiceRestores | panda-racing-3d/src/core/Game.js:272-274 | toggling twice restores the pause flag |
| Game.FrameKeepsCarsSane | panda-racing-3d/src/core/Game.js:119-185 | a frame keeps the player within lane 15, speed 0 to 67.5 and nitro 0 to 100, the computer within lane 13 and speed 0 to 42.75, and both on the road and the ground |
| Game.Game.constructor | panda-racing-3d/src/core/Game.js:8-30 | the game starts running, unpaused, not over, with distance 0, score 0, no result, fresh cars at their start states, empty pools and all keys up; building the world takes the mountains' 200 draws |
| Game.Game.Update | panda-racing-3d/src/core/Game.js:112-192 | a skipped, paused or finished frame changes nothing; a finished game stays finished with the same result; otherwise `running`, `paused` and `startZ` are kept, both cars take one `Step`, distance and score follow the player, the obstacle pool is the old pool plus the obstacle spawned this frame with everything more than 50 behind the player removed, the forest cursor is ahead of the player, and the cars and the outcome are those of `Collide` |
| Game.Game.Advance | panda-racing-3d/src/core/Game.js:119-186 | the simulation branch: each car takes one `Step` (the computer sees the obstacles from before the pool update), the obstacle pool becomes the old pool plus this frame's spawn, filtered to the 50-behind window, and cars and outcome are `Collide` of the moved cars against that pool; `running`, `paused` and `startZ` are kept, and so is the game's invariant (car ranges, outcome agreeing with `gameOver` and the elimination flags, score from distance) |
| Game.Game.Simulate | panda-racing-3d/src/core/Game.js:120-132 | the cars step, distance and score are derived from the player's new `z`, the obstacle pool is the old pool plus this frame's spawn filtered at that `z`, and the forest is updated at that `z` |
| Game.Game.MoveCars | panda-racing-3d/src/core/Game.js:121-122 | the player steps with the input and no obstacles, the computer with no input and the active obstacles |
| Game.Game.UpdateWorld | panda-racing-3d/src/core/Game.js:129-132 | the obstacle pool becomes the old pool plus the obstacle spawned when the timer reaches the distance's interval, with every obstacle more than 50 behind the player removed in order; the forest cursor is at least 500 ahead of the player |
| Game.Game.CheckHits | panda-racing-3d/src/core/Game.js:141-156 | each hit flag is the obstacle test of that car, skipped for an eliminated car |
| Game.Game.CarContact | panda-racing-3d/src/core/Game.js:159-172 | the two cars' new states are `Contact` of their old states |
| Game.Game.Collisions | panda-racing-3d/src/core/Game.js:141-185 | the cars and the outcome are `Collide` of the moved cars |
| Game.Game.ResolveEliminations | panda-racing-3d/src/core/Game.js:175-185 | each car is `Knock` of its old state by its hit flag; the result is `OutcomeOf` the flags when some car was hit and unchanged otherwise; `gameOver` becomes true iff some car was hit |
| Game.Game.OnElimination | panda-racing-3d/src/core/Game.js:194-196 | the state part of `onElimination`: the game is over with the given result |
| Game.Game.TogglePause | panda-racing-3d/src/core/Game.js:272-274 | the pause flag becomes `Toggled` of the old flag |
| Game.Game.KeyDown | panda-racing-3d/src/core/Game.js:83-85 | Escape toggles the pause beside the input's own keydown handling |
| Obstacles.SpawnInterval | panda-racing-3d/src/entities/Obstacles.js:16-25 | the spawn interval lies between 0.35 and 1.8 |
| Obstacles.SpawnIntervalNonIncreasing | panda-racing-3d/src/entities/Obstacles.js:16-25 | the interval never grows with the distance |
| Obstacles.SpawnObstacle | panda-racing-3d/src/entities/Obstacles.js:42-57 | a spawned obstacle has `x ∈ [-12, 12)` and `z ∈ (playerZ-200, playerZ-120]`; by type draw: rock with radius in `[1.1, 2.1)`, log 1.2, barrel 0.8, boulder in `[1.8, 3.3)` |
| Obstacles.DrawsUsed | panda-racing-3d/src/entities/Obstacles.js:42-112 | one spawn takes between 3 and 8 draws of the stream |
| Obstacles.KeptWindow | panda-racing-3d/src/entities/Obstacles.js:34-39 | after the removal loop no obstacle is more than 50 behind the player, and every other obstacle is still there |
| Obstacles.Obstacles.constructor | panda-racing-3d/src/entities/Obstacles.js:4-9 | a new pool is empty with its timer at 0 |
| Obstacles.Obstacles.Update | panda-racing-3d/src/entities/Obstacles.js:11-40 | the timer accumulates `dt`; it spawns iff the timer reaches the interval, then the timer is 0, so at most one obstacle is added; the pool is then the in-order filter of old plus spawned |
| Obstacles.Obstacles.SpawnObstacleInto | panda-racing-3d/src/entities/Obstacles.js:42-57 | one spawn appends exactly the obstacle `SpawnObstacle` gives for the next draws |
| Obstacles.Obstacles.CreateRock | panda-racing-3d/src/entities/Obstacles.js:59-70 | a rock of size `0.8 + r` with radius `size + 0.3`, taking five draws |
| Obstacles.Obstacles.CreateLog | panda-racing-3d/src/entities/Obstacles.js:72-83 | a log of radius 1.2, taking two draws |
| Obstacles.Obstacles.CreateBarrel | panda-racing-3d/src/entities/Obstacles.js:85-101 | a barrel of radius 0.8, taking no draws |
| Obstacles.Obstacles.CreateBoulder | panda-racing-3d/src/entities/Obstacles.js:103-112 | a boulder of size `1.5 + 1.5r` with radius `size + 0.3`, taking one draw |
| Obstacles.Obstacles.CheckCollision | panda-racing-3d/src/entities/Obstacles.js:114-124 | returns the first obstacle in list order within `radius + 1.2`, and null iff there is none; it reads the pool only |
| Obstacles.Obstacles.ActiveObstacles | panda-racing-3d/src/entities/Obstacles.js:126-128 | the computer car is handed the whole live pool, in pool order, with nothing filtered |
| Obstacles.Obstacles.Destroy | panda-racing-3d/src/entities/Obstacles.js:130-133 | the pool is left empty |
| Animals.AnimalHeight | panda-racing-3d/src/entities/Animals.js:220-232 | the height table's value for a listed type and 1.5 otherwise, always in `[1.5, 5]` |
| Animals.AnimalRadius | panda-racing-3d/src/entities/Animals.js:234-246 | the radius table's value for a listed type and 2 otherwise, always in `[2, 5]` |
| Animals.TablesCoverTypes | panda-racing-3d/src/entities/Animals.js:10 | every type the spawner can pick is in both tables |
| Animals.DynamicInterval | panda-racing-3d/src/entities/Animals.js:16 | the interval is never below 1.5, and is exactly 1.5 for any non-negative difficulty |
| Animals.SpawnAnimal | panda-racing-3d/src/entities/Animals.js:52-83 | a spawned animal is of a listed type, `|x| ∈ [20, 45)`, `z ∈ (playerZ-350, playerZ-200]`, speed in `[5, 13)`, with its table radius and height |
| Animals.Walk | panda-racing-3d/src/entities/Animals.js:28-42 | each update moves an animal's `z` up by `speed*dt*0.5` and advances its idle clock by `dt`, keeping its type, speed, radius and base height |
| Animals.WalkAll | panda-racing-3d/src/entities/Animals.js:23-42 | the walking pass of the update loop keeps the pool's size and order, and the animal at each position is that animal after its own `Walk` step |
| Animals.WalkAllAt | panda-racing-3d/src/entities/Animals.js:23-28 | every animal of the pool takes its own walking step |
| Animals.CulledWindow | panda-racing-3d/src/entities/Animals.js:45-48 | survivors satisfy `playerZ-300 ≤ z ≤ playerZ+100`, and every walked animal inside the window survives |
| Animals.FarSpawnDroppedAtOnce | panda-racing-3d/src/entities/Animals.js:45-48 | an animal spawned from a `z` draw above 0.7 on a frame of at most 0.1 is removed in the same update |
| Animals.WalkStepBound | panda-racing-3d/src/entities/Animals.js:28 | one walking step on a frame of at most 0.1 is below 0.65 |
| Animals.Animals.constructor | panda-racing-3d/src/entities/Animals.js:4-11 | a new pool is empty with its timer at 0 |
| Animals.Animals.Update | panda-racing-3d/src/entities/Animals.js:13-50 | it spawns iff the timer reaches the interval, then the timer is 0 (at most one animal); the pool is the in-order filter, by window, of the walked old-plus-spawned pool |
| Animals.Animals.WalkAndCull | panda-racing-3d/src/entities/Animals.js:23-49 | the reverse loop walks every animal and splices out those outside the window, in order |
| Animals.Animals.SpawnAnimalBesideRoad | panda-racing-3d/src/entities/Animals.js:52-83 | one spawn appends exactly the animal `SpawnAnimal` gives for the next six draws |
| Animals.Animals.CheckCollision | panda-racing-3d/src/entities/Animals.js:248-262 | returns the first animal within `radius + 1.5`, and null iff there is none; it reads the pool only |
| Animals.Animals.Destroy | panda-racing-3d/src/entities/Animals.js:264-267 | the pool is left empty |
| Collectibles.NitroAt | panda-racing-3d/src/entities/Collectibles.js:37-70 | a spawned item is a nitro bottle at the slot's `z`, within 10 of `curveX(z)` |
| Collectibles.Extend | panda-racing-3d/src/entities/Collectibles.js:15-17 | one loop turn adds one bottle and takes two draws when its check draw exceeds 0.7, and otherwise adds nothing and takes one draw; earlier items are kept as a prefix and the slot is recorded only with a bottle |
| Collectibles.NitroRun | panda-racing-3d/src/entities/Collectibles.js:14-19 | `n` turns of the spawn loop yield at most `n` items and take between `n` and `2n` draws |
| Collectibles.NitroRunPlacement | panda-racing-3d/src/entities/Collectibles.js:14-19 | every item of a run is a nitro bottle placed at the slot it came from |
| Collectibles.NitroRunOnePerSlot | panda-racing-3d/src/entities/Collectibles.js:15-17 | slots strictly increase along a run, so no slot yields two bottles |
| Collectibles.NoLuckyDrawNoItems | panda-racing-3d/src/entities/Collectibles.js:15-17 | with no draw above 0.7 no bottle spawns, and each slot takes one draw |
| Collectibles.AllLuckyDrawsFillSlots | panda-racing-3d/src/entities/Collectibles.js:15-17 | with every draw above 0.7 every slot yields a bottle |
| Collectibles.Collectibles.constructor | panda-racing-3d/src/entities/Collectibles.js:4-10 | a new pool is empty with its cursor at 0 |
| Collectibles.Collectibles.Update | panda-racing-3d/src/entities/Collectibles.js:12-35 | the cursor falls by exactly 80 per turn to at or below `playerZ - 400` and never rises; the pool is the in-order filter, by `z ≤ playerZ + 100`, of old plus the run |
| Collectibles.Collectibles.SpawnUpTo | panda-racing-3d/src/entities/Collectibles.js:14-19 | the cursor loop appends exactly `NitroRun` and ends with the cursor at or below the limit |
| Collectibles.Collectibles.SpawnSlot | panda-racing-3d/src/entities/Collectibles.js:15-17 | one turn of the loop is `Extend`: a bottle at this slot iff its draw exceeds 0.7 (two draws then, one otherwise) |
| Collectibles.Collectibles.SpawnNitro | panda-racing-3d/src/entities/Collectibles.js:37-70 | one bottle is appended, placed by one draw |
| Collectibles.Collectibles.CheckCollision | panda-racing-3d/src/entities/Collectibles.js:72-86 | scanning from last to first, it removes exactly the last item within 2.5 and returns its type, `nitro`; with none in reach it returns null and leaves the pool unchanged |
| Collectibles.Collectibles.Destroy | panda-racing-3d/src/entities/Collectibles.js:93-96 | the pool is left empty |
| Environment.DensityMultiplier | panda-racing-3d/src/entities/Environment.js:87-89 | the multiplier lies in `[1, 3]`: `1 + |z|/5000` up to 10000 and 3 beyond |
| Environment.DensityGrowsWithDistance | panda-racing-3d/src/entities/Environment.js:87-89 | the multiplier never falls as `|z|` grows |
| Environment.RoadTreeCount | panda-racing-3d/src/entities/Environment.js:92 | a row has 6 to 39 road trees, at most 13 at density 1 |
| Environment.FillerCount | panda-racing-3d/src/entities/Environment.js:100 | a row has 10 to 57 filler tries, at most 19 at density 1 |
| Environment.RoadTree | panda-racing-3d/src/entities/Environment.js:93-97 | a road tree sits between 22.5 and 52.5 off the centre line, on the side its draw picks, within 7.5 of its row |
| Environment.FillerX | panda-racing-3d/src/entities/Environment.js:102 | a filler try falls within 500 of the centre line |
| Environment.SceneryX | panda-racing-3d/src/entities/Environment.js:111 | a scenery try falls within 100 of the centre line |
| Environment.RowJitter | panda-racing-3d/src/entities/Environment.js:104 | a filler tree or scenery piece lies within 10 of its row |
| Environment.SceneryPiece | panda-racing-3d/src/entities/Environment.js:147-171 | a rock iff its draw exceeds 0.7, resting at half its size; otherwise a tuft at 0.1 |
| Environment.Environment.constructor | panda-racing-3d/src/entities/Environment.js:4-16 | a new forest is empty with its cursor at 0, and the stream has advanced by the mountains' 200 draws |
| Environment.CreateBackgroundMountains | panda-racing-3d/src/entities/Environment.js:33-47 | forty mountains, five draws each: the stream advances by exactly 200 |
| Environment.Environment.Update | panda-racing-3d/src/entities/Environment.js:50-64 | the cursor falls by exactly 20 per row to at or below `playerZ - 500` and never rises; trees and scenery are the in-order filter, by `z ≤ playerZ + 150`, of the old pieces followed by this frame's spawned ones, so every old or new piece within 150 is kept; each spawned piece lies between the new cursor and the old one |
| Environment.Environment.SpawnRows | panda-racing-3d/src/entities/Environment.js:57-60 | the cursor falls by 20 per row to at or below the limit; trees and scenery become the old ones followed by the spawned ones, and every spawned piece lies between the new cursor and the old one |
| Environment.Environment.CleanUp | panda-racing-3d/src/entities/Environment.js:66-79 | removes exactly the trees and scenery with `z > playerZ + 150` and keeps the rest in order |
| Environment.Environment.SpawnForestRow | panda-racing-3d/src/entities/Environment.js:85-116 | road trees first, then fillers only beyond 60, then scenery only beyond 20 off the centre line, each placed by its rule |
| Environment.Environment.SpawnRoadTrees | panda-racing-3d/src/entities/Environment.js:93-97 | exactly `count` road trees, each placed by the road-tree rule, five draws each |
| Environment.Environment.SpawnFillers | panda-racing-3d/src/entities/Environment.js:101-106 | at most `count` filler trees, each more than 60 off the centre line |
| Environment.Environment.SpawnScenery | panda-racing-3d/src/entities/Environment.js:109-115 | at most 15 scenery pieces, each more than 20 off the centre line |
| Environment.Environment.CreateTree | panda-racing-3d/src/entities/Environment.js:118-145 | a tree on the ground at `(x, z)`, taking two draws |
| Environment.Environment.CreateScenery | panda-racing-3d/src/entities/Environment.js:147-171 | the scenery piece `SceneryPiece` gives for the next two draws |
| SaveSystem.Load | panda-racing-3d/src/core/SaveSystem.js:15-24 | the defaults when nothing is stored or parsing fails; otherwise each top-level field is the stored one when present and the default when not |
| SaveSystem.LoadSaved | panda-racing-3d/src/core/SaveSystem.js:15-28 | loading a saved record gives it back |
| SaveSystem.LoadEmptyRecord | panda-racing-3d/src/core/SaveSystem.js:19 | a stored record with no known fields loads as the defaults |
| SaveSystem.StatsOf | panda-racing-3d/src/core/SaveSystem.js:38-40 | the stats an upgrade works on: the car's own, or fresh level-1 stats for an unknown car |
| SaveSystem.UpgradeCost | panda-racing-3d/src/core/SaveSystem.js:54-58 | cost is level×500; 500 for an unknown car; no number for a known car missing that stat |
| SaveSystem.TryUpgrade | panda-racing-3d/src/core/SaveSystem.js:36-52 | succeeds iff the stat exists, `totalScore ≥ level×500` and `level < 10`; on success the score drops by exactly the cost, that stat rises by 1, and every other field is unchanged |
| SaveSystem.QuotedCostIsCharged | panda-racing-3d/src/core/SaveSystem.js:43-57 | for a known car, or an unknown car and one of the four default stats, `getUpgradeCost` quotes a number iff `upgradeStat` finds the stat, and it is the cost `upgradeStat` charges |
| SaveSystem.UpgradeTouchesOneStat | panda-racing-3d/src/core/SaveSystem.js:46-47 | an upgrade leaves every other stat of every car unchanged |
| SaveSystem.UpgradeKeepsSane | panda-racing-3d/src/core/SaveSystem.js:45-47 | upgrades keep `totalScore ≥ 0` and every stat ≤ 10 |
| SaveSystem.DefaultSane | panda-racing-3d/src/core/SaveSystem.js:4-13 | the default record is sane |
| SaveSystem.UpgradeCapped | panda-racing-3d/src/core/SaveSystem.js:45 | a stat at level 10 or above cannot be upgraded |
| SaveSystem.WithScore | panda-racing-3d/src/core/SaveSystem.js:30-34 | `addScore` raises the total by `amount` and leaves every other field unchanged |
| SaveSystem.AddScoreKeepsSane | panda-racing-3d/src/core/SaveSystem.js:30-34 | adding a non-negative amount keeps the record sane |
| SaveSystem.SaveSystem.Current | panda-racing-3d/src/core/SaveSystem.js:15-24 | with nothing parsable stored, the current record is the defaults |
| SaveSystem.SaveSystem.Save | panda-racing-3d/src/core/SaveSystem.js:26-28 | after a save the store holds the record and loads it back |
| SaveSystem.SaveSystem.AddScore | panda-racing-3d/src/core/SaveSystem.js:30-34 | load, add, save: the stored record becomes `WithScore` of the old one |
| SaveSystem.SaveSystem.UpgradeStat | panda-racing-3d/src/core/SaveSystem.js:36-52 | returns true iff `TryUpgrade` succeeds and then saves its record; on failure it writes nothing, not even the fresh car entry |
| SaveSystem.SaveSystem.GetUpgradeCost | panda-racing-3d/src/core/SaveSystem.js:54-58 | an unknown car quotes 500 |
| Input.Keys.With | panda-racing-3d/src/core/Input.js:23-29 | setting one flag changes that flag and no other |
| Input.Press | panda-racing-3d/src/core/Input.js:20-33 | keydown sets exactly the mapped flag true and leaves every other flag, and every flag for an unmapped code, unchanged |
| Input.Release | panda-racing-3d/src/core/Input.js:35-45 | keyup sets exactly the mapped flag false and leaves every other flag unchanged |
| Input.KeysExtensional | panda-racing-3d/src/core/Input.js:3-11 | two records that agree on all seven flags are equal |
| Input.KeyTable | panda-racing-3d/src/core/Input.js:23-29 | the code table: W/ArrowUp forward, S/ArrowDown backward, A/ArrowLeft left, D/ArrowRight right, Space brake, ShiftLeft/ShiftRight nitro, C changeCamera, each as an if-and-only-if |
| Input.PressIdempotent | panda-racing-3d/src/core/Input.js:20-33 | repeating a keydown is idempotent |
| Input.PressThenRelease | panda-racing-3d/src/core/Input.js:20-45 | keydown then keyup of a code equals the keyup alone, and restores the flags when that flag was up |
| Input.Input.constructor | panda-racing-3d/src/core/Input.js:2-11 | all seven flags start false |
| Input.Input.OnKeyDown | panda-racing-3d/src/core/Input.js:20-33 | the flags become `Press` of the old flags, and the event is handled iff the code is mapped |
| Input.Input.OnKeyUp | panda-racing-3d/src/core/Input.js:35-45 | the flags become `Release` of the old flags |

## Left out

- Rendering: all three.js mesh building, lights, camera, HUD and DOM, the
  overlays and timers of `onElimination`, `onResize` and `destroy`. The
  model keeps only positions, radii and types.
- `main.js` (menus, garage, previews). `SoundSystem.js` and
  `AssetLoader.js` are not part of this model.
- Event listener registration and removal (`Input.destroy`, the window and
  document listeners of `Game`).
- `Math.random()` is a stream of draws in `[0, 1)`. `Date.now()` and the
  trigonometry in `getCurveX`, the AI's weave and the animals' sway are
  parameters. The `weave` parameter is not bounded to `[-1, 1]`; no proved
  property depends on its bound.
- IEEE floating-point rounding: every number is a real.
- Animation-only state: wheel spin, leg rotation, and the bottles' spin and
  bobbing (an item's `y` stays 1).
- `localStorage` and JSON: the store is a value that is absent,
  unparsable, or the fields a parse recovered. The shallow copy of the
  defaults, which shares the nested objects between loads, is not
  reproduced.
- Logging: the `console.log` in `spawnAnimalBesideRoad` and the
  `console.error` in `SaveSystem.load` when the stored record fails to
  parse.
- The read side of `Obstacles.totalDistance`, which nothing uses.
- Environment.Environment.SpawnFillers: states only lower and upper bounds
  on the draws taken, because the number of successful tries depends on
  the draws.
- Environment.Environment.SpawnScenery: same as above, only bounds on the
  draws taken.
- Environment.Environment.SpawnForestRow: states where each new tree and
  scenery piece lies, not which draws produced it.
- Environment.Environment.SpawnRows: states that the rows lie between the
  old and new cursors, not the exact sequence of pieces.
