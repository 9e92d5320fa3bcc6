# Coin rush ECS — a Dafny model of the per-frame simulation

Coin rush is a small entity–component game in Rust on top of the `specs`
library. A world is a set of live entity ids plus one storage per
component. The value storages are Position, Velocity, BoundingBox, Health,
Score and PowerUp; the tag storages are PlayerControlled, Coin, Enemy and
Collidable. Each frame, systems read and mutate these storages. This
project models that simulation core in Dafny:

- **World** (`world.dfy`, module `Ecs`). `World` is a class with one mutable
  field per storage: maps for value components, sets for tags. It also holds
  the live set and a fresh-id allocator (`nextId`). `State()` packs every
  field into a `WorldState` value. Every system method is proved against a
  specification function on that value; all the other properties are lemmas
  about those functions.
- **Initial world** (`entities.rs` → `entities.dfy`). `create_player`,
  `create_initial_coin` and `create_initial_enemy` are methods. Each one
  allocates an id and inserts its components. The lemmas prove three things
  about each: the id is fresh, the entity holds exactly the expected
  components, and nothing else in the world changes.
- **PlayerInputSystem** (`input.dfy`). Each player-controlled velocity is reset
  to (0,0) and then moved ±1 per W/A/S/D key entry. The final velocity is
  (#D − #A, #S − #W). Opposite keys cancel, other keys and `None` entries are
  ignored, and key order does not matter.
- **PhysicsSystem** (`physics.dfy`). Every entity with both Position and
  Velocity moves by 5 × velocity. Nothing else changes.
- **CollisionSystem** (`collision.dfy`). The system snapshots four groups, then
  runs the nested pair loops with the eager Score award and queues the
  removals. `check_collision` is modelled with its strict inequalities. The
  commit phase then removes power-ups, applies saturating health penalties and
  removes coins. All of this is proved to equal the `CollisionSpec` function,
  and `CollisionSpec` is proved to:
  - remove exactly the coins and power-ups that overlap some player;
  - add 10 × (number of overlapping (player, coin) pairs) to every Score;
  - leave each Health at max(0, h − 10·k);
  - change nothing else.
- **SpawnSystem** (`spawn.dfy`). A class holding the screen size and three
  timers. Timers count tenths of a second, so each run adds 1 and the
  thresholds 5.0, 10.0 and 15.0 become 50, 100 and 150. A timer that fires
  resets and creates one fresh coin, enemy or power-up with a fixed component
  set and an on-screen position. The random placements and the health/speed
  coin flip arrive as a `Draws` parameter.
- **Game loop** (`game.dfy`). `Setup` builds the start world and the spawner
  of `src/main.rs`. `Tick` runs input, physics and spawn in the loop's order.
  `Setup` leaves the world in `World.Valid()` (well formed and anchored), and
  every `Tick` keeps it there.
  The loop in `src/main.rs:61-64` never runs `CollisionSystem`, and the model
  keeps that: `Game.FramesNeverRemoveCoins` proves that no sequence of frames,
  whatever its keys and draws, takes away a Coin tag or changes a Score or a
  Health. `Game.OverlappingCoinIsNeverCollected` gives the concrete case: a
  coin lying on the player survives an idle frame, although `CollisionSpec`
  would remove it.

Within a system, the order in which `specs` iterates a join is left open: each
loop picks its next entity with `:|`, so every proof covers every order.

## Model

| member | source | states |
|---|---|---|
| Ecs.World.constructor | src/main.rs:24 | a new world has no entity and the allocator at 0 |
| Ecs.World.CreateEntity | src/entities.rs:7-8 | returns the allocator's old value, makes it live and advances the allocator; no storage changes |
| Ecs.AllocateIsFresh | src/entities.rs:7-8 | in a well-formed world the new id is in no storage, the world stays well formed, and the live set grows by exactly one |
| Ecs.ForgetUnallocated | src/entities.rs:7-19 | taking the not-yet-allocated id out of a well-formed world changes nothing (basis of the "nothing else changes" lemmas) |
| Entities.CreatePlayer | src/entities.rs:6-20 | the world after the call is `AddPlayer` of the world before, and the returned entity is the fresh id |
| Entities.PlayerIsFresh | src/entities.rs:6-20 | the player's id was not live; the world stays well formed and anchored |
| Entities.PlayerComponents | src/entities.rs:6-20 | the player holds exactly Position (400,300), Velocity (0,0), a 20×20 box, PlayerControlled, Collidable, Health 100 and Score 0 |
| Entities.PlayerChangesNothingElse | src/entities.rs:6-20 | removing the player again gives back the old world with the allocator advanced |
| Entities.CreateCoin | src/entities.rs:22-33 | shared coin builder (initial coin and spawned coins): the world after the call is `AddCoin` at the given position |
| Entities.CreateInitialCoin | src/entities.rs:22-33 | builds the coin at (200,200) |
| Entities.CoinIsFresh | src/entities.rs:22-33 | the coin's id was not live; the world stays well formed and anchored |
| Entities.CoinComponents | src/entities.rs:22-33 | a coin holds exactly Position, a 10×10 box, Coin and Collidable: no Velocity, Health or Score (the spawner's coin at src/systems/spawn_system.rs:54-77 is the same) |
| Entities.CoinChangesNothingElse | src/entities.rs:22-33 | removing the coin again gives back the old world with the allocator advanced |
| Entities.CreateInitialEnemy | src/entities.rs:35-48 | the world after the call is `AddInitialEnemy` of the world before |
| Entities.InitialEnemyIsFresh | src/entities.rs:35-48 | the enemy's id was not live; the world stays well formed and anchored |
| Entities.InitialEnemyComponents | src/entities.rs:35-48 | the enemy holds exactly Position (600,100), Velocity (0,0), a 20×20 box, Enemy, Collidable and Health 30: no Score |
| Entities.InitialEnemyChangesNothingElse | src/entities.rs:35-48 | removing the enemy again gives back the old world with the allocator advanced |
| Entities.InitialWorldShape | src/main.rs:29-31 | the start world has player 0, coin 1 and enemy 2, with their exact storages; it is well formed and anchored |
| Input.Run | src/systems/input_system.rs:18-34 | in every visit order, the new world is `InputSpec` of the old one |
| Input.ApplyKeys | src/systems/input_system.rs:22-32 | the inner loop leaves the entity's velocity at `Accumulate` of its old velocity over all key entries; no other velocity changes |
| Input.AccumulateCounts | src/systems/input_system.rs:22-31 | from any start velocity, dx gains #D − #A and dy gains #S − #W |
| Input.KeyVelocityCounts | src/systems/input_system.rs:19-31 | after the reset to (0,0) the velocity is (#D − #A, #S − #W) |
| Input.OppositeKeysCancel | src/systems/input_system.rs:25-28 | as many W as S entries give dy = 0; as many A as D give dx = 0 |
| Input.PressingBothCancels | src/systems/input_system.rs:25-28 | W+S gives dy = 0, A+D gives dx = 0, D+S gives (1,1) |
| Input.IgnoredEntries | src/systems/input_system.rs:23-29 | `None` and any key other than W/A/S/D leave a velocity unchanged |
| Input.KeyOrderIrrelevant | src/systems/input_system.rs:22-31 | two key lists with the same multiset of entries give the same velocity |
| Input.InputTouchesOnlyPlayerVelocities | src/systems/input_system.rs:12-21 | only the Velocity storage changes, and it keeps its keys. Entities without PlayerControlled keep their velocity. Player-controlled ones get the key velocity, whatever they had before |
| Input.InputKeepsInvariants | src/systems/input_system.rs:12-19 | well-formedness and anchoring are preserved |
| Physics.Run | src/systems/physics_system.rs:10-15 | in every visit order, the new world is `PhysicsSpec` of the old one; only `position` may change |
| Physics.MovesByFiveTimesVelocity | src/systems/physics_system.rs:11-13 | an entity with Position and Velocity ends at (x + 5·dx, y + 5·dy) |
| Physics.OnlyMovingPositionsChange | src/systems/physics_system.rs:8-11 | only Position changes and it keeps its keys; an entity without Velocity keeps its Position; the live set and other tables are unchanged |
| Physics.ZeroVelocityStaysPut | src/systems/physics_system.rs:12-13 | a zero velocity leaves the position unchanged |
| Physics.AtRestIsFixedPoint | src/systems/physics_system.rs:11-13 | a world whose velocities are all zero is unchanged by the pass |
| Physics.UpdateIsLocal | src/systems/physics_system.rs:11-14 | an entity's new position depends only on its own position and velocity |
| Physics.PhysicsKeepsInvariants | src/systems/physics_system.rs:8-15 | well-formedness and anchoring are preserved |
| Collision.CheckCollisionSymmetric | src/systems/collision_system.rs:162-180 | `check_collision(a, b) == check_collision(b, a)` for all positions and boxes |
| Collision.EdgeContactIsNoCollision | src/systems/collision_system.rs:179 | boxes that only touch along an edge do not collide |
| Collision.CollisionIffCommonInteriorPoint | src/systems/collision_system.rs:168-179 | for positive sizes, the test holds exactly when the two boxes share an interior point |
| Collision.Run | src/systems/collision_system.rs:26-159 | the whole pass (snapshot, pair loops, commit) leaves the world at `CollisionSpec` of the old world, in every visit order |
| Collision.TestAllPlayers | src/systems/collision_system.rs:87-141 | after the pair loops, each Score has risen by 10 per (player, coin) overlap. The coin and power-up queues hold exactly the members hit by some player. The health queue holds each player once per overlapping enemy |
| Collision.TestCoins | src/systems/collision_system.rs:88-100 | one player's coin loop: it queues exactly the coins that player overlaps and adds 10 to every Score per such coin |
| Collision.AwardAll | src/systems/collision_system.rs:93-98 | every Score holder gains exactly 10 |
| Collision.TestEnemies | src/systems/collision_system.rs:102-108 | one player's enemy loop queues that player once per overlapping enemy and nobody else |
| Collision.TestPowerUps | src/systems/collision_system.rs:110-140 | one player's power-up loop queues exactly the power-ups that player overlaps |
| Collision.RemovePowerUps | src/systems/collision_system.rs:143-146 | the PowerUp storage loses exactly the queued entities; removing an absent one is a no-op |
| Collision.ReduceHealths | src/systems/collision_system.rs:148-154 | each Health ends at `SubEach` of its old value: one `saturating_sub(10)` per queued occurrence of its entity; entities without Health are skipped |
| Collision.RemoveCoins | src/systems/collision_system.rs:155-158 | the Coin storage loses exactly the queued entities; removing an absent or already-removed one is a no-op |
| Collision.CoinPickup | src/systems/collision_system.rs:88-158 | a coin keeps its Coin tag exactly when no player overlaps it; Position, BoundingBox and Collidable stay |
| Collision.PowerUpPickup | src/systems/collision_system.rs:110-146 | a power-up loses its PowerUp component exactly when a player overlaps it; the others keep theirs unchanged |
| Collision.ScoreGain | src/systems/collision_system.rs:88-98 | every Score holder, not only the colliding player, gains exactly 10 × (number of overlapping (player, coin) pairs) |
| Collision.HealthLoss | src/systems/collision_system.rs:102-154 | each Health ends at max(0, h − 10·k), with k the number of enemies the entity overlaps as a player; non-players and the Health key set are unchanged |
| Collision.SubEachIsOneSaturatingSub | src/systems/collision_system.rs:148-154 | k successive `saturating_sub(10)` calls equal one saturating subtraction of 10·k; this is the step that carries `ReduceHealths`' result to `CollisionSpec`'s Health |
| Collision.SingleCoinPickup | src/systems/collision_system.rs:88-98 | one player on one coin: the coin is collected and every Score rises by exactly 10 |
| Collision.SingleEnemyHit | src/systems/collision_system.rs:102-154 | a player overlapping exactly one enemy loses exactly 10 Health, but never goes below 0 |
| Collision.CollisionTouchesOnlyCoinsPowerUpsScoresHealth | src/systems/collision_system.rs:143-158 | the Velocity, Position, BoundingBox, Collidable, PlayerControlled and Enemy storages and the live set are unchanged; power-ups have no Health or Velocity effect |
| Collision.NoContactNoChange | src/systems/collision_system.rs:87-158 | when no player overlaps a coin, an enemy or a power-up, the pass changes nothing |
| Collision.NoSelfHit | src/systems/collision_system.rs:89-111 | self-pairs never count as a hit |
| Collision.GroupsAfterCommit | src/systems/collision_system.rs:47-85 | after the commit, the player and enemy groups are the same, and the coin and power-up groups have lost exactly the collected members |
| Collision.CollisionKeepsInvariants | src/systems/collision_system.rs:143-158 | well-formedness and anchoring are preserved |
| Spawn.SpawnSystem.constructor | src/systems/spawn_system.rs:14-22 | stores the screen size; all three timers start at 0 |
| Spawn.SpawnSystem.Run | src/systems/spawn_system.rs:36-139 | the timers become `NextTimers` of the old ones and the world becomes `SpawnSpec` of the old one. Only the timers and the world may change, so the screen size stays |
| Spawn.CreateSpawnedEnemy | src/systems/spawn_system.rs:79-102 | the world after the call is `AddSpawnedEnemy` at the drawn position |
| Spawn.CreatePowerUp | src/systems/spawn_system.rs:104-138 | the world after the call is `AddPowerUp` at the drawn position, of the drawn kind |
| Spawn.TimerCountsModulo | src/systems/spawn_system.rs:48-55 | started at zero, a timer holds (number of runs) mod threshold |
| Spawn.FiresOnMultiples | src/systems/spawn_system.rs:48-55 | run number n fires exactly when n is a multiple of the threshold |
| Spawn.FirstFiring | src/systems/spawn_system.rs:48-55 | a timer first fires on run number `threshold`, and not before |
| Spawn.FirstSpawnRuns | src/systems/spawn_system.rs:48-104 | the first coin, enemy and power-up appear on runs 50, 100 and 150, and not earlier |
| Spawn.QuietRunChangesNothing | src/systems/spawn_system.rs:54-104 | when no timer fires, no entity is created and no storage changes |
| Spawn.SpawnCreatesOnePerFiringTimer | src/systems/spawn_system.rs:54-106 | each firing timer adds exactly one fresh entity. The allocator and the live-set size grow by the number of firing timers, and the world stays well formed and anchored |
| Spawn.SpawnedEnemyIsFresh | src/systems/spawn_system.rs:81 | the spawned enemy's id was not live; the world stays well formed and anchored |
| Spawn.PowerUpIsFresh | src/systems/spawn_system.rs:106 | the power-up's id was not live; the world stays well formed and anchored |
| Spawn.SpawnedOnScreen | src/systems/spawn_system.rs:61-112 | every entity the run creates has a Position with 0 ≤ x < width and 0 ≤ y < height |
| Spawn.EmptyScreenHasNoPlacement | src/systems/spawn_system.rs:61-62 | with width or height 0 no position is in range, so a firing run then has no valid draw |
| Spawn.SpawnedEnemyComponents | src/systems/spawn_system.rs:79-102 | a spawned enemy holds exactly Position, a 20×20 box, Collidable and Enemy: no Health or Velocity |
| Spawn.PowerUpComponents | src/systems/spawn_system.rs:104-137 | a power-up holds exactly Position, a 10×10 box, Collidable and PowerUp. Its kind is "health" or "speed": "health" exactly when the coin flip says so |
| Spawn.SpawnKeepsExisting | src/systems/spawn_system.rs:54-139 | a run leaves every entity that existed before it untouched: the same component kinds, Position, BoundingBox and PowerUp value; the spawner sets a Position only on the entities it creates and never changes a box |
| Spawn.CoinKeepsUntouched | src/systems/spawn_system.rs:54-77 | building a coin on the fresh id leaves every older entity's kinds, Position, box and PowerUp as they were |
| Spawn.EnemyKeepsUntouched | src/systems/spawn_system.rs:79-102 | spawning an enemy on the fresh id leaves every older entity's kinds, Position, box and PowerUp as they were |
| Spawn.PowerUpKeepsUntouched | src/systems/spawn_system.rs:104-139 | spawning a power-up on the fresh id leaves every older entity's kinds, Position, box and PowerUp as they were |
| Spawn.RunCoinComponents | src/systems/spawn_system.rs:54-77 | when the coin timer fires, the run's first new id (the old allocator) holds exactly Position at the coin draw, a 10×10 box, Coin and Collidable, untouched by the enemy and power-up spawned after it |
| Spawn.RunEnemyComponents | src/systems/spawn_system.rs:79-102 | when the enemy timer fires, the id after the coin's (if any) holds exactly Position at the enemy draw, a 20×20 box, Collidable and Enemy, untouched by a later power-up |
| Spawn.RunPowerUpComponents | src/systems/spawn_system.rs:104-139 | when the power-up timer fires, the id after the coin's and the enemy's holds exactly Position at its draw, a 10×10 box, Collidable and a PowerUp of the drawn type |
| Spawn.SpawnKeepsVelocities | src/systems/spawn_system.rs:26-34 | spawning never touches the Velocity storage |
| Spawn.SpawnKeepsCoinsScoresHealth | src/systems/spawn_system.rs:54-139 | spawning only adds: every coin stays a coin, and the Score and Health storages are unchanged |
| Game.Setup | src/main.rs:24-39 | builds the start world `Initial()`, which is `Valid`, and an 800×600 spawner with timers at 0 |
| Game.Tick | src/main.rs:61-63 | one frame is input, then physics, then spawn: the world becomes `TickSpec` and stays `Valid`, and the timers advance |
| Game.TickKeepsInvariants | src/main.rs:61-63 | a frame keeps the world well formed and anchored and adds one entity per firing timer |
| Game.IdleTickOnlySpawns | src/main.rs:61-63 | with no key pressed, a world at rest stays at rest and the frame only spawns |
| Game.QuietStart | src/main.rs:43-63 | for the first 49 idle frames the world stays the start world, and the timers count the frames |
| Game.FirstCoinOnFrameFifty | src/main.rs:43-63 | frame 50 adds exactly one coin at the drawn position and resets the coin timer |
| Game.InitialIsCollisionFree | src/entities.rs:6-48 | in the start world no player/coin or player/enemy pair overlaps, so a collision pass would leave Score at 0 and Health at 100 |
| Game.TickNeverRemovesCoins | src/main.rs:61-64 | no frame takes a Coin tag away or changes a Score or a Health, for any world, keys and draws |
| Game.FramesNeverRemoveCoins | src/main.rs:43-64 | however many frames run, with any keys and draws, every coin stays a coin and every Score and Health stays as it was |
| Game.OverlappingCoinIsNeverCollected | src/main.rs:61-64 | a coin on top of the player stays a coin after a frame, still overlapping, although `CollisionSpec` removes it |

## Left out

- Rendering (`src/systems/render_system.rs`): SDL drawing, not simulation.
- Loop plumbing in `src/main.rs`: SDL set-up, event polling, the Escape/quit
  handling and the 60 Hz sleep. The loop's system order is kept in `Game.Tick`,
  and the pressed keys enter as a parameter.
- Registration (`src/components.rs:53-63`, `src/resources.rs`,
  `src/systems/mod.rs`). `BoundingBox` and `Collidable` are used but not
  defined in `src/components.rs`, and `register_components` does not register
  them. The model declares them from their use: a `BoundingBox(width, height)`
  record and a Collidable tag set.
- The Obstacle tag: registered, but no system of the core reads or writes it.
- `specs` internals: join order is left arbitrary, not fixed. Storage kinds,
  the `insert(...).unwrap()` failure path and lazy entity maintenance become
  plain maps and sets plus a fresh-id allocator.
- Ecs.Allocate: ids are unbounded naturals, while `specs` indexes entities
  with a `u32`, so running out of entity ids cannot happen in the model.
- Floating point: positions, velocities and sizes are reals, and timers count
  tenths exactly. In binary32 arithmetic, fifty additions of `0.1` give
  4.9999976, so the coin timer first reaches 5.0 on run 51, and after each
  reset a coin comes every 51 runs. The enemy and power-up timers reach 10.0
  and 15.0 on runs 100 and 150, as counted. The model does not capture that
  shift.
- Spawn.FirstSpawnRuns: counts exact tenths, so the first coin comes on run 50;
  under binary32 it comes on run 51 (enemy 100 and power-up 150 are unaffected).
- Spawn.TimerCountsModulo: the coin timer's period is 50 runs with exact tenths
  and 51 runs under binary32.
- Spawn.FiresOnMultiples: the coin fires on multiples of 50 with exact tenths;
  under binary32 it fires on multiples of 51.
- Game.QuietStart: the quiet start lasts 49 frames with exact tenths; under
  binary32 it lasts 50.
- Game.FirstCoinOnFrameFifty: the first coin comes on frame 50 with exact
  tenths; under binary32 it comes on frame 51.
- Spawn.SpawnSystem.Run: the random draws (`gen_range`, `gen_bool`) are a
  parameter. Its precondition requires each position used this run to lie in
  the screen range. That also excludes the empty-range panic `gen_range`
  raises when the width or height is 0.
- Collision.ScoreGain: Score is an unbounded natural. The source's `u32 += 10`
  overflow is not modelled; it panics in debug builds and wraps in release
  builds.
- `println!` output (`src/systems/collision_system.rs:97`, `152`), the
  commented-out power-up effect (`src/systems/collision_system.rs:115-138`)
  and the unused `Duration`/`Instant` imports.
