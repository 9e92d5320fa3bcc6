/**
 * The game loop of src/main.rs, without SDL: the world is built with the
 * player, the first coin and the first enemy, and each frame runs the input
 * pass, the physics pass and the spawner, in that order.  The loop never
 * runs the collision pass.
 */
module Game {
  import opened Components
  import opened Ecs
  import opened Entities
  import Input
  import Physics
  import Spawn
  import Collision

  /** The window size the spawner is created with. */
  const ScreenWidth: nat := 800
  const ScreenHeight: nat := 600

  /** The world after one frame with the pressed keys `keys`, the spawner's timers `t` and the draws `d`. */
  ghost function TickSpec(s: WorldState, t: Spawn.Timers, keys: seq<Option<Scancode>>, d: Spawn.Draws): WorldState {
    Spawn.SpawnSpec(Physics.PhysicsSpec(Input.InputSpec(s, keys)), t, d)
  }

  /** The world is built and the spawner created, as before the loop starts. */
  method Setup() returns (w: World, spawner: Spawn.SpawnSystem)
    ensures fresh(w) && fresh(spawner)
    ensures w.State() == Initial() && w.Valid()
    ensures spawner.screenWidth == ScreenWidth && spawner.screenHeight == ScreenHeight
    ensures spawner.CurrentTimers() == Spawn.Timers(0, 0, 0)
  {
    w := new World();
    var player := CreatePlayer(w);
    var coin := CreateInitialCoin(w);
    var enemy := CreateInitialEnemy(w);
    spawner := new Spawn.SpawnSystem(ScreenWidth, ScreenHeight);
    InitialWorldShape();
  }

  /** One frame of the loop: input, physics, spawn (rendering is not modelled). */
  method Tick(w: World, spawner: Spawn.SpawnSystem, keys: seq<Option<Scancode>>, d: Spawn.Draws)
    requires Spawn.DrawsInRange(spawner.CurrentTimers(), d, spawner.screenWidth, spawner.screenHeight)
    requires w.Valid()
    modifies w, spawner`coinTimer, spawner`enemyTimer, spawner`powerUpTimer
    ensures w.Valid()
    ensures w.State() == TickSpec(old(w.State()), old(spawner.CurrentTimers()), keys, d)
    ensures spawner.CurrentTimers() == Spawn.NextTimers(old(spawner.CurrentTimers()))
  {
    TickKeepsInvariants(w.State(), spawner.CurrentTimers(), keys, d);
    Input.Run(w, keys);
    Physics.Run(w);
    spawner.Run(w, d);
  }

  // ---------------------------------------------------------------------------
  // Properties of a frame

  /** A frame keeps a world well formed and anchored, and adds one entity per firing timer. */
  lemma TickKeepsInvariants(s: WorldState, t: Spawn.Timers, keys: seq<Option<Scancode>>, d: Spawn.Draws)
    requires WellFormed(s)
    ensures WellFormed(TickSpec(s, t, keys, d))
    ensures Anchored(s) ==> Anchored(TickSpec(s, t, keys, d))
    ensures |TickSpec(s, t, keys, d).live| == |s.live| + Spawn.FiringCount(t)
  {
    var s1 := Input.InputSpec(s, keys);
    Input.InputKeepsInvariants(s, keys);
    Input.InputTouchesOnlyPlayerVelocities(s, keys);
    var s2 := Physics.PhysicsSpec(s1);
    Physics.PhysicsKeepsInvariants(s1);
    Physics.OnlyMovingPositionsChange(s1);
    Spawn.SpawnCreatesOnePerFiringTimer(s2, t, d);
  }

  /** Every velocity is zero. */
  ghost predicate AtRest(s: WorldState) {
    forall e :: e in s.velocity ==> s.velocity[e] == Velocity(0.0, 0.0)
  }

  /** With no key pressed, a world at rest stays where it is: the frame only spawns. */
  lemma IdleTickOnlySpawns(s: WorldState, t: Spawn.Timers, d: Spawn.Draws)
    requires AtRest(s)
    ensures TickSpec(s, t, [], d) == Spawn.SpawnSpec(s, t, d)
    ensures AtRest(TickSpec(s, t, [], d))
  {
    assert Input.KeyVelocity([]) == Velocity(0.0, 0.0);
    assert Input.InputSpec(s, []).velocity == s.velocity;
    Physics.AtRestIsFixedPoint(s);
    Spawn.SpawnKeepsVelocities(s, t, d);
  }

  /** The world and timers after `n` frames from the start with no key pressed and the draws `d`. */
  ghost function Idle(n: nat, d: Spawn.Draws): (WorldState, Spawn.Timers) {
    if n == 0 then (Initial(), Spawn.Timers(0, 0, 0))
    else
      var (s, t) := Idle(n - 1, d);
      (TickSpec(s, t, [], d), Spawn.NextTimers(t))
  }

  /** The start world is at rest. */
  lemma InitialAtRest()
    ensures AtRest(Initial())
  {
    InitialWorldShape();
  }

  /** For the first 49 idle frames nothing moves and nothing spawns; the timers count the frames. */
  lemma {:induction false} QuietStart(n: nat, d: Spawn.Draws)
    requires n < 50
    ensures Idle(n, d) == (Initial(), Spawn.Timers(n, n, n))
  {
    if n > 0 {
      QuietStart(n - 1, d);
      InitialAtRest();
      IdleTickOnlySpawns(Initial(), Spawn.Timers(n - 1, n - 1, n - 1), d);
    }
  }

  /** The fiftieth idle frame spawns the first new coin, and nothing else happens. */
  lemma FirstCoinOnFrameFifty(d: Spawn.Draws)
    ensures Idle(50, d) == (AddCoin(Initial(), d.coinAt), Spawn.Timers(0, 50, 50))
  {
    QuietStart(49, d);
    InitialAtRest();
    IdleTickOnlySpawns(Initial(), Spawn.Timers(49, 49, 49), d);
  }

  // ---------------------------------------------------------------------------
  // The collision pass and the loop

  /** In the start world the player is the only tester, the coin and the enemy the only targets. */
  lemma InitialGroups()
    ensures Collision.Players(Initial()) == {0}
    ensures Collision.Coins(Initial()) == {1}
    ensures Collision.Enemies(Initial()) == {2}
    ensures Collision.PowerUps(Initial()) == {}
  {
    InitialWorldShape();
  }

  /** In the start world the player touches neither the coin nor the enemy. */
  lemma InitialContacts()
    ensures !Collision.Hit(Initial(), 0, 1) && !Collision.Hit(Initial(), 0, 2)
  {
    InitialWorldShape();
  }

  /** Nothing overlaps in the start world, so a collision pass would change nothing. */
  lemma InitialIsCollisionFree()
    ensures Collision.CollisionSpec(Initial()) == Initial()
  {
    InitialGroups();
    InitialContacts();
    Collision.NoContactNoChange(Initial());
  }

  /**
   * Since no frame runs the collision pass, a frame never takes a Coin tag
   * away and never changes a Score or a Health.
   */
  lemma TickNeverRemovesCoins(s: WorldState, t: Spawn.Timers, keys: seq<Option<Scancode>>, d: Spawn.Draws)
    ensures s.coin <= TickSpec(s, t, keys, d).coin
    ensures TickSpec(s, t, keys, d).score == s.score
    ensures TickSpec(s, t, keys, d).health == s.health
  {
    var s1 := Input.InputSpec(s, keys);
    Input.InputTouchesOnlyPlayerVelocities(s, keys);
    Physics.OnlyMovingPositionsChange(s1);
    Spawn.SpawnKeepsCoinsScoresHealth(Physics.PhysicsSpec(s1), t, d);
  }

  /** The input of one frame: the key entries of the event queue and the spawner's draws. */
  datatype FrameInput = FrameInput(keys: seq<Option<Scancode>>, draws: Spawn.Draws)

  /** The world and timers after running one frame per element of `inputs`, from `s` and `t`. */
  ghost function Frames(s: WorldState, t: Spawn.Timers, inputs: seq<FrameInput>): (WorldState, Spawn.Timers)
    decreases |inputs|
  {
    if inputs == [] then (s, t)
    else Frames(TickSpec(s, t, inputs[0].keys, inputs[0].draws), Spawn.NextTimers(t), inputs[1..])
  }

  /** However many frames run, and whatever their keys and draws, no coin is collected and no Score or Health changes. */
  lemma {:induction false} FramesNeverRemoveCoins(s: WorldState, t: Spawn.Timers, inputs: seq<FrameInput>)
    ensures s.coin <= Frames(s, t, inputs).0.coin
    ensures Frames(s, t, inputs).0.score == s.score
    ensures Frames(s, t, inputs).0.health == s.health
    decreases |inputs|
  {
    if inputs != [] {
      TickNeverRemovesCoins(s, t, inputs[0].keys, inputs[0].draws);
      FramesNeverRemoveCoins(TickSpec(s, t, inputs[0].keys, inputs[0].draws), Spawn.NextTimers(t), inputs[1..]);
    }
  }

  /** The start world with one more coin dropped exactly where the player stands. */
  function CoinOnPlayer(): WorldState {
    AddCoin(Initial(), Position(400.0, 300.0))
  }

  /** In that world the player (entity 0) overlaps the new coin (entity 3), and nothing moves. */
  lemma CoinOnPlayerShape()
    ensures 0 in Collision.Players(CoinOnPlayer()) && 3 in Collision.Coins(CoinOnPlayer())
    ensures Collision.Hit(CoinOnPlayer(), 0, 3)
    ensures AtRest(CoinOnPlayer())
  {
    InitialWorldShape();
    CoinIsFresh(Initial(), Position(400.0, 300.0));
    CoinComponents(Initial(), Position(400.0, 300.0));
  }

  /**
   * Because the loop does not run the collision pass, a coin placed on top of
   * the player is never collected: after an idle frame it is still a coin,
   * still on the player, although a collision pass would have removed it.
   */
  lemma OverlappingCoinIsNeverCollected(d: Spawn.Draws)
    ensures 3 !in Collision.CollisionSpec(CoinOnPlayer()).coin
    ensures 3 in TickSpec(CoinOnPlayer(), Spawn.Timers(0, 0, 0), [], d).coin
    ensures Collision.Hit(TickSpec(CoinOnPlayer(), Spawn.Timers(0, 0, 0), [], d), 0, 3)
  {
    var s := CoinOnPlayer();
    CoinOnPlayerShape();
    Collision.CoinPickup(s, 3);
    IdleTickOnlySpawns(s, Spawn.Timers(0, 0, 0), d);
    Spawn.QuietRunChangesNothing(s, Spawn.Timers(0, 0, 0), d);
  }
}
