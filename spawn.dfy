/**
 * SpawnSystem (src/systems/spawn_system.rs): three independent timers, one
 * per kind of spawned entity.  Timers count tenths of a simulated second, so
 * each run adds 1 and the thresholds 5.0, 10.0 and 15.0 become 50, 100 and
 * 150.  The random placement and power-up kind are supplied as a `Draws`
 * value.
 */
module Spawn {
  import opened Components
  import opened Ecs
  import opened Entities

  const CoinThreshold: nat := 50
  const EnemyThreshold: nat := 100
  const PowerUpThreshold: nat := 150

  const SpawnedEnemyBox := BoundingBox(20.0, 20.0)
  const PowerUpBox := BoundingBox(10.0, 10.0)

  datatype Timers = Timers(coin: nat, enemy: nat, powerUp: nat)

  /** The random values one run may consume: three placements and the power-up coin flip. */
  datatype Draws = Draws(coinAt: Position, enemyAt: Position, powerUpAt: Position, healthKind: bool)

  /** A timer at `t` reaches `threshold` once this run's tenth is added. */
  predicate Fires(t: nat, threshold: nat) {
    t + 1 >= threshold
  }

  /** A timer's value after one run: advanced by one tenth, reset to zero when it fires. */
  function Advance(t: nat, threshold: nat): nat {
    if Fires(t, threshold) then 0 else t + 1
  }

  /** The three timers after one run; each moves on its own. */
  function NextTimers(t: Timers): Timers {
    Timers(Advance(t.coin, CoinThreshold), Advance(t.enemy, EnemyThreshold), Advance(t.powerUp, PowerUpThreshold))
  }

  /** `p` lies in [0, width) × [0, height), the range `gen_range` draws from. */
  predicate OnScreen(p: Position, width: nat, height: nat) {
    0.0 <= p.x < width as real && 0.0 <= p.y < height as real
  }

  /** Every placement this run will use was drawn from the screen range. */
  predicate DrawsInRange(t: Timers, d: Draws, width: nat, height: nat) {
    && (Fires(t.coin, CoinThreshold) ==> OnScreen(d.coinAt, width, height))
    && (Fires(t.enemy, EnemyThreshold) ==> OnScreen(d.enemyAt, width, height))
    && (Fires(t.powerUp, PowerUpThreshold) ==> OnScreen(d.powerUpAt, width, height))
  }

  /** The `power_type` chosen by the coin flip. */
  function PowerTypeOf(healthKind: bool): string {
    if healthKind then "health" else "speed"
  }

  /** The world after a spawned enemy at `p`: Position, a 20×20 box, Collidable and Enemy. */
  function AddSpawnedEnemy(s: WorldState, p: Position): WorldState {
    var e := s.nextId;
    var a := Allocate(s);
    a.(position := a.position[e := p],
       boundingBox := a.boundingBox[e := SpawnedEnemyBox],
       collidable := a.collidable + {e},
       enemy := a.enemy + {e})
  }

  /** The world after a spawned power-up at `p`: Position, a 10×10 box, Collidable and PowerUp. */
  function AddPowerUp(s: WorldState, p: Position, healthKind: bool): WorldState {
    var e := s.nextId;
    var a := Allocate(s);
    a.(position := a.position[e := p],
       boundingBox := a.boundingBox[e := PowerUpBox],
       collidable := a.collidable + {e},
       powerUp := a.powerUp[e := PowerUp(PowerTypeOf(healthKind))])
  }

  /** The world after one run: coin, then enemy, then power-up, each only if its timer fires. */
  ghost function SpawnSpec(s: WorldState, t: Timers, d: Draws): WorldState {
    var s1 := if Fires(t.coin, CoinThreshold) then AddCoin(s, d.coinAt) else s;
    var s2 := if Fires(t.enemy, EnemyThreshold) then AddSpawnedEnemy(s1, d.enemyAt) else s1;
    if Fires(t.powerUp, PowerUpThreshold) then AddPowerUp(s2, d.powerUpAt, d.healthKind) else s2
  }

  /** How many timers fire this run. */
  function FiringCount(t: Timers): nat {
    (if Fires(t.coin, CoinThreshold) then 1 else 0)
    + (if Fires(t.enemy, EnemyThreshold) then 1 else 0)
    + (if Fires(t.powerUp, PowerUpThreshold) then 1 else 0)
  }

  // ---------------------------------------------------------------------------
  // Timing

  /** A timer's value after `n` runs from zero. */
  function TimerAfter(n: nat, threshold: nat): nat {
    if n == 0 then 0 else Advance(TimerAfter(n - 1, threshold), threshold)
  }

  /** Helpers: Euclidean division has a unique remainder, and how the remainder steps. */
  lemma MulAtLeast(k: int, th: nat)
    requires k >= 1
    ensures k * th >= th
  {
  }
  lemma ModUnique(a: nat, q: nat, r: nat, th: nat)
    requires th > 0 && a == q * th + r && r < th
    ensures a % th == r
  {
    var q' := a / th;
    var r' := a % th;
    assert a == q' * th + r';
    if q' < q {
      var d := q - q';
      assert q * th == q' * th + d * th;
      MulAtLeast(d, th);
    } else if q' > q {
      var d := q' - q;
      assert q' * th == q * th + d * th;
      MulAtLeast(d, th);
    }
  }
  lemma ModSucc(a: nat, th: nat)
    requires th > 0
    ensures (a + 1) % th == if a % th + 1 == th then 0 else a % th + 1
  {
    var q := a / th;
    if a % th + 1 == th {
      assert a + 1 == (q + 1) * th;
      ModUnique(a + 1, q + 1, 0, th);
    } else {
      ModUnique(a + 1, q, a % th + 1, th);
    }
  }
  /** Started at zero, a timer counts the runs modulo its threshold. */
  lemma {:induction false} TimerCountsModulo(n: nat, threshold: nat)
    requires threshold > 0
    ensures TimerAfter(n, threshold) == n % threshold
  {
    if n > 0 {
      TimerCountsModulo(n - 1, threshold);
      var r := (n - 1) % threshold;
      assert TimerAfter(n, threshold) == Advance(r, threshold);
      ModSucc(n - 1, threshold);
    }
  }

  /** Run number n + 1 (counted from one) spawns exactly when n + 1 is a multiple of the threshold. */
  lemma FiresOnMultiples(n: nat, threshold: nat)
    requires threshold > 0
    ensures Fires(TimerAfter(n, threshold), threshold) <==> (n + 1) % threshold == 0
  {
    TimerCountsModulo(n, threshold);
    ModSucc(n, threshold);
  }

  /** A timer started at zero first fires on run number `threshold`, and not before. */
  lemma FirstFiring(n: nat, threshold: nat)
    requires threshold > 0
    ensures n + 1 < threshold ==> !Fires(TimerAfter(n, threshold), threshold)
    ensures n + 1 == threshold ==> Fires(TimerAfter(n, threshold), threshold)
  {
    FiresOnMultiples(n, threshold);
    if n + 1 < threshold {
      ModUnique(n + 1, 0, n + 1, threshold);
    } else if n + 1 == threshold {
      ModUnique(n + 1, 1, 0, threshold);
    }
  }

  /** The first coin, enemy and power-up appear on runs 50, 100 and 150, and not before. */
  lemma FirstSpawnRuns(n: nat)
    ensures n + 1 < 50 ==> !Fires(TimerAfter(n, CoinThreshold), CoinThreshold)
    ensures n + 1 == 50 ==> Fires(TimerAfter(n, CoinThreshold), CoinThreshold)
    ensures n + 1 < 100 ==> !Fires(TimerAfter(n, EnemyThreshold), EnemyThreshold)
    ensures n + 1 == 100 ==> Fires(TimerAfter(n, EnemyThreshold), EnemyThreshold)
    ensures n + 1 < 150 ==> !Fires(TimerAfter(n, PowerUpThreshold), PowerUpThreshold)
    ensures n + 1 == 150 ==> Fires(TimerAfter(n, PowerUpThreshold), PowerUpThreshold)
  {
    FirstFiring(n, CoinThreshold);
    FirstFiring(n, EnemyThreshold);
    FirstFiring(n, PowerUpThreshold);
  }

  // ---------------------------------------------------------------------------
  // What a run creates

  /** Spawning never gives anything a Velocity: the Velocity table is unchanged. */
  lemma SpawnKeepsVelocities(s: WorldState, t: Timers, d: Draws)
    ensures SpawnSpec(s, t, d).velocity == s.velocity
  {
    var s1 := if Fires(t.coin, CoinThreshold) then AddCoin(s, d.coinAt) else s;
    assert s1.velocity == s.velocity;
    var s2 := if Fires(t.enemy, EnemyThreshold) then AddSpawnedEnemy(s1, d.enemyAt) else s1;
    assert s2.velocity == s.velocity;
    var s3 := if Fires(t.powerUp, PowerUpThreshold) then AddPowerUp(s2, d.powerUpAt, d.healthKind) else s2;
    assert s3.velocity == s.velocity;
    assert SpawnSpec(s, t, d) == s3;
  }

  /** Spawning only adds: every coin stays a coin, and the Score and Health tables are left as they were. */
  lemma SpawnKeepsCoinsScoresHealth(s: WorldState, t: Timers, d: Draws)
    ensures s.coin <= SpawnSpec(s, t, d).coin
    ensures SpawnSpec(s, t, d).score == s.score && SpawnSpec(s, t, d).health == s.health
  {
    var s1 := if Fires(t.coin, CoinThreshold) then AddCoin(s, d.coinAt) else s;
    assert s.coin <= s1.coin && s1.score == s.score && s1.health == s.health;
    var s2 := if Fires(t.enemy, EnemyThreshold) then AddSpawnedEnemy(s1, d.enemyAt) else s1;
    assert s1.coin <= s2.coin && s2.score == s.score && s2.health == s.health;
    var s3 := if Fires(t.powerUp, PowerUpThreshold) then AddPowerUp(s2, d.powerUpAt, d.healthKind) else s2;
    assert s2.coin <= s3.coin && s3.score == s.score && s3.health == s.health;
    assert SpawnSpec(s, t, d) == s3;
  }

  /** Entity `x` has in `r` the component kinds it had in `s`, with the same Position, BoundingBox and PowerUp. */
  ghost predicate Untouched(s: WorldState, r: WorldState, x: Entity) {
    && (forall k :: Has(r, x, k) <==> Has(s, x, k))
    && (x in s.position ==> x in r.position && r.position[x] == s.position[x])
    && (x in s.boundingBox ==> x in r.boundingBox && r.boundingBox[x] == s.boundingBox[x])
    && (x in s.powerUp ==> x in r.powerUp && r.powerUp[x] == s.powerUp[x])
  }

  /** Building a coin on a fresh id leaves an untouched older entity untouched. */
  lemma CoinKeepsUntouched(s: WorldState, r: WorldState, p: Position, x: Entity)
    requires x != r.nextId && Untouched(s, r, x)
    ensures Untouched(s, AddCoin(r, p), x)
  {
    forall k ensures Has(AddCoin(r, p), x, k) <==> Has(r, x, k) {
    }
  }

  /** Spawning an enemy on a fresh id leaves an untouched older entity untouched. */
  lemma EnemyKeepsUntouched(s: WorldState, r: WorldState, p: Position, x: Entity)
    requires x != r.nextId && Untouched(s, r, x)
    ensures Untouched(s, AddSpawnedEnemy(r, p), x)
  {
    forall k ensures Has(AddSpawnedEnemy(r, p), x, k) <==> Has(r, x, k) {
    }
  }

  /** Spawning a power-up on a fresh id leaves an untouched older entity untouched. */
  lemma PowerUpKeepsUntouched(s: WorldState, r: WorldState, p: Position, healthKind: bool, x: Entity)
    requires x != r.nextId && Untouched(s, r, x)
    ensures Untouched(s, AddPowerUp(r, p, healthKind), x)
  {
    forall k ensures Has(AddPowerUp(r, p, healthKind), x, k) <==> Has(r, x, k) {
    }
  }

  /**
   * A run leaves every entity that existed before it alone: the same component
   * kinds, and the same Position, BoundingBox and PowerUp values.  The spawner
   * sets a Position only when it creates an entity, and never changes a box.
   */
  lemma SpawnKeepsExisting(s: WorldState, t: Timers, d: Draws, x: Entity)
    requires x < s.nextId
    ensures Untouched(s, SpawnSpec(s, t, d), x)
  {
    assert Untouched(s, s, x);
    var s1 := if Fires(t.coin, CoinThreshold) then AddCoin(s, d.coinAt) else s;
    if Fires(t.coin, CoinThreshold) {
      CoinKeepsUntouched(s, s, d.coinAt, x);
    }
    assert x < s1.nextId;
    var s2 := if Fires(t.enemy, EnemyThreshold) then AddSpawnedEnemy(s1, d.enemyAt) else s1;
    if Fires(t.enemy, EnemyThreshold) {
      EnemyKeepsUntouched(s, s1, d.enemyAt, x);
    }
    assert x < s2.nextId;
    var s3 := if Fires(t.powerUp, PowerUpThreshold) then AddPowerUp(s2, d.powerUpAt, d.healthKind) else s2;
    if Fires(t.powerUp, PowerUpThreshold) {
      PowerUpKeepsUntouched(s, s2, d.powerUpAt, d.healthKind, x);
    }
    assert SpawnSpec(s, t, d) == s3;
  }

  /** When no timer fires, no entity is created and no storage changes. */
  lemma QuietRunChangesNothing(s: WorldState, t: Timers, d: Draws)
    requires FiringCount(t) == 0
    ensures SpawnSpec(s, t, d) == s
  {
  }

  /** A spawned enemy is the one fresh entity the step creates; the world stays well formed and anchored. */
  lemma SpawnedEnemyIsFresh(s: WorldState, p: Position)
    requires WellFormed(s)
    ensures s.nextId !in s.live && AddSpawnedEnemy(s, p).live == s.live + {s.nextId}
    ensures AddSpawnedEnemy(s, p).nextId == s.nextId + 1
    ensures WellFormed(AddSpawnedEnemy(s, p)) && (Anchored(s) ==> Anchored(AddSpawnedEnemy(s, p)))
  {
    AllocateIsFresh(s);
  }

  /** A power-up is the one fresh entity the step creates; the world stays well formed and anchored. */
  lemma PowerUpIsFresh(s: WorldState, p: Position, healthKind: bool)
    requires WellFormed(s)
    ensures s.nextId !in s.live && AddPowerUp(s, p, healthKind).live == s.live + {s.nextId}
    ensures AddPowerUp(s, p, healthKind).nextId == s.nextId + 1
    ensures WellFormed(AddPowerUp(s, p, healthKind)) && (Anchored(s) ==> Anchored(AddPowerUp(s, p, healthKind)))
  {
    AllocateIsFresh(s);
  }

  /** The facts each step of a run preserves, for `r` reached from `s` by `k` spawns. */
  ghost predicate GrownBy(s: WorldState, r: WorldState, k: nat) {
    && WellFormed(r) && (Anchored(s) ==> Anchored(r))
    && r.nextId == s.nextId + k
    && s.live <= r.live && |r.live| == |s.live| + k
    && (forall e :: e in r.live - s.live ==> s.nextId <= e < r.nextId)
  }

  /** One more fresh entity after `k` spawns makes `k + 1`. */
  lemma GrownByStep(s: WorldState, r: WorldState, k: nat, r': WorldState)
    requires GrownBy(s, r, k) && WellFormed(r') && (Anchored(r) ==> Anchored(r'))
    requires r.nextId !in r.live && r'.live == r.live + {r.nextId} && r'.nextId == r.nextId + 1
    ensures GrownBy(s, r', k + 1)
  {
    forall e | e in r'.live - s.live
      ensures s.nextId <= e < r'.nextId
    {
      if e in r.live {
        assert e in r.live - s.live;
      }
    }
  }

  /** Each firing timer creates exactly one fresh entity; the world stays well formed and anchored. */
  lemma SpawnCreatesOnePerFiringTimer(s: WorldState, t: Timers, d: Draws)
    requires WellFormed(s)
    ensures GrownBy(s, SpawnSpec(s, t, d), FiringCount(t))
  {
    assert GrownBy(s, s, 0);
    var k1: nat := if Fires(t.coin, CoinThreshold) then 1 else 0;
    var s1 := if Fires(t.coin, CoinThreshold) then AddCoin(s, d.coinAt) else s;
    if Fires(t.coin, CoinThreshold) {
      CoinIsFresh(s, d.coinAt);
      GrownByStep(s, s, 0, s1);
    }
    assert GrownBy(s, s1, k1);
    var k2: nat := k1 + if Fires(t.enemy, EnemyThreshold) then 1 else 0;
    var s2 := if Fires(t.enemy, EnemyThreshold) then AddSpawnedEnemy(s1, d.enemyAt) else s1;
    if Fires(t.enemy, EnemyThreshold) {
      SpawnedEnemyIsFresh(s1, d.enemyAt);
      GrownByStep(s, s1, k1, s2);
    }
    assert GrownBy(s, s2, k2);
    if Fires(t.powerUp, PowerUpThreshold) {
      PowerUpIsFresh(s2, d.powerUpAt, d.healthKind);
      GrownByStep(s, s2, k2, AddPowerUp(s2, d.powerUpAt, d.healthKind));
    }
  }

  /** Every spawned entity is placed inside the screen. */
  lemma SpawnedOnScreen(s: WorldState, t: Timers, d: Draws, width: nat, height: nat)
    requires DrawsInRange(t, d, width, height)
    ensures PlacedOnScreen(s, SpawnSpec(s, t, d), width, height)
  {
    assert PlacedOnScreen(s, s, width, height);
    var s1 := if Fires(t.coin, CoinThreshold) then AddCoin(s, d.coinAt) else s;
    if Fires(t.coin, CoinThreshold) {
      CoinOnScreen(s, s, d.coinAt, width, height);
    }
    var s2 := if Fires(t.enemy, EnemyThreshold) then AddSpawnedEnemy(s1, d.enemyAt) else s1;
    if Fires(t.enemy, EnemyThreshold) {
      EnemyOnScreen(s, s1, d.enemyAt, width, height);
    }
    if Fires(t.powerUp, PowerUpThreshold) {
      PowerUpOnScreen(s, s2, d.powerUpAt, d.healthKind, width, height);
    }
  }

  /** Every entity of `r` that `s` does not have sits on the screen. */
  ghost predicate PlacedOnScreen(s: WorldState, r: WorldState, width: nat, height: nat) {
    forall e :: e in r.live && e !in s.live ==> e in r.position && OnScreen(r.position[e], width, height)
  }

  /** A coin placed at an on-screen `p` keeps every new entity on the screen. */
  lemma CoinOnScreen(s: WorldState, r: WorldState, p: Position, width: nat, height: nat)
    requires PlacedOnScreen(s, r, width, height) && OnScreen(p, width, height)
    ensures PlacedOnScreen(s, AddCoin(r, p), width, height)
  {
  }

  /** An enemy placed at an on-screen `p` keeps every new entity on the screen. */
  lemma EnemyOnScreen(s: WorldState, r: WorldState, p: Position, width: nat, height: nat)
    requires PlacedOnScreen(s, r, width, height) && OnScreen(p, width, height)
    ensures PlacedOnScreen(s, AddSpawnedEnemy(r, p), width, height)
  {
  }

  /** A power-up placed at an on-screen `p` keeps every new entity on the screen. */
  lemma PowerUpOnScreen(s: WorldState, r: WorldState, p: Position, healthKind: bool, width: nat, height: nat)
    requires PlacedOnScreen(s, r, width, height) && OnScreen(p, width, height)
    ensures PlacedOnScreen(s, AddPowerUp(r, p, healthKind), width, height)
  {
  }

  /** An empty screen admits no placement, so a run whose timer fires needs width and height above zero. */
  lemma EmptyScreenHasNoPlacement(p: Position, width: nat, height: nat)
    requires width == 0 || height == 0
    ensures !OnScreen(p, width, height)
  {
  }

  /** A spawned enemy holds exactly Position, a 20×20 box, Collidable and Enemy: no Health, no Velocity. */
  lemma SpawnedEnemyComponents(s: WorldState, p: Position)
    requires WellFormed(s)
    ensures HoldsExactly(AddSpawnedEnemy(s, p), s.nextId, {PositionKind, BoundingBoxKind, CollidableKind, EnemyKind})
    ensures AddSpawnedEnemy(s, p).position[s.nextId] == p
    ensures AddSpawnedEnemy(s, p).boundingBox[s.nextId] == BoundingBox(20.0, 20.0)
  {
    AllocateIsFresh(s);
  }

  /**
   * A spawned power-up holds exactly Position, a 10×10 box, Collidable and a
   * PowerUp whose kind is "health" or "speed", as the coin flip says.
   */
  lemma PowerUpComponents(s: WorldState, p: Position, healthKind: bool)
    requires WellFormed(s)
    ensures HoldsExactly(AddPowerUp(s, p, healthKind), s.nextId, {PositionKind, BoundingBoxKind, CollidableKind, PowerUpKind})
    ensures AddPowerUp(s, p, healthKind).position[s.nextId] == p
    ensures AddPowerUp(s, p, healthKind).boundingBox[s.nextId] == BoundingBox(10.0, 10.0)
    ensures AddPowerUp(s, p, healthKind).powerUp[s.nextId].powerType in {"health", "speed"}
    ensures AddPowerUp(s, p, healthKind).powerUp[s.nextId].powerType == "health" <==> healthKind
  {
    AllocateIsFresh(s);
  }

  /** The components of the coin a run spawns: the next id, Position at its draw, a 10×10 box, Coin and Collidable. */
  lemma RunCoinComponents(s: WorldState, t: Timers, d: Draws)
    requires WellFormed(s) && Fires(t.coin, CoinThreshold)
    ensures var r, e := SpawnSpec(s, t, d), s.nextId;
      && HoldsExactly(r, e, {PositionKind, BoundingBoxKind, CoinKind, CollidableKind})
      && e in r.position && r.position[e] == d.coinAt
      && e in r.boundingBox && r.boundingBox[e] == BoundingBox(10.0, 10.0)
  {
    var s1 := AddCoin(s, d.coinAt);
    CoinIsFresh(s, d.coinAt);
    CoinComponents(s, d.coinAt);
    assert Untouched(s1, s1, s.nextId);
    var s2 := if Fires(t.enemy, EnemyThreshold) then AddSpawnedEnemy(s1, d.enemyAt) else s1;
    if Fires(t.enemy, EnemyThreshold) {
      EnemyKeepsUntouched(s1, s1, d.enemyAt, s.nextId);
    }
    if Fires(t.powerUp, PowerUpThreshold) {
      PowerUpKeepsUntouched(s1, s2, d.powerUpAt, d.healthKind, s.nextId);
    }
  }

  /** The components of the enemy a run spawns: the id after the coin's, Position at its draw, a 20×20 box, Collidable and Enemy. */
  lemma RunEnemyComponents(s: WorldState, t: Timers, d: Draws)
    requires WellFormed(s) && Fires(t.enemy, EnemyThreshold)
    ensures var r, e := SpawnSpec(s, t, d), s.nextId + (if Fires(t.coin, CoinThreshold) then 1 else 0);
      && HoldsExactly(r, e, {PositionKind, BoundingBoxKind, CollidableKind, EnemyKind})
      && e in r.position && r.position[e] == d.enemyAt
      && e in r.boundingBox && r.boundingBox[e] == BoundingBox(20.0, 20.0)
  {
    var s1 := if Fires(t.coin, CoinThreshold) then AddCoin(s, d.coinAt) else s;
    if Fires(t.coin, CoinThreshold) {
      CoinIsFresh(s, d.coinAt);
    }
    var s2 := AddSpawnedEnemy(s1, d.enemyAt);
    SpawnedEnemyComponents(s1, d.enemyAt);
    assert Untouched(s2, s2, s1.nextId);
    if Fires(t.powerUp, PowerUpThreshold) {
      PowerUpKeepsUntouched(s2, s2, d.powerUpAt, d.healthKind, s1.nextId);
    }
  }

  /** The components of the power-up a run spawns: the id after those of the coin and the enemy, at its draw, with the drawn type. */
  lemma RunPowerUpComponents(s: WorldState, t: Timers, d: Draws)
    requires WellFormed(s) && Fires(t.powerUp, PowerUpThreshold)
    ensures var r, e := SpawnSpec(s, t, d), s.nextId + (if Fires(t.coin, CoinThreshold) then 1 else 0)
                                                     + (if Fires(t.enemy, EnemyThreshold) then 1 else 0);
      && HoldsExactly(r, e, {PositionKind, BoundingBoxKind, CollidableKind, PowerUpKind})
      && e in r.position && r.position[e] == d.powerUpAt
      && e in r.boundingBox && r.boundingBox[e] == BoundingBox(10.0, 10.0)
      && e in r.powerUp && r.powerUp[e] == PowerUp(PowerTypeOf(d.healthKind))
  {
    var s1 := if Fires(t.coin, CoinThreshold) then AddCoin(s, d.coinAt) else s;
    if Fires(t.coin, CoinThreshold) {
      CoinIsFresh(s, d.coinAt);
    }
    var s2 := if Fires(t.enemy, EnemyThreshold) then AddSpawnedEnemy(s1, d.enemyAt) else s1;
    if Fires(t.enemy, EnemyThreshold) {
      SpawnedEnemyIsFresh(s1, d.enemyAt);
    }
    PowerUpComponents(s2, d.powerUpAt, d.healthKind);
  }

  /** Creates a spawned enemy at `p` in `w`. */
  method CreateSpawnedEnemy(w: World, p: Position) returns (e: Entity)
    modifies w
    ensures e == old(w.nextId) && w.State() == AddSpawnedEnemy(old(w.State()), p)
  {
    e := w.CreateEntity();
    w.position := w.position[e := p];
    w.boundingBox := w.boundingBox[e := SpawnedEnemyBox];
    w.collidable := w.collidable + {e};
    w.enemy := w.enemy + {e};
  }

  /** Creates a power-up at `p` in `w`, of kind "health" when `healthKind` holds and "speed" otherwise. */
  method CreatePowerUp(w: World, p: Position, healthKind: bool) returns (e: Entity)
    modifies w
    ensures e == old(w.nextId) && w.State() == AddPowerUp(old(w.State()), p, healthKind)
  {
    e := w.CreateEntity();
    w.position := w.position[e := p];
    w.boundingBox := w.boundingBox[e := PowerUpBox];
    w.collidable := w.collidable + {e};
    w.powerUp := w.powerUp[e := PowerUp(PowerTypeOf(healthKind))];
  }

  /** The spawner: screen size and the three timers, in tenths. */
  class SpawnSystem {
    var screenWidth: nat
    var screenHeight: nat
    var coinTimer: nat
    var enemyTimer: nat
    var powerUpTimer: nat

    function CurrentTimers(): Timers
      reads this
    {
      Timers(coinTimer, enemyTimer, powerUpTimer)
    }

    /** `SpawnSystem::new`: records the screen size, all timers at zero. */
    constructor (screenWidth: nat, screenHeight: nat)
      ensures this.screenWidth == screenWidth && this.screenHeight == screenHeight
      ensures CurrentTimers() == Timers(0, 0, 0)
    {
      this.screenWidth, this.screenHeight := screenWidth, screenHeight;
      coinTimer, enemyTimer, powerUpTimer := 0, 0, 0;
    }

    /** `SpawnSystem::run`: advance the timers, then spawn for each one that fired. */
    method Run(w: World, d: Draws)
      requires DrawsInRange(CurrentTimers(), d, screenWidth, screenHeight)
      modifies this`coinTimer, this`enemyTimer, this`powerUpTimer, w
      ensures CurrentTimers() == NextTimers(old(CurrentTimers()))
      ensures w.State() == SpawnSpec(old(w.State()), old(CurrentTimers()), d)
    {
      coinTimer := coinTimer + 1;
      enemyTimer := enemyTimer + 1;
      powerUpTimer := powerUpTimer + 1;

      if coinTimer >= CoinThreshold {
        coinTimer := 0;
        var coin := CreateCoin(w, d.coinAt);
      }

      if enemyTimer >= EnemyThreshold {
        enemyTimer := 0;
        var enemy := CreateSpawnedEnemy(w, d.enemyAt);
      }

      if powerUpTimer >= PowerUpThreshold {
        powerUpTimer := 0;
        var powerUp := CreatePowerUp(w, d.powerUpAt, d.healthKind);
      }
    }
  }
}
