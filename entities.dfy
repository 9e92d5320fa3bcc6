/**
 * Construction of the three starting entities (src/entities.rs), and the
 * coin builder shared with the spawner: an initial coin and a spawned coin
 * carry the same component set and differ only in where they are placed.
 */
module Entities {
  import opened Components
  import opened Ecs

  const PlayerBox := BoundingBox(20.0, 20.0)
  const CoinBox := BoundingBox(10.0, 10.0)
  const EnemyBox := BoundingBox(20.0, 20.0)

  /** The world after `create_player`: the next id holds every player component. */
  function AddPlayer(s: WorldState): WorldState {
    var e := s.nextId;
    var a := Allocate(s);
    a.(position := a.position[e := Position(400.0, 300.0)],
       velocity := a.velocity[e := Velocity(0.0, 0.0)],
       boundingBox := a.boundingBox[e := PlayerBox],
       playerControlled := a.playerControlled + {e},
       collidable := a.collidable + {e},
       health := a.health[e := Health(100)],
       score := a.score[e := Score(0)])
  }

  /** The world after a coin is built at `p` (`create_initial_coin`, and the spawner's coin). */
  function AddCoin(s: WorldState, p: Position): WorldState {
    var e := s.nextId;
    var a := Allocate(s);
    a.(position := a.position[e := p],
       boundingBox := a.boundingBox[e := CoinBox],
       coin := a.coin + {e},
       collidable := a.collidable + {e})
  }

  /** The world after `create_initial_enemy`. */
  function AddInitialEnemy(s: WorldState): WorldState {
    var e := s.nextId;
    var a := Allocate(s);
    a.(position := a.position[e := Position(600.0, 100.0)],
       velocity := a.velocity[e := Velocity(0.0, 0.0)],
       boundingBox := a.boundingBox[e := EnemyBox],
       enemy := a.enemy + {e},
       collidable := a.collidable + {e},
       health := a.health[e := Health(30)])
  }

  /** The start state: player, coin and enemy created in that order on an empty world. */
  function Initial(): WorldState {
    AddInitialEnemy(AddCoin(AddPlayer(Empty()), Position(200.0, 200.0)))
  }

  /** `create_player` allocates a fresh id and keeps the world well formed and anchored. */
  lemma PlayerIsFresh(s: WorldState)
    requires WellFormed(s)
    ensures s.nextId !in s.live && AddPlayer(s).live == s.live + {s.nextId}
    ensures WellFormed(AddPlayer(s)) && (Anchored(s) ==> Anchored(AddPlayer(s)))
  {
    AllocateIsFresh(s);
  }

  /**
   * The player holds exactly Position (400,300), Velocity (0,0), a 20×20 box,
   * PlayerControlled, Collidable, Health 100 and Score 0.
   */
  lemma PlayerComponents(s: WorldState)
    requires WellFormed(s)
    ensures HoldsExactly(AddPlayer(s), s.nextId, {PositionKind, VelocityKind, BoundingBoxKind, PlayerControlledKind, CollidableKind, HealthKind, ScoreKind})
    ensures var r, e := AddPlayer(s), s.nextId;
      && r.position[e] == Position(400.0, 300.0) && r.velocity[e] == Velocity(0.0, 0.0)
      && r.boundingBox[e] == BoundingBox(20.0, 20.0)
      && r.health[e] == Health(100) && r.score[e] == Score(0)
  {
    AllocateIsFresh(s);
    var r, e := AddPlayer(s), s.nextId;
    forall k
      ensures Has(r, e, k) <==> k in {PositionKind, VelocityKind, BoundingBoxKind, PlayerControlledKind, CollidableKind, HealthKind, ScoreKind}
    {
      match k
      case PowerUpKind => assert e !in r.powerUp;
      case CoinKind => assert e !in r.coin;
      case EnemyKind => assert e !in r.enemy;
      case _ =>
    }
  }

  /** Apart from the new player and the allocator, nothing in the world changes. */
  lemma PlayerChangesNothingElse(s: WorldState)
    requires WellFormed(s)
    ensures Forget(AddPlayer(s), s.nextId) == s.(nextId := s.nextId + 1)
  {
    ForgetUnallocated(s);
    assert Forget(AddPlayer(s), s.nextId) == Forget(s, s.nextId).(nextId := s.nextId + 1);
  }

  /** Building a coin allocates a fresh id and keeps the world well formed and anchored. */
  lemma CoinIsFresh(s: WorldState, p: Position)
    requires WellFormed(s)
    ensures s.nextId !in s.live && AddCoin(s, p).live == s.live + {s.nextId}
    ensures WellFormed(AddCoin(s, p)) && (Anchored(s) ==> Anchored(AddCoin(s, p)))
  {
    AllocateIsFresh(s);
  }

  /** A coin holds exactly Position `p`, a 10×10 box, Coin and Collidable: no Velocity, Health or Score. */
  lemma CoinComponents(s: WorldState, p: Position)
    requires WellFormed(s)
    ensures HoldsExactly(AddCoin(s, p), s.nextId, {PositionKind, BoundingBoxKind, CoinKind, CollidableKind})
    ensures AddCoin(s, p).position[s.nextId] == p
    ensures AddCoin(s, p).boundingBox[s.nextId] == BoundingBox(10.0, 10.0)
  {
    AllocateIsFresh(s);
  }

  /** Apart from the new coin and the allocator, nothing in the world changes. */
  lemma CoinChangesNothingElse(s: WorldState, p: Position)
    requires WellFormed(s)
    ensures Forget(AddCoin(s, p), s.nextId) == s.(nextId := s.nextId + 1)
  {
    ForgetUnallocated(s);
    assert Forget(AddCoin(s, p), s.nextId) == Forget(s, s.nextId).(nextId := s.nextId + 1);
  }

  /** `create_initial_enemy` allocates a fresh id and keeps the world well formed and anchored. */
  lemma InitialEnemyIsFresh(s: WorldState)
    requires WellFormed(s)
    ensures s.nextId !in s.live && AddInitialEnemy(s).live == s.live + {s.nextId}
    ensures WellFormed(AddInitialEnemy(s)) && (Anchored(s) ==> Anchored(AddInitialEnemy(s)))
  {
    AllocateIsFresh(s);
  }

  /**
   * The initial enemy holds exactly Position (600,100), Velocity (0,0), a 20×20
   * box, Enemy, Collidable and Health 30: no Score.
   */
  lemma InitialEnemyComponents(s: WorldState)
    requires WellFormed(s)
    ensures HoldsExactly(AddInitialEnemy(s), s.nextId, {PositionKind, VelocityKind, BoundingBoxKind, EnemyKind, CollidableKind, HealthKind})
    ensures var r, e := AddInitialEnemy(s), s.nextId;
      && r.position[e] == Position(600.0, 100.0) && r.velocity[e] == Velocity(0.0, 0.0)
      && r.boundingBox[e] == BoundingBox(20.0, 20.0) && r.health[e] == Health(30)
  {
    AllocateIsFresh(s);
    var r, e := AddInitialEnemy(s), s.nextId;
    forall k
      ensures Has(r, e, k) <==> k in {PositionKind, VelocityKind, BoundingBoxKind, EnemyKind, CollidableKind, HealthKind}
    {
      match k
      case ScoreKind => assert e !in r.score;
      case PowerUpKind => assert e !in r.powerUp;
      case PlayerControlledKind => assert e !in r.playerControlled;
      case CoinKind => assert e !in r.coin;
      case _ =>
    }
  }

  /** Apart from the new enemy and the allocator, nothing in the world changes. */
  lemma InitialEnemyChangesNothingElse(s: WorldState)
    requires WellFormed(s)
    ensures Forget(AddInitialEnemy(s), s.nextId) == s.(nextId := s.nextId + 1)
  {
    ForgetUnallocated(s);
    assert Forget(AddInitialEnemy(s), s.nextId) == Forget(s, s.nextId).(nextId := s.nextId + 1);
  }

  /** The start world holds the player as entity 0, the coin as 1 and the enemy as 2, and nothing else. */
  lemma InitialWorldShape()
    ensures var s := Initial();
      && s.live == {0, 1, 2} && s.nextId == 3 && WellFormed(s) && Anchored(s)
      && s.playerControlled == {0} && s.coin == {1} && s.enemy == {2} && s.powerUp == map[]
      && s.collidable == {0, 1, 2} && s.score == map[0 := Score(0)]
      && s.health == map[0 := Health(100), 2 := Health(30)]
      && s.position == map[0 := Position(400.0, 300.0), 1 := Position(200.0, 200.0), 2 := Position(600.0, 100.0)]
      && s.velocity == map[0 := Velocity(0.0, 0.0), 2 := Velocity(0.0, 0.0)]
  {
  }

  /** `create_player`. */
  method CreatePlayer(w: World) returns (e: Entity)
    modifies w
    ensures e == old(w.nextId)
    ensures w.State() == AddPlayer(old(w.State()))
  {
    e := w.CreateEntity();
    w.position := w.position[e := Position(400.0, 300.0)];
    w.velocity := w.velocity[e := Velocity(0.0, 0.0)];
    w.boundingBox := w.boundingBox[e := PlayerBox];
    w.playerControlled := w.playerControlled + {e};
    w.collidable := w.collidable + {e};
    w.health := w.health[e := Health(100)];
    w.score := w.score[e := Score(0)];
  }

  /** Builds a coin at `p`: `create_initial_coin` uses (200,200), the spawner a random spot. */
  method CreateCoin(w: World, p: Position) returns (e: Entity)
    modifies w
    ensures e == old(w.nextId)
    ensures w.State() == AddCoin(old(w.State()), p)
  {
    e := w.CreateEntity();
    w.position := w.position[e := p];
    w.boundingBox := w.boundingBox[e := CoinBox];
    w.collidable := w.collidable + {e};
    w.coin := w.coin + {e};
  }

  /** `create_initial_coin`. */
  method CreateInitialCoin(w: World) returns (e: Entity)
    modifies w
    ensures e == old(w.nextId)
    ensures w.State() == AddCoin(old(w.State()), Position(200.0, 200.0))
  {
    e := CreateCoin(w, Position(200.0, 200.0));
  }

  /** `create_initial_enemy`. */
  method CreateInitialEnemy(w: World) returns (e: Entity)
    modifies w
    ensures e == old(w.nextId)
    ensures w.State() == AddInitialEnemy(old(w.State()))
  {
    e := w.CreateEntity();
    w.position := w.position[e := Position(600.0, 100.0)];
    w.velocity := w.velocity[e := Velocity(0.0, 0.0)];
    w.boundingBox := w.boundingBox[e := EnemyBox];
    w.enemy := w.enemy + {e};
    w.collidable := w.collidable + {e};
    w.health := w.health[e := Health(30)];
  }
}
