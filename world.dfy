/**
 * The entity store and its component tables.  The value tables are maps from
 * entity to component, the tag tables are sets of entities; `nextId` is the
 * fresh-identifier allocator.
 */
module Ecs {
  import opened Components

  /** The abstract value of a world: every storage at once. */
  datatype WorldState = WorldState(
    live: set<Entity>,
    nextId: nat,
    position: map<Entity, Position>,
    velocity: map<Entity, Velocity>,
    boundingBox: map<Entity, BoundingBox>,
    health: map<Entity, Health>,
    score: map<Entity, Score>,
    powerUp: map<Entity, PowerUp>,
    playerControlled: set<Entity>,
    coin: set<Entity>,
    enemy: set<Entity>,
    collidable: set<Entity>)

  /** A world with no entity in it. */
  function Empty(): WorldState
  {
    WorldState({}, 0, map[], map[], map[], map[], map[], map[], {}, {}, {}, {})
  }

  /** Every live id is below the allocator and no table holds a dead entity. */
  ghost predicate WellFormed(s: WorldState) {
    && (forall e :: e in s.live ==> e < s.nextId)
    && s.position.Keys <= s.live && s.velocity.Keys <= s.live && s.boundingBox.Keys <= s.live
    && s.health.Keys <= s.live && s.score.Keys <= s.live && s.powerUp.Keys <= s.live
    && s.playerControlled <= s.live && s.coin <= s.live && s.enemy <= s.live
    && s.collidable <= s.live
  }

  /**
   * The anchoring rule every constructor and system keeps: whatever moves, has a box or
   * carries a tag also has a Position, and a Collidable has a box too.
   */
  ghost predicate Anchored(s: WorldState) {
    && s.velocity.Keys <= s.position.Keys && s.boundingBox.Keys <= s.position.Keys
    && s.playerControlled <= s.position.Keys && s.coin <= s.position.Keys
    && s.enemy <= s.position.Keys
    && s.collidable <= s.position.Keys && s.collidable <= s.boundingBox.Keys
  }

  /** `Entities::create`: the next identifier becomes live. */
  function Allocate(s: WorldState): WorldState
  {
    s.(live := s.live + {s.nextId}, nextId := s.nextId + 1)
  }

  /** The allocator hands out an identifier no live entity and no table uses, and keeps the world well formed. */
  lemma AllocateIsFresh(s: WorldState)
    requires WellFormed(s)
    ensures s.nextId !in s.live
    ensures s.nextId !in s.position && s.nextId !in s.velocity && s.nextId !in s.boundingBox
    ensures s.nextId !in s.health && s.nextId !in s.score && s.nextId !in s.powerUp
    ensures s.nextId !in s.playerControlled && s.nextId !in s.coin && s.nextId !in s.enemy
    ensures s.nextId !in s.collidable
    ensures WellFormed(Allocate(s)) && |Allocate(s).live| == |s.live| + 1
  {
  }

  /** Whether entity `e` holds a component of kind `k` in `s`. */
  predicate Has(s: WorldState, e: Entity, k: Kind) {
    match k
    case PositionKind => e in s.position
    case VelocityKind => e in s.velocity
    case BoundingBoxKind => e in s.boundingBox
    case HealthKind => e in s.health
    case ScoreKind => e in s.score
    case PowerUpKind => e in s.powerUp
    case PlayerControlledKind => e in s.playerControlled
    case CoinKind => e in s.coin
    case EnemyKind => e in s.enemy
    case CollidableKind => e in s.collidable
  }

  /** Entity `e` holds components of exactly the kinds in `kinds`. */
  ghost predicate HoldsExactly(s: WorldState, e: Entity, kinds: set<Kind>) {
    forall k :: Has(s, e, k) <==> k in kinds
  }

  /** The world with entity `e` and every component of it taken out. */
  function Forget(s: WorldState, e: Entity): (r: WorldState)
  {
    s.(live := s.live - {e}, position := s.position - {e}, velocity := s.velocity - {e},
       boundingBox := s.boundingBox - {e}, health := s.health - {e}, score := s.score - {e},
       powerUp := s.powerUp - {e}, playerControlled := s.playerControlled - {e},
       coin := s.coin - {e}, enemy := s.enemy - {e}, collidable := s.collidable - {e})
  }

  /** In a well-formed world, forgetting the not-yet-allocated id changes nothing. */
  lemma ForgetUnallocated(s: WorldState)
    requires WellFormed(s)
    ensures Forget(s, s.nextId) == s
  {
    var e := s.nextId;
    AllocateIsFresh(s);
    RemoveAbsentTag(s.live, e);
    RemoveAbsent(s.position, e, Position(0.0, 0.0));
    RemoveAbsent(s.velocity, e, Velocity(0.0, 0.0));
    RemoveAbsent(s.boundingBox, e, BoundingBox(0.0, 0.0));
    RemoveAbsent(s.health, e, Health(0));
    RemoveAbsent(s.score, e, Score(0));
    RemoveAbsent(s.powerUp, e, PowerUp(""));
    RemoveAbsentTag(s.playerControlled, e);
    RemoveAbsentTag(s.coin, e);
    RemoveAbsentTag(s.enemy, e);
    RemoveAbsentTag(s.collidable, e);
  }

  /** Removing a tag that an entity does not hold leaves the storage as it was. */
  lemma RemoveAbsentTag(tags: set<Entity>, e: Entity)
    requires e !in tags
    ensures tags - {e} == tags
  {
  }

  /** Removing a component that an entity does not hold leaves the storage as it was. */
  lemma RemoveAbsent<V>(m: map<Entity, V>, e: Entity, v: V)
    requires e !in m
    ensures m - {e} == m
  {
  }

  /** The world: one mutable table per component plus the entity allocator. */
  class World {
    var live: set<Entity>
    var nextId: nat
    var position: map<Entity, Position>
    var velocity: map<Entity, Velocity>
    var boundingBox: map<Entity, BoundingBox>
    var health: map<Entity, Health>
    var score: map<Entity, Score>
    var powerUp: map<Entity, PowerUp>
    var playerControlled: set<Entity>
    var coin: set<Entity>
    var enemy: set<Entity>
    var collidable: set<Entity>

    /** The value of every storage at once. */
    function State(): WorldState
      reads this
    {
      WorldState(live, nextId, position, velocity, boundingBox, health, score, powerUp,
                 playerControlled, coin, enemy, collidable)
    }

    /** The invariant every constructor and system keeps: the world is well formed and anchored. */
    ghost predicate Valid()
      reads this
    {
      WellFormed(State()) && Anchored(State())
    }

    constructor ()
      ensures State() == Empty() && Valid()
    {
      live, nextId := {}, 0;
      position, velocity, boundingBox := map[], map[], map[];
      health, score, powerUp := map[], map[], map[];
      playerControlled, coin, enemy, collidable := {}, {}, {}, {};
    }

    /** Allocates a fresh entity id and makes it live. */
    method CreateEntity() returns (e: Entity)
      modifies this
      ensures e == old(nextId)
      ensures State() == Allocate(old(State()))
    {
      e := nextId;
      live := live + {e};
      nextId := nextId + 1;
    }
  }
}
