/**
 * Component values and tags of the coin-rush entity–component world
 * (the struct shapes of src/components.rs).  Coordinates and sizes are
 * reals instead of f32; integer counters are unbounded naturals.
 */
module Components {

  /** An entity is an opaque identifier handed out by the world's allocator. */
  type Entity = nat

  datatype Option<T> = None | Some(value: T)

  /** World-space top-left anchor of an entity's box. */
  datatype Position = Position(x: real, y: real)

  /** Per-tick displacement intent. */
  datatype Velocity = Velocity(dx: real, dy: real)

  /** Axis-aligned extent anchored at the entity's Position. */
  datatype BoundingBox = BoundingBox(width: real, height: real)

  datatype Health = Health(value: nat)

  datatype Score = Score(value: nat)

  /** A collectable boost; `powerType` is "health" or "speed" for spawned ones. */
  datatype PowerUp = PowerUp(powerType: string)

  /** Keyboard scancodes: the four the game binds, and every other key. */
  datatype Scancode = W | A | S | D | Other(code: nat)

  /** The kinds of component an entity can hold, used to state "exactly these components". */
  datatype Kind =
    | PositionKind | VelocityKind | BoundingBoxKind | HealthKind | ScoreKind | PowerUpKind
    | PlayerControlledKind | CoinKind | EnemyKind | CollidableKind
}
