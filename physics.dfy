/**
 * PhysicsSystem (src/systems/physics_system.rs): every entity holding both a
 * Position and a Velocity moves by five times its velocity.
 */
module Physics {
  import opened Components
  import opened Ecs

  /** The fixed speed scale applied to a velocity each tick. */
  const SpeedScale: real := 5.0

  /** One integration step of one entity. */
  function Step(p: Position, v: Velocity): Position {
    Position(p.x + v.dx * SpeedScale, p.y + v.dy * SpeedScale)
  }

  /** The world after one physics pass. */
  ghost function PhysicsSpec(s: WorldState): WorldState {
    s.(position := map e | e in s.position ::
                     if e in s.velocity then Step(s.position[e], s.velocity[e]) else s.position[e])
  }

  /** Each entity with Position and Velocity ends at x + 5·dx, y + 5·dy. */
  lemma MovesByFiveTimesVelocity(s: WorldState, e: Entity)
    requires e in s.position && e in s.velocity
    ensures e in PhysicsSpec(s).position
    ensures PhysicsSpec(s).position[e].x == s.position[e].x + 5.0 * s.velocity[e].dx
    ensures PhysicsSpec(s).position[e].y == s.position[e].y + 5.0 * s.velocity[e].dy
  {
  }

  /**
   * Only the Position table changes, it keeps its entities, and an entity
   * without a Velocity keeps its Position.
   */
  lemma OnlyMovingPositionsChange(s: WorldState)
    ensures PhysicsSpec(s).(position := s.position) == s
    ensures PhysicsSpec(s).position.Keys == s.position.Keys
    ensures forall e :: e in s.position && e !in s.velocity ==> PhysicsSpec(s).position[e] == s.position[e]
  {
  }

  /** A zero velocity leaves the position where it was. */
  lemma ZeroVelocityStaysPut(s: WorldState, e: Entity)
    requires e in s.position && e in s.velocity && s.velocity[e] == Velocity(0.0, 0.0)
    ensures PhysicsSpec(s).position[e] == s.position[e]
  {
  }

  /** A world whose velocities are all zero is a fixed point of the physics pass. */
  lemma AtRestIsFixedPoint(s: WorldState)
    requires forall e :: e in s.velocity ==> s.velocity[e] == Velocity(0.0, 0.0)
    ensures PhysicsSpec(s) == s
  {
    assert PhysicsSpec(s).position == s.position;
  }

  /**
   * Each entity's new position depends only on its own position and
   * velocity: two worlds that agree on those agree on where it ends.
   */
  lemma UpdateIsLocal(s: WorldState, t: WorldState, e: Entity)
    requires e in s.position && e in t.position && s.position[e] == t.position[e]
    requires (e in s.velocity <==> e in t.velocity)
    requires e in s.velocity ==> s.velocity[e] == t.velocity[e]
    ensures PhysicsSpec(s).position[e] == PhysicsSpec(t).position[e]
  {
  }

  /** The physics pass keeps a world well formed and anchored. */
  lemma PhysicsKeepsInvariants(s: WorldState)
    ensures WellFormed(s) ==> WellFormed(PhysicsSpec(s))
    ensures Anchored(s) ==> Anchored(PhysicsSpec(s))
  {
  }

  /**
   * `PhysicsSystem::run`: the join over (Position, Velocity) is visited in an
   * arbitrary order, and each visited position is updated in place.
   */
  method Run(w: World)
    modifies w`position
    ensures w.State() == PhysicsSpec(old(w.State()))
  {
    var todo := w.position.Keys * w.velocity.Keys;
    while todo != {}
      invariant w.position.Keys == old(w.position).Keys
      invariant forall e :: e in w.position ==>
        w.position[e] == if e in w.velocity && e !in todo then Step(old(w.position)[e], w.velocity[e])
                         else old(w.position)[e]
      decreases todo
    {
      var e :| e in todo;
      var p, v := w.position[e], w.velocity[e];
      w.position := w.position[e := Position(p.x + v.dx * SpeedScale, p.y + v.dy * SpeedScale)];
      todo := todo - {e};
    }
  }
}
