/**
 * PlayerInputSystem (src/systems/input_system.rs): every player-controlled
 * entity's velocity is reset to zero and then shifted by one unit per
 * directional key entry: W up, S down, A left, D right.
 */
module Input {
  import opened Components
  import opened Ecs

  /** The effect of one key entry on a velocity; empty entries and unbound keys have none. */
  function ApplyKey(v: Velocity, key: Option<Scancode>): Velocity {
    match key
    case Some(W) => v.(dy := v.dy - 1.0)
    case Some(S) => v.(dy := v.dy + 1.0)
    case Some(A) => v.(dx := v.dx - 1.0)
    case Some(D) => v.(dx := v.dx + 1.0)
    case _ => v
  }

  /** The velocity reached from `v` by applying the key entries in order. */
  function Accumulate(v: Velocity, keys: seq<Option<Scancode>>): Velocity
    decreases |keys|
  {
    if keys == [] then v else ApplyKey(Accumulate(v, keys[..|keys| - 1]), keys[|keys| - 1])
  }

  /** The velocity every player-controlled entity ends with. */
  function KeyVelocity(keys: seq<Option<Scancode>>): Velocity {
    Accumulate(Velocity(0.0, 0.0), keys)
  }

  /** How many entries of `keys` are the key `k`. */
  function Presses(keys: seq<Option<Scancode>>, k: Scancode): real {
    multiset(keys)[Some(k)] as real
  }

  /** The world after one input pass. */
  ghost function InputSpec(s: WorldState, keys: seq<Option<Scancode>>): WorldState {
    s.(velocity := map e | e in s.velocity ::
                     if e in s.playerControlled then KeyVelocity(keys) else s.velocity[e])
  }

  /** Accumulating from `v` adds #D − #A to dx and #S − #W to dy. */
  lemma {:induction false} AccumulateCounts(v: Velocity, keys: seq<Option<Scancode>>)
    ensures Accumulate(v, keys)
         == Velocity(v.dx + Presses(keys, D) - Presses(keys, A), v.dy + Presses(keys, S) - Presses(keys, W))
  {
    if keys != [] {
      var init, last := keys[..|keys| - 1], keys[|keys| - 1];
      assert keys == init + [last];
      assert multiset(keys) == multiset(init) + multiset{last};
      AccumulateCounts(v, init);
    }
  }

  /** The final velocity is (#D − #A, #S − #W). */
  lemma KeyVelocityCounts(keys: seq<Option<Scancode>>)
    ensures KeyVelocity(keys) == Velocity(Presses(keys, D) - Presses(keys, A), Presses(keys, S) - Presses(keys, W))
  {
    AccumulateCounts(Velocity(0.0, 0.0), keys);
  }

  /** Opposite keys cancel: as many W as S entries give dy = 0, as many A as D give dx = 0. */
  lemma OppositeKeysCancel(keys: seq<Option<Scancode>>)
    ensures Presses(keys, W) == Presses(keys, S) ==> KeyVelocity(keys).dy == 0.0
    ensures Presses(keys, A) == Presses(keys, D) ==> KeyVelocity(keys).dx == 0.0
  {
    KeyVelocityCounts(keys);
  }

  /** W together with S gives no vertical motion; A together with D none horizontally. */
  lemma PressingBothCancels()
    ensures KeyVelocity([Some(W), Some(S)]).dy == 0.0
    ensures KeyVelocity([Some(A), Some(D)]).dx == 0.0
    ensures KeyVelocity([Some(D), Some(S)]) == Velocity(1.0, 1.0)
  {
    assert [Some(W), Some(S)][..1] == [Some(W)];
    assert KeyVelocity([Some(W)]) == Velocity(0.0, -1.0);
    assert [Some(A), Some(D)][..1] == [Some(A)];
    assert KeyVelocity([Some(A)]) == Velocity(-1.0, 0.0);
    assert [Some(D), Some(S)][..1] == [Some(D)];
  }

  /** Empty entries and keys other than W, A, S, D leave a velocity unchanged. */
  lemma IgnoredEntries(v: Velocity, key: Option<Scancode>)
    requires key.None? || key.value.Other?
    ensures ApplyKey(v, key) == v
  {
  }

  /** The order of the key entries does not matter, only how often each appears. */
  lemma KeyOrderIrrelevant(keys: seq<Option<Scancode>>, other: seq<Option<Scancode>>)
    requires multiset(keys) == multiset(other)
    ensures KeyVelocity(keys) == KeyVelocity(other)
  {
    KeyVelocityCounts(keys);
    KeyVelocityCounts(other);
  }

  /**
   * Only Velocity changes; an entity without PlayerControlled keeps its
   * velocity, and a player-controlled one gets the key velocity regardless of
   * what it had before.
   */
  lemma InputTouchesOnlyPlayerVelocities(s: WorldState, keys: seq<Option<Scancode>>)
    ensures InputSpec(s, keys).(velocity := s.velocity) == s
    ensures InputSpec(s, keys).velocity.Keys == s.velocity.Keys
    ensures forall e :: e in s.velocity && e !in s.playerControlled ==> InputSpec(s, keys).velocity[e] == s.velocity[e]
    ensures forall e :: e in s.velocity && e in s.playerControlled ==> InputSpec(s, keys).velocity[e] == KeyVelocity(keys)
  {
  }

  /** The input pass keeps a world well formed and anchored. */
  lemma InputKeepsInvariants(s: WorldState, keys: seq<Option<Scancode>>)
    ensures WellFormed(s) ==> WellFormed(InputSpec(s, keys))
    ensures Anchored(s) ==> Anchored(InputSpec(s, keys))
  {
  }

  /** The inner key loop: applies every key entry to entity `e`'s stored velocity in place. */
  method ApplyKeys(w: World, e: Entity, keys: seq<Option<Scancode>>)
    requires e in w.velocity
    modifies w`velocity
    ensures w.velocity == old(w.velocity)[e := Accumulate(old(w.velocity)[e], keys)]
  {
    for i := 0 to |keys|
      invariant w.velocity == old(w.velocity)[e := Accumulate(old(w.velocity)[e], keys[..i])]
    {
      assert keys[..i + 1][..i] == keys[..i];
      var v := w.velocity[e];
      match keys[i]
      case Some(W) => w.velocity := w.velocity[e := v.(dy := v.dy - 1.0)];
      case Some(S) => w.velocity := w.velocity[e := v.(dy := v.dy + 1.0)];
      case Some(A) => w.velocity := w.velocity[e := v.(dx := v.dx - 1.0)];
      case Some(D) => w.velocity := w.velocity[e := v.(dx := v.dx + 1.0)];
      case _ =>
    }
    assert keys[..|keys|] == keys;
  }

  /** `PlayerInputSystem::run`: the (Velocity, PlayerControlled) join in arbitrary order. */
  method Run(w: World, keys: seq<Option<Scancode>>)
    modifies w`velocity
    ensures w.State() == InputSpec(old(w.State()), keys)
  {
    var todo := w.velocity.Keys * w.playerControlled;
    while todo != {}
      invariant w.velocity.Keys == old(w.velocity).Keys
      invariant forall e :: e in w.velocity ==>
        w.velocity[e] == if e in w.playerControlled && e !in todo then KeyVelocity(keys) else old(w.velocity)[e]
      decreases todo
    {
      var e :| e in todo;
      w.velocity := w.velocity[e := Velocity(0.0, 0.0)];
      ApplyKeys(w, e, keys);
      todo := todo - {e};
    }
  }
}
