/**
 * CollisionSystem (src/systems/collision_system.rs).  Four groups are
 * snapshotted (players, enemies, coins, power-ups); every player is tested
 * against every member of the other three groups; Score is awarded eagerly
 * to every Score holder on each coin hit, while coin removals, health
 * penalties and power-up removals are queued and committed afterwards.
 */
module Collision {
  import opened Components
  import opened Ecs

  /** Points added to every Score per detected (player, coin) overlap. */
  const CoinReward: nat := 10
  /** Health taken from a player per overlapping enemy, saturating at zero. */
  const EnemyDamage: nat := 10

  /** `check_collision`: the two boxes overlap; touching edges do not count. */
  predicate CheckCollision(pos1: Position, box1: BoundingBox, pos2: Position, box2: BoundingBox) {
    var left1, right1, top1, bottom1 := pos1.x, pos1.x + box1.width, pos1.y, pos1.y + box1.height;
    var left2, right2, top2, bottom2 := pos2.x, pos2.x + box2.width, pos2.y, pos2.y + box2.height;
    !(right1 <= left2 || left1 >= right2 || bottom1 <= top2 || top1 >= bottom2)
  }

  /** The overlap test does not depend on the order of its arguments. */
  lemma CheckCollisionSymmetric(pos1: Position, box1: BoundingBox, pos2: Position, box2: BoundingBox)
    ensures CheckCollision(pos1, box1, pos2, box2) == CheckCollision(pos2, box2, pos1, box1)
  {
  }

  /** Boxes that only touch along an edge do not collide. */
  lemma EdgeContactIsNoCollision(pos1: Position, box1: BoundingBox, pos2: Position, box2: BoundingBox)
    requires || pos2.x == pos1.x + box1.width || pos1.x == pos2.x + box2.width
             || pos2.y == pos1.y + box1.height || pos1.y == pos2.y + box2.height
    ensures !CheckCollision(pos1, box1, pos2, box2)
  {
  }

  /** The point (x, y) lies strictly inside the box anchored at `p`. */
  ghost predicate Inside(x: real, y: real, p: Position, b: BoundingBox) {
    p.x < x < p.x + b.width && p.y < y < p.y + b.height
  }

  function Max(a: real, b: real): real { if a < b then b else a }
  function Min(a: real, b: real): real { if a < b then a else b }

  /** For boxes of positive size, colliding means sharing an interior point. */
  lemma CollisionIffCommonInteriorPoint(pos1: Position, box1: BoundingBox, pos2: Position, box2: BoundingBox)
    requires box1.width > 0.0 && box1.height > 0.0 && box2.width > 0.0 && box2.height > 0.0
    ensures CheckCollision(pos1, box1, pos2, box2)
        <==> exists x, y :: Inside(x, y, pos1, box1) && Inside(x, y, pos2, box2)
  {
    if CheckCollision(pos1, box1, pos2, box2) {
      var x := (Max(pos1.x, pos2.x) + Min(pos1.x + box1.width, pos2.x + box2.width)) / 2.0;
      var y := (Max(pos1.y, pos2.y) + Min(pos1.y + box1.height, pos2.y + box2.height)) / 2.0;
      assert Inside(x, y, pos1, box1) && Inside(x, y, pos2, box2);
    }
  }

  /** The player group: live entities with Position, BoundingBox, Velocity, PlayerControlled and Collidable. */
  function Players(s: WorldState): set<Entity> {
    set e | e in s.live && e in s.position && e in s.boundingBox && e in s.velocity
                        && e in s.playerControlled && e in s.collidable
  }

  /** The enemy group: live entities with Position, BoundingBox, Enemy and Collidable. */
  function Enemies(s: WorldState): set<Entity> {
    set e | e in s.live && e in s.position && e in s.boundingBox && e in s.enemy && e in s.collidable
  }

  /** The coin group: live entities with Position, BoundingBox, Coin and Collidable. */
  function Coins(s: WorldState): set<Entity> {
    set e | e in s.live && e in s.position && e in s.boundingBox && e in s.coin && e in s.collidable
  }

  /** The power-up group: live entities with Position, BoundingBox, PowerUp and Collidable. */
  function PowerUps(s: WorldState): set<Entity> {
    set e | e in s.live && e in s.position && e in s.boundingBox && e in s.powerUp && e in s.collidable
  }

  /** Entity `a` is a different entity from `b` and their boxes overlap. */
  predicate Hit(s: WorldState, a: Entity, b: Entity) {
    && a != b && a in s.position && a in s.boundingBox && b in s.position && b in s.boundingBox
    && CheckCollision(s.position[a], s.boundingBox[a], s.position[b], s.boundingBox[b])
  }

  /** The members of `group` that player `p` hits. */
  ghost function HitsOf(s: WorldState, p: Entity, group: set<Entity>): set<Entity> {
    set x | x in group && Hit(s, p, x)
  }

  /** The members of `group` that some entity of `ps` hits. */
  ghost function HitBy(s: WorldState, ps: set<Entity>, group: set<Entity>): set<Entity> {
    set x | x in group && exists p :: p in ps && Hit(s, p, x)
  }

  /** The overlapping (tester, member) pairs with the tester in `ps` and the member in `group`. */
  ghost function PairsFrom(s: WorldState, ps: set<Entity>, group: set<Entity>): set<(Entity, Entity)> {
    set p, x | p in ps && x in group && Hit(s, p, x) :: (p, x)
  }

  /** The enemies overlapping entity `e`, if `e` acts as a player; none otherwise. */
  ghost function EnemyHits(s: WorldState, e: Entity): set<Entity> {
    if e in Players(s) then HitsOf(s, e, Enemies(s)) else {}
  }

  /** `u32::saturating_sub`. */
  function SatSub(h: nat, d: nat): nat {
    if h >= d then h - d else 0
  }

  /** Every Score raised by `k`. */
  function AddToAll(m: map<Entity, Score>, k: nat): map<Entity, Score> {
    map e | e in m :: Score(m[e].value + k)
  }

  /** The world after one collision pass. */
  ghost function CollisionSpec(s: WorldState): WorldState {
    s.(coin := s.coin - HitBy(s, Players(s), Coins(s)),
       powerUp := s.powerUp - HitBy(s, Players(s), PowerUps(s)),
       score := AddToAll(s.score, CoinReward * |PairsFrom(s, Players(s), Coins(s))|),
       health := map e | e in s.health :: Health(SatSub(s.health[e].value, EnemyDamage * |EnemyHits(s, e)|)))
  }

  // ---------------------------------------------------------------------------
  // Properties of the collision pass

  /**
   * A coin overlapping some player loses its Coin tag and keeps Position,
   * BoundingBox and Collidable; every other Coin tag stays.
   */
  lemma CoinPickup(s: WorldState, c: Entity)
    ensures c in CollisionSpec(s).coin
        <==> c in s.coin && !(c in Coins(s) && exists p :: p in Players(s) && Hit(s, p, c))
    ensures CollisionSpec(s).position == s.position && CollisionSpec(s).boundingBox == s.boundingBox
    ensures CollisionSpec(s).collidable == s.collidable
  {
  }

  /** A power-up overlapping some player loses its PowerUp component; every other PowerUp stays as it was. */
  lemma PowerUpPickup(s: WorldState, u: Entity)
    ensures u in CollisionSpec(s).powerUp
        <==> u in s.powerUp && !(u in PowerUps(s) && exists p :: p in Players(s) && Hit(s, p, u))
    ensures u in CollisionSpec(s).powerUp ==> CollisionSpec(s).powerUp[u] == s.powerUp[u]
  {
  }

  /**
   * Every Score holder, not only the colliding player, gains exactly 10 per
   * overlapping (player, coin) pair.
   */
  lemma ScoreGain(s: WorldState, e: Entity)
    requires e in s.score
    ensures e in CollisionSpec(s).score
    ensures CollisionSpec(s).score[e].value == s.score[e].value + 10 * |PairsFrom(s, Players(s), Coins(s))|
    ensures CollisionSpec(s).score.Keys == s.score.Keys
  {
  }

  /**
   * Each Health ends at max(0, h − 10·k), with k the number of enemies
   * overlapping that entity as a player; non-players keep their Health.
   */
  lemma HealthLoss(s: WorldState, e: Entity)
    requires e in s.health
    ensures e in CollisionSpec(s).health
    ensures CollisionSpec(s).health[e].value as int
         == if s.health[e].value - 10 * |EnemyHits(s, e)| < 0 then 0 else s.health[e].value - 10 * |EnemyHits(s, e)|
    ensures e !in Players(s) ==> CollisionSpec(s).health[e] == s.health[e]
    ensures CollisionSpec(s).health.Keys == s.health.Keys
  {
  }

  /**
   * Coins, power-ups and health change as described above; Position,
   * BoundingBox, Velocity, the tags other than Coin, and the live set do
   * not change.  In particular a power-up pickup has no Health or Velocity
   * effect.
   */
  lemma CollisionTouchesOnlyCoinsPowerUpsScoresHealth(s: WorldState)
    ensures CollisionSpec(s).(coin := s.coin, powerUp := s.powerUp, score := s.score, health := s.health) == s
  {
  }

  /** When no player touches a coin, an enemy or a power-up, the pass changes nothing. */
  lemma NoContactNoChange(s: WorldState)
    requires forall p, x :: p in Players(s) && x in Coins(s) ==> !Hit(s, p, x)
    requires forall p, x :: p in Players(s) && x in Enemies(s) ==> !Hit(s, p, x)
    requires forall p, x :: p in Players(s) && x in PowerUps(s) ==> !Hit(s, p, x)
    ensures CollisionSpec(s) == s
  {
    assert HitBy(s, Players(s), Coins(s)) == {};
    assert HitBy(s, Players(s), PowerUps(s)) == {};
    assert PairsFrom(s, Players(s), Coins(s)) == {};
    assert AddToAll(s.score, 0) == s.score;
    assert forall e :: EnemyHits(s, e) == {};
    assert CollisionSpec(s).health == s.health;
  }

  /** No entity collides with itself. */
  lemma NoSelfHit(s: WorldState, e: Entity)
    ensures !Hit(s, e, e)
  {
  }

  /**
   * The groups that decide the pairs are not changed by the commit phase:
   * players and enemies are the same afterwards, and the coin and power-up
   * groups only lose the collected ones.
   */
  lemma GroupsAfterCommit(s: WorldState)
    ensures Players(CollisionSpec(s)) == Players(s) && Enemies(CollisionSpec(s)) == Enemies(s)
    ensures Coins(CollisionSpec(s)) == Coins(s) - HitBy(s, Players(s), Coins(s))
    ensures PowerUps(CollisionSpec(s)) == PowerUps(s) - HitBy(s, Players(s), PowerUps(s))
  {
  }

  /** The collision pass keeps a world well formed and anchored. */
  lemma CollisionKeepsInvariants(s: WorldState)
    ensures WellFormed(s) ==> WellFormed(CollisionSpec(s))
    ensures Anchored(s) ==> Anchored(CollisionSpec(s))
  {
  }

  /** With one player overlapping one coin and no other coin, every Score rises by exactly 10. */
  lemma SingleCoinPickup(s: WorldState, p: Entity, c: Entity)
    requires Players(s) == {p} && Coins(s) == {c} && Hit(s, p, c)
    ensures c !in CollisionSpec(s).coin
    ensures forall e :: e in s.score ==> CollisionSpec(s).score[e].value == s.score[e].value + 10
  {
    assert PairsFrom(s, Players(s), Coins(s)) == {(p, c)};
  }

  /** A player overlapping exactly one enemy loses exactly 10 Health, never going below zero. */
  lemma SingleEnemyHit(s: WorldState, p: Entity, x: Entity)
    requires p in Players(s) && p in s.health && HitsOf(s, p, Enemies(s)) == {x}
    ensures CollisionSpec(s).health[p].value == if s.health[p].value >= 10 then s.health[p].value - 10 else 0
  {
  }

  /** Applying `saturating_sub(d)` `k` times, one per queued penalty. */
  function SubEach(h: nat, d: nat, k: nat): nat {
    if k == 0 then h else SatSub(SubEach(h, d, k - 1), d)
  }

  /** One saturating subtraction per queued penalty equals a single saturating subtraction of the total. */
  lemma {:induction false} SubEachIsOneSaturatingSub(h: nat, d: nat, k: nat)
    ensures SubEach(h, d, k) == SatSub(h, d * k)
  {
    if k > 0 {
      SubEachIsOneSaturatingSub(h, d, k - 1);
      assert d * k == d * (k - 1) + d;
    }
  }

  // ---------------------------------------------------------------------------
  // Pair-set bookkeeping used by the pass below

  lemma HitByStep(s: WorldState, done: set<Entity>, p: Entity, group: set<Entity>)
    ensures HitBy(s, done + {p}, group) == HitBy(s, done, group) + HitsOf(s, p, group)
  {
  }

  lemma PairsFromStep(s: WorldState, done: set<Entity>, p: Entity, group: set<Entity>)
    ensures PairsFrom(s, done + {p}, group) == PairsFrom(s, done, group) + PairsFrom(s, {p}, group)
  {
  }

  lemma HitsOfStep(s: WorldState, p: Entity, group: set<Entity>, x: Entity)
    ensures HitsOf(s, p, group + {x}) == HitsOf(s, p, group) + (if Hit(s, p, x) then {x} else {})
  {
  }

  lemma PairsOfOneStep(s: WorldState, p: Entity, group: set<Entity>, x: Entity)
    ensures PairsFrom(s, {p}, group + {x}) == PairsFrom(s, {p}, group) + (if Hit(s, p, x) then {(p, x)} else {})
  {
  }

  /** The entities a queue holds. */
  function Elements(q: seq<Entity>): set<Entity> {
    set x | x in q
  }

  lemma ElementsAppend(q: seq<Entity>, x: Entity)
    ensures Elements(q + [x]) == Elements(q) + {x}
  {
  }

  /** There are as many pairs with tester `p` as members `p` hits. */
  lemma {:induction false} PairsOfOneCount(s: WorldState, p: Entity, group: set<Entity>)
    ensures |PairsFrom(s, {p}, group)| == |HitsOf(s, p, group)|
    decreases group
  {
    if group != {} {
      var x :| x in group;
      var rest := group - {x};
      assert group == rest + {x};
      PairsOfOneCount(s, p, rest);
      PairsOfOneStep(s, p, rest, x);
      HitsOfStep(s, p, rest, x);
    } else {
      assert PairsFrom(s, {p}, group) == {};
    }
  }

  /** Adding one more player's coin hits to the scores keeps them at 10 per pair found so far. */
  lemma ScoreStep(s: WorldState, done: set<Entity>, p: Entity, coins: set<Entity>,
                  base: map<Entity, Score>, mid: map<Entity, Score>, after: map<Entity, Score>)
    requires p !in done
    requires mid == AddToAll(base, CoinReward * |PairsFrom(s, done, coins)|)
    requires after == AddToAll(mid, CoinReward * |HitsOf(s, p, coins)|)
    ensures after == AddToAll(base, CoinReward * |PairsFrom(s, done + {p}, coins)|)
  {
    PairsFromStep(s, done, p, coins);
    PairsOfOneCount(s, p, coins);
    assert PairsFrom(s, done, coins) * PairsFrom(s, {p}, coins) == {};
    AddToAllTwice(base, CoinReward * |PairsFrom(s, done, coins)|, CoinReward * |HitsOf(s, p, coins)|);
  }

  /** One more award on top of 10 per coin hit found so far gives 10 per coin hit including the new one. */
  lemma AwardStep(base: map<Entity, Score>, mid: map<Entity, Score>, after: map<Entity, Score>,
                  hits: set<Entity>, c: Entity)
    requires c !in hits
    requires mid == AddToAll(base, CoinReward * |hits|)
    requires after == AddToAll(mid, CoinReward)
    ensures after == AddToAll(base, CoinReward * |hits + {c}|)
  {
    AddToAllTwice(base, CoinReward * |hits|, CoinReward);
  }

  /** Adding one more player's enemy hits to the penalty queue keeps one entry per (player, enemy) overlap. */
  lemma PenaltyStep(s: WorldState, done: set<Entity>, p: Entity, enemies: set<Entity>,
                    before: multiset<Entity>, after: multiset<Entity>)
    requires p !in done
    requires forall e :: before[e] == if e in done then |HitsOf(s, e, enemies)| else 0
    requires after[p] == before[p] + |HitsOf(s, p, enemies)|
    requires forall q :: q != p ==> after[q] == before[q]
    ensures forall e :: after[e] == if e in done + {p} then |HitsOf(s, e, enemies)| else 0
  {
  }

  /** The Health table after 10 is taken, saturating, once per occurrence of its entity in `q`. */
  function Damaged(h: map<Entity, Health>, q: seq<Entity>): map<Entity, Health> {
    map e | e in h :: Health(SubEach(h[e].value, EnemyDamage, multiset(q)[e]))
  }

  /** Taking one more occurrence of `e` into account is one more saturating subtraction for `e` alone. */
  lemma DamageStep(h: map<Entity, Health>, q: seq<Entity>, e: Entity)
    ensures var d := Damaged(h, q);
      Damaged(h, q + [e]) == if e in d then d[e := Health(SatSub(d[e].value, EnemyDamage))] else d
  {
    assert multiset(q + [e]) == multiset(q) + multiset{e};
  }

  /** Testing one more coin `c` against player `p` extends the awards and the queue by that coin's hit, if any. */
  lemma CoinStep(snap: WorldState, p: Entity, tested: set<Entity>, c: Entity,
                 base: map<Entity, Score>, score: map<Entity, Score>, score': map<Entity, Score>,
                 queue0: seq<Entity>, queue: seq<Entity>, queue': seq<Entity>)
    requires c !in tested
    requires score == AddToAll(base, CoinReward * |HitsOf(snap, p, tested)|)
    requires Elements(queue) == Elements(queue0) + HitsOf(snap, p, tested)
    requires Hit(snap, p, c) ==> score' == AddToAll(score, CoinReward) && queue' == queue + [c]
    requires !Hit(snap, p, c) ==> score' == score && queue' == queue
    ensures score' == AddToAll(base, CoinReward * |HitsOf(snap, p, tested + {c})|)
    ensures Elements(queue') == Elements(queue0) + HitsOf(snap, p, tested + {c})
  {
    HitsOfStep(snap, p, tested, c);
    if Hit(snap, p, c) {
      ElementsAppend(queue, c);
      AwardStep(base, score, score', HitsOf(snap, p, tested), c);
    }
  }

  /**
   * What the pair loops have produced once the players in `done` are tested:
   * 10 points per (player, coin) overlap, the coins and power-ups hit so far,
   * and one health penalty per (player, enemy) overlap.
   */
  ghost predicate TestedSoFar(snap: WorldState, done: set<Entity>, score: map<Entity, Score>,
                              coinQueue: seq<Entity>, healthQueue: seq<Entity>, powerUpQueue: seq<Entity>) {
    && score == AddToAll(snap.score, CoinReward * |PairsFrom(snap, done, Coins(snap))|)
    && Elements(coinQueue) == HitBy(snap, done, Coins(snap))
    && Elements(powerUpQueue) == HitBy(snap, done, PowerUps(snap))
    && forall e :: multiset(healthQueue)[e] == if e in done then |HitsOf(snap, e, Enemies(snap))| else 0
  }

  /** Testing one more player against every group extends what the pair loops have produced. */
  lemma PlayerStep(snap: WorldState, done: set<Entity>, p: Entity,
                   score: map<Entity, Score>, coinQueue: seq<Entity>, healthQueue: seq<Entity>, powerUpQueue: seq<Entity>,
                   score': map<Entity, Score>, coinQueue': seq<Entity>, healthQueue': seq<Entity>, powerUpQueue': seq<Entity>)
    requires p !in done
    requires TestedSoFar(snap, done, score, coinQueue, healthQueue, powerUpQueue)
    requires score' == AddToAll(score, CoinReward * |HitsOf(snap, p, Coins(snap))|)
    requires Elements(coinQueue') == Elements(coinQueue) + HitsOf(snap, p, Coins(snap))
    requires multiset(healthQueue')[p] == multiset(healthQueue)[p] + |HitsOf(snap, p, Enemies(snap))|
    requires forall q :: q != p ==> multiset(healthQueue')[q] == multiset(healthQueue)[q]
    requires Elements(powerUpQueue') == Elements(powerUpQueue) + HitsOf(snap, p, PowerUps(snap))
    ensures TestedSoFar(snap, done + {p}, score', coinQueue', healthQueue', powerUpQueue')
  {
    HitByStep(snap, done, p, Coins(snap));
    HitByStep(snap, done, p, PowerUps(snap));
    ScoreStep(snap, done, p, Coins(snap), snap.score, score, score');
    PenaltyStep(snap, done, p, Enemies(snap), multiset(healthQueue), multiset(healthQueue'));
  }

  /** Committing the queues the pair loops produced gives the world the pass specifies. */
  lemma CommitMatchesSpec(snap: WorldState, score: map<Entity, Score>,
                          coinQueue: seq<Entity>, healthQueue: seq<Entity>, powerUpQueue: seq<Entity>)
    requires score == AddToAll(snap.score, CoinReward * |PairsFrom(snap, Players(snap), Coins(snap))|)
    requires Elements(coinQueue) == HitBy(snap, Players(snap), Coins(snap))
    requires Elements(powerUpQueue) == HitBy(snap, Players(snap), PowerUps(snap))
    requires forall e :: multiset(healthQueue)[e] == |EnemyHits(snap, e)|
    ensures snap.(coin := snap.coin - Elements(coinQueue), powerUp := snap.powerUp - Elements(powerUpQueue),
                  score := score, health := Damaged(snap.health, healthQueue))
         == CollisionSpec(snap)
  {
    forall e | e in snap.health
      ensures Damaged(snap.health, healthQueue)[e] == CollisionSpec(snap).health[e]
    {
      SubEachIsOneSaturatingSub(snap.health[e].value, EnemyDamage, multiset(healthQueue)[e]);
    }
    assert Damaged(snap.health, healthQueue) == CollisionSpec(snap).health;
  }

  /** Moving one element from the to-do set to the done set. */
  lemma TakeOne(all: set<Entity>, todo: set<Entity>, x: Entity)
    requires x in todo && todo <= all
    ensures all - (todo - {x}) == (all - todo) + {x}
  {
  }

  lemma AddToAllTwice(m: map<Entity, Score>, a: nat, b: nat)
    ensures AddToAll(AddToAll(m, a), b) == AddToAll(m, a + b)
  {
  }

  // ---------------------------------------------------------------------------
  // The pass itself

  /** `for score in (&mut scores).join() { score.value += 10 }`. */
  method AwardAll(w: World)
    modifies w`score
    ensures w.score == AddToAll(old(w.score), CoinReward)
  {
    var todo := w.score.Keys;
    while todo != {}
      invariant w.score.Keys == old(w.score).Keys
      invariant forall e :: e in w.score ==>
        w.score[e] == Score(old(w.score)[e].value + if e in todo then 0 else CoinReward)
      decreases todo
    {
      var e :| e in todo;
      w.score := w.score[e := Score(w.score[e].value + CoinReward)];
      todo := todo - {e};
    }
  }

  /**
   * The coin loop of one player: queues each overlapping coin and awards
   * every Score holder once per overlap.
   */
  method TestCoins(w: World, snap: WorldState, p: Entity, coins: set<Entity>, queue: seq<Entity>)
    returns (queue': seq<Entity>)
    requires p in snap.position && p in snap.boundingBox
    requires forall c :: c in coins ==> c in snap.position && c in snap.boundingBox
    modifies w`score
    ensures w.score == AddToAll(old(w.score), CoinReward * |HitsOf(snap, p, coins)|)
    ensures Elements(queue') == Elements(queue) + HitsOf(snap, p, coins)
  {
    var todo := coins;
    queue' := queue;
    while todo != {}
      invariant todo <= coins
      invariant w.score == AddToAll(old(w.score), CoinReward * |HitsOf(snap, p, coins - todo)|)
      invariant Elements(queue') == Elements(queue) + HitsOf(snap, p, coins - todo)
      decreases todo
    {
      var c :| c in todo;
      ghost var tested, scores, queued := coins - todo, w.score, queue';
      if p != c && CheckCollision(snap.position[p], snap.boundingBox[p], snap.position[c], snap.boundingBox[c]) {
        queue' := queue' + [c];
        AwardAll(w);
      }
      CoinStep(snap, p, tested, c, old(w.score), scores, w.score, queue, queued, queue');
      TakeOne(coins, todo, c);
      todo := todo - {c};
    }
    assert coins - todo == coins;
  }

  /** The enemy loop of one player: queues `p` once per overlapping enemy. */
  method TestEnemies(snap: WorldState, p: Entity, enemies: set<Entity>, queue: seq<Entity>)
    returns (queue': seq<Entity>)
    requires p in snap.position && p in snap.boundingBox
    requires forall x :: x in enemies ==> x in snap.position && x in snap.boundingBox
    ensures multiset(queue')[p] == multiset(queue)[p] + |HitsOf(snap, p, enemies)|
    ensures forall q :: q != p ==> multiset(queue')[q] == multiset(queue)[q]
  {
    var todo := enemies;
    queue' := queue;
    ghost var hits: set<Entity> := {};
    while todo != {}
      invariant todo <= enemies
      invariant hits == HitsOf(snap, p, enemies - todo)
      invariant multiset(queue')[p] == multiset(queue)[p] + |hits|
      invariant forall q :: q != p ==> multiset(queue')[q] == multiset(queue)[q]
      decreases todo
    {
      var x :| x in todo;
      ghost var tested := enemies - todo;
      HitsOfStep(snap, p, tested, x);
      if p != x && CheckCollision(snap.position[p], snap.boundingBox[p], snap.position[x], snap.boundingBox[x]) {
        queue' := queue' + [p];
        hits := hits + {x};
      }
      TakeOne(enemies, todo, x);
      todo := todo - {x};
    }
    assert enemies - todo == enemies;
  }

  /** The power-up loop of one player: queues each overlapping power-up (no effect is applied). */
  method TestPowerUps(snap: WorldState, p: Entity, powerUps: set<Entity>, queue: seq<Entity>)
    returns (queue': seq<Entity>)
    requires p in snap.position && p in snap.boundingBox
    requires forall u :: u in powerUps ==> u in snap.position && u in snap.boundingBox
    ensures Elements(queue') == Elements(queue) + HitsOf(snap, p, powerUps)
  {
    var todo := powerUps;
    queue' := queue;
    while todo != {}
      invariant todo <= powerUps
      invariant Elements(queue') == Elements(queue) + HitsOf(snap, p, powerUps - todo)
      decreases todo
    {
      var u :| u in todo;
      ghost var tested := powerUps - todo;
      HitsOfStep(snap, p, tested, u);
      if p != u && CheckCollision(snap.position[p], snap.boundingBox[p], snap.position[u], snap.boundingBox[u]) {
        ElementsAppend(queue', u);
        queue' := queue' + [u];
      }
      TakeOne(powerUps, todo, u);
      todo := todo - {u};
    }
    assert powerUps - todo == powerUps;
  }

  /** Commit: `powerups.remove(e)` for every queued entity; removing an absent one is a no-op. */
  method RemovePowerUps(w: World, queue: seq<Entity>)
    modifies w`powerUp
    ensures w.powerUp == old(w.powerUp) - Elements(queue)
  {
    for i := 0 to |queue|
      invariant w.powerUp == old(w.powerUp) - Elements(queue[..i])
    {
      assert queue[..i + 1] == queue[..i] + [queue[i]];
      w.powerUp := w.powerUp - {queue[i]};
    }
    assert queue[..|queue|] == queue;
  }

  /** Commit: `coins.remove(e)` for every queued entity; removing an absent one is a no-op. */
  method RemoveCoins(w: World, queue: seq<Entity>)
    modifies w`coin
    ensures w.coin == old(w.coin) - Elements(queue)
  {
    for i := 0 to |queue|
      invariant w.coin == old(w.coin) - Elements(queue[..i])
    {
      assert queue[..i + 1] == queue[..i] + [queue[i]];
      w.coin := w.coin - {queue[i]};
    }
    assert queue[..|queue|] == queue;
  }

  /** Commit: one saturating subtraction of 10 per queued occurrence; entities without Health are skipped. */
  method ReduceHealths(w: World, queue: seq<Entity>)
    modifies w`health
    ensures w.health == Damaged(old(w.health), queue)
  {
    for i := 0 to |queue|
      invariant w.health == Damaged(old(w.health), queue[..i])
    {
      DamageStep(old(w.health), queue[..i], queue[i]);
      assert queue[..i + 1] == queue[..i] + [queue[i]];
      var e := queue[i];
      if e in w.health {
        w.health := w.health[e := Health(SatSub(w.health[e].value, EnemyDamage))];
      }
    }
    assert queue[..|queue|] == queue;
  }

  /**
   * The pair loops over the snapshotted groups: every player in turn against
   * the coins, the enemies and the power-ups.
   */
  method TestAllPlayers(w: World, snap: WorldState)
    returns (coinsToRemove: seq<Entity>, healthsToReduce: seq<Entity>, powerUpsToRemove: seq<Entity>)
    requires w.score == snap.score
    modifies w`score
    ensures w.score == AddToAll(snap.score, CoinReward * |PairsFrom(snap, Players(snap), Coins(snap))|)
    ensures Elements(coinsToRemove) == HitBy(snap, Players(snap), Coins(snap))
    ensures Elements(powerUpsToRemove) == HitBy(snap, Players(snap), PowerUps(snap))
    ensures forall e :: multiset(healthsToReduce)[e] == |EnemyHits(snap, e)|
  {
    var players, enemies, coins, powerUps := Players(snap), Enemies(snap), Coins(snap), PowerUps(snap);
    coinsToRemove, healthsToReduce, powerUpsToRemove := [], [], [];
    var todo := players;
    while todo != {}
      invariant todo <= players
      invariant TestedSoFar(snap, players - todo, w.score, coinsToRemove, healthsToReduce, powerUpsToRemove)
      decreases todo
    {
      var p :| p in todo;
      ghost var done := players - todo;
      ghost var scores, coinQueue, healthQueue, powerUpQueue := w.score, coinsToRemove, healthsToReduce, powerUpsToRemove;
      coinsToRemove := TestCoins(w, snap, p, coins, coinsToRemove);
      healthsToReduce := TestEnemies(snap, p, enemies, healthsToReduce);
      powerUpsToRemove := TestPowerUps(snap, p, powerUps, powerUpsToRemove);
      PlayerStep(snap, done, p, scores, coinQueue, healthQueue, powerUpQueue,
                 w.score, coinsToRemove, healthsToReduce, powerUpsToRemove);
      TakeOne(players, todo, p);
      todo := todo - {p};
    }
    assert players - todo == players;
  }

  /** `CollisionSystem::run`: snapshot the groups, test all pairs, then commit the queues. */
  method Run(w: World)
    modifies w`score, w`health, w`coin, w`powerUp
    ensures w.State() == CollisionSpec(old(w.State()))
  {
    var snap := w.State();
    var coinsToRemove, healthsToReduce, powerUpsToRemove := TestAllPlayers(w, snap);
    RemovePowerUps(w, powerUpsToRemove);
    ReduceHealths(w, healthsToReduce);
    RemoveCoins(w, coinsToRemove);
    CommitMatchesSpec(snap, w.score, coinsToRemove, healthsToReduce, powerUpsToRemove);
  }
}
