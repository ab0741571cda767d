/**
 * The enemy registry (`EnemyService`): four enemy types with fixed stats,
 * enemies under fresh ids `enemy_N` (modelled by N), damage that removes an
 * enemy the moment its health reaches zero, an attack cooldown, the
 * difficulty-dependent random choice of type and the health-bar colour.
 */
module Enemies {
  import opened Common
  import opened Keyed

  datatype EnemyType = Basic | Scout | Tank | Drone

  /** Per-type stats; `attackRate` is attacks per second. */
  datatype EnemyStats = EnemyStats(health: int, speed: real, damage: int, attackRate: real,
                                   pointValue: int, scale: real)

  function Stats(t: EnemyType): (s: EnemyStats)
    ensures s.health > 0 && s.speed > 0.0 && s.damage > 0 && s.attackRate > 0.0
    ensures s.pointValue > 0 && s.scale > 0.0
  {
    match t
    case Basic => EnemyStats(30, 3.0, 10, 1.0, 100, 1.0)
    case Scout => EnemyStats(15, 7.0, 5, 2.0, 75, 0.7)
    case Tank => EnemyStats(100, 1.5, 25, 0.5, 250, 1.5)
    case Drone => EnemyStats(20, 4.0, 8, 1.5, 150, 0.6)
  }

  /**
   * An enemy: `position` is its mesh position (copied from its physics body by
   * the game each frame, with the drone's hover applied on top); `stats` is a
   * copy of its type's stats.
   */
  datatype Enemy = Enemy(id: nat, kind: EnemyType, bodyId: nat, position: Vec3, health: int,
                         maxHealth: int, stats: EnemyStats, lastAttackTime: real, animationPhase: real)

  function EnemyId(e: Enemy): nat { e.id }
  function EnemyCentre(e: Enemy): Vec3 { e.position }

  /** The game's hit-scan radius around an enemy: one metre times its scale. */
  function EnemyHitRadius(e: Enemy): real { 1.0 * e.stats.scale }

  /** An enemy in the registry: alive, with the stats and maximum health of its type. */
  predicate WellFormed(e: Enemy) {
    e.health > 0 && e.stats == Stats(e.kind) && e.maxHealth == Stats(e.kind).health
  }

  /**
   * `updateEnemy`: the animation phase advances by `dt * speed`; a drone's mesh
   * then hovers at `2 * scale + 0.2 * bobSine`, where `bobSine` stands for the
   * sine of three times the new phase.
   */
  function Animated(e: Enemy, dt: real, bobSine: real): (r: Enemy)
    ensures r.animationPhase == e.animationPhase + dt * e.stats.speed
    ensures r.kind == Drone ==> r.position.y == 2.0 * e.stats.scale + 0.2 * bobSine
    ensures r == e.(animationPhase := r.animationPhase, position := r.position)
    ensures r.position.x == e.position.x && r.position.z == e.position.z
    ensures e.kind != Drone ==> r.position == e.position
  {
    var p := e.animationPhase + dt * e.stats.speed;
    if e.kind == Drone then e.(animationPhase := p, position := e.position.(y := 2.0 * e.stats.scale + bobSine * 0.2))
    else e.(animationPhase := p)
  }

  // ---------------------------------------------------------------- attacks

  /** `canAttack`: at least `1 / attackRate` seconds since the last attack (times in milliseconds). */
  predicate CanAttack(e: Enemy, now: real)
    requires e.stats.attackRate > 0.0
    ensures CanAttack(e, now) ==> now > e.lastAttackTime
  {
    (now - e.lastAttackTime) / 1000.0 >= 1.0 / e.stats.attackRate
  }

  /** The cooldown between two attacks of each type, in milliseconds. */
  function CooldownMs(t: EnemyType): real {
    match t
    case Basic => 1000.0
    case Scout => 500.0
    case Tank => 2000.0
    case Drone => 2000.0 / 3.0
  }

  /** An enemy may attack again exactly once its type's cooldown has elapsed since its last attack. */
  lemma CanAttackAfterCooldown(e: Enemy, now: real)
    requires WellFormed(e)
    ensures CanAttack(e, now) <==> now >= e.lastAttackTime + CooldownMs(e.kind)
  {
    var d := now - e.lastAttackTime;
    match e.kind
    case Basic =>
    case Scout =>
    case Tank =>
    case Drone =>
      assert 1.0 / 1.5 == 2.0 / 3.0;
  }

  /** `attack`: records the time and yields the type's damage. */
  function Attacked(e: Enemy, now: real): (r: Enemy)
    ensures r.lastAttackTime == now && r.health == e.health && r.id == e.id && r.kind == e.kind
    ensures r.bodyId == e.bodyId && r.stats == e.stats
  {
    e.(lastAttackTime := now)
  }

  /** Right after an attack the same enemy cannot attack again at the same instant. */
  lemma NoDoubleAttack(e: Enemy, now: real)
    requires WellFormed(e)
    ensures WellFormed(Attacked(e, now)) && !CanAttack(Attacked(e, now), now)
  {
  }

  // ----------------------------------------------------------------- damage

  /** `damageEnemy` on one enemy: health drops by the damage; it is killed when health reaches zero. */
  function Damaged(e: Enemy, damage: int): (r: Enemy)
    ensures r.health == e.health - damage && r.id == e.id && r.kind == e.kind && r.bodyId == e.bodyId
    ensures r.stats == e.stats && r.position == e.position
  {
    e.(health := e.health - damage)
  }

  predicate Lethal(e: Enemy, damage: int) {
    e.health - damage <= 0
  }

  /** The registry after `damageEnemy` on `id`: the enemy is removed if the hit is lethal, updated otherwise. */
  function AfterDamage(enemies: seq<Enemy>, id: nat, damage: int): (r: seq<Enemy>)
    ensures |r| <= |enemies|
    ensures Find(enemies, EnemyId, id).None? ==> r == enemies
    ensures forall x :: x in r && x.id != id ==> x in enemies
  {
    match Find(enemies, EnemyId, id)
    case None => enemies
    case Some(e) =>
      if Lethal(e, damage) then Without(enemies, EnemyId, id)
      else Replace(enemies, EnemyId, Damaged(e, damage))
  }

  /**
   * Damage never leaves a dead enemy in the registry: a lethal hit removes
   * exactly the target, a non-lethal one lowers exactly its health, and every
   * other enemy is untouched.
   */
  lemma {:induction false} AfterDamageLookup(enemies: seq<Enemy>, id: nat, damage: int, other: nat)
    requires Increasing(enemies, EnemyId) && forall e :: e in enemies ==> WellFormed(e)
    requires id in Keys(enemies, EnemyId)
    ensures Increasing(AfterDamage(enemies, id, damage), EnemyId)
    ensures forall e :: e in AfterDamage(enemies, id, damage) ==> WellFormed(e)
    ensures Find(AfterDamage(enemies, id, damage), EnemyId, other) ==
      if other != id then Find(enemies, EnemyId, other)
      else if Lethal(Find(enemies, EnemyId, id).value, damage) then None
      else Some(Damaged(Find(enemies, EnemyId, id).value, damage))
  {
    var e := Find(enemies, EnemyId, id).value;
    if Lethal(e, damage) {
      var r := Without(enemies, EnemyId, id);
      WithoutIncreasing(enemies, EnemyId, id);
      WithoutKeys(enemies, EnemyId, id);
      match Find(enemies, EnemyId, other)
      case None =>
        assert other !in Keys(r, EnemyId);
      case Some(y) =>
        if other != id {
          assert y in r;
          FindUnique(r, EnemyId, y);
        }
    } else {
      var d := Damaged(e, damage);
      forall x | x in Replace(enemies, EnemyId, d) ensures WellFormed(x) {
        var r := Replace(enemies, EnemyId, d);
        var i :| 0 <= i < |r| && r[i] == x;
        assert r[i] == d || r[i] == enemies[i];
      }
      FindAfterReplace(enemies, EnemyId, d, other);
    }
  }

  /** A lethal hit on a registered enemy removes exactly one entry; any other hit keeps the count. */
  lemma AfterDamageSize(enemies: seq<Enemy>, id: nat, damage: int)
    requires Increasing(enemies, EnemyId)
    ensures |AfterDamage(enemies, id, damage)| ==
      |enemies| - match Find(enemies, EnemyId, id) case Some(e) => (if Lethal(e, damage) then 1 else 0) case None => 0
  {
    match Find(enemies, EnemyId, id)
    case None =>
    case Some(e) =>
      if Lethal(e, damage) {
        var r := Without(enemies, EnemyId, id);
        WithoutIncreasing(enemies, EnemyId, id);
        WithoutKeys(enemies, EnemyId, id);
        KeysCount(enemies, EnemyId);
        KeysCount(r, EnemyId);
        assert id in Keys(enemies, EnemyId) by {
          assert EnemyId(e) == id;
        }
      }
  }

  // ----------------------------------------------------------- random type

  /** `getRandomEnemyType(difficulty)` with the roll `rand` in [0, 1). */
  function RandomEnemyType(difficulty: int, rand: real): (t: EnemyType)
    ensures difficulty < 3 ==> t == Basic || t == Scout
    ensures rand < 0.2 ==> t == Basic
  {
    if difficulty < 3 then
      (if rand < 0.7 then Basic else Scout)
    else if difficulty < 6 then
      (if rand < 0.3 then Basic else if rand < 0.55 then Scout else if rand < 0.8 then Drone else Tank)
    else
      (if rand < 0.2 then Basic else if rand < 0.4 then Scout else if rand < 0.7 then Drone else Tank)
  }

  /** The chance of each type at each difficulty, as an interval [lo, hi) of the roll. */
  datatype Band = Band(lo: real, hi: real)

  function SpawnBand(difficulty: int, t: EnemyType): Band {
    if difficulty < 3 then
      match t
      case Basic => Band(0.0, 0.7)
      case Scout => Band(0.7, 1.0)
      case Drone => Band(0.0, 0.0)
      case Tank => Band(0.0, 0.0)
    else if difficulty < 6 then
      match t
      case Basic => Band(0.0, 0.3)
      case Scout => Band(0.3, 0.55)
      case Drone => Band(0.55, 0.8)
      case Tank => Band(0.8, 1.0)
    else
      match t
      case Basic => Band(0.0, 0.2)
      case Scout => Band(0.2, 0.4)
      case Drone => Band(0.4, 0.7)
      case Tank => Band(0.7, 1.0)
  }

  function Chance(difficulty: int, t: EnemyType): real {
    SpawnBand(difficulty, t).hi - SpawnBand(difficulty, t).lo
  }

  /** The roll picks a type exactly when it falls in that type's band. */
  lemma RandomEnemyTypeInBand(difficulty: int, rand: real, t: EnemyType)
    requires 0.0 <= rand < 1.0
    ensures RandomEnemyType(difficulty, rand) == t <==> SpawnBand(difficulty, t).lo <= rand < SpawnBand(difficulty, t).hi
  {
  }

  /**
   * The bands are a distribution: every chance is non-negative and they add up
   * to one; below difficulty 3 no tank or drone appears, and harder play never
   * makes tanks rarer or basic enemies more common.
   */
  lemma ChancesDistribution(difficulty: int, harder: int)
    requires difficulty <= harder
    ensures Chance(difficulty, Basic) + Chance(difficulty, Scout) + Chance(difficulty, Drone) + Chance(difficulty, Tank) == 1.0
    ensures forall t :: Chance(difficulty, t) >= 0.0
    ensures difficulty < 3 ==> Chance(difficulty, Tank) == 0.0 && Chance(difficulty, Drone) == 0.0
    ensures Chance(difficulty, Tank) <= Chance(harder, Tank)
    ensures Chance(harder, Basic) <= Chance(difficulty, Basic)
  {
  }

  // ------------------------------------------------------------ health bar

  datatype BarColour = Green | Yellow | Red

  /** The fraction of the health bar that is filled: `max(0, health / maxHealth)`. */
  function HealthFraction(e: Enemy): real
    requires e.maxHealth > 0
  {
    Max(0.0, e.health as real / e.maxHealth as real)
  }

  /** `updateHealthBar`'s colour: green above 60 %, yellow above 30 %, red otherwise. */
  function HealthBarColour(e: Enemy): (c: BarColour)
    requires e.maxHealth > 0
    ensures e.health >= e.maxHealth ==> c == Green
    ensures e.health <= 0 ==> c == Red
  {
    QuotientAbove(e.health as real, e.maxHealth as real, 0.6);
    QuotientAbove(e.health as real, e.maxHealth as real, 0.3);
    var f := HealthFraction(e);
    if f > 0.6 then Green else if f > 0.3 then Yellow else Red
  }

  /** Comparing a quotient with a constant is comparing the dividend with a multiple of the divisor. */
  lemma QuotientAbove(h: real, m: real, c: real)
    requires m > 0.0
    ensures h / m > c <==> h > c * m
  {
    var q := h / m;
    assert q * m == h;
    if q > c {
      assert q * m > c * m;
    } else {
      assert q * m <= c * m;
    }
  }

  /** The colour in whole-number terms: green iff 10 h > 6 max, red iff 10 h <= 3 max. */
  lemma HealthBarThresholds(e: Enemy)
    requires e.maxHealth > 0
    ensures HealthBarColour(e) == Green <==> 10 * e.health > 6 * e.maxHealth
    ensures HealthBarColour(e) == Red <==> 10 * e.health <= 3 * e.maxHealth
    ensures 0.0 <= HealthFraction(e)
    ensures e.health <= e.maxHealth ==> HealthFraction(e) <= 1.0
  {
    var h, m := e.health as real, e.maxHealth as real;
    QuotientAbove(h, m, 0.6);
    QuotientAbove(h, m, 0.3);
    QuotientAbove(h, m, 1.0);
  }

  /** For a given enemy type, a healthier enemy never shows a worse colour. */
  lemma HealthBarMonotone(e: Enemy, healthier: int)
    requires e.maxHealth > 0 && e.health <= healthier
    ensures HealthBarColour(e) == Green ==> HealthBarColour(e.(health := healthier)) == Green
    ensures HealthBarColour(e) != Red ==> HealthBarColour(e.(health := healthier)) != Red
  {
    HealthBarThresholds(e);
    HealthBarThresholds(e.(health := healthier));
  }

  // ---------------------------------------------------------- the registry

  class EnemyRegistry {
    /** The `enemies` map, in insertion order. */
    var enemies: seq<Enemy>
    var nextEnemyId: nat

    ghost predicate Valid()
      reads this
    {
      && Increasing(enemies, EnemyId)
      && (forall e :: e in enemies ==> WellFormed(e) && e.id < nextEnemyId)
    }

    constructor ()
      ensures Valid() && enemies == [] && nextEnemyId == 0
    {
      enemies := [];
      nextEnemyId := 0;
    }

    /** `getEnemy`: the enemy under `id`, if registered. */
    function GetEnemy(id: nat): (r: Option<Enemy>)
      reads this
      requires Valid()
      ensures r.None? <==> id !in Keys(enemies, EnemyId)
      ensures r.Some? ==> r.value in enemies && r.value.id == id && WellFormed(r.value)
    {
      Find(enemies, EnemyId, id)
    }

    /**
     * `createEnemy`: a new enemy of the type's full health under the next id,
     * standing at `position`, tied to physics body `bodyId`, never attacked
     * (last attack at time 0) and with animation phase `phase` (a random angle).
     */
    method CreateEnemy(kind: EnemyType, position: Vec3, bodyId: nat, phase: real) returns (e: Enemy)
      requires Valid()
      modifies this
      ensures Valid()
      ensures e == Enemy(old(nextEnemyId), kind, bodyId, position, Stats(kind).health, Stats(kind).health,
                         Stats(kind), 0.0, phase)
      ensures enemies == old(enemies) + [e] && nextEnemyId == old(nextEnemyId) + 1
    {
      e := Enemy(nextEnemyId, kind, bodyId, position, Stats(kind).health, Stats(kind).health, Stats(kind), 0.0, phase);
      AppendFresh(enemies, EnemyId, e);
      enemies := enemies + [e];
      nextEnemyId := nextEnemyId + 1;
    }

    /** Writes back a changed copy of a registered enemy under its own id. */
    method Put(e: Enemy)
      requires Valid() && WellFormed(e) && e.id in Keys(enemies, EnemyId)
      modifies this
      ensures Valid()
      ensures enemies == Replace(old(enemies), EnemyId, e) && nextEnemyId == old(nextEnemyId)
    {
      var r := Replace(enemies, EnemyId, e);
      forall x | x in r ensures WellFormed(x) && x.id < nextEnemyId {
        var i :| 0 <= i < |r| && r[i] == x;
        assert r[i] == e || r[i] == enemies[i];
        assert enemies[i] in enemies;
      }
      enemies := r;
    }

    /** The game copying the enemy's physics-body position into its mesh. */
    method SetPosition(id: nat, position: Vec3)
      requires Valid() && id in Keys(enemies, EnemyId)
      modifies this
      ensures Valid()
      ensures enemies == Replace(old(enemies), EnemyId, old(GetEnemy(id)).value.(position := position))
      ensures nextEnemyId == old(nextEnemyId)
    {
      var e := GetEnemy(id).value;
      Put(e.(position := position));
    }

    /** `updateEnemy` (see `Animated`). */
    method UpdateEnemy(id: nat, dt: real, bobSine: real)
      requires Valid() && id in Keys(enemies, EnemyId)
      modifies this
      ensures Valid()
      ensures enemies == Replace(old(enemies), EnemyId, Animated(old(GetEnemy(id)).value, dt, bobSine))
      ensures nextEnemyId == old(nextEnemyId)
    {
      var e := GetEnemy(id).value;
      Put(Animated(e, dt, bobSine));
    }

    /** `attack`: stamps the attack time and returns the type's damage. */
    method Attack(id: nat, now: real) returns (damage: int)
      requires Valid() && id in Keys(enemies, EnemyId)
      modifies this
      ensures Valid()
      ensures damage == Stats(old(GetEnemy(id)).value.kind).damage && damage > 0
      ensures enemies == Replace(old(enemies), EnemyId, Attacked(old(GetEnemy(id)).value, now))
      ensures nextEnemyId == old(nextEnemyId)
    {
      var e := GetEnemy(id).value;
      Put(Attacked(e, now));
      damage := e.stats.damage;
    }

    /**
     * `damageEnemy`: lowers the enemy's health; when it reaches zero the enemy
     * is removed (`killEnemy`) and `killed` is true. `victim` is the enemy as
     * the caller's reference sees it after the hit.
     */
    method DamageEnemy(id: nat, damage: int) returns (killed: bool, victim: Enemy)
      requires Valid() && id in Keys(enemies, EnemyId)
      modifies this
      ensures Valid()
      ensures victim == Damaged(old(GetEnemy(id)).value, damage)
      ensures killed <==> victim.health <= 0
      ensures enemies == AfterDamage(old(enemies), id, damage) && nextEnemyId == old(nextEnemyId)
    {
      var e := GetEnemy(id).value;
      victim := Damaged(e, damage);
      killed := Lethal(e, damage);
      AfterDamageLookup(enemies, id, damage, id);
      if killed {
        WithoutKeys(enemies, EnemyId, id);
        enemies := Without(enemies, EnemyId, id);
      } else {
        Put(victim);
      }
    }

    /** `removeEnemy`: drops the enemy if present. */
    method RemoveEnemy(id: nat)
      requires Valid()
      modifies this
      ensures Valid()
      ensures enemies == Without(old(enemies), EnemyId, id) && nextEnemyId == old(nextEnemyId)
    {
      WithoutIncreasing(enemies, EnemyId, id);
      enemies := Without(enemies, EnemyId, id);
    }

    /** `destroy`: forgets every enemy; ids keep counting. */
    method Destroy()
      requires Valid()
      modifies this
      ensures Valid() && enemies == [] && nextEnemyId == old(nextEnemyId)
    {
      enemies := [];
    }
  }
}
