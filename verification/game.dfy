/**
 * The game service: one run of the arena shooter. It owns the physics world,
 * the weapons, the enemy and pick-up registries and the input device, and
 * drives them once per animation frame; shooting, pausing and the menu
 * buttons arrive as separate calls.
 *
 * The host supplies what the model cannot compute: the clock (`now`, in
 * milliseconds), the trigonometry of the camera, the camera's position and
 * direction when a shot is fired, and every `Math.random()` draw.
 */
module Game {
  import opened Common
  import opened Keyed
  import opened Rays
  import opened Rules
  import Physics
  import Enemies
  import PowerUps
  import Weapons
  import Input

  /** `Math.sin`, `Math.cos`, and the normalisation `(x, z) / sqrt(x*x + z*z)` of a non-zero vector. */
  datatype Trig = Trig(sin: real -> real, cos: real -> real, unit: (real, real) -> (real, real))

  /** The draws of `spawnEnemy`: the type roll, the side and offset rolls, and the random starting phase. */
  datatype EnemyDraw = EnemyDraw(typeRoll: real, sideRoll: real, offsetRoll: real, phase: real)

  /** The draws of `spawnPowerUp`: the candidate spots of its placement loop, then the type roll. */
  datatype PickupDraw = PickupDraw(spots: seq<(real, real)>, typeRoll: real)

  /** The draws of one obstacle of `createObstacles`. */
  datatype ObstacleDraw = ObstacleDraw(spots: seq<(real, real)>, heightRoll: real, widthRoll: real)

  /** The drop chance roll of `handleEnemyKilled` and the type roll of the dropped pick-up. */
  datatype DropDraw = DropDraw(chance: real, typeRoll: real)

  /** What one animation frame takes from the host. */
  datatype Frame = Frame(now: real, trig: Trig, enemy: EnemyDraw, pickup: PickupDraw)

  /** The half extents of an enemy's physics box. */
  const EnemyBox: Vec3 := Vec3(0.4, 0.9, 0.25)
  /** Where the player's capsule starts and restarts. */
  const PlayerStart: Vec3 := Vec3(0.0, 2.0, 0.0)
  const WallHeight: real := 5.0
  const WallThickness: real := 1.0

  /** `enemyBodyMap` knows the enemy by its physics body, and that body was handed out by the physics world. */
  ghost predicate Indexed(e: Enemies.Enemy, bodyMap: map<nat, nat>, nextBodyId: nat) {
    e.bodyId in bodyMap && bodyMap[e.bodyId] == e.id && e.bodyId < nextBodyId
  }

  /** Writing back a changed enemy that is indexed keeps every live enemy indexed. */
  lemma ReplaceIndexed(s: seq<Enemies.Enemy>, v: Enemies.Enemy, bodyMap: map<nat, nat>, nextBodyId: nat)
    requires forall e :: e in s ==> Indexed(e, bodyMap, nextBodyId)
    requires Indexed(v, bodyMap, nextBodyId)
    ensures forall e :: e in Replace(s, Enemies.EnemyId, v) ==> Indexed(e, bodyMap, nextBodyId)
  {
    var r := Replace(s, Enemies.EnemyId, v);
    forall e | e in r ensures Indexed(e, bodyMap, nextBodyId) {
      var i :| 0 <= i < |r| && r[i] == e;
      assert r[i] == v || r[i] == s[i];
    }
  }

  /**
   * The enemy half of `handleWeaponFire`: the loop keeps the enemy whose centre
   * projects in front of the camera nearer than `closestDist` (starting at
   * 1000) and lies within `1.0 * scale` of the ray. The chosen enemy is the
   * one `NearestAt` the ray, and there is none exactly when no enemy qualifies.
   */
  method SelectTarget(targets: seq<Enemies.Enemy>, origin: Vec3, direction: Vec3) returns (k: Option<nat>)
    ensures k.None? <==> NoneEligible(targets, Enemies.EnemyCentre, Enemies.EnemyHitRadius, origin, direction, ShotRange)
    ensures k.Some? ==> NearestAt(targets, k.value, Enemies.EnemyCentre, Enemies.EnemyHitRadius, origin, direction, ShotRange)
    ensures k.Some? ==> Nearest(targets, Enemies.EnemyCentre, Enemies.EnemyHitRadius, origin, direction, ShotRange) == Some(k.value)
  {
    var closestDist := ShotRange;
    k := None;
    var i := 0;
    while i < |targets|
      invariant 0 <= i <= |targets|
      invariant k.None? ==> closestDist == ShotRange
      invariant k.None? ==> NoneEligible(targets[..i], Enemies.EnemyCentre, Enemies.EnemyHitRadius, origin, direction, ShotRange)
      invariant k.Some? ==> NearestAt(targets[..i], k.value, Enemies.EnemyCentre, Enemies.EnemyHitRadius, origin, direction, ShotRange)
                            && closestDist == Projection(targets[k.value].position, origin, direction)
      invariant closestDist <= ShotRange
    {
      var enemy := targets[i];
      EligibleWithin(enemy.position, Enemies.EnemyHitRadius(enemy), origin, direction, closestDist, ShotRange);
      assert targets[..i + 1] == targets[..i] + [enemy];
      if k.None? {
        NoneExtend(targets[..i], enemy, Enemies.EnemyCentre, Enemies.EnemyHitRadius, origin, direction, ShotRange);
      } else {
        NearestExtend(targets[..i], enemy, k.value, Enemies.EnemyCentre, Enemies.EnemyHitRadius, origin, direction, ShotRange);
      }
      if Eligible(enemy.position, Enemies.EnemyHitRadius(enemy), origin, direction, closestDist) {
        closestDist := Projection(enemy.position, origin, direction);
        k := Some(i);
      }
      i := i + 1;
    }
    assert targets[..i] == targets;
    if k.Some? {
      NearestIs(targets, k.value, Enemies.EnemyCentre, Enemies.EnemyHitRadius, origin, direction, ShotRange);
    }
  }

  /**
   * What the shots of `handleWeaponFire` read and write: the enemies, the
   * kill counters, the physics bodies, `enemyBodyMap`, and the pick-ups with
   * the id the next one will get.
   */
  datatype Field = Field(enemies: seq<Enemies.Enemy>, tally: Tally, bodies: seq<Physics.Body>, bodyMap: map<nat, nat>,
                         pickups: seq<PowerUps.PowerUp>, nextPickup: nat)

  /** The pick-up the roll `typeRoll` gives under `id`, lying at `position` from `now`. */
  function Dropped(id: nat, typeRoll: real, position: Vec3, now: real): PowerUps.PowerUp {
    PowerUps.PowerUp(id, PowerUps.RolledType(typeRoll), position, now)
  }

  /**
   * `handleEnemyKilled`: the victim's body leaves the physics world and the
   * body map, the kill is recorded, and with chance 0.2 a pick-up of a rolled
   * type drops on the floor below where the victim stood.
   */
  function Fallen(f: Field, victim: Enemies.Enemy, drop: DropDraw, now: real): Field {
    var g := f.(tally := RecordKill(f.tally, victim.stats.pointValue),
                bodies := Without(f.bodies, Physics.BodyId, victim.bodyId),
                bodyMap := f.bodyMap - {victim.bodyId});
    if drop.chance < DropChance then
      g.(pickups := g.pickups + [Dropped(g.nextPickup, drop.typeRoll, Vec3(victim.position.x, 0.0, victim.position.z), now)],
         nextPickup := g.nextPickup + 1)
    else g
  }

  /** `damageEnemy` on `hit`, with `handleEnemyKilled` when the damage is lethal. */
  function Harmed(f: Field, hit: Enemies.Enemy, damage: int, drop: DropDraw, now: real): Field {
    var damaged := f.(enemies := Enemies.AfterDamage(f.enemies, hit.id, damage));
    if Enemies.Lethal(hit, damage) then Fallen(damaged, hit, drop, now) else damaged
  }

  /** A hit on `hit`: `Harmed`, then the hit's 10 points. */
  function Struck(f: Field, hit: Enemies.Enemy, damage: int, drop: DropDraw, now: real): Field {
    var after := Harmed(f, hit, damage, drop, now);
    after.(tally := after.tally.(score := after.tally.score + HitBonus))
  }

  /**
   * One shot of `handleWeaponFire`: the enemy `Nearest` the ray is `Struck`;
   * a shot that meets no enemy changes nothing.
   */
  ghost function ShotOutcome(f: Field, origin: Vec3, direction: Vec3, damage: int, drop: DropDraw, now: real): Field {
    match Nearest(f.enemies, Enemies.EnemyCentre, Enemies.EnemyHitRadius, origin, direction, ShotRange)
    case None => f
    case Some(k) => Struck(f, f.enemies[k], damage, drop, now)
  }

  /** The shots of one trigger pull, in order, each through `ShotOutcome`; shot `i` takes the drop draws `drops(i)`. */
  ghost function Volley(f: Field, origin: Vec3, shots: seq<Weapons.Shot>, drops: nat -> DropDraw, now: real): Field
    decreases |shots|
  {
    if shots == [] then f
    else
      var before := Volley(f, origin, shots[..|shots| - 1], drops, now);
      var last := shots[|shots| - 1];
      ShotOutcome(before, origin, last.direction, last.damage, drops(|shots| - 1), now)
  }

  /** A registry whose ids increase and whose enemies are all alive with their type's stats. */
  ghost predicate Roster(s: seq<Enemies.Enemy>) {
    Increasing(s, Enemies.EnemyId) && forall e :: e in s ==> Enemies.WellFormed(e)
  }

  /**
   * A shot keeps the registry a roster; every kill takes exactly one enemy
   * away and scores its points on top of the hit's; the score rises exactly
   * when some enemy was in the way. The pick-ups on the floor stay, and at
   * most one is added, only by a kill.
   */
  lemma ShotOutcomeKeeps(f: Field, origin: Vec3, direction: Vec3, damage: int, drop: DropDraw, now: real)
    requires Roster(f.enemies)
    ensures var r := ShotOutcome(f, origin, direction, damage, drop, now);
      && Roster(r.enemies)
      && r.tally.kills - f.tally.kills == |f.enemies| - |r.enemies|
      && r.tally.kills >= f.tally.kills
      && (r.tally.score > f.tally.score <==> !NoneEligible(f.enemies, Enemies.EnemyCentre, Enemies.EnemyHitRadius, origin, direction, ShotRange))
      && r.tally.score >= f.tally.score
      && |f.pickups| <= |r.pickups| <= |f.pickups| + (r.tally.kills - f.tally.kills)
      && r.pickups[..|f.pickups|] == f.pickups
  {
    match Nearest(f.enemies, Enemies.EnemyCentre, Enemies.EnemyHitRadius, origin, direction, ShotRange)
    case None =>
    case Some(k) =>
      var hit := f.enemies[k];
      FindUnique(f.enemies, Enemies.EnemyId, hit);
      assert hit.id in Keys(f.enemies, Enemies.EnemyId) by {
        assert Enemies.EnemyId(hit) == hit.id;
      }
      Enemies.AfterDamageLookup(f.enemies, hit.id, damage, hit.id);
      Enemies.AfterDamageSize(f.enemies, hit.id, damage);
      assert Enemies.WellFormed(hit);
      StruckOutcome(f, hit, damage, drop, now);
  }

  /**
   * A hit damages its enemy and scores as `ScoreHit` says; the pick-ups on
   * the floor stay, and one more lies there only when the hit kills.
   */
  lemma StruckOutcome(f: Field, hit: Enemies.Enemy, damage: int, drop: DropDraw, now: real)
    ensures var r := Struck(f, hit, damage, drop, now);
      && r.enemies == Enemies.AfterDamage(f.enemies, hit.id, damage)
      && r.tally == ScoreHit(f.tally, Enemies.Lethal(hit, damage), hit.stats.pointValue)
      && |f.pickups| <= |r.pickups| <= |f.pickups| + (if Enemies.Lethal(hit, damage) then 1 else 0)
      && r.pickups[..|f.pickups|] == f.pickups
  {
    var r := Struck(f, hit, damage, drop, now);
    assert r.pickups[..|f.pickups|] == f.pickups;
  }

  /**
   * A whole volley keeps the registry a roster and never lowers the score;
   * every kill it scores took one enemy away; the pick-ups on the floor stay
   * and at most one more lies there per kill.
   */
  lemma {:induction false} VolleyKeeps(f: Field, origin: Vec3, shots: seq<Weapons.Shot>, drops: nat -> DropDraw, now: real)
    requires Roster(f.enemies)
    ensures var r := Volley(f, origin, shots, drops, now);
      && Roster(r.enemies) && r.tally.kills - f.tally.kills == |f.enemies| - |r.enemies|
      && r.tally.score >= f.tally.score && r.tally.kills >= f.tally.kills
      && |f.pickups| <= |r.pickups| <= |f.pickups| + (r.tally.kills - f.tally.kills)
      && r.pickups[..|f.pickups|] == f.pickups
    decreases |shots|
  {
    if shots != [] {
      var before := Volley(f, origin, shots[..|shots| - 1], drops, now);
      var last := shots[|shots| - 1];
      VolleyKeeps(f, origin, shots[..|shots| - 1], drops, now);
      ShotOutcomeKeeps(before, origin, last.direction, last.damage, drops(|shots| - 1), now);
      var r := Volley(f, origin, shots, drops, now);
      assert r.pickups[..|f.pickups|] == before.pickups[..|before.pickups|][..|f.pickups|];
    }
  }

  /** Extending a volley by its next shot is one more `ShotOutcome`. */
  lemma VolleyStep(f: Field, origin: Vec3, shots: seq<Weapons.Shot>, drops: nat -> DropDraw, now: real, i: nat)
    requires i < |shots|
    ensures Volley(f, origin, shots[..i + 1], drops, now) ==
      ShotOutcome(Volley(f, origin, shots[..i], drops, now), origin, shots[i].direction, shots[i].damage, drops(i), now)
  {
    assert shots[..i + 1][..i] == shots[..i];
  }

  /**
   * The player's velocity after the movement part of `update`: the unit move
   * direction times `speed` when the move vector is non-zero, otherwise the
   * horizontal velocity decayed by a tenth; the vertical velocity is kept.
   */
  function Steered(v: Vec3, move: (real, real), unit: (real, real) -> (real, real), speed: real): (w: Vec3)
    ensures w.y == v.y
    ensures LengthSq(move) <= 0.0 ==> w.x == 0.9 * v.x && w.z == 0.9 * v.z
  {
    if LengthSq(move) > 0.0 then
      var (unitX, unitZ) := unit(move.0, move.1);
      Vec3(unitX * speed, v.y, unitZ * speed)
    else
      Vec3(v.x * 0.9, v.y, v.z * 0.9)
  }

  // ------------------------------------------------------------- pick-ups

  /** The weapon a weapon pick-up equips. */
  function Armament(kind: PowerUps.PowerUpType): (t: Option<Weapons.WeaponType>)
    ensures t.Some? <==> kind == PowerUps.WeaponRifle || kind == PowerUps.WeaponShotgun || kind == PowerUps.WeaponSniper
  {
    match kind
    case WeaponRifle => Some(Weapons.Rifle)
    case WeaponShotgun => Some(Weapons.Shotgun)
    case WeaponSniper => Some(Weapons.Sniper)
    case _ => None
  }

  /**
   * `handlePowerUpCollected` on the player: health heals, a shield pick-up
   * sets the shield to its full amount, and no other pick-up touches either.
   */
  function PickedUp(v: Vitals, kind: PowerUps.PowerUpType): (w: Vitals)
    ensures kind != PowerUps.Health ==> w.health == v.health
    ensures kind != PowerUps.Shield ==> w.shield == v.shield
    ensures kind == PowerUps.Shield ==> w.shield == ShieldAmount
    ensures 0 <= v.health <= MaxHealth && 0 <= v.shield <= ShieldAmount ==>
      v.health <= w.health <= MaxHealth && v.shield <= w.shield <= ShieldAmount
    ensures kind == PowerUps.Health && v.health <= MaxHealth - HealAmount ==> w.health == v.health + HealAmount
  {
    match kind
    case Health => v.(health := Healed(v.health))
    case Shield => v.(shield := ShieldAmount)
    case _ => v
  }

  /**
   * `handlePowerUpCollected` on the weapons: ammo starts a reload, a weapon
   * pick-up equips its weapon once the models are loaded; no pick-up touches
   * the magazines or the fire clock.
   */
  function Rearmed(a: Weapons.Arsenal, kind: PowerUps.PowerUpType, loaded: bool): (b: Weapons.Arsenal)
    ensures b.ammo == a.ammo && b.lastFireTime == a.lastFireTime
    ensures b.current == match Armament(kind) case Some(t) => (if loaded then t else a.current) case None => a.current
    ensures b.reloading <==> a.reloading || (kind == PowerUps.Ammo && Weapons.Stored(a, a.current) < Weapons.Stats(a.current).ammoCapacity)
    ensures kind != PowerUps.Ammo && (Armament(kind).None? || !loaded) ==> b == a
  {
    if kind == PowerUps.Ammo then Weapons.ReloadStarted(a)
    else match Armament(kind)
      case Some(t) => Weapons.Equip(a, t, loaded)
      case None => a
  }

  // --------------------------------------------------------- the enemies' turn

  /** What the enemies' turn of `update` reads and writes: the enemy registry, the physics bodies and the player's health and shield. */
  datatype Battle = Battle(enemies: seq<Enemies.Enemy>, bodies: seq<Physics.Body>, vitals: Vitals)

  /** The attack test of `updateEnemies`: nearer than 1.5 (the squared distance below 2.25) and off cooldown. */
  predicate Strikes(e: Enemies.Enemy, toward: (real, real), now: real) {
    LengthSq(toward) < 2.25 && e.stats.attackRate > 0.0 && Enemies.CanAttack(e, now)
  }

  /** The chase of `updateEnemies`: the body's horizontal velocity becomes `v`, its vertical velocity is kept. */
  function Chased(bodies: seq<Physics.Body>, bodyId: nat, v: (real, real)): seq<Physics.Body> {
    match Find(bodies, Physics.BodyId, bodyId)
    case None => bodies
    case Some(b) => Physics.Edited(bodies, bodyId, Physics.SetVelocity(Vec3(v.0, b.velocity.y, v.1)))
  }

  /** A body moving horizontally at `v`, its vertical velocity kept. */
  function Heading(body: Physics.Body, v: (real, real)): (r: Physics.Body)
    ensures r.id == body.id && r.position == body.position && r.velocity == Vec3(v.0, body.velocity.y, v.1)
  {
    body.(velocity := Vec3(v.0, body.velocity.y, v.1))
  }

  /** The chased body alone changes, and only its velocity. */
  lemma ChasedLookup(bodies: seq<Physics.Body>, body: Physics.Body, v: (real, real), other: nat)
    requires Increasing(bodies, Physics.BodyId) && body in bodies
    ensures Increasing(Chased(bodies, body.id, v), Physics.BodyId)
    ensures Keys(Chased(bodies, body.id, v), Physics.BodyId) == Keys(bodies, Physics.BodyId)
    ensures Find(Chased(bodies, body.id, v), Physics.BodyId, other) ==
      if other == body.id then Some(Heading(body, v)) else Find(bodies, Physics.BodyId, other)
  {
    FindUnique(bodies, Physics.BodyId, body);
    assert Find(bodies, Physics.BodyId, body.id) == Some(body);
    Physics.EditedLookup(bodies, body.id, Physics.SetVelocity(Vec3(v.0, body.velocity.y, v.1)), other);
  }

  /** The velocity of a chase along the unit vector `heading` at `speed`. */
  function Pace(heading: (real, real), speed: real): (real, real) {
    (heading.0 * speed, heading.1 * speed)
  }

  /**
   * The end of one enemy's turn, `toward` being the horizontal offset from its
   * body to the player: farther than 1 it heads for the player along the unit
   * vector of `toward` at its speed; when it `Strikes`, its cooldown restarts
   * and its type's damage goes through `Absorb`.
   */
  function Confronted(b: Battle, e: Enemies.Enemy, toward: (real, real), now: real, trig: Trig): Battle {
    var bodies := if LengthSq(toward) > 1.0 then Chased(b.bodies, e.bodyId, Pace(trig.unit(toward.0, toward.1), e.stats.speed)) else b.bodies;
    if Strikes(e, toward, now) then
      Battle(Replace(b.enemies, Enemies.EnemyId, Enemies.Attacked(e, now)), bodies, Absorb(b.vitals, Enemies.Stats(e.kind).damage).vitals)
    else
      b.(bodies := bodies)
  }

  /** The enemy `e` placed at `p` and animated by `updateEnemy`, the sine taken of three times its new phase. */
  function Placed(e: Enemies.Enemy, p: Vec3, dt: real, trig: Trig): (r: Enemies.Enemy)
    ensures r.id == e.id && r.kind == e.kind && r.bodyId == e.bodyId && r.health == e.health && r.stats == e.stats
    ensures r.position.x == p.x && r.position.z == p.z
  {
    Enemies.Animated(e.(position := p), dt, trig.sin((e.animationPhase + dt * e.stats.speed) * 3.0))
  }

  /**
   * The enemy `e` placed at its body's position and animated, written back to
   * the registry. The inner `Replace` is overwritten by the outer one; it is
   * kept because it mirrors `updateEnemies` writing the new position back
   * before it animates the enemy (`Reposition`, then `Animate`).
   */
  function PlacedAll(b: Battle, e: Enemies.Enemy, body: Physics.Body, dt: real, trig: Trig): seq<Enemies.Enemy> {
    Replace(Replace(b.enemies, Enemies.EnemyId, e.(position := body.position)), Enemies.EnemyId, Placed(e, body.position, dt, trig))
  }

  /** The horizontal offset from `from` to `target`. */
  function Toward(target: Vec3, from: Vec3): (real, real) {
    (target.x - from.x, target.z - from.z)
  }

  /** The turn of enemy `e` standing on `body`: placed, animated, then `Confronted`. */
  function Turn(b: Battle, e: Enemies.Enemy, body: Physics.Body, dt: real, target: Vec3, now: real, trig: Trig): Battle {
    Confronted(b.(enemies := PlacedAll(b, e, body, dt, trig)), Placed(e, body.position, dt, trig),
               Toward(target, body.position), now, trig)
  }

  /**
   * One enemy's turn of `updateEnemies`, the player being at `target`: an
   * enemy that is gone, or whose body is gone, does nothing; otherwise it
   * takes its turn.
   */
  function EnemyTurn(b: Battle, id: nat, dt: real, target: Vec3, now: real, trig: Trig): Battle {
    match Find(b.enemies, Enemies.EnemyId, id)
    case None => b
    case Some(e) =>
      match Find(b.bodies, Physics.BodyId, e.bodyId)
      case None => b
      case Some(body) => Turn(b, e, body, dt, target, now, trig)
  }

  /** An enemy found with its body takes its `Turn`. */
  lemma EnemyTurnIs(b: Battle, id: nat, e: Enemies.Enemy, body: Physics.Body, dt: real, target: Vec3, now: real, trig: Trig)
    requires Find(b.enemies, Enemies.EnemyId, id) == Some(e) && Find(b.bodies, Physics.BodyId, e.bodyId) == Some(body)
    ensures EnemyTurn(b, id, dt, target, now, trig) == Turn(b, e, body, dt, target, now, trig)
  {
  }

  /** The turns of the enemies `ids`, in order. */
  function EnemyTurns(b: Battle, ids: seq<nat>, dt: real, target: Vec3, now: real, trig: Trig): Battle
    decreases |ids|
  {
    if ids == [] then b
    else EnemyTurn(EnemyTurns(b, ids[..|ids| - 1], dt, target, now, trig), ids[|ids| - 1], dt, target, now, trig)
  }

  /** Extending the turns taken to one more enemy of `ids` is one more `EnemyTurn`. */
  lemma EnemyTurnsStep(b: Battle, ids: seq<nat>, i: nat, dt: real, target: Vec3, now: real, trig: Trig)
    requires i < |ids|
    ensures EnemyTurns(b, ids[..i + 1], dt, target, now, trig)
         == EnemyTurn(EnemyTurns(b, ids[..i], dt, target, now, trig), ids[i], dt, target, now, trig)
  {
    assert ids[..i + 1][..i] == ids[..i];
  }

  /** The ids of a registry, in registry order. */
  function Ids(s: seq<Enemies.Enemy>): (ids: seq<nat>)
    ensures |ids| == |s| && forall i :: 0 <= i < |s| ==> ids[i] == s[i].id
  {
    seq(|s|, i requires 0 <= i < |s| => s[i].id)
  }

  /** `updateEnemies`: nothing without the player's position; otherwise every enemy registered at the start takes its turn. */
  function Fought(b: Battle, dt: real, playerPos: Option<Vec3>, now: real, trig: Trig): Battle {
    match playerPos
    case None => b
    case Some(p) => EnemyTurns(b, Ids(b.enemies), dt, p, now, trig)
  }

  /** Registries in id order, live enemies, and health and shield not negative. */
  ghost predicate Sound(b: Battle) {
    && Increasing(b.enemies, Enemies.EnemyId) && Increasing(b.bodies, Physics.BodyId)
    && (forall e :: e in b.enemies ==> Enemies.WellFormed(e))
    && 0 <= b.vitals.health && 0 <= b.vitals.shield
  }

  /** How two battles compare across turns: the same enemy and body ids, and health and shield no higher. */
  ghost predicate Kept(b: Battle, r: Battle) {
    && Keys(r.enemies, Enemies.EnemyId) == Keys(b.enemies, Enemies.EnemyId) && |r.enemies| == |b.enemies|
    && Keys(r.bodies, Physics.BodyId) == Keys(b.bodies, Physics.BodyId)
    && r.vitals.health <= b.vitals.health && r.vitals.shield <= b.vitals.shield
  }

  /** Writing back a live enemy under its own id keeps every enemy live. */
  lemma ReplaceWellFormed(s: seq<Enemies.Enemy>, v: Enemies.Enemy)
    requires (forall e :: e in s ==> Enemies.WellFormed(e)) && Enemies.WellFormed(v)
    ensures forall e :: e in Replace(s, Enemies.EnemyId, v) ==> Enemies.WellFormed(e)
  {
    var r := Replace(s, Enemies.EnemyId, v);
    forall e | e in r ensures Enemies.WellFormed(e) {
      var i :| 0 <= i < |r| && r[i] == e;
      assert r[i] == v || r[i] == s[i];
    }
  }

  /** The end of a turn keeps the battle sound, the ids as they were, and never raises health or shield. */
  lemma ConfrontedKeeps(b: Battle, e: Enemies.Enemy, toward: (real, real), now: real, trig: Trig)
    requires Sound(b) && e in b.enemies
    ensures Sound(Confronted(b, e, toward, now, trig)) && Kept(b, Confronted(b, e, toward, now, trig))
    ensures forall other :: other != e.id ==>
      Find(Confronted(b, e, toward, now, trig).enemies, Enemies.EnemyId, other) == Find(b.enemies, Enemies.EnemyId, other)
  {
    var r := Confronted(b, e, toward, now, trig);
    if LengthSq(toward) > 1.0 {
      var u := trig.unit(toward.0, toward.1);
      var vy := match Find(b.bodies, Physics.BodyId, e.bodyId) case Some(x) => x.velocity.y case None => 0.0;
      Physics.EditedLookup(b.bodies, e.bodyId, Physics.SetVelocity(Vec3(u.0 * e.stats.speed, vy, u.1 * e.stats.speed)), 0);
    }
    if Strikes(e, toward, now) {
      assert Enemies.EnemyId(e) in Keys(b.enemies, Enemies.EnemyId);
      ReplaceWellFormed(b.enemies, Enemies.Attacked(e, now));
      forall other | other != e.id
        ensures Find(r.enemies, Enemies.EnemyId, other) == Find(b.enemies, Enemies.EnemyId, other)
      {
        FindAfterReplace(b.enemies, Enemies.EnemyId, Enemies.Attacked(e, now), other);
      }
    }
  }

  /** Placing and animating an enemy keeps the battle sound and changes only that enemy's entry. */
  lemma PlacedAllLookup(b: Battle, e: Enemies.Enemy, body: Physics.Body, dt: real, trig: Trig)
    requires Increasing(b.enemies, Enemies.EnemyId) && e in b.enemies
    ensures var s := PlacedAll(b, e, body, dt, trig);
      && Increasing(s, Enemies.EnemyId) && Placed(e, body.position, dt, trig) in s
      && forall other :: Find(s, Enemies.EnemyId, other) ==
           if other == e.id then Some(Placed(e, body.position, dt, trig)) else Find(b.enemies, Enemies.EnemyId, other)
  {
    var placed := e.(position := body.position);
    var animated := Placed(e, body.position, dt, trig);
    var s1 := Replace(b.enemies, Enemies.EnemyId, placed);
    assert Enemies.EnemyId(e) in Keys(b.enemies, Enemies.EnemyId);
    forall other
      ensures Find(PlacedAll(b, e, body, dt, trig), Enemies.EnemyId, other) ==
              if other == e.id then Some(animated) else Find(b.enemies, Enemies.EnemyId, other)
    {
      FindAfterReplace(b.enemies, Enemies.EnemyId, placed, other);
      FindAfterReplace(s1, Enemies.EnemyId, animated, other);
    }
    assert Find(PlacedAll(b, e, body, dt, trig), Enemies.EnemyId, e.id) == Some(animated);
  }

  /** Placing and animating a live enemy keeps it live and keeps the ids. */
  lemma PlacedAllSound(b: Battle, e: Enemies.Enemy, body: Physics.Body, dt: real, trig: Trig)
    requires Sound(b) && e in b.enemies
    ensures Sound(b.(enemies := PlacedAll(b, e, body, dt, trig))) && Kept(b, b.(enemies := PlacedAll(b, e, body, dt, trig)))
  {
    var placed := e.(position := body.position);
    ReplaceWellFormed(b.enemies, placed);
    ReplaceWellFormed(Replace(b.enemies, Enemies.EnemyId, placed), Placed(e, body.position, dt, trig));
  }

  /** An enemy's turn keeps the battle sound, keeps the ids, never raises health or shield, and leaves every other enemy as it was. */
  lemma TurnKeeps(b: Battle, e: Enemies.Enemy, body: Physics.Body, dt: real, target: Vec3, now: real, trig: Trig)
    requires Sound(b) && e in b.enemies
    ensures Sound(Turn(b, e, body, dt, target, now, trig)) && Kept(b, Turn(b, e, body, dt, target, now, trig))
    ensures forall other :: other != e.id ==>
      Find(Turn(b, e, body, dt, target, now, trig).enemies, Enemies.EnemyId, other) == Find(b.enemies, Enemies.EnemyId, other)
  {
    var placed := b.(enemies := PlacedAll(b, e, body, dt, trig));
    var animated := Placed(e, body.position, dt, trig);
    var toward := Toward(target, body.position);
    PlacedAllLookup(b, e, body, dt, trig);
    PlacedAllSound(b, e, body, dt, trig);
    ConfrontedKeeps(placed, animated, toward, now, trig);
    var r := Confronted(placed, animated, toward, now, trig);
    assert Turn(b, e, body, dt, target, now, trig) == r;
    forall other | other != e.id
      ensures Find(r.enemies, Enemies.EnemyId, other) == Find(b.enemies, Enemies.EnemyId, other)
    {
      assert Find(r.enemies, Enemies.EnemyId, other) == Find(placed.enemies, Enemies.EnemyId, other);
    }
  }

  /**
   * One enemy's turn keeps the battle sound, keeps the enemy and body ids,
   * never raises health or shield, and leaves every other enemy as it was.
   */
  lemma EnemyTurnKeeps(b: Battle, id: nat, dt: real, target: Vec3, now: real, trig: Trig)
    requires Sound(b)
    ensures Sound(EnemyTurn(b, id, dt, target, now, trig)) && Kept(b, EnemyTurn(b, id, dt, target, now, trig))
    ensures forall other :: other != id ==>
      Find(EnemyTurn(b, id, dt, target, now, trig).enemies, Enemies.EnemyId, other) == Find(b.enemies, Enemies.EnemyId, other)
  {
    match Find(b.enemies, Enemies.EnemyId, id)
    case None =>
    case Some(e) =>
      match Find(b.bodies, Physics.BodyId, e.bodyId)
      case None =>
      case Some(body) => TurnKeeps(b, e, body, dt, target, now, trig);
  }

  /** The end of a turn for its enemy: attacked exactly when it strikes, its body heading for the player exactly when farther than 1. */
  lemma ConfrontedOutcome(b: Battle, e: Enemies.Enemy, body: Physics.Body, toward: (real, real), now: real, trig: Trig)
    requires Increasing(b.enemies, Enemies.EnemyId) && Increasing(b.bodies, Physics.BodyId)
    requires e in b.enemies && body in b.bodies && body.id == e.bodyId
    ensures Find(Confronted(b, e, toward, now, trig).enemies, Enemies.EnemyId, e.id) ==
      Some(if Strikes(e, toward, now) then Enemies.Attacked(e, now) else e)
    ensures Find(Confronted(b, e, toward, now, trig).bodies, Physics.BodyId, body.id) ==
      Some(if LengthSq(toward) > 1.0 then Heading(body, Pace(trig.unit(toward.0, toward.1), e.stats.speed)) else body)
    ensures Confronted(b, e, toward, now, trig).vitals ==
      if Strikes(e, toward, now) then Absorb(b.vitals, Enemies.Stats(e.kind).damage).vitals else b.vitals
  {
    var r := Confronted(b, e, toward, now, trig);
    var u := trig.unit(toward.0, toward.1);
    FindUnique(b.enemies, Enemies.EnemyId, e);
    FindUnique(b.bodies, Physics.BodyId, body);
    var chased := Chased(b.bodies, body.id, Pace(u, e.stats.speed));
    ChasedLookup(b.bodies, body, Pace(u, e.stats.speed), body.id);
    assert r.bodies == if LengthSq(toward) > 1.0 then chased else b.bodies;
    if Strikes(e, toward, now) {
      assert r.enemies == Replace(b.enemies, Enemies.EnemyId, Enemies.Attacked(e, now));
      assert Enemies.EnemyId(e) in Keys(b.enemies, Enemies.EnemyId);
      FindAfterReplace(b.enemies, Enemies.EnemyId, Enemies.Attacked(e, now), e.id);
    } else {
      assert r.enemies == b.enemies;
    }
  }

  /**
   * The outcome for the enemy whose turn it is, when it and its body exist:
   * it stands at its body's position, animated, and has attacked exactly
   * when it `Strikes`; its body heads for the player exactly when farther
   * than 1; the player takes the enemy type's damage exactly when it strikes.
   */
  lemma EnemyTurnOutcome(b: Battle, e: Enemies.Enemy, body: Physics.Body, dt: real, target: Vec3, now: real, trig: Trig)
    requires Increasing(b.enemies, Enemies.EnemyId) && Increasing(b.bodies, Physics.BodyId)
    requires e in b.enemies && body in b.bodies && body.id == e.bodyId
    ensures var r := EnemyTurn(b, e.id, dt, target, now, trig);
      var animated := Placed(e, body.position, dt, trig);
      var toward := Toward(target, body.position);
      && Find(r.enemies, Enemies.EnemyId, e.id) == Some(if Strikes(animated, toward, now) then Enemies.Attacked(animated, now) else animated)
      && Find(r.bodies, Physics.BodyId, body.id) ==
           Some(if LengthSq(toward) > 1.0 then Heading(body, Pace(trig.unit(toward.0, toward.1), animated.stats.speed)) else body)
      && r.vitals == if Strikes(animated, toward, now) then Absorb(b.vitals, Enemies.Stats(animated.kind).damage).vitals else b.vitals
  {
    var placed := b.(enemies := PlacedAll(b, e, body, dt, trig));
    var animated := Placed(e, body.position, dt, trig);
    var toward := Toward(target, body.position);
    assert EnemyTurn(b, e.id, dt, target, now, trig) == Confronted(placed, animated, toward, now, trig) by {
      FindUnique(b.enemies, Enemies.EnemyId, e);
      FindUnique(b.bodies, Physics.BodyId, body);
      assert Find(b.enemies, Enemies.EnemyId, e.id) == Some(e);
      assert Find(b.bodies, Physics.BodyId, e.bodyId) == Some(body);
      assert EnemyTurn(b, e.id, dt, target, now, trig) == Turn(b, e, body, dt, target, now, trig);
    }
    assert Increasing(placed.enemies, Enemies.EnemyId) && animated in placed.enemies by {
      PlacedAllLookup(b, e, body, dt, trig);
    }
    ConfrontedOutcome(placed, animated, body, toward, now, trig);
    assert animated.stats == e.stats && animated.kind == e.kind && animated.id == e.id;
  }

  /** A whole enemies' turn keeps the battle sound, keeps the ids, never raises health or shield, and touches only the listed enemies. */
  lemma {:induction false} EnemyTurnsKeep(b: Battle, ids: seq<nat>, dt: real, target: Vec3, now: real, trig: Trig)
    requires Sound(b)
    ensures Sound(EnemyTurns(b, ids, dt, target, now, trig)) && Kept(b, EnemyTurns(b, ids, dt, target, now, trig))
    ensures forall other :: other !in ids ==>
      Find(EnemyTurns(b, ids, dt, target, now, trig).enemies, Enemies.EnemyId, other) == Find(b.enemies, Enemies.EnemyId, other)
    decreases |ids|
  {
    if ids != [] {
      var front := ids[..|ids| - 1];
      EnemyTurnsKeep(b, front, dt, target, now, trig);
      EnemyTurnKeeps(EnemyTurns(b, front, dt, target, now, trig), ids[|ids| - 1], dt, target, now, trig);
    }
  }

  /** Every body of `b` is still there in `r`, at the same position. */
  ghost predicate Stationary(b: Battle, r: Battle) {
    forall id :: Find(b.bodies, Physics.BodyId, id).Some? ==>
      Find(r.bodies, Physics.BodyId, id).Some? && Find(r.bodies, Physics.BodyId, id).value.position == Find(b.bodies, Physics.BodyId, id).value.position
  }

  /** A chase changes a velocity, never a position. */
  lemma ChasedStationary(b: Battle, bodyId: nat, v: (real, real))
    requires Increasing(b.bodies, Physics.BodyId)
    ensures Increasing(Chased(b.bodies, bodyId, v), Physics.BodyId)
    ensures Stationary(b, b.(bodies := Chased(b.bodies, bodyId, v)))
  {
    match Find(b.bodies, Physics.BodyId, bodyId)
    case None =>
    case Some(body) =>
      forall id | Find(b.bodies, Physics.BodyId, id).Some?
        ensures Find(Chased(b.bodies, bodyId, v), Physics.BodyId, id).Some?
        ensures Find(Chased(b.bodies, bodyId, v), Physics.BodyId, id).value.position == Find(b.bodies, Physics.BodyId, id).value.position
      {
        ChasedLookup(b.bodies, body, v, id);
      }
      ChasedLookup(b.bodies, body, v, 0);
  }

  /** No enemy's turn moves a body: bodies move in the physics step. */
  lemma EnemyTurnStationary(b: Battle, id: nat, dt: real, target: Vec3, now: real, trig: Trig)
    requires Increasing(b.bodies, Physics.BodyId)
    ensures Stationary(b, EnemyTurn(b, id, dt, target, now, trig))
  {
    match Find(b.enemies, Enemies.EnemyId, id)
    case None =>
    case Some(e) =>
      match Find(b.bodies, Physics.BodyId, e.bodyId)
      case None =>
      case Some(body) =>
        var animated := Placed(e, body.position, dt, trig);
        var toward := Toward(target, body.position);
        EnemyTurnIs(b, id, e, body, dt, target, now, trig);
        TurnBodies(b, e, body, dt, target, now, trig);
        ChasedStationary(b, e.bodyId, Pace(trig.unit(toward.0, toward.1), animated.stats.speed));
  }

  /** The bodies after an enemy's turn: its own heads for the player when farther than 1, nothing else changes. */
  lemma TurnBodies(b: Battle, e: Enemies.Enemy, body: Physics.Body, dt: real, target: Vec3, now: real, trig: Trig)
    ensures var animated := Placed(e, body.position, dt, trig);
      var toward := Toward(target, body.position);
      Turn(b, e, body, dt, target, now, trig).bodies ==
        if LengthSq(toward) > 1.0 then Chased(b.bodies, e.bodyId, Pace(trig.unit(toward.0, toward.1), animated.stats.speed)) else b.bodies
  {
    var animated := Placed(e, body.position, dt, trig);
    var toward := Toward(target, body.position);
    var placed := b.(enemies := PlacedAll(b, e, body, dt, trig));
    assert Turn(b, e, body, dt, target, now, trig) == Confronted(placed, animated, toward, now, trig);
    ConfrontedBodies(placed, animated, toward, now, trig);
  }

  /** The bodies after a turn's end: the chased one heads for the player, nothing else changes. */
  lemma ConfrontedBodies(b: Battle, e: Enemies.Enemy, toward: (real, real), now: real, trig: Trig)
    ensures Confronted(b, e, toward, now, trig).bodies ==
      if LengthSq(toward) > 1.0 then Chased(b.bodies, e.bodyId, Pace(trig.unit(toward.0, toward.1), e.stats.speed)) else b.bodies
  {
  }

  /** Taking turns in two runs is taking them in one. */
  lemma {:induction false} EnemyTurnsAppend(b: Battle, xs: seq<nat>, ys: seq<nat>, dt: real, target: Vec3, now: real, trig: Trig)
    ensures EnemyTurns(b, xs + ys, dt, target, now, trig) == EnemyTurns(EnemyTurns(b, xs, dt, target, now, trig), ys, dt, target, now, trig)
    decreases |ys|
  {
    if ys == [] {
      assert xs + ys == xs;
    } else {
      var front := ys[..|ys| - 1];
      assert EnemyTurns(b, xs + ys, dt, target, now, trig)
          == EnemyTurn(EnemyTurns(b, xs + front, dt, target, now, trig), ys[|ys| - 1], dt, target, now, trig) by {
        assert (xs + ys)[..|xs + ys| - 1] == xs + front;
      }
      EnemyTurnsAppend(b, xs, front, dt, target, now, trig);
    }
  }

  /** No run of turns moves a body. */
  lemma {:induction false} EnemyTurnsStationary(b: Battle, ids: seq<nat>, dt: real, target: Vec3, now: real, trig: Trig)
    requires Sound(b)
    ensures Stationary(b, EnemyTurns(b, ids, dt, target, now, trig))
    decreases |ids|
  {
    if ids != [] {
      var front := ids[..|ids| - 1];
      var mid := EnemyTurns(b, front, dt, target, now, trig);
      EnemyTurnsStationary(b, front, dt, target, now, trig);
      EnemyTurnsKeep(b, front, dt, target, now, trig);
      EnemyTurnStationary(mid, ids[|ids| - 1], dt, target, now, trig);
    }
  }

  /**
   * With the player's position known, every enemy whose body exists ends
   * `updateEnemies` moved to its body's position and animated, its cooldown
   * restarted when it struck.
   */
  lemma FoughtAnimates(b: Battle, e: Enemies.Enemy, body: Physics.Body, dt: real, p: Vec3, now: real, trig: Trig)
    requires Sound(b) && e in b.enemies && body in b.bodies && body.id == e.bodyId
    ensures var r := Fought(b, dt, Some(p), now, trig);
      var animated := Placed(e, body.position, dt, trig);
      var toward := Toward(p, body.position);
      Find(r.enemies, Enemies.EnemyId, e.id) == Some(if Strikes(animated, toward, now) then Enemies.Attacked(animated, now) else animated)
  {
    var ids := Ids(b.enemies);
    var k :| 0 <= k < |b.enemies| && b.enemies[k] == e;
    var mid := EnemyTurns(b, ids[..k], dt, p, now, trig);
    var after := EnemyTurn(mid, e.id, dt, p, now, trig);
    assert e.id !in ids[..k] && e.id !in ids[k + 1..];
    EnemyTurnsKeep(b, ids[..k], dt, p, now, trig);
    FindUnique(b.enemies, Enemies.EnemyId, e);
    FindUnique(b.bodies, Physics.BodyId, body);
    assert Find(b.bodies, Physics.BodyId, body.id) == Some(body);
    EnemyTurnsStationary(b, ids[..k], dt, p, now, trig);
    var moved := Find(mid.bodies, Physics.BodyId, body.id).value;
    assert moved.position == body.position;
    EnemyTurnOutcome(mid, e, moved, dt, p, now, trig);
    EnemyTurnKeeps(mid, e.id, dt, p, now, trig);
    EnemyTurnsKeep(after, ids[k + 1..], dt, p, now, trig);
    EnemyTurnsSplit(b, ids, k, dt, p, now, trig);
    var last := EnemyTurns(after, ids[k + 1..], dt, p, now, trig);
    assert Fought(b, dt, Some(p), now, trig) == last;
    var animated := Placed(e, body.position, dt, trig);
    var toward := Toward(p, body.position);
    assert Placed(e, moved.position, dt, trig) == animated && Toward(p, moved.position) == toward;
    assert Find(after.enemies, Enemies.EnemyId, e.id) == Some(if Strikes(animated, toward, now) then Enemies.Attacked(animated, now) else animated);
    assert Find(last.enemies, Enemies.EnemyId, e.id) == Find(after.enemies, Enemies.EnemyId, e.id);
  }

  /** The turns of `ids` are those before `ids[k]`, its own, then those after. */
  lemma EnemyTurnsSplit(b: Battle, ids: seq<nat>, k: nat, dt: real, target: Vec3, now: real, trig: Trig)
    requires k < |ids|
    ensures EnemyTurns(b, ids, dt, target, now, trig) ==
      EnemyTurns(EnemyTurn(EnemyTurns(b, ids[..k], dt, target, now, trig), ids[k], dt, target, now, trig), ids[k + 1..], dt, target, now, trig)
  {
    assert ids == ids[..k + 1] + ids[k + 1..];
    EnemyTurnsAppend(b, ids[..k + 1], ids[k + 1..], dt, target, now, trig);
    EnemyTurnsStep(b, ids, k, dt, target, now, trig);
  }

  // ------------------------------------------------------------ arrivals

  /**
   * The enemy `spawnEnemy` registers under `id` on the box `bodyId`: a type
   * rolled for the difficulty, a point on a drawn side of an arena of `size`,
   * full health, never having attacked.
   */
  function Recruit(id: nat, bodyId: nat, draw: EnemyDraw, difficulty: int, size: real): (e: Enemies.Enemy)
    ensures e.id == id && e.bodyId == bodyId && e.kind == Enemies.RandomEnemyType(difficulty, draw.typeRoll)
    ensures e.health == e.maxHealth == Enemies.Stats(e.kind).health > 0 && e.stats == Enemies.Stats(e.kind)
    ensures e.position == EnemySpawnPoint(size, draw.sideRoll, draw.offsetRoll, e.kind == Enemies.Drone)
  {
    var kind := Enemies.RandomEnemyType(difficulty, draw.typeRoll);
    Enemies.Enemy(id, kind, bodyId, EnemySpawnPoint(size, draw.sideRoll, draw.offsetRoll, kind == Enemies.Drone),
                  Enemies.Stats(kind).health, Enemies.Stats(kind).health, Enemies.Stats(kind), 0.0, draw.phase)
  }

  /** The dynamic box that carries enemy `e`, at rest where it stands. */
  function Carrier(e: Enemies.Enemy): Physics.Body {
    Physics.Body(e.bodyId, Physics.Box(EnemyBox), false, e.position, Zero, Zero)
  }

  /** The battle once enemy `e` has joined it on its own box; the player is untouched. */
  function Reinforced(b: Battle, e: Enemies.Enemy): Battle {
    Battle(b.enemies + [e], b.bodies + [Carrier(e)], b.vitals)
  }

  /**
   * A newcomer under ids above all registered ones keeps the battle sound:
   * it is found under its id with its box under its body id, and every other
   * lookup is as before.
   */
  lemma ReinforcedSound(b: Battle, e: Enemies.Enemy)
    requires Sound(b) && Enemies.WellFormed(e)
    requires forall x :: x in b.enemies ==> x.id < e.id
    requires forall x :: x in b.bodies ==> x.id < e.bodyId
    ensures Sound(Reinforced(b, e))
    ensures Find(Reinforced(b, e).enemies, Enemies.EnemyId, e.id) == Some(e)
    ensures Find(Reinforced(b, e).bodies, Physics.BodyId, e.bodyId) == Some(Carrier(e))
    ensures forall id :: id != e.id ==> Find(Reinforced(b, e).enemies, Enemies.EnemyId, id) == Find(b.enemies, Enemies.EnemyId, id)
    ensures forall id :: id != e.bodyId ==> Find(Reinforced(b, e).bodies, Physics.BodyId, id) == Find(b.bodies, Physics.BodyId, id)
  {
    AppendFresh(b.enemies, Enemies.EnemyId, e);
    AppendFresh(b.bodies, Physics.BodyId, Carrier(e));
    forall id
      ensures Find(Reinforced(b, e).enemies, Enemies.EnemyId, id) == if id == e.id then Some(e) else Find(b.enemies, Enemies.EnemyId, id)
    {
      FindAppend(b.enemies, Enemies.EnemyId, e, id);
    }
    forall id
      ensures Find(Reinforced(b, e).bodies, Physics.BodyId, id) == if id == e.bodyId then Some(Carrier(e)) else Find(b.bodies, Physics.BodyId, id)
    {
      FindAppend(b.bodies, Physics.BodyId, Carrier(e), id);
    }
  }

  /**
   * The pick-up `spawnPowerUp` registers under `id` in an arena of `size`: a
   * rolled type, on the floor at the first drawn spot clear of the centre,
   * created at `now`.
   */
  function Supply(id: nat, size: real, draw: PickupDraw, now: real): (p: PowerUps.PowerUp)
    requires HasClearSpot(size, draw.spots)
    ensures p.id == id && p.kind == PowerUps.RolledType(draw.typeRoll) && p.createdAt == now
    ensures p.position.y == 0.0 && ClearOfCentre((p.position.x, p.position.z))
    ensures exists i :: 0 <= i < |draw.spots| && (p.position.x, p.position.z) == ArenaSpot(size, draw.spots[i])
                        && forall j :: 0 <= j < i ==> !ClearOfCentre(ArenaSpot(size, draw.spots[j]))
  {
    FirstClearIsFirst(size, draw.spots);
    var spot := FirstClear(size, draw.spots).value;
    Dropped(id, draw.typeRoll, Vec3(spot.0, 0.0, spot.1), now)
  }

  // ------------------------------------------------------------ steering

  /**
   * The movement part of `update` on the bodies: the player's velocity is
   * `Steered` by the move; without the player's body nothing changes.
   */
  function Moved(bodies: seq<Physics.Body>, player: nat, move: (real, real), unit: (real, real) -> (real, real), speed: real): seq<Physics.Body> {
    match Find(bodies, Physics.BodyId, player)
    case None => bodies
    case Some(b) => Physics.Edited(bodies, player, Physics.SetVelocity(Steered(b.velocity, move, unit, speed)))
  }

  /** The jump part of `update` on the bodies: an upward impulse of 8 on the player's body when it `CanJump`. */
  function Leapt(bodies: seq<Physics.Body>, player: nat): seq<Physics.Body> {
    match Find(bodies, Physics.BodyId, player)
    case None => bodies
    case Some(b) =>
      if CanJump(b.position, b.velocity) then Physics.Edited(bodies, player, Physics.Push(Vec3(0.0, JumpImpulse, 0.0)))
      else bodies
  }

  /** The player's half of `update` on the bodies, for the input `s`, the yaw after looking and the stride. */
  function Maneuvered(bodies: seq<Physics.Body>, player: nat, s: Input.InputState, trig: Trig, yaw: real, speed: real): seq<Physics.Body> {
    var moved := Moved(bodies, player, MoveVector(s.forward, s.backward, s.left, s.right, trig.sin(yaw), trig.cos(yaw)), trig.unit, speed);
    if s.jump then Leapt(moved, player) else moved
  }

  /**
   * Steering touches the player's body alone and never a position: the ids
   * stay in order, every other body is as it was, and the player's body
   * stands where it stood.
   */
  lemma ManeuveredStationary(bodies: seq<Physics.Body>, player: nat, s: Input.InputState, trig: Trig, yaw: real, speed: real)
    requires Increasing(bodies, Physics.BodyId)
    ensures Increasing(Maneuvered(bodies, player, s, trig, yaw, speed), Physics.BodyId)
    ensures Keys(Maneuvered(bodies, player, s, trig, yaw, speed), Physics.BodyId) == Keys(bodies, Physics.BodyId)
    ensures forall id :: id != player ==> Find(Maneuvered(bodies, player, s, trig, yaw, speed), Physics.BodyId, id) == Find(bodies, Physics.BodyId, id)
    ensures Physics.PositionOf(Maneuvered(bodies, player, s, trig, yaw, speed), player) == Physics.PositionOf(bodies, player)
  {
    var move := MoveVector(s.forward, s.backward, s.left, s.right, trig.sin(yaw), trig.cos(yaw));
    var moved := Moved(bodies, player, move, trig.unit, speed);
    MovedKeeps(bodies, player, move, trig.unit, speed);
    if s.jump {
      LeaptKeeps(moved, player);
    }
  }

  /** Setting the player's velocity keeps the ids in order and every other body, and moves nothing. */
  lemma MovedKeeps(bodies: seq<Physics.Body>, player: nat, move: (real, real), unit: (real, real) -> (real, real), speed: real)
    requires Increasing(bodies, Physics.BodyId)
    ensures Increasing(Moved(bodies, player, move, unit, speed), Physics.BodyId)
    ensures Keys(Moved(bodies, player, move, unit, speed), Physics.BodyId) == Keys(bodies, Physics.BodyId)
    ensures forall id :: id != player ==> Find(Moved(bodies, player, move, unit, speed), Physics.BodyId, id) == Find(bodies, Physics.BodyId, id)
    ensures Physics.PositionOf(Moved(bodies, player, move, unit, speed), player) == Physics.PositionOf(bodies, player)
  {
    match Find(bodies, Physics.BodyId, player)
    case None =>
    case Some(b) => EditKeeps(bodies, player, Physics.SetVelocity(Steered(b.velocity, move, unit, speed)));
  }

  /** The jump impulse keeps the ids in order and every other body, and moves nothing. */
  lemma LeaptKeeps(bodies: seq<Physics.Body>, player: nat)
    requires Increasing(bodies, Physics.BodyId)
    ensures Increasing(Leapt(bodies, player), Physics.BodyId)
    ensures Keys(Leapt(bodies, player), Physics.BodyId) == Keys(bodies, Physics.BodyId)
    ensures forall id :: id != player ==> Find(Leapt(bodies, player), Physics.BodyId, id) == Find(bodies, Physics.BodyId, id)
    ensures Physics.PositionOf(Leapt(bodies, player), player) == Physics.PositionOf(bodies, player)
  {
    match Find(bodies, Physics.BodyId, player)
    case None =>
    case Some(b) => EditKeeps(bodies, player, Physics.Push(Vec3(0.0, JumpImpulse, 0.0)));
  }

  /** An edit that sets no position keeps the ids in order and every other body, and moves nothing. */
  lemma EditKeeps(bodies: seq<Physics.Body>, id: nat, e: Physics.Edit)
    requires Increasing(bodies, Physics.BodyId) && !e.SetPosition?
    ensures Increasing(Physics.Edited(bodies, id, e), Physics.BodyId)
    ensures Keys(Physics.Edited(bodies, id, e), Physics.BodyId) == Keys(bodies, Physics.BodyId)
    ensures forall k :: k != id ==> Find(Physics.Edited(bodies, id, e), Physics.BodyId, k) == Find(bodies, Physics.BodyId, k)
    ensures Physics.PositionOf(Physics.Edited(bodies, id, e), id) == Physics.PositionOf(bodies, id)
  {
    forall k {
      Physics.EditedLookup(bodies, id, e, k);
    }
  }

  // ------------------------------------------------------------ one frame

  /**
   * What one frame of play reads and writes of the session, as a value, with
   * the score and the frame clock, which a frame of play leaves alone.
   */
  datatype Session = Session(yaw: real, pitch: real, movementSpeed: real, spawnTimer: real, powerUpSpawnTimer: real,
                             enemyBodyMap: map<nat, nat>, battle: Battle, pickups: seq<PowerUps.PowerUp>,
                             effects: map<PowerUps.PowerUpType, real>, arms: Weapons.Arsenal, modelsLoaded: bool,
                             input: Input.InputState, tally: Rules.Tally, clock: real)

  /** The next enemy, body and pick-up ids. */
  datatype Serials = Serials(enemy: nat, body: nat, pickup: nat)

  /** A frame's new session, with the battle once a due enemy joined, the pick-ups once a due one spawned, and the one collected. */
  datatype Turnout = Turnout(after: Session, arrived: Battle, stocked: seq<PowerUps.PowerUp>, collected: Option<PowerUps.PowerUp>)

  /**
   * The player's half of `update` on the body `player`: the input is read
   * (the mouse movement is consumed), the camera turns, the stride is set,
   * the body is `Maneuvered` and the weapons `Tick`; nothing else changes.
   */
  function Steering(w: Session, dt: real, trig: Trig, now: real, player: nat): Session {
    var s := w.input;
    var yaw := w.yaw - s.mouseDeltaX * MouseSensitivity;
    var speed := Stride(s.forward, s.backward, s.left, s.right, s.sprint, PowerUps.EffectActive(w.effects, PowerUps.Speed, now),
                        trig.sin(yaw), trig.cos(yaw));
    w.(yaw := yaw, pitch := ClampPitch(w.pitch - s.mouseDeltaY * MouseSensitivity), movementSpeed := speed,
       battle := w.battle.(bodies := Maneuvered(w.battle.bodies, player, s, trig, yaw, speed)),
       arms := Weapons.Tick(w.arms, dt, w.modelsLoaded), input := s.(mouseDeltaX := 0.0, mouseDeltaY := 0.0))
  }

  /**
   * The spawn timers of `update` in a level of `config`: when the enemy timer
   * has run to the level's interval and there is room, an enemy `Recruit`ed
   * under the ids `ids` joins the battle on its box; every 15 seconds a
   * `Supply`d pick-up joins the field. Each timer restarts when it fires.
   */
  function Arrived(w: Session, dt: real, frame: Frame, difficulty: int, config: LevelConfig, ids: Serials): Turnout
    requires HasClearSpot(config.arenaSize, frame.pickup.spots)
  {
    var due := w.spawnTimer + dt >= config.spawnInterval && |w.battle.enemies| < config.maxEnemies;
    var pickupDue := w.powerUpSpawnTimer + dt >= PowerUpSpawnInterval;
    var arrived := if due then Reinforced(w.battle, Recruit(ids.enemy, ids.body, frame.enemy, difficulty, config.arenaSize)) else w.battle;
    var stocked := if pickupDue then w.pickups + [Supply(ids.pickup, config.arenaSize, frame.pickup, frame.now)] else w.pickups;
    Turnout(w.(spawnTimer := if due then 0.0 else w.spawnTimer + dt,
               powerUpSpawnTimer := if pickupDue then 0.0 else w.powerUpSpawnTimer + dt,
               enemyBodyMap := if due then w.enemyBodyMap[ids.body := ids.enemy] else w.enemyBodyMap,
               battle := arrived, pickups := stocked),
            arrived, stocked, None)
  }

  /**
   * The enemies' turn and the pick-ups of `update`: the battle is `Fought`,
   * the pick-ups and effects expire, and the first live pick-up in reach of
   * the player, if any, is collected: it leaves the field and takes effect
   * on the vitals, the effects and the weapons.
   */
  function Engaged(w: Session, dt: real, playerPos: Option<Vec3>, now: real, trig: Trig): (Session, Option<PowerUps.PowerUp>) {
    var fought := Fought(w.battle, dt, playerPos, now, trig);
    var live := PowerUps.Unexpired(w.pickups, now);
    var effects := PowerUps.PruneEffects(w.effects, now);
    var collected := match playerPos
      case None => None
      case Some(p) => PowerUps.Reached(live, p, PowerUps.DefaultCollectionRadius);
    match collected
    case None => (w.(battle := fought, pickups := live, effects := effects), None)
    case Some(c) =>
      (w.(battle := fought.(vitals := PickedUp(fought.vitals, c.kind)), pickups := Without(live, PowerUps.PowerUpId, c.id),
          effects := PowerUps.Collected(effects, c.kind, now), arms := Rearmed(w.arms, c.kind, w.modelsLoaded)),
       collected)
  }

  /** The world's half of `update`: `Arrived`, then `Engaged`. */
  function Populated(w: Session, dt: real, frame: Frame, playerPos: Option<Vec3>, difficulty: int, config: LevelConfig, ids: Serials): Turnout
    requires HasClearSpot(config.arenaSize, frame.pickup.spots)
  {
    var a := Arrived(w, dt, frame, difficulty, config, ids);
    var e := Engaged(a.after, dt, playerPos, frame.now, frame.trig);
    Turnout(e.0, a.arrived, a.stocked, e.1)
  }

  /** `Arrived` is the enemy timer, then the pick-up timer. */
  lemma ArrivedSteps(w: Session, enlisted: Session, r: Session, dt: real, frame: Frame, difficulty: int, config: LevelConfig, ids: Serials)
    requires HasClearSpot(config.arenaSize, frame.pickup.spots)
    requires var due := w.spawnTimer + dt >= config.spawnInterval && |w.battle.enemies| < config.maxEnemies;
      enlisted == w.(spawnTimer := if due then 0.0 else w.spawnTimer + dt,
                     enemyBodyMap := if due then w.enemyBodyMap[ids.body := ids.enemy] else w.enemyBodyMap,
                     battle := if due then Reinforced(w.battle, Recruit(ids.enemy, ids.body, frame.enemy, difficulty, config.arenaSize)) else w.battle)
    requires var due := w.powerUpSpawnTimer + dt >= PowerUpSpawnInterval;
      r == enlisted.(powerUpSpawnTimer := if due then 0.0 else w.powerUpSpawnTimer + dt,
                     pickups := if due then w.pickups + [Supply(ids.pickup, config.arenaSize, frame.pickup, frame.now)] else w.pickups)
    ensures Arrived(w, dt, frame, difficulty, config, ids) == Turnout(r, enlisted.battle, r.pickups, None)
  {
  }

  /** `Steering` is the look, then the movement and jump, then the weapons' step. */
  lemma SteeringSteps(w: Session, looked: Session, moved: Session, r: Session, dt: real, trig: Trig, now: real, player: nat)
    requires looked == w.(yaw := looked.yaw, pitch := looked.pitch, input := looked.input)
    requires looked.yaw == w.yaw - w.input.mouseDeltaX * MouseSensitivity
    requires looked.pitch == ClampPitch(w.pitch - w.input.mouseDeltaY * MouseSensitivity)
    requires looked.input == w.input.(mouseDeltaX := 0.0, mouseDeltaY := 0.0)
    requires moved == looked.(movementSpeed := moved.movementSpeed, battle := looked.battle.(bodies := moved.battle.bodies))
    requires moved.movementSpeed == Stride(w.input.forward, w.input.backward, w.input.left, w.input.right, w.input.sprint,
                                           PowerUps.EffectActive(looked.effects, PowerUps.Speed, now), trig.sin(looked.yaw), trig.cos(looked.yaw))
    requires moved.battle.bodies == Maneuvered(looked.battle.bodies, player, w.input, trig, looked.yaw, moved.movementSpeed)
    requires r == moved.(arms := Weapons.Tick(moved.arms, dt, moved.modelsLoaded), input := r.input) && r.input == moved.input
    ensures r == Steering(w, dt, trig, now, player)
  {
  }

  /** One `update(dt)` in play: `Steering`, then `Populated` from where the player stood before the step. */
  function Played(w: Session, dt: real, frame: Frame, player: nat, difficulty: int, config: LevelConfig, ids: Serials): Turnout
    requires HasClearSpot(config.arenaSize, frame.pickup.spots)
  {
    Populated(Steering(w, dt, frame.trig, frame.now, player), dt, frame, Physics.PositionOf(w.battle.bodies, player), difficulty, config, ids)
  }

  /** A frame of play leaves the score, the kills, the level and the clock alone. */
  lemma PlayedKeeps(w: Session, dt: real, frame: Frame, player: nat, difficulty: int, config: LevelConfig, ids: Serials)
    requires HasClearSpot(config.arenaSize, frame.pickup.spots)
    ensures Played(w, dt, frame, player, difficulty, config, ids).after.tally == w.tally
    ensures Played(w, dt, frame, player, difficulty, config, ids).after.clock == w.clock
  {
  }

  class GameSession {
    const physics: Physics.PhysicsWorld
    const weapons: Weapons.WeaponSystem
    const enemies: Enemies.EnemyRegistry
    const powerUps: PowerUps.PowerUpRegistry
    const input: Input.InputDevice

    /** The `state$`, `score$`, `health$`, `shield$`, `kills$`, `level$` and `wave$` streams. */
    var state: GameState
    var score: int
    var health: int
    var shield: int
    var kills: nat
    var level: int
    var wave: int

    /** -1 until the player's capsule exists. */
    var playerBodyId: int
    var yaw: real
    var pitch: real
    var movementSpeed: real
    /** `enemyBodyMap`: physics body id to the id of the enemy it carries. */
    var enemyBodyMap: map<nat, nat>
    var spawnTimer: real
    var powerUpSpawnTimer: real
    var currentLevel: nat
    var killsThisLevel: nat
    var lastTime: real
    var initialized: bool

    function Tally(): Rules.Tally
      reads this`score, this`kills, this`level, this`killsThisLevel
    {
      Rules.Tally(score, kills, level, killsThisLevel)
    }

    /** The part of the session the enemies' turn reads and writes. */
    function Battlefield(): Battle
      reads this`health, this`shield, enemies, physics
    {
      Battle(enemies.enemies, physics.bodies, Vitals(health, shield))
    }

    /** The part of the session the shots read and write. */
    function FieldOfFire(): Field
      reads this`score, this`kills, this`level, this`killsThisLevel, this`enemyBodyMap, enemies, physics, powerUps
    {
      Field(enemies.enemies, Tally(), physics.bodies, enemyBodyMap, powerUps.powerUps, powerUps.nextPowerId)
    }

    /** The part of the session a frame of play reads and writes. */
    function Snap(): Session
      reads this`yaw, this`pitch, this`movementSpeed, this`spawnTimer, this`powerUpSpawnTimer, this`enemyBodyMap,
        this`health, this`shield, this`score, this`kills, this`level, this`killsThisLevel, this`lastTime,
        enemies, physics, powerUps, weapons, input
    {
      Session(yaw, pitch, movementSpeed, spawnTimer, powerUpSpawnTimer, enemyBodyMap, Battlefield(), powerUps.powerUps,
              powerUps.activeEffects, weapons.View(), weapons.modelsLoaded, input.CurrentState(), Tally(), lastTime)
    }

    function NextIds(): Serials
      reads enemies, physics, powerUps
    {
      Serials(enemies.nextEnemyId, physics.nextBodyId, powerUps.nextPowerId)
    }

    /** Everything that holds between any two steps of the service, even halfway through a frame. */
    ghost predicate Consistent()
      reads this`state, this`initialized, this`playerBodyId, this`health, this`shield, this`level, this`killsThisLevel,
        this`currentLevel, this`pitch, this`enemyBodyMap, physics, enemies, powerUps, weapons
    {
      && physics.Valid() && enemies.Valid() && powerUps.Valid() && weapons.Valid()
      && (state != Menu ==> initialized)
      && (initialized ==> physics.initialized && playerBodyId >= 0)
      && 0 <= health <= MaxHealth && 0 <= shield <= ShieldAmount
      && level >= 1 && killsThisLevel < KillsPerLevel
      && currentLevel == 0
      && -PitchLimit <= pitch <= PitchLimit
      && |enemies.enemies| <= ConfigFor(currentLevel).maxEnemies
      && forall e :: e in enemies.enemies ==> Indexed(e, enemyBodyMap, physics.nextBodyId)
    }

    /** Between calls, in addition: a run in progress has a living player, and a finished one a dead player. */
    ghost predicate Valid()
      reads this`state, this`initialized, this`playerBodyId, this`health, this`shield, this`level, this`killsThisLevel,
        this`currentLevel, this`pitch, this`enemyBodyMap, physics, enemies, powerUps, weapons
    {
      && Consistent()
      && (state == Playing || state == Paused ==> health > 0)
      && (state == GameOver ==> health == 0)
    }

    constructor ()
      ensures Valid() && fresh(physics) && fresh(weapons) && fresh(enemies) && fresh(powerUps) && fresh(input)
      ensures state == Menu && !initialized && !physics.initialized && physics.bodies == []
      ensures Tally() == Rules.Tally(0, 0, 1, 0) && health == MaxHealth && shield == 0 && wave == 1
    {
      physics := new Physics.PhysicsWorld();
      weapons := new Weapons.WeaponSystem();
      enemies := new Enemies.EnemyRegistry();
      powerUps := new PowerUps.PowerUpRegistry();
      input := new Input.InputDevice();
      state := Menu;
      score, health, shield, kills, level, wave := 0, MaxHealth, 0, 0, 1, 1;
      playerBodyId := -1;
      yaw, pitch, movementSpeed := 0.0, 0.0, 0.0;
      enemyBodyMap := map[];
      spawnTimer, powerUpSpawnTimer := 0.0, 0.0;
      currentLevel, killsThisLevel := 0, 0;
      lastTime := 0.0;
      initialized := false;
    }

    // ------------------------------------------------------------ set-up

    /**
     * `initialize`: loads the engine, the input device and the weapons, builds
     * level 0 (floor, four walls and its obstacles, all static) and the
     * player's capsule, which is the last body created.
     */
    method Initialize(mobile: bool, obstacles: seq<ObstacleDraw>)
      requires Valid()
      requires |obstacles| == ConfigFor(0).obstacleCount
      requires forall i :: 0 <= i < |obstacles| ==> HasClearSpot(ConfigFor(0).arenaSize, obstacles[i].spots)
      modifies this`currentLevel, this`playerBodyId, this`initialized, physics, weapons, input
      ensures Valid() && initialized && state == old(state) && Tally() == old(Tally())
      ensures |physics.bodies| == |old(physics.bodies)| + 5 + |obstacles| + 1
      ensures physics.bodies[..|old(physics.bodies)|] == old(physics.bodies)
      ensures forall k :: |old(physics.bodies)| <= k < |physics.bodies| - 1 ==> physics.bodies[k].isStatic
      ensures forall k :: |old(physics.bodies)| + 5 <= k < |physics.bodies| - 1 ==>
        ClearOfCentre((physics.bodies[k].position.x, physics.bodies[k].position.z))
      ensures playerBodyId == physics.bodies[|physics.bodies| - 1].id
      ensures physics.bodies[|physics.bodies| - 1] == Physics.Body(playerBodyId as nat, Physics.Capsule(0.5, 0.4), false, PlayerStart, Zero, Zero)
      ensures weapons.modelsLoaded && input.hasCanvas && input.isMobile == mobile
    {
      LoadServices(mobile);
      CreateLevel(0, obstacles);
      CreatePlayer();
      initialized := true;
    }

    /** The start of `initialize`: the physics engine is loaded, the input device attached and the weapons loaded. */
    method LoadServices(mobile: bool)
      requires Consistent()
      modifies physics, weapons, input
      ensures Consistent() && physics.initialized
      ensures physics.bodies == old(physics.bodies)
      ensures weapons.modelsLoaded && input.hasCanvas && input.isMobile == mobile
    {
      physics.Initialize();
      input.Initialize(mobile);
      weapons.Initialize();
    }

    /** `createPlayer`: the player's dynamic capsule (half height 0.5, radius 0.4) at the start point. */
    method CreatePlayer()
      requires Consistent() && physics.initialized
      modifies this`playerBodyId, physics
      ensures Consistent() && physics.initialized && playerBodyId >= 0
      ensures physics.bodies == old(physics.bodies) + [Physics.Body(playerBodyId as nat, Physics.Capsule(0.5, 0.4), false, PlayerStart, Zero, Zero)]
    {
      var id := physics.CreateCapsule(0.5, 0.4, PlayerStart, false);
      playerBodyId := id;
    }

    /** `createLevel`: the floor slab, the four walls around the arena and the obstacles. */
    method CreateLevel(levelIndex: nat, obstacles: seq<ObstacleDraw>)
      requires Consistent() && physics.initialized && levelIndex == 0
      requires |obstacles| == ConfigFor(levelIndex).obstacleCount
      requires forall i :: 0 <= i < |obstacles| ==> HasClearSpot(ConfigFor(levelIndex).arenaSize, obstacles[i].spots)
      modifies this`currentLevel, physics
      ensures Consistent() && physics.initialized && currentLevel == levelIndex
      ensures |physics.bodies| == |old(physics.bodies)| + 5 + |obstacles|
      ensures physics.bodies[..|old(physics.bodies)|] == old(physics.bodies)
      ensures forall k :: |old(physics.bodies)| <= k < |physics.bodies| ==> physics.bodies[k].isStatic
      ensures forall k :: |old(physics.bodies)| + 5 <= k < |physics.bodies| ==>
        ClearOfCentre((physics.bodies[k].position.x, physics.bodies[k].position.z))
    {
      currentLevel := levelIndex;
      var config := ConfigFor(levelIndex);
      CreateArena(config.arenaSize);
      CreateObstacles(config, obstacles);
    }

    /** The floor slab under the arena and the four walls at distance `size` from its centre, all static. */
    method CreateArena(size: real)
      requires Consistent() && physics.initialized
      modifies physics
      ensures Consistent() && physics.initialized
      ensures |physics.bodies| == |old(physics.bodies)| + 5
      ensures physics.bodies[..|old(physics.bodies)|] == old(physics.bodies)
      ensures forall k :: |old(physics.bodies)| <= k < |physics.bodies| ==> physics.bodies[k].isStatic
      ensures physics.bodies[|old(physics.bodies)|].position == Vec3(0.0, -0.5, 0.0)
    {
      var h := WallHeight / 2.0;
      var _ := physics.CreateBox(Vec3(size, 0.5, size), Vec3(0.0, -0.5, 0.0), true);
      CreateWall(Vec3(0.0, h, -size), Vec3(size, h, WallThickness));
      CreateWall(Vec3(0.0, h, size), Vec3(size, h, WallThickness));
      CreateWall(Vec3(size, h, 0.0), Vec3(WallThickness, h, size));
      CreateWall(Vec3(-size, h, 0.0), Vec3(WallThickness, h, size));
    }

    /** `createWall`: a static box with half extents `halfExtents` at `position`. */
    method CreateWall(position: Vec3, halfExtents: Vec3)
      requires Consistent() && physics.initialized
      modifies physics
      ensures Consistent() && physics.initialized
      ensures physics.bodies == old(physics.bodies) + [Physics.Body(old(physics.nextBodyId), Physics.Box(halfExtents), true, position, Zero, Zero)]
    {
      var _ := physics.CreateBox(halfExtents, position, true);
    }

    /** `createObstacles`: one static box per draw, at the first spot of its draw clear of the centre. */
    method CreateObstacles(config: LevelConfig, obstacles: seq<ObstacleDraw>)
      requires Consistent() && physics.initialized
      requires forall i :: 0 <= i < |obstacles| ==> HasClearSpot(config.arenaSize, obstacles[i].spots)
      modifies physics
      ensures Consistent() && physics.initialized
      ensures |physics.bodies| == |old(physics.bodies)| + |obstacles|
      ensures physics.bodies[..|old(physics.bodies)|] == old(physics.bodies)
      ensures forall k :: |old(physics.bodies)| <= k < |physics.bodies| ==>
        physics.bodies[k].isStatic && ClearOfCentre((physics.bodies[k].position.x, physics.bodies[k].position.z))
    {
      var i := 0;
      while i < |obstacles|
        invariant 0 <= i <= |obstacles|
        invariant Consistent() && physics.initialized
        invariant |physics.bodies| == |old(physics.bodies)| + i
        invariant physics.bodies[..|old(physics.bodies)|] == old(physics.bodies)
        invariant forall k :: |old(physics.bodies)| <= k < |physics.bodies| ==>
          physics.bodies[k].isStatic && ClearOfCentre((physics.bodies[k].position.x, physics.bodies[k].position.z))
      {
        var spot := PickClearSpot(config.arenaSize, obstacles[i].spots);
        var o := ObstacleAt(spot, obstacles[i].heightRoll, obstacles[i].widthRoll);
        var _ := physics.CreateBox(o.halfExtents, o.position, true);
        i := i + 1;
      }
    }

    // ----------------------------------------------------------- the run

    /**
     * `start`: once initialised, a fresh run: counters reset, enemies and
     * pick-ups cleared, the player put back at the start, the pistol
     * equipped, and the state playing. The enemies' physics bodies and the
     * weapons' stored rounds are left as they were.
     */
    method Start(now: real)
      requires Valid()
      modifies this, physics, enemies, powerUps, weapons
      ensures Valid()
      ensures !old(initialized) ==> state == old(state) && Tally() == old(Tally()) && enemies.enemies == old(enemies.enemies)
      ensures old(initialized) ==> state == Playing && Tally() == Rules.Tally(0, 0, 1, 0)
      ensures old(initialized) ==> health == MaxHealth && shield == 0 && wave == 1 && yaw == 0.0 && pitch == 0.0
      ensures old(initialized) ==> enemies.enemies == [] && enemyBodyMap == map[]
      ensures old(initialized) ==> powerUps.powerUps == [] && powerUps.activeEffects == map[]
      ensures old(initialized) ==> spawnTimer == 0.0 && powerUpSpawnTimer == 0.0 && lastTime == now
      ensures old(initialized) ==> (physics.bodies == Physics.Edited(Physics.Edited(old(physics.bodies), playerBodyId as nat, Physics.SetPosition(PlayerStart)),
                                                                     playerBodyId as nat, Physics.SetVelocity(Zero)))
      ensures old(initialized) ==> weapons.View() == Weapons.Equip(old(weapons.View()), Weapons.Pistol, weapons.modelsLoaded)
    {
      if !initialized {
        return;
      }
      ResetRun(now);
      ClearArena();
      ResetPlayer();
      Arm(Weapons.Pistol);
    }

    /** The counters and timers of a fresh run: no score or kills, level 1, full health, no shield, looking ahead, playing. */
    method ResetRun(now: real)
      requires Consistent() && initialized
      modifies this`state, this`score, this`health, this`shield, this`kills, this`level, this`wave, this`yaw, this`pitch,
        this`killsThisLevel, this`spawnTimer, this`powerUpSpawnTimer, this`lastTime
      ensures Valid()
      ensures state == Playing && Tally() == Rules.Tally(0, 0, 1, 0)
      ensures health == MaxHealth && shield == 0 && wave == 1 && yaw == 0.0 && pitch == 0.0
      ensures spawnTimer == 0.0 && powerUpSpawnTimer == 0.0 && lastTime == now
    {
      ResetCounters();
      state := Playing;
      spawnTimer, powerUpSpawnTimer, lastTime := 0.0, 0.0, now;
    }

    /** The counters of a fresh run. */
    method ResetCounters()
      requires Consistent()
      modifies this`score, this`health, this`shield, this`kills, this`level, this`wave, this`yaw, this`pitch, this`killsThisLevel
      ensures Consistent()
      ensures Tally() == Rules.Tally(0, 0, 1, 0) && health == MaxHealth && shield == 0 && wave == 1 && yaw == 0.0 && pitch == 0.0
    {
      ClearTally();
      wave := 1;
      health, shield := MaxHealth, 0;
      yaw, pitch := 0.0, 0.0;
    }

    /** No score and no kills, at level 1. */
    method ClearTally()
      requires Consistent()
      modifies this`score, this`kills, this`level, this`killsThisLevel
      ensures Consistent() && Tally() == Rules.Tally(0, 0, 1, 0)
    {
      score, kills := 0, 0;
      level, killsThisLevel := 1, 0;
    }

    /** `enemyService.destroy()`, `enemyBodyMap.clear()` and `powerUpService.destroy()`. */
    method ClearArena()
      requires Consistent()
      modifies this`enemyBodyMap, enemies, powerUps
      ensures Consistent()
      ensures enemies.enemies == [] && enemyBodyMap == map[]
      ensures powerUps.powerUps == [] && powerUps.activeEffects == map[]
    {
      enemies.Destroy();
      enemyBodyMap := map[];
      powerUps.Destroy();
    }

    /** The player's capsule back at the start, at rest. */
    method ResetPlayer()
      requires Consistent() && initialized
      modifies physics
      ensures Consistent()
      ensures physics.initialized == old(physics.initialized) && physics.nextBodyId == old(physics.nextBodyId)
      ensures physics.bodies == Physics.Edited(Physics.Edited(old(physics.bodies), playerBodyId as nat, Physics.SetPosition(PlayerStart)),
                                               playerBodyId as nat, Physics.SetVelocity(Zero))
    {
      physics.SetBodyPosition(playerBodyId as nat, PlayerStart);
      physics.SetLinearVelocity(playerBodyId as nat, Zero);
    }

    /** `weaponService.equipWeapon(t)`. */
    method Arm(t: Weapons.WeaponType)
      requires Consistent()
      modifies weapons
      ensures Consistent()
      ensures weapons.modelsLoaded == old(weapons.modelsLoaded)
      ensures weapons.View() == Weapons.Equip(old(weapons.View()), t, weapons.modelsLoaded)
    {
      weapons.EquipWeapon(t);
    }

    /** `restart`. */
    method Restart(now: real)
      requires Valid()
      modifies this, physics, enemies, powerUps, weapons
      ensures Valid()
      ensures old(initialized) ==> state == Playing && Tally() == Rules.Tally(0, 0, 1, 0) && health == MaxHealth
      ensures !old(initialized) ==> state == old(state) && Tally() == old(Tally())
    {
      Start(now);
    }

    /**
     * `gameLoop` at time `now`: outside play nothing happens; otherwise the
     * frame's `dt` is the time since the last frame capped at 0.1 s, the clock
     * is remembered and the world is updated.
     */
    method GameLoop(frame: Frame)
      returns (ghost arrived: Battle, ghost stocked: seq<PowerUps.PowerUp>, ghost collected: Option<PowerUps.PowerUp>)
      requires Valid() && lastTime <= frame.now
      requires IsRoll(frame.pickup.typeRoll) && HasClearSpot(ConfigFor(currentLevel).arenaSize, frame.pickup.spots)
      modifies this, physics, enemies, powerUps, weapons, input
      ensures Valid()
      ensures old(state) != Playing ==> unchanged(this, physics, enemies, powerUps, weapons, input)
      ensures old(state) == Playing ==> lastTime == frame.now && Tally() == old(Tally())
      ensures old(state) == Playing ==> (state == Playing <==> health > 0) && (state == GameOver <==> health == 0)
      ensures old(state) == Playing ==>
        Turnout(Snap(), arrived, stocked, collected)
        == Played(old(Snap()).(clock := frame.now), FrameDelta(old(lastTime), frame.now), frame, playerBodyId as nat, Difficulty(level, kills),
                  ConfigFor(currentLevel), old(NextIds()))
    {
      if state != Playing {
        arrived, stocked, collected := Battlefield(), powerUps.powerUps, None;
        return;
      }
      var dt := FrameDelta(lastTime, frame.now);
      lastTime := frame.now;
      assert Snap() == old(Snap()).(clock := frame.now);
      arrived, stocked, collected := Update(dt, frame);
      PlayedKeeps(old(Snap()).(clock := frame.now), dt, frame, playerBodyId as nat, Difficulty(level, kills), ConfigFor(currentLevel), old(NextIds()));
    }

    /**
     * `update(dt)`: look, move and jump from the input, step the physics and
     * the weapons, spawn on the timers, let the enemies act, expire and
     * collect pick-ups, and end the run when health has run out. Frames never
     * change the score, the kills or the level.
     */
    method Update(dt: real, frame: Frame)
      returns (ghost arrived: Battle, ghost stocked: seq<PowerUps.PowerUp>, ghost collected: Option<PowerUps.PowerUp>)
      requires Valid() && state == Playing && 0.0 <= dt <= 0.1
      requires IsRoll(frame.pickup.typeRoll) && HasClearSpot(ConfigFor(currentLevel).arenaSize, frame.pickup.spots)
      modifies this`state, this`health, this`shield, this`yaw, this`pitch, this`movementSpeed, this`enemyBodyMap,
        this`spawnTimer, this`powerUpSpawnTimer, physics, enemies, powerUps, weapons, input
      ensures Valid()
      ensures (state == Playing <==> health > 0) && (state == GameOver <==> health == 0)
      ensures Turnout(Snap(), arrived, stocked, collected)
              == Played(old(Snap()), dt, frame, playerBodyId as nat, Difficulty(level, kills), ConfigFor(currentLevel), old(NextIds()))
    {
      var playerPos := Steer(dt, frame.trig, frame.now);
      var taken;
      arrived, stocked, taken := Populate(dt, frame, playerPos);
      collected := taken;
      EndIfDead();
    }

    /** The last step of `update`: the run ends when health has run out. */
    method EndIfDead()
      requires Consistent() && initialized && state == Playing
      modifies this`state
      ensures Valid() && (state == Playing <==> health > 0) && (state == GameOver <==> health == 0)
      ensures Snap() == old(Snap())
    {
      if health <= 0 {
        EndRun();
      }
    }

    /** `gameOver`: the run ends with the player dead; the frame loop stops. */
    method EndRun()
      requires Consistent() && initialized && health <= 0
      modifies this`state
      ensures Valid() && state == GameOver && health == 0
      ensures Snap() == old(Snap())
    {
      state := GameOver;
    }

    /**
     * The player's half of `update`, up to and including the weapons' step, as
     * `Steering` says; it yields the player's position, which steering never
     * changes.
     */
    method Steer(dt: real, trig: Trig, now: real) returns (playerPos: Option<Vec3>)
      requires Consistent() && initialized && dt >= 0.0
      modifies this`yaw, this`pitch, this`movementSpeed, input, physics, weapons
      ensures Consistent()
      ensures Snap() == Steering(old(Snap()), dt, trig, now, playerBodyId as nat)
      ensures NextIds() == old(NextIds()) && physics.initialized == old(physics.initialized)
      ensures playerPos == Physics.PositionOf(old(physics.bodies), playerBodyId as nat)
    {
      ghost var w := Snap();
      var s := Look();
      ghost var looked := Snap();
      Maneuver(s, trig, now);
      ghost var moved := Snap();
      playerPos := Advance(dt);
      SteeringSteps(w, looked, moved, Snap(), dt, trig, now, playerBodyId as nat);
    }

    /** The movement and jump parts of `update` for the input `s`: the player's body is `Maneuvered`, and stands where it stood. */
    method Maneuver(s: Input.InputState, trig: Trig, now: real)
      requires Consistent() && initialized
      modifies this`movementSpeed, physics
      ensures Consistent()
      ensures physics.nextBodyId == old(physics.nextBodyId) && physics.initialized == old(physics.initialized)
      ensures movementSpeed == Stride(s.forward, s.backward, s.left, s.right, s.sprint,
                                      PowerUps.EffectActive(powerUps.activeEffects, PowerUps.Speed, now), trig.sin(yaw), trig.cos(yaw))
      ensures physics.bodies == Maneuvered(old(physics.bodies), playerBodyId as nat, s, trig, yaw, movementSpeed)
      ensures Physics.PositionOf(physics.bodies, playerBodyId as nat) == Physics.PositionOf(old(physics.bodies), playerBodyId as nat)
      ensures Snap() == old(Snap()).(movementSpeed := movementSpeed, battle := old(Battlefield()).(bodies := physics.bodies))
    {
      MovePlayer(s, trig, now);
      if s.jump {
        Jump();
      }
      ManeuveredStationary(old(physics.bodies), playerBodyId as nat, s, trig, yaw, movementSpeed);
    }

    /**
     * The world's half of `update`: the spawn timers (`arrived` is the
     * battle once a due enemy has spawned), the enemies' turn as `Fought`
     * says, then the pick-ups expire and the one in reach, if any, is
     * `collected` and takes effect.
     */
    method Populate(dt: real, frame: Frame, playerPos: Option<Vec3>)
      returns (ghost arrived: Battle, ghost stocked: seq<PowerUps.PowerUp>, collected: Option<PowerUps.PowerUp>)
      requires Consistent() && initialized
      requires IsRoll(frame.pickup.typeRoll) && HasClearSpot(ConfigFor(currentLevel).arenaSize, frame.pickup.spots)
      modifies this`spawnTimer, this`powerUpSpawnTimer, this`enemyBodyMap, this`health, this`shield, physics, enemies, powerUps, weapons
      ensures Consistent()
      ensures Turnout(Snap(), arrived, stocked, collected)
              == Populated(old(Snap()), dt, frame, playerPos, Difficulty(level, kills), ConfigFor(currentLevel), old(NextIds()))
    {
      arrived := Arrive(dt, frame);
      stocked := powerUps.powerUps;
      collected := Engage(dt, playerPos, frame.now, frame.trig);
    }

    /** The spawn timers of `update`: a due enemy joins the battle, a due pick-up the field. */
    method Arrive(dt: real, frame: Frame) returns (ghost arrived: Battle)
      requires Consistent() && initialized
      requires IsRoll(frame.pickup.typeRoll) && HasClearSpot(ConfigFor(currentLevel).arenaSize, frame.pickup.spots)
      modifies this`spawnTimer, this`powerUpSpawnTimer, this`enemyBodyMap, physics, enemies, powerUps
      ensures Consistent() && arrived == Battlefield()
      ensures Turnout(Snap(), arrived, powerUps.powerUps, None)
              == Arrived(old(Snap()), dt, frame, Difficulty(level, kills), ConfigFor(currentLevel), old(NextIds()))
    {
      ghost var w, ids := Snap(), NextIds();
      SpawnEnemyOnTimer(dt, frame.enemy);
      ghost var enlisted := Snap();
      SpawnPowerUpOnTimer(dt, frame.pickup, frame.now);
      arrived := Battlefield();
      ArrivedSteps(w, enlisted, Snap(), dt, frame, Difficulty(level, kills), ConfigFor(currentLevel), ids);
    }

    /** The enemies' turn, then the pick-ups: the battle goes as `Fought` says, and a collected pick-up takes effect after it. */
    method Engage(dt: real, playerPos: Option<Vec3>, now: real, trig: Trig) returns (collected: Option<PowerUps.PowerUp>)
      requires Consistent()
      modifies this`health, this`shield, physics, enemies, powerUps, weapons
      ensures Consistent()
      ensures enemies.enemies == Fought(old(Battlefield()), dt, playerPos, now, trig).enemies
      ensures physics.bodies == Fought(old(Battlefield()), dt, playerPos, now, trig).bodies
      ensures Vitals(health, shield) == match collected
        case None => Fought(old(Battlefield()), dt, playerPos, now, trig).vitals
        case Some(c) => PickedUp(Fought(old(Battlefield()), dt, playerPos, now, trig).vitals, c.kind)
      ensures collected.Some? ==> playerPos.Some? && PowerUps.InReach(collected.value, playerPos.value, PowerUps.DefaultCollectionRadius)
      ensures collected == match playerPos
        case None => None
        case Some(p) => PowerUps.Reached(PowerUps.Unexpired(old(powerUps.powerUps), now), p, PowerUps.DefaultCollectionRadius)
      ensures powerUps.powerUps == match collected
        case None => PowerUps.Unexpired(old(powerUps.powerUps), now)
        case Some(c) => Without(PowerUps.Unexpired(old(powerUps.powerUps), now), PowerUps.PowerUpId, c.id)
      ensures powerUps.activeEffects == match collected
        case None => PowerUps.PruneEffects(old(powerUps.activeEffects), now)
        case Some(c) => PowerUps.Collected(PowerUps.PruneEffects(old(powerUps.activeEffects), now), c.kind, now)
      ensures weapons.modelsLoaded == old(weapons.modelsLoaded)
      ensures weapons.View() == match collected
        case None => old(weapons.View())
        case Some(c) => Rearmed(old(weapons.View()), c.kind, weapons.modelsLoaded)
      ensures (Snap(), collected) == Engaged(old(Snap()), dt, playerPos, now, trig)
    {
      ghost var w := Snap();
      UpdateEnemies(dt, playerPos, now, trig);
      ghost var fought := Snap();
      collected := CollectPowerUps(playerPos, now);
      assert fought == w.(battle := fought.battle);
      assert Snap() == fought.(battle := fought.battle.(vitals := Vitals(health, shield)), pickups := powerUps.powerUps,
                               effects := powerUps.activeEffects, arms := weapons.View());
    }

    /** The look part of `update`: the input is read (which starts a new mouse accumulation), yaw turns and pitch turns within its clamp. */
    method Look() returns (s: Input.InputState)
      requires Consistent()
      modifies this`yaw, this`pitch, input
      ensures Consistent()
      ensures s == old(input.CurrentState())
      ensures yaw == old(yaw) - s.mouseDeltaX * MouseSensitivity
      ensures pitch == ClampPitch(old(pitch) - s.mouseDeltaY * MouseSensitivity)
      ensures input.CurrentState() == s.(mouseDeltaX := 0.0, mouseDeltaY := 0.0)
      ensures Snap() == old(Snap()).(yaw := yaw, pitch := pitch, input := input.CurrentState())
    {
      s := input.GetState();
      yaw, pitch := yaw - s.mouseDeltaX * MouseSensitivity, ClampPitch(pitch - s.mouseDeltaY * MouseSensitivity);
    }

    /**
     * The middle of `update`: the input is read once more, the physics world
     * steps, the player's position is taken, and the weapons advance their
     * reload by `dt`.
     */
    method Advance(dt: real) returns (playerPos: Option<Vec3>)
      requires Consistent() && initialized && dt >= 0.0
      modifies input, weapons
      ensures Consistent()
      ensures playerPos == physics.BodyPosition(playerBodyId as nat)
      ensures weapons.modelsLoaded == old(weapons.modelsLoaded)
      ensures weapons.View() == Weapons.Tick(old(weapons.View()), dt, weapons.modelsLoaded)
      ensures input.CurrentState() == old(input.CurrentState()).(mouseDeltaX := 0.0, mouseDeltaY := 0.0)
      ensures Snap() == old(Snap()).(arms := weapons.View(), input := input.CurrentState())
    {
      var _ := input.GetState();
      var _ := physics.Update(dt);
      playerPos := physics.BodyPosition(playerBodyId as nat);
      weapons.Update(dt, movementSpeed);
    }

    /** The enemy timer of `update`: when it has run to the level's interval and there is room, one enemy spawns and the timer restarts. */
    method SpawnEnemyOnTimer(dt: real, draw: EnemyDraw)
      requires Consistent() && initialized
      modifies this`spawnTimer, this`enemyBodyMap, physics, enemies
      ensures Consistent()
      ensures physics.initialized == old(physics.initialized)
      ensures var due := old(spawnTimer) + dt >= ConfigFor(currentLevel).spawnInterval
                         && |old(enemies.enemies)| < ConfigFor(currentLevel).maxEnemies;
        && spawnTimer == (if due then 0.0 else old(spawnTimer) + dt)
        && |enemies.enemies| == |old(enemies.enemies)| + (if due then 1 else 0)
        && enemies.enemies[..|old(enemies.enemies)|] == old(enemies.enemies)
        && Battlefield() == (if due then Reinforced(old(Battlefield()), Recruit(old(enemies.nextEnemyId), old(physics.nextBodyId), draw,
                                                                                Difficulty(level, kills), ConfigFor(currentLevel).arenaSize))
                             else old(Battlefield()))
        && enemyBodyMap == (if due then old(enemyBodyMap)[old(physics.nextBodyId) := old(enemies.nextEnemyId)] else old(enemyBodyMap))
      ensures Snap() == old(Snap()).(spawnTimer := spawnTimer, enemyBodyMap := enemyBodyMap, battle := Battlefield())
    {
      var config := ConfigFor(currentLevel);
      spawnTimer := spawnTimer + dt;
      if spawnTimer >= config.spawnInterval && |enemies.enemies| < config.maxEnemies {
        SpawnEnemy(draw);
        spawnTimer := 0.0;
      } else {
        assert enemies.enemies[..|enemies.enemies|] == enemies.enemies;
      }
    }

    /** The pick-up timer of `update`: every 15 seconds of play one pick-up spawns and the timer restarts. */
    method SpawnPowerUpOnTimer(dt: real, draw: PickupDraw, now: real)
      requires Consistent()
      requires IsRoll(draw.typeRoll) && HasClearSpot(ConfigFor(currentLevel).arenaSize, draw.spots)
      modifies this`powerUpSpawnTimer, powerUps
      ensures Consistent()
      ensures var due := old(powerUpSpawnTimer) + dt >= PowerUpSpawnInterval;
        && powerUpSpawnTimer == (if due then 0.0 else old(powerUpSpawnTimer) + dt)
        && powerUps.powerUps == (if due then old(powerUps.powerUps) + [Supply(old(powerUps.nextPowerId), ConfigFor(currentLevel).arenaSize, draw, now)]
                                 else old(powerUps.powerUps))
        && powerUps.nextPowerId == old(powerUps.nextPowerId) + (if due then 1 else 0)
      ensures powerUps.activeEffects == old(powerUps.activeEffects)
      ensures Snap() == old(Snap()).(powerUpSpawnTimer := powerUpSpawnTimer, pickups := powerUps.powerUps)
    {
      var timer := powerUpSpawnTimer + dt;
      if timer >= PowerUpSpawnInterval {
        SpawnPowerUp(draw, now);
        timer := 0.0;
      }
      powerUpSpawnTimer := timer;
    }

    /**
     * The end of `update`: expired pick-ups and effects are dropped, and when
     * the player's position is known the first pick-up within 1.5 of it is
     * collected and takes effect.
     */
    method CollectPowerUps(playerPos: Option<Vec3>, now: real) returns (collected: Option<PowerUps.PowerUp>)
      requires Consistent()
      modifies this`health, this`shield, powerUps, weapons
      ensures Consistent()
      ensures Snap() == old(Snap()).(battle := old(Battlefield()).(vitals := Vitals(health, shield)), pickups := powerUps.powerUps,
                                     effects := powerUps.activeEffects, arms := weapons.View())
      ensures collected == match playerPos
        case None => None
        case Some(p) => PowerUps.Reached(PowerUps.Unexpired(old(powerUps.powerUps), now), p, PowerUps.DefaultCollectionRadius)
      ensures powerUps.powerUps == match collected
        case None => PowerUps.Unexpired(old(powerUps.powerUps), now)
        case Some(c) => Without(PowerUps.Unexpired(old(powerUps.powerUps), now), PowerUps.PowerUpId, c.id)
      ensures powerUps.activeEffects == match collected
        case None => PowerUps.PruneEffects(old(powerUps.activeEffects), now)
        case Some(c) => PowerUps.Collected(PowerUps.PruneEffects(old(powerUps.activeEffects), now), c.kind, now)
      ensures Vitals(health, shield) == match collected
        case None => Vitals(old(health), old(shield))
        case Some(c) => PickedUp(Vitals(old(health), old(shield)), c.kind)
      ensures weapons.modelsLoaded == old(weapons.modelsLoaded)
      ensures weapons.View() == match collected
        case None => old(weapons.View())
        case Some(c) => Rearmed(old(weapons.View()), c.kind, weapons.modelsLoaded)
      ensures health >= old(health) && shield >= old(shield)
    {
      powerUps.Update(now);
      collected := None;
      if playerPos.Some? {
        collected := Collect(playerPos.value, now);
      }
    }

    /** The pick-up step of `checkPowerUpCollection` for a known player position: take the first pick-up in reach and apply it. */
    method Collect(p: Vec3, now: real) returns (collected: Option<PowerUps.PowerUp>)
      requires Consistent()
      modifies this`health, this`shield, powerUps, weapons
      ensures Consistent()
      ensures Snap() == old(Snap()).(battle := old(Battlefield()).(vitals := Vitals(health, shield)), pickups := powerUps.powerUps,
                                     effects := powerUps.activeEffects, arms := weapons.View())
      ensures collected == PowerUps.Reached(old(powerUps.powerUps), p, PowerUps.DefaultCollectionRadius)
      ensures powerUps.powerUps == match collected
        case None => old(powerUps.powerUps)
        case Some(c) => Without(old(powerUps.powerUps), PowerUps.PowerUpId, c.id)
      ensures powerUps.activeEffects == match collected
        case None => old(powerUps.activeEffects)
        case Some(c) => PowerUps.Collected(old(powerUps.activeEffects), c.kind, now)
      ensures Vitals(health, shield) == match collected
        case None => Vitals(old(health), old(shield))
        case Some(c) => PickedUp(Vitals(old(health), old(shield)), c.kind)
      ensures weapons.modelsLoaded == old(weapons.modelsLoaded)
      ensures weapons.View() == match collected
        case None => old(weapons.View())
        case Some(c) => Rearmed(old(weapons.View()), c.kind, weapons.modelsLoaded)
    {
      collected := powerUps.CheckCollection(p, PowerUps.DefaultCollectionRadius, now);
      if collected.Some? {
        ghost var picked := Snap();
        HandlePowerUpCollected(collected.value.kind);
        assert Snap() == picked.(battle := picked.battle.(vitals := Vitals(health, shield)), arms := weapons.View());
      }
    }

    /**
     * The movement part of `update`: with an uncancelled direction the player's
     * horizontal velocity becomes the unit heading times the speed (sprint and
     * the speed effect multiply it); otherwise it decays by a tenth. The
     * vertical velocity is kept either way.
     */
    method MovePlayer(s: Input.InputState, trig: Trig, now: real)
      requires Consistent() && initialized
      modifies this`movementSpeed, physics
      ensures Consistent()
      ensures physics.nextBodyId == old(physics.nextBodyId) && physics.initialized == old(physics.initialized)
      ensures movementSpeed == Stride(s.forward, s.backward, s.left, s.right, s.sprint,
                                      PowerUps.EffectActive(powerUps.activeEffects, PowerUps.Speed, now), trig.sin(yaw), trig.cos(yaw))
      ensures physics.bodies == Moved(old(physics.bodies), playerBodyId as nat,
                                      MoveVector(s.forward, s.backward, s.left, s.right, trig.sin(yaw), trig.cos(yaw)), trig.unit, movementSpeed)
      ensures Snap() == old(Snap()).(movementSpeed := movementSpeed, battle := old(Battlefield()).(bodies := physics.bodies))
    {
      var player := playerBodyId as nat;
      var sinYaw, cosYaw := trig.sin(yaw), trig.cos(yaw);
      var move := MoveVector(s.forward, s.backward, s.left, s.right, sinYaw, cosYaw);
      var velocity := physics.LinearVelocity(player);
      var speed := Stride(s.forward, s.backward, s.left, s.right, s.sprint, powerUps.IsEffectActive(PowerUps.Speed, now), sinYaw, cosYaw);
      movementSpeed := speed;
      if velocity.Some? {
        SetPlayerVelocity(Steered(velocity.value, move, trig.unit, speed));
      }
    }

    /** `setLinearVelocity` on the player's capsule. */
    method SetPlayerVelocity(v: Vec3)
      requires Consistent() && initialized
      modifies physics
      ensures Consistent()
      ensures physics.nextBodyId == old(physics.nextBodyId) && physics.initialized == old(physics.initialized)
      ensures physics.bodies == Physics.Edited(old(physics.bodies), playerBodyId as nat, Physics.SetVelocity(v))
    {
      physics.SetLinearVelocity(playerBodyId as nat, v);
    }

    /** The jump part of `update`: an upward impulse of 8 when the player is low and not rising. */
    method Jump()
      requires Consistent() && initialized
      modifies physics
      ensures Consistent()
      ensures physics.nextBodyId == old(physics.nextBodyId) && physics.initialized == old(physics.initialized)
      ensures physics.bodies == Leapt(old(physics.bodies), playerBodyId as nat)
      ensures Snap() == old(Snap()).(battle := old(Battlefield()).(bodies := physics.bodies))
    {
      var player := playerBodyId as nat;
      var position := physics.BodyPosition(player);
      var velocity := physics.LinearVelocity(player);
      if position.Some? && velocity.Some? && CanJump(position.value, velocity.value) {
        physics.AddImpulse(player, Vec3(0.0, JumpImpulse, 0.0));
      }
    }

    /**
     * `spawnEnemy`: a type for the current difficulty, a point on a random
     * side of the arena, a dynamic box there, and the new enemy indexed
     * under that box.
     */
    method SpawnEnemy(draw: EnemyDraw)
      requires Consistent() && initialized
      requires |enemies.enemies| < ConfigFor(currentLevel).maxEnemies
      modifies this`enemyBodyMap, physics, enemies
      ensures Consistent()
      ensures physics.initialized == old(physics.initialized)
      ensures |enemies.enemies| == |old(enemies.enemies)| + 1
      ensures enemies.enemies[..|old(enemies.enemies)|] == old(enemies.enemies)
      ensures Battlefield() == Reinforced(old(Battlefield()), Recruit(old(enemies.nextEnemyId), old(physics.nextBodyId), draw,
                                                                     Difficulty(level, kills), ConfigFor(currentLevel).arenaSize))
      ensures enemyBodyMap == old(enemyBodyMap)[old(physics.nextBodyId) := old(enemies.nextEnemyId)]
      ensures Snap() == old(Snap()).(enemyBodyMap := enemyBodyMap, battle := Battlefield())
    {
      var config := ConfigFor(currentLevel);
      var difficulty := Difficulty(level, kills);
      var kind := Enemies.RandomEnemyType(difficulty, draw.typeRoll);
      var position := EnemySpawnPoint(config.arenaSize, draw.sideRoll, draw.offsetRoll, kind == Enemies.Drone);
      var bodyId := physics.CreateBox(EnemyBox, position, false);
      var e := enemies.CreateEnemy(kind, position, bodyId, draw.phase);
      enemyBodyMap := enemyBodyMap[bodyId := e.id];
      assert enemies.enemies[..|old(enemies.enemies)|] == old(enemies.enemies);
      forall x | x in enemies.enemies ensures Indexed(x, enemyBodyMap, physics.nextBodyId) {
        if x in old(enemies.enemies) {
          assert Indexed(x, old(enemyBodyMap), bodyId);
        }
      }
    }

    /** `spawnPowerUp`: a random type at the first drawn spot clear of the centre, on the floor. */
    method SpawnPowerUp(draw: PickupDraw, now: real)
      requires Consistent()
      requires IsRoll(draw.typeRoll) && HasClearSpot(ConfigFor(currentLevel).arenaSize, draw.spots)
      modifies powerUps
      ensures Consistent()
      ensures powerUps.powerUps == old(powerUps.powerUps) + [Supply(old(powerUps.nextPowerId), ConfigFor(currentLevel).arenaSize, draw, now)]
      ensures powerUps.nextPowerId == old(powerUps.nextPowerId) + 1
      ensures forall i :: 0 <= i < |PowerUps.Types| ==>
        (powerUps.powerUps[|powerUps.powerUps| - 1].kind == PowerUps.Types[i] <==> PowerUps.Cumulative(i) <= draw.typeRoll < PowerUps.Cumulative(i + 1))
      ensures powerUps.activeEffects == old(powerUps.activeEffects)
      ensures Snap() == old(Snap()).(pickups := powerUps.powerUps)
    {
      var spot := PickClearSpot(ConfigFor(currentLevel).arenaSize, draw.spots);
      var kind := PowerUps.RandomPowerUpType(draw.typeRoll);
      var _ := powerUps.SpawnPowerUp(kind, Vec3(spot.0, 0.0, spot.1), now);
    }

    /**
     * `updateEnemies`: with the player's position known, every enemy
     * registered at the start takes its `EnemyTurn`, in registry order.
     * Enemies never leave or join here, and the player's health and shield
     * only fall.
     */
    method UpdateEnemies(dt: real, playerPos: Option<Vec3>, now: real, trig: Trig)
      requires Consistent()
      modifies this`health, this`shield, physics, enemies
      ensures Consistent()
      ensures Snap() == old(Snap()).(battle := Battlefield())
      ensures Battlefield() == Fought(old(Battlefield()), dt, playerPos, now, trig)
      ensures Keys(enemies.enemies, Enemies.EnemyId) == Keys(old(enemies.enemies), Enemies.EnemyId)
      ensures |enemies.enemies| == |old(enemies.enemies)|
      ensures health <= old(health) && shield <= old(shield)
      ensures physics.initialized == old(physics.initialized) && physics.nextBodyId == old(physics.nextBodyId)
    {
      if playerPos.None? {
        return;
      }
      ghost var b0 := Battlefield();
      var snapshot := enemies.enemies;
      var ids := Ids(snapshot);
      var i := 0;
      while i < |snapshot|
        invariant 0 <= i <= |snapshot|
        invariant Consistent()
        invariant Battlefield() == EnemyTurns(b0, ids[..i], dt, playerPos.value, now, trig)
        invariant Keys(enemies.enemies, Enemies.EnemyId) == Keys(snapshot, Enemies.EnemyId)
        invariant |enemies.enemies| == |snapshot|
        invariant health <= old(health) && shield <= old(shield)
        invariant physics.initialized == old(physics.initialized) && physics.nextBodyId == old(physics.nextBodyId)
      {
        ActEnemy(ids[i], dt, playerPos.value, now, trig);
        EnemyTurnsStep(b0, ids, i, dt, playerPos.value, now, trig);
        i := i + 1;
      }
      assert ids[..i] == ids;
    }

    /** One enemy's turn in `updateEnemies`: the session changes as `EnemyTurn` says. */
    method ActEnemy(id: nat, dt: real, target: Vec3, now: real, trig: Trig)
      requires Consistent()
      modifies this`health, this`shield, physics, enemies
      ensures Consistent()
      ensures Battlefield() == EnemyTurn(old(Battlefield()), id, dt, target, now, trig)
      ensures Keys(enemies.enemies, Enemies.EnemyId) == Keys(old(enemies.enemies), Enemies.EnemyId)
      ensures |enemies.enemies| == |old(enemies.enemies)|
      ensures health <= old(health) && shield <= old(shield)
      ensures physics.initialized == old(physics.initialized) && physics.nextBodyId == old(physics.nextBodyId)
    {
      ghost var b0 := Battlefield();
      var found := enemies.GetEnemy(id);
      if found.None? {
        return;
      }
      var before := found.value;
      var enemyPos := physics.BodyPosition(before.bodyId);
      if enemyPos.None? {
        return;
      }
      ghost var body := Find(b0.bodies, Physics.BodyId, before.bodyId).value;
      EnemyTurnIs(b0, id, before, body, dt, target, now, trig);
      TakeTurn(before, body, enemyPos.value, dt, target, now, trig);
    }

    /** The turn of the registered enemy `e`, whose body `body` stands at `p`. */
    method TakeTurn(e: Enemies.Enemy, ghost body: Physics.Body, p: Vec3, dt: real, target: Vec3, now: real, trig: Trig)
      requires Consistent() && e in enemies.enemies && body in physics.bodies && body.id == e.bodyId && p == body.position
      modifies this`health, this`shield, physics, enemies
      ensures Consistent()
      ensures Battlefield() == Turn(old(Battlefield()), e, body, dt, target, now, trig)
      ensures Keys(enemies.enemies, Enemies.EnemyId) == Keys(old(enemies.enemies), Enemies.EnemyId)
      ensures |enemies.enemies| == |old(enemies.enemies)|
      ensures health <= old(health) && shield <= old(shield)
      ensures physics.initialized == old(physics.initialized) && physics.nextBodyId == old(physics.nextBodyId)
    {
      ghost var b0 := Battlefield();
      var animated := PlaceEnemy(e, p, dt, trig);
      assert Battlefield() == b0.(enemies := PlacedAll(b0, e, body, dt, trig));
      Confront(animated, Toward(target, p), now, trig);
    }

    /**
     * The rest of an enemy's turn, with `toward` the horizontal offset from
     * its body to the player: the session changes as `Confronted` says.
     */
    method Confront(enemy: Enemies.Enemy, toward: (real, real), now: real, trig: Trig)
      requires Consistent() && enemy in enemies.enemies
      modifies this`health, this`shield, physics, enemies
      ensures Consistent()
      ensures Battlefield() == Confronted(old(Battlefield()), enemy, toward, now, trig)
      ensures Keys(enemies.enemies, Enemies.EnemyId) == Keys(old(enemies.enemies), Enemies.EnemyId)
      ensures |enemies.enemies| == |old(enemies.enemies)|
      ensures health <= old(health) && shield <= old(shield)
      ensures physics.initialized == old(physics.initialized) && physics.nextBodyId == old(physics.nextBodyId)
    {
      if LengthSq(toward) > 1.0 {
        Chase(enemy.bodyId, Pace(trig.unit(toward.0, toward.1), enemy.stats.speed));
      }
      if Strikes(enemy, toward, now) {
        FindUnique(enemies.enemies, Enemies.EnemyId, enemy);
        assert Enemies.EnemyId(enemy) in Keys(enemies.enemies, Enemies.EnemyId);
        var _, _ := Strike(enemy.id, now);
      }
    }

    /** The enemy takes its body's position `p`, then `updateEnemy` animates it, as `Placed` says. */
    method PlaceEnemy(e: Enemies.Enemy, p: Vec3, dt: real, trig: Trig) returns (animated: Enemies.Enemy)
      requires Consistent() && e in enemies.enemies
      modifies enemies
      ensures Consistent()
      ensures animated == Placed(e, p, dt, trig) && animated in enemies.enemies
      ensures enemies.enemies == Replace(Replace(old(enemies.enemies), Enemies.EnemyId, e.(position := p)), Enemies.EnemyId, animated)
      ensures Keys(enemies.enemies, Enemies.EnemyId) == Keys(old(enemies.enemies), Enemies.EnemyId)
      ensures |enemies.enemies| == |old(enemies.enemies)|
    {
      var placed := e.(position := p);
      Reposition(e, p);
      var bob := trig.sin((e.animationPhase + dt * e.stats.speed) * 3.0);
      Animate(placed, dt, bob);
      animated := Enemies.Animated(placed, dt, bob);
    }

    /** `setPosition` on the registered enemy `e`: it stands at `p`. */
    method Reposition(e: Enemies.Enemy, p: Vec3)
      requires Consistent() && e in enemies.enemies
      modifies enemies
      ensures Consistent() && e.(position := p) in enemies.enemies
      ensures enemies.enemies == Replace(old(enemies.enemies), Enemies.EnemyId, e.(position := p))
    {
      FindUnique(enemies.enemies, Enemies.EnemyId, e);
      assert Enemies.EnemyId(e) in Keys(enemies.enemies, Enemies.EnemyId);
      ghost var s0 := enemies.enemies;
      enemies.SetPosition(e.id, p);
      ReplaceIndexed(s0, e.(position := p), enemyBodyMap, physics.nextBodyId);
      FindAfterReplace(s0, Enemies.EnemyId, e.(position := p), e.id);
    }

    /** `updateEnemy` on the registered enemy `e`: it is `Animated`. */
    method Animate(e: Enemies.Enemy, dt: real, bobSine: real)
      requires Consistent() && e in enemies.enemies
      modifies enemies
      ensures Consistent() && Enemies.Animated(e, dt, bobSine) in enemies.enemies
      ensures enemies.enemies == Replace(old(enemies.enemies), Enemies.EnemyId, Enemies.Animated(e, dt, bobSine))
    {
      FindUnique(enemies.enemies, Enemies.EnemyId, e);
      assert Enemies.EnemyId(e) in Keys(enemies.enemies, Enemies.EnemyId);
      ghost var s0 := enemies.enemies;
      enemies.UpdateEnemy(e.id, dt, bobSine);
      ReplaceIndexed(s0, Enemies.Animated(e, dt, bobSine), enemyBodyMap, physics.nextBodyId);
      FindAfterReplace(s0, Enemies.EnemyId, Enemies.Animated(e, dt, bobSine), e.id);
    }

    /** The chase of `updateEnemies`: the body's horizontal velocity becomes `v`, keeping its vertical velocity. */
    method Chase(bodyId: nat, v: (real, real))
      requires Consistent()
      modifies physics
      ensures Consistent()
      ensures physics.initialized == old(physics.initialized) && physics.nextBodyId == old(physics.nextBodyId)
      ensures physics.bodies == Chased(old(physics.bodies), bodyId, v)
    {
      var velocity := physics.LinearVelocity(bodyId);
      physics.SetLinearVelocity(bodyId, Vec3(v.0, if velocity.Some? then velocity.value.y else 0.0, v.1));
    }

    /** The attack of `updateEnemies`: the enemy's cooldown restarts now and its damage goes to `damagePlayer`. */
    method Strike(id: nat, now: real) returns (damage: int, hurt: bool)
      requires Consistent() && id in Keys(enemies.enemies, Enemies.EnemyId)
      modifies this`health, this`shield, enemies
      ensures Consistent()
      ensures damage == Enemies.Stats(old(enemies.GetEnemy(id)).value.kind).damage
      ensures enemies.enemies == Replace(old(enemies.enemies), Enemies.EnemyId, Enemies.Attacked(old(enemies.GetEnemy(id)).value, now))
      ensures Wound(Vitals(health, shield), hurt) == Absorb(old(Vitals(health, shield)), damage)
      ensures health <= old(health) && shield <= old(shield)
      ensures Keys(enemies.enemies, Enemies.EnemyId) == Keys(old(enemies.enemies), Enemies.EnemyId)
      ensures |enemies.enemies| == |old(enemies.enemies)|
    {
      var attacker := enemies.GetEnemy(id).value;
      ghost var s0 := enemies.enemies;
      damage := enemies.Attack(id, now);
      ReplaceIndexed(s0, Enemies.Attacked(attacker, now), enemyBodyMap, physics.nextBodyId);
      hurt := DamagePlayer(damage);
    }

    /**
     * `damagePlayer`: the enemy's blow goes through `Absorb`; `hurt` is whether
     * it reached health (the hurt sound and `onPlayerHit`).
     */
    method DamagePlayer(damage: int) returns (hurt: bool)
      requires Consistent() && damage >= 0
      modifies this`health, this`shield
      ensures Consistent()
      ensures Wound(Vitals(health, shield), hurt) == Absorb(old(Vitals(health, shield)), damage)
      ensures health <= old(health) && shield <= old(shield)
    {
      var w := Absorb(Vitals(health, shield), damage);
      health, shield := w.vitals.health, w.vitals.shield;
      hurt := w.hurt;
    }

    /** `handlePowerUpCollected`: the pick-up's effect on the player and the weapons. */
    method HandlePowerUpCollected(kind: PowerUps.PowerUpType)
      requires Consistent()
      modifies this`health, this`shield, weapons
      ensures Consistent()
      ensures Vitals(health, shield) == PickedUp(Vitals(old(health), old(shield)), kind)
      ensures weapons.modelsLoaded == old(weapons.modelsLoaded)
      ensures weapons.View() == Rearmed(old(weapons.View()), kind, weapons.modelsLoaded)
      ensures Snap() == old(Snap()).(battle := old(Battlefield()).(vitals := Vitals(health, shield)), arms := weapons.View())
    {
      match kind
      case Health => health := Healed(health);
      case Shield => shield := ShieldAmount;
      case Ammo | Speed | WeaponRifle | WeaponShotgun | WeaponSniper => Rearm(kind);
    }

    /**
     * The weapon cases of `handlePowerUpCollected`: ammo starts a reload, a
     * weapon pick-up equips that weapon, and the other pick-ups leave the
     * weapons alone.
     */
    method Rearm(kind: PowerUps.PowerUpType)
      requires weapons.Valid()
      modifies weapons
      ensures weapons.Valid() && weapons.modelsLoaded == old(weapons.modelsLoaded)
      ensures weapons.View() == Rearmed(old(weapons.View()), kind, weapons.modelsLoaded)
      ensures Snap() == old(Snap()).(arms := weapons.View())
    {
      match kind
      case Ammo => weapons.StartReload();
      case WeaponRifle => weapons.EquipWeapon(Weapons.Rifle);
      case WeaponShotgun => weapons.EquipWeapon(Weapons.Shotgun);
      case WeaponSniper => weapons.EquipWeapon(Weapons.Sniper);
      case Health | Speed | Shield =>
    }

    // ------------------------------------------------------------ shooting

    /**
     * The `onShoot` handler: nothing outside play; a weapon that can fire
     * fires and each of its shots goes through `handleWeaponFire` (shot `i`
     * takes the drop draws `drops(i)`); otherwise an empty magazine clicks.
     * `origin` is the camera's position and `cameraDirection` its direction.
     */
    method OnShoot(now: real, origin: Vec3, cameraDirection: Vec3, pelletDirection: nat -> Vec3, drops: nat -> DropDraw)
      returns (fired: bool, click: bool, ghost shots: seq<Weapons.Shot>)
      requires Valid()
      requires forall i :: IsRoll(drops(i).typeRoll)
      modifies this`score, this`kills, this`level, this`killsThisLevel, this`enemyBodyMap, physics, enemies, powerUps, weapons
      ensures Valid()
      ensures fired <==> old(state) == Playing && old(weapons.CanFireNow(now))
      ensures click <==> old(state) == Playing && !old(weapons.CanFireNow(now)) && old(weapons.displayedAmmo) <= 0
      ensures !fired ==> (Tally() == old(Tally()) && enemies.enemies == old(enemies.enemies) && physics.bodies == old(physics.bodies)
                          && weapons.View() == old(weapons.View()))
      ensures fired ==> weapons.View() == Weapons.Fired(old(weapons.View()), now)
      ensures score >= old(score) && kills >= old(kills)
      ensures !fired ==> shots == []
      ensures fired ==> |shots| == Weapons.Stats(old(weapons.current)).bulletsPerShot
      ensures forall i :: 0 <= i < |shots| ==> shots[i].damage == Weapons.Stats(old(weapons.current)).damage
      ensures forall i :: 0 <= i < |shots| ==>
        shots[i].direction == if Weapons.Stats(old(weapons.current)).spread > 0.0 then pelletDirection(i) else cameraDirection
      ensures FieldOfFire() == Volley(old(FieldOfFire()), origin, shots, drops, now)
      ensures powerUps.activeEffects == old(powerUps.activeEffects)
    {
      fired, click, shots := false, false, [];
      if state != Playing {
        return;
      }
      if weapons.CanFireNow(now) {
        var pellets;
        fired, pellets := weapons.Fire(now, cameraDirection, pelletDirection);
        shots := pellets;
        HandleShots(origin, pellets, drops, now);
      } else {
        click := weapons.displayedAmmo <= 0;
      }
    }

    /** The `onFire` subscription: every shot of one trigger pull, in order, through `handleWeaponFire`. */
    method HandleShots(origin: Vec3, shots: seq<Weapons.Shot>, drops: nat -> DropDraw, now: real)
      requires Consistent()
      requires forall i :: IsRoll(drops(i).typeRoll)
      modifies this`score, this`kills, this`level, this`killsThisLevel, this`enemyBodyMap, physics, enemies, powerUps
      ensures Consistent()
      ensures score >= old(score) && kills >= old(kills)
      ensures |enemies.enemies| <= |old(enemies.enemies)|
      ensures FieldOfFire() == Volley(old(FieldOfFire()), origin, shots, drops, now)
      ensures powerUps.activeEffects == old(powerUps.activeEffects)
    {
      var i := 0;
      while i < |shots|
        invariant 0 <= i <= |shots|
        invariant Consistent()
        invariant score >= old(score) && kills >= old(kills)
        invariant |enemies.enemies| <= |old(enemies.enemies)|
        invariant FieldOfFire() == Volley(old(FieldOfFire()), origin, shots[..i], drops, now)
        invariant powerUps.activeEffects == old(powerUps.activeEffects)
      {
        var _, _ := HandleWeaponFire(origin, shots[i].direction, shots[i].damage, drops(i), now);
        VolleyStep(old(FieldOfFire()), origin, shots, drops, now, i);
        i := i + 1;
      }
      assert shots[..i] == shots;
    }

    /**
     * `handleWeaponFire`: the nearest enemy along the ray within 1000 (as
     * `SelectTarget` picks it) takes the damage and the shot scores 10, plus
     * the kill when it was lethal; with no enemy in the way the physics world
     * is cast against, up to 100, for the impact point only.
     */
    method HandleWeaponFire(origin: Vec3, direction: Vec3, damage: int, drop: DropDraw, now: real)
      returns (target: Option<nat>, impact: Option<Vec3>)
      requires Consistent() && IsRoll(drop.typeRoll)
      modifies this`score, this`kills, this`level, this`killsThisLevel, this`enemyBodyMap, physics, enemies, powerUps
      ensures Consistent()
      ensures target.None? <==> NoneEligible(old(enemies.enemies), Enemies.EnemyCentre, Enemies.EnemyHitRadius, origin, direction, ShotRange)
      ensures target.Some? ==> NearestAt(old(enemies.enemies), target.value, Enemies.EnemyCentre, Enemies.EnemyHitRadius, origin, direction, ShotRange)
      ensures target.Some? ==> (var hit := old(enemies.enemies)[target.value];
                                && enemies.enemies == Enemies.AfterDamage(old(enemies.enemies), hit.id, damage)
                                && Tally() == ScoreHit(old(Tally()), Enemies.Lethal(hit, damage), hit.stats.pointValue)
                                && impact == Some(FootPoint(hit.position, origin, direction)))
      ensures target.None? ==> Tally() == old(Tally()) && enemies.enemies == old(enemies.enemies) && physics.bodies == old(physics.bodies)
      ensures score >= old(score) && kills >= old(kills) && |enemies.enemies| <= |old(enemies.enemies)|
      ensures FieldOfFire() == ShotOutcome(old(FieldOfFire()), origin, direction, damage, drop, now)
      ensures powerUps.activeEffects == old(powerUps.activeEffects)
    {
      target := SelectTarget(enemies.enemies, origin, direction);
      if target.Some? {
        var hit := enemies.enemies[target.value];
        impact := Some(FootPoint(hit.position, origin, direction));
        HitEnemy(hit, damage, drop, now);
      } else {
        var r := physics.Raycast(origin, direction, ImpactRange);
        impact := if r.Hit? then Some(r.point) else None;
      }
    }

    /** The hit branch of `handleWeaponFire`: `damageEnemy`, `handleEnemyKilled` on a kill, then 10 points. */
    method HitEnemy(hit: Enemies.Enemy, damage: int, drop: DropDraw, now: real)
      requires Consistent() && hit in enemies.enemies && IsRoll(drop.typeRoll)
      modifies this`score, this`kills, this`level, this`killsThisLevel, this`enemyBodyMap, physics, enemies, powerUps
      ensures Consistent()
      ensures enemies.enemies == Enemies.AfterDamage(old(enemies.enemies), hit.id, damage)
      ensures Tally() == ScoreHit(old(Tally()), Enemies.Lethal(hit, damage), hit.stats.pointValue)
      ensures |enemies.enemies| <= |old(enemies.enemies)|
      ensures FieldOfFire() == Struck(old(FieldOfFire()), hit, damage, drop, now)
      ensures powerUps.activeEffects == old(powerUps.activeEffects)
    {
      Enemies.AfterDamageSize(enemies.enemies, hit.id, damage);
      DamageEnemy(hit, damage, drop, now);
      AddHitBonus();
    }

    /** `enemyService.damageEnemy`, whose kill event runs `handleEnemyKilled`. */
    method DamageEnemy(hit: Enemies.Enemy, damage: int, drop: DropDraw, now: real)
      requires Consistent() && hit in enemies.enemies && IsRoll(drop.typeRoll)
      modifies this`score, this`kills, this`level, this`killsThisLevel, this`enemyBodyMap, physics, enemies, powerUps
      ensures Consistent()
      ensures enemies.enemies == Enemies.AfterDamage(old(enemies.enemies), hit.id, damage)
      ensures Tally() == if Enemies.Lethal(hit, damage) then RecordKill(old(Tally()), hit.stats.pointValue) else old(Tally())
      ensures FieldOfFire() == Harmed(old(FieldOfFire()), hit, damage, drop, now)
      ensures powerUps.activeEffects == old(powerUps.activeEffects)
    {
      ghost var before := FieldOfFire();
      var killed, victim := DamageTarget(hit, damage);
      ghost var damaged := FieldOfFire();
      assert damaged == before.(enemies := Enemies.AfterDamage(before.enemies, hit.id, damage));
      if killed {
        HandleEnemyKilled(victim, drop, now);
        assert FieldOfFire() == Fallen(damaged, hit, drop, now) by {
          assert victim.bodyId == hit.bodyId && victim.position == hit.position && victim.stats == hit.stats;
        }
      }
    }

    /** The 10 points every hit scores. */
    method AddHitBonus()
      requires Consistent()
      modifies this`score
      ensures Consistent() && Tally() == old(Tally()).(score := old(score) + HitBonus)
      ensures FieldOfFire() == old(FieldOfFire()).(tally := Tally())
    {
      score := score + HitBonus;
    }

    /** `enemyService.damageEnemy` on an enemy of the registry; a killed enemy leaves no other enemy on its body. */
    method DamageTarget(hit: Enemies.Enemy, damage: int) returns (killed: bool, victim: Enemies.Enemy)
      requires Consistent() && hit in enemies.enemies
      modifies enemies
      ensures Consistent()
      ensures killed <==> Enemies.Lethal(hit, damage)
      ensures victim == Enemies.Damaged(hit, damage)
      ensures enemies.enemies == Enemies.AfterDamage(old(enemies.enemies), hit.id, damage)
      ensures |enemies.enemies| <= |old(enemies.enemies)|
      ensures killed ==> forall e :: e in enemies.enemies ==> e.bodyId != victim.bodyId
    {
      FindUnique(enemies.enemies, Enemies.EnemyId, hit);
      ghost var s0 := enemies.enemies;
      assert Indexed(hit, enemyBodyMap, physics.nextBodyId);
      assert Enemies.EnemyId(hit) in Keys(enemies.enemies, Enemies.EnemyId);
      killed, victim := enemies.DamageEnemy(hit.id, damage);
      if !killed {
        ReplaceIndexed(s0, victim, enemyBodyMap, physics.nextBodyId);
      }
    }

    /**
     * `handleEnemyKilled`: the body leaves the physics world and the body
     * map, the kill is recorded (with the level-up every fifteen), and with
     * chance 0.2 a random pick-up drops on the floor where the enemy stood.
     */
    method HandleEnemyKilled(victim: Enemies.Enemy, drop: DropDraw, now: real)
      requires Consistent() && IsRoll(drop.typeRoll)
      requires forall e :: e in enemies.enemies ==> e.bodyId != victim.bodyId
      modifies this`score, this`kills, this`level, this`killsThisLevel, this`enemyBodyMap, physics, powerUps
      ensures Consistent()
      ensures Tally() == RecordKill(old(Tally()), victim.stats.pointValue)
      ensures physics.bodies == Without(old(physics.bodies), Physics.BodyId, victim.bodyId)
      ensures enemyBodyMap == old(enemyBodyMap) - {victim.bodyId}
      ensures drop.chance >= DropChance ==> powerUps.powerUps == old(powerUps.powerUps)
      ensures drop.chance < DropChance ==> (
        && |powerUps.powerUps| == |old(powerUps.powerUps)| + 1
        && powerUps.powerUps[|powerUps.powerUps| - 1].position == Vec3(victim.position.x, 0.0, victim.position.z)
        && powerUps.powerUps[|powerUps.powerUps| - 1].createdAt == now)
      ensures FieldOfFire() == Fallen(old(FieldOfFire()), victim, drop, now)
      ensures powerUps.activeEffects == old(powerUps.activeEffects)
    {
      ForgetBody(victim.bodyId);
      CountKill(victim.stats.pointValue);
      if drop.chance < DropChance {
        DropPowerUp(Vec3(victim.position.x, 0.0, victim.position.z), drop.typeRoll, now);
      }
    }

    /** `physics.removeBody` and `enemyBodyMap.delete` for a body no live enemy uses. */
    method ForgetBody(bodyId: nat)
      requires Consistent()
      requires forall e :: e in enemies.enemies ==> e.bodyId != bodyId
      modifies this`enemyBodyMap, physics
      ensures Consistent()
      ensures physics.bodies == Without(old(physics.bodies), Physics.BodyId, bodyId)
      ensures enemyBodyMap == old(enemyBodyMap) - {bodyId}
    {
      physics.RemoveBody(bodyId);
      enemyBodyMap := enemyBodyMap - {bodyId};
    }

    /** The kill's score, count and level bookkeeping. */
    method CountKill(points: int)
      requires Consistent()
      modifies this`score, this`kills, this`level, this`killsThisLevel
      ensures Consistent()
      ensures Tally() == RecordKill(old(Tally()), points)
    {
      var t := RecordKill(Tally(), points);
      score, kills, level, killsThisLevel := t.score, t.kills, t.level, t.killsThisLevel;
    }

    /** The drop of `handleEnemyKilled`: a pick-up of a random type at `position`, created now. */
    method DropPowerUp(position: Vec3, typeRoll: real, now: real)
      requires Consistent() && IsRoll(typeRoll)
      modifies powerUps
      ensures Consistent()
      ensures |powerUps.powerUps| == |old(powerUps.powerUps)| + 1
      ensures powerUps.powerUps[|powerUps.powerUps| - 1].position == position
      ensures powerUps.powerUps[|powerUps.powerUps| - 1].createdAt == now
      ensures powerUps.powerUps == old(powerUps.powerUps) + [Dropped(old(powerUps.nextPowerId), typeRoll, position, now)]
      ensures powerUps.nextPowerId == old(powerUps.nextPowerId) + 1
      ensures powerUps.activeEffects == old(powerUps.activeEffects)
      ensures forall i :: 0 <= i < |PowerUps.Types| ==>
        (powerUps.powerUps[|powerUps.powerUps| - 1].kind == PowerUps.Types[i] <==> PowerUps.Cumulative(i) <= typeRoll < PowerUps.Cumulative(i + 1))
    {
      var kind := PowerUps.RandomPowerUpType(typeRoll);
      var _ := powerUps.SpawnPowerUp(kind, position, now);
    }

    // ----------------------------------------------------- menu and pause

    /** `togglePause`: playing and paused swap, anything else stays; resuming restarts the frame clock at `now`. */
    method TogglePause(now: real)
      requires Valid()
      modifies this`state, this`lastTime
      ensures Valid()
      ensures state == Rules.TogglePause(old(state))
      ensures lastTime == if old(state) == Paused then now else old(lastTime)
    {
      if state == Playing {
        state := Paused;
      } else if state == Paused {
        state := Playing;
        lastTime := now;
      }
    }

    /** `resume`: only a paused run resumes. */
    method Resume(now: real)
      requires Valid()
      modifies this`state, this`lastTime
      ensures Valid()
      ensures state == Resumed(old(state))
      ensures lastTime == if old(state) == Paused then now else old(lastTime)
    {
      if state == Paused {
        TogglePause(now);
      }
    }

    /** `returnToMenu`: from any state, back to the menu; the run's counters stay until the next start. */
    method ReturnToMenu()
      requires Valid()
      modifies this`state
      ensures Valid() && state == Menu
    {
      state := Menu;
    }

    /** `switchWeapon`: the next or the previous weapon of the cycle. */
    method SwitchWeapon(next: bool)
      requires Valid()
      modifies weapons
      ensures Valid()
      ensures weapons.modelsLoaded == old(weapons.modelsLoaded)
      ensures weapons.View() == Weapons.Equip(old(weapons.View()),
                                              if next then Weapons.NextInCycle(old(weapons.View()).current)
                                              else Weapons.PreviousInCycle(old(weapons.View()).current),
                                              weapons.modelsLoaded)
    {
      if next {
        weapons.NextWeapon();
      } else {
        weapons.PreviousWeapon();
      }
    }

    /** `destroy`: every service lets go of what it holds; the state is left as it was. */
    method Destroy()
      requires Valid()
      modifies physics, input, weapons, enemies, powerUps
      ensures Valid()
      ensures physics.bodies == [] && enemies.enemies == [] && powerUps.powerUps == [] && powerUps.activeEffects == map[]
      ensures !weapons.modelsLoaded && input.keys == {} && input.mouseButtons == {}
    {
      physics.Destroy();
      input.Destroy();
      weapons.Destroy();
      enemies.Destroy();
      powerUps.Destroy();
    }
  }
}
