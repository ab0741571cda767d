/**
 * The game service's own rules, as pure functions of its counters: the level
 * table, the frame delta, the pause toggle, shield-first damage, the kill tally
 * with its level-ups, pick-up effects on the player, movement and jumping, and
 * where spawned enemies, pick-ups and obstacles are placed.
 */
module Rules {
  import opened Common

  datatype GameState = Menu | Playing | Paused | GameOver

  const MaxHealth: int := 100
  const KillsPerLevel: nat := 15
  const PowerUpSpawnInterval: real := 15.0
  const MouseSensitivity: real := 0.002
  const BaseMoveSpeed: real := 8.0
  const SprintMultiplier: real := 1.6
  const SpeedBoost: real := 1.5
  const JumpImpulse: real := 8.0
  /** Points for every hit-scan hit on an enemy, on top of the kill's points. */
  const HitBonus: int := 10
  const DropChance: real := 0.2
  /** `config.value || 50` of the health and shield pick-ups (both configured as 50). */
  const HealAmount: int := 50
  const ShieldAmount: int := 50
  /** `Math.PI / 2` as a double. */
  const HalfPi: real := 1.5707963267948966
  /** The camera pitch stays this far inside straight up or down. */
  const PitchLimit: real := HalfPi - 0.1
  /** How far the hit-scan looks for enemies, and how far the fallback world ray reaches. */
  const ShotRange: real := 1000.0
  const ImpactRange: real := 100.0
  /** Radius around the arena centre kept free of obstacles and pick-ups. */
  const CentreClearance: real := 5.0

  /** A random draw of `Math.random()`. */
  predicate IsRoll(r: real) {
    0.0 <= r < 1.0
  }

  // ------------------------------------------------------------- the levels

  datatype LevelConfig = LevelConfig(theme: string, arenaSize: real, obstacleCount: nat,
                                     spawnInterval: real, maxEnemies: nat)

  const LevelConfigs: seq<LevelConfig> := [
    LevelConfig("neon", 40.0, 12, 3.0, 8),
    LevelConfig("industrial", 45.0, 15, 2.5, 10),
    LevelConfig("cyber", 50.0, 18, 2.0, 12)
  ]

  /** `LEVEL_CONFIGS[levelIndex % LEVEL_CONFIGS.length]`: one of the three themes, cycling. */
  function ConfigFor(levelIndex: nat): (c: LevelConfig)
    ensures c in LevelConfigs
    ensures 40.0 <= c.arenaSize <= 50.0 && 2.0 <= c.spawnInterval <= 3.0 && 8 <= c.maxEnemies <= 12
    ensures c == LevelConfigs[levelIndex % 3]
  {
    LevelConfigs[levelIndex % |LevelConfigs|]
  }

  /** The themes repeat every three levels and each later theme is larger, more crowded and faster. */
  lemma LevelsEscalate(levelIndex: nat)
    ensures ConfigFor(levelIndex + 3) == ConfigFor(levelIndex)
    ensures forall i, j :: 0 <= i < j < |LevelConfigs| ==>
      && LevelConfigs[i].arenaSize < LevelConfigs[j].arenaSize
      && LevelConfigs[i].obstacleCount < LevelConfigs[j].obstacleCount
      && LevelConfigs[i].spawnInterval > LevelConfigs[j].spawnInterval
      && LevelConfigs[i].maxEnemies < LevelConfigs[j].maxEnemies
  {
  }

  // ------------------------------------------------------------- the loop

  /** `Math.min((now - lastTime) / 1000, 0.1)`: the seconds since the last frame, capped at a tenth. */
  function FrameDelta(lastTime: real, now: real): (dt: real)
    ensures dt <= 0.1
    ensures lastTime <= now ==> 0.0 <= dt
    ensures now - lastTime <= 100.0 ==> dt == (now - lastTime) / 1000.0
    ensures now - lastTime >= 100.0 ==> dt == 0.1
  {
    Min((now - lastTime) / 1000.0, 0.1)
  }

  /** `togglePause`: playing and paused swap; the menu and the game-over screen stay. */
  function TogglePause(s: GameState): (r: GameState)
    ensures r == Paused <==> s == Playing
    ensures r == Playing <==> s == Paused
    ensures s == Menu || s == GameOver ==> r == s
  {
    match s
    case Playing => Paused
    case Paused => Playing
    case _ => s
  }

  /** Pausing twice is a no-op in every state. */
  lemma TogglePauseTwice(s: GameState)
    ensures TogglePause(TogglePause(s)) == s
  {
  }

  /** `resume`: leaves the pause, and only the pause. */
  function Resumed(s: GameState): (r: GameState)
    ensures r != Paused
    ensures s != Paused ==> r == s
    ensures s == Paused ==> r == Playing
  {
    if s == Paused then TogglePause(s) else s
  }

  // ----------------------------------------------------------- the player

  datatype Vitals = Vitals(health: int, shield: int)

  /** The vitals after a hit, and whether the hit got through to health (the hurt sound and `onPlayerHit`). */
  datatype Wound = Wound(vitals: Vitals, hurt: bool)

  /**
   * `damagePlayer`: the shield soaks up the damage first; only what it cannot
   * hold reaches health, which does not fall below zero. With a non-negative
   * shield and health the pair loses exactly the damage, or everything it had.
   */
  function Absorb(v: Vitals, damage: int): (w: Wound)
    ensures w.hurt <==> (if v.shield > 0 then damage > v.shield else damage > 0)
    ensures !w.hurt ==> w.vitals.health == v.health
    ensures 0 <= damage && 0 <= v.shield && 0 <= v.health ==>
      && 0 <= w.vitals.health <= v.health
      && 0 <= w.vitals.shield <= v.shield
      && (w.vitals.health < v.health ==> w.vitals.shield == 0)
      && (v.health + v.shield) - (w.vitals.health + w.vitals.shield) == MinInt(damage, v.health + v.shield)
  {
    var remaining := if v.shield > 0 then (if v.shield >= damage then 0 else damage - v.shield) else damage;
    var shield := if v.shield > 0 then (if v.shield >= damage then v.shield - damage else 0) else v.shield;
    if remaining > 0 then Wound(Vitals(Max0(v.health - remaining), shield), true)
    else Wound(Vitals(v.health, shield), false)
  }

  function Max0(n: int): int { if n > 0 then n else 0 }
  function MinInt(a: int, b: int): int { if a <= b then a else b }

  /** The two worked cases: a 30-point shield under a 50-point hit, and a 60-point shield under 20. */
  lemma AbsorbExamples(health: int)
    ensures Absorb(Vitals(100, 30), 50) == Wound(Vitals(80, 0), true)
    ensures Absorb(Vitals(health, 60), 20) == Wound(Vitals(health, 40), false)
  {
  }

  /** The health pick-up: fifty more, never above the maximum. */
  function Healed(health: int): (r: int)
    ensures r <= MaxHealth
    ensures health <= MaxHealth - HealAmount ==> r == health + HealAmount
    ensures health <= MaxHealth ==> health <= r
    ensures r == MaxHealth || r == health + HealAmount
  {
    if MaxHealth <= health + HealAmount then MaxHealth else health + HealAmount
  }

  /** The kill counters of a run. */
  datatype Tally = Tally(score: int, kills: nat, level: int, killsThisLevel: nat)

  /**
   * `handleEnemyKilled`'s bookkeeping: the kill's points, one more kill, and on
   * the fifteenth kill of a level, `levelUp` (the level rises, the count restarts).
   */
  function RecordKill(t: Tally, points: int): (r: Tally)
    ensures r.score == t.score + points && r.kills == t.kills + 1
    ensures r.killsThisLevel < KillsPerLevel
    ensures r.level == t.level + 1 <==> t.killsThisLevel + 1 >= KillsPerLevel
    ensures r.level == t.level || r.level == t.level + 1
  {
    var n := t.killsThisLevel + 1;
    if n >= KillsPerLevel then Tally(t.score + points, t.kills + 1, t.level + 1, 0)
    else Tally(t.score + points, t.kills + 1, t.level, n)
  }

  /**
   * `handleWeaponFire`'s bookkeeping for a shot that hit an enemy worth
   * `points`: the kill first (when the hit was lethal), then 10 for the hit.
   */
  function ScoreHit(t: Tally, killed: bool, points: int): (r: Tally)
    ensures r.score == t.score + HitBonus + (if killed then points else 0)
    ensures r.kills == t.kills + (if killed then 1 else 0)
    ensures !killed ==> r.level == t.level && r.killsThisLevel == t.killsThisLevel
    ensures killed ==> r.level == RecordKill(t, points).level && r.killsThisLevel == RecordKill(t, points).killsThisLevel
  {
    var u := if killed then RecordKill(t, points) else t;
    u.(score := u.score + HitBonus)
  }

  /** Killing enemies worth `points`, one after another. */
  function RecordKills(t: Tally, points: seq<int>): Tally
    decreases |points|
  {
    if points == [] then t else RecordKills(RecordKill(t, points[0]), points[1..])
  }

  function Total(points: seq<int>): int
    decreases |points|
  {
    if points == [] then 0 else points[0] + Total(points[1..])
  }

  /**
   * Over any run of kills the level rises once per fifteen: the level is the
   * starting level plus the completed groups of fifteen and the per-level count
   * is what is left over; score and kills simply add up.
   */
  lemma {:induction false} LevelFromKills(t: Tally, points: seq<int>)
    requires t.killsThisLevel < KillsPerLevel
    ensures RecordKills(t, points) == Tally(t.score + Total(points), t.kills + |points|,
                                            t.level + (t.killsThisLevel + |points|) / KillsPerLevel,
                                            (t.killsThisLevel + |points|) % KillsPerLevel)
    decreases |points|
  {
    if points != [] {
      var u := RecordKill(t, points[0]);
      var rest := points[1..];
      LevelFromKills(u, rest);
      var n := t.killsThisLevel + |points|;
      if t.killsThisLevel + 1 >= KillsPerLevel {
        assert n == KillsPerLevel + |rest|;
        assert n / KillsPerLevel == 1 + |rest| / KillsPerLevel;
        assert n % KillsPerLevel == |rest| % KillsPerLevel;
      } else {
        assert u.killsThisLevel + |rest| == n;
      }
    }
  }

  // -------------------------------------------------------------- movement

  /**
   * The summed move vector of `update`: forward/backward along
   * `(-sin yaw, -cos yaw)`, left/right along `(cos yaw, -sin yaw)`.
   */
  function MoveVector(forward: bool, backward: bool, left: bool, right: bool, sinYaw: real, cosYaw: real): (real, real) {
    var fx, fz := -sinYaw, -cosYaw;
    var rx, rz := cosYaw, -sinYaw;
    var x := (if forward then fx else 0.0) - (if backward then fx else 0.0) - (if left then rx else 0.0) + (if right then rx else 0.0);
    var z := (if forward then fz else 0.0) - (if backward then fz else 0.0) - (if left then rz else 0.0) + (if right then rz else 0.0);
    (x, z)
  }

  /** Opposite keys cancel: the player moves when an axis has exactly one of its keys held. */
  predicate Moving(forward: bool, backward: bool, left: bool, right: bool) {
    forward != backward || left != right
  }

  /** The squared length of a horizontal vector; `length() > 0` exactly when it is positive. */
  function LengthSq(v: (real, real)): real {
    v.0 * v.0 + v.1 * v.1
  }

  function Axis(plus: bool, minus: bool): real {
    (if plus then 1.0 else 0.0) - (if minus then 1.0 else 0.0)
  }

  /**
   * Because forward and right are orthonormal, the move vector's squared
   * length is the number of uncancelled axes, so `length > 0` in `update`
   * holds exactly when `Moving`.
   */
  lemma MoveLength(forward: bool, backward: bool, left: bool, right: bool, sinYaw: real, cosYaw: real)
    requires sinYaw * sinYaw + cosYaw * cosYaw == 1.0
    ensures var (x, z) := MoveVector(forward, backward, left, right, sinYaw, cosYaw);
      x * x + z * z == Axis(forward, backward) * Axis(forward, backward) + Axis(right, left) * Axis(right, left)
    ensures LengthSq(MoveVector(forward, backward, left, right, sinYaw, cosYaw)) > 0.0 <==> Moving(forward, backward, left, right)
  {
    var a, b := Axis(forward, backward), Axis(right, left);
    var (x, z) := MoveVector(forward, backward, left, right, sinYaw, cosYaw);
    assert x == -a * sinYaw + b * cosYaw;
    assert z == -a * cosYaw - b * sinYaw;
    calc {
      x * x + z * z;
      (a * a + b * b) * (sinYaw * sinYaw + cosYaw * cosYaw);
      a * a + b * b;
    }
  }

  /** The player's speed while moving: 8, times 1.6 when sprinting, times 1.5 under the speed effect. */
  function MoveSpeed(sprint: bool, boosted: bool): (v: real)
    ensures BaseMoveSpeed <= v <= BaseMoveSpeed * SprintMultiplier * SpeedBoost
    ensures v > BaseMoveSpeed <==> sprint || boosted
    ensures sprint && boosted <==> v == 19.2
  {
    BaseMoveSpeed * (if sprint then SprintMultiplier else 1.0) * (if boosted then SpeedBoost else 1.0)
  }

  /**
   * The `movementSpeed` an `update` records: the move speed when the move
   * vector is non-zero, else 0. At a true heading that is exactly "while
   * `Moving`".
   */
  function Stride(forward: bool, backward: bool, left: bool, right: bool, sprint: bool, boosted: bool,
                  sinYaw: real, cosYaw: real): (speed: real)
    ensures sinYaw * sinYaw + cosYaw * cosYaw == 1.0 ==>
      speed == if Moving(forward, backward, left, right) then MoveSpeed(sprint, boosted) else 0.0
  {
    var move := MoveVector(forward, backward, left, right, sinYaw, cosYaw);
    assert sinYaw * sinYaw + cosYaw * cosYaw == 1.0 ==> (LengthSq(move) > 0.0 <==> Moving(forward, backward, left, right)) by {
      if sinYaw * sinYaw + cosYaw * cosYaw == 1.0 {
        MoveLength(forward, backward, left, right, sinYaw, cosYaw);
      }
    }
    if LengthSq(move) > 0.0 then MoveSpeed(sprint, boosted) else 0.0
  }

  /** The jump test of `update`: low enough and not already rising. */
  predicate CanJump(position: Vec3, velocity: Vec3) {
    position.y < 1.5 && velocity.y < 1.0
  }

  /** `Math.max(-PI/2 + 0.1, Math.min(PI/2 - 0.1, pitch))`. */
  function ClampPitch(pitch: real): (r: real)
    ensures -PitchLimit <= r <= PitchLimit
    ensures -PitchLimit <= pitch <= PitchLimit ==> r == pitch
    ensures pitch < -PitchLimit ==> r == -PitchLimit
    ensures pitch > PitchLimit ==> r == PitchLimit
  {
    Max(-HalfPi + 0.1, Min(HalfPi - 0.1, pitch))
  }

  // -------------------------------------------------------------- spawning

  /** `spawnEnemy`'s difficulty: the level plus one per twenty kills. */
  function Difficulty(level: int, kills: nat): (d: int)
    ensures level <= d <= level + kills
    ensures d - level == kills / 20
  {
    level + kills / 20
  }

  function Abs(x: real): real { if x < 0.0 then -x else x }

  /**
   * `spawnEnemy`'s position: a side from `floor(sideRoll * 4)` and a place
   * along it from `offsetRoll`; drones start on the floor (they float by
   * themselves), everything else one unit up.
   */
  function EnemySpawnPoint(size: real, sideRoll: real, offsetRoll: real, isDrone: bool): (p: Vec3)
    ensures p.y == if isDrone then 0.0 else 1.0
    ensures IsRoll(offsetRoll) && size >= 5.0 ==>
      || (Abs(p.z) == size - 3.0 && Abs(p.x) <= size - 5.0)
      || (Abs(p.x) == size - 3.0 && Abs(p.z) <= size - 5.0)
  {
    var side := (sideRoll * 4.0).Floor;
    var offset := (offsetRoll - 0.5) * (size - 5.0) * 2.0;
    OffsetBound(offsetRoll, size - 5.0, 2.0);
    var y := if isDrone then 0.0 else 1.0;
    if side == 0 then Vec3(offset, y, -size + 3.0)
    else if side == 1 then Vec3(offset, y, size - 3.0)
    else if side == 2 then Vec3(-size + 3.0, y, offset)
    else Vec3(size - 3.0, y, offset)
  }

  /** A roll centred on zero and scaled by `span * factor` stays within half that on each side. */
  lemma OffsetBound(roll: real, span: real, factor: real)
    ensures IsRoll(roll) && span >= 0.0 && factor >= 0.0 ==> Abs((roll - 0.5) * span * factor) <= span * factor / 2.0
  {
    if IsRoll(roll) && span >= 0.0 && factor >= 0.0 {
      var k := span * factor;
      assert k >= 0.0;
      assert (roll - 0.5) * span * factor == (roll - 0.5) * k;
      assert -0.5 * k <= (roll - 0.5) * k <= 0.5 * k;
    }
  }

  /** The random point `(Math.random() - 0.5) * (size - 5) * 1.5` on each axis used for obstacles and pick-ups. */
  function ArenaSpot(size: real, draw: (real, real)): (spot: (real, real))
    ensures IsRoll(draw.0) && IsRoll(draw.1) && size >= 5.0 ==>
      Abs(spot.0) <= 0.75 * (size - 5.0) && Abs(spot.1) <= 0.75 * (size - 5.0)
  {
    OffsetBound(draw.0, size - 5.0, 1.5);
    OffsetBound(draw.1, size - 5.0, 1.5);
    ((draw.0 - 0.5) * (size - 5.0) * 1.5, (draw.1 - 0.5) * (size - 5.0) * 1.5)
  }

  /** The acceptance test of the placement loops: not `sqrt(x*x + z*z) < 5`. */
  predicate ClearOfCentre(spot: (real, real)) {
    spot.0 * spot.0 + spot.1 * spot.1 >= CentreClearance * CentreClearance
  }

  /** Some draw of a placement loop's supply is accepted, so the loop ends. */
  predicate HasClearSpot(size: real, draws: seq<(real, real)>) {
    exists i :: 0 <= i < |draws| && ClearOfCentre(ArenaSpot(size, draws[i]))
  }

  /** The spot a placement loop settles on: the first draw clear of the centre, if any draw is. */
  function FirstClear(size: real, draws: seq<(real, real)>): Option<(real, real)>
    decreases |draws|
  {
    if draws == [] then None
    else if ClearOfCentre(ArenaSpot(size, draws[0])) then Some(ArenaSpot(size, draws[0]))
    else FirstClear(size, draws[1..])
  }

  /** `FirstClear` finds a spot exactly when some draw is clear, and the spot is the earliest clear draw. */
  lemma {:induction false} FirstClearIsFirst(size: real, draws: seq<(real, real)>)
    ensures FirstClear(size, draws).None? <==> !HasClearSpot(size, draws)
    ensures FirstClear(size, draws).Some? ==>
      exists i :: 0 <= i < |draws| && FirstClear(size, draws).value == ArenaSpot(size, draws[i])
                  && ClearOfCentre(ArenaSpot(size, draws[i]))
                  && forall j :: 0 <= j < i ==> !ClearOfCentre(ArenaSpot(size, draws[j]))
    decreases |draws|
  {
    if draws == [] {
    } else if ClearOfCentre(ArenaSpot(size, draws[0])) {
      assert FirstClear(size, draws).value == ArenaSpot(size, draws[0]);
    } else {
      var rest := draws[1..];
      FirstClearIsFirst(size, rest);
      assert FirstClear(size, draws) == FirstClear(size, rest);
      if FirstClear(size, rest).Some? {
        var i :| 0 <= i < |rest| && FirstClear(size, rest).value == ArenaSpot(size, rest[i])
                 && ClearOfCentre(ArenaSpot(size, rest[i]))
                 && forall j :: 0 <= j < i ==> !ClearOfCentre(ArenaSpot(size, rest[j]));
        assert draws[i + 1] == rest[i];
        forall j | 0 <= j < i + 1
          ensures !ClearOfCentre(ArenaSpot(size, draws[j]))
        {
          if j > 0 {
            assert draws[j] == rest[j - 1];
          }
        }
      }
    }
  }

  /**
   * The `do { … } while (sqrt(x*x + z*z) < 5)` loop of `spawnPowerUp` and
   * `createObstacles`: the first drawn spot that keeps clear of the centre.
   */
  method PickClearSpot(size: real, draws: seq<(real, real)>) returns (spot: (real, real))
    requires HasClearSpot(size, draws)
    ensures ClearOfCentre(spot)
    ensures exists i :: 0 <= i < |draws| && spot == ArenaSpot(size, draws[i])
                        && forall j :: 0 <= j < i ==> !ClearOfCentre(ArenaSpot(size, draws[j]))
    ensures FirstClear(size, draws) == Some(spot)
  {
    ghost var accept :| 0 <= accept < |draws| && ClearOfCentre(ArenaSpot(size, draws[accept]));
    var i := 0;
    spot := ArenaSpot(size, draws[0]);
    while !ClearOfCentre(spot)
      invariant 0 <= i <= accept
      invariant spot == ArenaSpot(size, draws[i])
      invariant forall j :: 0 <= j < i ==> !ClearOfCentre(ArenaSpot(size, draws[j]))
      invariant FirstClear(size, draws) == FirstClear(size, draws[i..])
      decreases accept - i
    {
      assert draws[i..][1..] == draws[i + 1..];
      i := i + 1;
      spot := ArenaSpot(size, draws[i]);
    }
  }

  /** `createObstacles`' box for an accepted spot: width `1 + 1.5 r`, height `1 + 2 r'`, standing on the floor. */
  datatype Obstacle = Obstacle(halfExtents: Vec3, position: Vec3)

  function ObstacleAt(spot: (real, real), heightRoll: real, widthRoll: real): (o: Obstacle)
    ensures o.position.x == spot.0 && o.position.z == spot.1
    ensures o.position.y == o.halfExtents.y
    ensures IsRoll(heightRoll) && IsRoll(widthRoll) ==>
      1.0 <= o.halfExtents.y < 3.0 && 1.0 <= o.halfExtents.x < 2.5 && o.halfExtents.x == o.halfExtents.z
  {
    var height := 1.0 + heightRoll * 2.0;
    var width := 1.0 + widthRoll * 1.5;
    Obstacle(Vec3(width, height, width), Vec3(spot.0, height, spot.1))
  }
}
