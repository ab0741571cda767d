/**
 * The power-up registry (`PowerUpService`): seven pickup types, pickups under
 * fresh ids `powerup_N` (modelled by N) that despawn 30 seconds after they
 * appear, collection of the first pickup within reach, timed effects keyed by
 * type, and the weighted random choice of type. Times are milliseconds.
 */
module PowerUps {
  import opened Common
  import opened Keyed

  datatype PowerUpType = Health | Ammo | Speed | Shield | WeaponRifle | WeaponShotgun | WeaponSniper

  /** The parts of a type's configuration that behaviour depends on: an effect duration in seconds and an amount. */
  datatype Config = Config(duration: Option<real>, value: Option<int>)

  function ConfigOf(t: PowerUpType): (c: Config)
    ensures c.duration.Some? <==> t == Speed || t == Shield
    ensures c.duration.Some? ==> c.duration.value > 0.0
  {
    match t
    case Health => Config(None, Some(50))
    case Ammo => Config(None, Some(30))
    case Speed => Config(Some(10.0), None)
    case Shield => Config(Some(8.0), Some(50))
    case WeaponRifle => Config(None, None)
    case WeaponShotgun => Config(None, None)
    case WeaponSniper => Config(None, None)
  }

  /** A pickup on the floor: its type, where it was dropped and when (ms). */
  datatype PowerUp = PowerUp(id: nat, kind: PowerUpType, position: Vec3, createdAt: real)

  function PowerUpId(p: PowerUp): nat { p.id }

  const LifetimeMs: real := 30000.0
  const DefaultCollectionRadius: real := 1.5

  /** A pickup older than 30 s is removed by the next `update`. */
  predicate Expired(p: PowerUp, now: real) {
    now - p.createdAt > LifetimeMs
  }

  /** The pickups `update` keeps, in their original order. */
  function Unexpired(s: seq<PowerUp>, now: real): (r: seq<PowerUp>)
    ensures forall x :: x in r <==> x in s && !Expired(x, now)
    ensures |r| <= |s|
  {
    if s == [] then []
    else
      var init := s[..|s| - 1];
      assert forall x :: x in s <==> x in init || x == s[|s| - 1];
      Unexpired(init, now) + (if Expired(s[|s| - 1], now) then [] else [s[|s| - 1]])
  }

  /** Filtering keeps ids increasing, so the registry's order is kept. */
  lemma {:induction false} UnexpiredIncreasing(s: seq<PowerUp>, now: real)
    requires Increasing(s, PowerUpId)
    ensures Increasing(Unexpired(s, now), PowerUpId)
  {
    if s != [] {
      var init := s[..|s| - 1];
      var last := s[|s| - 1];
      UnexpiredIncreasing(init, now);
      if !Expired(last, now) {
        forall x | x in Unexpired(init, now) ensures x.id < last.id {
          var k :| 0 <= k < |init| && init[k] == x;
          assert s[k] == x;
        }
        AppendFresh(Unexpired(init, now), PowerUpId, last);
      }
    }
  }

  /** Within reach: `sqrt(d) < radius`, written as `radius > 0 && d < radius * radius`. */
  predicate InReach(p: PowerUp, playerPos: Vec3, radius: real) {
    radius > 0.0 && DistSq(playerPos, p.position) < radius * radius
  }

  /** The index `checkCollection` picks: the first pickup, in insertion order, within reach. */
  function FirstReached(s: seq<PowerUp>, playerPos: Vec3, radius: real): (k: Option<nat>)
    ensures k.Some? ==> k.value < |s| && InReach(s[k.value], playerPos, radius)
    ensures k.Some? ==> forall j :: 0 <= j < k.value ==> !InReach(s[j], playerPos, radius)
    ensures k.None? <==> forall j :: 0 <= j < |s| ==> !InReach(s[j], playerPos, radius)
    decreases |s|
  {
    if s == [] then None
    else if InReach(s[0], playerPos, radius) then Some(0)
    else match FirstReached(s[1..], playerPos, radius)
      case None => None
      case Some(i) => Some(i + 1)
  }

  /** The pickup `checkCollection` collects, if any is within reach. */
  function Reached(s: seq<PowerUp>, playerPos: Vec3, radius: real): (r: Option<PowerUp>)
    ensures r.Some? ==> r.value in s && InReach(r.value, playerPos, radius)
    ensures r.None? <==> forall p :: p in s ==> !InReach(p, playerPos, radius)
  {
    match FirstReached(s, playerPos, radius)
    case None => None
    case Some(k) => Some(s[k])
  }

  /**
   * After `update` has dropped the expired pickups, collecting takes away
   * exactly the one `Reached` picks: it is gone and every other live pickup stays.
   */
  lemma CollectionTakesOne(s: seq<PowerUp>, playerPos: Vec3, radius: real, now: real, c: PowerUp)
    requires Increasing(s, PowerUpId)
    requires Reached(Unexpired(s, now), playerPos, radius) == Some(c)
    ensures c in Unexpired(s, now) && InReach(c, playerPos, radius) && !Expired(c, now)
    ensures c !in Without(Unexpired(s, now), PowerUpId, c.id)
    ensures forall x :: x in Unexpired(s, now) && x != c ==> x in Without(Unexpired(s, now), PowerUpId, c.id)
  {
    var live := Unexpired(s, now);
    UnexpiredIncreasing(s, now);
    forall x | x in live && x != c ensures x.id != c.id {
      var i :| 0 <= i < |live| && live[i] == x;
      var j :| 0 <= j < |live| && live[j] == c;
      assert i != j;
    }
  }

  /** The loop of `checkCollection`, as `FirstReached` specifies it. */
  method FirstInReach(s: seq<PowerUp>, playerPos: Vec3, radius: real) returns (k: Option<nat>)
    ensures k == FirstReached(s, playerPos, radius)
  {
    var i := 0;
    while i < |s|
      invariant 0 <= i <= |s|
      invariant forall j :: 0 <= j < i ==> !InReach(s[j], playerPos, radius)
    {
      if InReach(s[i], playerPos, radius) {
        var first := FirstReached(s, playerPos, radius);
        assert first.Some?;
        assert !(first.value < i) && !(i < first.value);
        return Some(i);
      }
      i := i + 1;
    }
    return None;
  }

  /** Active effects after `update`'s pruning at `now`: every effect whose end time has passed is dropped. */
  function PruneEffects(effects: map<PowerUpType, real>, now: real): (r: map<PowerUpType, real>)
    ensures forall t :: t in r <==> t in effects && now <= effects[t]
    ensures forall t :: t in r ==> r[t] == effects[t]
  {
    map t | t in effects && !(now > effects[t]) :: effects[t]
  }

  /** `isEffectActive`. */
  predicate EffectActive(effects: map<PowerUpType, real>, t: PowerUpType, now: real)
    ensures EffectActive(effects, t, now) ==> t in PruneEffects(effects, now)
  {
    t in effects && now < effects[t]
  }

  /** `getEffectTimeRemaining`, in seconds, never negative. */
  function EffectTimeRemaining(effects: map<PowerUpType, real>, t: PowerUpType, now: real): (r: real)
    ensures r >= 0.0
    ensures t !in effects || effects[t] <= now ==> r == 0.0
  {
    if t !in effects then 0.0 else Max(0.0, (effects[t] - now) / 1000.0)
  }

  /**
   * An effect is active exactly while time remains on it; pruning never changes
   * which effects are active or how long they have left.
   */
  lemma EffectActiveIffTimeRemains(effects: map<PowerUpType, real>, t: PowerUpType, now: real)
    ensures EffectActive(effects, t, now) <==> EffectTimeRemaining(effects, t, now) > 0.0
    ensures EffectActive(PruneEffects(effects, now), t, now) == EffectActive(effects, t, now)
    ensures EffectTimeRemaining(PruneEffects(effects, now), t, now) == EffectTimeRemaining(effects, t, now)
  {
  }

  /** The end time collecting a timed pickup of type `t` at `now` sets (overwriting any earlier one). */
  function Collected(effects: map<PowerUpType, real>, t: PowerUpType, now: real): map<PowerUpType, real> {
    match ConfigOf(t).duration
    case None => effects
    case Some(d) => effects[t := now + d * 1000.0]
  }

  /**
   * A speed pickup collected at `now` is active for exactly ten seconds and a
   * shield effect for eight, whatever was active before; other pickups leave
   * the effects as they were.
   */
  lemma CollectedEffectLasts(effects: map<PowerUpType, real>, t: PowerUpType, now: real, later: real)
    requires now <= later
    ensures t == Speed ==> (EffectActive(Collected(effects, t, now), Speed, later) <==> later < now + 10000.0)
    ensures t == Shield ==> (EffectActive(Collected(effects, t, now), Shield, later) <==> later < now + 8000.0)
    ensures t == Speed ==> EffectTimeRemaining(Collected(effects, t, now), Speed, now) == 10.0
    ensures ConfigOf(t).duration.None? ==> Collected(effects, t, now) == effects
    ensures forall u :: u != t ==> EffectActive(Collected(effects, t, now), u, later) == EffectActive(effects, u, later)
  {
  }

  // ------------------------------------------------------------ random type

  /** The types in the order of `getRandomPowerUpType`'s table, and their weights. */
  const Types: seq<PowerUpType> := [Health, Ammo, Speed, Shield, WeaponRifle, WeaponShotgun, WeaponSniper]
  const Weights: seq<real> := [0.25, 0.25, 0.15, 0.1, 0.1, 0.1, 0.05]

  /** The sum of the first `n` weights. */
  function Cumulative(n: nat): (c: real)
    requires n <= |Weights|
    ensures c >= 0.0
  {
    if n == 0 then 0.0 else Cumulative(n - 1) + Weights[n - 1]
  }

  /** The cumulative weights strictly increase and reach exactly one. */
  lemma CumulativeShape()
    ensures Cumulative(7) == 1.0
    ensures forall i :: 0 <= i < 7 ==> Cumulative(i) < Cumulative(i + 1)
    ensures forall i, j :: 0 <= i <= j <= 7 ==> Cumulative(i) <= Cumulative(j)
  {
    assert Cumulative(1) == 0.25;
    assert Cumulative(2) == 0.5;
    assert Cumulative(3) == 0.65;
    assert Cumulative(4) == 0.75;
    assert Cumulative(5) == 0.85;
    assert Cumulative(6) == 0.95;
  }

  /** The type the table gives a roll that has passed the first `i` cumulative weights; past the table, health. */
  function TypeFrom(rand: real, i: nat): PowerUpType
    requires i <= |Types|
    decreases |Types| - i
  {
    if i == |Types| then Health
    else if rand < Cumulative(i + 1) then Types[i]
    else TypeFrom(rand, i + 1)
  }

  /** The type `getRandomPowerUpType` picks for the roll `rand`. */
  function RolledType(rand: real): PowerUpType {
    TypeFrom(rand, 0)
  }

  /** A roll past the first `i` cumulative weights lands in exactly one later band, and `TypeFrom` names its type. */
  lemma {:induction false} TypeFromBand(rand: real, i: nat)
    requires i <= |Types| && Cumulative(i) <= rand < 1.0
    ensures i < |Types| && TypeFrom(rand, i) in Types[i..]
    ensures forall j :: i <= j < |Types| ==> (TypeFrom(rand, i) == Types[j] <==> Cumulative(j) <= rand < Cumulative(j + 1))
    decreases |Types| - i
  {
    CumulativeShape();
    TypesDistinct();
    if rand >= Cumulative(i + 1) {
      TypeFromBand(rand, i + 1);
      assert Types[i + 1..] == Types[i..][1..];
    } else {
      forall j | i < j < |Types| ensures Cumulative(i + 1) <= Cumulative(j) { }
    }
  }

  /** No type appears twice in the table. */
  lemma TypesDistinct()
    ensures forall a, b :: 0 <= a < b < |Types| ==> Types[a] != Types[b]
  {
  }

  /** Every roll in [0, 1) has exactly one band, and `RolledType` is the type of that band. */
  lemma RolledBand(rand: real)
    requires 0.0 <= rand < 1.0
    ensures forall i :: 0 <= i < |Types| ==> (RolledType(rand) == Types[i] <==> Cumulative(i) <= rand < Cumulative(i + 1))
  {
    TypeFromBand(rand, 0);
  }

  /**
   * `getRandomPowerUpType` with roll `rand` in [0, 1): the type at index `i`
   * is chosen exactly when the roll lies in [Cumulative(i), Cumulative(i + 1)),
   * so each type is chosen with its own weight.
   */
  method RandomPowerUpType(rand: real) returns (t: PowerUpType)
    requires 0.0 <= rand < 1.0
    ensures forall i :: 0 <= i < |Types| ==> (t == Types[i] <==> Cumulative(i) <= rand < Cumulative(i + 1))
    ensures t == RolledType(rand)
  {
    CumulativeShape();
    RolledBand(rand);
    var cumulative := 0.0;
    var i := 0;
    while i < |Types|
      invariant 0 <= i <= |Types|
      invariant cumulative == Cumulative(i)
      invariant rand >= Cumulative(i)
      invariant TypeFrom(rand, i) == RolledType(rand)
    {
      cumulative := cumulative + Weights[i];
      if rand < cumulative {
        t := Types[i];
        return;
      }
      i := i + 1;
    }
    t := Health;
  }

  // ------------------------------------------------------------ the registry

  class PowerUpRegistry {
    /** The `powerUps` map, in insertion order. */
    var powerUps: seq<PowerUp>
    var nextPowerId: nat
    /** The `activeEffects` map: end time (ms) per timed type. */
    var activeEffects: map<PowerUpType, real>

    ghost predicate Valid()
      reads this
    {
      Increasing(powerUps, PowerUpId) && forall p :: p in powerUps ==> p.id < nextPowerId
    }

    constructor ()
      ensures Valid() && powerUps == [] && nextPowerId == 0 && activeEffects == map[]
    {
      powerUps := [];
      nextPowerId := 0;
      activeEffects := map[];
    }

    /** `spawnPowerUp`: a new pickup under the next id, created at `now`. */
    method SpawnPowerUp(kind: PowerUpType, position: Vec3, now: real) returns (p: PowerUp)
      requires Valid()
      modifies this
      ensures Valid()
      ensures p == PowerUp(old(nextPowerId), kind, position, now)
      ensures powerUps == old(powerUps) + [p] && nextPowerId == old(nextPowerId) + 1
      ensures activeEffects == old(activeEffects)
    {
      p := PowerUp(nextPowerId, kind, position, now);
      AppendFresh(powerUps, PowerUpId, p);
      powerUps := powerUps + [p];
      nextPowerId := nextPowerId + 1;
    }

    /** `update` at `now`: removes pickups older than 30 s, then prunes the effects that have ended. */
    method Update(now: real)
      requires Valid()
      modifies this
      ensures Valid()
      ensures powerUps == Unexpired(old(powerUps), now)
      ensures activeEffects == PruneEffects(old(activeEffects), now)
      ensures nextPowerId == old(nextPowerId)
    {
      var kept: seq<PowerUp> := [];
      var i := 0;
      while i < |powerUps|
        invariant 0 <= i <= |powerUps|
        invariant kept == Unexpired(powerUps[..i], now)
      {
        assert powerUps[..i + 1][..i] == powerUps[..i];
        if !Expired(powerUps[i], now) {
          kept := kept + [powerUps[i]];
        }
        i := i + 1;
      }
      assert powerUps[..i] == powerUps;
      UnexpiredIncreasing(powerUps, now);
      powerUps := kept;
      activeEffects := PruneEffects(activeEffects, now);
    }

    /**
     * `checkCollection`: the first pickup within `collectionRadius` of the
     * player is removed and returned, and a timed type's effect is (re)started
     * at `now`; with none in reach nothing changes.
     */
    method CheckCollection(playerPos: Vec3, collectionRadius: real, now: real) returns (r: Option<PowerUp>)
      requires Valid()
      modifies this
      ensures Valid() && nextPowerId == old(nextPowerId)
      ensures r.None? ==> powerUps == old(powerUps) && activeEffects == old(activeEffects)
      ensures r.None? <==> forall p :: p in old(powerUps) ==> !InReach(p, playerPos, collectionRadius)
      ensures r.Some? ==> exists k :: (0 <= k < |old(powerUps)| && old(powerUps)[k] == r.value
                                     && InReach(r.value, playerPos, collectionRadius)
                                     && forall j :: 0 <= j < k ==> !InReach(old(powerUps)[j], playerPos, collectionRadius))
      ensures r.Some? ==> powerUps == Without(old(powerUps), PowerUpId, r.value.id)
      ensures r.Some? ==> activeEffects == Collected(old(activeEffects), r.value.kind, now)
      ensures r == Reached(old(powerUps), playerPos, collectionRadius)
    {
      var k := FirstInReach(powerUps, playerPos, collectionRadius);
      match k
      case None =>
        r := None;
        forall p | p in powerUps ensures !InReach(p, playerPos, collectionRadius) {
          var j :| 0 <= j < |powerUps| && powerUps[j] == p;
        }
      case Some(i) =>
        var p := powerUps[i];
        r := Some(p);
        RemovePowerUp(p.id);
        activeEffects := Collected(activeEffects, p.kind, now);
    }

    /** `removePowerUp`: drops the pickup if present. */
    method RemovePowerUp(id: nat)
      requires Valid()
      modifies this
      ensures Valid()
      ensures powerUps == Without(old(powerUps), PowerUpId, id)
      ensures nextPowerId == old(nextPowerId) && activeEffects == old(activeEffects)
    {
      WithoutIncreasing(powerUps, PowerUpId, id);
      powerUps := Without(powerUps, PowerUpId, id);
    }

    /** `isEffectActive` at `now`. */
    predicate IsEffectActive(t: PowerUpType, now: real)
      reads this
      ensures IsEffectActive(t, now) <==> EffectTimeRemaining(activeEffects, t, now) > 0.0
    {
      EffectActiveIffTimeRemains(activeEffects, t, now);
      EffectActive(activeEffects, t, now)
    }

    /** `destroy`: forgets every pickup and every effect; ids keep counting. */
    method Destroy()
      requires Valid()
      modifies this
      ensures Valid() && powerUps == [] && activeEffects == map[] && nextPowerId == old(nextPowerId)
    {
      powerUps := [];
      activeEffects := map[];
    }
  }
}
