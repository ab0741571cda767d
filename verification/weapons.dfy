/**
 * The weapon system (`WeaponService`): four weapons with fixed stats, rounds
 * stored per weapon, a fire-rate cooldown, automatic reload of an emptied
 * weapon, and a reload that advances with frame time. The reload state is
 * global: it refills whichever weapon is current when it completes and
 * advances at the current weapon's reload time. Times are milliseconds except
 * frame deltas and reload times, which are seconds, as in the service.
 */
module Weapons {
  import opened Common

  datatype WeaponType = Pistol | Rifle | Shotgun | Sniper

  /** Per-weapon stats; `fireRate` is shots per second, `reloadTime` seconds. */
  datatype WeaponStats = WeaponStats(damage: int, fireRate: real, ammoCapacity: int, reloadTime: real,
                                     spread: real, bulletsPerShot: nat, automatic: bool)

  /** `getWeaponStats`. */
  function Stats(t: WeaponType): (s: WeaponStats)
    ensures s.damage > 0 && s.fireRate > 0.0 && s.ammoCapacity > 0 && s.reloadTime > 0.0
    ensures s.spread >= 0.0 && s.bulletsPerShot >= 1
  {
    match t
    case Pistol => WeaponStats(15, 4.0, 12, 1.2, 0.02, 1, false)
    case Rifle => WeaponStats(10, 10.0, 30, 2.0, 0.05, 1, true)
    case Shotgun => WeaponStats(8, 1.2, 6, 2.5, 0.15, 8, false)
    case Sniper => WeaponStats(100, 0.5, 5, 3.0, 0.0, 1, false)
  }

  // ------------------------------------------------------ weapon cycling

  /** The cycling order of `nextWeapon` / `previousWeapon`. */
  const Order: seq<WeaponType> := [Pistol, Rifle, Shotgun, Sniper]

  function IndexOf(t: WeaponType): (i: nat)
    ensures i < |Order| && Order[i] == t
  {
    match t
    case Pistol => 0
    case Rifle => 1
    case Shotgun => 2
    case Sniper => 3
  }

  function NextInCycle(t: WeaponType): WeaponType {
    Order[(IndexOf(t) + 1) % |Order|]
  }

  function PreviousInCycle(t: WeaponType): WeaponType {
    Order[(IndexOf(t) - 1 + |Order|) % |Order|]
  }

  /** Next and previous undo each other, and four steps return to the start. */
  lemma CycleInverse(t: WeaponType)
    ensures PreviousInCycle(NextInCycle(t)) == t && NextInCycle(PreviousInCycle(t)) == t
    ensures NextInCycle(NextInCycle(NextInCycle(NextInCycle(t)))) == t
    ensures NextInCycle(t) != t
  {
    assert NextInCycle(Pistol) == Rifle && NextInCycle(Rifle) == Shotgun;
    assert NextInCycle(Shotgun) == Sniper && NextInCycle(Sniper) == Pistol;
    assert PreviousInCycle(Rifle) == Pistol && PreviousInCycle(Shotgun) == Rifle;
    assert PreviousInCycle(Sniper) == Shotgun && PreviousInCycle(Pistol) == Sniper;
  }

  // ------------------------------------------------------ the arsenal

  /** The weapon state that gameplay depends on. `ammo` is the per-weapon rounds map. */
  datatype Arsenal = Arsenal(current: WeaponType, ammo: map<WeaponType, int>, lastFireTime: real,
                             reloading: bool, progress: real)

  /** `ammo.get(t) || 0`. */
  function Stored(a: Arsenal, t: WeaponType): int {
    if t in a.ammo then a.ammo[t] else 0
  }

  /** Rounds never go negative nor above capacity; progress is zero except during a reload, and below one. */
  ghost predicate Sound(a: Arsenal) {
    && (forall t :: t in a.ammo ==> 0 <= a.ammo[t] <= Stats(t).ammoCapacity)
    && (!a.reloading ==> a.progress == 0.0)
    && (a.reloading ==> 0.0 <= a.progress < 1.0)
  }

  /** Every weapon full, as after `initialize`. */
  function FullAmmo(): (m: map<WeaponType, int>)
    ensures forall t :: t in m && m[t] == Stats(t).ammoCapacity
  {
    map t: WeaponType | true :: Stats(t).ammoCapacity
  }

  /** `canFire` at time `now`: not reloading, a round in the current weapon, and the cooldown elapsed. */
  predicate CanFire(a: Arsenal, now: real)
    ensures CanFire(a, now) ==> now > a.lastFireTime && Stored(a, a.current) > 0 && !a.reloading
  {
    && !a.reloading
    && Stored(a, a.current) > 0
    && (now - a.lastFireTime) / 1000.0 >= 1.0 / Stats(a.current).fireRate
  }

  /** `startReload`: ignored while reloading or with a full weapon; otherwise a reload starts from zero. */
  function ReloadStarted(a: Arsenal): (b: Arsenal)
    ensures b.current == a.current && b.ammo == a.ammo && b.lastFireTime == a.lastFireTime
    ensures b.reloading <==> a.reloading || Stored(a, a.current) < Stats(a.current).ammoCapacity
  {
    if a.reloading then a
    else if Stored(a, a.current) >= Stats(a.current).ammoCapacity then a
    else a.(reloading := true, progress := 0.0)
  }

  /** `fire` at time `now`: spends a round and stamps the time; the last round starts a reload. */
  function Fired(a: Arsenal, now: real): (b: Arsenal)
    ensures b.current == a.current
    ensures forall t :: t != a.current ==> Stored(b, t) == Stored(a, t)
  {
    if !CanFire(a, now) then a
    else
      var left := Stored(a, a.current) - 1;
      var b := a.(ammo := a.ammo[a.current := left], lastFireTime := now);
      if left <= 0 then ReloadStarted(b) else b
  }

  /** The reload part of `update(dt)`, which runs only while the weapon models exist. */
  function Tick(a: Arsenal, dt: real, loaded: bool): (b: Arsenal)
    ensures b.current == a.current && b.lastFireTime == a.lastFireTime
    ensures forall t :: t != a.current ==> Stored(b, t) == Stored(a, t)
  {
    if !loaded || !a.reloading then a
    else
      var p := a.progress + dt / Stats(a.current).reloadTime;
      if p >= 1.0 then a.(reloading := false, progress := 0.0, ammo := a.ammo[a.current := Stats(a.current).ammoCapacity])
      else a.(progress := p)
  }

  /** `equipWeapon` switches only when the weapon models exist. */
  function Equip(a: Arsenal, t: WeaponType, loaded: bool): (b: Arsenal)
    ensures b.current == (if loaded then t else a.current)
    ensures b.ammo == a.ammo && b.reloading == a.reloading && b.lastFireTime == a.lastFireTime
  {
    if loaded then a.(current := t) else a
  }

  /** The ammo counter `equipWeapon` shows: `ammo.get(t) || capacity`, so an empty weapon shows its capacity. */
  function DisplayedOnEquip(a: Arsenal, t: WeaponType): (n: int)
    ensures n == Stored(a, t) || n == Stats(t).ammoCapacity
  {
    if t in a.ammo && a.ammo[t] != 0 then a.ammo[t] else Stats(t).ammoCapacity
  }

  /** Every operation keeps the arsenal sound (frame deltas are never negative). */
  lemma SoundPreserved(a: Arsenal, now: real, dt: real, loaded: bool, t: WeaponType)
    requires Sound(a) && dt >= 0.0
    ensures Sound(Fired(a, now)) && Sound(ReloadStarted(a)) && Sound(Tick(a, dt, loaded)) && Sound(Equip(a, t, loaded))
  {
    if a.reloading && loaded {
      assert dt / Stats(a.current).reloadTime >= 0.0;
    }
  }

  /** The arsenal after `initialize`: every weapon full, pistol in hand, no reload. */
  lemma InitialSound()
    ensures Sound(Arsenal(Pistol, FullAmmo(), 0.0, false, 0.0))
    ensures CanFire(Arsenal(Pistol, FullAmmo(), 0.0, false, 0.0), 250.0)
  {
  }

  /**
   * A shot spends exactly one round of the current weapon and no other; a
   * refused shot changes nothing.
   */
  lemma FireSpendsOneRound(a: Arsenal, now: real, t: WeaponType)
    ensures !CanFire(a, now) ==> Fired(a, now) == a
    ensures CanFire(a, now) ==> (Stored(Fired(a, now), a.current) == Stored(a, a.current) - 1
                             && Fired(a, now).lastFireTime == now && Fired(a, now).current == a.current)
    ensures t != a.current ==> Stored(Fired(a, now), t) == Stored(a, t)
  {
  }

  /** The minimum time between two shots of each weapon, in milliseconds. */
  function CooldownMs(t: WeaponType): real {
    match t
    case Pistol => 250.0
    case Rifle => 100.0
    case Shotgun => 2500.0 / 3.0
    case Sniper => 2000.0
  }

  /** The fire-rate rule in milliseconds: the cooldown has elapsed exactly when `CooldownMs` has passed since the last shot. */
  lemma CooldownElapsed(a: Arsenal, now: real)
    ensures (now - a.lastFireTime) / 1000.0 >= 1.0 / Stats(a.current).fireRate
            <==> now >= a.lastFireTime + CooldownMs(a.current)
  {
    if a.current == Shotgun {
      assert 1.0 / 1.2 == 5.0 / 6.0;
    }
  }

  /** After a shot the same weapon cannot fire again before its cooldown, and can once it elapses if a round is left. */
  lemma NoShotWithinCooldown(a: Arsenal, now: real, later: real)
    requires CanFire(a, now)
    ensures later < now + CooldownMs(a.current) ==> !CanFire(Fired(a, now), later)
    ensures Stored(a, a.current) > 1 && later >= now + CooldownMs(a.current) ==> CanFire(Fired(a, now), later)
  {
    CooldownElapsed(Fired(a, now), later);
  }

  /** Firing the last round starts a reload from zero, which blocks firing. */
  lemma LastRoundStartsReload(a: Arsenal, now: real, later: real)
    requires Sound(a) && CanFire(a, now) && Stored(a, a.current) == 1
    ensures Fired(a, now).reloading && Fired(a, now).progress == 0.0
    ensures Stored(Fired(a, now), a.current) == 0
    ensures !CanFire(Fired(a, now), later)
  {
  }

  /** The counter shown on equipping is never zero and never above capacity. */
  lemma DisplayedOnEquipBounds(a: Arsenal, t: WeaponType)
    requires Sound(a)
    ensures 1 <= DisplayedOnEquip(a, t) <= Stats(t).ammoCapacity
    ensures Stored(a, t) == 0 ==> DisplayedOnEquip(a, t) == Stats(t).ammoCapacity
    ensures Stored(a, t) > 0 ==> DisplayedOnEquip(a, t) == Stored(a, t)
  {
  }

  // ------------------------------------------------------ reload over time

  function Sum(dts: seq<real>): real {
    if dts == [] then 0.0 else dts[0] + Sum(dts[1..])
  }

  /** `update(dt)` for each frame delta in turn, the weapon in hand not changing. */
  function TickAll(a: Arsenal, dts: seq<real>, loaded: bool): Arsenal
    decreases dts
  {
    if dts == [] then a else TickAll(Tick(a, dts[0], loaded), dts[1..], loaded)
  }

  lemma {:induction false} TickAllAppend(a: Arsenal, dts: seq<real>, dt: real, loaded: bool)
    ensures TickAll(a, dts + [dt], loaded) == Tick(TickAll(a, dts, loaded), dt, loaded)
    decreases dts
  {
    if dts != [] {
      assert (dts + [dt])[1..] == dts[1..] + [dt];
      TickAllAppend(Tick(a, dts[0], loaded), dts[1..], dt, loaded);
    }
  }

  lemma {:induction false} SumAppend(dts: seq<real>, dt: real)
    ensures Sum(dts + [dt]) == Sum(dts) + dt
  {
    if dts != [] {
      assert (dts + [dt])[1..] == dts[1..] + [dt];
      SumAppend(dts[1..], dt);
    }
  }

  /**
   * While the elapsed frame time stays short of the remaining reload time, a
   * reload only advances: progress grows by the elapsed time over the reload
   * time and no round is added.
   */
  lemma {:induction false} ReloadInProgress(a: Arsenal, dts: seq<real>)
    requires Sound(a) && a.reloading
    requires forall i :: 0 <= i < |dts| ==> dts[i] >= 0.0
    requires a.progress + Sum(dts) / Stats(a.current).reloadTime < 1.0
    ensures TickAll(a, dts, true) == a.(progress := a.progress + Sum(dts) / Stats(a.current).reloadTime)
    decreases dts
  {
    if dts != [] {
      var r := Stats(a.current).reloadTime;
      var s := Sum(dts[1..]);
      assert Sum(dts) == dts[0] + s;
      assert s >= 0.0 by { SumNonNegative(dts[1..]); }
      assert (dts[0] + s) / r == dts[0] / r + s / r;
      assert s / r >= 0.0;
      var b := Tick(a, dts[0], true);
      assert b == a.(progress := a.progress + dts[0] / r);
      ReloadInProgress(b, dts[1..]);
    }
  }

  lemma {:induction false} SumNonNegative(dts: seq<real>)
    requires forall i :: 0 <= i < |dts| ==> dts[i] >= 0.0
    ensures Sum(dts) >= 0.0
  {
    if dts != [] {
      SumNonNegative(dts[1..]);
    }
  }

  /**
   * A reload started from zero completes on the first frame at which the
   * accumulated frame time reaches the weapon's reload time: the weapon in
   * hand is then full and the reload is over, and not a frame earlier.
   */
  lemma ReloadCompletes(a: Arsenal, dts: seq<real>, dt: real)
    requires Sound(a) && a.reloading && a.progress == 0.0
    requires forall i :: 0 <= i < |dts| ==> dts[i] >= 0.0
    requires Sum(dts) < Stats(a.current).reloadTime <= Sum(dts) + dt
    ensures TickAll(a, dts, true).reloading
    ensures Stored(TickAll(a, dts, true), a.current) == Stored(a, a.current)
    ensures var b := TickAll(a, dts + [dt], true);
            !b.reloading && b.progress == 0.0 && Stored(b, a.current) == Stats(a.current).ammoCapacity
  {
    var r := Stats(a.current).reloadTime;
    var s := Sum(dts);
    assert s / r < 1.0 by { QuotientBelowOne(s, r); }
    ReloadInProgress(a, dts);
    var m := TickAll(a, dts, true);
    assert m == a.(progress := s / r);
    TickAllAppend(a, dts, dt, true);
    assert m.progress + dt / r >= 1.0 by {
      DivideSum(s, dt, r);
      QuotientBelowOne(s + dt, r);
    }
  }

  lemma DivideSum(x: real, y: real, r: real)
    requires r > 0.0
    ensures x / r + y / r == (x + y) / r
  {
  }

  lemma QuotientBelowOne(x: real, r: real)
    requires r > 0.0
    ensures x / r < 1.0 <==> x < r
  {
    var q := x / r;
    assert q * r == x;
    if q < 1.0 {
      assert q * r < r;
    } else {
      assert q * r >= r;
    }
  }

  /** Without a reload in progress, frames leave the arsenal as it is. */
  lemma {:induction false} IdleTicks(a: Arsenal, dts: seq<real>, loaded: bool)
    requires !a.reloading
    ensures TickAll(a, dts, loaded) == a
  {
    if dts != [] {
      IdleTicks(a, dts[1..], loaded);
    }
  }

  // ------------------------------------------------------ the service

  /** One pellet of a shot: its direction and the damage it carries (an `onFire` event). */
  datatype Shot = Shot(direction: Vec3, damage: int)

  /**
   * The pellet loop of `fire`: `bulletsPerShot` pellets, each along the camera
   * direction for a weapon without spread, or along `pelletDirection(i)` (the
   * camera direction perturbed by up to half the spread per axis and
   * normalised, drawn by the caller) otherwise.
   */
  method Pellets(stats: WeaponStats, cameraDirection: Vec3, pelletDirection: nat -> Vec3) returns (shots: seq<Shot>)
    ensures |shots| == stats.bulletsPerShot
    ensures forall i :: 0 <= i < |shots| ==> shots[i].damage == stats.damage
    ensures forall i :: 0 <= i < |shots| ==>
      shots[i].direction == if stats.spread > 0.0 then pelletDirection(i) else cameraDirection
  {
    shots := [];
    var i := 0;
    while i < stats.bulletsPerShot
      invariant 0 <= i <= stats.bulletsPerShot && |shots| == i
      invariant forall j :: 0 <= j < i ==> shots[j].damage == stats.damage
      invariant forall j :: 0 <= j < i ==>
        shots[j].direction == if stats.spread > 0.0 then pelletDirection(j) else cameraDirection
    {
      var direction := cameraDirection;
      if stats.spread > 0.0 {
        direction := pelletDirection(i);
      }
      shots := shots + [Shot(direction, stats.damage)];
      i := i + 1;
    }
  }

  class WeaponSystem {
    /** Whether the weapon models exist (`weapons` map populated by `initialize`, emptied by `destroy`). */
    var modelsLoaded: bool
    var current: WeaponType
    var ammo: map<WeaponType, int>
    var lastFireTime: real
    var reloading: bool
    var progress: real
    /** The `ammo$` and `maxAmmo$` counters shown by the HUD. */
    var displayedAmmo: int
    var displayedMaxAmmo: int

    function View(): Arsenal
      reads this
    {
      Arsenal(current, ammo, lastFireTime, reloading, progress)
    }

    ghost predicate Valid()
      reads this
    {
      Sound(View())
    }

    constructor ()
      ensures Valid() && !modelsLoaded
      ensures View() == Arsenal(Pistol, map[], 0.0, false, 0.0)
      ensures displayedAmmo == 12 && displayedMaxAmmo == 12
    {
      modelsLoaded := false;
      current := Pistol;
      ammo := map[];
      lastFireTime := 0.0;
      reloading := false;
      progress := 0.0;
      displayedAmmo := 12;
      displayedMaxAmmo := 12;
    }

    /** `initialize`: builds the models, fills every weapon and equips the pistol. */
    method Initialize()
      requires Valid()
      modifies this
      ensures Valid() && modelsLoaded
      ensures View() == old(View()).(current := Pistol, ammo := FullAmmo())
      ensures displayedAmmo == 12 && displayedMaxAmmo == 12
    {
      modelsLoaded := true;
      ammo := FullAmmo();
      EquipWeapon(Pistol);
    }

    /** `equipWeapon`: with the models present, switches weapon and shows its stored rounds (capacity when empty) and capacity. */
    method EquipWeapon(t: WeaponType)
      requires Valid()
      modifies this
      ensures Valid() && modelsLoaded == old(modelsLoaded)
      ensures View() == Equip(old(View()), t, modelsLoaded)
      ensures modelsLoaded ==> displayedAmmo == DisplayedOnEquip(old(View()), t) && displayedMaxAmmo == Stats(t).ammoCapacity
      ensures !modelsLoaded ==> displayedAmmo == old(displayedAmmo) && displayedMaxAmmo == old(displayedMaxAmmo)
    {
      if modelsLoaded {
        current := t;
        displayedAmmo := DisplayedOnEquip(View(), t);
        displayedMaxAmmo := Stats(t).ammoCapacity;
      }
    }

    method NextWeapon()
      requires Valid()
      modifies this
      ensures Valid() && modelsLoaded == old(modelsLoaded)
      ensures View() == Equip(old(View()), NextInCycle(old(current)), modelsLoaded)
    {
      EquipWeapon(NextInCycle(current));
    }

    method PreviousWeapon()
      requires Valid()
      modifies this
      ensures Valid() && modelsLoaded == old(modelsLoaded)
      ensures View() == Equip(old(View()), PreviousInCycle(old(current)), modelsLoaded)
    {
      EquipWeapon(PreviousInCycle(current));
    }

    /** `canFire` at time `now`. */
    predicate CanFireNow(now: real)
      reads this
      ensures CanFireNow(now) ==> now > lastFireTime && !reloading && current in ammo && ammo[current] > 0
    {
      CanFire(View(), now)
    }

    /** `startReload`. */
    method StartReload()
      requires Valid()
      modifies this
      ensures Valid() && modelsLoaded == old(modelsLoaded)
      ensures View() == ReloadStarted(old(View()))
      ensures displayedAmmo == old(displayedAmmo) && displayedMaxAmmo == old(displayedMaxAmmo)
    {
      SoundPreserved(View(), 0.0, 0.0, false, current);
      if reloading {
        return;
      }
      if Stored(View(), current) >= Stats(current).ammoCapacity {
        return;
      }
      reloading := true;
      progress := 0.0;
    }

    /**
     * `fire` at time `now`: refused (false, no pellets, nothing changed) unless
     * `canFire`; otherwise one round is spent, the counter shows what is left,
     * one `Shot` per pellet is produced, and an emptied weapon starts reloading.
     */
    method Fire(now: real, cameraDirection: Vec3, pelletDirection: nat -> Vec3) returns (fired: bool, shots: seq<Shot>)
      requires Valid()
      modifies this
      ensures Valid() && modelsLoaded == old(modelsLoaded)
      ensures fired == CanFire(old(View()), now)
      ensures View() == Fired(old(View()), now)
      ensures !fired ==> shots == [] && displayedAmmo == old(displayedAmmo)
      ensures fired ==> displayedAmmo == Stored(old(View()), old(current)) - 1
      ensures fired ==> |shots| == Stats(old(current)).bulletsPerShot
      ensures forall i :: 0 <= i < |shots| ==> shots[i].damage == Stats(old(current)).damage
      ensures forall i :: 0 <= i < |shots| ==>
        shots[i].direction == if Stats(old(current)).spread > 0.0 then pelletDirection(i) else cameraDirection
      ensures displayedMaxAmmo == old(displayedMaxAmmo)
    {
      if !CanFire(View(), now) {
        return false, [];
      }
      fired := true;
      var stats := Stats(current);
      var left := Spend(now);
      shots := Pellets(stats, cameraDirection, pelletDirection);
      if left <= 0 {
        StartReload();
      }
    }

    /** The round `fire` spends: one fewer in the current weapon, shown on the counter, and the shot's time stamped. */
    method Spend(now: real) returns (left: int)
      requires Valid() && CanFire(View(), now)
      modifies this`ammo, this`displayedAmmo, this`lastFireTime
      ensures Valid()
      ensures left == Stored(old(View()), current) - 1 && displayedAmmo == left
      ensures View() == old(View()).(ammo := old(ammo)[current := left], lastFireTime := now)
    {
      left := Stored(View(), current) - 1;
      ammo := ammo[current := left];
      displayedAmmo := left;
      lastFireTime := now;
    }

    /**
     * `update(dt, movementSpeed)`: with the models present, a reload in
     * progress advances by `dt / reloadTime` of the current weapon and, on
     * reaching one, refills the current weapon and shows its capacity.
     */
    method Update(dt: real, movementSpeed: real)
      requires Valid() && dt >= 0.0
      modifies this
      ensures Valid() && modelsLoaded == old(modelsLoaded)
      ensures View() == Tick(old(View()), dt, modelsLoaded)
      ensures old(reloading) && !reloading ==> displayedAmmo == Stats(current).ammoCapacity
      ensures !(old(reloading) && !reloading) ==> displayedAmmo == old(displayedAmmo)
      ensures displayedMaxAmmo == old(displayedMaxAmmo)
    {
      SoundPreserved(View(), 0.0, dt, modelsLoaded, current);
      if modelsLoaded && reloading {
        var stats := Stats(current);
        progress := progress + dt / stats.reloadTime;
        if progress >= 1.0 {
          reloading := false;
          progress := 0.0;
          ammo := ammo[current := stats.ammoCapacity];
          displayedAmmo := stats.ammoCapacity;
        }
      }
    }

    /** `destroy`: removes the models; ammo and reload state are kept. */
    method Destroy()
      requires Valid()
      modifies this
      ensures Valid() && !modelsLoaded && View() == old(View())
      ensures displayedAmmo == old(displayedAmmo) && displayedMaxAmmo == old(displayedMaxAmmo)
    {
      modelsLoaded := false;
    }
  }
}
