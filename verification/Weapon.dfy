/** A mounted weapon's cycle and magazine, and the rate detector that watches its discharges. */
module Weapons {
  import opened Words
  import opened Wrappers

  /** The fields of a weapon definition that its cycle depends on. */
  datatype WeaponDef = WeaponDef(cycleTicks: u32, magazineCapacity: u32, reloadTicks: u32, ammoPerShot: u32)

  datatype Weapon = Weapon(cooldown: u32, loaded: u32, reload: u32)

  /** The cycle under a fire-rate modifier in thousandths; the cast keeps the low 32 bits. */
  function EffectiveCycle(def: WeaponDef, modMilli: int): u32 {
    if modMilli > 0 then
      var scaled := def.cycleTicks * 1000 / modMilli;
      (if scaled >= 1 then scaled else 1) % 0x1_0000_0000
    else def.cycleTicks
  }

  predicate CanFire(def: WeaponDef, w: Weapon) {
    w.cooldown == 0 && w.loaded >= def.ammoPerShot
  }

  function Elapse(def: WeaponDef, w: Weapon): Weapon {
    Weapon(if w.cooldown > 0 then w.cooldown - 1 else 0,
           if w.reload == 1 then def.magazineCapacity else w.loaded,
           if w.reload > 0 then w.reload - 1 else 0)
  }

  function Shoot(def: WeaponDef, w: Weapon, modMilli: int): Weapon {
    if !CanFire(def, w) then w
    else
      var left := w.loaded - def.ammoPerShot;
      Weapon(EffectiveCycle(def, modMilli), left,
             if left < def.ammoPerShot && def.reloadTicks > 0 then def.reloadTicks else w.reload)
  }

  class WeaponState {
    const def: WeaponDef
    var cooldownRemaining: u32
    var loadedAmmo: u32
    var reloadTicksRemaining: u32

    ghost function View(): Weapon
      reads this
    {
      Weapon(cooldownRemaining, loadedAmmo, reloadTicksRemaining)
    }

    constructor (def: WeaponDef)
      ensures this.def == def && View() == Weapon(0, def.magazineCapacity, 0)
    {
      this.def := def;
      cooldownRemaining, loadedAmmo, reloadTicksRemaining := 0, def.magazineCapacity, 0;
    }

    method Tick()
      modifies this
      ensures View() == Elapse(def, old(View()))
      ensures cooldownRemaining == old(if cooldownRemaining > 0 then cooldownRemaining - 1 else 0)
      ensures reloadTicksRemaining == old(if reloadTicksRemaining > 0 then reloadTicksRemaining - 1 else 0)
      ensures loadedAmmo == if old(reloadTicksRemaining) == 1 then def.magazineCapacity else old(loadedAmmo)
    {
      if cooldownRemaining > 0 {
        cooldownRemaining := cooldownRemaining - 1;
      }
      if reloadTicksRemaining > 0 {
        reloadTicksRemaining := reloadTicksRemaining - 1;
        if reloadTicksRemaining == 0 {
          loadedAmmo := def.magazineCapacity;
        }
      }
    }

    method Discharge(modMilli: int) returns (fired: bool)
      modifies this
      ensures View() == Shoot(def, old(View()), modMilli)
      ensures fired <==> old(cooldownRemaining) == 0 && old(loadedAmmo) >= def.ammoPerShot
      ensures loadedAmmo == old(loadedAmmo) - if fired then def.ammoPerShot else 0
      ensures reloadTicksRemaining == if fired && loadedAmmo < def.ammoPerShot && def.reloadTicks > 0
                                      then def.reloadTicks else old(reloadTicksRemaining)
    {
      if cooldownRemaining != 0 || loadedAmmo < def.ammoPerShot {
        return false;
      }
      loadedAmmo := loadedAmmo - def.ammoPerShot;
      cooldownRemaining := EffectiveCycle(def, modMilli);
      if loadedAmmo < def.ammoPerShot && def.reloadTicks > 0 {
        reloadTicksRemaining := def.reloadTicks;
      }
      return true;
    }
  }

  // ---------------------------------------------------------------- runs

  datatype Action = Pass | Trigger(modMilli: int)

  /** The weapon, the shots taken from the magazine, and what the detector remembers. */
  datatype Record = Record(weapon: Weapon, tick: nat, fromMagazine: nat, lastFire: Option<nat>, findings: nat)

  /** A discharge is a violation when fewer ticks have passed since the last than the weapon's own cycle. */
  predicate TooSoon(def: WeaponDef, lastFire: Option<nat>, tick: nat) {
    lastFire.Some? && (if tick >= lastFire.value then tick - lastFire.value else 0) < def.cycleTicks
  }

  function Do(def: WeaponDef, r: Record, a: Action): Record {
    match a
    case Pass =>
      r.(weapon := Elapse(def, r.weapon), tick := r.tick + 1,
         fromMagazine := if r.weapon.reload == 1 then 0 else r.fromMagazine)
    case Trigger(modMilli) =>
      if !CanFire(def, r.weapon) then r
      else
        r.(weapon := Shoot(def, r.weapon, modMilli), fromMagazine := r.fromMagazine + 1,
           lastFire := Some(r.tick),
           findings := r.findings + if TooSoon(def, r.lastFire, r.tick) then 1 else 0)
  }

  function Start(def: WeaponDef): Record {
    Record(Weapon(0, def.magazineCapacity, 0), 0, 0, None, 0)
  }

  function History(def: WeaponDef, actions: seq<Action>): Record {
    if actions == [] then Start(def) else Do(def, History(def, actions[..|actions| - 1]), actions[|actions| - 1])
  }

  // ---------------------------------------------------------------- the magazine

  /** A weapon whose magazine can serve a shot and be reloaded. */
  predicate Sensible(def: WeaponDef) {
    def.reloadTicks > 0 && def.ammoPerShot <= def.magazineCapacity
  }

  ghost predicate MagazineKept(def: WeaponDef, r: Record) {
    && (r.weapon.loaded < def.ammoPerShot <==> r.weapon.reload > 0)
    && r.fromMagazine * def.ammoPerShot + r.weapon.loaded == def.magazineCapacity
  }

  lemma OneMoreShot(n: nat, ammo: nat)
    ensures (n + 1) * ammo == n * ammo + ammo
  {
  }

  lemma DoKeepsMagazine(def: WeaponDef, r: Record, a: Action)
    requires Sensible(def) && MagazineKept(def, r)
    ensures MagazineKept(def, Do(def, r, a))
  {
    hide EffectiveCycle;
    OneMoreShot(r.fromMagazine, def.ammoPerShot);
    if a.Pass? && r.weapon.reload == 1 {
      assert 0 * def.ammoPerShot == 0;
    }
  }

  lemma {:induction false} MagazineLaw(def: WeaponDef, actions: seq<Action>)
    requires Sensible(def)
    ensures MagazineKept(def, History(def, actions))
  {
    hide Do, MagazineKept;
    if actions == [] {
      StartKeepsMagazine(def);
    } else {
      MagazineLaw(def, actions[..|actions| - 1]);
      DoKeepsMagazine(def, History(def, actions[..|actions| - 1]), actions[|actions| - 1]);
    }
  }

  lemma StartKeepsMagazine(def: WeaponDef)
    requires Sensible(def)
    ensures MagazineKept(def, Start(def))
  {
    assert 0 * def.ammoPerShot == 0;
  }

  lemma Quotient(n: nat, ammo: nat, left: nat, capacity: nat)
    requires ammo > 0 && n * ammo + left == capacity
    ensures n <= capacity / ammo
    ensures left < ammo <==> n == capacity / ammo
  {
    var q, rest := capacity / ammo, capacity % ammo;
    assert q * ammo + rest == capacity;
    assert (n - q) * ammo == n * ammo - q * ammo;
    assert (q - n) * ammo == q * ammo - n * ammo;
    if n > q {
      Multiple(n - q, ammo);
    } else if n < q {
      Multiple(q - n, ammo);
    }
  }

  lemma Multiple(k: nat, ammo: nat)
    requires k > 0
    ensures k * ammo >= ammo
  {
  }

  /**
   Over every run a reload is pending exactly while the magazine cannot serve a shot; a magazine
   serves at most capacity / ammo shots, and the reload starts with exactly the last of them.
   */
  lemma ShotsPerMagazine(def: WeaponDef, actions: seq<Action>)
    requires Sensible(def)
    ensures var r := History(def, actions);
      && (r.weapon.loaded < def.ammoPerShot <==> r.weapon.reload > 0)
      && (def.ammoPerShot > 0 ==>
            && r.fromMagazine <= def.magazineCapacity / def.ammoPerShot
            && (r.weapon.reload > 0 <==> r.fromMagazine == def.magazineCapacity / def.ammoPerShot))
  {
    MagazineLaw(def, actions);
    var r := History(def, actions);
    if def.ammoPerShot > 0 {
      Quotient(r.fromMagazine, def.ammoPerShot, r.weapon.loaded, def.magazineCapacity);
    }
  }

  // ---------------------------------------------------------------- ready again

  function Ticks(def: WeaponDef, w: Weapon, n: nat): Weapon {
    if n == 0 then w else Elapse(def, Ticks(def, w, n - 1))
  }

  lemma {:induction false} TicksLaw(def: WeaponDef, w: Weapon, n: nat)
    ensures var t := Ticks(def, w, n);
      && t.cooldown == (if w.cooldown > n then w.cooldown - n else 0)
      && t.reload == (if w.reload > n then w.reload - n else 0)
      && t.loaded == (if 0 < w.reload <= n then def.magazineCapacity else w.loaded)
  {
    if n == 0 {
    } else {
      TicksLaw(def, w, n - 1);
    }
  }

  /** Left alone, a weapon can fire again after max(cooldown, reload) ticks, and not a tick earlier. */
  lemma ReadyAgain(def: WeaponDef, actions: seq<Action>, n: nat)
    requires Sensible(def)
    ensures var w := History(def, actions).weapon;
      CanFire(def, Ticks(def, w, n)) <==> n >= w.cooldown && n >= w.reload
  {
    MagazineLaw(def, actions);
    TicksLaw(def, History(def, actions).weapon, n);
  }

  /** The ticks from one shot to the next under a modifier: at least one, and what 32 bits keep of it. */
  function Interval(def: WeaponDef, modMilli: int): nat {
    if modMilli <= 0 then def.cycleTicks
    else if def.cycleTicks * 1000 < modMilli then 1
    else def.cycleTicks * 1000 / modMilli % 0x1_0000_0000
  }

  lemma IntervalIs(def: WeaponDef, modMilli: int)
    ensures EffectiveCycle(def, modMilli) == Interval(def, modMilli)
  {
    if modMilli > 0 {
      var n := def.cycleTicks * 1000;
      if n < modMilli {
        SmallQuotient(n, modMilli);
      } else {
        QuotientAtLeast(n, 1, modMilli);
      }
    }
  }

  /**
   After a shot the next one is possible once the interval has passed, and as soon as the magazine
   has the ammunition: at once if it was for two shots, and otherwise when the reload is done.
   */
  lemma NextShot(def: WeaponDef, w: Weapon, modMilli: int, n: nat)
    requires w.cooldown == 0 && w.loaded >= def.ammoPerShot && w.reload == 0
    ensures var t := Ticks(def, Shoot(def, w, modMilli), n);
      && (t.cooldown == 0 <==> n >= Interval(def, modMilli))
      && (t.loaded >= def.ammoPerShot <==>
            || w.loaded >= 2 * def.ammoPerShot
            || (0 < def.reloadTicks <= n && def.magazineCapacity >= def.ammoPerShot))
      && (CanFire(def, t) <==> t.cooldown == 0 && t.loaded >= def.ammoPerShot)
  {
    hide EffectiveCycle, Interval, Ticks;
    IntervalIs(def, modMilli);
    TicksLaw(def, Shoot(def, w, modMilli), n);
  }

  // ---------------------------------------------------------------- fire and the detector

  /** The modifier makes a shot possible within the weapon's own cycle. */
  predicate Shortens(def: WeaponDef, modMilli: int) {
    Interval(def, modMilli) < def.cycleTicks
  }

  /** The ticks of the run at which the weapon went off. */
  ghost function Shots(def: WeaponDef, actions: seq<Action>): seq<nat> {
    if actions == [] then []
    else
      var before, last := actions[..|actions| - 1], actions[|actions| - 1];
      var w := History(def, before).weapon;
      if last.Trigger? && w.cooldown == 0 && w.loaded >= def.ammoPerShot then Shots(def, before) + [Passes(before)]
      else Shots(def, before)
  }

  /** The ticks that pass in a run. */
  ghost function Passes(actions: seq<Action>): nat {
    if actions == [] then 0 else Passes(actions[..|actions| - 1]) + if actions[|actions| - 1].Pass? then 1 else 0
  }

  /** The shots that follow the one before them within less than a cycle. */
  ghost function Hurried(shots: seq<nat>, cycle: nat): nat {
    if |shots| < 2 then 0
    else
      Hurried(shots[..|shots| - 1], cycle) +
      if shots[|shots| - 1] < shots[|shots| - 2] + cycle then 1 else 0
  }

  /** Over every run the findings are the shots that followed the one before them within less than a cycle. */
  lemma {:induction false} FindingsAreHurriedShots(def: WeaponDef, actions: seq<Action>)
    ensures var r, shots := History(def, actions), Shots(def, actions);
      && r.findings == Hurried(shots, def.cycleTicks)
      && r.tick == Passes(actions)
      && r.lastFire == (if shots == [] then None else Some(shots[|shots| - 1]))
      && (shots != [] ==> shots[|shots| - 1] <= Passes(actions))
  {
    hide Do, Hurried;
    if actions == [] {
      assert Hurried([], def.cycleTicks) == 0 by { NobodyHurries(def.cycleTicks); }
    } else {
      var before, last := actions[..|actions| - 1], actions[|actions| - 1];
      FindingsAreHurriedShots(def, before);
      DoStep(def, History(def, before), last);
      HurriedSnoc(Shots(def, before), Passes(before), def.cycleTicks);
    }
  }

  lemma DoStep(def: WeaponDef, r: Record, a: Action)
    requires r.lastFire.Some? ==> r.lastFire.value <= r.tick
    ensures var t := Do(def, r, a);
      if a.Pass? then t.tick == r.tick + 1 && t.lastFire == r.lastFire && t.findings == r.findings
      else if r.weapon.cooldown != 0 || r.weapon.loaded < def.ammoPerShot then t == r
      else && t.tick == r.tick && t.lastFire == Some(r.tick)
           && t.findings == r.findings +
                if r.lastFire.Some? && r.tick < r.lastFire.value + def.cycleTicks then 1 else 0
  {
    hide Elapse, Shoot;
  }

  /** The magazine has a second shot for it: two at once, or one that is reloaded within the cycle. */
  predicate HasSecondShot(def: WeaponDef) {
    && def.ammoPerShot <= def.magazineCapacity
    && (2 * def.ammoPerShot <= def.magazineCapacity || 0 < def.reloadTicks < def.cycleTicks)
  }

  /** A run that uses these modifiers only. */
  ghost predicate Uses(mods: set<int>, actions: seq<Action>) {
    forall i :: 0 <= i < |actions| && actions[i].Trigger? ==> actions[i].modMilli in mods
  }

  lemma SlowerIsLonger(x: nat, m: nat)
    requires 0 < m <= 1000
    ensures x * 1000 / m >= x
  {
    assert x * 1000 == x * m + x * (1000 - m) by { Split(x, m); }
    QuotientAtLeast(x * 1000, x, m);
  }

  lemma Split(x: nat, m: nat)
    requires m <= 1000
    ensures x * 1000 == x * m + x * (1000 - m)
  {
  }

  lemma QuotientAtLeast(a: nat, q: nat, m: nat)
    requires m > 0 && a >= q * m
    ensures a / m >= q
  {
    var d := q - a / m;
    assert d * m == q * m - a / m * m;
    if d > 0 {
      Multiple(d, m);
    }
  }

  /** The time since the last shot and what is left of the cooldown make up a whole cycle. */
  ghost predicate Patient(def: WeaponDef, r: Record) {
    && r.findings == 0
    && (r.lastFire.Some? ==>
          && r.lastFire.value <= r.tick
          && r.tick - r.lastFire.value + r.weapon.cooldown >= def.cycleTicks)
  }

  lemma DoStaysPatient(def: WeaponDef, r: Record, a: Action)
    requires Patient(def, r)
    requires a.Trigger? ==> !Shortens(def, a.modMilli)
    ensures Patient(def, Do(def, r, a))
  {
    hide EffectiveCycle, Interval;
    if a.Trigger? {
      IntervalIs(def, a.modMilli);
    }
  }

  /** With a weapon tick per server tick, fire under modifiers that do not shorten the cycle is never reported. */
  lemma {:induction false} HonestFireIsNeverReported(def: WeaponDef, actions: seq<Action>)
    requires forall i :: 0 <= i < |actions| && actions[i].Trigger? ==> !Shortens(def, actions[i].modMilli)
    ensures History(def, actions).findings == 0
    ensures Patient(def, History(def, actions))
  {
    hide Do, Shortens;
    if actions == [] {
    } else {
      HonestFireIsNeverReported(def, actions[..|actions| - 1]);
      DoStaysPatient(def, History(def, actions[..|actions| - 1]), actions[|actions| - 1]);
    }
  }

  /** Without a second shot the magazine is full or spent, and a full one has waited out the reload. */
  ghost predicate OneByOne(def: WeaponDef, r: Record) {
    && r.findings == 0
    && (r.lastFire.None? ==> r.weapon.loaded == def.magazineCapacity && r.weapon.reload == 0)
    && (r.lastFire.Some? ==>
          && r.lastFire.value <= r.tick && def.ammoPerShot <= def.magazineCapacity
          && if r.weapon.loaded < def.ammoPerShot
             then (r.weapon.reload > 0 <==> def.reloadTicks > 0) &&
                  r.tick - r.lastFire.value + r.weapon.reload >= def.reloadTicks
             else r.weapon.loaded == def.magazineCapacity && r.weapon.reload == 0 && def.reloadTicks > 0 &&
                  r.tick - r.lastFire.value >= def.reloadTicks)
  }

  lemma DoStaysOneByOne(def: WeaponDef, r: Record, a: Action)
    requires !HasSecondShot(def) && OneByOne(def, r)
    ensures OneByOne(def, Do(def, r, a))
  {
    hide EffectiveCycle;
  }

  lemma {:induction false} SpentMagazineIsNeverReported(def: WeaponDef, actions: seq<Action>)
    requires !HasSecondShot(def)
    ensures OneByOne(def, History(def, actions))
  {
    hide Do, HasSecondShot;
    if actions == [] {
    } else {
      SpentMagazineIsNeverReported(def, actions[..|actions| - 1]);
      DoStaysOneByOne(def, History(def, actions[..|actions| - 1]), actions[|actions| - 1]);
    }
  }

  /**
   Whether anyone obeying the weapon's own rules can be reported at all: some run under the given
   modifiers has a finding exactly when one of them shortens the cycle and the magazine has a
   second shot for it.
   */
  lemma FireIsReportedIff(def: WeaponDef, mods: set<int>)
    ensures (exists actions :: Uses(mods, actions) && History(def, actions).findings > 0) <==>
            HasSecondShot(def) && exists m :: m in mods && Shortens(def, m)
  {
    hide Shortens, HasSecondShot, History;
    if HasSecondShot(def) && exists m :: m in mods && Shortens(def, m) {
      var m :| m in mods && Shortens(def, m);
      var actions := HurriedFireIsReported(def, m);
      assert Uses(mods, actions) && History(def, actions).findings > 0;
    } else {
      forall actions | Uses(mods, actions) ensures History(def, actions).findings == 0 {
        if HasSecondShot(def) {
          HonestFireIsNeverReported(def, actions);
        } else {
          SpentMagazineIsNeverReported(def, actions);
        }
      }
    }
  }

  // ---------------------------------------------------------------- fire commands and discharges

  /** The same run as the detector itself sees it: it takes every fire command for a discharge. */
  function Inspect(def: WeaponDef, r: Record, a: Action): Record {
    match a
    case Pass => Do(def, r, a)
    case Trigger(_) =>
      Do(def, r, a).(lastFire := Some(r.tick),
                     findings := r.findings + if TooSoon(def, r.lastFire, r.tick) then 1 else 0)
  }

  function Inspected(def: WeaponDef, actions: seq<Action>): Record {
    if actions == [] then Start(def) else Inspect(def, Inspected(def, actions[..|actions| - 1]), actions[|actions| - 1])
  }

  /** The ticks of the run at which the trigger was pulled. */
  ghost function Pulls(actions: seq<Action>): seq<nat> {
    if actions == [] then []
    else
      var before := actions[..|actions| - 1];
      if actions[|actions| - 1].Trigger? then Pulls(before) + [Passes(before)] else Pulls(before)
  }

  /** What the detector finds are the pulls that followed the one before them within less than a cycle. */
  lemma {:induction false} DetectedAreHurriedPulls(def: WeaponDef, actions: seq<Action>)
    ensures var r, pulls := Inspected(def, actions), Pulls(actions);
      && r.findings == Hurried(pulls, def.cycleTicks)
      && r.tick == Passes(actions)
      && r.lastFire == (if pulls == [] then None else Some(pulls[|pulls| - 1]))
      && (pulls != [] ==> pulls[|pulls| - 1] <= Passes(actions))
  {
    hide Inspect, Hurried;
    if actions == [] {
      assert Hurried([], def.cycleTicks) == 0 by { NobodyHurries(def.cycleTicks); }
    } else {
      var before, last := actions[..|actions| - 1], actions[|actions| - 1];
      DetectedAreHurriedPulls(def, before);
      InspectStep(def, Inspected(def, before), last);
      HurriedSnoc(Pulls(before), Passes(before), def.cycleTicks);
    }
  }

  lemma NobodyHurries(cycle: nat)
    ensures Hurried([], cycle) == 0
  {
  }

  lemma HurriedSnoc(shots: seq<nat>, tick: nat, cycle: nat)
    ensures Hurried(shots + [tick], cycle) ==
            Hurried(shots, cycle) + if shots != [] && tick < shots[|shots| - 1] + cycle then 1 else 0
  {
    assert (shots + [tick])[..|shots|] == shots;
  }

  lemma InspectStep(def: WeaponDef, r: Record, a: Action)
    requires r.lastFire.Some? ==> r.lastFire.value <= r.tick
    ensures var t := Inspect(def, r, a);
      if a.Pass? then t.tick == r.tick + 1 && t.lastFire == r.lastFire && t.findings == r.findings
      else && t.tick == r.tick && t.lastFire == Some(r.tick)
           && t.findings == r.findings +
                if r.lastFire.Some? && r.tick < r.lastFire.value + def.cycleTicks then 1 else 0
  {
    hide Elapse, Shoot, CanFire;
  }

  /** The trigger is pulled only when the weapon can fire. */
  ghost predicate Disciplined(def: WeaponDef, actions: seq<Action>) {
    forall i :: 0 <= i < |actions| && actions[i].Trigger? ==> CanFire(def, History(def, actions[..i]).weapon)
  }

  lemma DisciplinedPrefix(def: WeaponDef, actions: seq<Action>)
    requires actions != [] && Disciplined(def, actions)
    ensures Disciplined(def, actions[..|actions| - 1])
  {
    hide History, CanFire;
    var before := actions[..|actions| - 1];
    assert forall i :: 0 <= i < |before| ==> before[..i] == actions[..i];
  }

  /** A client that pulls the trigger only when the weapon can fire is judged by its discharges alone. */
  lemma {:induction false} DisciplinedFireIsDischarges(def: WeaponDef, actions: seq<Action>)
    requires Disciplined(def, actions)
    ensures Inspected(def, actions) == History(def, actions)
  {
    if actions == [] {
    } else {
      DisciplinedPrefix(def, actions);
      DisciplinedFireIsDischarges(def, actions[..|actions| - 1]);
    }
  }

  /** A pull that the weapon cannot answer counts too: a second one in one tick, under any modifier, is reported. */
  lemma SecondPullIsReported(def: WeaponDef, actions: seq<Action>, modMilli: int)
    requires def.cycleTicks > 0 && actions != [] && actions[|actions| - 1].Trigger?
    ensures Inspected(def, actions + [Trigger(modMilli)]).findings == Inspected(def, actions).findings + 1
  {
    hide CanFire, Shoot;
    assert (actions + [Trigger(modMilli)])[..|actions|] == actions;
  }

  /** When nothing is truncated, the modifiers that shorten a cycle are those above 1000, on cycles above one tick. */
  lemma ShortenedIff(def: WeaponDef, modMilli: int)
    requires modMilli > 0 ==> def.cycleTicks * 1000 / modMilli < 0x1_0000_0000
    ensures Shortens(def, modMilli) <==> modMilli > 1000 && def.cycleTicks > 1
  {
    hide Interval;
    if modMilli > 0 {
      WholeInterval(def, modMilli);
    }
    if 0 < modMilli <= 1000 {
      SlowerIsLonger(def.cycleTicks, modMilli);
    } else if modMilli > 1000 && def.cycleTicks > 1 {
      FasterIsShorter(def.cycleTicks, modMilli);
    } else if modMilli > 1000 {
      SmallQuotient(def.cycleTicks * 1000, modMilli);
    } else {
      PlainInterval(def, modMilli);
    }
  }

  lemma PlainInterval(def: WeaponDef, modMilli: int)
    requires modMilli <= 0
    ensures Interval(def, modMilli) == def.cycleTicks
  {
  }

  lemma WholeInterval(def: WeaponDef, modMilli: int)
    requires modMilli > 0 && def.cycleTicks * 1000 / modMilli < 0x1_0000_0000
    ensures var q := def.cycleTicks * 1000 / modMilli;
      Interval(def, modMilli) == if q == 0 then 1 else q
  {
    var n := def.cycleTicks * 1000;
    if n < modMilli {
      SmallQuotient(n, modMilli);
    } else {
      QuotientAtLeast(n, 1, modMilli);
      SmallRemainder(n / modMilli, 0x1_0000_0000);
    }
  }

  lemma SmallRemainder(a: nat, m: nat)
    requires a < m
    ensures a % m == a
  {
  }

  lemma SmallQuotient(a: nat, m: nat)
    requires a < m
    ensures a / m == 0
  {
  }

  lemma FasterIsShorter(x: nat, m: nat)
    requires m > 1000 && x > 0
    ensures x * 1000 / m < x
  {
    var q := x * 1000 / m;
    assert q * m <= x * 1000;
    Scale(x, 1001, m);
    if q >= x {
      Scale(m, x, q);
    }
  }

  lemma Scale(x: nat, a: nat, b: nat)
    requires a <= b
    ensures x * a <= x * b
  {
  }

  function Wait(n: nat): seq<Action> {
    if n == 0 then [] else Wait(n - 1) + [Pass]
  }

  lemma {:induction false} WaitLaw(def: WeaponDef, actions: seq<Action>, n: nat)
    ensures var r, t := History(def, actions), History(def, actions + Wait(n));
      && t.weapon == Ticks(def, r.weapon, n) && t.tick == r.tick + n
      && t.lastFire == r.lastFire && t.findings == r.findings
  {
    if n == 0 {
      assert actions + Wait(0) == actions;
    } else {
      assert (actions + Wait(n))[..|actions + Wait(n)| - 1] == actions + Wait(n - 1);
      WaitLaw(def, actions, n - 1);
    }
  }

  /** Two shots, the second as soon as the weapon's own rules allow it. */
  lemma HurriedFireIsReported(def: WeaponDef, modMilli: int) returns (actions: seq<Action>)
    requires Shortens(def, modMilli) && HasSecondShot(def)
    ensures Uses({modMilli}, actions)
    ensures History(def, actions).findings == 1
  {
    hide EffectiveCycle, Interval;
    IntervalIs(def, modMilli);
    var shot, cycle := [Trigger(modMilli)], Interval(def, modMilli);
    var reload := if 2 * def.ammoPerShot <= def.magazineCapacity then 0 else def.reloadTicks;
    var pause := if cycle >= reload then cycle else reload;
    assert shot[..0] == [];
    WaitLaw(def, shot, pause);
    TicksLaw(def, History(def, shot).weapon, pause);
    WaitPasses(pause);
    actions := shot + Wait(pause) + [Trigger(modMilli)];
    assert actions[..|actions| - 1] == shot + Wait(pause);
  }

  lemma {:induction false} WaitPasses(n: nat)
    ensures forall i :: 0 <= i < |Wait(n)| ==> Wait(n)[i] == Pass
  {
    if n == 0 {
    } else {
      WaitPasses(n - 1);
    }
  }
}
