/** The container component: in-place slot loops, each proved against the container it must leave. */
module Inventories {
  import opened Words
  import opened Wrappers
  import opened Resources
  import opened Containers
  import opened ContainerLaws

  // ---------------------------------------------------------------- walks in place

  /** The slots after a loop, the units it could not place, and whether it ran to its end. */
  datatype Walk = Walk(slots: seq<Slot>, rest: nat, completed: bool)

  /** `Fill` as the in-place loop runs it: from slot `i` on, with `n` units still to go. */
  ghost function FillAt(slots: seq<Slot>, i: nat, r: ResourceId, limit: nat, n: nat): Walk
    requires i <= |slots| && limit <= 5000
    decreases |slots| - i
  {
    if i == |slots| || n == 0 then Walk(slots, n, true)
    else
      var k := Min(n, Weigh(Headroom(r, limit), slots[i]));
      FillAt(slots[i := slots[i].(quantity := slots[i].quantity + k)], i + 1, r, limit, n - k)
  }

  lemma {:induction false} FillAtLaw(done: seq<Slot>, todo: seq<Slot>, r: ResourceId, limit: nat, n: nat)
    requires limit <= 5000
    ensures FillAt(done + todo, |done|, r, limit, n) ==
            Walk(done + Fill(todo, r, limit, n), n - Min(n, Sum(Headroom(r, limit), todo)), true)
    decreases |todo|
  {
    if todo == [] {
      assert done + todo == done;
    } else if n > 0 {
      var k := Min(n, Weigh(Headroom(r, limit), todo[0]));
      var s := todo[0].(quantity := todo[0].quantity + k);
      UpdateBoundary(done, todo, s);
      FillAtLaw(done + [s], todo[1..], r, limit, n - k);
      Regroup(done, s, Fill(todo[1..], r, limit, n - k));
    }
  }

  lemma FillFromStart(slots: seq<Slot>, r: ResourceId, limit: nat, n: nat)
    requires limit <= 5000
    ensures FillAt(slots, 0, r, limit, n) ==
            Walk(Fill(slots, r, limit, n), n - Min(n, Sum(Headroom(r, limit), slots)), true)
  {
    FillAtLaw([], slots, r, limit, n);
    assert [] + slots == slots && [] + Fill(slots, r, limit, n) == Fill(slots, r, limit, n);
  }

  /** `Lock` as the in-place loop runs it: from slot `i` on, with `n` units still to go. */
  ghost function LockAt(slots: seq<Slot>, i: nat, r: ResourceId, n: nat): Walk
    requires i <= |slots|
    decreases |slots| - i
  {
    if i == |slots| || n == 0 then Walk(slots, n, true)
    else
      var k := Min(n, Weigh(Unreserved(r), slots[i]));
      LockAt(slots[i := slots[i].(reserved := slots[i].reserved + k)], i + 1, r, n - k)
  }

  lemma {:induction false} LockAtLaw(done: seq<Slot>, todo: seq<Slot>, r: ResourceId, n: nat)
    ensures LockAt(done + todo, |done|, r, n) ==
            Walk(done + Lock(todo, r, n), n - Min(n, Sum(Unreserved(r), todo)), true)
    decreases |todo|
  {
    if todo == [] {
      assert done + todo == done;
    } else if n > 0 {
      var k := Min(n, Weigh(Unreserved(r), todo[0]));
      var s := todo[0].(reserved := todo[0].reserved + k);
      UpdateBoundary(done, todo, s);
      LockAtLaw(done + [s], todo[1..], r, n - k);
      Regroup(done, s, Lock(todo[1..], r, n - k));
    }
  }

  lemma LockFromStart(slots: seq<Slot>, r: ResourceId, n: nat)
    ensures LockAt(slots, 0, r, n).slots == Lock(slots, r, n)
  {
    LockAtLaw([], slots, r, n);
    assert [] + slots == slots && [] + Lock(slots, r, n) == Lock(slots, r, n);
  }

  /** `Unlock` as the in-place loop runs it: from slot `i` on, with `n` units still to go. */
  ghost function UnlockAt(slots: seq<Slot>, i: nat, r: ResourceId, n: nat): Walk
    requires i <= |slots|
    decreases |slots| - i
  {
    if i == |slots| || n == 0 then Walk(slots, n, true)
    else
      var k := Min(n, Weigh(Locked(r), slots[i]));
      UnlockAt(slots[i := slots[i].(reserved := slots[i].reserved - k)], i + 1, r, n - k)
  }

  /** One pass of the loop body, and where the loop may stop. */
  lemma UnlockAtStep(slots: seq<Slot>, i: nat, r: ResourceId, n: nat)
    requires i <= |slots|
    ensures i == |slots| || n == 0 ==> UnlockAt(slots, i, r, n) == Walk(slots, n, true)
    ensures i < |slots| ==> var k := Min(n, Weigh(Locked(r), slots[i]));
              UnlockAt(slots, i, r, n) ==
              UnlockAt(slots[i := slots[i].(reserved := slots[i].reserved - k)], i + 1, r, n - k)
  {
    if i < |slots| && n == 0 {
      assert slots[i := slots[i].(reserved := slots[i].reserved - 0)] == slots;
    }
  }

  lemma {:induction false} UnlockAtLaw(done: seq<Slot>, todo: seq<Slot>, r: ResourceId, n: nat)
    ensures UnlockAt(done + todo, |done|, r, n) ==
            Walk(done + Unlock(todo, r, n), n - Min(n, Sum(Locked(r), todo)), true)
    decreases |todo|
  {
    if todo == [] {
      assert done + todo == done;
    } else if n > 0 {
      var k := Min(n, Weigh(Locked(r), todo[0]));
      var s := todo[0].(reserved := todo[0].reserved - k);
      UpdateBoundary(done, todo, s);
      UnlockAtLaw(done + [s], todo[1..], r, n - k);
      Regroup(done, s, Unlock(todo[1..], r, n - k));
    }
  }

  lemma UnlockFromStart(slots: seq<Slot>, r: ResourceId, n: nat)
    ensures UnlockAt(slots, 0, r, n).slots == Unlock(slots, r, n)
  {
    UnlockAtLaw([], slots, r, n);
    assert [] + slots == slots && [] + Unlock(slots, r, n) == Unlock(slots, r, n);
  }

  /** `TakeBack` as the reverse loop runs it: slots below `i` are still to visit. */
  ghost function TakeBackAt(slots: seq<Slot>, i: nat, r: ResourceId, n: nat): seq<Slot>
    requires i <= |slots|
    decreases i
  {
    if i == 0 || n == 0 then slots
    else
      var k := Min(n, Weigh(Unreserved(r), slots[i - 1]));
      TakeBackAt(slots[i - 1 := slots[i - 1].(quantity := slots[i - 1].quantity - k)], i - 1, r, n - k)
  }

  lemma {:induction false} TakeBackAtLaw(todo: seq<Slot>, done: seq<Slot>, r: ResourceId, n: nat)
    ensures TakeBackAt(todo + done, |todo|, r, n) == TakeBack(todo, r, n) + done
    decreases |todo|
  {
    if todo == [] {
    } else if n > 0 {
      var init, last := todo[..|todo| - 1], todo[|todo| - 1];
      var k := Min(n, Weigh(Unreserved(r), last));
      var s := last.(quantity := last.quantity - k);
      assert (todo + done)[|init| := s] == init + ([s] + done);
      TakeBackAtLaw(init, [s] + done, r, n - k);
      assert TakeBack(init, r, n - k) + [s] + done == TakeBack(init, r, n - k) + ([s] + done);
    }
  }

  /** `Deduct` as the in-place loop runs it. */
  ghost function DeductAt(slots: seq<Slot>, i: nat, r: ResourceId, n: nat): Walk
    requires i <= |slots|
    decreases |slots| - i
  {
    if i == |slots| || n == 0 then Walk(slots, n, true)
    else
      var k := Min(n, Weigh(Locked(r), slots[i]));
      var unlocked := slots[i].(reserved := slots[i].reserved - k);
      if slots[i].quantity < k then Walk(slots[i := unlocked], n, false)
      else DeductAt(slots[i := unlocked.(quantity := unlocked.quantity - k)], i + 1, r, n - k)
  }

  lemma {:induction false} DeductAtLaw(done: seq<Slot>, todo: seq<Slot>, r: ResourceId, n: nat)
    ensures var walk := DeductAt(done + todo, |done|, r, n);
      walk.slots == done + Deduct(todo, r, n).slots && walk.completed == Deduct(todo, r, n).completed
    decreases |todo|
  {
    if todo == [] {
    } else if n > 0 {
      var k := Min(n, Weigh(Locked(r), todo[0]));
      var unlocked := todo[0].(reserved := todo[0].reserved - k);
      if todo[0].quantity < k {
        UpdateBoundary(done, todo, unlocked);
      } else {
        var s := unlocked.(quantity := unlocked.quantity - k);
        UpdateBoundary(done, todo, s);
        DeductAtLaw(done + [s], todo[1..], r, n - k);
        Regroup(done, s, Deduct(todo[1..], r, n - k).slots);
      }
    }
  }

  lemma {:induction false} DeductAtRest(slots: seq<Slot>, i: nat, r: ResourceId, n: nat)
    requires i <= |slots|
    requires DeductAt(slots, i, r, n).completed
    requires n <= Sum(Deductible(r), slots[i..])
    ensures DeductAt(slots, i, r, n).rest == 0
    decreases |slots| - i
  {
    if i < |slots| && n > 0 {
      var k := Min(n, Weigh(Locked(r), slots[i]));
      var s := slots[i].(reserved := slots[i].reserved - k, quantity := slots[i].quantity - k);
      assert slots[i..][1..] == slots[i := s][i + 1..];
      DeductAtRest(slots[i := s], i + 1, r, n - k);
    }
  }

  /** What the deduction loop delivers when the up-front balance check has passed. */
  lemma DeductLoop(slots: seq<Slot>, r: ResourceId, n: nat)
    requires n <= Sum(Deductible(r), slots)
    ensures var walk := DeductAt(slots, 0, r, n);
      && Deduct(slots, r, n) == Deduction(walk.slots, walk.completed)
      && (walk.completed ==> walk.rest == 0)
  {
    DeductAtLaw([], slots, r, n);
    assert [] + slots == slots && [] + Deduct(slots, r, n).slots == Deduct(slots, r, n).slots;
    if DeductAt(slots, 0, r, n).completed {
      assert slots[0..] == slots;
      DeductAtRest(slots, 0, r, n);
    }
  }

  lemma UpdateBoundary(done: seq<Slot>, todo: seq<Slot>, s: Slot)
    requires todo != []
    ensures (done + todo)[|done| := s] == done + [s] + todo[1..]
    ensures (done + todo)[|done| := s] == done + ([s] + todo[1..])
  {
  }

  lemma Regroup(done: seq<Slot>, s: Slot, rest: seq<Slot>)
    ensures done + [s] + rest == done + ([s] + rest)
  {
  }

  lemma UpdateTwice(slots: seq<Slot>, i: nat, s: Slot, t: Slot)
    requires i < |slots|
    ensures slots[i := s][i := t] == slots[i := t]
  {
  }

  class Inventory {
    const owner: EntityId
    const ownerFaction: FactionId
    const kind: ContainerKind
    const maxSlots: nat
    const maxVolumeLiters: nat
    var slots: seq<Slot>
    var reservations: map<ReservationId, Reservation>

    constructor (owner: EntityId, ownerFaction: FactionId, kind: ContainerKind, maxSlots: nat, maxVolumeLiters: nat)
      ensures View() == Container(owner, ownerFaction, kind, maxSlots, maxVolumeLiters, [], map[])
      ensures Sound(View())
    {
      this.owner, this.ownerFaction, this.kind := owner, ownerFaction, kind;
      this.maxSlots, this.maxVolumeLiters := maxSlots, maxVolumeLiters;
      slots, reservations := [], map[];
      new;
      assert forall r: ResourceId :: Sum(Locked(r), []) == Pledged(map[], r);
    }

    /** The container as a value. */
    function View(): Container
      reads this
    {
      Container(owner, ownerFaction, kind, maxSlots, maxVolumeLiters, slots, reservations)
    }

    method CurrentVolumeMl() returns (total: nat)
      ensures total == Sum(VolumeMl, slots)
    {
      total := 0;
      for i := 0 to |slots|
        invariant total + Sum(VolumeMl, slots[i..]) == Sum(VolumeMl, slots)
      {
        match Lookup(slots[i].resource) {
          case Some(def) => total := total + slots[i].quantity * def.unitVolumeMl;
          case None =>
        }
        assert slots[i..][1..] == slots[i + 1..];
      }
    }

    method CanAccept(r: ResourceId, amount: u32) returns (ok: bool)
      ensures ok <==> Containers.CanAccept(View(), r, amount)
    {
      if amount == 0 {
        return true;
      }
      if kind == Silo && Lookup(r).Some? && Lookup(r).value.category != RawMineral {
        return false;
      }
      if Lookup(r).None? {
        return false;
      }
      var def := Lookup(r).value;
      var volume := CurrentVolumeMl();
      if volume + amount * def.unitVolumeMl > maxVolumeLiters * 1000 + 1 {
        return false;
      }
      var remaining := amount;
      for i := 0 to |slots|
        invariant 0 < remaining
        invariant amount - remaining + Sum(Headroom(r, def.stackLimit), slots[i..]) ==
                  Sum(Headroom(r, def.stackLimit), slots)
      {
        assert slots[i..][1..] == slots[i + 1..];
        if slots[i].resource == r && slots[i].quantity < def.stackLimit {
          var space := def.stackLimit - slots[i].quantity;
          if remaining <= space {
            return true;
          }
          remaining := remaining - space;
        }
      }
      var slotsNeeded := (remaining + def.stackLimit - 1) / def.stackLimit;
      CeilingLaw(def.stackLimit, remaining, maxSlots - |slots|);
      return |slots| + slotsNeeded <= maxSlots;
    }

    method Add(r: ResourceId, amount: u32) returns (result: Result<(), GameError>)
      modifies this`slots
      ensures View() == AddTo(old(View()), r, amount).after
      ensures result == AddTo(old(View()), r, amount).result
    {
      if amount == 0 {
        return Ok(());
      }
      var ok := CanAccept(r, amount);
      if !ok {
        return Err(InventoryFull(maxSlots, maxVolumeLiters));
      }
      var limit := Lookup(r).value.stackLimit;
      var remaining := FillExisting(r, limit, amount);
      if remaining > 0 {
        GrowLength(r, limit, remaining, maxSlots - |slots|);
      } else {
        assert Grow(r, limit, remaining) == [];
      }
      AllocateNew(r, limit, remaining);
      return Ok(());
    }

    /**
     Second half of `Add`: one fresh slot per stack. The slot limit is tested again on every
     turn, and the test never fires because the dry run has counted the slots needed.
     */
    method AllocateNew(r: ResourceId, limit: nat, amount: nat)
      requires 0 < limit <= 5000
      requires amount > 0 ==> |slots| + |Grow(r, limit, amount)| <= maxSlots
      modifies this`slots
      ensures slots == old(slots) + Grow(r, limit, amount)
    {
      var remaining := amount;
      ghost var start := slots;
      while remaining > 0
        invariant 0 <= remaining <= amount
        invariant slots + Grow(r, limit, remaining) == start + Grow(r, limit, amount)
      {
        assert |slots| + |Grow(r, limit, remaining)| == |start| + |Grow(r, limit, amount)|;
        if |slots| >= maxSlots {
          assert false;
        }
        var toAdd := Min(remaining, limit);
        assert slots + Grow(r, limit, remaining) == slots + [Slot(r, toAdd, 0)] + Grow(r, limit, remaining - toAdd);
        slots := slots + [Slot(r, toAdd, 0)];
        remaining := remaining - toAdd;
      }
      assert Grow(r, limit, 0) == [];
    }

    /** First half of `Add`: top up the existing stacks and report what is left. */
    method FillExisting(r: ResourceId, limit: nat, amount: nat) returns (remaining: nat)
      requires 0 < limit <= 5000
      requires amount > 0
      modifies this`slots
      ensures slots == Fill(old(slots), r, limit, amount)
      ensures |slots| == |old(slots)|
      ensures remaining == amount - Min(amount, Sum(Headroom(r, limit), old(slots)))
    {
      remaining := amount;
      FillFromStart(slots, r, limit, amount);
      ghost var start := slots;
      hide Fill, Sum;
      var i := 0;
      while i < |slots|
        invariant 0 <= i <= |slots| == |start|
        invariant 0 < remaining <= amount
        invariant FillAt(slots, i, r, limit, remaining) == FillAt(start, 0, r, limit, amount)
      {
        if slots[i].resource == r && slots[i].quantity < limit {
          var space := limit - slots[i].quantity;
          var toAdd := Min(remaining, space);
          slots := slots[i := slots[i].(quantity := slots[i].quantity + toAdd)];
          remaining := remaining - toAdd;
        } else {
          assert slots[i := slots[i].(quantity := slots[i].quantity + 0)] == slots;
        }
        i := i + 1;
        if remaining == 0 {
          break;
        }
      }
    }

    method Remove(r: ResourceId, amount: u32) returns (result: Result<(), GameError>)
      modifies this`slots
      ensures View() == RemoveFrom(old(View()), r, amount).after
      ensures result == RemoveFrom(old(View()), r, amount).result
    {
      if amount == 0 {
        return Ok(());
      }
      var available := Sum(Unreserved(r), slots);
      if available < amount {
        return Err(InsufficientUnreservedBalance(available, amount));
      }
      TakeFromBack(r, amount);
      slots := Compact(slots);
      return Ok(());
    }

    /** The reverse walk of `Remove`. */
    method TakeFromBack(r: ResourceId, amount: nat)
      requires amount > 0
      modifies this`slots
      ensures slots == TakeBack(old(slots), r, amount)
    {
      TakeBackAtLaw(slots, [], r, amount);
      ghost var start := slots;
      assert slots + [] == slots && TakeBack(slots, r, amount) + [] == TakeBack(slots, r, amount);
      var remaining: nat := amount;
      var i := |slots|;
      while i > 0
        invariant 0 <= i <= |slots| == |start|
        invariant 0 < remaining
        invariant TakeBackAt(slots, i, r, remaining) == TakeBackAt(start, |start|, r, amount)
      {
        i := i - 1;
        if slots[i].resource == r && slots[i].Available() > 0 {
          var toTake := Min(remaining, slots[i].Available());
          slots := slots[i := slots[i].(quantity := slots[i].quantity - toTake)];
          remaining := remaining - toTake;
        } else {
          assert slots[i := slots[i].(quantity := slots[i].quantity - 0)] == slots;
        }
        if remaining == 0 {
          break;
        }
      }
    }

    method Reserve(id: ReservationId, r: ResourceId, amount: u32, tick: SimTick, target: Option<EntityId>)
      returns (result: Result<(), GameError>)
      modifies this
      ensures View() == ReserveIn(old(View()), id, r, amount, tick, target).after
      ensures result == ReserveIn(old(View()), id, r, amount, tick, target).result
    {
      if id == NULL_ID {
        return Err(InvalidId);
      }
      if amount == 0 {
        return Ok(());
      }
      if id in reservations {
        return Err(ReservationAlreadyExists(id));
      }
      var available := Sum(Unreserved(r), slots);
      if available < amount {
        return Err(InsufficientUnreservedBalance(available, amount));
      }
      LockUnreserved(r, amount);
      reservations := reservations[id := Reservation(r, amount, tick, owner, target)];
      return Ok(());
    }

    /** The locking walk of `Reserve`. */
    method LockUnreserved(r: ResourceId, amount: nat)
      requires amount > 0
      modifies this`slots
      ensures slots == Lock(old(slots), r, amount)
    {
      LockFromStart(slots, r, amount);
      ghost var start := slots;
      hide Lock;
      var remaining: nat := amount;
      var i := 0;
      while i < |slots|
        invariant 0 <= i <= |slots|
        invariant 0 < remaining
        invariant LockAt(slots, i, r, remaining) == LockAt(start, 0, r, amount)
      {
        if slots[i].resource == r && slots[i].Available() > 0 {
          var toReserve := Min(remaining, slots[i].Available());
          slots := slots[i := slots[i].(reserved := slots[i].reserved + toReserve)];
          remaining := remaining - toReserve;
        } else {
          assert slots[i := slots[i].(reserved := slots[i].reserved + 0)] == slots;
        }
        i := i + 1;
        if remaining == 0 {
          break;
        }
      }
    }

    method CommitReservation(id: ReservationId) returns (result: Result<(ResourceId, u32), GameError>)
      modifies this
      ensures View() == CommitIn(old(View()), id).after
      ensures result == CommitIn(old(View()), id).result
    {
      if id !in reservations {
        return Err(ReservationNotFound(id));
      }
      var res := reservations[id];
      var availableReserved := Sum(Deductible(res.resource), slots);
      if availableReserved < res.amount {
        return Err(ResourceUnderflow);
      }
      reservations := reservations - {id};
      var completed := DeductLocked(res.resource, res.amount);
      if !completed {
        return Err(ResourceUnderflow);
      }
      slots := Compact(slots);
      return Ok((res.resource, res.amount));
    }

    /** The deduction walk of `CommitReservation`; false when a slot underflows half way. */
    method DeductLocked(r: ResourceId, amount: nat) returns (completed: bool)
      requires amount <= Sum(Deductible(r), slots)
      modifies this`slots
      ensures Deduct(old(slots), r, amount) == Deduction(slots, completed)
    {
      DeductLoop(slots, r, amount);
      ghost var start := slots;
      var remaining: nat := amount;
      var i := 0;
      while i < |slots|
        invariant 0 <= i <= |slots|
        invariant DeductAt(slots, i, r, remaining) == DeductAt(start, 0, r, amount)
      {
        if slots[i].resource == r && slots[i].reserved > 0 {
          var toDeduct := Min(remaining, slots[i].reserved);
          ghost var before := slots;
          slots := slots[i := slots[i].(reserved := slots[i].reserved - toDeduct)];
          if slots[i].quantity < toDeduct {
            return false;
          }
          ghost var unlocked := slots[i];
          slots := slots[i := slots[i].(quantity := slots[i].quantity - toDeduct)];
          UpdateTwice(before, i, unlocked, slots[i]);
          remaining := remaining - toDeduct;
        } else {
          assert slots[i := slots[i].(reserved := slots[i].reserved - 0, quantity := slots[i].quantity - 0)] == slots;
        }
        i := i + 1;
        if remaining == 0 {
          break;
        }
      }
      assert remaining == 0;
      return true;
    }

    method ReleaseReservation(id: ReservationId) returns (result: Result<(ResourceId, u32), GameError>)
      modifies this
      ensures View() == ReleaseIn(old(View()), id).after
      ensures result == ReleaseIn(old(View()), id).result
    {
      if id !in reservations {
        return Err(ReservationNotFound(id));
      }
      var res := reservations[id];
      var availableReserved := Sum(Locked(res.resource), slots);
      if availableReserved < res.amount {
        return Err(ResourceUnderflow);
      }
      reservations := reservations - {id};
      UnlockReserved(res.resource, res.amount);
      return Ok((res.resource, res.amount));
    }

    /** The unlocking walk of `ReleaseReservation`. */
    method UnlockReserved(r: ResourceId, amount: nat)
      requires amount <= Sum(Locked(r), slots)
      modifies this`slots
      ensures slots == Unlock(old(slots), r, amount)
    {
      UnlockFromStart(slots, r, amount);
      ghost var start := slots;
      hide Unlock, UnlockAt, Sum;
      var remaining: nat := amount;
      var i := 0;
      while i < |slots|
        invariant 0 <= i <= |slots|
        invariant UnlockAt(slots, i, r, remaining) == UnlockAt(start, 0, r, amount)
      {
        UnlockAtStep(slots, i, r, remaining);
        if slots[i].resource == r && slots[i].reserved > 0 {
          var toUnlock := Min(remaining, slots[i].reserved);
          slots := slots[i := slots[i].(reserved := slots[i].reserved - toUnlock)];
          remaining := remaining - toUnlock;
        } else {
          assert slots[i := slots[i].(reserved := slots[i].reserved - 0)] == slots;
        }
        i := i + 1;
        if remaining == 0 {
          break;
        }
      }
      UnlockAtStep(slots, i, r, remaining);
    }

    /** The corruption audit accepts a container exactly when the invariant holds. */
    method ValidateInvariants() returns (result: Result<(), GameError>)
      ensures result.Ok? <==> Sound(View())
    {
      if |slots| > maxSlots {
        return Err(CorruptedState);
      }
      var volume := CurrentVolumeMl();
      if volume > maxVolumeLiters * 1000 + 1 {
        return Err(CorruptedState);
      }
      for i := 0 to |slots|
        invariant forall j :: 0 <= j < i ==> slots[j].reserved <= slots[j].quantity
      {
        if slots[i].reserved > slots[i].quantity {
          return Err(CorruptedState);
        }
      }
      var slotReserved := SlotReservedByResource();
      var mapReserved := MapReservedByResource();

      var todo := slotReserved.Keys;
      while todo != {}
        invariant todo <= slotReserved.Keys
        invariant forall r :: r in slotReserved && r !in todo ==> slotReserved[r] == Pledged(reservations, r)
      {
        var r :| r in todo;
        var pledged := if r in mapReserved then mapReserved[r] else 0;
        if slotReserved[r] != pledged {
          assert Sum(Locked(r), slots) != Pledged(reservations, r);
          return Err(CorruptedState);
        }
        todo := todo - {r};
      }
      todo := mapReserved.Keys;
      while todo != {}
        invariant todo <= mapReserved.Keys
        invariant forall r :: r in mapReserved && r !in todo ==> Sum(Locked(r), slots) == Pledged(reservations, r)
      {
        var r :| r in todo;
        if Sum(Locked(r), slots) != mapReserved[r] {
          return Err(CorruptedState);
        }
        todo := todo - {r};
      }
      return Ok(());
    }

    method SlotReservedByResource() returns (m: map<ResourceId, nat>)
      ensures forall r: ResourceId :: (if r in m then m[r] else 0) == Sum(Locked(r), slots)
    {
      m := map[];
      for i := 0 to |slots|
        invariant forall r: ResourceId :: (if r in m then m[r] else 0) == Sum(Locked(r), slots[..i])
      {
        var s := slots[i];
        assert slots[..i + 1] == slots[..i] + [s];
        forall r: ResourceId ensures Sum(Locked(r), slots[..i + 1]) == Sum(Locked(r),
            slots[..i]) + Weigh(Locked(r), s) {
          SumSnoc(Locked(r), slots[..i], s);
        }
        m := m[s.resource := (if s.resource in m then m[s.resource] else 0) + s.reserved];
      }
      assert slots[..|slots|] == slots;
    }

    method MapReservedByResource() returns (m: map<ResourceId, nat>)
      ensures forall r: ResourceId :: (if r in m then m[r] else 0) == Pledged(reservations, r)
    {
      m := map[];
      var rest := reservations;
      while rest != map[]
        invariant forall r: ResourceId ::
                    (if r in m then m[r] else 0) + Pledged(rest, r) == Pledged(reservations, r)
        decreases |rest|
      {
        var id :| id in rest;
        var res := rest[id];
        forall r: ResourceId ensures Pledged(rest, r) == Pledge(res, r) + Pledged(rest - {id}, r) {
          PledgedRemove(rest, id, r);
        }
        m := m[res.resource := (if res.resource in m then m[res.resource] else 0) + res.amount];
        rest := rest - {id};
      }
    }
  }
}
