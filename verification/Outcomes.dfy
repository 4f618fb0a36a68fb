/** When each inventory call succeeds, which error it gives otherwise, and what it leaves behind. */
module Outcomes {
  import opened Words
  import opened Wrappers
  import opened Resources
  import opened Containers
  import opened ContainerLaws
  import opened Acceptance
  import opened Transactions
  import opened TransactionLaws

  // ---------------------------------------------------------------- balances, counted slot by slot

  /** All units of `r`. */
  ghost function Held(slots: seq<Slot>, r: ResourceId): nat {
    if slots == [] then 0
    else
      var last := slots[|slots| - 1];
      Held(slots[..|slots| - 1], r) + if last.resource == r then last.quantity else 0
  }

  /** Units of `r` that no reservation has locked. */
  ghost function Free(slots: seq<Slot>, r: ResourceId): nat {
    if slots == [] then 0
    else
      var last := slots[|slots| - 1];
      Free(slots[..|slots| - 1], r) +
      if last.resource == r && last.reserved < last.quantity then last.quantity - last.reserved else 0
  }

  /** Units of `r` that reservations have locked. */
  ghost function Taken(slots: seq<Slot>, r: ResourceId): nat {
    if slots == [] then 0
    else
      var last := slots[|slots| - 1];
      Taken(slots[..|slots| - 1], r) + if last.resource == r then last.reserved else 0
  }

  /** Millilitres of everything; what is not catalogued has no volume. */
  ghost function Millilitres(slots: seq<Slot>): nat {
    if slots == [] then 0
    else
      var last := slots[|slots| - 1];
      Millilitres(slots[..|slots| - 1]) +
      if Lookup(last.resource).Some? then last.quantity * Lookup(last.resource).value.unitVolumeMl else 0
  }

  lemma {:induction false} Balances(slots: seq<Slot>, r: ResourceId)
    ensures Held(slots, r) == Sum(Quantity(r), slots)
    ensures Free(slots, r) == Sum(Unreserved(r), slots)
    ensures Taken(slots, r) == Sum(Locked(r), slots)
  {
    if slots == [] {
    } else {
      var init, last := slots[..|slots| - 1], slots[|slots| - 1];
      Balances(init, r);
      assert slots == init + [last];
      SumSnoc(Quantity(r), init, last);
      SumSnoc(Unreserved(r), init, last);
      SumSnoc(Locked(r), init, last);
    }
  }

  lemma {:induction false} Volumes(slots: seq<Slot>)
    ensures Millilitres(slots) == Sum(VolumeMl, slots)
  {
    if slots == [] {
    } else {
      var init, last := slots[..|slots| - 1], slots[|slots| - 1];
      Volumes(init);
      assert slots == init + [last];
      SumSnoc(VolumeMl, init, last);
    }
  }

  // ---------------------------------------------------------------- acceptance

  /** Who may touch a container: server authority, anyone while it is unowned or missing, and its owner. */
  ghost predicate MayTouch(store: Store, actor: FactionId, e: EntityId) {
    e in store ==> actor == 0 || store[e].ownerFaction == 0 || store[e].ownerFaction == actor
  }

  /**
   A container takes `n` units exactly when there are none, or the resource is catalogued, a silo is
   offered a raw mineral only, the volume stays within the limit and one millilitre, and the units
   can be laid out in stacks within the slot limit.
   */
  lemma AcceptsIff(c: Container, r: ResourceId, n: nat)
    requires |c.slots| <= c.maxSlots
    ensures CanAccept(c, r, n) <==>
            || n == 0
            || (&& Lookup(r).Some?
                && (c.kind == Silo ==> Lookup(r).value.category == RawMineral)
                && Millilitres(c.slots) + n * Lookup(r).value.unitVolumeMl <= c.maxVolumeLiters * 1000 + 1
                && exists adds ::
                     Packing(c.slots, c.maxSlots, r, Lookup(r).value.stackLimit, adds) && Acceptance.Total(adds) == n)
  {
    hide Sum, FitsSlots, Packing;
    Volumes(c.slots);
    if Lookup(r).Some? {
      SlotTestIsExact(c.slots, c.maxSlots, r, Lookup(r).value.stackLimit, n);
    }
  }

  /** The units of a resource that one slot holds; 0 for what is not catalogued. */
  function StackOf(r: ResourceId): nat {
    if r == 32 then 5000
    else if r == 3 then 2000
    else if r in {1, 2, 4} then 1000
    else if r in {10, 11, 12, 13, 20, 30} then 500
    else if r in {14, 31} then 250
    else if r == 33 then 50
    else 0
  }

  /** The millilitres of a unit. */
  function MillilitresOf(r: ResourceId): nat {
    if r == 32 then 500
    else if r == 20 then 1000
    else if r in {11, 30, 31} then 2000
    else if r in {10, 12, 14} then 3000
    else if r in {2, 13} then 4000
    else if r in {1, 4} then 5000
    else if r == 3 then 6000
    else if r == 33 then 10000
    else 0
  }

  lemma Catalogued(r: ResourceId)
    ensures Lookup(r).Some? <==> StackOf(r) > 0
    ensures Lookup(r).Some? ==> Lookup(r).value.stackLimit == StackOf(r)
    ensures Lookup(r).Some? ==> Lookup(r).value.unitVolumeMl == MillilitresOf(r)
    ensures Lookup(r).Some? ==> (Lookup(r).value.category == RawMineral <==> r <= 4)
  {
  }

  /** An empty container takes what fits its slots stack by stack and its volume; a silo takes minerals 1 to 4 only. */
  lemma EmptyAccepts(c: Container, r: ResourceId, n: nat)
    requires c.slots == [] && n > 0
    ensures CanAccept(c, r, n) <==>
            && StackOf(r) > 0 && (c.kind == Silo ==> r <= 4)
            && n * MillilitresOf(r) <= c.maxVolumeLiters * 1000 + 1
            && n <= c.maxSlots * StackOf(r)
  {
    hide Lookup, StackOf, MillilitresOf;
    Catalogued(r);
    if Lookup(r).Some? {
      SlotTestIsCapacity(c.slots, c.maxSlots, r, Lookup(r).value.stackLimit, n);
    }
  }

  /** The free room in the stacks of `r`. */
  ghost function Room(slots: seq<Slot>, r: ResourceId): nat {
    if slots == [] then 0
    else
      var last := slots[|slots| - 1];
      Room(slots[..|slots| - 1], r) +
      if last.resource == r && last.quantity < StackOf(r) then StackOf(r) - last.quantity else 0
  }

  lemma {:induction false} RoomIs(slots: seq<Slot>, r: ResourceId)
    ensures Room(slots, r) == Sum(Headroom(r, StackOf(r)), slots)
  {
    hide StackOf;
    if slots == [] {
    } else {
      var init, last := slots[..|slots| - 1], slots[|slots| - 1];
      RoomIs(init, r);
      assert slots == init + [last];
      SumSnoc(Headroom(r, StackOf(r)), init, last);
    }
  }

  /** A container with more slots than its limit takes what fits its existing stacks, and no more. */
  lemma OverfullAccepts(c: Container, r: ResourceId, n: nat)
    requires |c.slots| > c.maxSlots && n > 0
    ensures CanAccept(c, r, n) <==>
            && StackOf(r) > 0 && (c.kind == Silo ==> r <= 4)
            && Millilitres(c.slots) + n * MillilitresOf(r) <= c.maxVolumeLiters * 1000 + 1
            && n <= Room(c.slots, r)
  {
    hide Lookup, StackOf, MillilitresOf, Sum, Room, Millilitres;
    Catalogued(r);
    Volumes(c.slots);
    RoomIs(c.slots, r);
    NothingBeyond(|c.slots| - c.maxSlots, StackOf(r));
  }

  lemma NothingBeyond(excess: nat, stack: nat)
    requires excess > 0
    ensures (0 - excess) * stack <= 0
  {
  }

  /** As much of every resource is locked as the live reservations promise. */
  ghost predicate Backed(c: Container) {
    forall r: ResourceId :: Taken(c.slots, r) == Pledged(c.reservations, r)
  }

  lemma BackedIff(c: Container)
    ensures Backed(c) <==> LedgerAgrees(c)
  {
    hide Sum, Taken, Pledged;
    forall r: ResourceId
      ensures Taken(c.slots, r) == Pledged(c.reservations, r) <==> Sum(Locked(r), c.slots) == Pledged(c.reservations, r)
    {
      Balances(c.slots, r);
    }
  }

  /**
   What the auditor asks for, counted slot by slot: slots and volume within the limits, no slot
   locked beyond what it holds, and every reservation backed.
   */
  lemma SoundIff(c: Container)
    ensures Sound(c) <==>
            && |c.slots| <= c.maxSlots
            && Millilitres(c.slots) <= c.maxVolumeLiters * 1000 + 1
            && (forall s :: s in c.slots ==> s.reserved <= s.quantity)
            && Backed(c)
  {
    hide Sum, Millilitres, Backed, LedgerAgrees;
    Volumes(c.slots);
    BackedIff(c);
    assert (forall s :: s in c.slots ==> s.reserved <= s.quantity) <==> SlotsSound(c.slots);
  }

  // ---------------------------------------------------------------- transfer

  /** Every verdict of a transfer, each with its exact case. */
  lemma TransferVerdict(store: Store, actor: FactionId, tick: SimTick, source: EntityId, dest: EntityId, r: ResourceId,
                        n: u32)
    ensures var f := TransferStep(store, actor, tick, source, dest, r, n);
      var both := source in store && dest in store;
      var allowed := both && MayTouch(store, actor, source) && MayTouch(store, actor, dest);
      var moving := n > 0 && source != dest;
      && (f.result.Ok? <==> !moving || (allowed && n <= Free(store[source].slots, r) && CanAccept(store[dest], r, n)))
      && (f.result == Err(ContainerNotFound(source)) <==> moving && source !in store)
      && (f.result == Err(ContainerNotFound(dest)) <==> moving && source in store && dest !in store)
      && (f.result == Err(PermissionDenied) <==> moving && both && !allowed)
      && (f.result == Err(InsufficientUnreservedBalance(if both then Free(store[source].slots, r) else 0, n)) <==>
            moving && allowed && Free(store[source].slots, r) < n)
      && (f.result == Err(InventoryFull(if both then store[dest].maxSlots else 0,
                                        if both then store[dest].maxVolumeLiters else 0)) <==>
            moving && allowed && n <= Free(store[source].slots, r) && !CanAccept(store[dest], r, n))
  {
    hide CanAccept, AddTo, RemoveFrom, Sum;
    if source in store {
      Balances(store[source].slots, r);
    }
  }

  /** A transfer that succeeds moves exactly the units asked for, touches nothing else and writes one entry. */
  lemma TransferMoves(store: Store, actor: FactionId, tick: SimTick, source: EntityId, dest: EntityId, r: ResourceId,
                      n: u32, q: ResourceId)
    requires TransferStep(store, actor, tick, source, dest, r, n).result.Ok? && n > 0 && source != dest
    ensures var f := TransferStep(store, actor, tick, source, dest, r, n);
      && source in store && dest in store
      && f.entries == [Entry(tick, ResourceTransferred(source, dest, r, n))]
      && f.store.Keys == store.Keys
      && (forall e :: e in store && e != source && e != dest ==> f.store[e] == store[e])
      && Held(f.store[source].slots, q) == Held(store[source].slots, q) - (if q == r then n else 0)
      && Held(f.store[dest].slots, q) == Held(store[dest].slots, q) + (if q == r then n else 0)
      && Taken(f.store[source].slots, q) == Taken(store[source].slots, q)
      && Taken(f.store[dest].slots, q) == Taken(store[dest].slots, q)
      && f.store[source] == store[source].(slots := f.store[source].slots)
      && f.store[dest] == store[dest].(slots := f.store[dest].slots)
  {
    hide CanAccept, AddTo, RemoveFrom, Sum, Held, Taken;
    var f := TransferStep(store, actor, tick, source, dest, r, n);
    RemoveLaw(store[source], r, n, q);
    AddLaw(store[dest], r, n, q);
    Balances(store[source].slots, q);
    Balances(store[dest].slots, q);
    Balances(f.store[source].slots, q);
    Balances(f.store[dest].slots, q);
  }

  /** A transfer that moves nothing, asked to or refused, leaves the store and the journal alone. */
  lemma TransferIdle(store: Store, actor: FactionId, tick: SimTick, source: EntityId, dest: EntityId, r: ResourceId,
                     n: u32)
    requires n == 0 || source == dest || TransferStep(store, actor, tick, source, dest, r, n).result.Err?
    ensures var f := TransferStep(store, actor, tick, source, dest, r, n); f.store == store && f.entries == []
  {
    hide CanAccept, AddTo, RemoveFrom, Sum;
  }

  // ---------------------------------------------------------------- reservations

  /** Every verdict of a reservation, each with its exact case. */
  lemma ReserveVerdict(store: Store, actor: FactionId, tick: SimTick, source: EntityId, id: ReservationId,
                       r: ResourceId, n: u32, target: Option<EntityId>)
    ensures var f := ReserveStep(store, actor, tick, source, id, r, n, target);
      var may := MayTouch(store, actor, source) && (target.Some? ==> MayTouch(store, actor, target.value));
      var live := source in store && id in store[source].reservations;
      var free := if source in store then Free(store[source].slots, r) else 0;
      && (f.result.Ok? <==> may && source in store && id != 0 && (n == 0 || (!live && n <= free)))
      && (f.result == Err(PermissionDenied) <==> !may)
      && (f.result == Err(ContainerNotFound(source)) <==> may && source !in store)
      && (f.result == Err(InvalidId) <==> may && source in store && id == 0)
      && (f.result == Err(ReservationAlreadyExists(id)) <==> may && id != 0 && n > 0 && live)
      && (f.result == Err(InsufficientUnreservedBalance(free, n)) <==>
            may && source in store && id != 0 && n > 0 && !live && free < n)
  {
    hide Lock, Sum;
    if source in store {
      Balances(store[source].slots, r);
    }
  }

  /** A reservation that succeeds locks exactly the units, stores the record, moves nothing and writes one entry. */
  lemma ReserveStores(store: Store, actor: FactionId, tick: SimTick, source: EntityId, id: ReservationId, r: ResourceId,
                      n: u32, target: Option<EntityId>, q: ResourceId)
    requires ReserveStep(store, actor, tick, source, id, r, n, target).result.Ok?
    ensures var f := ReserveStep(store, actor, tick, source, id, r, n, target);
      && source in store && f.store == store[source := f.store[source]]
      && f.entries == [Entry(tick, ResourceReserved(source, r, n, id))]
      && f.store[source].reservations ==
         (if n == 0 then store[source].reservations
          else store[source].reservations[id := Reservation(r, n, tick, store[source].owner, target)])
      && f.store[source] == store[source].(slots := f.store[source].slots, reservations := f.store[source].reservations)
      && Held(f.store[source].slots, q) == Held(store[source].slots, q)
      && Taken(f.store[source].slots, q) == Taken(store[source].slots, q) + (if q == r then n else 0)
  {
    hide Lock, Sum, Held, Taken;
    var f := ReserveStep(store, actor, tick, source, id, r, n, target);
    ReserveLaw(store[source], id, r, n, tick, target, q);
    Balances(store[source].slots, q);
    Balances(f.store[source].slots, q);
  }

  /** A failed call of any kind leaves sound containers and the journal alone. */
  lemma FailureIsIdle(store: Store, call: Call)
    requires AllSound(store) && Step(store, call).result.Err?
    ensures Step(store, call).store == store && Step(store, call).entries == []
  {
    hide Step;
    StepLaw(store, call);
  }

  /** Every verdict of a commit between sound containers, each with its exact case. */
  lemma CommitVerdict(store: Store, actor: FactionId, tick: SimTick, id: ReservationId, source: EntityId,
                      dest: EntityId)
    requires AllSound(store)
    ensures var f := CommitStep(store, actor, tick, id, source, dest);
      var both := source in store && dest in store;
      var allowed := both && MayTouch(store, actor, source) && MayTouch(store, actor, dest);
      var live := both && id in store[source].reservations;
      var room := live && CanAccept(store[dest], store[source].reservations[id].resource,
                                    store[source].reservations[id].amount);
      && (f.result.Ok? <==> allowed && live && room)
      && (f.result == Err(ContainerNotFound(source)) <==> source !in store)
      && (f.result == Err(ContainerNotFound(dest)) <==> dest !in store && (source in store || source == dest))
      && (f.result == Err(PermissionDenied) <==> both && !allowed)
      && (f.result == Err(ReservationNotFound(id)) <==> allowed && !live)
      && (f.result == Err(InventoryFull(if both then store[dest].maxSlots else 0,
                                        if both then store[dest].maxVolumeLiters else 0)) <==>
            allowed && live && !room)
  {
    hide CanAccept, Deliver, Sum;
    if source in store && dest in store && id in store[source].reservations {
      var res := store[source].reservations[id];
      if CanAccept(store[dest], res.resource, res.amount) {
        DeliverLaw(store, tick, id, source, dest);
      }
    }
  }

  /** A commit that succeeds ends the reservation and carries exactly its units over, locks and all. */
  lemma CommitCarries(store: Store, actor: FactionId, tick: SimTick, id: ReservationId, source: EntityId,
                      dest: EntityId, q: ResourceId)
    requires AllSound(store) && CommitStep(store, actor, tick, id, source, dest).result.Ok? && source != dest
    ensures var f := CommitStep(store, actor, tick, id, source, dest);
      && source in store && dest in store && id in store[source].reservations
      && var res := store[source].reservations[id];
      && f.entries == [Entry(tick, ResourceCommitted(source, dest, res.resource, res.amount, id))]
      && f.store == store[source := f.store[source]][dest := f.store[dest]]
      && f.store[source].reservations == store[source].reservations - {id}
      && f.store[dest].reservations == store[dest].reservations
      && Held(f.store[source].slots, q) == Held(store[source].slots, q) - (if q == res.resource then res.amount else 0)
      && Taken(f.store[source].slots, q) ==
           Taken(store[source].slots, q) - (if q == res.resource then res.amount else 0)
      && Held(f.store[dest].slots, q) == Held(store[dest].slots, q) + (if q == res.resource then res.amount else 0)
      && Taken(f.store[dest].slots, q) == Taken(store[dest].slots, q)
  {
    hide CanAccept, AddTo, CommitIn, Sum, Held, Taken;
    var f, res := CommitStep(store, actor, tick, id, source, dest), store[source].reservations[id];
    RollbackUnreachable(store, id, source, dest);
    CommitLaw(store[source], id, q);
    AddLaw(store[dest], res.resource, res.amount, q);
    Balances(store[source].slots, q);
    Balances(store[dest].slots, q);
    Balances(f.store[source].slots, q);
    Balances(f.store[dest].slots, q);
  }

  /** Every verdict of a cancellation of a sound container's reservation, each with its exact case. */
  lemma CancelVerdict(store: Store, actor: FactionId, tick: SimTick, id: ReservationId, source: EntityId)
    requires AllSound(store)
    ensures var f := CancelStep(store, actor, tick, id, source);
      && (f.result.Ok? <==>
            source in store && MayTouch(store, actor, source) && id in store[source].reservations)
      && (f.result == Err(PermissionDenied) <==> !MayTouch(store, actor, source))
      && (f.result == Err(ContainerNotFound(source)) <==> source !in store)
      && (f.result == Err(ReservationNotFound(id)) <==>
            source in store && MayTouch(store, actor, source) && id !in store[source].reservations)
  {
    hide ReleaseIn;
    if source in store {
      ReleaseLaw(store[source], id, 0);
    }
  }

  /** A cancellation that succeeds unlocks exactly the reservation's units and moves nothing. */
  lemma CancelUnlocks(store: Store, actor: FactionId, tick: SimTick, id: ReservationId, source: EntityId, q: ResourceId)
    requires AllSound(store) && CancelStep(store, actor, tick, id, source).result.Ok?
    ensures var f := CancelStep(store, actor, tick, id, source);
      && source in store && id in store[source].reservations
      && var res := store[source].reservations[id];
      && f.entries == [Entry(tick, ResourceReleased(source, res.resource, res.amount, id))]
      && f.store == store[source := f.store[source]]
      && f.store[source].reservations == store[source].reservations - {id}
      && Held(f.store[source].slots, q) == Held(store[source].slots, q)
      && Taken(f.store[source].slots, q) ==
           Taken(store[source].slots, q) - (if q == res.resource then res.amount else 0)
  {
    hide ReleaseIn, Sum, Held, Taken;
    var f := CancelStep(store, actor, tick, id, source);
    ReleaseLaw(store[source], id, q);
    Balances(store[source].slots, q);
    Balances(f.store[source].slots, q);
  }
}
