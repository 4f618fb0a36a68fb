/** The container registry and journal: the transactional calls as the engine performs them. */
module Registry {
  import opened Words
  import opened Wrappers
  import opened Resources
  import opened Containers
  import opened ContainerLaws
  import opened Inventories
  import opened Transactions
  import opened TransactionLaws

  class EventJournal {
    var events: seq<Entry>
    var nextId: nat

    constructor ()
      ensures events == [] && nextId == 1
    {
      events, nextId := [], 1;
    }

    method Record(tick: SimTick, event: Event) returns (id: nat)
      modifies this
      ensures events == old(events) + [Entry(tick, event)]
      ensures id == old(nextId) && nextId == id + 1
    {
      id := nextId;
      nextId := nextId + 1;
      events := events + [Entry(tick, event)];
    }
  }

  /** Both halves of a transfer go through. */
  ghost predicate MoveSucceeds(store: Store, source: EntityId, dest: EntityId, r: ResourceId, amount: u32)
    requires source in store && dest in store
  {
    RemoveFrom(store[source], r, amount).result.Ok? && AddTo(store[dest], r, amount).result.Ok?
  }

  lemma CommitYields(c: Container, id: ReservationId)
    requires id in c.reservations
    ensures CommitIn(c, id).result.Ok? ==>
              CommitIn(c, id).result.value == (c.reservations[id].resource, c.reservations[id].amount)
  {
  }

  class InventoryRegistry {
    var inventories: map<EntityId, Inventory>
    var nextReservationId: nat

    /** The registry owns its containers, so no two entities share one. */
    ghost predicate Valid()
      reads this
    {
      forall a, b :: a in inventories && b in inventories && a != b ==> inventories[a] != inventories[b]
    }

    /** All containers as values. */
    ghost function Store(): Store
      reads this, inventories.Values
    {
      map e | e in inventories :: inventories[e].View()
    }

    constructor ()
      ensures Valid() && Store() == map[] && nextReservationId == 1
    {
      inventories, nextReservationId := map[], 1;
    }

    method Register(inventory: Inventory)
      requires Valid()
      requires inventory !in inventories.Values
      modifies this
      ensures Valid()
      ensures Store() == old(Store())[inventory.owner := inventory.View()]
      ensures nextReservationId == old(nextReservationId)
    {
      inventories := inventories[inventory.owner := inventory];
    }

    method NextReservationId() returns (id: ReservationId)
      modifies this`nextReservationId
      ensures id == old(nextReservationId) && nextReservationId == id + 1
    {
      id := nextReservationId;
      nextReservationId := nextReservationId + 1;
    }

    method Authorize(actor: FactionId, e: EntityId) returns (result: Result<(), GameError>)
      requires Valid()
      ensures result == if Authorized(Store(), actor, e) then Ok(()) else Err(PermissionDenied)
    {
      if e !in inventories {
        return Ok(());
      }
      var inv := inventories[e];
      if actor == NULL_ID || inv.ownerFaction == NULL_ID || inv.ownerFaction == actor {
        return Ok(());
      }
      return Err(PermissionDenied);
    }

    /** Replacing one container's content changes that entry of the store and no other. */
    twostate lemma OneChanged(e: EntityId)
      requires old(Valid()) && inventories == old(inventories) && e in inventories
      requires forall d :: d in inventories && inventories[d] != inventories[e] ==>
                 inventories[d].View() == old(inventories[d].View())
      ensures Store() == old(Store())[e := inventories[e].View()]
    {
    }

    // `get_mut` on one container followed by one of its operations.

    method AddAt(e: EntityId, r: ResourceId, amount: u32) returns (result: Result<(), GameError>)
      requires Valid() && e in inventories
      modifies inventories[e]
      ensures Store() == old(Store())[e := AddTo(old(Store())[e], r, amount).after]
      ensures result == AddTo(old(Store())[e], r, amount).result
    {
      result := inventories[e].Add(r, amount);
      OneChanged(e);
    }

    method RemoveAt(e: EntityId, r: ResourceId, amount: u32) returns (result: Result<(), GameError>)
      requires Valid() && e in inventories
      modifies inventories[e]
      ensures Store() == old(Store())[e := RemoveFrom(old(Store())[e], r, amount).after]
      ensures result == RemoveFrom(old(Store())[e], r, amount).result
    {
      result := inventories[e].Remove(r, amount);
      OneChanged(e);
    }

    method ReserveAt(e: EntityId, id: ReservationId, r: ResourceId, amount: u32, tick: SimTick,
                     target: Option<EntityId>) returns (result: Result<(), GameError>)
      requires Valid() && e in inventories
      modifies inventories[e]
      ensures Store() == old(Store())[e := ReserveIn(old(Store())[e], id, r, amount, tick, target).after]
      ensures result == ReserveIn(old(Store())[e], id, r, amount, tick, target).result
    {
      result := inventories[e].Reserve(id, r, amount, tick, target);
      OneChanged(e);
    }

    method CommitAt(e: EntityId, id: ReservationId) returns (result: Result<(ResourceId, u32), GameError>)
      requires Valid() && e in inventories
      modifies inventories[e]
      ensures Store() == old(Store())[e := CommitIn(old(Store())[e], id).after]
      ensures result == CommitIn(old(Store())[e], id).result
    {
      result := inventories[e].CommitReservation(id);
      OneChanged(e);
    }

    method ReleaseAt(e: EntityId, id: ReservationId) returns (result: Result<(ResourceId, u32), GameError>)
      requires Valid() && e in inventories
      modifies inventories[e]
      ensures Store() == old(Store())[e := ReleaseIn(old(Store())[e], id).after]
      ensures result == ReleaseIn(old(Store())[e], id).result
    {
      result := inventories[e].ReleaseReservation(id);
      OneChanged(e);
    }

    method AtomicTransfer(actor: FactionId, tick: SimTick, source: EntityId, dest: EntityId, r: ResourceId,
                          amount: u32, journal: EventJournal) returns (result: Result<(), GameError>)
      requires Valid()
      modifies inventories.Values, journal
      ensures Valid()
      ensures var f := TransferStep(old(Store()), actor, tick, source, dest, r, amount);
        Store() == f.store && result == f.result && journal.events == old(journal.events) + f.entries
    {
      hide AddTo, RemoveFrom, Containers.CanAccept, Sum;
      if amount == 0 {
        return Ok(());
      }
      if source == dest {
        return Ok(());
      }
      if source !in inventories {
        return Err(ContainerNotFound(source));
      }
      if dest !in inventories {
        return Err(ContainerNotFound(dest));
      }
      var _ :- Authorize(actor, source);
      var _ :- Authorize(actor, dest);
      var available := Sum(Unreserved(r), inventories[source].slots);
      if available < amount {
        return Err(InsufficientUnreservedBalance(available, amount));
      }
      var accepts := inventories[dest].CanAccept(r, amount);
      if !accepts {
        return Err(InventoryFull(inventories[dest].maxSlots, inventories[dest].maxVolumeLiters));
      }
      result := MoveUnits(tick, source, dest, r, amount, journal);
    }

    /** The second half of `AtomicTransfer`, after every check has passed. */
    method MoveUnits(tick: SimTick, source: EntityId, dest: EntityId, r: ResourceId, amount: u32,
                     journal: EventJournal) returns (result: Result<(), GameError>)
      requires Valid() && source in inventories && dest in inventories && source != dest
      requires amount <= Sum(Unreserved(r), Store()[source].slots)
      requires Containers.CanAccept(Store()[dest], r, amount)
      modifies inventories.Values, journal
      ensures Valid()
      ensures var f := Move(old(Store()), tick, source, dest, r, amount);
        Store() == f.store && result == f.result && journal.events == old(journal.events) + f.entries
    {
      assert MoveSucceeds(Store(), source, dest, r, amount);
      hide AddTo, RemoveFrom, Containers.CanAccept, Sum;
      var removed := RemoveAt(source, r, amount);
      var added := AddAt(dest, r, amount);
      if added.Err? {
        // The rollback branch: the dry run has ruled it out.
        assert false;
      }
      var _ := journal.Record(tick, ResourceTransferred(source, dest, r, amount));
      return Ok(());
    }

    method TwoPhaseReserve(actor: FactionId, tick: SimTick, source: EntityId, id: ReservationId, r: ResourceId,
                           amount: u32, target: Option<EntityId>, journal: EventJournal)
      returns (result: Result<(), GameError>)
      requires Valid()
      modifies inventories.Values, journal
      ensures Valid()
      ensures var f := ReserveStep(old(Store()), actor, tick, source, id, r, amount, target);
        Store() == f.store && result == f.result && journal.events == old(journal.events) + f.entries
    {
      hide ReserveIn, Sum;
      var _ :- Authorize(actor, source);
      if target.Some? {
        var _ :- Authorize(actor, target.value);
      }
      if source !in inventories {
        return Err(ContainerNotFound(source));
      }
      result := LockAndRecord(tick, source, id, r, amount, target, journal);
    }

    /** The second half of `TwoPhaseReserve`, after every check has passed. */
    method LockAndRecord(tick: SimTick, source: EntityId, id: ReservationId, r: ResourceId, amount: u32,
                         target: Option<EntityId>, journal: EventJournal) returns (result: Result<(), GameError>)
      requires Valid() && source in inventories
      modifies inventories.Values, journal
      ensures Valid()
      ensures var o := ReserveIn(old(Store())[source], id, r, amount, tick, target);
        && Store() == old(Store())[source := o.after]
        && result == (if o.result.Err? then Err(o.result.error) else Ok(()))
        && journal.events == old(journal.events) +
           if o.result.Err? then [] else [Entry(tick, ResourceReserved(source, r, amount, id))]
    {
      hide ReserveIn, Sum;
      result := ReserveAt(source, id, r, amount, tick, target);
      if result.Err? {
        return;
      }
      var _ := journal.Record(tick, ResourceReserved(source, r, amount, id));
      return Ok(());
    }

    method TwoPhaseCommit(actor: FactionId, tick: SimTick, id: ReservationId, source: EntityId, dest: EntityId,
                          journal: EventJournal) returns (result: Result<(), GameError>)
      requires Valid()
      modifies inventories.Values, journal
      ensures Valid()
      ensures var f := CommitStep(old(Store()), actor, tick, id, source, dest);
        Store() == f.store && result == f.result && journal.events == old(journal.events) + f.entries
    {
      hide Deliver, Containers.CanAccept, Sum;
      if source !in inventories {
        return Err(ContainerNotFound(source));
      }
      if dest !in inventories {
        return Err(ContainerNotFound(dest));
      }
      var _ :- Authorize(actor, source);
      var _ :- Authorize(actor, dest);
      if id !in inventories[source].reservations {
        return Err(ReservationNotFound(id));
      }
      var res := inventories[source].reservations[id];
      var accepts := inventories[dest].CanAccept(res.resource, res.amount);
      if !accepts {
        return Err(InventoryFull(inventories[dest].maxSlots, inventories[dest].maxVolumeLiters));
      }
      result := DebitAndCredit(tick, id, source, dest, journal);
    }

    /** The destination takes the units, or the source gets them back. */
    method CreditOrRestore(source: EntityId, dest: EntityId, r: ResourceId, amount: u32)
      returns (result: Result<(), GameError>)
      requires Valid() && source in inventories && dest in inventories
      modifies inventories.Values
      ensures Valid()
      ensures var added := AddTo(old(Store())[dest], r, amount);
        var credited := old(Store())[dest := added.after];
        && result == added.result
        && Store() == if added.result.Ok? then credited
                      else credited[source := AddTo(credited[source], r, amount).after]
    {
      hide AddTo, Sum;
      result := AddAt(dest, r, amount);
      if result.Err? {
        var _ := AddAt(source, r, amount);
      }
    }

    /** The credit of a committed reservation, recorded when it succeeds. */
    method CreditAndRecord(tick: SimTick, id: ReservationId, source: EntityId, dest: EntityId, r: ResourceId,
                           amount: u32, journal: EventJournal) returns (result: Result<(), GameError>)
      requires Valid() && source in inventories && dest in inventories
      modifies inventories.Values, journal
      ensures Valid()
      ensures var f := Credit(old(Store()), tick, id, source, dest, r, amount);
        Store() == f.store && result == f.result && journal.events == old(journal.events) + f.entries
    {
      hide AddTo, Sum;
      var added := CreditOrRestore(source, dest, r, amount);
      if added.Err? {
        return Err(added.error);
      }
      var _ := journal.Record(tick, ResourceCommitted(source, dest, r, amount, id));
      return Ok(());
    }

    /** The second half of `TwoPhaseCommit`, after every check has passed. */
    method DebitAndCredit(tick: SimTick, id: ReservationId, source: EntityId, dest: EntityId, journal: EventJournal)
      returns (result: Result<(), GameError>)
      requires Valid() && source in inventories && dest in inventories
      requires id in inventories[source].reservations
      modifies inventories.Values, journal
      ensures Valid()
      ensures var f := Deliver(old(Store()), tick, id, source, dest);
        Store() == f.store && result == f.result && journal.events == old(journal.events) + f.entries
    {
      CommitYields(Store()[source], id);
      hide Credit, CommitIn, Sum;
      var committed := CommitAt(source, id);
      if committed.Err? {
        return Err(committed.error);
      }
      var (r, amount) := committed.value;
      result := CreditAndRecord(tick, id, source, dest, r, amount, journal);
    }

    method TwoPhaseCancel(actor: FactionId, tick: SimTick, id: ReservationId, source: EntityId, journal: EventJournal)
      returns (result: Result<(), GameError>)
      requires Valid()
      modifies inventories.Values, journal
      ensures Valid()
      ensures var f := CancelStep(old(Store()), actor, tick, id, source);
        Store() == f.store && result == f.result && journal.events == old(journal.events) + f.entries
    {
      hide ReleaseIn, Sum;
      var _ :- Authorize(actor, source);
      if source !in inventories {
        return Err(ContainerNotFound(source));
      }
      var released := ReleaseAt(source, id);
      if released.Err? {
        return Err(released.error);
      }
      var (r, amount) := released.value;
      var _ := journal.Record(tick, ResourceReleased(source, r, amount, id));
      return Ok(());
    }
  }
}
