/** The economy arms of the command dispatcher: who may reach the transactional calls at all. */
module EconomyDispatch {
  import opened Words
  import opened Wrappers
  import opened Resources
  import opened Containers
  import opened Transactions
  import opened TransactionLaws
  import opened Registry

  /** A null owner or an unknown entity is open to all; a null actor is server authority. */
  predicate EntityOpenTo(factions: map<EntityId, FactionId>, actor: FactionId, e: EntityId) {
    actor == NULL_ID || e !in factions || factions[e] == NULL_ID || factions[e] == actor
  }

  /** Whether the dispatcher hands the call on. The null faction never arrives over the network. */
  predicate Dispatched(factions: map<EntityId, FactionId>, call: Call) {
    && call.actor != NULL_ID
    && EntityOpenTo(factions, call.actor, call.op.source)
    && (call.op.Transfer? || call.op.Commit? ==> EntityOpenTo(factions, call.actor, call.op.dest))
  }

  /** A reservation made over the network never names a target. */
  function Untargeted(call: Call): Call {
    match call.op
    case Reserve(source, id, r, n, _) => call.(op := Reserve(source, id, r, n, None))
    case _ => call
  }

  function DispatchStep(store: Store, factions: map<EntityId, FactionId>, call: Call): Effect {
    if Dispatched(factions, call) then Step(store, Untargeted(call)) else Refused(store, PermissionDenied)
  }

  function DispatchRun(store: Store, factions: map<EntityId, FactionId>, calls: seq<Call>): Trace {
    if calls == [] then Trace(store, [])
    else
      var first := DispatchStep(store, factions, calls[0]);
      var rest := DispatchRun(first.store, factions, calls[1..]);
      Trace(rest.store, first.entries + rest.journal)
  }

  /** The calls of a command stream that reach the registry. */
  function Admitted(factions: map<EntityId, FactionId>, calls: seq<Call>): seq<Call> {
    if calls == [] then []
    else if Dispatched(factions, calls[0]) then [Untargeted(calls[0])] + Admitted(factions, calls[1..])
    else Admitted(factions, calls[1..])
  }

  /** What a command's actor may work on over the network: unregistered things, nobody's, and its own faction's. */
  predicate InReach(factions: map<EntityId, FactionId>, actor: FactionId, e: EntityId) {
    e in factions ==> factions[e] == 0 || factions[e] == actor
  }

  /**
   What one command does: it is refused to the null faction and to whoever cannot reach its source,
   or the destination of a transfer or a commit; otherwise its call is made, without a target.
   */
  lemma DispatchVerdict(store: Store, factions: map<EntityId, FactionId>, call: Call)
    ensures var actor, tick := call.actor, call.tick;
      DispatchStep(store, factions, call) ==
      match call.op
      case Transfer(source, dest, r, n) =>
        if actor != 0 && InReach(factions, actor, source) && InReach(factions, actor, dest)
        then TransferStep(store, actor, tick, source, dest, r, n)
        else Effect(store, [], Err(PermissionDenied))
      case Reserve(source, id, r, n, _) =>
        if actor != 0 && InReach(factions, actor, source)
        then ReserveStep(store, actor, tick, source, id, r, n, None)
        else Effect(store, [], Err(PermissionDenied))
      case Commit(id, source, dest) =>
        if actor != 0 && InReach(factions, actor, source) && InReach(factions, actor, dest)
        then CommitStep(store, actor, tick, id, source, dest)
        else Effect(store, [], Err(PermissionDenied))
      case Cancel(id, source) =>
        if actor != 0 && InReach(factions, actor, source)
        then CancelStep(store, actor, tick, id, source)
        else Effect(store, [], Err(PermissionDenied))
  {
    hide TransferStep, ReserveStep, CommitStep, CancelStep;
  }

  lemma RunCons(store: Store, call: Call, rest: seq<Call>)
    ensures Run(store, [call] + rest) ==
            var tail := Run(Step(store, call).store, rest);
            Trace(tail.store, Step(store, call).entries + tail.journal)
  {
    assert ([call] + rest)[0] == call && ([call] + rest)[1..] == rest;
  }

  /** A command stream is a run of its admitted calls: the refused ones leave no trace. */
  lemma {:induction false} StreamIsRun(store: Store, factions: map<EntityId, FactionId>, calls: seq<Call>)
    ensures DispatchRun(store, factions, calls) == Run(store, Admitted(factions, calls))
    decreases |calls|
  {
    hide Step, Dispatched, Untargeted;
    if calls == [] {
    } else {
      var rest := Admitted(factions, calls[1..]);
      if Dispatched(factions, calls[0]) {
        var call := Untargeted(calls[0]);
        StreamIsRun(Step(store, call).store, factions, calls[1..]);
        RunCons(store, call, rest);
      } else {
        var tail := DispatchRun(store, factions, calls[1..]);
        StreamIsRun(store, factions, calls[1..]);
        assert [] + tail.journal == tail.journal;
      }
    }
  }

  lemma {:induction false} AdmittedActors(factions: map<EntityId, FactionId>, calls: seq<Call>, owner: FactionId)
    requires forall i :: 0 <= i < |calls| ==> calls[i].actor != owner
    ensures forall i :: 0 <= i < |Admitted(factions, calls)| ==>
              Admitted(factions, calls)[i].actor != NULL_ID && Admitted(factions, calls)[i].actor != owner
  {
    if calls == [] {
    } else {
      AdmittedActors(factions, calls[1..], owner);
    }
  }

  /**
   Whatever economy commands sessions of other factions send, in any number and order, a faction's
   container keeps its slots and its reservations. The stream is of the four economy commands,
   under one entity ownership table.
   */
  lemma StreamIsolation(store: Store, factions: map<EntityId, FactionId>, calls: seq<Call>, e: EntityId)
    requires e in store
    requires store[e].ownerFaction != NULL_ID
    requires forall i :: 0 <= i < |calls| ==> calls[i].actor != store[e].ownerFaction
    ensures e in DispatchRun(store, factions, calls).store
    ensures DispatchRun(store, factions, calls).store[e] == store[e]
  {
    StreamIsRun(store, factions, calls);
    AdmittedActors(factions, calls, store[e].ownerFaction);
    RunIsolation(store, Admitted(factions, calls), e);
  }

  class EconomyWorld {
    const registry: InventoryRegistry
    const journal: EventJournal
    var factions: map<EntityId, FactionId>
    var tick: SimTick

    constructor (registry: InventoryRegistry, journal: EventJournal, factions: map<EntityId, FactionId>, tick: SimTick)
      ensures this.registry == registry && this.journal == journal
      ensures this.factions == factions && this.tick == tick
    {
      this.registry, this.journal := registry, journal;
      this.factions, this.tick := factions, tick;
    }

    method AuthorizeEntity(actor: FactionId, e: EntityId) returns (result: Result<(), GameError>)
      ensures result == if EntityOpenTo(factions, actor, e) then Ok(()) else Err(PermissionDenied)
    {
      if actor == NULL_ID || e !in factions {
        return Ok(());
      }
      if factions[e] == NULL_ID || factions[e] == actor {
        return Ok(());
      }
      return Err(PermissionDenied);
    }

    method ApplyCommand(actor: FactionId, op: Op) returns (result: Result<(), GameError>)
      requires registry.Valid()
      modifies registry.inventories.Values, journal
      ensures registry.Valid()
      ensures var f := DispatchStep(old(registry.Store()), factions, Call(actor, tick, op));
        && registry.Store() == f.store
        && result == f.result
        && journal.events == old(journal.events) + f.entries
    {
      hide Step, Untargeted, EntityOpenTo, InventoryRegistry.Valid, InventoryRegistry.Store;
      if actor == NULL_ID {
        return Err(PermissionDenied);
      }
      var _ :- AuthorizeEntity(actor, op.source);
      if op.Transfer? || op.Commit? {
        var _ :- AuthorizeEntity(actor, op.dest);
      }
      result := Perform(actor, op);
    }

    method Perform(actor: FactionId, op: Op) returns (result: Result<(), GameError>)
      requires registry.Valid()
      modifies registry.inventories.Values, journal
      ensures registry.Valid()
      ensures var f := Step(old(registry.Store()), Untargeted(Call(actor, tick, op)));
        && registry.Store() == f.store
        && result == f.result
        && journal.events == old(journal.events) + f.entries
    {
      match op {
        case Transfer(source, dest, r, n) =>
          result := registry.AtomicTransfer(actor, tick, source, dest, r, n, journal);
        case Reserve(source, id, r, n, _) =>
          result := registry.TwoPhaseReserve(actor, tick, source, id, r, n, None, journal);
        case Commit(id, source, dest) =>
          result := registry.TwoPhaseCommit(actor, tick, id, source, dest, journal);
        case Cancel(id, source) =>
          result := registry.TwoPhaseCancel(actor, tick, id, source, journal);
      }
    }
  }
}
