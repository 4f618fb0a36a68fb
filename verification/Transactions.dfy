/** Multi-container transactions as steps over all containers, and the journal entries they write. */
module Transactions {
  import opened Words
  import opened Wrappers
  import opened Resources
  import opened Containers

  type Store = map<EntityId, Container>

  datatype Event =
    | ResourceReserved(entity: EntityId, resource: ResourceId, amount: u32, reservation: ReservationId)
    | ResourceCommitted(source: EntityId, dest: EntityId, resource: ResourceId, amount: u32, reservation: ReservationId)
    | ResourceReleased(entity: EntityId, resource: ResourceId, amount: u32, reservation: ReservationId)
    | ResourceTransferred(source: EntityId, dest: EntityId, resource: ResourceId, amount: u32)

  datatype Entry = Entry(tick: SimTick, event: Event)

  /** One call by one actor. The null faction is server authority. */
  datatype Op =
    | Transfer(source: EntityId, dest: EntityId, resource: ResourceId, amount: u32)
    | Reserve(source: EntityId, id: ReservationId, resource: ResourceId, amount: u32, target: Option<EntityId>)
    | Commit(id: ReservationId, source: EntityId, dest: EntityId)
    | Cancel(id: ReservationId, source: EntityId)

  datatype Effect = Effect(store: Store, entries: seq<Entry>, result: Result<(), GameError>)

  function Refused(store: Store, e: GameError): Effect {
    Effect(store, [], Err(e))
  }

  predicate Accessible(c: Container, actor: FactionId) {
    actor == NULL_ID || c.ownerFaction == NULL_ID || c.ownerFaction == actor
  }

  /** A missing container passes: the later lookup names it. */
  predicate Authorized(store: Store, actor: FactionId, e: EntityId) {
    e in store ==> Accessible(store[e], actor)
  }

  function TransferStep(store: Store, actor: FactionId, tick: SimTick, source: EntityId, dest: EntityId,
                        r: ResourceId, n: u32): Effect
  {
    if n == 0 || source == dest then Effect(store, [], Ok(()))
    else if source !in store then Refused(store, ContainerNotFound(source))
    else if dest !in store then Refused(store, ContainerNotFound(dest))
    else if !Authorized(store, actor, source) || !Authorized(store, actor, dest) then Refused(store, PermissionDenied)
    else if Sum(Unreserved(r), store[source].slots) < n then
      Refused(store, InsufficientUnreservedBalance(Sum(Unreserved(r), store[source].slots), n))
    else if !CanAccept(store[dest], r, n) then Refused(store, FullError(store[dest]))
    else Move(store, tick, source, dest, r, n)
  }

  function Move(store: Store, tick: SimTick, source: EntityId, dest: EntityId, r: ResourceId, n: u32): Effect
    requires source in store && dest in store
  {
    Effect(store[source := RemoveFrom(store[source], r, n).after][dest := AddTo(store[dest], r, n).after],
           [Entry(tick, ResourceTransferred(source, dest, r, n))], Ok(()))
  }

  function ReserveStep(store: Store, actor: FactionId, tick: SimTick, source: EntityId, id: ReservationId,
                       r: ResourceId, n: u32, target: Option<EntityId>): Effect
  {
    if !Authorized(store, actor, source) then Refused(store, PermissionDenied)
    else if target.Some? && !Authorized(store, actor, target.value) then Refused(store, PermissionDenied)
    else if source !in store then Refused(store, ContainerNotFound(source))
    else
      var o := ReserveIn(store[source], id, r, n, tick, target);
      if o.result.Err? then Refused(store[source := o.after], o.result.error)
      else Effect(store[source := o.after], [Entry(tick, ResourceReserved(source, r, n, id))], Ok(()))
  }

  function CommitStep(store: Store, actor: FactionId, tick: SimTick, id: ReservationId, source: EntityId,
                      dest: EntityId): Effect
  {
    if source !in store then Refused(store, ContainerNotFound(source))
    else if dest !in store then Refused(store, ContainerNotFound(dest))
    else if !Authorized(store, actor, source) || !Authorized(store, actor, dest) then Refused(store, PermissionDenied)
    else if id !in store[source].reservations then Refused(store, ReservationNotFound(id))
    else
      var res := store[source].reservations[id];
      if !CanAccept(store[dest], res.resource, res.amount) then Refused(store, FullError(store[dest]))
      else Deliver(store, tick, id, source, dest)
  }

  /** Credit the destination of a delivery, or give the units back to the source. */
  function Credit(store: Store, tick: SimTick, id: ReservationId, source: EntityId, dest: EntityId, r: ResourceId,
                  n: u32): Effect
    requires source in store && dest in store
  {
    var added := AddTo(store[dest], r, n);
    var credited := store[dest := added.after];
    if added.result.Ok? then Effect(credited, [Entry(tick, ResourceCommitted(source, dest, r, n, id))], Ok(()))
    else Refused(credited[source := AddTo(credited[source], r, n).after], added.result.error)
  }

  /** Debit the source, credit the destination, and undo the debit if the credit fails. */
  function Deliver(store: Store, tick: SimTick, id: ReservationId, source: EntityId, dest: EntityId): Effect
    requires source in store && dest in store
    requires id in store[source].reservations
  {
    var res := store[source].reservations[id];
    var committed := CommitIn(store[source], id);
    var debited := store[source := committed.after];
    if committed.result.Err? then Refused(debited, committed.result.error)
    else Credit(debited, tick, id, source, dest, res.resource, res.amount)
  }

  function CancelStep(store: Store, actor: FactionId, tick: SimTick, id: ReservationId, source: EntityId): Effect {
    if !Authorized(store, actor, source) then Refused(store, PermissionDenied)
    else if source !in store then Refused(store, ContainerNotFound(source))
    else
      var o := ReleaseIn(store[source], id);
      if o.result.Err? then Refused(store[source := o.after], o.result.error)
      else
        Effect(store[source := o.after],
               [Entry(tick, ResourceReleased(source, o.result.value.0, o.result.value.1, id))], Ok(()))
  }

  datatype Call = Call(actor: FactionId, tick: SimTick, op: Op)

  function Step(store: Store, call: Call): Effect {
    match call.op
    case Transfer(source, dest, r, n) => TransferStep(store, call.actor, call.tick, source, dest, r, n)
    case Reserve(source, id, r, n, target) => ReserveStep(store, call.actor, call.tick, source, id, r, n, target)
    case Commit(id, source, dest) => CommitStep(store, call.actor, call.tick, id, source, dest)
    case Cancel(id, source) => CancelStep(store, call.actor, call.tick, id, source)
  }

  datatype Trace = Trace(store: Store, journal: seq<Entry>)

  /** Any finite history of calls, by any mix of factions, failures included. */
  function Run(store: Store, calls: seq<Call>): Trace {
    if calls == [] then Trace(store, [])
    else
      var first := Step(store, calls[0]);
      var rest := Run(first.store, calls[1..]);
      Trace(rest.store, first.entries + rest.journal)
  }

  // ---------------------------------------------------------------- balances

  /** What one journal entry posts to the total and the locked balance of (`e`, `q`). */
  function PostedTotal(entry: Entry, e: EntityId, q: ResourceId): int {
    match entry.event
    case ResourceTransferred(source, dest, r, n) =>
      if r != q then 0 else (if dest == e then n else 0) - (if source == e then n else 0)
    case ResourceCommitted(source, dest, r, n, _) =>
      if r != q then 0 else (if dest == e then n else 0) - (if source == e then n else 0)
    case _ => 0
  }

  function PostedLocked(entry: Entry, e: EntityId, q: ResourceId): int {
    match entry.event
    case ResourceReserved(entity, r, n, _) => if r == q && entity == e then n else 0
    case ResourceCommitted(source, _, r, n, _) => if r == q && source == e then 0 - n else 0
    case ResourceReleased(entity, r, n, _) => if r == q && entity == e then 0 - n else 0
    case ResourceTransferred(_, _, _, _) => 0
  }

  function LedgerTotal(journal: seq<Entry>, e: EntityId, q: ResourceId): int {
    if journal == [] then 0 else PostedTotal(journal[0], e, q) + LedgerTotal(journal[1..], e, q)
  }

  function LedgerLocked(journal: seq<Entry>, e: EntityId, q: ResourceId): int {
    if journal == [] then 0 else PostedLocked(journal[0], e, q) + LedgerLocked(journal[1..], e, q)
  }

  /** Units of `q` over all containers. */
  ghost function GrandTotal(store: Store, q: ResourceId): nat
    decreases |store|
  {
    if store == map[] then 0
    else
      var e :| e in store;
      Sum(Quantity(q), store[e].slots) + GrandTotal(store - {e}, q)
  }

  ghost predicate AllSound(store: Store) {
    forall e :: e in store ==> Sound(store[e])
  }
}
