/** Safety of every history of transactions: atomicity, conservation, isolation and double entry. */
module TransactionLaws {
  import opened Words
  import opened Wrappers
  import opened Resources
  import opened Containers
  import opened ContainerLaws
  import opened Acceptance
  import opened Transactions

  // ---------------------------------------------------------------- one step

  /** A step moves each balance by exactly what its journal entries say. */
  ghost predicate Posted(store: Store, f: Effect, e: EntityId, q: ResourceId)
    requires e in store
  {
    && e in f.store
    && Sum(Quantity(q), f.store[e].slots) == Sum(Quantity(q), store[e].slots) + LedgerTotal(f.entries, e, q)
    && Sum(Locked(q), f.store[e].slots) == Sum(Locked(q), store[e].slots) + LedgerLocked(f.entries, e, q)
  }

  /** Soundness kept, all or nothing, and every balance change journalled. */
  ghost predicate Lawful(store: Store, f: Effect) {
    && AllSound(f.store)
    && f.store.Keys == store.Keys
    && (f.result.Err? ==> f.store == store && f.entries == [])
    && forall e, q :: e in store ==> Posted(store, f, e, q)
  }

  lemma SingleEntry(entry: Entry, e: EntityId, q: ResourceId)
    ensures LedgerTotal([entry], e, q) == PostedTotal(entry, e, q)
    ensures LedgerLocked([entry], e, q) == PostedLocked(entry, e, q)
  {
  }

  lemma MovePosts(store: Store, tick: SimTick, source: EntityId, dest: EntityId, r: ResourceId, n: u32, e: EntityId,
                  q: ResourceId)
    requires source in store && dest in store && source != dest && e in store
    requires n <= Sum(Unreserved(r), store[source].slots) && CanAccept(store[dest], r, n)
    ensures Posted(store, Move(store, tick, source, dest, r, n), e, q)
  {
    hide AddTo, RemoveFrom, CanAccept;
    RemoveLaw(store[source], r, n, q);
    AddLaw(store[dest], r, n, q);
    SingleEntry(Move(store, tick, source, dest, r, n).entries[0], e, q);
  }

  lemma MoveLaw(store: Store, tick: SimTick, source: EntityId, dest: EntityId, r: ResourceId, n: u32)
    requires AllSound(store)
    requires source in store && dest in store && source != dest
    requires n <= Sum(Unreserved(r), store[source].slots) && CanAccept(store[dest], r, n)
    ensures Lawful(store, Move(store, tick, source, dest, r, n))
  {
    hide AddTo, RemoveFrom, CanAccept, Posted, Sum;
    RemoveKeepsSound(store[source], r, n);
    AddKeepsSound(store[dest], r, n);
    forall e, q | e in store ensures Posted(store, Move(store, tick, source, dest, r, n), e, q) {
      MovePosts(store, tick, source, dest, r, n, e, q);
    }
  }

  lemma TransferLaw(store: Store, actor: FactionId, tick: SimTick, source: EntityId, dest: EntityId,
                    r: ResourceId, n: u32)
    requires AllSound(store)
    ensures Lawful(store, TransferStep(store, actor, tick, source, dest, r, n))
  {
    if source in store && dest in store && source != dest
       && n <= Sum(Unreserved(r), store[source].slots) && CanAccept(store[dest], r, n) {
      MoveLaw(store, tick, source, dest, r, n);
    }
  }

  lemma ReserveStepLaw(store: Store, actor: FactionId, tick: SimTick, source: EntityId, id: ReservationId,
                       r: ResourceId, n: u32, target: Option<EntityId>)
    requires AllSound(store)
    ensures Lawful(store, ReserveStep(store, actor, tick, source, id, r, n, target))
  {
    if source in store {
      ReserveKeepsSound(store[source], id, r, n, tick, target);
      ReserveLaw(store[source], id, r, n, tick, target, 0);
      forall e, q | e in store ensures Posted(store, ReserveStep(store, actor, tick, source, id, r, n, target), e, q) {
        ReservePosts(store, actor, tick, source, id, r, n, target, e, q);
      }
    }
  }

  lemma ReservePosts(store: Store, actor: FactionId, tick: SimTick, source: EntityId, id: ReservationId,
                     r: ResourceId, n: u32, target: Option<EntityId>, e: EntityId, q: ResourceId)
    requires e in store
    ensures Posted(store, ReserveStep(store, actor, tick, source, id, r, n, target), e, q)
  {
    var f := ReserveStep(store, actor, tick, source, id, r, n, target);
    if source in store {
      ReserveLaw(store[source], id, r, n, tick, target, q);
      if f.entries != [] {
        SingleEntry(f.entries[0], e, q);
      }
    }
  }

  lemma CancelPosts(store: Store, actor: FactionId, tick: SimTick, id: ReservationId, source: EntityId, e: EntityId,
                    q: ResourceId)
    requires AllSound(store) && e in store
    ensures Posted(store, CancelStep(store, actor, tick, id, source), e, q)
  {
    var f := CancelStep(store, actor, tick, id, source);
    if source in store {
      ReleaseLaw(store[source], id, q);
      if f.entries != [] {
        SingleEntry(f.entries[0], e, q);
      }
    }
  }

  lemma CancelStepLaw(store: Store, actor: FactionId, tick: SimTick, id: ReservationId, source: EntityId)
    requires AllSound(store)
    ensures Lawful(store, CancelStep(store, actor, tick, id, source))
  {
    hide Posted;
    if source in store {
      ReleaseKeepsSound(store[source], id);
      ReleaseLaw(store[source], id, 0);
    }
    forall e, q | e in store ensures Posted(store, CancelStep(store, actor, tick, id, source), e, q) {
      CancelPosts(store, actor, tick, id, source, e, q);
    }
  }

  /**
   Once the dry run has accepted a live reservation, neither the debit nor the credit can fail,
   even when a container delivers to itself: the rollback branch is never taken.
   */
  lemma RollbackUnreachable(store: Store, id: ReservationId, source: EntityId, dest: EntityId)
    requires AllSound(store)
    requires source in store && dest in store
    requires id in store[source].reservations
    requires var res := store[source].reservations[id]; CanAccept(store[dest], res.resource, res.amount)
    ensures CommitIn(store[source], id).result.Ok?
    ensures var res := store[source].reservations[id];
      AddTo(store[source := CommitIn(store[source], id).after][dest], res.resource, res.amount).result.Ok?
  {
    var res := store[source].reservations[id];
    CommitLaw(store[source], id, res.resource);
    if source == dest {
      AcceptanceSurvivesCommit(store[source], id, res.resource, res.amount);
    }
  }

  lemma DeliverLaw(store: Store, tick: SimTick, id: ReservationId, source: EntityId, dest: EntityId)
    requires AllSound(store)
    requires source in store && dest in store
    requires id in store[source].reservations
    requires var res := store[source].reservations[id]; CanAccept(store[dest], res.resource, res.amount)
    ensures Lawful(store, Deliver(store, tick, id, source, dest))
    ensures Deliver(store, tick, id, source, dest).result.Ok?
  {
    var res := store[source].reservations[id];
    var debited := store[source := CommitIn(store[source], id).after];
    RollbackUnreachable(store, id, source, dest);
    CommitKeepsSound(store[source], id);
    AddKeepsSound(debited[dest], res.resource, res.amount);
    forall e, q | e in store ensures Posted(store, Deliver(store, tick, id, source, dest), e, q) {
      DeliverPosts(store, tick, id, source, dest, e, q);
    }
  }

  lemma DeliverPosts(store: Store, tick: SimTick, id: ReservationId, source: EntityId, dest: EntityId,
                     e: EntityId, q: ResourceId)
    requires AllSound(store)
    requires source in store && dest in store && e in store
    requires id in store[source].reservations
    requires var res := store[source].reservations[id]; CanAccept(store[dest], res.resource, res.amount)
    ensures Posted(store, Deliver(store, tick, id, source, dest), e, q)
  {
    var res := store[source].reservations[id];
    var debited := store[source := CommitIn(store[source], id).after];
    RollbackUnreachable(store, id, source, dest);
    CommitLaw(store[source], id, q);
    AddLaw(debited[dest], res.resource, res.amount, q);
    SingleEntry(Deliver(store, tick, id, source, dest).entries[0], e, q);
  }

  lemma CommitStepLaw(store: Store, actor: FactionId, tick: SimTick, id: ReservationId, source: EntityId,
                      dest: EntityId)
    requires AllSound(store)
    ensures Lawful(store, CommitStep(store, actor, tick, id, source, dest))
  {
    if source in store && dest in store && id in store[source].reservations {
      var res := store[source].reservations[id];
      if CanAccept(store[dest], res.resource, res.amount) {
        DeliverLaw(store, tick, id, source, dest);
      }
    }
  }

  /** Every step keeps soundness, is all-or-nothing, and posts exactly its balance changes. */
  lemma StepLaw(store: Store, call: Call)
    requires AllSound(store)
    ensures Lawful(store, Step(store, call))
  {
    match call.op
    case Transfer(source, dest, r, n) => TransferLaw(store, call.actor, call.tick, source, dest, r, n);
    case Reserve(source, id, r, n, target) =>
      ReserveStepLaw(store, call.actor, call.tick, source, id, r, n, target);
    case Commit(id, source, dest) => CommitStepLaw(store, call.actor, call.tick, id, source, dest);
    case Cancel(id, source) => CancelStepLaw(store, call.actor, call.tick, id, source);
  }

  predicate SameIdentity(c: Container, d: Container) {
    d == c.(slots := d.slots, reservations := d.reservations)
  }

  lemma AddKeepsIdentity(c: Container, r: ResourceId, n: u32)
    ensures SameIdentity(c, AddTo(c, r, n).after)
  {
  }

  lemma RemoveKeepsIdentity(c: Container, r: ResourceId, n: u32)
    ensures SameIdentity(c, RemoveFrom(c, r, n).after)
  {
  }

  lemma ReserveKeepsIdentity(c: Container, id: ReservationId, r: ResourceId, n: u32, tick: SimTick,
                             target: Option<EntityId>)
    ensures SameIdentity(c, ReserveIn(c, id, r, n, tick, target).after)
  {
  }

  lemma CommitKeepsIdentity(c: Container, id: ReservationId)
    ensures SameIdentity(c, CommitIn(c, id).after)
  {
  }

  lemma ReleaseKeepsIdentity(c: Container, id: ReservationId)
    ensures SameIdentity(c, ReleaseIn(c, id).after)
  {
  }

  lemma DeliverKeepsIdentity(store: Store, tick: SimTick, id: ReservationId, source: EntityId, dest: EntityId)
    requires source in store && dest in store && id in store[source].reservations
    ensures var f := Deliver(store, tick, id, source, dest);
      f.store.Keys == store.Keys && forall e :: e in store ==> SameIdentity(store[e], f.store[e])
  {
    hide AddTo, CommitIn;
    var res := store[source].reservations[id];
    var debited := store[source := CommitIn(store[source], id).after];
    var credited := debited[dest := AddTo(debited[dest], res.resource, res.amount).after];
    CommitKeepsIdentity(store[source], id);
    AddKeepsIdentity(debited[dest], res.resource, res.amount);
    AddKeepsIdentity(credited[source], res.resource, res.amount);
  }

  /** No step creates, drops or re-owns a container. */
  lemma StepKeepsIdentity(store: Store, call: Call)
    ensures Step(store, call).store.Keys == store.Keys
    ensures forall e :: e in store ==> SameIdentity(store[e], Step(store, call).store[e])
  {
    hide AddTo, RemoveFrom, ReserveIn, ReleaseIn, Deliver, CanAccept, Sum;
    match call.op
    case Transfer(source, dest, r, n) =>
      if source in store && dest in store {
        RemoveKeepsIdentity(store[source], r, n);
        AddKeepsIdentity(store[dest], r, n);
      }
    case Reserve(source, id, r, n, target) =>
      if source in store {
        ReserveKeepsIdentity(store[source], id, r, n, call.tick, target);
      }
    case Commit(id, source, dest) =>
      if source in store && dest in store && id in store[source].reservations {
        DeliverKeepsIdentity(store, call.tick, id, source, dest);
      }
    case Cancel(id, source) =>
      if source in store {
        ReleaseKeepsIdentity(store[source], id);
      }
  }

  /** A step by faction F leaves every container of another faction as it was. */
  lemma StepIsolation(store: Store, call: Call, e: EntityId)
    requires e in store
    requires !Accessible(store[e], call.actor)
    ensures e in Step(store, call).store
    ensures Step(store, call).store[e] == store[e]
  {
  }

  // ---------------------------------------------------------------- grand totals

  lemma {:induction false} GrandTotalRemove(store: Store, e: EntityId, q: ResourceId)
    requires e in store
    ensures GrandTotal(store, q) == Sum(Quantity(q), store[e].slots) + GrandTotal(store - {e}, q)
    decreases |store|
  {
    var d :| d in store && GrandTotal(store, q) == Sum(Quantity(q), store[d].slots) + GrandTotal(store - {d}, q);
    if d != e {
      GrandTotalRemove(store - {d}, e, q);
      GrandTotalRemove(store - {e}, d, q);
      assert store - {d} - {e} == store - {e} - {d};
    }
  }

  lemma GrandTotalUpdate(store: Store, e: EntityId, c: Container, q: ResourceId)
    requires e in store
    ensures GrandTotal(store[e := c], q) ==
            GrandTotal(store, q) - Sum(Quantity(q), store[e].slots) + Sum(Quantity(q), c.slots)
  {
    GrandTotalRemove(store, e, q);
    GrandTotalRemove(store[e := c], e, q);
    assert store[e := c] - {e} == store - {e};
  }

  /** Changing two containers keeps the grand total if it keeps their combined balance. */
  lemma TwoPointUpdate(store: Store, store': Store, a: EntityId, b: EntityId, q: ResourceId)
    requires a in store && b in store && store'.Keys == store.Keys
    requires forall e :: e in store && e != a && e != b ==> store'[e] == store[e]
    requires if a == b then Gain(store, store', a, q) == 0
             else Gain(store, store', a, q) + Gain(store, store', b, q) == 0
    ensures GrandTotal(store', q) == GrandTotal(store, q)
  {
    var half := store[a := store'[a]];
    GrandTotalUpdate(store, a, store'[a], q);
    GrandTotalUpdate(half, b, store'[b], q);
    assert store' == half[b := store'[b]];
  }

  function Gain(store: Store, store': Store, e: EntityId, q: ResourceId): int
    requires e in store && e in store'
  {
    Sum(Quantity(q), store'[e].slots) - Sum(Quantity(q), store[e].slots)
  }

  /** The second container a call may touch; the first is its source. */
  function Other(op: Op): EntityId {
    if op.Transfer? || op.Commit? then op.dest else op.source
  }

  /** A call touches only its two endpoints, and journals only what happens between them. */
  lemma StepFootprint(store: Store, call: Call)
    requires Step(store, call).store != store
    ensures call.op.source in store && Other(call.op) in store
    ensures forall e :: e in store && e != call.op.source && e != Other(call.op) ==>
              e in Step(store, call).store && Step(store, call).store[e] == store[e]
    ensures forall q :: Conserving(Step(store, call).entries, call.op.source, Other(call.op), q)
  {
    hide CanAccept, AddTo, RemoveFrom, ReserveIn, CommitIn, ReleaseIn, Sum;
    var f := Step(store, call);
    forall q ensures Conserving(f.entries, call.op.source, Other(call.op), q) {
      if f.entries != [] {
        SingleEntry(f.entries[0], call.op.source, q);
        SingleEntry(f.entries[0], Other(call.op), q);
      }
    }
  }

  predicate Conserving(entries: seq<Entry>, a: EntityId, b: EntityId, q: ResourceId) {
    if a == b then LedgerTotal(entries, a, q) == 0
    else LedgerTotal(entries, a, q) + LedgerTotal(entries, b, q) == 0
  }

  lemma StepConserves(store: Store, call: Call, q: ResourceId)
    requires AllSound(store)
    ensures GrandTotal(Step(store, call).store, q) == GrandTotal(store, q)
  {
    var f := Step(store, call);
    StepLaw(store, call);
    if f.store != store {
      StepFootprint(store, call);
      EffectConserves(store, f, call.op.source, Other(call.op), q);
    }
  }

  lemma EffectConserves(store: Store, f: Effect, a: EntityId, b: EntityId, q: ResourceId)
    requires a in store && b in store && Lawful(store, f)
    requires forall e :: e in store && e != a && e != b ==> f.store[e] == store[e]
    requires Conserving(f.entries, a, b, q)
    ensures GrandTotal(f.store, q) == GrandTotal(store, q)
  {
    assert Posted(store, f, a, q) && Posted(store, f, b, q);
    TwoPointUpdate(store, f.store, a, b, q);
  }

  // ---------------------------------------------------------------- whole runs

  lemma {:induction false} RunSound(store: Store, calls: seq<Call>)
    requires AllSound(store)
    ensures AllSound(Run(store, calls).store)
  {
    if calls == [] {
    } else {
      StepLaw(store, calls[0]);
      RunSound(Step(store, calls[0]).store, calls[1..]);
    }
  }

  /** Over any run the total of each resource over all containers is constant. */
  lemma {:induction false} RunConserves(store: Store, calls: seq<Call>, q: ResourceId)
    requires AllSound(store)
    ensures GrandTotal(Run(store, calls).store, q) == GrandTotal(store, q)
  {
    if calls == [] {
    } else {
      StepConserves(store, calls[0], q);
      StepLaw(store, calls[0]);
      RunConserves(Step(store, calls[0]).store, calls[1..], q);
    }
  }

  lemma SameIdentitySelf(store: Store)
    ensures forall e :: e in store ==> SameIdentity(store[e], store[e])
  {
  }

  /** Over any run no container is created, dropped, re-owned or resized. */
  lemma {:induction false} RunKeepsIdentity(store: Store, calls: seq<Call>)
    ensures Run(store, calls).store.Keys == store.Keys
    ensures forall e :: e in store ==> SameIdentity(store[e], Run(store, calls).store[e])
  {
    hide Step, SameIdentity;
    if calls == [] {
      SameIdentitySelf(store);
    } else {
      var next := Step(store, calls[0]).store;
      StepKeepsIdentity(store, calls[0]);
      RunKeepsIdentity(next, calls[1..]);
      forall e | e in store ensures SameIdentity(store[e], Run(store, calls).store[e]) {
        SameIdentityTrans(store[e], next[e], Run(next, calls[1..]).store[e]);
      }
    }
  }

  lemma SameIdentityTrans(a: Container, b: Container, c: Container)
    requires SameIdentity(a, b) && SameIdentity(b, c)
    ensures SameIdentity(a, c)
  {
  }

  lemma {:induction false} LedgerConcat(a: seq<Entry>, b: seq<Entry>, e: EntityId, q: ResourceId)
    ensures LedgerTotal(a + b, e, q) == LedgerTotal(a, e, q) + LedgerTotal(b, e, q)
    ensures LedgerLocked(a + b, e, q) == LedgerLocked(a, e, q) + LedgerLocked(b, e, q)
  {
    if a == [] {
      assert a + b == b;
    } else {
      assert (a + b)[1..] == a[1..] + b;
      LedgerConcat(a[1..], b, e, q);
    }
  }

  /**
   Double entry: replaying the journal over the opening balances gives the closing total and
   the closing locked amount of every resource in every container.
   */
  lemma {:induction false} JournalReplays(store: Store, calls: seq<Call>, e: EntityId, q: ResourceId)
    requires AllSound(store)
    requires e in store
    ensures var t := Run(store, calls);
      && e in t.store
      && Sum(Quantity(q), t.store[e].slots) == Sum(Quantity(q), store[e].slots) + LedgerTotal(t.journal, e, q)
      && Sum(Locked(q), t.store[e].slots) == Sum(Locked(q), store[e].slots) + LedgerLocked(t.journal, e, q)
  {
    if calls == [] {
    } else {
      var f := Step(store, calls[0]);
      StepLaw(store, calls[0]);
      assert Posted(store, f, e, q);
      JournalReplays(f.store, calls[1..], e, q);
      LedgerConcat(f.entries, Run(f.store, calls[1..]).journal, e, q);
    }
  }

  /** A faction's container changes only through its own calls or server authority. */
  lemma {:induction false} RunIsolation(store: Store, calls: seq<Call>, e: EntityId)
    requires e in store
    requires store[e].ownerFaction != NULL_ID
    requires forall i :: 0 <= i < |calls| ==> calls[i].actor != NULL_ID && calls[i].actor != store[e].ownerFaction
    ensures e in Run(store, calls).store
    ensures Run(store, calls).store[e] == store[e]
  {
    if calls == [] {
    } else {
      StepIsolation(store, calls[0], e);
      RunIsolation(Step(store, calls[0]).store, calls[1..], e);
    }
  }

  /**
   After any run, a live reservation whose goods the destination accepts can be delivered, and
   one that is live at all can be cancelled, by anyone who may touch the containers.
   */
  lemma LiveReservationsSettle(store: Store, calls: seq<Call>, actor: FactionId, tick: SimTick, id: ReservationId,
                               source: EntityId, dest: EntityId)
    requires AllSound(store)
    requires var s := Run(store, calls).store;
      && source in s && dest in s
      && id in s[source].reservations
      && Accessible(s[source], actor) && Accessible(s[dest], actor)
    ensures var s := Run(store, calls).store;
      var res := s[source].reservations[id];
      && CancelStep(s, actor, tick, id, source).result.Ok?
      && (CommitStep(s, actor, tick, id, source, dest).result.Ok? <==>
            CanAccept(s[dest], res.resource, res.amount))
  {
    var s := Run(store, calls).store;
    RunSound(store, calls);
    ReleaseLaw(s[source], id, 0);
    var res := s[source].reservations[id];
    if CanAccept(s[dest], res.resource, res.amount) {
      RollbackUnreachable(s, id, source, dest);
    }
  }
}
