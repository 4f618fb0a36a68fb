/** Leaving does not stop a session's commands: no gate and no dispatcher looks at the session state. */
module DepartedCommands {
  import opened Words
  import opened Wrappers
  import opened Bytes
  import opened Manifests
  import opened Protocol
  import opened Sessions
  import opened CommandBuffers
  import opened AdminRoles
  import opened Tokens
  import opened Gates
  import opened ServerSteps
  import opened Partings
  import SessionSafety

  /** The same session, whether it has left or not. */
  predicate SameButState(a: Session, b: Session) {
    a == b.(state := a.state)
  }

  /** Equal server states but for who has left. */
  ghost predicate AlikeButStates<W(!new)>(s: State<W>, t: State<W>) {
    && s == t.(sessions := s.sessions)
    && s.sessions.Keys == t.sessions.Keys
    && forall id :: id in s.sessions ==> SameButState(s.sessions[id], t.sessions[id])
  }

  // ---------------------------------------------------------------- acceptance ignores the state

  ghost predicate SameRuling(q: Ruling, r: Ruling) {
    && q == r.(session := q.session)
    && q.session.Some? && r.session.Some? && SameButState(q.session.value, r.session.value)
  }

  lemma JudgementIgnoresState<W(!new)>(build: Build, st: Settings<W>, x: Session, y: Session, role: Role, c: Command)
    requires SameButState(x, y)
    ensures SameRuling(Judge(build, st, x, role, c), Judge(build, st, y, role, c))
  {
    hide RequiredPermission, Permissions, ManifestAccepted, RequiresManifest;
  }

  lemma BeatAndAdvance(x: Session, y: Session, tick: nat, sequence: nat)
    requires SameButState(x, y)
    ensures SameButState(x.(heartbeat := tick), y.(heartbeat := tick))
    ensures SameButState(x.(heartbeat := tick).Advance(sequence), y.(heartbeat := tick).Advance(sequence))
  {
  }

  /** The ruling on a command is the same for a session that has left. */
  lemma RulingIgnoresState<W(!new)>(build: Build, st: Settings<W>, tick: nat, x: Session, y: Session, role: Role,
                                    e: Envelope, source: Option<SocketAddr>)
    requires SameButState(x, y)
    ensures SameRuling(Rule(build, st, tick, Some(x), role, e, source), Rule(build, st, tick, Some(y), role, e, source))
  {
    hide Judge;
    var a, b := x.(heartbeat := tick), y.(heartbeat := tick);
    BeatAndAdvance(x, y, tick, e.sequence);
    JudgementIgnoresState(build, st, a.Advance(e.sequence), b.Advance(e.sequence), role, e.command);
  }

  lemma EnforceAlike<W(!new)>(s: State<W>, t: State<W>, e: Envelope, q: Ruling, r: Ruling)
    requires AlikeButStates(s, t) && SameRuling(q, r)
    ensures AlikeButStates(Enforce(s, e, q), Enforce(t, e, r))
  {
  }

  lemma EnforceNoSession<W(!new)>(s: State<W>, t: State<W>, e: Envelope, r: Ruling)
    requires AlikeButStates(s, t) && r.session.None?
    ensures AlikeButStates(Enforce(s, e, r), Enforce(t, e, r))
  {
  }

  lemma NoSessionNoRuling<W(!new)>(build: Build, st: Settings<W>, tick: nat, role: Role, e: Envelope,
                                   source: Option<SocketAddr>)
    ensures Rule(build, st, tick, None, role, e, source).session.None?
  {
  }

  lemma IngestIgnoresStates<W(!new)>(build: Build, st: Settings<W>, s: State<W>, t: State<W>, e: Envelope,
                                     source: Option<SocketAddr>)
    requires AlikeButStates(s, t)
    ensures AlikeButStates(Ingest(build, st, s, e, source), Ingest(build, st, t, e, source))
  {
    hide Rule, RoleOf, Enforce;
    var q, r := RuleFor(build, st, s, e, source), RuleFor(build, st, t, e, source);
    if e.session in s.sessions {
      RulingIgnoresState(build, st, s.tick, s.sessions[e.session], t.sessions[e.session], RoleOf(s.roles, e.session), e,
                         source);
      EnforceAlike(s, t, e, q, r);
    } else {
      NoSessionNoRuling(build, st, s.tick, RoleOf(s.roles, e.session), e, source);
      EnforceNoSession(s, t, e, r);
    }
  }

  lemma LeaveAlike<W(!new)>(s: State<W>, t: State<W>, id: nat)
    requires AlikeButStates(s, t)
    ensures AlikeButStates(ServerSteps.Disconnect(s, id), ServerSteps.Disconnect(t, id))
  {
  }

  lemma ConnectAlike<W(!new)>(st: Settings<W>, s: State<W>, t: State<W>, version: u32, name: Text,
                              source: Option<SocketAddr>)
    requires AlikeButStates(s, t)
    ensures AlikeButStates(Connect(st, s, version, name, source), Connect(st, t, version, name, source))
  {
    hide NewSession, TokenOf, WrappingAdd;
  }

  lemma PingAlike<W(!new)>(s: State<W>, t: State<W>, session: u64, timestamp: u64)
    requires AlikeButStates(s, t)
    ensures AlikeButStates(Ping(s, session, timestamp), Ping(t, session, timestamp))
  {
  }

  lemma HandleIgnoresStates<W(!new)>(build: Build, st: Settings<W>, s: State<W>, t: State<W>, i: Inbound)
    requires AlikeButStates(s, t)
    ensures AlikeButStates(Handle(build, st, s, i), Handle(build, st, t, i))
  {
    hide Ingest, Connect, ServerSteps.Disconnect, Ping, AlikeButStates;
    match i.packet.payload {
      case HandshakePayload(m) =>
        match m {
          case ClientHello(version, name) => ConnectAlike(st, s, t, version, name, i.source);
          case Disconnect(session, _) => LeaveAlike(s, t, session);
          case ServerHello(_, _, _, _, _) =>
        }
      case CommandPayload(_, _, _, _, _) =>
        IngestIgnoresStates(build, st, s, t, EnvelopeOf(i.packet.payload), i.source);
      case PingPayload(timestamp) => PingAlike(s, t, i.packet.header.session, timestamp);
      case _ =>
    }
  }

  lemma {:induction false} ReceiveIgnoresStates<W(!new)>(build: Build, st: Settings<W>, s: State<W>, t: State<W>,
                                                         batch: seq<Inbound>)
    requires AlikeButStates(s, t)
    ensures AlikeButStates(Receive(build, st, s, batch), Receive(build, st, t, batch))
    decreases |batch|
  {
    hide Handle, AlikeButStates;
    if batch == [] {
    } else {
      var before := batch[..|batch| - 1];
      ReceiveIgnoresStates(build, st, s, t, before);
      HandleIgnoresStates(build, st, Receive(build, st, s, before), Receive(build, st, t, before), batch[|batch| - 1]);
    }
  }

  /** The dispatcher's arms never look at the session table. */
  lemma ApplyIgnoresSessions<W(!new)>(st: Settings<W>, s: State<W>, sessions: SessionTable, actor: Actor, c: Command)
    ensures var (a, ok) := ApplyCommand(st, s, actor, c);
      var (b, done) := ApplyCommand(st, s.(sessions := sessions), actor, c);
      ok == done && a.sessions == s.sessions && b == a.(sessions := sessions)
  {
    hide RequiredPermission;
  }

  lemma DispatchOneIgnoresStates<W(!new)>(st: Settings<W>, s: State<W>, t: State<W>, e: Envelope)
    requires AlikeButStates(s, t)
    ensures AlikeButStates(DispatchOne(st, s, e), DispatchOne(st, t, e))
  {
    hide Avatar, RoleOf, RoleCode, ApplyCommand;
    if e.session in s.sessions {
      var x := s.sessions[e.session];
      assert SameButState(x, t.sessions[e.session]);
      var (world, avatar) := Avatar(st, s.world, x.player, x.faction);
      var actor := Actor(e.session, x.player, x.faction, avatar, RoleCode(RoleOf(s.roles, e.session)));
      ApplyIgnoresSessions(st, s.(world := world, applied := s.applied + [e]), t.sessions, actor, e.command);
    }
  }

  lemma {:induction false} DispatchIgnoresStates<W(!new)>(st: Settings<W>, s: State<W>, t: State<W>, es: seq<Envelope>)
    requires AlikeButStates(s, t)
    ensures AlikeButStates(Dispatch(st, s, es), Dispatch(st, t, es))
  {
    hide DispatchOne, AlikeButStates;
    if es == [] {
    } else {
      DispatchIgnoresStates(st, s, t, es[..|es| - 1]);
      DispatchOneIgnoresStates(st, Dispatch(st, s, es[..|es| - 1]), Dispatch(st, t, es[..|es| - 1]), es[|es| - 1]);
    }
  }

  /**
   Whoever has left, the same batch fills the same buffer, and draining it applies the same
   commands to the same world with the same refusals: the session state decides nothing there.
   */
  lemma AcceptanceIgnoresState<W(!new)>(build: Build, st: Settings<W>, s: State<W>, t: State<W>, batch: seq<Inbound>)
    requires AlikeButStates(s, t)
    ensures var a, b := Receive(build, st, s, batch), Receive(build, st, t, batch);
      && AlikeButStates(a, b) && a.buffer == b.buffer
      && AlikeButStates(ApplyBuffered(st, a), ApplyBuffered(st, b))
      && ApplyBuffered(st, a).applied == ApplyBuffered(st, b).applied
      && ApplyBuffered(st, a).world == ApplyBuffered(st, b).world
  {
    hide Receive, Dispatch, Sorted;
    ReceiveIgnoresStates(build, st, s, t, batch);
    var a, b := Receive(build, st, s, batch), Receive(build, st, t, batch);
    DispatchIgnoresStates(st, a.(buffer := []), b.(buffer := []), Sorted(a.buffer));
  }

  // ---------------------------------------------------------------- what a tick applies

  lemma IngestBuffers<W(!new)>(build: Build, st: Settings<W>, s: State<W>, e: Envelope, source: Option<SocketAddr>)
    ensures var t := Ingest(build, st, s, e, source);
      && t.buffer == (if Passes(st, s, e, source) then s.buffer + [e] else s.buffer)
      && t.applied == s.applied
      && (Passes(st, s, e, source) ==> e.session in t.sessions)
  {
    hide Ingest, Entitled, Cleared;
    CommandEffect(build, st, s, e, source);
    CommandTouches(build, st, s, e, source);
  }

  /** The envelopes of a batch that are acceptable when their turn comes, in order. */
  ghost function Taken<W(!new)>(build: Build, st: Settings<W>, s: State<W>, batch: seq<Inbound>): seq<Envelope>
    decreases |batch|
  {
    if batch == [] then []
    else
      var before, last := batch[..|batch| - 1], batch[|batch| - 1];
      var taken := Taken(build, st, s, before);
      if && last.packet.payload.CommandPayload?
         && Passes(st, Receive(build, st, s, before), EnvelopeOf(last.packet.payload), last.source)
      then taken + [EnvelopeOf(last.packet.payload)] else taken
  }

  lemma IngestKeepsSessions<W(!new)>(build: Build, st: Settings<W>, s: State<W>, e: Envelope,
                                     source: Option<SocketAddr>)
    ensures s.sessions.Keys <= Ingest(build, st, s, e, source).sessions.Keys
  {
    hide Rule;
  }

  lemma HandleBuffers<W(!new)>(build: Build, st: Settings<W>, s: State<W>, i: Inbound)
    ensures var t := Handle(build, st, s, i);
      && t.applied == s.applied && s.sessions.Keys <= t.sessions.Keys
      && (!i.packet.payload.CommandPayload? ==> t.buffer == s.buffer)
  {
    hide Ingest, NewSession, TokenOf, WrappingAdd;
    if i.packet.payload.CommandPayload? {
      IngestBuffers(build, st, s, EnvelopeOf(i.packet.payload), i.source);
      IngestKeepsSessions(build, st, s, EnvelopeOf(i.packet.payload), i.source);
    }
  }

  /** Receiving a batch buffers exactly what is taken from it, and applies nothing. */
  lemma {:induction false} ReceiveBuffers<W(!new)>(build: Build, st: Settings<W>, s: State<W>, batch: seq<Inbound>)
    ensures var t := Receive(build, st, s, batch);
      && t.buffer == s.buffer + Taken(build, st, s, batch)
      && t.applied == s.applied && s.sessions.Keys <= t.sessions.Keys
      && forall e :: e in Taken(build, st, s, batch) ==> e.session in t.sessions
    decreases |batch|
  {
    hide Handle, Passes;
    if batch == [] {
    } else {
      var before, last := batch[..|batch| - 1], batch[|batch| - 1];
      ReceiveBuffers(build, st, s, before);
      var mid := Receive(build, st, s, before);
      HandleBuffers(build, st, mid, last);
      if last.packet.payload.CommandPayload? {
        CommandBuffersOne(build, st, mid, last);
      }
    }
  }

  lemma CommandBuffersOne<W(!new)>(build: Build, st: Settings<W>, s: State<W>, i: Inbound)
    requires i.packet.payload.CommandPayload?
    ensures var t, e := Handle(build, st, s, i), EnvelopeOf(i.packet.payload);
      && t.buffer == (if Passes(st, s, e, i.source) then s.buffer + [e] else s.buffer)
      && (Passes(st, s, e, i.source) ==> e.session in t.sessions)
  {
    hide Ingest, Passes;
    IngestBuffers(build, st, s, EnvelopeOf(i.packet.payload), i.source);
  }

  lemma DrainApplies<W(!new)>(st: Settings<W>, s: State<W>)
    requires forall e :: e in s.buffer ==> e.session in s.sessions
    ensures ApplyBuffered(st, s).applied == s.applied + Sorted(s.buffer) && ApplyBuffered(st, s).buffer == []
  {
    hide Dispatch, Sorted;
    SortedMembers(s.buffer);
    SessionSafety.DispatchRecords(st, s.(buffer := []), Sorted(s.buffer));
  }

  lemma AfterDrain<W(!new)>(build: Build, st: Settings<W>, s: State<W>)
    ensures var t := Broadcast(st, Expire(build, st, StepSystems(st, CarryOut(s))));
      t.applied == s.applied && t.buffer == s.buffer
  {
    hide Expires, Snapshots, ExecuteAll;
    DirectivesApplyNothing(s.(directives := []), s.directives);
  }

  lemma {:induction false} DirectivesApplyNothing<W(!new)>(s: State<W>, ds: seq<Directive>)
    ensures ExecuteAll(s, ds).applied == s.applied && ExecuteAll(s, ds).buffer == s.buffer
  {
    if ds == [] {
    } else {
      DirectivesApplyNothing(s, ds[..|ds| - 1]);
    }
  }

  /**
   What one tick applies, whatever its batch: exactly what was buffered already and what is taken
   from the batch, in session and sequence order. Who has left, before or within the batch, is no
   part of it.
   */
  lemma TickApplies<W(!new)>(build: Build, st: Settings<W>, s: State<W>, batch: seq<Inbound>)
    requires forall e :: e in s.buffer ==> e.session in s.sessions
    ensures var t := Tick(build, st, s, batch);
      t.applied == s.applied + Sorted(s.buffer + Taken(build, st, s, batch)) && t.buffer == []
  {
    hide Receive, Taken, ApplyBuffered, CarryOut, StepSystems, Expire, Broadcast, Sorted;
    ReceiveBuffers(build, st, s, batch);
    var t := Receive(build, st, s, batch);
    DrainApplies(st, t.(tick := t.tick + 1));
    AfterDrain(build, st, ApplyBuffered(st, t.(tick := t.tick + 1)));
  }

  /** Session `k` has a command applied in the tick exactly when one was buffered or is taken from the batch. */
  lemma NothingAppliedIff<W(!new)>(build: Build, st: Settings<W>, s: State<W>, batch: seq<Inbound>, k: nat)
    requires forall e :: e in s.buffer ==> e.session in s.sessions
    ensures var t := Tick(build, st, s, batch);
      && s.applied <= t.applied
      && ((forall e :: e in t.applied[|s.applied|..] ==> e.session != k) <==>
            forall e :: e in s.buffer + Taken(build, st, s, batch) ==> e.session != k)
  {
    hide Tick, Taken, Sorted;
    TickApplies(build, st, s, batch);
    SortedMembers(s.buffer + Taken(build, st, s, batch));
    assert Tick(build, st, s, batch).applied[|s.applied|..] == Sorted(s.buffer + Taken(build, st, s, batch));
  }

  /** In a state that a run can reach, each session's commands are applied in the order they were taken. */
  lemma SessionStreamApplied<W(!new)>(build: Build, st: Settings<W>, s: State<W>, batch: seq<Inbound>, k: nat)
    requires SessionSafety.Safe(st, s)
    ensures OfSession(Tick(build, st, s, batch).applied, k) ==
            OfSession(s.applied, k) + OfSession(s.buffer + Taken(build, st, s, batch), k)
  {
    hide Receive, Tick, Taken, Sorted, Rising, OfSession, SessionSafety.Admitted;
    var taken := s.buffer + Taken(build, st, s, batch);
    forall e | e in s.buffer ensures e.session in s.sessions {
      assert e in SessionSafety.Accepted(s);
      SessionSafety.AdmittedHasSession(st, s.sessions, e);
    }
    TickApplies(build, st, s, batch);
    ReceiveBuffers(build, st, s, batch);
    SessionSafety.ReceiveSafe(build, st, s, batch);
    assert Rising(OfSession(SessionSafety.Accepted(Receive(build, st, s, batch)), k));
    OfSessionConcat(s.applied, taken, k);
    OfSessionConcat(s.applied, Sorted(taken), k);
    SessionSafety.RisingTail(OfSession(s.applied, k), OfSession(taken, k));
    DrainKeepsRising(taken, k);
  }

  /** One command packet alone in its tick is applied exactly when it is acceptable. */
  lemma AppliedIff<W(!new)>(build: Build, st: Settings<W>, s: State<W>, i: Inbound)
    requires s.buffer == [] && i.packet.payload.CommandPayload?
    ensures var e := EnvelopeOf(i.packet.payload);
      Tick(build, st, s, [i]).applied == if Passes(st, s, e, i.source) then s.applied + [e] else s.applied
  {
    hide Passes, Tick;
    TickApplies(build, st, s, [i]);
    TakenAlone(build, st, s, i);
    assert Sorted([]) == [];
    SortedAlone(EnvelopeOf(i.packet.payload));
  }

  lemma SortedAlone(e: Envelope)
    ensures Sorted([e]) == [e]
  {
    assert [e][..0] == [];
  }

  lemma TakenAlone<W(!new)>(build: Build, st: Settings<W>, s: State<W>, i: Inbound)
    requires i.packet.payload.CommandPayload?
    ensures var e := EnvelopeOf(i.packet.payload);
      Taken(build, st, s, [i]) == if Passes(st, s, e, i.source) then [e] else []
  {
    hide Passes;
    assert [i][..0] == [];
  }

  // ---------------------------------------------------------------- whole runs

  /** What the batches of a run give to the simulation, tick after tick. */
  ghost function Log<W(!new)>(build: Build, st: Settings<W>, s: State<W>, events: seq<Event>): seq<Envelope> {
    if events == [] then []
    else
      var before, last := events[..|events| - 1], events[|events| - 1];
      Log(build, st, s, before) +
      if last.Batch? then Sorted(Taken(build, st, Run(build, st, s, before), last.packets)) else []
  }

  /** Over every run from an empty buffer exactly the acceptable commands are applied, each in its own tick. */
  lemma {:induction false} RunApplies<W(!new)>(build: Build, st: Settings<W>, s: State<W>, events: seq<Event>)
    requires s.buffer == []
    ensures var t := Run(build, st, s, events); t.buffer == [] && t.applied == s.applied + Log(build, st, s, events)
  {
    hide Tick, Taken, Sorted;
    if events == [] {
    } else {
      var before, last := events[..|events| - 1], events[|events| - 1];
      RunApplies(build, st, s, before);
      if last.Batch? {
        var mid := Run(build, st, s, before);
        TickApplies(build, st, mid, last.packets);
        assert mid.buffer + Taken(build, st, mid, last.packets) == Taken(build, st, mid, last.packets);
      }
    }
  }

  // ---------------------------------------------------------------- a departed session is obeyed

  /** A command and a goodbye in one batch: the session has left, and its command is applied in the same tick. */
  lemma LastOrderIsObeyed<W(!new)>(build: Build, st: Settings<W>, s: State<W>, i: Inbound, k: u64)
    requires s.buffer == [] && i.packet.payload.CommandPayload? && i.packet.payload.session == k
    requires Passes(st, s, EnvelopeOf(i.packet.payload), i.source)
    ensures var r := Receive(build, st, s, [i, Goodbye(k)]);
      k in r.sessions && r.sessions[k].state == SessionState.Disconnected
    ensures Tick(build, st, s, [i, Goodbye(k)]).applied == s.applied + [EnvelopeOf(i.packet.payload)]
  {
    hide Passes, Tick, Ingest;
    var e := EnvelopeOf(i.packet.payload);
    assert [i, Goodbye(k)][..1] == [i];
    ReceiveOne(build, st, s, i);
    CommandBuffersOne(build, st, s, i);
    TakenAlone(build, st, s, i);
    TickApplies(build, st, s, [i, Goodbye(k)]);
    assert Taken(build, st, s, [i, Goodbye(k)]) == [e];
    SortedAlone(e);
  }

  /** A client connects, says goodbye, and then sends one command. */
  function LastWordRun(tokenState: u64, c: Command): seq<Event> {
    [Batch([Hello(), Goodbye(1)]), Batch([Order(1, 1, FirstToken(tokenState), c)])]
  }

  /** "Nothing of a session is applied after it has left" is false of both servers. */
  lemma DepartedIsObeyed<W(!new)>(build: Build, st: Settings<W>, world: W, tokenState: u64, c: Command)
    requires !RequiresManifest(st.policy)
    requires !c.SubmitClientManifest? && RequiredPermission(c).None?
    ensures var s, events := Initial(world, tokenState), LastWordRun(tokenState, c);
      var left, after := Run(build, st, s, events[..1]), Run(build, st, s, events);
      && 1 in left.sessions && left.sessions[1].state == SessionState.Disconnected && left.applied == []
      && after.applied == [Envelope(1, 1, 0, FirstToken(tokenState), c)]
  {
    hide Tick, FirstToken, Run;
    var s := Initial(world, tokenState);
    var a, b := Batch([Hello(), Goodbye(1)]), Batch([Order(1, 1, FirstToken(tokenState), c)]);
    FirstEvents(build, st, s, a, b, b);
    OneMore(build, st, s, [], a);
    assert [] + [a] == [a] == LastWordRun(tokenState, c)[..1];
    NothingYet(build, st, s);
    HelloAndGoodbye(build, st, world, tokenState);
    AppliedIff(build, st, Tick(build, st, s, a.packets), b.packets[0]);
  }
}
