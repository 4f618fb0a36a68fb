/** What holds of every session and every applied command over every run of either server. */
module SessionSafety {
  import opened Words
  import opened Wrappers
  import opened Bytes
  import opened Manifests
  import opened Protocol
  import opened Sessions
  import opened CommandBuffers
  import opened AdminRoles
  import opened Tokens
  import opened ServerSteps

  // ---------------------------------------------------------------- the invariant

  /** Sessions are filed under their own number, below the next one. */
  ghost predicate WellFiled<W(!new)>(s: State<W>) {
    && 1 <= s.nextSessionId
    && forall id :: id in s.sessions ==>
      && 1 <= id < s.nextSessionId
      && s.sessions[id].id == id
      && s.sessions[id].player == id % 0x1_0000_0000
      && s.sessions[id].faction <= DEFAULT_SESSION_FACTION
      && s.sessions[id].token != 0
  }

  /** An envelope that was let through: authentic for its session, within its bound, past the manifest gate. */
  ghost predicate Admitted<W(!new)>(st: Settings<W>, sessions: SessionTable, e: Envelope) {
    && e.session in sessions
    && e.token == sessions[e.session].token
    && 1 <= e.sequence <= sessions[e.session].lastSequence
    && !e.command.SubmitClientManifest?
    && (RequiresManifest(st.policy) ==> sessions[e.session].manifestVerified)
  }

  /** Everything let through so far, in the order in which each session's part will be applied. */
  ghost function Accepted<W(!new)>(s: State<W>): seq<Envelope> {
    s.applied + s.buffer
  }

  ghost predicate Safe<W(!new)>(st: Settings<W>, s: State<W>) {
    && WellFiled(s)
    && (forall e :: e in Accepted(s) ==> Admitted(st, s.sessions, e))
    && (forall k :: Rising(OfSession(Accepted(s), k)))
  }

  /** Every session of `a` is still there in `b`, further along. */
  ghost predicate Onward(a: SessionTable, b: SessionTable) {
    forall id :: id in a ==> id in b && Progresses(a[id], b[id])
  }

  lemma OnwardTrans(a: SessionTable, b: SessionTable, c: SessionTable)
    requires Onward(a, b) && Onward(b, c)
    ensures Onward(a, c)
  {
  }

  lemma AdmittedOnward<W(!new)>(st: Settings<W>, a: SessionTable, b: SessionTable, e: Envelope)
    requires Admitted(st, a, e) && Onward(a, b)
    ensures Admitted(st, b, e)
  {
  }

  /** A step that lets nothing new through keeps the accepted list safe as sessions move on. */
  lemma SameAcceptedSafe<W(!new)>(st: Settings<W>, s: State<W>, t: State<W>)
    requires Safe(st, s) && WellFiled(t) && Onward(s.sessions, t.sessions)
    requires Accepted(t) == Accepted(s)
    ensures Safe(st, t)
  {
    hide WellFiled, Onward, Admitted;
    forall e | e in Accepted(t) ensures Admitted(st, t.sessions, e) {
      AdmittedOnward(st, s.sessions, t.sessions, e);
    }
  }

  // ---------------------------------------------------------------- ingress

  /** What a ruling does to its session: it moves on, and a buffered envelope has raised the bound. */
  lemma RulingMovesOn<W(!new)>(build: Build, st: Settings<W>, tick: nat, x: Session, role: Role, e: Envelope,
                               source: Option<SocketAddr>)
    ensures var r := Rule(build, st, tick, Some(x), role, e, source);
      && r.session.Some? && Progresses(x, r.session.value)
      && (r.buffered ==>
            && e.token == x.token
            && x.lastSequence < e.sequence == r.session.value.lastSequence
            && !e.command.SubmitClientManifest?
            && (RequiresManifest(st.policy) ==> r.session.value.manifestVerified))
  {
  }

  lemma NoSessionNoBuffering<W(!new)>(build: Build, st: Settings<W>, tick: nat, role: Role, e: Envelope,
                                      source: Option<SocketAddr>)
    ensures var r := Rule(build, st, tick, None, role, e, source); r.session.None? && !r.buffered
  {
  }

  lemma EnforceOnward<W(!new)>(s: State<W>, e: Envelope, r: Ruling)
    requires WellFiled(s)
    requires r.session.Some? ==> e.session in s.sessions && Progresses(s.sessions[e.session], r.session.value)
    ensures WellFiled(Enforce(s, e, r))
    ensures Onward(s.sessions, Enforce(s, e, r).sessions)
  {
  }

  lemma RisingSnoc(es: seq<Envelope>, e: Envelope)
    requires Rising(es)
    requires forall d :: d in es ==> d.sequence < e.sequence
    ensures Rising(es + [e])
  {
  }

  lemma AcceptOne<W(!new)>(st: Settings<W>, s: State<W>, t: State<W>, e: Envelope)
    requires Safe(st, s) && WellFiled(t) && Onward(s.sessions, t.sessions)
    requires Accepted(t) == Accepted(s) + [e]
    requires e.session in s.sessions && s.sessions[e.session].lastSequence < e.sequence
    requires Admitted(st, t.sessions, e)
    ensures Safe(st, t)
  {
    hide WellFiled, Onward;
    forall d | d in Accepted(t) ensures Admitted(st, t.sessions, d) {
      if d in Accepted(s) {
        AdmittedOnward(st, s.sessions, t.sessions, d);
      }
    }
    forall k ensures Rising(OfSession(Accepted(t), k)) {
      OfSessionConcat(Accepted(s), [e], k);
      OfSessionMembers(Accepted(s), k);
      if k == e.session {
        RisingSnoc(OfSession(Accepted(s), k), e);
      }
    }
  }

  lemma IngestSafe<W(!new)>(build: Build, st: Settings<W>, s: State<W>, e: Envelope, source: Option<SocketAddr>)
    requires Safe(st, s)
    ensures Safe(st, Ingest(build, st, s, e, source))
    ensures Onward(s.sessions, Ingest(build, st, s, e, source).sessions)
  {
    hide Rule, Safe, WellFiled, Onward;
    var r, t := RuleFor(build, st, s, e, source), Ingest(build, st, s, e, source);
    assert WellFiled(s) by { SafeMeans(st, s); }
    var role := RoleOf(s.roles, e.session);
    if e.session in s.sessions {
      RulingMovesOn(build, st, s.tick, s.sessions[e.session], role, e, source);
    } else {
      NoSessionNoBuffering(build, st, s.tick, role, e, source);
    }
    EnforceOnward(s, e, r);
    if r.buffered {
      assert Accepted(t) == Accepted(s) + [e];
      AcceptOne(st, s, t, e);
    } else {
      SameAcceptedSafe(st, s, t);
    }
  }

  lemma SafeMeans<W(!new)>(st: Settings<W>, s: State<W>)
    requires Safe(st, s)
    ensures WellFiled(s)
  {
  }

  lemma SelfOnward(a: SessionTable)
    ensures Onward(a, a)
  {
  }

  lemma ConnectSafe<W(!new)>(st: Settings<W>, s: State<W>, version: u32, name: Text, source: Option<SocketAddr>)
    requires Safe(st, s)
    ensures Safe(st, Connect(st, s, version, name, source))
    ensures Onward(s.sessions, Connect(st, s, version, name, source).sessions)
  {
    hide TokenOf, Spectates, Admitted, Rising, OfSession;
    var t := Connect(st, s, version, name, source);
    TokenNotZero(WrappingAdd(s.tokenState, GAMMA));
    assert WellFiled(t);
    SameAcceptedSafe(st, s, t);
  }

  lemma TokenNotZero(state: u64)
    ensures TokenOf(state) != 0
  {
    hide Mix;
  }

  lemma DisconnectSafe<W(!new)>(st: Settings<W>, s: State<W>, id: nat)
    requires Safe(st, s)
    ensures Safe(st, ServerSteps.Disconnect(s, id))
    ensures Onward(s.sessions, ServerSteps.Disconnect(s, id).sessions)
  {
    hide Admitted, Rising, OfSession;
    SameAcceptedSafe(st, s, ServerSteps.Disconnect(s, id));
  }

  lemma PingSafe<W(!new)>(st: Settings<W>, s: State<W>, session: u64, timestamp: u64)
    requires Safe(st, s)
    ensures Safe(st, Ping(s, session, timestamp))
    ensures Onward(s.sessions, Ping(s, session, timestamp).sessions)
  {
    hide Admitted, Rising, OfSession;
    SameAcceptedSafe(st, s, Ping(s, session, timestamp));
  }

  lemma HandleSafe<W(!new)>(build: Build, st: Settings<W>, s: State<W>, i: Inbound)
    requires Safe(st, s)
    ensures Safe(st, Handle(build, st, s, i))
    ensures Onward(s.sessions, Handle(build, st, s, i).sessions)
  {
    hide Safe, Onward, Ingest, Connect, ServerSteps.Disconnect, Ping;
    SelfOnward(s.sessions);
    match i.packet.payload {
      case HandshakePayload(m) =>
        match m {
          case ClientHello(version, name) => ConnectSafe(st, s, version, name, i.source);
          case Disconnect(session, _) => DisconnectSafe(st, s, session);
          case ServerHello(_, _, _, _, _) =>
        }
      case CommandPayload(_, _, _, _, _) => IngestSafe(build, st, s, EnvelopeOf(i.packet.payload), i.source);
      case PingPayload(timestamp) => PingSafe(st, s, i.packet.header.session, timestamp);
      case _ =>
    }
  }

  lemma {:induction false} ReceiveSafe<W(!new)>(build: Build, st: Settings<W>, s: State<W>, batch: seq<Inbound>)
    requires Safe(st, s)
    ensures Safe(st, Receive(build, st, s, batch))
    ensures Onward(s.sessions, Receive(build, st, s, batch).sessions)
    decreases |batch|
  {
    hide Safe, Onward, Handle;
    SelfOnward(s.sessions);
    if batch == [] {
    } else {
      var before := batch[..|batch| - 1];
      ReceiveSafe(build, st, s, before);
      var mid := Receive(build, st, s, before);
      HandleSafe(build, st, mid, batch[|batch| - 1]);
      OnwardTrans(s.sessions, mid.sessions, Handle(build, st, mid, batch[|batch| - 1]).sessions);
    }
  }

  // ---------------------------------------------------------------- dispatch

  lemma ApplyLeavesSessions<W(!new)>(st: Settings<W>, s: State<W>, actor: Actor, c: Command)
    ensures var t := ApplyCommand(st, s, actor, c).0;
      && t.sessions == s.sessions && t.applied == s.applied && t.buffer == s.buffer
      && t.nextSessionId == s.nextSessionId
  {
    hide RequiredPermission;
  }

  lemma DispatchOneRecords<W(!new)>(st: Settings<W>, s: State<W>, e: Envelope)
    requires e.session in s.sessions
    ensures var t := DispatchOne(st, s, e);
      && t.sessions == s.sessions && t.applied == s.applied + [e] && t.buffer == s.buffer
      && t.nextSessionId == s.nextSessionId
  {
    hide ApplyCommand, Avatar, RoleOf, RoleCode;
    var x := s.sessions[e.session];
    var (world, avatar) := Avatar(st, s.world, x.player, x.faction);
    var actor := Actor(e.session, x.player, x.faction, avatar, RoleCode(RoleOf(s.roles, e.session)));
    ApplyLeavesSessions(st, s.(world := world, applied := s.applied + [e]), actor, e.command);
  }

  /** Every drained envelope of a live session is handed over, once and in order. */
  lemma {:induction false} DispatchRecords<W(!new)>(st: Settings<W>, s: State<W>, es: seq<Envelope>)
    requires forall e :: e in es ==> e.session in s.sessions
    ensures var t := Dispatch(st, s, es);
      && t.sessions == s.sessions && t.applied == s.applied + es && t.buffer == s.buffer
      && t.nextSessionId == s.nextSessionId
  {
    hide DispatchOne;
    if es == [] {
    } else {
      var before := es[..|es| - 1];
      DispatchRecords(st, s, before);
      DispatchOneRecords(st, Dispatch(st, s, before), es[|es| - 1]);
      assert s.applied + before + [es[|es| - 1]] == s.applied + es;
    }
  }

  lemma RisingTail(a: seq<Envelope>, b: seq<Envelope>)
    requires Rising(a + b)
    ensures Rising(b)
  {
    forall i, j | 0 <= i < j < |b| ensures b[i].sequence < b[j].sequence {
      assert b[i] == (a + b)[|a| + i] && b[j] == (a + b)[|a| + j];
    }
  }

  lemma DrainSafe<W(!new)>(st: Settings<W>, s: State<W>)
    requires Safe(st, s)
    ensures ApplyBuffered(st, s).applied == s.applied + Sorted(s.buffer)
    ensures Safe(st, ApplyBuffered(st, s))
    ensures ApplyBuffered(st, s).sessions == s.sessions && ApplyBuffered(st, s).buffer == []
  {
    hide Admitted, Dispatch, Rising, Sorted, OfSession;
    SortedMembers(s.buffer);
    forall e | e in Sorted(s.buffer) ensures e.session in s.sessions {
      assert e in Accepted(s);
      AdmittedHasSession(st, s.sessions, e);
    }
    DispatchRecords(st, s.(buffer := []), Sorted(s.buffer));
    var t := ApplyBuffered(st, s);
    assert Accepted(t) == s.applied + Sorted(s.buffer);
    forall k ensures Rising(OfSession(Accepted(t), k)) {
      OfSessionConcat(s.applied, s.buffer, k);
      OfSessionConcat(s.applied, Sorted(s.buffer), k);
      assert Rising(OfSession(Accepted(s), k));
      RisingTail(OfSession(s.applied, k), OfSession(s.buffer, k));
      DrainKeepsRising(s.buffer, k);
    }
  }

  lemma AdmittedHasSession<W(!new)>(st: Settings<W>, sessions: SessionTable, e: Envelope)
    requires Admitted(st, sessions, e)
    ensures e.session in sessions
  {
  }

  // ---------------------------------------------------------------- the rest of the tick

  lemma {:induction false} ExecuteSafe<W(!new)>(st: Settings<W>, s: State<W>, ds: seq<Directive>)
    requires Safe(st, s)
    ensures Safe(st, ExecuteAll(s, ds))
    ensures Onward(s.sessions, ExecuteAll(s, ds).sessions)
  {
    hide Safe, Onward, ServerSteps.Disconnect;
    SelfOnward(s.sessions);
    if ds == [] {
    } else {
      var d, mid := ds[|ds| - 1], ExecuteAll(s, ds[..|ds| - 1]);
      ExecuteSafe(st, s, ds[..|ds| - 1]);
      SelfOnward(mid.sessions);
      match d {
        case KickSession(target, _) => DisconnectSafe(st, mid, target);
        case SetTrustLevel(_, _) =>
        case SetSessionRole(_, _) => RolesSafe(st, mid, Execute(mid, d).roles);
      }
      OnwardTrans(s.sessions, mid.sessions, Execute(mid, d).sessions);
    }
  }

  lemma RolesSafe<W(!new)>(st: Settings<W>, s: State<W>, roles: RoleTable)
    requires Safe(st, s)
    ensures Safe(st, s.(roles := roles))
  {
    hide Admitted, Rising, OfSession;
    SameAcceptedSafe(st, s, s.(roles := roles));
  }

  lemma DirectivesSafe<W(!new)>(st: Settings<W>, s: State<W>)
    requires Safe(st, s)
    ensures Safe(st, s.(directives := []))
  {
    hide Admitted, Rising, OfSession;
    SameAcceptedSafe(st, s, s.(directives := []));
  }

  lemma StartSafe<W(!new)>(st: Settings<W>, s: State<W>)
    requires Safe(st, s)
    ensures Safe(st, s.(tick := s.tick + 1))
    ensures Safe(st, StepSystems(st, s))
  {
    hide Admitted, Rising, OfSession;
    SameAcceptedSafe(st, s, s.(tick := s.tick + 1));
    SameAcceptedSafe(st, s, StepSystems(st, s));
  }

  lemma ExpireSafe<W(!new)>(build: Build, st: Settings<W>, s: State<W>)
    requires Safe(st, s)
    ensures Safe(st, Expire(build, st, s))
    ensures Onward(s.sessions, Expire(build, st, s).sessions)
  {
    hide Admitted, Rising, OfSession;
    SameAcceptedSafe(st, s, Expire(build, st, s));
  }

  lemma BroadcastSafe<W(!new)>(st: Settings<W>, s: State<W>)
    requires Safe(st, s)
    ensures Safe(st, Broadcast(st, s))
    ensures Broadcast(st, s).sessions == s.sessions
  {
    hide Snapshots, Admitted, Rising, OfSession;
    SameAcceptedSafe(st, s, Broadcast(st, s));
  }

  lemma AdvanceSafe<W(!new)>(build: Build, st: Settings<W>, s: State<W>)
    requires Safe(st, s)
    ensures Safe(st, ServerSteps.Advance(build, st, s))
    ensures Onward(s.sessions, ServerSteps.Advance(build, st, s).sessions)
  {
    hide Safe, Onward, ApplyBuffered, ExecuteAll, Expire, Broadcast;
    var t := s.(tick := s.tick + 1);
    StartSafe(st, s);
    DrainSafe(st, t);
    var u := ApplyBuffered(st, t);
    DirectivesSafe(st, u);
    ExecuteSafe(st, u.(directives := []), u.directives);
    var v := CarryOut(u);
    StartSafe(st, v);
    var w := StepSystems(st, v);
    ExpireSafe(build, st, w);
    BroadcastSafe(st, Expire(build, st, w));
    OnwardTrans(s.sessions, w.sessions, Expire(build, st, w).sessions);
  }

  lemma OccurSafe<W(!new)>(build: Build, st: Settings<W>, s: State<W>, event: Event)
    requires Safe(st, s)
    ensures Safe(st, Occur(build, st, s, event))
    ensures Onward(s.sessions, Occur(build, st, s, event).sessions)
  {
    hide Safe, Onward, Receive, ServerSteps.Advance;
    match event {
      case Batch(packets) =>
        var t := Receive(build, st, s, packets);
        ReceiveSafe(build, st, s, packets);
        AdvanceSafe(build, st, t);
        OnwardTrans(s.sessions, t.sessions, ServerSteps.Advance(build, st, t).sessions);
      case Grant(session, role) =>
        RolesSafe(st, s, WithRole(s.roles, session, role));
        SelfOnward(s.sessions);
    }
  }

  /** The invariant holds after every run, and no session is ever lost or set back. */
  lemma {:induction false} RunSafe<W(!new)>(build: Build, st: Settings<W>, s: State<W>, events: seq<Event>)
    requires Safe(st, s)
    ensures Safe(st, Run(build, st, s, events))
    ensures Onward(s.sessions, Run(build, st, s, events).sessions)
  {
    hide Safe, Onward, Occur;
    if events == [] {
      SelfOnward(s.sessions);
    } else {
      var t := Run(build, st, s, events[..|events| - 1]);
      RunSafe(build, st, s, events[..|events| - 1]);
      OccurSafe(build, st, t, events[|events| - 1]);
      OnwardTrans(s.sessions, t.sessions, Run(build, st, s, events).sessions);
    }
  }

  lemma InitialSafe<W(!new)>(st: Settings<W>, world: W, tokenState: u64)
    ensures Safe(st, Initial(world, tokenState))
  {
  }

  // ---------------------------------------------------------------- manifest policies

  /**
   The policies form a chain: what an official server accepts, a private one without a pinned
   manifest accepts, and a local one accepts everything. Pinning adds exactly the hash, and an
   official server accepts exactly the official manifest with its own build, protocol and content.
   */
  lemma PoliciesFormAChain<W(!new)>(st: Settings<W>, m: Manifest, pinned: u64)
    ensures ManifestAccepted(st.(policy := Official), m) ==>
              ManifestAccepted(st.(policy := PrivateCustom(None)), m)
    ensures ManifestAccepted(st.(policy := PrivateCustom(None)), m) ==> ManifestAccepted(st.(policy := LocalDev), m)
    ensures ManifestAccepted(st.(policy := PrivateCustom(Some(pinned))), m) <==>
              ManifestAccepted(st.(policy := PrivateCustom(None)), m) && st.manifestHash(m) == pinned
    ensures ManifestAccepted(st.(policy := Official), m) <==> m == st.manifest.(official := true)
  {
  }

  // ---------------------------------------------------------------- what a run never does

  /**
   From start-up on, whatever arrives and whoever is granted a role: the numbers applied for one
   session strictly rise, so no envelope is applied twice; every applied command bore its
   session's own token and, on an
   official server, came from a client whose manifest was accepted.
   */
  lemma AppliedStreams<W(!new)>(build: Build, st: Settings<W>, world: W, tokenState: u64, events: seq<Event>)
    ensures var s := Run(build, st, Initial(world, tokenState), events);
      && (forall i, j :: 0 <= i < j < |s.applied| && s.applied[i].session == s.applied[j].session ==>
            s.applied[i].sequence < s.applied[j].sequence)
      && (forall e :: e in s.applied ==> Admitted(st, s.sessions, e))
  {
    hide Run, Admitted, Initial, OfSession;
    InitialSafe(st, world, tokenState);
    RunSafe(build, st, Initial(world, tokenState), events);
    var s := Run(build, st, Initial(world, tokenState), events);
    forall i, j | 0 <= i < j < |s.applied| && s.applied[i].session == s.applied[j].session
      ensures s.applied[i].sequence < s.applied[j].sequence
    {
      var k := s.applied[i].session;
      OfSessionConcat(s.applied, s.buffer, k);
      assert Rising(OfSession(Accepted(s), k));
      RisingHead(OfSession(s.applied, k), OfSession(s.buffer, k));
      RisingByIndex(s.applied, k, i, j);
    }
    forall e | e in s.applied ensures Admitted(st, s.sessions, e) {
      assert e in Accepted(s);
    }
  }

  lemma RisingHead(a: seq<Envelope>, b: seq<Envelope>)
    requires Rising(a + b)
    ensures Rising(a)
  {
    forall i, j | 0 <= i < j < |a| ensures a[i].sequence < a[j].sequence {
      assert a[i] == (a + b)[i] && a[j] == (a + b)[j];
    }
  }

  lemma {:induction false} RisingByIndex(es: seq<Envelope>, k: nat, i: nat, j: nat)
    requires Rising(OfSession(es, k))
    requires i < j < |es| && es[i].session == k && es[j].session == k
    ensures es[i].sequence < es[j].sequence
  {
    var rest := OfSession(es[1..], k);
    if es[0].session == k {
      RisingTail([es[0]], rest);
    }
    if i > 0 {
      RisingByIndex(es[1..], k, i - 1, j - 1);
    } else {
      OfSessionMembers(es[1..], k);
      assert es[j] == es[1..][j - 1];
      var m :| 0 <= m < |rest| && rest[m] == es[j];
      assert ([es[0]] + rest)[m + 1] == es[j];
      assert ([es[0]] + rest)[0] == es[0];
    }
  }
}
