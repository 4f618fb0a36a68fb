/** The two servers keep in lock step, and exactly when their handlers part. */
module LockStep {
  import opened Words
  import opened Wrappers
  import opened Protocol
  import opened Sessions
  import opened CommandBuffers
  import opened AdminRoles
  import opened ServerSteps
  import opened Gates

  /** No role has been granted, so nothing privileged is waiting either. */
  ghost predicate Unprivileged<W(!new)>(s: State<W>) {
    && s.roles == map[]
    && s.directives == []
    && forall e :: e in s.buffer ==> RequiredPermission(e.command).None?
  }

  // ---------------------------------------------------------------- where the builds differ

  /** An authentic, fresh manifest submission that the policy turns down. */
  ghost predicate RefusedManifest<W(!new)>(st: Settings<W>, s: State<W>, e: Envelope, source: Option<SocketAddr>) {
    Current(s, e, source) && e.command.SubmitClientManifest? && !Trusts(st, Submitted(e.command))
  }

  lemma RulingsAgree<W(!new)>(st: Settings<W>, s: State<W>, e: Envelope, source: Option<SocketAddr>)
    ensures var a, b := RuleFor(SingleThreaded, st, s, e, source), RuleFor(Threaded, st, s, e, source);
      b == a.(keepsRole := true) && (a.keepsRole <==> !RefusedManifest(st, s, e, source))
  {
  }

  lemma IngestAgreesIff<W(!new)>(st: Settings<W>, s: State<W>, e: Envelope, source: Option<SocketAddr>)
    ensures Ingest(SingleThreaded, st, s, e, source) == Ingest(Threaded, st, s, e, source) <==>
            !(RefusedManifest(st, s, e, source) && e.session in s.roles)
  {
    RulingsAgree(st, s, e, source);
    hide RuleFor, RefusedManifest;
    if e.session !in s.roles {
      assert s.roles - {e.session} == s.roles;
    }
  }

  /** Not a role holder's refused manifest. */
  ghost predicate Agreeable<W(!new)>(st: Settings<W>, s: State<W>, i: Inbound) {
    i.packet.payload.CommandPayload? && i.packet.payload.session in s.roles ==>
      !RefusedManifest(st, s, EnvelopeOf(i.packet.payload), i.source)
  }

  /** On one packet the two servers part exactly when a role holder's manifest is refused. */
  lemma HandlersAgreeIff<W(!new)>(st: Settings<W>, s: State<W>, i: Inbound)
    ensures Handle(SingleThreaded, st, s, i) == Handle(Threaded, st, s, i) <==> Agreeable(st, s, i)
  {
    hide Ingest, RefusedManifest;
    if i.packet.payload.CommandPayload? {
      IngestAgreesIff(st, s, EnvelopeOf(i.packet.payload), i.source);
    }
  }

  /** No session that had left comes to the sweep with a role. */
  ghost predicate Settled<W(!new)>(st: Settings<W>, s: State<W>) {
    forall id :: Late(st, s, id) && id in s.roles ==> s.sessions[id].state != SessionState.Disconnected
  }

  /** The timeout sweeps part exactly when a session that had left already still holds a role. */
  lemma ExpiryAgreesIff<W(!new)>(st: Settings<W>, s: State<W>)
    ensures Expire(SingleThreaded, st, s) == Expire(Threaded, st, s) <==> Settled(st, s)
  {
    var a, b := Expire(SingleThreaded, st, s), Expire(Threaded, st, s);
    assert a.sessions == b.sessions;
    assert forall id :: id in a.roles <==>
             id in s.roles && !(id in s.sessions && Expires(SingleThreaded, s.sessions[id], s.tick, st.timeout));
    assert forall id :: id in b.roles <==>
             id in s.roles && !(id in s.sessions && Expires(Threaded, s.sessions[id], s.tick, st.timeout));
    if a.roles.Keys == b.roles.Keys {
      assert a.roles == b.roles;
    }
  }

  // ---------------------------------------------------------------- privilege never appears

  lemma HandleUnprivileged<W(!new)>(build: Build, st: Settings<W>, s: State<W>, i: Inbound)
    requires Unprivileged(s)
    ensures Unprivileged(Handle(build, st, s, i))
  {
  }

  lemma {:induction false} ReceiveUnprivileged<W(!new)>(build: Build, st: Settings<W>, s: State<W>, batch: seq<Inbound>)
    requires Unprivileged(s)
    ensures Unprivileged(Receive(build, st, s, batch))
    decreases |batch|
  {
    hide Handle, Unprivileged;
    if batch == [] {
    } else {
      ReceiveUnprivileged(build, st, s, batch[..|batch| - 1]);
      HandleUnprivileged(build, st, Receive(build, st, s, batch[..|batch| - 1]), batch[|batch| - 1]);
    }
  }

  lemma DispatchOneUnprivileged<W(!new)>(st: Settings<W>, s: State<W>, e: Envelope)
    requires Unprivileged(s) && s.buffer == [] && RequiredPermission(e.command).None?
    ensures Unprivileged(DispatchOne(st, s, e)) && DispatchOne(st, s, e).buffer == []
  {
  }

  lemma {:induction false} DispatchUnprivileged<W(!new)>(st: Settings<W>, s: State<W>, es: seq<Envelope>)
    requires Unprivileged(s) && s.buffer == []
    requires forall e :: e in es ==> RequiredPermission(e.command).None?
    ensures Unprivileged(Dispatch(st, s, es)) && Dispatch(st, s, es).buffer == []
  {
    hide DispatchOne, Unprivileged, RequiredPermission;
    if es == [] {
    } else {
      DispatchUnprivileged(st, s, es[..|es| - 1]);
      DispatchOneUnprivileged(st, Dispatch(st, s, es[..|es| - 1]), es[|es| - 1]);
    }
  }

  /** With no directive to carry out, a tick is drain, step, expire and broadcast. */
  lemma QuietTick<W(!new)>(st: Settings<W>, s: State<W>)
    requires Unprivileged(s)
    ensures Unprivileged(ApplyBuffered(st, s))
    ensures CarryOut(ApplyBuffered(st, s)) == ApplyBuffered(st, s)
  {
    SortedMembers(s.buffer);
    DispatchUnprivileged(st, s.(buffer := []), Sorted(s.buffer));
  }

  lemma ExpireUnprivileged<W(!new)>(st: Settings<W>, s: State<W>)
    requires Unprivileged(s)
    ensures Expire(SingleThreaded, st, s) == Expire(Threaded, st, s)
    ensures Unprivileged(Expire(Threaded, st, s))
  {
    ExpiryAgreesIff(st, s);
  }

  lemma BroadcastUnprivileged<W(!new)>(st: Settings<W>, s: State<W>)
    requires Unprivileged(s)
    ensures Unprivileged(Broadcast(st, s))
  {
    hide Snapshots;
  }

  lemma StartUnprivileged<W(!new)>(st: Settings<W>, s: State<W>)
    requires Unprivileged(s)
    ensures Unprivileged(s.(tick := s.tick + 1)) && Unprivileged(StepSystems(st, s))
  {
  }

  /** The builds advance an unprivileged state to one and the same unprivileged state. */
  lemma AdvanceAgrees<W(!new)>(st: Settings<W>, s: State<W>)
    requires Unprivileged(s)
    ensures Advance(SingleThreaded, st, s) == Advance(Threaded, st, s)
    ensures Unprivileged(Advance(SingleThreaded, st, s))
  {
    hide Unprivileged, ApplyBuffered, CarryOut, Expire, Broadcast, StepSystems;
    var t := s.(tick := s.tick + 1);
    StartUnprivileged(st, s);
    QuietTick(st, t);
    StartUnprivileged(st, ApplyBuffered(st, t));
    ExpireUnprivileged(st, StepSystems(st, ApplyBuffered(st, t)));
    BroadcastUnprivileged(st, Expire(Threaded, st, StepSystems(st, ApplyBuffered(st, t))));
  }

  lemma {:induction false} ReceiveAgrees<W(!new)>(st: Settings<W>, s: State<W>, batch: seq<Inbound>)
    requires Unprivileged(s)
    ensures Receive(SingleThreaded, st, s, batch) == Receive(Threaded, st, s, batch)
    decreases |batch|
  {
    hide Handle;
    if batch == [] {
    } else {
      var before := batch[..|batch| - 1];
      ReceiveAgrees(st, s, before);
      ReceiveUnprivileged(SingleThreaded, st, s, before);
      HandlersAgreeIff(st, Receive(SingleThreaded, st, s, before), batch[|batch| - 1]);
    }
  }

  lemma TickAgrees<W(!new)>(st: Settings<W>, s: State<W>, batch: seq<Inbound>)
    requires Unprivileged(s)
    ensures Tick(SingleThreaded, st, s, batch) == Tick(Threaded, st, s, batch)
    ensures Unprivileged(Tick(SingleThreaded, st, s, batch))
  {
    hide Advance, Receive, Unprivileged;
    ReceiveAgrees(st, s, batch);
    ReceiveUnprivileged(SingleThreaded, st, s, batch);
    AdvanceAgrees(st, Receive(SingleThreaded, st, s, batch));
  }

  // ---------------------------------------------------------------- lock step over runs

  /** The state of a tick as the timeout sweep finds it. */
  function BeforeSweep<W>(build: Build, st: Settings<W>, s: State<W>, packets: seq<Inbound>): State<W> {
    var t := Receive(build, st, s, packets);
    StepSystems(st, CarryOut(ApplyBuffered(st, t.(tick := t.tick + 1))))
  }

  /** Nothing in the event makes the builds part: neither a packet nor the sweep. */
  ghost predicate Harmless<W(!new)>(st: Settings<W>, s: State<W>, event: Event) {
    event.Batch? ==>
      && (forall n :: 0 <= n < |event.packets| ==>
            Agreeable(st, Receive(SingleThreaded, st, s, event.packets[..n]), event.packets[n]))
      && Settled(st, BeforeSweep(SingleThreaded, st, s, event.packets))
  }

  lemma {:induction false} ReceiveInStep<W(!new)>(st: Settings<W>, s: State<W>, batch: seq<Inbound>)
    requires forall n :: 0 <= n < |batch| ==>
               Agreeable(st, Receive(SingleThreaded, st, s, batch[..n]), batch[n])
    ensures Receive(SingleThreaded, st, s, batch) == Receive(Threaded, st, s, batch)
    decreases |batch|
  {
    hide Handle, RefusedManifest;
    if batch == [] {
    } else {
      var before := batch[..|batch| - 1];
      assert forall n :: 0 <= n < |before| ==> before[..n] == batch[..n];
      ReceiveInStep(st, s, before);
      HandlersAgreeIff(st, Receive(SingleThreaded, st, s, before), batch[|batch| - 1]);
    }
  }

  /** The first packet that is not agreeable makes the builds part, and up to it they were equal. */
  lemma FirstPacketParts<W(!new)>(st: Settings<W>, s: State<W>, batch: seq<Inbound>, n: nat)
    requires n < |batch|
    requires forall m :: 0 <= m < n ==> Agreeable(st, Receive(SingleThreaded, st, s, batch[..m]), batch[m])
    ensures Receive(SingleThreaded, st, s, batch[..n]) == Receive(Threaded, st, s, batch[..n])
    ensures Receive(SingleThreaded, st, s, batch[..n + 1]) == Receive(Threaded, st, s, batch[..n + 1]) <==>
            Agreeable(st, Receive(SingleThreaded, st, s, batch[..n]), batch[n])
  {
    hide Handle, Agreeable;
    assert forall m :: 0 <= m < n ==> batch[..n][..m] == batch[..m];
    ReceiveInStep(st, s, batch[..n]);
    assert batch[..n + 1][..n] == batch[..n];
    HandlersAgreeIff(st, Receive(SingleThreaded, st, s, batch[..n]), batch[n]);
  }

  /** The builds are equal after each packet of a batch. */
  ghost predicate PacketsTogether<W(!new)>(st: Settings<W>, s: State<W>, batch: seq<Inbound>) {
    forall n :: 0 <= n <= |batch| ==> Receive(SingleThreaded, st, s, batch[..n]) == Receive(Threaded, st, s, batch[..n])
  }

  lemma PacketsTogetherIff<W(!new)>(st: Settings<W>, s: State<W>, batch: seq<Inbound>)
    ensures PacketsTogether(st, s, batch) <==>
            forall n :: 0 <= n < |batch| ==> Agreeable(st, Receive(SingleThreaded, st, s, batch[..n]), batch[n])
  {
    hide Receive, Agreeable;
    if forall n :: 0 <= n < |batch| ==> Agreeable(st, Receive(SingleThreaded, st, s, batch[..n]), batch[n]) {
      forall n | 0 <= n <= |batch|
        ensures Receive(SingleThreaded, st, s, batch[..n]) == Receive(Threaded, st, s, batch[..n])
      {
        assert forall m :: 0 <= m < n ==> batch[..n][..m] == batch[..m];
        ReceiveInStep(st, s, batch[..n]);
      }
    } else if PacketsTogether(st, s, batch) {
      AgreeableUpTo(st, s, batch, |batch|);
    }
  }

  lemma {:induction false} AgreeableUpTo<W(!new)>(st: Settings<W>, s: State<W>, batch: seq<Inbound>, n: nat)
    requires n <= |batch| && PacketsTogether(st, s, batch)
    ensures forall m :: 0 <= m < n ==> Agreeable(st, Receive(SingleThreaded, st, s, batch[..m]), batch[m])
  {
    hide Receive, Agreeable;
    if n == 0 {
    } else {
      AgreeableUpTo(st, s, batch, n - 1);
      FirstPacketParts(st, s, batch, n - 1);
    }
  }

  /** The rest of a tick, from a state in which the sweep finds the two builds together. */
  lemma SweepPartsIff<W(!new)>(st: Settings<W>, u: State<W>)
    ensures Broadcast(st, Expire(SingleThreaded, st, u)) == Broadcast(st, Expire(Threaded, st, u)) <==> Settled(st, u)
  {
    hide Expire, Broadcast, Settled;
    ExpiryAgreesIff(st, u);
    var a, b := Expire(SingleThreaded, st, u), Expire(Threaded, st, u);
    SweepsDifferInRoles(st, u);
    BroadcastKeepsRoles(st, a);
    BroadcastKeepsRoles(st, b);
  }

  lemma SweepsDifferInRoles<W(!new)>(st: Settings<W>, u: State<W>)
    ensures var a, b := Expire(SingleThreaded, st, u), Expire(Threaded, st, u); a == b.(roles := a.roles)
  {
  }

  lemma BroadcastKeepsRoles<W(!new)>(st: Settings<W>, s: State<W>)
    ensures Broadcast(st, s).roles == s.roles
  {
    hide Snapshots;
  }

  /** The builds are equal after each packet of the event and after the event. */
  ghost predicate Together<W(!new)>(st: Settings<W>, s: State<W>, event: Event) {
    && (event.Batch? ==> PacketsTogether(st, s, event.packets))
    && Occur(SingleThreaded, st, s, event) == Occur(Threaded, st, s, event)
  }

  /** One event keeps the builds together throughout exactly when it is harmless. */
  lemma TogetherIff<W(!new)>(st: Settings<W>, s: State<W>, event: Event)
    ensures Together(st, s, event) <==> Harmless(st, s, event)
  {
    hide Receive, ApplyBuffered, CarryOut, StepSystems, Expire, Broadcast, Agreeable, PacketsTogether, Settled;
    if event.Batch? {
      PacketsTogetherIff(st, s, event.packets);
      SweepPartsIff(st, BeforeSweep(SingleThreaded, st, s, event.packets));
      if PacketsTogether(st, s, event.packets) {
        WholeBatch(st, s, event.packets);
      }
    }
  }

  lemma WholeBatch<W(!new)>(st: Settings<W>, s: State<W>, batch: seq<Inbound>)
    requires PacketsTogether(st, s, batch)
    ensures Receive(SingleThreaded, st, s, batch) == Receive(Threaded, st, s, batch)
  {
    hide Receive;
    assert batch[..|batch|] == batch;
  }

  ghost predicate AlwaysTogether<W(!new)>(st: Settings<W>, s: State<W>, events: seq<Event>) {
    events == [] ||
    var before := events[..|events| - 1];
    AlwaysTogether(st, s, before) && Together(st, Run(SingleThreaded, st, s, before), events[|events| - 1])
  }

  ghost predicate AlwaysHarmless<W(!new)>(st: Settings<W>, s: State<W>, events: seq<Event>) {
    forall n :: 0 <= n < |events| ==> Harmless(st, Run(SingleThreaded, st, s, events[..n]), events[n])
  }

  lemma HarmlessSnoc<W(!new)>(st: Settings<W>, s: State<W>, events: seq<Event>)
    requires events != []
    ensures var before := events[..|events| - 1];
      AlwaysHarmless(st, s, events) <==>
      AlwaysHarmless(st, s, before) && Harmless(st, Run(SingleThreaded, st, s, before), events[|events| - 1])
  {
    hide Run, Harmless;
    var before := events[..|events| - 1];
    assert forall n :: 0 <= n < |before| ==> before[..n] == events[..n] && before[n] == events[n];
    if AlwaysHarmless(st, s, events) {
      forall n | 0 <= n < |before| ensures Harmless(st, Run(SingleThreaded, st, s, before[..n]), before[n]) {
        assert Harmless(st, Run(SingleThreaded, st, s, events[..n]), events[n]);
      }
    }
  }

  /**
   Lock step with roles, exactly: over any run, grants included, the servers are equal after every
   packet and every event if and only if no role holder's manifest is ever refused and no session
   that had left ever comes to the sweep with a role.
   */
  lemma {:induction false} LockStepIff<W(!new)>(st: Settings<W>, s: State<W>, events: seq<Event>)
    ensures AlwaysTogether(st, s, events) <==> AlwaysHarmless(st, s, events)
    ensures AlwaysTogether(st, s, events) ==> Run(SingleThreaded, st, s, events) == Run(Threaded, st, s, events)
  {
    hide Occur, Harmless, AlwaysHarmless, PacketsTogether;
    if events == [] {
      NothingHarms(st, s, events);
    } else {
      var before, last := events[..|events| - 1], events[|events| - 1];
      LockStepIff(st, s, before);
      TogetherIff(st, Run(SingleThreaded, st, s, before), last);
      HarmlessSnoc(st, s, events);
    }
  }

  lemma NothingHarms<W(!new)>(st: Settings<W>, s: State<W>, events: seq<Event>)
    requires events == []
    ensures AlwaysHarmless(st, s, events)
  {
  }

  /**
   Lock step with roles: on any run, grants included, both servers stay equal as long as no role
   holder's manifest is refused and no session that had left comes to the sweep with a role.
   */
  lemma HarmlessRunsKeepLockStep<W(!new)>(st: Settings<W>, s: State<W>, events: seq<Event>)
    requires forall n :: 0 <= n < |events| ==> Harmless(st, Run(SingleThreaded, st, s, events[..n]), events[n])
    ensures Run(SingleThreaded, st, s, events) == Run(Threaded, st, s, events)
  {
    hide Run, Harmless;
    LockStepIff(st, s, events);
  }

  /** Between two packets the builds can part and meet again: a goodbye takes the role that a refusal left. */
  lemma GoodbyeHeals<W(!new)>(st: Settings<W>, s: State<W>, i: Inbound, g: Inbound)
    requires i.packet.payload.CommandPayload? && i.packet.payload.session in s.sessions
    requires RefusedManifest(st, s, EnvelopeOf(i.packet.payload), i.source)
    requires g.packet.payload.HandshakePayload? && g.packet.payload.message.Disconnect?
    requires g.packet.payload.message.session == i.packet.payload.session
    ensures Handle(SingleThreaded, st, Handle(SingleThreaded, st, s, i), g) ==
            Handle(Threaded, st, Handle(Threaded, st, s, i), g)
  {
    hide RuleFor, RefusedManifest;
    var e := EnvelopeOf(i.packet.payload);
    RulingsAgree(st, s, e, i.source);
    assert s.roles - {e.session} - {e.session} == s.roles - {e.session};
  }

  /** No event grants a role; the threaded server offers its owner no way to grant one. */
  ghost predicate Ungranted(events: seq<Event>) {
    forall i :: 0 <= i < |events| ==> events[i].Batch?
  }

  /**
   Lock step: from any state in which no role is held, whatever packets arrive in whatever
   batches, both servers reach the same sessions, buffer, counters, world, applied commands
   and outgoing packets, and no admin directive is ever produced.
   */
  lemma {:induction false} ServersKeepLockStep<W(!new)>(st: Settings<W>, s: State<W>, events: seq<Event>)
    requires Unprivileged(s) && Ungranted(events)
    ensures Run(SingleThreaded, st, s, events) == Run(Threaded, st, s, events)
    ensures Unprivileged(Run(SingleThreaded, st, s, events))
  {
    hide Tick, Unprivileged;
    if events == [] {
    } else {
      var before := events[..|events| - 1];
      ServersKeepLockStep(st, s, before);
      TickAgrees(st, Run(SingleThreaded, st, s, before), events[|events| - 1].packets);
    }
  }
}
