/** Everything either server sends is a packet that the codec carries. */
module ServerPackets {
  import opened Words
  import opened Wrappers
  import opened Bytes
  import opened Protocol
  import opened PacketFormat
  import opened CodecLaws
  import OrderedKeys
  import opened Sessions
  import opened CommandBuffers
  import opened AdminRoles
  import opened ServerSteps

  /** The header announces the payload that follows, under this protocol version. */
  ghost predicate WellLabelled(p: Packet) {
    p.header.packetType == PayloadType(p.payload) && p.header.protocolVersion == ServerSteps.PROTOCOL_VERSION
  }

  ghost predicate AllLabelled(ps: seq<Packet>) {
    forall i :: 0 <= i < |ps| ==> WellLabelled(ps[i])
  }

  /** A step's outbox grows by well-labelled packets and loses none. */
  ghost predicate Sends(before: seq<Packet>, after: seq<Packet>) {
    before <= after && (AllLabelled(before) ==> AllLabelled(after))
  }

  lemma SendsTrans(a: seq<Packet>, b: seq<Packet>, c: seq<Packet>)
    requires Sends(a, b) && Sends(b, c)
    ensures Sends(a, c)
  {
  }

  lemma SendsMore(before: seq<Packet>, more: seq<Packet>)
    requires AllLabelled(more)
    ensures Sends(before, before + more)
  {
  }

  lemma {:induction false} SnapshotsLabelled<W(!new)>(engine: Engine<W>, world: W, tick: nat, sent: nat,
                                                      sessions: SessionTable, ids: seq<nat>)
    requires forall id :: id in ids ==> id in sessions
    ensures AllLabelled(Snapshots(engine, world, tick, sent, sessions, ids))
  {
    if ids == [] {
    } else {
      SnapshotsLabelled(engine, world, tick, sent, sessions, ids[..|ids| - 1]);
    }
  }

  lemma HandleSends<W(!new)>(build: Build, st: Settings<W>, s: State<W>, i: Inbound)
    ensures Sends(s.outbox, Handle(build, st, s, i).outbox)
  {
    hide Rule, NewSession, AllLabelled;
    SendsMore(s.outbox, []) by { NothingLabelled(); }
    assert s.outbox + [] == s.outbox;
    match i.packet.payload {
      case HandshakePayload(ClientHello(version, name)) =>
        var t := Connect(st, s, version, name, i.source);
        OneLabelled(t.outbox[|s.outbox|]);
        SendsMore(s.outbox, [t.outbox[|s.outbox|]]);
      case PingPayload(timestamp) =>
        var t := Ping(s, i.packet.header.session, timestamp);
        OneLabelled(t.outbox[|s.outbox|]);
        SendsMore(s.outbox, [t.outbox[|s.outbox|]]);
      case _ =>
    }
  }

  lemma NothingLabelled()
    ensures AllLabelled([])
  {
  }

  lemma OneLabelled(p: Packet)
    requires WellLabelled(p)
    ensures AllLabelled([p])
  {
  }

  lemma {:induction false} ReceiveSends<W(!new)>(build: Build, st: Settings<W>, s: State<W>, batch: seq<Inbound>)
    ensures Sends(s.outbox, Receive(build, st, s, batch).outbox)
    decreases |batch|
  {
    hide Handle;
    if batch == [] {
    } else {
      ReceiveSends(build, st, s, batch[..|batch| - 1]);
      HandleSends(build, st, Receive(build, st, s, batch[..|batch| - 1]), batch[|batch| - 1]);
    }
  }

  lemma {:induction false} DispatchSendsNothing<W(!new)>(st: Settings<W>, s: State<W>, es: seq<Envelope>)
    ensures Dispatch(st, s, es).outbox == s.outbox
  {
    hide DispatchOne;
    if es == [] {
    } else {
      DispatchSendsNothing(st, s, es[..|es| - 1]);
      DispatchOneSendsNothing(st, Dispatch(st, s, es[..|es| - 1]), es[|es| - 1]);
    }
  }

  lemma DispatchOneSendsNothing<W(!new)>(st: Settings<W>, s: State<W>, e: Envelope)
    ensures DispatchOne(st, s, e).outbox == s.outbox
  {
    hide RequiredPermission, Avatar, RoleOf, RoleCode;
  }

  lemma {:induction false} ExecuteSendsNothing<W(!new)>(s: State<W>, ds: seq<Directive>)
    ensures ExecuteAll(s, ds).outbox == s.outbox
  {
    if ds == [] {
    } else {
      ExecuteSendsNothing(s, ds[..|ds| - 1]);
    }
  }

  lemma BroadcastSends<W(!new)>(st: Settings<W>, s: State<W>)
    ensures Sends(s.outbox, Broadcast(st, s).outbox)
  {
    hide Snapshots, AllLabelled;
    if s.sessions != map[] {
      var ids := OrderedKeys.Ascending(s.sessions.Keys);
      SnapshotsLabelled(st.engine, s.world, s.tick, s.sent + 1, s.sessions, ids);
      SendsMore(s.outbox, Snapshots(st.engine, s.world, s.tick, s.sent + 1, s.sessions, ids));
    }
  }

  lemma AdvanceSends<W(!new)>(build: Build, st: Settings<W>, s: State<W>)
    ensures Sends(s.outbox, ServerSteps.Advance(build, st, s).outbox)
  {
    hide Dispatch, ExecuteAll, Broadcast, Sends;
    var t := s.(tick := s.tick + 1);
    DispatchSendsNothing(st, t.(buffer := []), Sorted(t.buffer));
    var u := ApplyBuffered(st, t);
    ExecuteSendsNothing(u.(directives := []), u.directives);
    BroadcastSends(st, Expire(build, st, StepSystems(st, CarryOut(u))));
  }

  lemma OccurSends<W(!new)>(build: Build, st: Settings<W>, s: State<W>, event: Event)
    ensures Sends(s.outbox, Occur(build, st, s, event).outbox)
  {
    hide Receive, ServerSteps.Advance, Sends;
    match event {
      case Batch(packets) =>
        var t := Receive(build, st, s, packets);
        ReceiveSends(build, st, s, packets);
        AdvanceSends(build, st, t);
        SendsTrans(s.outbox, t.outbox, ServerSteps.Advance(build, st, t).outbox);
      case Grant(_, _) => SendsSelf(s.outbox);
    }
  }

  lemma {:induction false} RunSends<W(!new)>(build: Build, st: Settings<W>, s: State<W>, events: seq<Event>)
    ensures Sends(s.outbox, Run(build, st, s, events).outbox)
  {
    hide Occur, Sends;
    if events == [] {
      SendsSelf(s.outbox);
    } else {
      var t := Run(build, st, s, events[..|events| - 1]);
      RunSends(build, st, s, events[..|events| - 1]);
      OccurSends(build, st, t, events[|events| - 1]);
      SendsTrans(s.outbox, t.outbox, Run(build, st, s, events).outbox);
    }
  }

  lemma SendsSelf(a: seq<Packet>)
    ensures Sends(a, a)
  {
  }

  /**
   Over every run of either server each packet sent comes back unchanged from the codec,
   whatever bytes follow it, exactly when its strings and lists fit their prefixes.
   */
  lemma OutgoingPacketsDecode<W(!new)>(build: Build, st: Settings<W>, world: W, tokenState: u64,
                                       events: seq<Event>, p: Packet, suffix: Octets)
    requires p in Run(build, st, Initial(world, tokenState), events).outbox
    ensures Decode(Encode(p) + suffix) == Some(p) <==> FitsPayload(p.payload)
  {
    hide Run, FitsPayload, Encode, Decode, PayloadType;
    RunSends(build, st, Initial(world, tokenState), events);
    RoundTripIff(p, suffix);
  }
}
