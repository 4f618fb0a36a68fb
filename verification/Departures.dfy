/** What ends a session, over a whole tick of either server. */
module Departures {
  import opened Words
  import opened Wrappers
  import opened Protocol
  import opened Sessions
  import opened CommandBuffers
  import opened AdminRoles
  import opened Tokens
  import opened ServerSteps
  import opened Gates
  import opened LockStep

  /** The session is on file under a number already given out. */
  predicate OnFile<W>(s: State<W>, id: nat) {
    id in s.sessions && id < s.nextSessionId
  }

  predicate Gone<W>(s: State<W>, id: nat)
    requires id in s.sessions
  {
    s.sessions[id].state == SessionState.Disconnected
  }

  // ---------------------------------------------------------------- packets

  /** A goodbye names its session and proves nothing: no token, no address. */
  predicate SaysGoodbye(i: Inbound, id: nat) {
    i.packet.payload.HandshakePayload? && i.packet.payload.message.Disconnect? && i.packet.payload.message.session == id
  }

  ghost predicate Ends<W(!new)>(st: Settings<W>, s: State<W>, i: Inbound, id: nat) {
    || SaysGoodbye(i, id)
    || (&& i.packet.payload.CommandPayload? && i.packet.payload.session == id
        && RefusedManifest(st, s, EnvelopeOf(i.packet.payload), i.source))
  }

  lemma IngestEndsIff<W(!new)>(build: Build, st: Settings<W>, s: State<W>, e: Envelope, source: Option<SocketAddr>,
                               id: nat)
    requires OnFile(s, id)
    ensures var t := Ingest(build, st, s, e, source);
      && OnFile(t, id) && t.tick == s.tick && t.directives == s.directives
      && (Gone(t, id) <==> Gone(s, id) || (e.session == id && RefusedManifest(st, s, e, source)))
  {
    hide Ingest, Trusts, Entitled, Cleared;
    CommandEffect(build, st, s, e, source);
    CommandTouches(build, st, s, e, source);
  }

  lemma HandleEndsIff<W(!new)>(build: Build, st: Settings<W>, s: State<W>, i: Inbound, id: nat)
    requires OnFile(s, id)
    ensures var t := Handle(build, st, s, i);
      && OnFile(t, id) && t.tick == s.tick && t.directives == s.directives
      && (Gone(t, id) <==> Gone(s, id) || Ends(st, s, i, id))
  {
    hide Ingest, NewSession, RefusedManifest, TokenOf, WrappingAdd;
    if i.packet.payload.CommandPayload? {
      IngestEndsIff(build, st, s, EnvelopeOf(i.packet.payload), i.source, id);
    }
  }

  /** Some packet of the batch ends the session when its turn comes. */
  ghost predicate EndedByPacket<W(!new)>(build: Build, st: Settings<W>, s: State<W>, batch: seq<Inbound>, id: nat) {
    exists n :: 0 <= n < |batch| && Ends(st, Receive(build, st, s, batch[..n]), batch[n], id)
  }

  lemma EndedSnoc<W(!new)>(build: Build, st: Settings<W>, s: State<W>, batch: seq<Inbound>, id: nat)
    requires batch != []
    ensures var before := batch[..|batch| - 1];
      EndedByPacket(build, st, s, batch, id) <==>
      || EndedByPacket(build, st, s, before, id)
      || Ends(st, Receive(build, st, s, before), batch[|batch| - 1], id)
  {
    hide Ends, Receive;
    var before := batch[..|batch| - 1];
    assert forall n :: 0 <= n < |before| ==> before[..n] == batch[..n] && before[n] == batch[n];
    if EndedByPacket(build, st, s, before, id) {
      var n :| 0 <= n < |before| && Ends(st, Receive(build, st, s, before[..n]), before[n], id);
      assert Ends(st, Receive(build, st, s, batch[..n]), batch[n], id);
    }
  }

  lemma NoPacketEnds<W(!new)>(build: Build, st: Settings<W>, s: State<W>, batch: seq<Inbound>, id: nat)
    requires batch == []
    ensures !EndedByPacket(build, st, s, batch, id)
  {
  }

  lemma {:induction false} ReceiveEndsIff<W(!new)>(build: Build, st: Settings<W>, s: State<W>, batch: seq<Inbound>,
                                                   id: nat)
    requires OnFile(s, id)
    ensures var t := Receive(build, st, s, batch);
      && OnFile(t, id) && t.tick == s.tick && t.directives == s.directives
      && (Gone(t, id) <==> Gone(s, id) || EndedByPacket(build, st, s, batch, id))
    decreases |batch|
  {
    hide Handle, Ends, EndedByPacket;
    if batch == [] {
      NoPacketEnds(build, st, s, batch, id);
    } else {
      ReceiveEndsIff(build, st, s, batch[..|batch| - 1], id);
      EndedSnoc(build, st, s, batch, id);
      HandleEndsIff(build, st, Receive(build, st, s, batch[..|batch| - 1]), batch[|batch| - 1], id);
    }
  }

  // ---------------------------------------------------------------- heartbeats

  /** A ping that names the session, or a command that binds to it: fresh or stale, permitted or not. */
  predicate Touches(x: Session, id: nat, i: Inbound) {
    match i.packet.payload
    case PingPayload(_) => i.packet.header.session == id
    case CommandPayload(session, _, _, token, _) =>
      session == id && token == x.token && (x.peer.None? || i.source.None? || x.peer.value == i.source.value)
    case _ => false
  }

  predicate HeardFrom(x: Session, id: nat, batch: seq<Inbound>) {
    exists n :: 0 <= n < |batch| && Touches(x, id, batch[n])
  }

  lemma HandleHeartbeat<W(!new)>(build: Build, st: Settings<W>, s: State<W>, i: Inbound, id: nat)
    requires OnFile(s, id)
    ensures var t := Handle(build, st, s, i);
      && OnFile(t, id) && t.tick == s.tick
      && t.sessions[id].token == s.sessions[id].token && t.sessions[id].peer == s.sessions[id].peer
      && t.sessions[id].heartbeat == if Touches(s.sessions[id], id, i) then s.tick else s.sessions[id].heartbeat
  {
    hide RequiredPermission, Permissions, ManifestAccepted, RoleOf, TokenOf, WrappingAdd, Spectates;
  }

  lemma TouchesBinding(a: Session, b: Session, id: nat, i: Inbound)
    requires a.token == b.token && a.peer == b.peer
    ensures Touches(a, id, i) <==> Touches(b, id, i)
  {
  }

  /** The heartbeat after a batch is the current tick exactly when the batch was heard from the session. */
  lemma {:induction false} ReceiveHeartbeat<W(!new)>(build: Build, st: Settings<W>, s: State<W>, batch: seq<Inbound>,
                                                     id: nat)
    requires OnFile(s, id)
    ensures var t := Receive(build, st, s, batch);
      && OnFile(t, id) && t.tick == s.tick
      && t.sessions[id].token == s.sessions[id].token && t.sessions[id].peer == s.sessions[id].peer
      && t.sessions[id].heartbeat ==
         if HeardFrom(s.sessions[id], id, batch) then s.tick else s.sessions[id].heartbeat
    decreases |batch|
  {
    hide Handle, Touches;
    if batch == [] {
    } else {
      var before, last := batch[..|batch| - 1], batch[|batch| - 1];
      ReceiveHeartbeat(build, st, s, before, id);
      var mid := Receive(build, st, s, before);
      HandleHeartbeat(build, st, mid, last, id);
      TouchesBinding(mid.sessions[id], s.sessions[id], id, last);
      assert HeardFrom(s.sessions[id], id, batch) <==>
             HeardFrom(s.sessions[id], id, before) || Touches(s.sessions[id], id, last) by {
        HeardSnoc(s.sessions[id], id, batch);
      }
    }
  }

  lemma HeardSnoc(x: Session, id: nat, batch: seq<Inbound>)
    requires batch != []
    ensures HeardFrom(x, id, batch) <==> HeardFrom(x, id, batch[..|batch| - 1]) || Touches(x, id, batch[|batch| - 1])
  {
    hide Touches;
    var before := batch[..|batch| - 1];
    if HeardFrom(x, id, before) {
      var n :| 0 <= n < |before| && Touches(x, id, before[n]);
      assert Touches(x, id, batch[n]);
    }
    if HeardFrom(x, id, batch) && !Touches(x, id, batch[|batch| - 1]) {
      var n :| 0 <= n < |batch| && Touches(x, id, batch[n]);
      assert Touches(x, id, before[n]);
    }
  }

  // ---------------------------------------------------------------- directives

  predicate Names(d: Directive, id: nat) {
    d.KickSession? && d.target == id
  }

  predicate KickAmong(ds: seq<Directive>, id: nat) {
    exists n :: 0 <= n < |ds| && Names(ds[n], id)
  }

  /** A kick order that will be obeyed: from a session on file with a faction and a role. */
  predicate Kicks<W>(s: State<W>, e: Envelope, id: nat) {
    && e.command.AdminKickSession? && e.command.session == id
    && e.session in s.sessions && s.sessions[e.session].faction != 0
    && Standing(s.roles, e.session) != 0
  }

  lemma NoKick(ds: seq<Directive>, id: nat)
    requires ds == []
    ensures !KickAmong(ds, id)
  {
  }

  lemma KickSnoc(ds: seq<Directive>, d: Directive, id: nat)
    ensures KickAmong(ds + [d], id) <==> KickAmong(ds, id) || Names(d, id)
  {
    if KickAmong(ds, id) {
      var n :| 0 <= n < |ds| && Names(ds[n], id);
      assert Names((ds + [d])[n], id);
    }
    assert (ds + [d])[|ds|] == d;
  }

  lemma DispatchOneKicks<W(!new)>(st: Settings<W>, s: State<W>, e: Envelope, id: nat)
    ensures var t := DispatchOne(st, s, e);
      && t.sessions == s.sessions && t.roles == s.roles && t.tick == s.tick && t.nextSessionId == s.nextSessionId
      && (KickAmong(t.directives, id) <==> KickAmong(s.directives, id) || Kicks(s, e, id))
  {
    hide KickAmong, Avatar;
    forall d ensures KickAmong(s.directives + [d], id) <==> KickAmong(s.directives, id) || Names(d, id) {
      KickSnoc(s.directives, d, id);
    }
  }

  lemma SameKicks<W(!new)>(s: State<W>, t: State<W>, id: nat)
    requires s.sessions == t.sessions && s.roles == t.roles
    ensures forall e :: Kicks(s, e, id) <==> Kicks(t, e, id)
  {
  }

  lemma {:induction false} DispatchKicks<W(!new)>(st: Settings<W>, s: State<W>, es: seq<Envelope>, id: nat)
    ensures var t := Dispatch(st, s, es);
      && t.sessions == s.sessions && t.roles == s.roles && t.tick == s.tick && t.nextSessionId == s.nextSessionId
      && (KickAmong(t.directives, id) <==> KickAmong(s.directives, id) || exists e :: e in es && Kicks(s, e, id))
  {
    hide DispatchOne, KickAmong, Kicks;
    if es == [] {
    } else {
      var before, last := es[..|es| - 1], es[|es| - 1];
      DispatchKicks(st, s, before, id);
      var mid := Dispatch(st, s, before);
      DispatchOneKicks(st, mid, last, id);
      SameKicks(s, mid, id);
      assert es == before + [last];
    }
  }

  lemma {:induction false} ExecuteEndsIff<W(!new)>(s: State<W>, ds: seq<Directive>, id: nat)
    requires id in s.sessions
    ensures var t := ExecuteAll(s, ds);
      && id in t.sessions && t.nextSessionId == s.nextSessionId
      && t.tick == s.tick && t.sessions[id].heartbeat == s.sessions[id].heartbeat
      && (Gone(t, id) <==> Gone(s, id) || KickAmong(ds, id))
  {
    hide KickAmong, WithRole, RoleFromCode;
    if ds == [] {
      NoKick(ds, id);
    } else {
      ExecuteEndsIff(s, ds[..|ds| - 1], id);
      KickSnoc(ds[..|ds| - 1], ds[|ds| - 1], id);
      assert ds == ds[..|ds| - 1] + [ds[|ds| - 1]];
    }
  }

  // ---------------------------------------------------------------- the tick

  lemma SweepEndsIff<W(!new)>(build: Build, st: Settings<W>, s: State<W>, id: nat)
    requires id in s.sessions
    ensures var t := Broadcast(st, Expire(build, st, s));
      && id in t.sessions && t.nextSessionId == s.nextSessionId
      && (Gone(t, id) <==> Gone(s, id) || s.tick > s.sessions[id].heartbeat + st.timeout)
  {
    hide Expire, Broadcast;
    ExpireEndsIff(build, st, s, id);
    BroadcastEndsNone(st, Expire(build, st, s));
  }

  lemma ExpireEndsIff<W(!new)>(build: Build, st: Settings<W>, s: State<W>, id: nat)
    requires id in s.sessions
    ensures var t := Expire(build, st, s);
      && id in t.sessions && t.nextSessionId == s.nextSessionId
      && (Gone(t, id) <==> Gone(s, id) || s.tick > s.sessions[id].heartbeat + st.timeout)
  {
  }

  lemma BroadcastEndsNone<W(!new)>(st: Settings<W>, s: State<W>)
    ensures var t := Broadcast(st, s); t.sessions == s.sessions && t.nextSessionId == s.nextSessionId
  {
    hide Snapshots;
  }

  lemma ApplyKicks<W(!new)>(st: Settings<W>, s: State<W>, id: nat)
    ensures var t := ApplyBuffered(st, s);
      && t.sessions == s.sessions && t.tick == s.tick && t.nextSessionId == s.nextSessionId
      && (KickAmong(t.directives, id) <==> KickAmong(s.directives, id) || exists e :: e in s.buffer && Kicks(s, e, id))
  {
    hide Dispatch, Sorted, KickAmong, Kicks;
    SortedMembers(s.buffer);
    DispatchKicks(st, s.(buffer := []), Sorted(s.buffer), id);
    SameKicks(s, s.(buffer := []), id);
  }

  /** Once its packets are in: a session still there is ended by a kick or by silence, and by nothing else. */
  lemma AdvanceEndsIff<W(!new)>(build: Build, st: Settings<W>, s: State<W>, id: nat)
    requires id in s.sessions
    ensures var t := ServerSteps.Advance(build, st, s);
      && id in t.sessions && t.nextSessionId == s.nextSessionId
      && (Gone(t, id) <==>
          || Gone(s, id)
          || KickAmong(s.directives, id) || (exists e :: e in s.buffer && Kicks(s, e, id))
          || s.tick + 1 > s.sessions[id].heartbeat + st.timeout)
  {
    hide ApplyBuffered, ExecuteAll, Expire, Broadcast, KickAmong, Kicks;
    var t := s.(tick := s.tick + 1);
    ApplyKicks(st, t, id);
    SameKicks(s, t, id);
    var u := ApplyBuffered(st, t);
    ExecuteEndsIff(u.(directives := []), u.directives, id);
    SweepEndsIff(build, st, StepSystems(st, CarryOut(u)), id);
  }

  /**
   Once its packets are in, and without roles, a tick ends a session that is still there exactly
   when more than the timeout has passed since its last heartbeat; no command plays a part.
   */
  lemma OnlySilenceTimesOut<W(!new)>(build: Build, st: Settings<W>, s: State<W>, id: nat)
    requires Unprivileged(s) && id in s.sessions && !Gone(s, id)
    ensures var t := ServerSteps.Advance(build, st, s);
      && id in t.sessions
      && (Gone(t, id) <==> s.tick + 1 > s.sessions[id].heartbeat + st.timeout)
  {
    hide ServerSteps.Advance;
    AdvanceEndsIff(build, st, s, id);
    NoKick(s.directives, id);
  }

  /**
   Exactly what ends a session that is still there: a goodbye that names it, its own manifest
   refused, a kick order by someone entitled, or silence for longer than the timeout. Nothing
   else a tick does can end it.
   */
  lemma SessionEndsIff<W(!new)>(build: Build, st: Settings<W>, s: State<W>, batch: seq<Inbound>, id: nat)
    requires OnFile(s, id) && !Gone(s, id)
    ensures var r, t := Receive(build, st, s, batch), Tick(build, st, s, batch);
      && OnFile(t, id)
      && (Gone(t, id) <==>
          || EndedByPacket(build, st, s, batch, id)
          || KickAmong(s.directives, id) || (exists e :: e in r.buffer && Kicks(r, e, id))
          || s.tick + 1 > st.timeout +
             if HeardFrom(s.sessions[id], id, batch) then s.tick else s.sessions[id].heartbeat)
  {
    hide Receive, ServerSteps.Advance, EndedByPacket, HeardFrom, KickAmong, Kicks;
    ReceiveEndsIff(build, st, s, batch, id);
    ReceiveHeartbeat(build, st, s, batch, id);
    AdvanceEndsIff(build, st, Receive(build, st, s, batch), id);
  }
}
