/** Packets that cannot prove they belong to a session leave no trace but one counter. */
module NonInterference {
  import opened Words
  import opened Wrappers
  import opened Protocol
  import opened OrderedKeys
  import opened Sessions
  import opened CommandBuffers
  import opened AdminRoles
  import opened Tokens
  import opened ServerSteps

  /** A command packet that fails binding in this state. */
  ghost predicate Unbound<W(!new)>(s: State<W>, i: Inbound) {
    && i.packet.payload.CommandPayload?
    && BindCommandPacket(Find(s.sessions, i.packet.payload.session), i.packet.payload.token, i.source).Err?
  }

  /** The packets of a batch that do not fail binding when their turn comes. */
  ghost function Authentic<W(!new)>(build: Build, st: Settings<W>, s: State<W>, batch: seq<Inbound>): seq<Inbound>
    decreases |batch|
  {
    if batch == [] then []
    else
      var before, last := batch[..|batch| - 1], batch[|batch| - 1];
      if Unbound(Receive(build, st, s, before), last) then Authentic(build, st, s, before)
      else Authentic(build, st, s, before) + [last]
  }

  /** The run without them. */
  ghost function Purged<W(!new)>(build: Build, st: Settings<W>, s: State<W>, events: seq<Event>): seq<Event> {
    if events == [] then []
    else
      var before, last := events[..|events| - 1], events[|events| - 1];
      Purged(build, st, s, before) +
      [if last.Batch? then Batch(Authentic(build, st, Run(build, st, s, before), last.packets)) else last]
  }

  /** The packets of a run. */
  ghost function Total(events: seq<Event>): nat {
    if events == [] then 0
    else
      var last := events[|events| - 1];
      Total(events[..|events| - 1]) + if last.Batch? then |last.packets| else 0
  }

  /** The same state with `d` more blocked commands on the counter. */
  ghost function Blocked<W(!new)>(s: State<W>, d: nat): State<W> {
    s.(blocked := s.blocked + d)
  }

  /** Exactly three kinds of command packet fail: for no session, with a wrong token, or from a foreign address. */
  lemma UnboundIff<W(!new)>(s: State<W>, i: Inbound)
    requires i.packet.payload.CommandPayload?
    ensures var p := i.packet.payload;
      Unbound(s, i) <==>
      || p.session !in s.sessions
      || p.token != s.sessions[p.session].token
      || exists home, from :: s.sessions[p.session].peer == Some(home) && i.source == Some(from) && home != from
  {
  }

  // ---------------------------------------------------------------- the counter is write-only

  lemma IngestIgnoresCounter<W(!new)>(build: Build, st: Settings<W>, s: State<W>, d: nat, e: Envelope,
                                      source: Option<SocketAddr>)
    ensures Ingest(build, st, Blocked(s, d), e, source) == Blocked(Ingest(build, st, s, e, source), d)
  {
    hide Rule;
  }

  lemma HandleIgnoresCounter<W(!new)>(build: Build, st: Settings<W>, s: State<W>, d: nat, i: Inbound)
    ensures Handle(build, st, Blocked(s, d), i) == Blocked(Handle(build, st, s, i), d)
  {
    hide Ingest, NewSession, TokenOf, WrappingAdd;
    if i.packet.payload.CommandPayload? {
      IngestIgnoresCounter(build, st, s, d, EnvelopeOf(i.packet.payload), i.source);
    }
  }

  lemma UnboundOnlyCounts<W(!new)>(build: Build, st: Settings<W>, s: State<W>, i: Inbound)
    requires Unbound(s, i)
    ensures Handle(build, st, s, i) == Blocked(s, 1)
  {
    var e := EnvelopeOf(i.packet.payload);
    assert RuleFor(build, st, s, e, i.source) == Ruling(Find(s.sessions, e.session), true, 0, 0, 1, false);
    if e.session in s.sessions {
      assert s.sessions[e.session := s.sessions[e.session]] == s.sessions;
    }
  }

  lemma ApplyIgnoresCounter<W(!new)>(st: Settings<W>, s: State<W>, d: nat, actor: Actor, c: Command)
    ensures ApplyCommand(st, Blocked(s, d), actor, c).0 == Blocked(ApplyCommand(st, s, actor, c).0, d)
    ensures ApplyCommand(st, Blocked(s, d), actor, c).1 == ApplyCommand(st, s, actor, c).1
  {
    hide RequiredPermission;
  }

  lemma DispatchOneIgnoresCounter<W(!new)>(st: Settings<W>, s: State<W>, d: nat, e: Envelope)
    ensures DispatchOne(st, Blocked(s, d), e) == Blocked(DispatchOne(st, s, e), d)
  {
    hide ApplyCommand, Avatar, RoleOf, RoleCode;
    if e.session in s.sessions {
      var x := s.sessions[e.session];
      var (world, avatar) := Avatar(st, s.world, x.player, x.faction);
      var actor := Actor(e.session, x.player, x.faction, avatar, RoleCode(RoleOf(s.roles, e.session)));
      ApplyIgnoresCounter(st, s.(world := world, applied := s.applied + [e]), d, actor, e.command);
    }
  }

  lemma {:induction false} DispatchIgnoresCounter<W(!new)>(st: Settings<W>, s: State<W>, d: nat, es: seq<Envelope>)
    ensures Dispatch(st, Blocked(s, d), es) == Blocked(Dispatch(st, s, es), d)
  {
    hide DispatchOne, Blocked;
    if es == [] {
    } else {
      DispatchIgnoresCounter(st, s, d, es[..|es| - 1]);
      DispatchOneIgnoresCounter(st, Dispatch(st, s, es[..|es| - 1]), d, es[|es| - 1]);
    }
  }

  lemma {:induction false} ExecuteIgnoresCounter<W(!new)>(s: State<W>, d: nat, ds: seq<Directive>)
    ensures ExecuteAll(Blocked(s, d), ds) == Blocked(ExecuteAll(s, ds), d)
  {
    if ds == [] {
    } else {
      ExecuteIgnoresCounter(s, d, ds[..|ds| - 1]);
    }
  }

  lemma ExpireIgnoresCounter<W(!new)>(build: Build, st: Settings<W>, s: State<W>, d: nat)
    ensures Expire(build, st, Blocked(s, d)) == Blocked(Expire(build, st, s), d)
  {
    hide Expires;
  }

  lemma BroadcastIgnoresCounter<W(!new)>(st: Settings<W>, s: State<W>, d: nat)
    ensures Broadcast(st, Blocked(s, d)) == Blocked(Broadcast(st, s), d)
  {
    hide Snapshots, Ascending;
  }

  lemma DrainIgnoresCounter<W(!new)>(st: Settings<W>, s: State<W>, d: nat)
    ensures ApplyBuffered(st, Blocked(s, d)) == Blocked(ApplyBuffered(st, s), d)
    ensures CarryOut(Blocked(s, d)) == Blocked(CarryOut(s), d)
  {
    hide Dispatch, ExecuteAll, Sorted;
    DispatchIgnoresCounter(st, s.(buffer := []), d, Sorted(s.buffer));
    ExecuteIgnoresCounter(s.(directives := []), d, s.directives);
  }

  lemma AdvanceIgnoresCounter<W(!new)>(build: Build, st: Settings<W>, s: State<W>, d: nat)
    ensures ServerSteps.Advance(build, st, Blocked(s, d)) == Blocked(ServerSteps.Advance(build, st, s), d)
  {
    hide ApplyBuffered, CarryOut, Expire, Broadcast;
    var t := s.(tick := s.tick + 1);
    DrainIgnoresCounter(st, t, d);
    var u := ApplyBuffered(st, t);
    DrainIgnoresCounter(st, u, d);
    var v := StepSystems(st, CarryOut(u));
    ExpireIgnoresCounter(build, st, v, d);
    BroadcastIgnoresCounter(st, Expire(build, st, v), d);
  }

  // ---------------------------------------------------------------- batches and runs

  lemma {:induction false} BatchPurged<W(!new)>(build: Build, st: Settings<W>, s: State<W>, batch: seq<Inbound>)
    ensures |Authentic(build, st, s, batch)| <= |batch|
    ensures Receive(build, st, s, batch) ==
            Blocked(Receive(build, st, s, Authentic(build, st, s, batch)), |batch| - |Authentic(build, st, s, batch)|)
    decreases |batch|
  {
    hide Handle, Unbound;
    if batch == [] {
    } else {
      var before, last := batch[..|batch| - 1], batch[|batch| - 1];
      var kept := Authentic(build, st, s, before);
      BatchPurged(build, st, s, before);
      var full, lean := Receive(build, st, s, before), Receive(build, st, s, kept);
      if Unbound(full, last) {
        UnboundOnlyCounts(build, st, full, last);
      } else {
        assert (kept + [last])[..|kept|] == kept;
        HandleIgnoresCounter(build, st, lean, |before| - |kept|, last);
      }
    }
  }

  lemma {:induction false} ReceiveIgnoresCounter<W(!new)>(build: Build, st: Settings<W>, s: State<W>, d: nat,
                                                          batch: seq<Inbound>)
    ensures Receive(build, st, Blocked(s, d), batch) == Blocked(Receive(build, st, s, batch), d)
    decreases |batch|
  {
    hide Handle, Blocked;
    if batch == [] {
    } else {
      ReceiveIgnoresCounter(build, st, s, d, batch[..|batch| - 1]);
      HandleIgnoresCounter(build, st, Receive(build, st, s, batch[..|batch| - 1]), d, batch[|batch| - 1]);
    }
  }

  lemma TickPurged<W(!new)>(build: Build, st: Settings<W>, s: State<W>, d: nat, batch: seq<Inbound>)
    ensures var kept := Authentic(build, st, Blocked(s, d), batch);
      && |kept| <= |batch|
      && Tick(build, st, Blocked(s, d), batch) == Blocked(Tick(build, st, s, kept), d + |batch| - |kept|)
  {
    hide Receive, ServerSteps.Advance;
    var kept := Authentic(build, st, Blocked(s, d), batch);
    BatchPurged(build, st, Blocked(s, d), batch);
    ReceiveIgnoresCounter(build, st, s, d, kept);
    AdvanceIgnoresCounter(build, st, Receive(build, st, s, kept), d + |batch| - |kept|);
  }

  /**
   Non-interference: strike from a run every command packet that fails binding. Sessions,
   sequence bounds, heartbeats, roles, applied commands, world and every packet sent stay the
   same after every tick; `blocked` alone differs, by exactly the number of packets struck.
   */
  lemma {:induction false} UnboundPacketsLeaveNoTrace<W(!new)>(build: Build, st: Settings<W>, s: State<W>,
                                                               events: seq<Event>)
    ensures |Purged(build, st, s, events)| == |events|
    ensures Total(Purged(build, st, s, events)) <= Total(events)
    ensures Run(build, st, s, events) ==
            Blocked(Run(build, st, s, Purged(build, st, s, events)),
                    Total(events) - Total(Purged(build, st, s, events)))
  {
    hide Tick, Authentic;
    if events == [] {
    } else {
      var before, last := events[..|events| - 1], events[|events| - 1];
      var kept := Purged(build, st, s, before);
      UnboundPacketsLeaveNoTrace(build, st, s, before);
      PurgedSnoc(build, st, s, events);
      if last.Batch? {
        TickPurged(build, st, Run(build, st, s, kept), Total(before) - Total(kept), last.packets);
      }
    }
  }

  lemma PurgedSnoc<W(!new)>(build: Build, st: Settings<W>, s: State<W>, events: seq<Event>)
    requires events != []
    ensures var before, last := events[..|events| - 1], events[|events| - 1];
      var all, kept := Purged(build, st, s, events), Purged(build, st, s, before);
      && all != [] && all[..|all| - 1] == kept
      && all[|all| - 1] ==
         if last.Batch? then Batch(Authentic(build, st, Run(build, st, s, before), last.packets)) else last
  {
  }
}
