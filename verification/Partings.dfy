/** Short runs from start-up on which the two servers part, and on which a departed session is obeyed. */
module Partings {
  import opened Words
  import opened Wrappers
  import opened Bytes
  import opened Manifests
  import opened Protocol
  import opened Sessions
  import opened CommandBuffers
  import opened AdminRoles
  import opened Tokens
  import opened ServerSteps
  import opened LockStep

  // ---------------------------------------------------------------- the packets of a single client

  function Hello(): Inbound {
    Inbound(Packet(Header(PROTOCOL_VERSION, 0, 1, 1), HandshakePayload(ClientHello(PROTOCOL_VERSION, []))), None)
  }

  function Goodbye(session: u64): Inbound {
    Inbound(Packet(Header(PROTOCOL_VERSION, session, 2, 1), HandshakePayload(Handshake.Disconnect(session, []))), None)
  }

  function Order(session: u64, sequence: u64, token: u64, c: Command): Inbound {
    Inbound(Packet(Header(PROTOCOL_VERSION, session, 3, 2), CommandPayload(session, sequence, 0, token, c)), None)
  }

  function Submission(m: Manifest): Command {
    SubmitClientManifest(m.buildId, m.protocolVersion, m.contentHash, m.official)
  }

  /** The token of the first session. */
  function FirstToken(tokenState: u64): u64 {
    TokenOf(WrappingAdd(tokenState, GAMMA))
  }

  function Guest(tokenState: u64): Session {
    NewSession(1, [], 0, FirstToken(tokenState), None)
  }

  // ---------------------------------------------------------------- ticks with nothing to dispatch

  lemma NothingToApply<W(!new)>(st: Settings<W>, t: State<W>)
    requires t.buffer == [] && t.directives == []
    ensures CarryOut(ApplyBuffered(st, t)) == t
  {
    assert ApplyBuffered(st, t) == t;
  }

  lemma SweepIgnoresWorld<W(!new)>(build: Build, st: Settings<W>, t: State<W>, world: W)
    ensures Expire(build, st, t.(world := world)) == Expire(build, st, t).(world := world)
  {
    hide Expires;
  }

  lemma SweepTouchesSessions<W(!new)>(build: Build, st: Settings<W>, t: State<W>)
    ensures var u := Expire(build, st, t); u == t.(sessions := u.sessions, roles := u.roles)
  {
    hide Expires;
  }

  lemma BroadcastOnlySends<W(!new)>(st: Settings<W>, t: State<W>)
    ensures var u := Broadcast(st, t); u == t.(sent := u.sent, outbox := u.outbox)
  {
    hide Snapshots;
  }

  /** With nothing buffered and no directive waiting, what a tick does to sessions and roles is its sweep. */
  lemma IdleTick<W(!new)>(build: Build, st: Settings<W>, s: State<W>, batch: seq<Inbound>, t: State<W>)
    requires t == Receive(build, st, s, batch) && t.buffer == [] && t.directives == []
    ensures var u, swept := Tick(build, st, s, batch), Expire(build, st, t.(tick := t.tick + 1));
      && u.tick == t.tick + 1 && u.sessions == swept.sessions && u.roles == swept.roles
      && u.buffer == [] && u.directives == [] && u.applied == t.applied
  {
    hide Receive, Expire, Broadcast, CarryOut, ApplyBuffered;
    var v := t.(tick := t.tick + 1);
    NothingToApply(st, v);
    SweepIgnoresWorld(build, st, v, st.engine.step(v.world, v.tick));
    BroadcastOnlySends(st, Expire(build, st, StepSystems(st, v)));
    SweepTouchesSessions(build, st, v);
  }

  lemma ReceiveOne<W(!new)>(build: Build, st: Settings<W>, s: State<W>, p: Inbound)
    ensures Receive(build, st, s, [p]) == Handle(build, st, s, p)
  {
    assert [p][..0] == [];
  }

  /** A first client connects. */
  lemma FirstHello<W(!new)>(build: Build, st: Settings<W>, world: W, tokenState: u64)
    ensures var t := Receive(build, st, Initial(world, tokenState), [Hello()]);
      && t.sessions == map[1 := Guest(tokenState)] && t.roles == map[] && t.tick == 0
      && t.buffer == [] && t.directives == [] && t.applied == []
  {
    hide NewSession, TokenOf, WrappingAdd;
    ReceiveOne(build, st, Initial(world, tokenState), Hello());
  }

  lemma FirstTick<W(!new)>(build: Build, st: Settings<W>, world: W, tokenState: u64)
    requires st.timeout >= 1
    ensures var t := Tick(build, st, Initial(world, tokenState), [Hello()]);
      && t.sessions == map[1 := Guest(tokenState)] && t.roles == map[] && t.tick == 1
      && t.buffer == [] && t.directives == [] && t.applied == []
  {
    hide Tick, Receive, FirstToken;
    var t := Receive(build, st, Initial(world, tokenState), [Hello()]);
    FirstHello(build, st, world, tokenState);
    IdleTick(build, st, Initial(world, tokenState), [Hello()], t);
  }

  // ---------------------------------------------------------------- a refused manifest

  /** A client connects, is made a moderator and submits a manifest. */
  function ModeratorRun(tokenState: u64, m: Manifest): seq<Event> {
    [Batch([Hello()]), Grant(1, Moderator), Batch([Order(1, 1, FirstToken(tokenState), Submission(m))])]
  }

  lemma OneMore<W(!new)>(build: Build, st: Settings<W>, s: State<W>, events: seq<Event>, e: Event)
    ensures Run(build, st, s, events + [e]) == Occur(build, st, Run(build, st, s, events), e)
  {
    hide Occur;
    assert (events + [e])[..|events|] == events;
  }

  lemma NothingYet<W(!new)>(build: Build, st: Settings<W>, s: State<W>)
    ensures Run(build, st, s, []) == s
  {
  }

  lemma FirstEvents<W(!new)>(build: Build, st: Settings<W>, s: State<W>, a: Event, b: Event, c: Event)
    ensures Run(build, st, s, [a, b]) == Occur(build, st, Occur(build, st, s, a), b)
    ensures Run(build, st, s, [a, b, c]) == Occur(build, st, Occur(build, st, Occur(build, st, s, a), b), c)
  {
    hide Occur, Run;
    NothingYet(build, st, s);
    OneMore(build, st, s, [], a);
    OneMore(build, st, s, [a], b);
    OneMore(build, st, s, [a, b], c);
    assert [] + [a] == [a] && [a] + [b] == [a, b] && [a, b] + [c] == [a, b, c];
  }

  /** The refusal as each build's handler leaves it. */
  lemma Refusal<W(!new)>(build: Build, st: Settings<W>, s: State<W>, x: Session, m: Manifest)
    requires !ManifestAccepted(st, m)
    requires s.sessions == map[1 := x] && s.roles == map[1 := Moderator]
    requires x.lastSequence == 0 && x.peer.None?
    ensures var t := Receive(build, st, s, [Order(1, 1, x.token, Submission(m))]);
      && t.sessions == map[1 := x.(heartbeat := s.tick).Advance(1).(state := SessionState.Disconnected)]
      && t.roles == (if build.Threaded? then map[1 := Moderator] else map[])
      && t == s.(sessions := t.sessions, roles := t.roles, blocked := s.blocked + 1)
  {
    hide ManifestAccepted;
    var p := Order(1, 1, x.token, Submission(m));
    ReceiveOne(build, st, s, p);
    assert Submitted(p.packet.payload.command) == m;
    assert s.roles - {1} == map[];
  }

  lemma ModeratorRunEnds<W(!new)>(build: Build, st: Settings<W>, world: W, tokenState: u64, m: Manifest)
    requires !ManifestAccepted(st, m) && st.timeout >= 1
    ensures var t := Run(build, st, Initial(world, tokenState), ModeratorRun(tokenState, m));
      && t.sessions == map[1 := Guest(tokenState).(heartbeat := 1).Advance(1).(state := SessionState.Disconnected)]
      && t.roles == if build.Threaded? then map[1 := Moderator] else map[]
  {
    hide Tick, Receive, FirstToken, ManifestAccepted, Run;
    var x, p := Guest(tokenState), Order(1, 1, FirstToken(tokenState), Submission(m));
    FirstEvents(build, st, Initial(world, tokenState), Batch([Hello()]), Grant(1, Moderator), Batch([p]));
    FirstTick(build, st, world, tokenState);
    var s := Tick(build, st, Initial(world, tokenState), [Hello()]).(roles := map[1 := Moderator]);
    Refusal(build, st, s, x, m);
    IdleTick(build, st, s, [p], Receive(build, st, s, [p]));
  }

  /** A moderator whose manifest is refused leaves, and keeps the role on the threaded server only. */
  lemma RefusedModeratorParts<W(!new)>(st: Settings<W>, world: W, tokenState: u64, m: Manifest)
    requires !ManifestAccepted(st, m) && st.timeout >= 1
    ensures var s, events := Initial(world, tokenState), ModeratorRun(tokenState, m);
      var a, b := Run(SingleThreaded, st, s, events), Run(Threaded, st, s, events);
      && 1 in a.sessions && a.sessions[1].state == SessionState.Disconnected
      && a.sessions == b.sessions
      && a.roles == map[] && b.roles == map[1 := Moderator]
  {
    ModeratorRunEnds(SingleThreaded, st, world, tokenState, m);
    ModeratorRunEnds(Threaded, st, world, tokenState, m);
  }

  // ---------------------------------------------------------------- a role for a session that had left

  function Quiet(n: nat): seq<Event> {
    if n == 0 then [] else Quiet(n - 1) + [Batch([])]
  }

  /** A client connects and leaves, is made a moderator all the same, and `n` ticks pass. */
  function LateGrantRun(n: nat): seq<Event> {
    [Batch([Hello(), Goodbye(1)]), Grant(1, Moderator)] + Quiet(n)
  }

  lemma HelloAndGoodbye<W(!new)>(build: Build, st: Settings<W>, world: W, tokenState: u64)
    ensures var t := Tick(build, st, Initial(world, tokenState), [Hello(), Goodbye(1)]);
      && t.sessions == map[1 := Guest(tokenState).(state := SessionState.Disconnected)] && t.roles == map[]
      && t.tick == 1 && t.buffer == [] && t.directives == [] && t.applied == []
  {
    hide FirstToken, Tick;
    var s := Initial(world, tokenState);
    FirstHello(build, st, world, tokenState);
    assert [Hello(), Goodbye(1)][..1] == [Hello()];
    var t := Receive(build, st, s, [Hello(), Goodbye(1)]);
    assert t == Handle(build, st, Receive(build, st, s, [Hello()]), Goodbye(1));
    assert t.roles == map[];
    IdleTick(build, st, s, [Hello(), Goodbye(1)], t);
  }

  lemma QuietTickOnLateGrant<W(!new)>(build: Build, st: Settings<W>, s: State<W>, x: Session)
    requires s.buffer == [] && s.directives == []
    requires s.sessions == map[1 := x] && x.state == SessionState.Disconnected
    requires s.roles == map[] || s.roles == map[1 := Moderator]
    ensures var t := Tick(build, st, s, []);
      && t.sessions == s.sessions
      && t.roles == (if build.Threaded? && s.tick + 1 > x.heartbeat + st.timeout then map[] else s.roles)
      && t.tick == s.tick + 1 && t.buffer == [] && t.directives == []
  {
    hide Tick;
    IdleTick(build, st, s, [], s);
    if build.Threaded? && s.tick + 1 > x.heartbeat + st.timeout {
      assert s.roles - {1} == map[];
    }
  }

  /** The role outlives the session on one server, and its timeout on the other. */
  lemma {:induction false} LateGrantEnds<W(!new)>(build: Build, st: Settings<W>, world: W, tokenState: u64, n: nat)
    ensures var t := Run(build, st, Initial(world, tokenState), LateGrantRun(n));
      && t.sessions == map[1 := Guest(tokenState).(state := SessionState.Disconnected)]
      && t.roles == (if build.Threaded? && n > 0 && n + 1 > st.timeout then map[] else map[1 := Moderator])
      && t.tick == n + 1 && t.buffer == [] && t.directives == []
  {
    hide FirstToken, Tick, Run, Goodbye, Hello;
    var s := Initial(world, tokenState);
    if n == 0 {
      HelloAndGoodbye(build, st, world, tokenState);
      FirstEvents(build, st, s, Batch([Hello(), Goodbye(1)]), Grant(1, Moderator), Batch([]));
      assert LateGrantRun(0) == [Batch([Hello(), Goodbye(1)]), Grant(1, Moderator)];
    } else {
      LateGrantEnds(build, st, world, tokenState, n - 1);
      OneMore(build, st, s, LateGrantRun(n - 1), Batch([]));
      assert LateGrantRun(n) == LateGrantRun(n - 1) + [Batch([])];
      var t := Run(build, st, s, LateGrantRun(n - 1));
      QuietTickOnLateGrant(build, st, t, t.sessions[1]);
    }
  }

  /** Once the timeout has passed, the sweeps have parted over the role of the session that had left. */
  lemma LateGrantParts<W(!new)>(st: Settings<W>, world: W, tokenState: u64)
    ensures var s, events := Initial(world, tokenState), LateGrantRun(st.timeout + 1);
      var a, b := Run(SingleThreaded, st, s, events), Run(Threaded, st, s, events);
      && a.sessions == b.sessions
      && a.roles == map[1 := Moderator] && b.roles == map[]
  {
    LateGrantEnds(SingleThreaded, st, world, tokenState, st.timeout + 1);
    LateGrantEnds(Threaded, st, world, tokenState, st.timeout + 1);
  }
}
