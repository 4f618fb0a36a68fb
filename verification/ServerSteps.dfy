/**
 The session layer as a state machine. The single-threaded and the threaded server are two
 builds of it; the places where their code differs are exactly those that consult the build.
 */
module ServerSteps {
  import opened Words
  import opened Wrappers
  import opened Bytes
  import opened Manifests
  import opened Protocol
  import opened OrderedKeys
  import opened Sessions
  import opened CommandBuffers
  import opened AdminRoles
  import opened Tokens

  const PROTOCOL_VERSION: u32 := 1
  const DEFAULT_SESSION_FACTION: u32 := 1
  const NULL_FACTION: u32 := 0

  // ---------------------------------------------------------------- configuration

  /** Who acts, built from the session the server issued and never from a payload. */
  datatype Actor = Actor(session: nat, player: u32, faction: u32, avatar: nat, role: Byte)

  /** The simulation behind the session layer. */
  datatype Engine<!W> = Engine(
    avatar: (W, u32, u32) -> (W, nat),
    perform: (W, nat, Actor, Command) -> (W, bool),
    step: (W, nat) -> W,
    entities: W -> seq<EntitySnapshot>,
    knows: (W, u32, u64) -> bool
  )

  datatype Settings<!W> = Settings(
    engine: Engine<W>,
    policy: ServerPolicy,
    manifest: Manifest,
    manifestHash: Manifest -> u64,
    refusal: u32 -> Text,
    timeout: nat
  )

  datatype Directive =
    | KickSession(target: nat, reason: Byte)
    | SetTrustLevel(target: nat, trust: Byte)
    | SetSessionRole(target: nat, role: Byte)

  datatype Inbound = Inbound(packet: Packet, source: Option<SocketAddr>)

  datatype Build = SingleThreaded | Threaded

  /** `applied` records every envelope handed to the simulation, in order. */
  datatype State<W> = State(
    world: W,
    tick: nat,
    buffer: seq<Envelope>,
    directives: seq<Directive>,
    sessions: SessionTable,
    nextSessionId: nat,
    sent: nat,
    tokenState: u64,
    roles: RoleTable,
    granted: nat,
    denied: nat,
    blocked: nat,
    rejected: nat,
    outbox: seq<Packet>,
    applied: seq<Envelope>
  )

  /** What 64 bits keep of a counter. */
  function Word(n: nat): u64 {
    n % 0x1_0000_0000_0000_0000
  }

  function Initial<W>(world: W, tokenState: u64): State<W> {
    State(world, 0, [], [], map[], 1, 0, tokenState, map[], 0, 0, 0, 0, [], [])
  }

  predicate ManifestAccepted<W>(st: Settings<W>, m: Manifest) {
    Validates(st.policy, st.manifest, st.manifestHash, m)
  }

  // ---------------------------------------------------------------- command ingress

  /** What one command packet does; it depends on its own session's entry and role alone. */
  datatype Ruling = Ruling(
    session: Option<Session>,
    keepsRole: bool,
    granted: nat,
    denied: nat,
    blocked: nat,
    buffered: bool
  )

  function Submitted(c: Command): Manifest
    requires c.SubmitClientManifest?
  {
    Manifest(c.buildId, c.protocolVersion, c.contentHash, c.official)
  }

  /** A session that has passed its sequence gate: the manifest, admin and policy gates. */
  function Judge<W>(build: Build, st: Settings<W>, x: Session, role: Role, c: Command): Ruling {
    if c.SubmitClientManifest? then
      if ManifestAccepted(st, Submitted(c)) then Ruling(Some(x.(manifestVerified := true)), true, 0, 0, 0, false)
      else Ruling(Some(x.(state := Disconnected)), build.Threaded?, 0, 0, 1, false)
    else
      var needs := RequiredPermission(c);
      if needs.Some? && needs.value !in Permissions(role) then Ruling(Some(x), true, 0, 1, 1, false)
      else
        var passes := !RequiresManifest(st.policy) || x.manifestVerified;
        Ruling(Some(x), true, if needs.Some? then 1 else 0, 0, if passes then 0 else 1, passes)
  }

  function Rule<W>(build: Build, st: Settings<W>, tick: nat, session: Option<Session>, role: Role, e: Envelope,
                   source: Option<SocketAddr>): Ruling
  {
    if BindCommandPacket(session, e.token, source).Err? then Ruling(session, true, 0, 0, 1, false)
    else
      var alive := session.value.(heartbeat := tick);
      if e.sequence <= alive.lastSequence then Ruling(Some(alive.Advance(e.sequence)), true, 0, 0, 0, false)
      else Judge(build, st, alive.Advance(e.sequence), role, e.command)
  }

  function RuleFor<W>(build: Build, st: Settings<W>, s: State<W>, e: Envelope, source: Option<SocketAddr>): Ruling {
    Rule(build, st, s.tick, Find(s.sessions, e.session), RoleOf(s.roles, e.session), e, source)
  }

  function Enforce<W>(s: State<W>, e: Envelope, r: Ruling): State<W> {
    s.(sessions := if r.session.Some? then s.sessions[e.session := r.session.value] else s.sessions,
       roles := if r.keepsRole then s.roles else s.roles - {e.session},
       granted := s.granted + r.granted,
       denied := s.denied + r.denied,
       blocked := s.blocked + r.blocked,
       buffer := if r.buffered then s.buffer + [e] else s.buffer)
  }

  function Ingest<W>(build: Build, st: Settings<W>, s: State<W>, e: Envelope, source: Option<SocketAddr>): State<W> {
    Enforce(s, e, RuleFor(build, st, s, e, source))
  }

  // ---------------------------------------------------------------- handshakes and pings

  function Disconnect<W>(s: State<W>, id: nat): State<W> {
    s.(sessions := if id in s.sessions then s.sessions[id := s.sessions[id].(state := Disconnected)] else s.sessions,
       roles := s.roles - {id})
  }

  function LowerCase(b: Byte): Byte {
    if 65 <= b <= 90 then b + 32 else b
  }

  predicate EqualIgnoringCase(a: Octets, b: Octets) {
    |a| == |b| && forall i :: 0 <= i < |a| ==> LowerCase(a[i]) == LowerCase(b[i])
  }

  const OBSERVER: Octets := [111, 98, 115, 101, 114, 118, 101, 114]
  const SPECTATOR: Octets := [115, 112, 101, 99, 116, 97, 116, 111, 114]

  predicate Spectates(name: Text) {
    EqualIgnoringCase(name, OBSERVER) || EqualIgnoringCase(name, SPECTATOR)
  }

  function HandshakePacket(session: nat, sent: nat, m: Handshake): Packet {
    Packet(Header(PROTOCOL_VERSION, Word(session), Word(sent), 1), HandshakePayload(m))
  }

  function NewSession(id: nat, name: Text, tick: nat, token: u64, source: Option<SocketAddr>): Session {
    Session(id, Active, name, 0, tick, tick, 0, 0, id % 0x1_0000_0000,
            if Spectates(name) then NULL_FACTION else DEFAULT_SESSION_FACTION, false, source, token)
  }

  function Connect<W>(st: Settings<W>, s: State<W>, version: u32, name: Text, source: Option<SocketAddr>): State<W> {
    var sent := s.sent + 1;
    if version != PROTOCOL_VERSION then
      var reply := ServerHello(false, 0, Word(s.tick), Some(st.refusal(version)), 0);
      s.(sent := sent, outbox := s.outbox + [HandshakePacket(0, sent, reply)])
    else
      var id := s.nextSessionId;
      var tokenState := WrappingAdd(s.tokenState, GAMMA);
      var token := TokenOf(tokenState);
      var reply := ServerHello(true, Word(id), Word(s.tick), None, token);
      s.(sent := sent, nextSessionId := id + 1, tokenState := tokenState,
         sessions := s.sessions[id := NewSession(id, name, s.tick, token, source)],
         outbox := s.outbox + [HandshakePacket(id, sent, reply)])
  }

  function Ping<W>(s: State<W>, session: u64, timestamp: u64): State<W> {
    var sent := s.sent + 1;
    s.(sessions := if session in s.sessions then s.sessions[session := s.sessions[session].(heartbeat := s.tick)]
                   else s.sessions,
       sent := sent,
       outbox := s.outbox +
         [Packet(Header(PROTOCOL_VERSION, session, Word(sent), 6), PongPayload(timestamp, Word(s.tick)))])
  }

  function EnvelopeOf(p: Payload): Envelope
    requires p.CommandPayload?
  {
    Envelope(p.session, p.sequence, p.clientTick, p.token, p.command)
  }

  function Handle<W>(build: Build, st: Settings<W>, s: State<W>, i: Inbound): State<W> {
    match i.packet.payload
    case HandshakePayload(m) =>
      (match m
       case ClientHello(version, name) => Connect(st, s, version, name, i.source)
       case Disconnect(session, _) => Disconnect(s, session)
       case ServerHello(_, _, _, _, _) => s)
    case CommandPayload(_, _, _, _, _) => Ingest(build, st, s, EnvelopeOf(i.packet.payload), i.source)
    case PingPayload(timestamp) => Ping(s, i.packet.header.session, timestamp)
    case SnapshotPayload(_, _) => s
    case DeltaPayload(_, _, _, _) => s
    case PongPayload(_, _) => s
  }

  /** The packets that arrived since the last tick, in order. */
  function Receive<W>(build: Build, st: Settings<W>, s: State<W>, batch: seq<Inbound>): State<W>
    decreases |batch|
  {
    if batch == [] then s
    else Handle(build, st, Receive(build, st, s, batch[..|batch| - 1]), batch[|batch| - 1])
  }

  // ---------------------------------------------------------------- dispatch

  function Queue<W>(s: State<W>, d: Directive): State<W> {
    s.(directives := s.directives + [d])
  }

  /** The privileged arms are decided here; every other command is the engine's. */
  function ApplyCommand<W>(st: Settings<W>, s: State<W>, actor: Actor, c: Command): (State<W>, bool) {
    if actor.faction == NULL_FACTION then (s, false)
    else if c.Action? || c.RequestResource? || c.SubmitClientManifest? then (s, false)
    else if RequiredPermission(c).Some? && actor.role == 0 then (s, false)
    else if c.AdminKickSession? then (Queue(s, Directive.KickSession(c.session, c.reason)), true)
    else if c.AdminSetTrustLevel? then (Queue(s, Directive.SetTrustLevel(c.session, c.trust)), true)
    else if c.AdminSetSessionRole? then (Queue(s, Directive.SetSessionRole(c.session, c.role)), true)
    else
      var (world, ok) := st.engine.perform(s.world, s.tick, actor, c);
      (s.(world := world), ok)
  }

  /** The avatar is created on first use, even when the command is then refused. */
  function Avatar<W>(st: Settings<W>, world: W, player: u32, faction: u32): (W, nat) {
    if player == 0 then (world, 0) else st.engine.avatar(world, player, faction)
  }

  function DispatchOne<W>(st: Settings<W>, s: State<W>, e: Envelope): State<W> {
    if e.session !in s.sessions then s.(rejected := s.rejected + 1)
    else
      var x := s.sessions[e.session];
      var (world, avatar) := Avatar(st, s.world, x.player, x.faction);
      var actor := Actor(e.session, x.player, x.faction, avatar, RoleCode(RoleOf(s.roles, e.session)));
      var (after, ok) := ApplyCommand(st, s.(world := world, applied := s.applied + [e]), actor, e.command);
      if ok then after else after.(rejected := after.rejected + 1)
  }

  function Dispatch<W>(st: Settings<W>, s: State<W>, es: seq<Envelope>): State<W> {
    if es == [] then s else DispatchOne(st, Dispatch(st, s, es[..|es| - 1]), es[|es| - 1])
  }

  function Execute<W>(s: State<W>, d: Directive): State<W> {
    match d
    case KickSession(target, _) => Disconnect(s, target)
    case SetTrustLevel(_, _) => s
    case SetSessionRole(target, code) =>
      if RoleFromCode(code).Some? then s.(roles := WithRole(s.roles, target, RoleFromCode(code).value)) else s
  }

  function ExecuteAll<W>(s: State<W>, ds: seq<Directive>): State<W> {
    if ds == [] then s else Execute(ExecuteAll(s, ds[..|ds| - 1]), ds[|ds| - 1])
  }

  // ---------------------------------------------------------------- timeouts and broadcast

  /** The single-threaded server leaves sessions alone that have left already. */
  predicate Expires(build: Build, x: Session, tick: nat, timeout: nat) {
    x.TimedOut(tick, timeout) && (build.SingleThreaded? ==> x.state != Disconnected)
  }

  function Expire<W>(build: Build, st: Settings<W>, s: State<W>): State<W> {
    s.(sessions := map id | id in s.sessions ::
         if Expires(build, s.sessions[id], s.tick, st.timeout) then s.sessions[id].(state := Disconnected)
         else s.sessions[id],
       roles := s.roles - (set id | id in s.sessions && Expires(build, s.sessions[id], s.tick, st.timeout)))
  }

  function Known<W>(engine: Engine<W>, world: W, faction: u32, es: seq<EntitySnapshot>): seq<EntitySnapshot> {
    if es == [] then []
    else
      var before, last := Known(engine, world, faction, es[..|es| - 1]), es[|es| - 1];
      if engine.knows(world, faction, last.id) then before + [last] else before
  }

  /** A spectator sees every entity, a player what the faction knows. */
  function SnapshotFor<W>(engine: Engine<W>, world: W, tick: nat, x: Session): Payload {
    var all := engine.entities(world);
    SnapshotPayload(Word(tick), if x.faction == NULL_FACTION then all else Known(engine, world, x.faction, all))
  }

  function Snapshots<W>(engine: Engine<W>, world: W, tick: nat, sent: nat, sessions: SessionTable, ids: seq<nat>)
    : seq<Packet>
    requires forall id :: id in ids ==> id in sessions
  {
    if ids == [] then []
    else
      var before, id := Snapshots(engine, world, tick, sent, sessions, ids[..|ids| - 1]), ids[|ids| - 1];
      if sessions[id].IsActive()
      then before +
           [Packet(Header(PROTOCOL_VERSION, Word(id), Word(sent), 3), SnapshotFor(engine, world, tick, sessions[id]))]
      else before
  }

  function Broadcast<W>(st: Settings<W>, s: State<W>): State<W> {
    if s.sessions == map[] then s
    else
      var sent := s.sent + 1;
      s.(sent := sent,
         outbox := s.outbox +
           Snapshots(st.engine, s.world, s.tick, sent, s.sessions, Ascending(s.sessions.Keys)))
  }

  // ---------------------------------------------------------------- ticks

  /** Drain and dispatch. */
  function ApplyBuffered<W>(st: Settings<W>, s: State<W>): State<W> {
    Dispatch(st, s.(buffer := []), Sorted(s.buffer))
  }

  function CarryOut<W>(s: State<W>): State<W> {
    ExecuteAll(s.(directives := []), s.directives)
  }

  function StepSystems<W>(st: Settings<W>, s: State<W>): State<W> {
    s.(world := st.engine.step(s.world, s.tick))
  }

  /** Everything a tick does once its packets are in. */
  function Advance<W>(build: Build, st: Settings<W>, s: State<W>): State<W> {
    Broadcast(st, Expire(build, st, StepSystems(st, CarryOut(ApplyBuffered(st, s.(tick := s.tick + 1))))))
  }

  function Tick<W>(build: Build, st: Settings<W>, s: State<W>, batch: seq<Inbound>): State<W> {
    Advance(build, st, Receive(build, st, s, batch))
  }

  // ---------------------------------------------------------------- runs

  /** A tick with the packets received before it, or a role granted by the server's owner. */
  datatype Event = Batch(packets: seq<Inbound>) | Grant(session: nat, role: Role)

  function Occur<W>(build: Build, st: Settings<W>, s: State<W>, event: Event): State<W> {
    match event
    case Batch(packets) => Tick(build, st, s, packets)
    case Grant(session, role) => s.(roles := WithRole(s.roles, session, role))
  }

  function Run<W>(build: Build, st: Settings<W>, s: State<W>, events: seq<Event>): State<W> {
    if events == [] then s
    else Occur(build, st, Run(build, st, s, events[..|events| - 1]), events[|events| - 1])
  }
}
