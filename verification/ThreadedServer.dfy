/** The threaded server's simulation loop: the same protocol, written over borrowed state. */
module ThreadedServers {
  import opened Words
  import opened Wrappers
  import opened Bytes
  import opened Manifests
  import opened Protocol
  import opened OrderedKeys
  import opened Sessions
  import opened CommandBuffers
  import opened AdminRoles
  import opened Tokens
  import opened ServerSteps
  import opened SimulationState

  /** Everything the loop passes to its handlers as one security context. */
  class ServerSecurity {
    const registry: AdminRegistry
    const tokens: TokenIssuer
    var commandsBlocked: nat
    var commandsRejected: nat

    constructor (seed: u64)
      ensures fresh(registry) && fresh(tokens)
      ensures registry.roles == map[] && registry.granted == 0 && registry.denied == 0
      ensures tokens.state == if seed % 2 == 0 then seed + 1 else seed
      ensures commandsBlocked == 0 && commandsRejected == 0
    {
      registry := new AdminRegistry();
      tokens := new TokenIssuer.WithSeed(seed);
      commandsBlocked, commandsRejected := 0, 0;
    }
  }

  class SimulationThread<W(!new)> {
    const settings: Settings<W>
    const sim: WorldState<W>
    const security: ServerSecurity
    var sessions: SessionTable
    var nextSessionId: nat
    var lastBroadcastSeq: nat
    var outbound: seq<Packet>

    ghost function View(): State<W>
      reads this, sim, sim.commandBuffer, security, security.registry, security.tokens
    {
      State(sim.world, sim.tick, sim.commandBuffer.commands, sim.directives, sessions, nextSessionId,
            lastBroadcastSeq, security.tokens.state, security.registry.roles, security.registry.granted,
            security.registry.denied, security.commandsBlocked, security.commandsRejected, outbound, sim.applied)
    }

    constructor (settings: Settings<W>, world: W, seed: u64)
      ensures this.settings == settings
      ensures View() == Initial(world, if seed % 2 == 0 then seed + 1 else seed)
      ensures fresh(sim) && fresh(sim.commandBuffer)
      ensures fresh(security) && fresh(security.registry) && fresh(security.tokens)
    {
      this.settings := settings;
      sim := new WorldState(world);
      security := new ServerSecurity(seed);
      sessions, nextSessionId, lastBroadcastSeq, outbound := map[], 1, 0, [];
    }

    // ---------------------------------------------------------------- packets

    method ProcessClientHello(version: u32, name: Text, source: Option<SocketAddr>)
      modifies this, security.tokens
      ensures View() == Connect(settings, old(View()), version, name, source)
    {
      lastBroadcastSeq := lastBroadcastSeq + 1;
      if version != PROTOCOL_VERSION {
        var refusal := ServerHello(false, 0, Word(sim.tick), Some(settings.refusal(version)), 0);
        outbound := outbound + [HandshakePacket(0, lastBroadcastSeq, refusal)];
        return;
      }
      var id, player := nextSessionId, nextSessionId % 0x1_0000_0000;
      nextSessionId := nextSessionId + 1;
      var faction := if Spectates(name) then NULL_FACTION else DEFAULT_SESSION_FACTION;
      var token := security.tokens.NextToken();
      var session := Session(id, Connected, name, 0, sim.tick, sim.tick, 0, 0, player, faction, false, source, token);
      session := session.(state := Active);
      sessions := sessions[id := session];
      var welcome := ServerHello(true, Word(id), Word(sim.tick), None, token);
      outbound := outbound + [HandshakePacket(id, lastBroadcastSeq, welcome)];
    }

    method ProcessDisconnect(id: nat)
      modifies this`sessions, security.registry
      ensures View() == ServerSteps.Disconnect(old(View()), id)
    {
      if id in sessions {
        sessions := sessions[id := sessions[id].(state := SessionState.Disconnected)];
      }
      security.registry.RemoveSession(id);
    }

    method ProcessCommand(e: Envelope, source: Option<SocketAddr>)
      modifies this, security, security.registry, sim.commandBuffer
      ensures View() == Ingest(Threaded, settings, old(View()), e, source)
    {
      hide Ingest, RequiredPermission, Permissions;
      ghost var s := View();
      IngestCases(Threaded, settings, s, e, source);
      var bound := BindCommandPacket(Find(sessions, e.session), e.token, source);
      if bound.Err? {
        security.commandsBlocked := security.commandsBlocked + 1;
        return;
      }
      var session := sessions[e.session].(heartbeat := sim.tick);
      if e.sequence <= session.lastSequence {
        sessions := sessions[e.session := session.Advance(e.sequence)];
        return;
      }
      session := session.Advance(e.sequence);
      if e.command.SubmitClientManifest? {
        // A refused manifest leaves the session's role in place here.
        if ManifestAccepted(settings, Submitted(e.command)) {
          session := session.(manifestVerified := true);
        } else {
          session := session.(state := SessionState.Disconnected);
          security.commandsBlocked := security.commandsBlocked + 1;
        }
        sessions := sessions[e.session := session];
        return;
      }
      sessions := sessions[e.session := session];
      var permission := RequiredPermission(e.command);
      if permission.Some? {
        var allowed := security.registry.Authorize(e.session, permission.value);
        if !allowed {
          security.commandsBlocked := security.commandsBlocked + 1;
          return;
        }
      }
      if RequiresManifest(settings.policy) && !session.manifestVerified {
        security.commandsBlocked := security.commandsBlocked + 1;
        return;
      }
      sim.AddCommand(e);
    }

    method ProcessPing(session: u64, timestamp: u64)
      modifies this
      ensures View() == Ping(old(View()), session, timestamp)
    {
      if session in sessions {
        sessions := sessions[session := sessions[session].(heartbeat := sim.tick)];
      }
      lastBroadcastSeq := lastBroadcastSeq + 1;
      var pong := PongPayload(timestamp, Word(sim.tick));
      outbound := outbound + [Packet(Header(PROTOCOL_VERSION, session, Word(lastBroadcastSeq), 6), pong)];
    }

    method ProcessInboundEnvelope(i: Inbound)
      modifies this, security, security.registry, security.tokens, sim.commandBuffer
      ensures View() == Handle(Threaded, settings, old(View()), i)
    {
      hide Ingest, Connect, ServerSteps.Disconnect, Ping;
      match i.packet.payload {
        case HandshakePayload(m) =>
          match m {
            case ClientHello(version, name) => ProcessClientHello(version, name, i.source);
            case Disconnect(session, _) => ProcessDisconnect(session);
            case ServerHello(_, _, _, _, _) =>
          }
        case CommandPayload(_, _, _, _, _) => ProcessCommand(EnvelopeOf(i.packet.payload), i.source);
        case PingPayload(timestamp) => ProcessPing(i.packet.header.session, timestamp);
        case _ =>
      }
    }

    // ---------------------------------------------------------------- the loop body

    method ExecuteSessionDirective(d: Directive)
      modifies this`sessions, security.registry
      ensures View() == Execute(old(View()), d)
    {
      match d {
        case KickSession(target, _) => ProcessDisconnect(target);
        case SetTrustLevel(_, _) =>
        case SetSessionRole(target, code) =>
          var role := RoleFromCode(code);
          if role.Some? {
            security.registry.SetRole(target, role.value);
          }
      }
    }

    /** Every timed-out session is disconnected in place, those that had left already included. */
    method ExpireAmong(ids: seq<nat>) returns (ghost done: set<nat>)
      requires forall id :: id in ids ==> id in sessions
      requires forall i, j :: 0 <= i < j < |ids| ==> ids[i] < ids[j]
      modifies this`sessions, security.registry
      ensures View() == old(View()).(sessions := Left(old(sessions), done),
          roles := old(security.registry.roles) - done)
      ensures forall id :: id in done <==>
                id in ids && Expires(Threaded, old(sessions)[id], sim.tick, settings.timeout)
    {
      ghost var s := View();
      done := {};
      assert Left(sessions, {}) == sessions && security.registry.roles - {} == security.registry.roles;
      for i := 0 to |ids|
        invariant View() == s.(sessions := Left(s.sessions, done), roles := s.roles - done)
        invariant forall id :: id in done <==>
                    id in ids[..i] && Expires(Threaded, s.sessions[id], s.tick, settings.timeout)
      {
        assert ids[..i + 1] == ids[..i] + [ids[i]];
        assert ids[i] !in done;
        var session := sessions[ids[i]];
        if session.TimedOut(sim.tick, settings.timeout) {
          LeaveOne(s.sessions, done, ids[i]);
          assert s.roles - done - {ids[i]} == s.roles - (done + {ids[i]});
          sessions := sessions[ids[i] := session.(state := SessionState.Disconnected)];
          security.registry.RemoveSession(ids[i]);
          done := done + {ids[i]};
        }
      }
      assert ids[..|ids|] == ids;
    }

    method ExpireSessions()
      modifies this`sessions, security.registry
      ensures View() == Expire(Threaded, settings, old(View()))
    {
      hide Expires, Expire, Ascending;
      ghost var s := View();
      ghost var done := ExpireAmong(Ascending(sessions.Keys));
      ExpireIsLeaving(Threaded, settings, s, done);
    }

    method SessionSnapshot(session: Session, entities: seq<EntitySnapshot>) returns (view: Payload)
      requires entities == settings.engine.entities(sim.world)
      ensures view == SnapshotFor(settings.engine, sim.world, sim.tick, session)
    {
      if session.faction == NULL_FACTION {
        return SnapshotPayload(Word(sim.tick), entities);
      }
      var known := FilterKnown(settings, sim.world, session.faction, entities);
      return SnapshotPayload(Word(sim.tick), known);
    }

    method SendSnapshots(entities: seq<EntitySnapshot>, ids: seq<nat>)
      requires entities == settings.engine.entities(sim.world)
      requires forall id :: id in ids ==> id in sessions
      modifies this`outbound
      ensures outbound == old(outbound) +
                Snapshots(settings.engine, sim.world, sim.tick, lastBroadcastSeq, sessions, ids)
    {
      hide Word, SnapshotFor;
      for i := 0 to |ids|
        invariant outbound == old(outbound) +
                    Snapshots(settings.engine, sim.world, sim.tick, lastBroadcastSeq, sessions, ids[..i])
      {
        assert ids[..i + 1][..i] == ids[..i];
        if sessions[ids[i]].IsActive() {
          var view := SessionSnapshot(sessions[ids[i]], entities);
          outbound := outbound + [Packet(Header(PROTOCOL_VERSION, Word(ids[i]), Word(lastBroadcastSeq), 3), view)];
        }
      }
      assert ids[..|ids|] == ids;
    }

    /** A new broadcast number even when nobody is there; the loop asks first. */
    method BroadcastSnapshots()
      modifies this`outbound, this`lastBroadcastSeq
      ensures lastBroadcastSeq == old(lastBroadcastSeq) + 1
      ensures outbound == old(outbound) + Snapshots(settings.engine, sim.world, sim.tick, lastBroadcastSeq, sessions,
                                                    Ascending(sessions.Keys))
    {
      hide Snapshots, Ascending;
      var entities := settings.engine.entities(sim.world);
      lastBroadcastSeq := lastBroadcastSeq + 1;
      SendSnapshots(entities, Ascending(sessions.Keys));
    }

    method DrainInbound(batch: seq<Inbound>)
      modifies this, security, security.registry, security.tokens, sim.commandBuffer
      ensures View() == Receive(Threaded, settings, old(View()), batch)
    {
      hide Handle;
      for i := 0 to |batch|
        invariant View() == Receive(Threaded, settings, old(View()), batch[..i])
      {
        assert batch[..i + 1][..i] == batch[..i];
        ProcessInboundEnvelope(batch[i]);
      }
      assert batch[..|batch|] == batch;
    }

    method ApplyCommands()
      modifies security`commandsRejected, sim, sim.commandBuffer
      ensures View() == ApplyBuffered(settings, old(View()))
    {
      hide ApplyBuffered;
      var refused := sim.ApplyBufferedCommands(settings, View(), sessions, security.registry);
      security.commandsRejected := security.commandsRejected + refused;
    }

    method CarryOutDirectives()
      modifies this`sessions, security.registry, sim`directives
      ensures View() == CarryOut(old(View()))
    {
      hide Execute;
      var directives := sim.DrainSessionDirectives();
      ghost var s := View();
      for i := 0 to |directives|
        invariant View() == ExecuteAll(s, directives[..i])
      {
        assert directives[..i + 1][..i] == directives[..i];
        ExecuteSessionDirective(directives[i]);
      }
      assert directives[..|directives|] == directives;
    }

    method PublishSnapshots()
      modifies this`outbound, this`lastBroadcastSeq
      ensures View() == Broadcast(settings, old(View()))
    {
      hide Snapshots, Ascending;
      if sessions != map[] {
        BroadcastSnapshots();
      }
    }

    /** One pass of the simulation loop. */
    method RunTick(batch: seq<Inbound>)
      modifies this, security, security.registry, security.tokens, sim, sim.commandBuffer
      ensures View() == Tick(Threaded, settings, old(View()), batch)
    {
      hide Receive, ApplyBuffered, CarryOut, Expire, Broadcast;
      DrainInbound(batch);
      sim.tick := sim.tick + 1;
      ApplyCommands();
      CarryOutDirectives();
      sim.StepSystems(settings);
      ExpireSessions();
      PublishSnapshots();
    }
  }
}
