/** The single-threaded server: one object, packets handled as they are received. */
module AuthoritativeServers {
  import opened Words
  import opened Wrappers
  import opened Bytes
  import opened Manifests
  import opened Protocol
  import opened OrderedKeys
  import opened Sessions
  import opened CommandBuffers
  import opened AdminRoles
  import opened Tokens
  import opened ServerSteps
  import opened SimulationState

  class AuthoritativeServer<W(!new)> {
    const settings: Settings<W>
    const sim: WorldState<W>
    const registry: AdminRegistry
    const tokens: TokenIssuer
    var sessions: SessionTable
    var nextSessionId: nat
    var lastBroadcastSeq: nat
    var commandsBlocked: nat
    var commandsRejected: nat
    var outbox: seq<Packet>

    /** The whole server as a value. */
    ghost function View(): State<W>
      reads this, sim, sim.commandBuffer, registry, tokens
    {
      State(sim.world, sim.tick, sim.commandBuffer.commands, sim.directives, sessions, nextSessionId,
            lastBroadcastSeq, tokens.state, registry.roles, registry.granted, registry.denied, commandsBlocked,
            commandsRejected, outbox, sim.applied)
    }

    constructor (settings: Settings<W>, world: W, seed: u64)
      ensures this.settings == settings
      ensures View() == Initial(world, if seed % 2 == 0 then seed + 1 else seed)
      ensures fresh(sim) && fresh(sim.commandBuffer) && fresh(registry) && fresh(tokens)
    {
      this.settings := settings;
      sim := new WorldState(world);
      registry := new AdminRegistry();
      tokens := new TokenIssuer.WithSeed(seed);
      sessions, nextSessionId, lastBroadcastSeq := map[], 1, 0;
      commandsBlocked, commandsRejected, outbox := 0, 0, [];
    }

    /** Granting a role is the one act that no packet can bring about. */
    method SetAdminRole(session: nat, role: Role)
      modifies registry
      ensures View() == old(View()).(roles := WithRole(old(registry.roles), session, role))
    {
      registry.SetRole(session, role);
    }

    // ---------------------------------------------------------------- packets

    method DisconnectSession(id: nat)
      modifies this`sessions, registry
      ensures View() == ServerSteps.Disconnect(old(View()), id)
    {
      if id in sessions {
        sessions := sessions[id := sessions[id].(state := SessionState.Disconnected)];
      }
      registry.RemoveSession(id);
    }

    method RejectHandshake(reason: Text)
      modifies this`outbox
      ensures View() == old(View()).(outbox := old(outbox) +
                [HandshakePacket(0, lastBroadcastSeq, ServerHello(false, 0, Word(sim.tick), Some(reason), 0))])
    {
      outbox := outbox + [HandshakePacket(0, lastBroadcastSeq, ServerHello(false, 0, Word(sim.tick), Some(reason), 0))];
    }

    method HandleClientHello(version: u32, name: Text, source: Option<SocketAddr>)
      modifies this, tokens
      ensures View() == Connect(settings, old(View()), version, name, source)
    {
      lastBroadcastSeq := lastBroadcastSeq + 1;
      if version != PROTOCOL_VERSION {
        RejectHandshake(settings.refusal(version));
        return;
      }
      var id := nextSessionId;
      var player := id % 0x1_0000_0000;
      nextSessionId := nextSessionId + 1;
      var faction := if Spectates(name) then NULL_FACTION else DEFAULT_SESSION_FACTION;
      var token := tokens.NextToken();
      var session := Session(id, Connected, name, 0, sim.tick, sim.tick, 0, 0, player, faction, false, source, token);
      session := session.(state := Active);
      sessions := sessions[id := session];
      outbox := outbox + [HandshakePacket(id, lastBroadcastSeq, ServerHello(true, Word(id), Word(sim.tick), None,
          token))];
    }

    method HandleClientManifest(id: nat, manifest: Manifest)
      modifies this, registry
      ensures View() ==
              if !ManifestAccepted(settings, manifest)
              then ServerSteps.Disconnect(old(View()).(blocked := old(commandsBlocked) + 1), id)
              else if id in old(sessions)
              then old(View()).(sessions := old(sessions)[id := old(sessions)[id].(manifestVerified := true)])
              else old(View())
    {
      if ManifestAccepted(settings, manifest) {
        if id in sessions {
          sessions := sessions[id := sessions[id].(manifestVerified := true)];
        }
      } else {
        commandsBlocked := commandsBlocked + 1;
        DisconnectSession(id);
      }
    }

    method HandleCommand(e: Envelope, source: Option<SocketAddr>)
      modifies this, registry, sim.commandBuffer
      ensures View() == Ingest(SingleThreaded, settings, old(View()), e, source)
    {
      hide Ingest, RequiredPermission, Permissions;
      ghost var s := View();
      IngestCases(SingleThreaded, settings, s, e, source);
      var bound := BindCommandPacket(Find(sessions, e.session), e.token, source);
      if bound.Err? {
        commandsBlocked := commandsBlocked + 1;
        return;
      }
      var session := sessions[e.session];
      session := session.(heartbeat := sim.tick);
      if e.sequence <= session.lastSequence {
        sessions := sessions[e.session := session.Advance(e.sequence)];
        return;
      }
      session := session.Advance(e.sequence);
      sessions := sessions[e.session := session];
      if e.command.SubmitClientManifest? {
        WriteTwice(s.sessions, e.session, session, session.(manifestVerified := true));
        WriteTwice(s.sessions, e.session, session, session.(state := SessionState.Disconnected));
        HandleClientManifest(e.session, Submitted(e.command));
        return;
      }
      var permission := RequiredPermission(e.command);
      if permission.Some? {
        var allowed := registry.Authorize(e.session, permission.value);
        if !allowed {
          commandsBlocked := commandsBlocked + 1;
          return;
        }
      }
      if RequiresManifest(settings.policy) && !session.manifestVerified {
        commandsBlocked := commandsBlocked + 1;
        return;
      }
      sim.AddCommand(e);
    }

    method HandlePing(session: u64, timestamp: u64)
      modifies this
      ensures View() == Ping(old(View()), session, timestamp)
    {
      if session in sessions {
        sessions := sessions[session := sessions[session].(heartbeat := sim.tick)];
      }
      lastBroadcastSeq := lastBroadcastSeq + 1;
      outbox := outbox + [Packet(Header(PROTOCOL_VERSION, session, Word(lastBroadcastSeq), 6),
                                 PongPayload(timestamp, Word(sim.tick)))];
    }

    method HandleInboundPacket(i: Inbound)
      modifies this, registry, tokens, sim.commandBuffer
      ensures View() == Handle(SingleThreaded, settings, old(View()), i)
    {
      hide Ingest, Connect, ServerSteps.Disconnect, Ping;
      match i.packet.payload {
        case HandshakePayload(m) =>
          match m {
            case ClientHello(version, name) => HandleClientHello(version, name, i.source);
            case Disconnect(session, _) => DisconnectSession(session);
            case ServerHello(_, _, _, _, _) =>
          }
        case CommandPayload(_, _, _, _, _) => HandleCommand(EnvelopeOf(i.packet.payload), i.source);
        case PingPayload(timestamp) => HandlePing(i.packet.header.session, timestamp);
        case _ =>
      }
    }

    // ---------------------------------------------------------------- the tick

    method ExecuteSessionDirective(d: Directive)
      modifies this`sessions, registry
      ensures View() == Execute(old(View()), d)
    {
      match d {
        case KickSession(target, _) => DisconnectSession(target);
        case SetTrustLevel(_, _) =>
        case SetSessionRole(target, code) =>
          var role := RoleFromCode(code);
          if role.Some? {
            registry.SetRole(target, role.value);
          }
      }
    }

    method TimedOutAmong(ids: seq<nat>) returns (timedOut: seq<nat>)
      requires forall id :: id in ids ==> id in sessions
      ensures forall id :: id in timedOut <==>
                id in ids && Expires(SingleThreaded, sessions[id], sim.tick, settings.timeout)
    {
      timedOut := [];
      for i := 0 to |ids|
        invariant forall id :: id in timedOut <==>
                    id in ids[..i] && Expires(SingleThreaded, sessions[id], sim.tick, settings.timeout)
      {
        assert ids[..i + 1] == ids[..i] + [ids[i]];
        var session := sessions[ids[i]];
        if session.state != SessionState.Disconnected && session.TimedOut(sim.tick, settings.timeout) {
          timedOut := timedOut + [ids[i]];
        }
      }
      assert ids[..|ids|] == ids;
    }

    /** The sessions to expire are listed first and disconnected after. */
    method DisconnectTimedOut()
      modifies this`sessions, registry
      ensures View() == Expire(SingleThreaded, settings, old(View()))
    {
      hide Expires, Expire, Ascending;
      ghost var s := View();
      var timedOut := TimedOutAmong(Ascending(sessions.Keys));
      DisconnectAll(timedOut);
      ExpireIsLeaving(SingleThreaded, settings, s, set id | id in timedOut);
    }

    method DisconnectAll(ids: seq<nat>)
      requires forall id :: id in ids ==> id in sessions
      modifies this`sessions, registry
      ensures View() == old(View()).(sessions := Left(old(sessions), set id | id in ids),
                                     roles := old(registry.roles) - (set id | id in ids))
    {
      ghost var s := View();
      ghost var done: set<nat> := {};
      assert Left(sessions, {}) == sessions && registry.roles - {} == registry.roles;
      for i := 0 to |ids|
        invariant done == set id | id in ids[..i]
        invariant View() == s.(sessions := Left(s.sessions, done), roles := s.roles - done)
      {
        assert ids[..i + 1] == ids[..i] + [ids[i]];
        LeaveOne(s.sessions, done, ids[i]);
        assert s.roles - done - {ids[i]} == s.roles - (done + {ids[i]});
        DisconnectSession(ids[i]);
        done := done + {ids[i]};
      }
      assert ids[..|ids|] == ids;
    }

    method SnapshotView(session: Session, entities: seq<EntitySnapshot>) returns (view: Payload)
      requires entities == settings.engine.entities(sim.world)
      ensures view == SnapshotFor(settings.engine, sim.world, sim.tick, session)
    {
      if session.faction == NULL_FACTION {
        return SnapshotPayload(Word(sim.tick), entities);
      }
      var known := FilterKnown(settings, sim.world, session.faction, entities);
      return SnapshotPayload(Word(sim.tick), known);
    }

    method SendSnapshots(entities: seq<EntitySnapshot>, ids: seq<nat>)
      requires entities == settings.engine.entities(sim.world)
      requires forall id :: id in ids ==> id in sessions
      modifies this`outbox
      ensures outbox == old(outbox) +
                Snapshots(settings.engine, sim.world, sim.tick, lastBroadcastSeq, sessions, ids)
    {
      hide Word, SnapshotFor;
      for i := 0 to |ids|
        invariant outbox == old(outbox) +
                    Snapshots(settings.engine, sim.world, sim.tick, lastBroadcastSeq, sessions, ids[..i])
      {
        assert ids[..i + 1][..i] == ids[..i];
        var session := sessions[ids[i]];
        if session.IsActive() {
          var view := SnapshotView(session, entities);
          outbox := outbox + [Packet(Header(PROTOCOL_VERSION, Word(ids[i]), Word(lastBroadcastSeq), 3), view)];
        }
      }
      assert ids[..|ids|] == ids;
    }

    method BroadcastSnapshot()
      modifies this`outbox, this`lastBroadcastSeq
      ensures View() == Broadcast(settings, old(View()))
    {
      hide Snapshots, Ascending;
      if sessions == map[] {
        return;
      }
      var entities := settings.engine.entities(sim.world);
      lastBroadcastSeq := lastBroadcastSeq + 1;
      SendSnapshots(entities, Ascending(sessions.Keys));
    }

    method ReceiveAll(batch: seq<Inbound>)
      modifies this, registry, tokens, sim.commandBuffer
      ensures View() == Receive(SingleThreaded, settings, old(View()), batch)
    {
      hide Handle;
      for i := 0 to |batch|
        invariant View() == Receive(SingleThreaded, settings, old(View()), batch[..i])
      {
        assert batch[..i + 1][..i] == batch[..i];
        HandleInboundPacket(batch[i]);
      }
      assert batch[..|batch|] == batch;
    }

    method ExecuteDirectives(directives: seq<Directive>)
      modifies this`sessions, registry
      ensures View() == ExecuteAll(old(View()), directives)
    {
      hide Execute;
      for i := 0 to |directives|
        invariant View() == ExecuteAll(old(View()), directives[..i])
      {
        assert directives[..i + 1][..i] == directives[..i];
        ExecuteSessionDirective(directives[i]);
      }
      assert directives[..|directives|] == directives;
    }

    method ApplyCommands()
      modifies this`commandsRejected, sim, sim.commandBuffer
      ensures View() == ApplyBuffered(settings, old(View()))
    {
      hide ApplyBuffered;
      var refused := sim.ApplyBufferedCommands(settings, View(), sessions, registry);
      commandsRejected := commandsRejected + refused;
    }

    method CarryOutDirectives()
      modifies this`sessions, registry, sim`directives
      ensures View() == CarryOut(old(View()))
    {
      hide ExecuteAll;
      var directives := sim.DrainSessionDirectives();
      ExecuteDirectives(directives);
    }

    /** Every pending packet, then one authoritative tick. */
    method StepTick(batch: seq<Inbound>)
      modifies this, registry, tokens, sim, sim.commandBuffer
      ensures View() == Tick(SingleThreaded, settings, old(View()), batch)
    {
      hide Receive, ApplyBuffered, CarryOut, Expire, Broadcast;
      ReceiveAll(batch);
      sim.tick := sim.tick + 1;
      ApplyCommands();
      CarryOutDirectives();
      sim.StepSystems(settings);
      DisconnectTimedOut();
      BroadcastSnapshot();
    }
  }
}
