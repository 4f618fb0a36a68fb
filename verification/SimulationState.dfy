/** The simulation as both servers own it, and the one dispatcher they share. */
module SimulationState {
  import opened Words
  import opened Wrappers
  import opened Manifests
  import opened Protocol
  import opened Sessions
  import opened CommandBuffers
  import opened AdminRoles
  import opened ServerSteps

  class WorldState<W(!new)> {
    var world: W
    var tick: nat
    const commandBuffer: CommandBuffer
    var directives: seq<Directive>
    ghost var applied: seq<Envelope>

    constructor (world: W)
      ensures this.world == world && tick == 0 && directives == [] && applied == []
      ensures fresh(commandBuffer) && commandBuffer.commands == []
    {
      this.world, tick, directives, applied := world, 0, [], [];
      commandBuffer := new CommandBuffer([]);
    }

    /** The simulation's part of a server state. */
    ghost predicate PartOf(s: State<W>)
      reads this, commandBuffer
    {
      && s.world == world && s.tick == tick && s.buffer == commandBuffer.commands
      && s.directives == directives && s.applied == applied
    }

    method AddCommand(e: Envelope)
      modifies commandBuffer
      ensures commandBuffer.commands == old(commandBuffer.commands) + [e]
    {
      commandBuffer.Push(e);
    }

    method DrainSessionDirectives() returns (drained: seq<Directive>)
      modifies this`directives
      ensures drained == old(directives) && directives == []
    {
      drained := directives;
      directives := [];
    }

    method StepSystems(st: Settings<W>)
      modifies this`world
      ensures world == st.engine.step(old(world), tick)
    {
      world := st.engine.step(world, tick);
    }

    /** The dispatcher's arms. */
    method ApplyCommand(st: Settings<W>, ghost s: State<W>, actor: Actor, c: Command) returns (ok: bool)
      requires PartOf(s)
      modifies this`world, this`directives
      ensures var t := ServerSteps.ApplyCommand(st, s, actor, c);
        PartOf(t.0) && ok == t.1 && t.0 == s.(world := world, directives := directives)
    {
      if actor.faction == NULL_FACTION {
        return false;
      }
      if c.Action? || c.RequestResource? || c.SubmitClientManifest? {
        return false;
      }
      if c.AdminKickSession? {
        ok := RequireAdmin(actor);
        if ok {
          directives := directives + [Directive.KickSession(c.session, c.reason)];
        }
      } else if c.AdminSetTrustLevel? {
        ok := RequireAdmin(actor);
        if ok {
          directives := directives + [Directive.SetTrustLevel(c.session, c.trust)];
        }
      } else if c.AdminSetSessionRole? {
        ok := RequireAdmin(actor);
        if ok {
          directives := directives + [Directive.SetSessionRole(c.session, c.role)];
        }
      } else {
        if c.AdminGrantResource? {
          ok := RequireAdmin(actor);
          if !ok {
            return;
          }
        }
        var (after, done) := st.engine.perform(world, tick, actor, c);
        world, ok := after, done;
      }
    }

    method RequireAdmin(actor: Actor) returns (ok: bool)
      ensures ok <==> actor.role > 0
    {
      ok := actor.role > 0;
    }

    /** Builds the actor, creating its avatar on first use, and applies the command. */
    method DispatchEnvelope(st: Settings<W>, ghost s: State<W>, sessions: SessionTable, registry: AdminRegistry,
                            e: Envelope) returns (ok: bool)
      requires PartOf(s) && s.sessions == sessions && s.roles == registry.roles
      modifies this
      ensures var t := DispatchOne(st, s, e);
        && PartOf(t)
        && t == s.(world := world, directives := directives, applied := applied,
                   rejected := if ok then s.rejected else s.rejected + 1)
    {
      hide ServerSteps.ApplyCommand;
      if e.session !in sessions {
        return false;
      }
      var x := sessions[e.session];
      var avatar := 0;
      if x.player != 0 {
        var (after, entity) := st.engine.avatar(world, x.player, x.faction);
        world, avatar := after, entity;
      }
      var actor := Actor(e.session, x.player, x.faction, avatar, RoleCode(RoleOf(registry.roles, e.session)));
      applied := applied + [e];
      ok := ApplyCommand(st, s.(world := world, applied := applied), actor, e.command);
    }

    /** Drains in key order and applies one by one; counts the refusals. */
    method ApplyBufferedCommands(st: Settings<W>, ghost s: State<W>, sessions: SessionTable, registry: AdminRegistry)
      returns (rejected: nat)
      requires PartOf(s) && s.sessions == sessions && s.roles == registry.roles
      modifies this, commandBuffer
      ensures var t := ApplyBuffered(st, s);
        && PartOf(t)
        && t == s.(world := world, buffer := [], directives := directives, applied := applied,
                   rejected := s.rejected + rejected)
    {
      hide DispatchOne;
      var envelopes := commandBuffer.DrainOrdered();
      rejected := 0;
      for i := 0 to |envelopes|
        invariant commandBuffer.commands == [] && tick == s.tick
        invariant var t := Dispatch(st, s.(buffer := []), envelopes[..i]);
          && PartOf(t)
          && t == s.(world := world, buffer := [], directives := directives, applied := applied,
                     rejected := s.rejected + rejected)
      {
        ghost var t := Dispatch(st, s.(buffer := []), envelopes[..i]);
        assert envelopes[..i + 1][..i] == envelopes[..i];
        var ok := DispatchEnvelope(st, t, sessions, registry, envelopes[i]);
        if !ok {
          rejected := rejected + 1;
        }
      }
      assert envelopes[..|envelopes|] == envelopes;
    }
  }

  // ---------------------------------------------------------------- shared pieces of bookkeeping

  /** Two writes to one entry are the second. */
  lemma WriteTwice<T>(m: map<nat, T>, k: nat, a: T, b: T)
    ensures m[k := a][k := b] == m[k := b]
  {
  }

  lemma WriteBack<T>(m: map<nat, T>, k: nat)
    requires k in m
    ensures m[k := m[k]] == m
  {
  }

  /** Ingress case by case, in the order of the handlers' early returns. */
  lemma IngestCases<W(!new)>(build: Build, st: Settings<W>, s: State<W>, e: Envelope, source: Option<SocketAddr>)
    ensures var t := Ingest(build, st, s, e, source);
      if BindCommandPacket(Find(s.sessions, e.session), e.token, source).Err? then t == s.(blocked := s.blocked + 1)
      else
        var alive := s.sessions[e.session].(heartbeat := s.tick);
        var x := alive.Advance(e.sequence);
        var u := s.(sessions := s.sessions[e.session := x]);
        if e.sequence <= alive.lastSequence then t == u
        else if e.command.SubmitClientManifest? then
          if ManifestAccepted(st, Submitted(e.command))
          then t == s.(sessions := s.sessions[e.session := x.(manifestVerified := true)])
          else t == s.(sessions := s.sessions[e.session := x.(state := SessionState.Disconnected)],
                       roles := if build.Threaded? then s.roles else s.roles - {e.session}, blocked := s.blocked + 1)
        else
          var needs := RequiredPermission(e.command);
          if needs.Some? && needs.value !in Permissions(RoleOf(s.roles, e.session))
          then t == u.(denied := s.denied + 1, blocked := s.blocked + 1)
          else
            var v := u.(granted := s.granted + if needs.Some? then 1 else 0);
            if RequiresManifest(st.policy) && !x.manifestVerified then t == v.(blocked := s.blocked + 1)
            else t == v.(buffer := s.buffer + [e])
  {
    hide RequiredPermission, Permissions, ManifestAccepted;
    if e.session in s.sessions {
      WriteBack(s.sessions, e.session);
    }
  }

  /** The sessions in `done` have left. */
  ghost function Left(sessions: SessionTable, done: set<nat>): SessionTable {
    map id | id in sessions :: if id in done then sessions[id].(state := SessionState.Disconnected) else sessions[id]
  }

  lemma LeaveOne(sessions: SessionTable, done: set<nat>, id: nat)
    requires id in sessions
    ensures Left(sessions, done)[id := Left(sessions, done)[id].(state := SessionState.Disconnected)] ==
            Left(sessions, done + {id})
  {
  }

  lemma ExpireIsLeaving<W(!new)>(build: Build, st: Settings<W>, s: State<W>, done: set<nat>)
    requires done == set id | id in s.sessions && Expires(build, s.sessions[id], s.tick, st.timeout)
    ensures Expire(build, st, s) == s.(sessions := Left(s.sessions, done), roles := s.roles - done)
  {
    hide Expires;
    assert Expire(build, st, s).sessions == Left(s.sessions, done);
  }

  /** The filter of one session's snapshot. */
  method FilterKnown<W(!new)>(st: Settings<W>, world: W, faction: u32, es: seq<EntitySnapshot>)
    returns (known: seq<EntitySnapshot>)
    ensures known == Known(st.engine, world, faction, es)
  {
    known := [];
    for i := 0 to |es|
      invariant known == Known(st.engine, world, faction, es[..i])
    {
      assert es[..i + 1][..i] == es[..i];
      if st.engine.knows(world, faction, es[i].id) {
        known := known + [es[i]];
      }
    }
    assert es[..|es|] == es;
  }
}
