/** What the simulated world goes through: every command of a tick in order, then one step. */
module WorldTicks {
  import opened Words
  import opened Wrappers
  import opened Protocol
  import opened Sessions
  import opened CommandBuffers
  import opened AdminRoles
  import opened ServerSteps
  import opened Gates
  import opened DepartedCommands
  import opened SnapshotLaws
  import opened OrderedKeys
  import SessionSafety

  /** The world and the number of refused commands. */
  datatype Progress<W> = Progress(world: W, refused: nat)

  /**
   One command on the world: an unknown session is refused; a player's avatar is called for first;
   spectators, retired and session-layer commands are refused; an order about sessions, and a grant
   of goods, needs a role; whatever is left is the engine's to perform.
   */
  ghost function Obey<W(!new)>(st: Settings<W>, tick: nat, sessions: SessionTable, roles: RoleTable, p: Progress<W>,
                               e: Envelope): Progress<W>
  {
    if e.session !in sessions then p.(refused := p.refused + 1)
    else
      var x, role := sessions[e.session], Standing(roles, e.session);
      var (world, avatar) := if x.player == 0 then (p.world, 0) else st.engine.avatar(p.world, x.player, x.faction);
      var refuse, leave := Progress(world, p.refused + 1), Progress(world, p.refused);
      var actor := Actor(e.session, x.player, x.faction, avatar, role);
      var (after, done) := st.engine.perform(world, tick, actor, e.command);
      var perform := Progress(after, if done then p.refused else p.refused + 1);
      if x.faction == 0 then refuse
      else
        match e.command
        case Action(_, _) => refuse
        case RequestResource(_, _) => refuse
        case SubmitClientManifest(_, _, _, _) => refuse
        case AdminKickSession(_, _) => if role == 0 then refuse else leave
        case AdminSetTrustLevel(_, _) => if role == 0 then refuse else leave
        case AdminSetSessionRole(_, _) => if role == 0 then refuse else leave
        case AdminGrantResource(_, _, _) => if role == 0 then refuse else perform
        case _ => perform
  }

  /** All of them in order. */
  ghost function ObeyAll<W(!new)>(st: Settings<W>, tick: nat, sessions: SessionTable, roles: RoleTable, p: Progress<W>,
                                  es: seq<Envelope>): Progress<W>
  {
    if es == [] then p
    else Obey(st, tick, sessions, roles, ObeyAll(st, tick, sessions, roles, p, es[..|es| - 1]), es[|es| - 1])
  }

  // ---------------------------------------------------------------- one tick

  lemma ApplyObeys<W(!new)>(st: Settings<W>, s: State<W>, actor: Actor, c: Command)
    ensures var (t, ok) := ApplyCommand(st, s, actor, c);
      var (after, done) := st.engine.perform(s.world, s.tick, actor, c);
      && t.sessions == s.sessions && t.roles == s.roles && t.tick == s.tick && t.rejected == s.rejected
      && (if actor.faction == 0 || c.Action? || c.RequestResource? || c.SubmitClientManifest? then
            t.world == s.world && !ok
          else if c.AdminKickSession? || c.AdminSetTrustLevel? || c.AdminSetSessionRole? then
            t.world == s.world && (ok <==> actor.role != 0)
          else if c.AdminGrantResource? && actor.role == 0 then t.world == s.world && !ok
          else t.world == after && ok == done)
  {
  }

  lemma DispatchOneObeys<W(!new)>(st: Settings<W>, s: State<W>, e: Envelope)
    ensures var t := DispatchOne(st, s, e);
      && t.sessions == s.sessions && t.roles == s.roles && t.tick == s.tick
      && Progress(t.world, t.rejected) == Obey(st, s.tick, s.sessions, s.roles, Progress(s.world, s.rejected), e)
  {
    hide ApplyCommand, RoleOf, RoleCode, Standing;
    StandingIsCode(s.roles, e.session);
    if e.session in s.sessions {
      var x := s.sessions[e.session];
      var (world, avatar) := Avatar(st, s.world, x.player, x.faction);
      var actor := Actor(e.session, x.player, x.faction, avatar, RoleCode(RoleOf(s.roles, e.session)));
      ApplyObeys(st, s.(world := world, applied := s.applied + [e]), actor, e.command);
    }
  }

  lemma {:induction false} DispatchObeys<W(!new)>(st: Settings<W>, s: State<W>, es: seq<Envelope>)
    ensures var t := Dispatch(st, s, es);
      && t.sessions == s.sessions && t.roles == s.roles && t.tick == s.tick
      && Progress(t.world, t.rejected) == ObeyAll(st, s.tick, s.sessions, s.roles, Progress(s.world, s.rejected), es)
  {
    hide DispatchOne, Obey;
    if es == [] {
    } else {
      DispatchObeys(st, s, es[..|es| - 1]);
      DispatchOneObeys(st, Dispatch(st, s, es[..|es| - 1]), es[|es| - 1]);
    }
  }

  lemma {:induction false} DirectivesLeaveWorld<W(!new)>(s: State<W>, ds: seq<Directive>)
    ensures var t := ExecuteAll(s, ds);
      t.world == s.world && t.rejected == s.rejected && t.tick == s.tick
  {
    if ds == [] {
    } else {
      DirectivesLeaveWorld(s, ds[..|ds| - 1]);
    }
  }

  lemma SweepLeavesWorld<W(!new)>(build: Build, st: Settings<W>, s: State<W>)
    ensures var t := Broadcast(st, Expire(build, st, s));
      t.world == s.world && t.rejected == s.rejected && t.tick == s.tick
  {
    hide Expires, Snapshots;
  }

  lemma {:induction false} ReceiveLeavesWorld<W(!new)>(build: Build, st: Settings<W>, s: State<W>, batch: seq<Inbound>)
    ensures var t := Receive(build, st, s, batch);
      t.world == s.world && t.rejected == s.rejected && t.tick == s.tick
    decreases |batch|
  {
    hide Rule, NewSession;
    if batch == [] {
    } else {
      ReceiveLeavesWorld(build, st, s, batch[..|batch| - 1]);
    }
  }

  /** Once the packets are in: the buffered commands in order, then one step under the new tick's number. */
  lemma AdvanceWorld<W(!new)>(build: Build, st: Settings<W>, s: State<W>)
    ensures var t := ServerSteps.Advance(build, st, s);
      var p := ObeyAll(st, s.tick + 1, s.sessions, s.roles, Progress(s.world, s.rejected), Sorted(s.buffer));
      t.world == st.engine.step(p.world, s.tick + 1) && t.rejected == p.refused && t.tick == s.tick + 1
  {
    hide Dispatch, ExecuteAll, Expire, Broadcast, ObeyAll, Sorted;
    var t := s.(tick := s.tick + 1);
    DispatchObeys(st, t.(buffer := []), Sorted(t.buffer));
    var u := ApplyBuffered(st, t);
    DirectivesLeaveWorld(u.(directives := []), u.directives);
    SweepLeavesWorld(build, st, StepSystems(st, CarryOut(u)));
  }

  /**
   The world after a tick: every command that was buffered or is taken from the batch, in session
   and sequence order, on the sessions and roles as the batch leaves them; then the engine's step,
   once, under the number of the new tick. Refused commands are counted.
   */
  lemma TickWorld<W(!new)>(build: Build, st: Settings<W>, s: State<W>, batch: seq<Inbound>)
    ensures var r, t := Receive(build, st, s, batch), Tick(build, st, s, batch);
      var p := ObeyAll(st, s.tick + 1, r.sessions, r.roles, Progress(s.world, s.rejected),
                       Sorted(s.buffer + Taken(build, st, s, batch)));
      t.world == st.engine.step(p.world, s.tick + 1) && t.rejected == p.refused && t.tick == s.tick + 1
  {
    hide Receive, ServerSteps.Advance, ObeyAll, Sorted, Taken;
    ReceiveLeavesWorld(build, st, s, batch);
    ReceiveBuffers(build, st, s, batch);
    AdvanceWorld(build, st, Receive(build, st, s, batch));
  }

  // ---------------------------------------------------------------- the snapshots of a tick

  lemma AdvanceBroadcasts<W(!new)>(build: Build, st: Settings<W>, s: State<W>) returns (u: State<W>)
    ensures ServerSteps.Advance(build, st, s) == Broadcast(st, u)
    ensures u.outbox == s.outbox && u.tick == s.tick + 1 && u.sent == s.sent
  {
    hide Dispatch, ExecuteAll, Expires, Broadcast, Sorted;
    var t := s.(tick := s.tick + 1);
    DispatchSaysNothing(st, t.(buffer := []), Sorted(t.buffer));
    var v := ApplyBuffered(st, t);
    DirectivesSayNothing(v.(directives := []), v.directives);
    u := Expire(build, st, StepSystems(st, CarryOut(v)));
  }

  lemma {:induction false} DispatchSaysNothing<W(!new)>(st: Settings<W>, s: State<W>, es: seq<Envelope>)
    ensures var t := Dispatch(st, s, es); t.outbox == s.outbox && t.sent == s.sent && t.tick == s.tick
  {
    hide DispatchOne;
    if es == [] {
    } else {
      DispatchSaysNothing(st, s, es[..|es| - 1]);
      DispatchOneSaysNothing(st, Dispatch(st, s, es[..|es| - 1]), es[|es| - 1]);
    }
  }

  lemma DispatchOneSaysNothing<W(!new)>(st: Settings<W>, s: State<W>, e: Envelope)
    ensures var t := DispatchOne(st, s, e); t.outbox == s.outbox && t.sent == s.sent && t.tick == s.tick
  {
    hide RequiredPermission, Avatar, RoleOf, RoleCode;
  }

  lemma {:induction false} DirectivesSayNothing<W(!new)>(s: State<W>, ds: seq<Directive>)
    ensures var t := ExecuteAll(s, ds); t.outbox == s.outbox && t.sent == s.sent && t.tick == s.tick
  {
    if ds == [] {
    } else {
      DirectivesSayNothing(s, ds[..|ds| - 1]);
    }
  }

  lemma BroadcastOf<W(!new)>(st: Settings<W>, u: State<W>)
    ensures var t := Broadcast(st, u); t.world == u.world && t.sessions == u.sessions && t.tick == u.tick
  {
    hide Snapshots;
  }

  /**
   What a tick sends behind the replies to its batch: one snapshot to every session that is active
   when the tick ends, each showing the world as the tick leaves it, under the new tick's number.
   */
  lemma TickSnapshots<W(!new)>(build: Build, st: Settings<W>, s: State<W>, batch: seq<Inbound>)
    returns (to: seq<nat>, ps: seq<Packet>)
    requires Tick(build, st, s, batch).sessions != map[]
    ensures var r, t := Receive(build, st, s, batch), Tick(build, st, s, batch);
      && t.outbox == r.outbox + ps && t.sent == r.sent + 1
      && (forall id :: id in to <==> id in t.sessions && t.sessions[id].state == SessionState.Active)
      && Climbing(to) && |ps| == |to|
      && forall i :: 0 <= i < |ps| ==>
           to[i] in t.sessions &&
           Addressed(st.engine, t.world, s.tick + 1, r.sent + 1, t.sessions[to[i]], to[i], ps[i])
  {
    hide Receive, ServerSteps.Advance, Broadcast, Addressed, Climbing;
    var r := Receive(build, st, s, batch);
    ReceiveLeavesWorld(build, st, s, batch);
    var u := AdvanceBroadcasts(build, st, r);
    BroadcastOf(st, u);
    to, ps := BroadcastReaches(st, u);
  }

  // ---------------------------------------------------------------- runs

  ghost function Ticks(events: seq<Event>): nat {
    if events == [] then 0 else Ticks(events[..|events| - 1]) + if events[|events| - 1].Batch? then 1 else 0
  }

  /** The world along a run, batch by batch. */
  ghost function Course<W(!new)>(build: Build, st: Settings<W>, s: State<W>, events: seq<Event>): Progress<W> {
    if events == [] then Progress(s.world, s.rejected)
    else
      var before, last := events[..|events| - 1], events[|events| - 1];
      var p, now := Course(build, st, s, before), s.tick + Ticks(events);
      if last.Batch? then
        var mid := Run(build, st, s, before);
        var r := Receive(build, st, mid, last.packets);
        var q := ObeyAll(st, now, r.sessions, r.roles, p, Sorted(Taken(build, st, mid, last.packets)));
        Progress(st.engine.step(q.world, now), q.refused)
      else p
  }

  /** Over every run: nothing moves the world but its commands and one step a tick, under rising tick numbers. */
  lemma {:induction false} RunWorld<W(!new)>(build: Build, st: Settings<W>, s: State<W>, events: seq<Event>)
    requires s.buffer == []
    ensures var t := Run(build, st, s, events);
      Progress(t.world, t.rejected) == Course(build, st, s, events) && t.tick == s.tick + Ticks(events)
  {
    hide Tick, Receive, ObeyAll, Taken, Sorted;
    if events == [] {
    } else {
      var before, last := events[..|events| - 1], events[|events| - 1];
      RunWorld(build, st, s, before);
      RunApplies(build, st, s, before);
      if last.Batch? {
        var mid := Run(build, st, s, before);
        TickWorld(build, st, mid, last.packets);
        assert mid.buffer + Taken(build, st, mid, last.packets) == Taken(build, st, mid, last.packets);
      }
    }
  }

  function Stepped<W>(st: Settings<W>, world: W, tick: nat, n: nat): W {
    if n == 0 then world else st.engine.step(Stepped(st, world, tick, n - 1), tick + n)
  }

  ghost predicate Idle(events: seq<Event>) {
    forall i :: 0 <= i < |events| ==> events[i] == Batch([])
  }

  /** Left alone for n ticks, the world is stepped n times, under the numbers that follow. */
  lemma {:induction false} IdleWorld<W(!new)>(build: Build, st: Settings<W>, s: State<W>, events: seq<Event>)
    requires s.buffer == [] && Idle(events)
    ensures Run(build, st, s, events).world == Stepped(st, s.world, s.tick, |events|)
    ensures Run(build, st, s, events).tick == s.tick + |events|
  {
    hide Tick;
    if events == [] {
    } else {
      var before := events[..|events| - 1];
      IdleWorld(build, st, s, before);
      RunApplies(build, st, s, before);
      var mid := Run(build, st, s, before);
      TickWorld(build, st, mid, []);
      NothingToObey(st, mid);
    }
  }

  lemma NothingToObey<W(!new)>(st: Settings<W>, s: State<W>)
    requires s.buffer == []
    ensures forall build: Build :: Sorted(s.buffer + Taken(build, st, s, [])) == []
  {
  }
}
