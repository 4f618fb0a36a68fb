/** Who holds which role after a tick: the orders given in it, in order, and then the sweep. */
module RoleTicks {
  import opened Words
  import opened Wrappers
  import opened Protocol
  import opened Sessions
  import opened CommandBuffers
  import opened AdminRoles
  import opened ServerSteps
  import opened Gates
  import opened Departures

  /** The order that a command gives: its session is on file, no spectator's, and has some role. */
  ghost function Given<W(!new)>(s: State<W>, e: Envelope): seq<Directive> {
    if e.session in s.sessions && s.sessions[e.session].faction != 0 && Standing(s.roles, e.session) != 0 then
      match e.command
      case AdminKickSession(target, reason) => [Directive.KickSession(target, reason)]
      case AdminSetTrustLevel(target, trust) => [Directive.SetTrustLevel(target, trust)]
      case AdminSetSessionRole(target, code) => [Directive.SetSessionRole(target, code)]
      case _ => []
    else []
  }

  ghost function Orders<W(!new)>(s: State<W>, es: seq<Envelope>): seq<Directive> {
    if es == [] then [] else Orders(s, es[..|es| - 1]) + Given(s, es[|es| - 1])
  }

  /** What one order does to the roles. A code is a role's: 0 player, 1 moderator, 2 host, 3 owner; others are void. */
  function Reassigned(roles: RoleTable, d: Directive): RoleTable {
    match d
    case KickSession(target, _) => roles - {target}
    case SetTrustLevel(_, _) => roles
    case SetSessionRole(target, code) =>
      if code == 0 then roles - {target}
      else if code == 1 then roles[target := Moderator]
      else if code == 2 then roles[target := Host]
      else if code == 3 then roles[target := ServerOwner]
      else roles
  }

  function ReassignedAll(roles: RoleTable, ds: seq<Directive>): RoleTable {
    if ds == [] then roles else Reassigned(ReassignedAll(roles, ds[..|ds| - 1]), ds[|ds| - 1])
  }

  // ---------------------------------------------------------------- one tick

  lemma ApplyQueues<W(!new)>(st: Settings<W>, s: State<W>, actor: Actor, c: Command)
    ensures var t := ApplyCommand(st, s, actor, c).0;
      && t == s.(world := t.world, directives := t.directives)
      && t.directives == s.directives +
           if actor.faction == 0 || actor.role == 0 then []
           else match c
                case AdminKickSession(target, reason) => [Directive.KickSession(target, reason)]
                case AdminSetTrustLevel(target, trust) => [Directive.SetTrustLevel(target, trust)]
                case AdminSetSessionRole(target, code) => [Directive.SetSessionRole(target, code)]
                case _ => []
  {
  }

  lemma DispatchOneQueues<W(!new)>(st: Settings<W>, s: State<W>, e: Envelope)
    ensures var t := DispatchOne(st, s, e);
      && t == s.(world := t.world, rejected := t.rejected, applied := t.applied, directives := t.directives)
      && t.directives == s.directives + Given(s, e)
  {
    hide ApplyCommand, RoleOf, RoleCode, Standing, Avatar;
    StandingIsCode(s.roles, e.session);
    if e.session in s.sessions {
      var x := s.sessions[e.session];
      var (world, avatar) := Avatar(st, s.world, x.player, x.faction);
      var actor := Actor(e.session, x.player, x.faction, avatar, RoleCode(RoleOf(s.roles, e.session)));
      ApplyQueues(st, s.(world := world, applied := s.applied + [e]), actor, e.command);
    }
  }

  lemma SameGiven<W(!new)>(s: State<W>, t: State<W>, e: Envelope)
    requires t.sessions == s.sessions && t.roles == s.roles
    ensures Given(t, e) == Given(s, e)
  {
  }

  /** Dispatching queues the orders behind those that wait, and touches neither sessions nor roles. */
  lemma {:induction false} DispatchQueues<W(!new)>(st: Settings<W>, s: State<W>, es: seq<Envelope>)
    ensures var t := Dispatch(st, s, es);
      && t == s.(world := t.world, rejected := t.rejected, applied := t.applied, directives := t.directives)
      && t.directives == s.directives + Orders(s, es)
  {
    hide DispatchOne, Given;
    if es == [] {
    } else {
      var before, last := es[..|es| - 1], es[|es| - 1];
      DispatchQueues(st, s, before);
      var mid := Dispatch(st, s, before);
      DispatchOneQueues(st, mid, last);
      SameGiven(s, mid, last);
      assert s.directives + Orders(s, before) + Given(s, last) == s.directives + (Orders(s, before) + Given(s, last));
    }
  }

  lemma ExecuteReassigns<W(!new)>(s: State<W>, d: Directive)
    ensures Execute(s, d).roles == Reassigned(s.roles, d)
    ensures Execute(s, d) == s.(roles := Execute(s, d).roles, sessions := Execute(s, d).sessions)
  {
  }

  lemma {:induction false} ExecuteAllReassigns<W(!new)>(s: State<W>, ds: seq<Directive>)
    ensures var t := ExecuteAll(s, ds);
      t.roles == ReassignedAll(s.roles, ds) && t == s.(roles := t.roles, sessions := t.sessions)
  {
    hide Execute, Reassigned;
    if ds == [] {
    } else {
      ExecuteAllReassigns(s, ds[..|ds| - 1]);
      ExecuteReassigns(ExecuteAll(s, ds[..|ds| - 1]), ds[|ds| - 1]);
    }
  }

  /** The sweep takes the roles of those it finds late; the single-threaded one passes over those who have left. */
  lemma SweepTakes<W(!new)>(build: Build, st: Settings<W>, s: State<W>)
    ensures var t := Broadcast(st, Expire(build, st, s));
      && t == s.(sessions := t.sessions, roles := t.roles, sent := t.sent, outbox := t.outbox)
      && (forall id :: id in t.roles <==>
            && id in s.roles
            && !(Late(st, s, id) && (build.Threaded? || s.sessions[id].state != SessionState.Disconnected)))
      && (forall id :: id in t.roles ==> t.roles[id] == s.roles[id])
  {
    hide Snapshots;
  }

  /** What the sweep of a tick finds. */
  ghost predicate BeforeSweep<W(!new)>(s: State<W>, w: State<W>) {
    var ds := s.directives + Orders(s, Sorted(s.buffer));
    && w == s.(tick := s.tick + 1, buffer := [], directives := [], world := w.world, rejected := w.rejected,
               applied := w.applied, roles := ReassignedAll(s.roles, ds), sessions := w.sessions)
    && w.sessions.Keys == s.sessions.Keys
    && forall id :: id in s.sessions ==>
         && w.sessions[id].heartbeat == s.sessions[id].heartbeat
         && (Gone(w, id) <==> Gone(s, id) || KickAmong(ds, id))
  }

  lemma OrdersCarriedOut<W(!new)>(st: Settings<W>, s: State<W>)
    ensures BeforeSweep(s, CarryOut(ApplyBuffered(st, s.(tick := s.tick + 1))))
  {
    hide Dispatch, ExecuteAll, Orders, ReassignedAll, KickAmong, Sorted;
    var u := s.(tick := s.tick + 1, buffer := []);
    DispatchQueues(st, u, Sorted(s.buffer));
    SameOrders(s, u, Sorted(s.buffer));
    var v := Dispatch(st, u, Sorted(s.buffer));
    var start := v.(directives := []);
    ExecuteAllReassigns(start, v.directives);
    OrdersKeepSessions(start, v.directives);
    forall id | id in s.sessions
      ensures var w := ExecuteAll(start, v.directives);
        && w.sessions[id].heartbeat == s.sessions[id].heartbeat
        && (Gone(w, id) <==> Gone(s, id) || KickAmong(v.directives, id))
    {
      ExecuteEndsIff(start, v.directives, id);
    }
  }

  /**
   Once its packets are in, a tick carries out what waits and what its commands order, in that
   order; then the sweep takes the roles of the late. Nothing is left waiting.
   */
  lemma AdvanceRoles<W(!new)>(build: Build, st: Settings<W>, s: State<W>)
    ensures var t, ds := ServerSteps.Advance(build, st, s), s.directives + Orders(s, Sorted(s.buffer));
      var roles := ReassignedAll(s.roles, ds);
      && t.directives == [] && t.buffer == []
      && t.nextSessionId == s.nextSessionId && t.tokenState == s.tokenState
      && t.granted == s.granted && t.denied == s.denied && t.blocked == s.blocked
      && (forall id :: id in t.roles <==>
            && id in roles
            && !(&& id in s.sessions && s.tick + 1 > s.sessions[id].heartbeat + st.timeout
                 && (build.Threaded? || !(Gone(s, id) || KickAmong(ds, id)))))
      && (forall id :: id in t.roles ==> t.roles[id] == roles[id])
  {
    hide ApplyBuffered, CarryOut, Expire, Broadcast, Orders, ReassignedAll, KickAmong, Sorted;
    OrdersCarriedOut(st, s);
    SweepTakes(build, st, StepSystems(st, CarryOut(ApplyBuffered(st, s.(tick := s.tick + 1)))));
  }

  lemma {:induction false} OrdersKeepSessions<W(!new)>(s: State<W>, ds: seq<Directive>)
    ensures ExecuteAll(s, ds).sessions.Keys == s.sessions.Keys
  {
    hide WithRole, RoleFromCode;
    if ds == [] {
    } else {
      OrdersKeepSessions(s, ds[..|ds| - 1]);
    }
  }

  lemma {:induction false} SameOrders<W(!new)>(s: State<W>, t: State<W>, es: seq<Envelope>)
    requires t.sessions == s.sessions && t.roles == s.roles
    ensures Orders(t, es) == Orders(s, es)
  {
    hide Given;
    if es == [] {
    } else {
      SameOrders(s, t, es[..|es| - 1]);
      SameGiven(s, t, es[|es| - 1]);
    }
  }
}
