/** What the gates of the session layer ask of a command, one by one and outright. */
module Gates {
  import opened Words
  import opened Wrappers
  import opened Bytes
  import opened Manifests
  import opened Protocol
  import opened Sessions
  import opened CommandBuffers
  import opened AdminRoles
  import opened ServerSteps

  /** The session is on file, the token is its own, and the address too if both sides have one. */
  predicate Bound<W>(s: State<W>, e: Envelope, source: Option<SocketAddr>) {
    && e.session in s.sessions
    && var x := s.sessions[e.session];
       e.token == x.token && (x.peer.None? || source.None? || x.peer.value == source.value)
  }

  /** Bound, and numbered above everything that its session has sent before. */
  predicate Current<W>(s: State<W>, e: Envelope, source: Option<SocketAddr>) {
    Bound(s, e, source) && e.sequence > s.sessions[e.session].lastSequence
  }

  /**
   A development server trusts every client; a private one trusts its own protocol version, and if it
   pins a hash then only that; an official one trusts official copies of its own manifest.
   */
  predicate Trusts<W>(st: Settings<W>, m: Manifest) {
    match st.policy
    case LocalDev => true
    case PrivateCustom(None) => m.protocolVersion == st.manifest.protocolVersion
    case PrivateCustom(Some(pin)) => m.protocolVersion == st.manifest.protocolVersion && st.manifestHash(m) == pin
    case Official => m == st.manifest.(official := true)
  }

  /** The role a session acts under, as the simulation is told: 0 player, 1 moderator, 2 host, 3 owner. */
  function Standing(roles: RoleTable, id: nat): Byte {
    if id !in roles then 0
    else match roles[id] case Player => 0 case Moderator => 1 case Host => 2 case ServerOwner => 3
  }

  /** A command about the server rather than the game. */
  predicate Privileged(c: Command) {
    c.AdminKickSession? || c.AdminSetTrustLevel? || c.AdminGrantResource? || c.AdminSetSessionRole?
  }

  /** Moderators may kick; trust, roles and goods are for hosts and owners. */
  predicate Entitled(roles: RoleTable, id: nat, c: Command) {
    Privileged(c) ==> Standing(roles, id) >= if c.AdminKickSession? then 1 else 2
  }

  /** On an official server a session plays once its manifest has been accepted. */
  predicate Cleared<W>(st: Settings<W>, x: Session) {
    st.policy == Official ==> x.manifestVerified
  }

  /** Late is who has been silent for longer than the timeout. */
  predicate Late<W>(st: Settings<W>, s: State<W>, id: nat) {
    id in s.sessions && s.tick > s.sessions[id].heartbeat + st.timeout
  }

  // ---------------------------------------------------------------- the gates as the servers have them

  lemma BoundIff<W(!new)>(s: State<W>, e: Envelope, source: Option<SocketAddr>)
    ensures Bound(s, e, source) <==> BindCommandPacket(Find(s.sessions, e.session), e.token, source).Ok?
  {
  }

  lemma TrustsIff<W(!new)>(st: Settings<W>, m: Manifest)
    ensures Trusts(st, m) <==> ManifestAccepted(st, m)
  {
  }

  lemma StandingIsCode(roles: RoleTable, id: nat)
    ensures Standing(roles, id) == RoleCode(RoleOf(roles, id))
    ensures Standing(roles, id) == 0 <==> RoleOf(roles, id) == Player
  {
  }

  lemma EntitledIff(roles: RoleTable, id: nat, c: Command)
    ensures Privileged(c) <==> RequiredPermission(c).Some?
    ensures Entitled(roles, id, c) <==>
            (RequiredPermission(c).Some? ==> RequiredPermission(c).value in Permissions(RoleOf(roles, id)))
  {
  }

  /** An open manifest gate is one that the policy does not ask for, or that the session has passed. */
  lemma ClearedIff<W(!new)>(st: Settings<W>, x: Session)
    ensures Cleared(st, x) <==> (!RequiresManifest(st.policy) || x.manifestVerified)
  {
  }

  lemma LateIff<W(!new)>(st: Settings<W>, s: State<W>, id: nat)
    ensures Late(st, s, id) <==> id in s.sessions && s.sessions[id].TimedOut(s.tick, st.timeout)
  {
  }

  // ---------------------------------------------------------------- a command packet

  /** What the packet leaves of its session: the heartbeat, the number and its count, the mark, and the farewell. */
  ghost predicate Noted<W(!new)>(st: Settings<W>, s: State<W>, t: State<W>, e: Envelope, source: Option<SocketAddr>)
    requires e.session in s.sessions && e.session in t.sessions
  {
    var x, y := s.sessions[e.session], t.sessions[e.session];
    var current := Current(s, e, source);
    var trusted := e.command.SubmitClientManifest? && Trusts(st, Submitted(e.command));
    var refused := e.command.SubmitClientManifest? && !Trusts(st, Submitted(e.command));
    && SameIdentity(x, y)
    && y.heartbeat == (if Bound(s, e, source) then s.tick else x.heartbeat)
    && y.lastSequence == (if current then e.sequence else x.lastSequence)
    && y.processed == x.processed + (if current then 1 else 0)
    && y.rejected == x.rejected + (if Bound(s, e, source) && !current then 1 else 0)
    && y.manifestVerified == (x.manifestVerified || (current && trusted))
    && y.state == (if current && refused then SessionState.Disconnected else x.state)
  }

  /** The command goes to the simulation: current, no submission, its sender entitled and cleared. */
  predicate Passes<W>(st: Settings<W>, s: State<W>, e: Envelope, source: Option<SocketAddr>) {
    && Current(s, e, source) && !e.command.SubmitClientManifest?
    && Entitled(s.roles, e.session, e.command) && Cleared(st, s.sessions[e.session])
  }

  /** Three ways to be blocked: not bound; current, but not let through; current, but not trusted. */
  predicate Blocked<W>(st: Settings<W>, s: State<W>, e: Envelope, source: Option<SocketAddr>) {
    || !Bound(s, e, source)
    || (Current(s, e, source) &&
          if e.command.SubmitClientManifest? then !Trusts(st, Submitted(e.command)) else !Passes(st, s, e, source))
  }

  /** A privileged command of a current packet is judged, and granted or denied. */
  predicate Judged<W>(s: State<W>, e: Envelope, source: Option<SocketAddr>) {
    Current(s, e, source) && Privileged(e.command)
  }

  lemma OthersUntouched<W(!new)>(build: Build, st: Settings<W>, s: State<W>, e: Envelope, source: Option<SocketAddr>)
    ensures var t := Ingest(build, st, s, e, source);
      && t.sessions.Keys == s.sessions.Keys
      && forall id :: id in s.sessions && id != e.session ==> t.sessions[id] == s.sessions[id]
  {
    hide Judge;
    assert e.session !in s.sessions ==> RuleFor(build, st, s, e, source).session.None?;
  }

  lemma JudgeNotes<W(!new)>(build: Build, st: Settings<W>, x: Session, role: Role, c: Command)
    ensures var r := Judge(build, st, x, role, c);
      r.session == Some(
        if !c.SubmitClientManifest? then x
        else if Trusts(st, Submitted(c)) then x.(manifestVerified := true)
        else x.(state := SessionState.Disconnected))
  {
    hide Trusts, ManifestAccepted, RequiredPermission, Permissions, RequiresManifest;
    if c.SubmitClientManifest? {
      TrustsIff(st, Submitted(c));
    }
  }

  /** What a command packet does to the sessions: it touches its own and leaves the others alone. */
  lemma CommandTouches<W(!new)>(build: Build, st: Settings<W>, s: State<W>, e: Envelope, source: Option<SocketAddr>)
    ensures var t := Ingest(build, st, s, e, source);
      && t.sessions.Keys == s.sessions.Keys
      && (forall id :: id in s.sessions && id != e.session ==> t.sessions[id] == s.sessions[id])
      && (e.session in s.sessions ==> Noted(st, s, t, e, source))
  {
    hide Judge, Trusts, RoleOf;
    OthersUntouched(build, st, s, e, source);
    BoundIff(s, e, source);
    if e.session in s.sessions {
      var x := s.sessions[e.session].(heartbeat := s.tick).Advance(e.sequence);
      JudgeNotes(build, st, x, RoleOf(s.roles, e.session), e.command);
    }
  }

  /** What a command packet does to everything else: the buffer, the counters, and its sender's role. */
  lemma CommandEffect<W(!new)>(build: Build, st: Settings<W>, s: State<W>, e: Envelope, source: Option<SocketAddr>)
    ensures var t := Ingest(build, st, s, e, source);
      && t == s.(sessions := t.sessions, roles := t.roles, granted := t.granted, denied := t.denied,
                 blocked := t.blocked, buffer := t.buffer)
      && t.buffer == s.buffer + (if Passes(st, s, e, source) then [e] else [])
      && t.blocked == s.blocked + (if Blocked(st, s, e, source) then 1 else 0)
      && t.granted == s.granted +
           (if Judged(s, e, source) && Entitled(s.roles, e.session, e.command) then 1 else 0)
      && t.denied == s.denied +
           (if Judged(s, e, source) && !Entitled(s.roles, e.session, e.command) then 1 else 0)
      && t.roles == if && build.SingleThreaded? && Current(s, e, source) && e.command.SubmitClientManifest?
                       && !Trusts(st, Submitted(e.command))
                    then s.roles - {e.session} else s.roles
  {
    hide Trusts, ManifestAccepted, RequiredPermission, Permissions, RoleOf, Privileged, Entitled, Cleared,
      RequiresManifest;
    BoundIff(s, e, source);
    EntitledIff(s.roles, e.session, e.command);
    if e.command.SubmitClientManifest? {
      TrustsIff(st, Submitted(e.command));
      SubmissionsAreOpen(e.command);
    }
    if e.session in s.sessions {
      ClearedIff(st, s.sessions[e.session]);
    }
  }

  lemma SubmissionsAreOpen(c: Command)
    requires c.SubmitClientManifest?
    ensures !Privileged(c)
  {
  }
}
