/** The heuristic provider as an object: session files, player index, bounded log and pending kicks. */
module AntiCheatProviders {
  import opened Words
  import opened Wrappers
  import opened Manifests
  import opened Trust
  import opened AntiCheat

  class BasicAntiCheat<T(!new), C(!new)> {
    const detectors: Detectors<T, C>
    const policy: Policy
    const serverPolicy: ServerPolicy
    const serverManifest: Manifest
    const manifestHash: Manifest -> u64
    const log: SecurityLog
    var initialized: bool
    var sessions: map<nat, Dossier<T>>
    var playerIndex: map<nat, nat>
    var pendingKicks: seq<(nat, Reason)>
    ghost var since: map<nat, nat>

    /** The whole provider as a value; the log counts with everything it ever held. */
    ghost function View(): Desk<T>
      reads this, log
    {
      Desk(initialized, sessions, playerIndex, pendingKicks, log.everything, since)
    }

    constructor (detectors: Detectors<T, C>, policy: Policy, serverPolicy: ServerPolicy, serverManifest: Manifest,
                 manifestHash: Manifest -> u64, capacity: nat)
      ensures this.detectors == detectors && this.policy == policy
      ensures this.serverPolicy == serverPolicy && this.serverManifest == serverManifest
      ensures this.manifestHash == manifestHash
      ensures log.Valid() && fresh(log)
      ensures View() == Desk(false, map[], map[], [], [], map[])
    {
      this.detectors, this.policy := detectors, policy;
      this.serverPolicy, this.serverManifest, this.manifestHash := serverPolicy, serverManifest, manifestHash;
      log := new SecurityLog(capacity);
      initialized, sessions, playerIndex, pendingKicks, since := false, map[], map[], [], map[];
    }

    method Record(session: nat, player: nat, tick: nat, kind: EventKind)
      requires log.Valid()
      modifies log
      ensures log.Valid() && log.everything == old(log.everything) + [Written(session, player, tick, kind)]
    {
      log.Append(SecurityEvent(session, player, tick, SeverityOf(kind), kind));
    }

    /** Stores a session's new standing, writes a change of level down and queues a kick for a ban. */
    method MoveTrust(session: nat, player: nat, tick: nat, t: Standing)
      requires log.Valid() && session in sessions
      modifies this`sessions, this`pendingKicks, log
      ensures log.Valid() && View() == Move(old(View()), session, player, tick, t)
    {
      var before := sessions[session].trust.level;
      ghost var start := View();
      sessions := sessions[session := sessions[session].(trust := t)];
      if before != t.level {
        Record(session, player, tick, TrustLevelChanged(before, t.level));
        sessions := sessions[session := sessions[session].(status := FromTrust(t.level))];
        assert sessions == start.sessions[session := WithTrust(start.sessions[session], t)];
        if t.level == Banned {
          pendingKicks := pendingKicks + [(session, ByTrustLevel)];
        }
      }
    }

    method ApplyFinding(session: nat, player: nat, tick: nat, kind: EventKind) returns (severity: Severity)
      requires log.Valid()
      modifies this`sessions, this`pendingKicks, log
      ensures log.Valid() && View() == AntiCheat.ApplyFinding(policy, old(View()), session, player, tick, kind)
      ensures severity == SeverityOf(kind)
    {
      hide Move, AfterViolation, SeverityOf;
      severity := SeverityOf(kind);
      Record(session, player, tick, kind);
      if session in sessions {
        MoveTrust(session, player, tick, AfterViolation(policy, sessions[session].trust, severity, tick));
      }
    }

    method ApplyFindings(session: nat, player: nat, tick: nat, fs: seq<Anomaly>) returns (worst: Severity,
        reason: Reason)
      requires log.Valid()
      modifies this`sessions, this`pendingKicks, log
      ensures log.Valid() && View() == AntiCheat.ApplyFindings(policy, old(View()), session, player, tick, fs)
      ensures (worst, reason) == Worst(fs)
    {
      hide AntiCheat.ApplyFinding, SeverityOf, ReasonFor;
      worst, reason := Info, ByEnvelope;
      for i := 0 to |fs|
        invariant log.Valid() && View() == AntiCheat.ApplyFindings(policy, old(View()), session, player, tick, fs[..i])
        invariant (worst, reason) == Worst(fs[..i])
      {
        assert fs[..i + 1][..i] == fs[..i];
        var severity := ApplyFinding(session, player, tick, Found(fs[i]));
        if Rank(severity) > Rank(worst) {
          worst, reason := severity, ReasonFor(fs[i]);
        }
      }
      assert fs[..|fs|] == fs;
    }

    method BlockOne(session: nat)
      requires session in sessions
      modifies this`sessions
      ensures View() == CountBlocked(old(View()), session)
    {
      sessions := sessions[session := sessions[session].(blocked := Bump(sessions[session].blocked))];
    }

    /** What follows once the detectors have found something. */
    method PassVerdict(session: nat, player: nat, tick: nat, fs: seq<Anomaly>) returns (verdict: Verdict)
      requires log.Valid() && session in sessions && fs != []
      modifies this`sessions, this`pendingKicks, log
      ensures log.Valid()
      ensures var judged := AntiCheat.ApplyFindings(policy, old(View()), session, player, tick, fs);
        && session in judged.sessions
        && verdict == VerdictOn(IsBanned(judged, session), fs)
        && View() == if verdict.AllowsCommand() then judged else CountBlocked(judged, session)
    {
      hide AntiCheat.ApplyFindings, Worst, CountBlocked;
      FindingsKeepSessions(policy, View(), session, player, tick, fs);
      var worst, reason := ApplyFindings(session, player, tick, fs);
      var banned := session in sessions && sessions[session].trust.level == Banned;
      if banned {
        verdict := Kick(reason);
      } else if Rank(worst) >= Rank(High) {
        verdict := Reject(reason);
      } else {
        verdict := Observe(reason);
      }
      if !verdict.AllowsCommand() {
        BlockOne(session);
      }
    }

    method Look(session: nat, c: C) returns (fs: seq<Anomaly>)
      requires session in sessions
      modifies this`sessions
      ensures var (telemetry, found) := detectors.inspect(old(sessions[session].telemetry), c);
        fs == found && View() == Remembered(old(View()), session, telemetry)
    {
      var (telemetry, found) := detectors.inspect(sessions[session].telemetry, c);
      sessions := sessions[session := sessions[session].(telemetry := telemetry)];
      fs := found;
    }

    method InspectCommand(session: nat, player: nat, tick: nat, c: C) returns (verdict: Verdict)
      requires log.Valid()
      modifies this`sessions, this`pendingKicks, log
      ensures log.Valid()
      ensures (View(), verdict) == AntiCheat.InspectCommand(policy, detectors, old(View()), session, player, tick, c)
    {
      hide AntiCheat.ApplyFindings, AfterClean, Move, CountBlocked, VerdictOn;
      if session !in sessions {
        return Allow;
      }
      sessions := sessions[session := sessions[session].(inspected := Bump(sessions[session].inspected))];
      if sessions[session].trust.level == Banned {
        BlockOne(session);
        return Kick(ByTrustLevel);
      }
      var fs := Look(session, c);
      if fs == [] {
        MoveTrust(session, player, tick, AfterClean(policy, sessions[session].trust));
        return Allow;
      }
      verdict := PassVerdict(session, player, tick, fs);
    }

    // ---------------------------------------------------------------- sessions

    method OnClientConnecting(session: nat) returns (r: Result<(), Refusal>)
      ensures r == if !initialized then Err(NotInitialized)
                   else if IsBanned(View(), session) then Err(SessionBanned) else Ok(())
    {
      if !initialized {
        return Err(NotInitialized);
      }
      if session in sessions && sessions[session].trust.level == Banned {
        return Err(SessionBanned);
      }
      return Ok(());
    }

    method BeginSession(player: nat, session: nat) returns (r: Result<(), Refusal>)
      modifies this`sessions, this`playerIndex, this`since
      ensures (View(), r) == AntiCheat.BeginSession(detectors, old(View()), player, session)
    {
      if !initialized {
        return Err(NotInitialized);
      }
      if session in sessions {
        return Err(SessionAlreadyRegistered);
      }
      sessions := sessions[session := NewDossier(detectors, player, 0, 0)];
      playerIndex := playerIndex[player := session];
      since := since[session := |log.everything|];
      return Ok(());
    }

    method OnClientAuthenticated(session: nat, player: nat, faction: nat, tick: nat)
      modifies this`sessions, this`playerIndex, this`since
      ensures View() == Authenticate(detectors, old(View()), session, player, faction, tick)
    {
      ghost var start := View();
      if session !in sessions {
        sessions := sessions[session := NewDossier(detectors, player, faction, tick)];
        since := since[session := |log.everything|];
      }
      var entry := sessions[session].(player := player, faction := faction, startTick := tick,
                                      telemetry := detectors.blank(tick));
      sessions := sessions[session := entry];
      playerIndex := playerIndex[player := session];
      assert sessions == start.sessions[session := entry];
    }

    method Retain(session: nat)
      modifies this`pendingKicks
      ensures pendingKicks == Without(old(pendingKicks), session)
    {
      var kept: seq<(nat, Reason)> := [];
      for i := 0 to |pendingKicks|
        invariant kept == Without(pendingKicks[..i], session)
      {
        assert pendingKicks[..i + 1][..i] == pendingKicks[..i];
        if pendingKicks[i].0 != session {
          kept := kept + [pendingKicks[i]];
        }
      }
      assert pendingKicks[..|pendingKicks|] == pendingKicks;
      pendingKicks := kept;
    }

    method EndSession(player: nat)
      modifies this`sessions, this`playerIndex, this`pendingKicks
      ensures View() == AntiCheat.EndSession(old(View()), player)
    {
      hide Without;
      if player in playerIndex {
        var session := playerIndex[player];
        playerIndex := playerIndex - {player};
        sessions := sessions - {session};
        Retain(session);
      }
    }

    method EndSessionById(session: nat)
      modifies this`sessions, this`playerIndex, this`pendingKicks
      ensures View() == AntiCheat.EndSessionById(old(View()), session)
    {
      hide Without;
      if session in sessions {
        playerIndex := playerIndex - {sessions[session].player};
        sessions := sessions - {session};
      } else {
        assert sessions - {session} == sessions;
      }
      Retain(session);
    }

    method VerifyClientManifest(session: nat, manifest: Manifest) returns (r: Result<(), Refusal>)
      requires log.Valid()
      modifies this`sessions, this`pendingKicks, log
      ensures log.Valid()
      ensures (View(), r) == VerifyManifest(policy, old(View()), session,
                                            Validates(serverPolicy, serverManifest, manifestHash, manifest))
    {
      hide AntiCheat.ApplyFinding;
      if !initialized {
        return Err(NotInitialized);
      }
      if session !in sessions {
        return Err(SessionNotRegistered);
      }
      if Validates(serverPolicy, serverManifest, manifestHash, manifest) {
        sessions := sessions[session := sessions[session].(manifestVerified := true)];
        return Ok(());
      }
      var _ := ApplyFinding(session, sessions[session].player, sessions[session].startTick, Found(ManifestMismatch));
      pendingKicks := pendingKicks + [(session, ByManifest)];
      return Err(ManifestRejected);
    }

    method ApplyAdminTrustOverride(session: nat, level: Level)
      requires log.Valid()
      modifies this`sessions, this`pendingKicks, log
      ensures log.Valid() && View() == Override(old(View()), session, level)
    {
      hide Move;
      if session in sessions {
        var d := sessions[session];
        MoveTrust(session, d.player, d.startTick, d.trust.(level := level));
      }
    }

    method DrainPendingKicks() returns (drained: seq<(nat, Reason)>)
      modifies this`pendingKicks
      ensures drained == old(pendingKicks) && pendingKicks == []
    {
      drained := pendingKicks;
      pendingKicks := [];
    }
  }
}
