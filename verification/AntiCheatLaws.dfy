/** What the provider's record, statuses, verdicts and kicks always agree on. */
module AntiCheatLaws {
  import opened Wrappers
  import opened Trust
  import opened AntiCheat

  // ---------------------------------------------------------------- replaying the record

  /** The level that a session's recorded changes lead to. */
  ghost function Replayed(events: seq<SecurityEvent>, session: nat): Level {
    if events == [] then Untrusted
    else
      var last := events[|events| - 1];
      if last.session == session && last.kind.TrustLevelChanged? then last.kind.target
      else Replayed(events[..|events| - 1], session)
  }

  lemma {:induction false} ReplayConcat(a: seq<SecurityEvent>, b: seq<SecurityEvent>, session: nat)
    ensures Replayed(a + b, session) ==
            if exists e :: e in b && e.session == session && e.kind.TrustLevelChanged? then Replayed(b, session)
            else Replayed(a, session)
    decreases |b|
  {
    if b == [] {
      assert a + b == a;
    } else {
      var before, last := b[..|b| - 1], b[|b| - 1];
      assert (a + b)[..|a + b| - 1] == a + before;
      ReplayConcat(a, before, session);
      assert b == before + [last];
    }
  }

  /** A session's part of the record. */
  ghost predicate Faithful<T(!new)>(k: Desk<T>, session: nat)
    requires session in k.sessions
  {
    && session in k.since && k.since[session] <= |k.record|
    && Replayed(k.record[k.since[session]..], session) == k.sessions[session].trust.level
    && var level := k.sessions[session].trust.level;
       k.sessions[session].status ==
       if level == Banned then BannedStatus else if level == Flagged then UnderReview else InGoodStanding
  }

  /** Statuses and the record agree with the level of every registered session. */
  ghost predicate Consistent<T(!new)>(k: Desk<T>) {
    forall s :: s in k.sessions ==> Faithful(k, s)
  }

  /** Appending records that change no level of `session` leaves its replay alone. */
  ghost predicate Silent(more: seq<SecurityEvent>, session: nat) {
    forall e :: e in more ==> e.session != session || !e.kind.TrustLevelChanged?
  }

  lemma ReplayGrows(record: seq<SecurityEvent>, more: seq<SecurityEvent>, start: nat, session: nat)
    requires start <= |record|
    ensures (record + more)[start..] == record[start..] + more
    ensures Silent(more, session) ==> Replayed((record + more)[start..], session) == Replayed(record[start..], session)
  {
    ReplayConcat(record[start..], more, session);
  }

  /** Registered sessions in `b` that look as they did in `a` stay faithful while silent records are added. */
  lemma StaysFaithful<T(!new)>(a: Desk<T>, b: Desk<T>, more: seq<SecurityEvent>, session: nat)
    requires session in a.sessions && Faithful(a, session)
    requires session in b.sessions && session in b.since && b.since[session] == a.since[session]
    requires b.sessions[session].trust.level == a.sessions[session].trust.level
    requires b.sessions[session].status == a.sessions[session].status
    requires b.record == a.record + more && Silent(more, session)
    ensures Faithful(b, session)
  {
    ReplayGrows(a.record, more, a.since[session], session);
  }

  // ---------------------------------------------------------------- one change of level

  lemma NoteIsSilent(session: nat, player: nat, tick: nat, before: Level, after: Level, other: nat)
    requires other != session
    ensures Silent(Note(session, player, tick, before, after), other)
  {
  }

  lemma NoteReplays(record: seq<SecurityEvent>, start: nat, session: nat, player: nat, tick: nat, before: Level,
      after: Level)
    requires start <= |record| && Replayed(record[start..], session) == before
    ensures Replayed((record + Note(session, player, tick, before, after))[start..], session) == after
  {
    var note := Note(session, player, tick, before, after);
    ReplayGrows(record, note, start, session);
    if before != after {
      var whole := record[start..] + note;
      assert whole[|whole| - 1] == note[0];
    } else {
      assert record[start..] + note == record[start..];
    }
  }

  lemma MoveConsistent<T(!new)>(k: Desk<T>, session: nat, player: nat, tick: nat, t: Standing)
    requires Consistent(k) && session in k.sessions
    ensures Consistent(Move(k, session, player, tick, t))
  {
    var after := Move(k, session, player, tick, t);
    var before := k.sessions[session].trust.level;
    var note := Note(session, player, tick, before, t.level);
    forall s | s in after.sessions ensures Faithful(after, s) {
      assert Faithful(k, s);
      if s == session {
        NoteReplays(k.record, k.since[s], s, player, tick, before, t.level);
      } else {
        NoteIsSilent(session, player, tick, before, t.level, s);
        StaysFaithful(k, after, note, s);
      }
    }
  }

  /** Rewriting dossiers without touching trust or status, and appending silent records, changes nothing here. */
  lemma BookkeepingConsistent<T(!new)>(a: Desk<T>, b: Desk<T>, more: seq<SecurityEvent>)
    requires Consistent(a)
    requires b.record == a.record + more
    requires forall s :: s in b.sessions ==>
               && s in a.sessions && s in a.since && s in b.since && b.since[s] == a.since[s]
               && b.sessions[s].trust.level == a.sessions[s].trust.level
               && b.sessions[s].status == a.sessions[s].status
    requires forall s :: s in b.sessions ==> Silent(more, s)
    ensures Consistent(b)
  {
    hide Faithful, Silent;
    forall s | s in b.sessions ensures Faithful(b, s) {
      assert Faithful(a, s);
      StaysFaithful(a, b, more, s);
    }
  }

  lemma HasSince<T(!new)>(k: Desk<T>, s: nat)
    requires Consistent(k) && s in k.sessions
    ensures s in k.since
  {
    assert Faithful(k, s);
  }

  lemma QuietUpdate<T(!new)>(a: Desk<T>, b: Desk<T>, more: seq<SecurityEvent>)
    requires Consistent(a)
    requires b.record == a.record + more && b.since == a.since
    requires b.sessions.Keys <= a.sessions.Keys
    requires forall s :: s in b.sessions ==>
               && b.sessions[s].trust.level == a.sessions[s].trust.level
               && b.sessions[s].status == a.sessions[s].status
    requires forall e :: e in more ==> !e.kind.TrustLevelChanged?
    ensures Consistent(b)
  {
    hide Consistent;
    forall s | s in b.sessions
      ensures s in a.sessions && s in a.since
    {
      HasSince(a, s);
    }
    BookkeepingConsistent(a, b, more);
  }

  lemma FindingConsistent<T(!new)>(p: Policy, k: Desk<T>, session: nat, player: nat, tick: nat, kind: EventKind)
    requires Consistent(k) && kind.Found?
    ensures Consistent(ApplyFinding(p, k, session, player, tick, kind))
  {
    hide Consistent, AfterViolation, SeverityOf;
    var more := [Written(session, player, tick, kind)];
    var written := k.(record := k.record + more);
    QuietUpdate(k, written, more);
    if session in k.sessions {
      MoveConsistent(written, session, player, tick,
                     AfterViolation(p, k.sessions[session].trust, SeverityOf(kind), tick));
    }
  }

  lemma {:induction false} FindingsConsistent<T(!new)>(p: Policy, k: Desk<T>, session: nat, player: nat, tick: nat,
                                                       fs: seq<Anomaly>)
    requires Consistent(k)
    ensures Consistent(ApplyFindings(p, k, session, player, tick, fs))
  {
    hide Consistent, ApplyFinding;
    if fs == [] {
    } else {
      var before := ApplyFindings(p, k, session, player, tick, fs[..|fs| - 1]);
      FindingsConsistent(p, k, session, player, tick, fs[..|fs| - 1]);
      FindingConsistent(p, before, session, player, tick, Found(fs[|fs| - 1]));
    }
  }

  // ---------------------------------------------------------------- inspection

  lemma CountersConsistent<T(!new)>(k: Desk<T>, session: nat, telemetry: T)
    requires Consistent(k) && session in k.sessions
    ensures Consistent(Inspected(k, session))
    ensures Consistent(CountBlocked(k, session))
    ensures Consistent(Remembered(k, session, telemetry))
  {
    hide Consistent;
    assert k.record + [] == k.record;
    QuietUpdate(k, Inspected(k, session), []);
    QuietUpdate(k, CountBlocked(k, session), []);
    QuietUpdate(k, Remembered(k, session, telemetry), []);
  }

  lemma InspectConsistent<T(!new), C(!new)>(p: Policy, d: Detectors<T, C>, k: Desk<T>, session: nat, player: nat,
                                            tick: nat, c: C)
    requires Consistent(k)
    ensures Consistent(InspectCommand(p, d, k, session, player, tick, c).0)
  {
    hide Consistent, AfterClean, ApplyFindings, Worst, Move, CountBlocked, Inspected, Remembered;
    if session in k.sessions {
      var earlier := k.sessions[session].telemetry;
      CountersConsistent(k, session, earlier);
      var seen := Inspected(k, session);
      InspectedKeepsSessions(k, session);
      CountersConsistent(seen, session, earlier);
      if !IsBanned(seen, session) {
        var (telemetry, fs) := d.inspect(seen.sessions[session].telemetry, c);
        CountersConsistent(seen, session, telemetry);
        var looked := Remembered(seen, session, telemetry);
        RememberedKeepsSessions(seen, session, telemetry);
        if fs == [] {
          MoveConsistent(looked, session, player, tick, AfterClean(p, looked.sessions[session].trust));
        } else {
          FindingsConsistent(p, looked, session, player, tick, fs);
          FindingsKeepSessions(p, looked, session, player, tick, fs);
          CountersConsistent(ApplyFindings(p, looked, session, player, tick, fs), session, telemetry);
        }
      }
    }
  }

  lemma InspectedKeepsSessions<T>(k: Desk<T>, session: nat)
    requires session in k.sessions
    ensures session in Inspected(k, session).sessions
    ensures Inspected(k, session).sessions[session].trust == k.sessions[session].trust
    ensures CountBlocked(k, session).sessions[session].trust == k.sessions[session].trust
  {
  }

  lemma RememberedKeepsSessions<T>(k: Desk<T>, session: nat, telemetry: T)
    requires session in k.sessions
    ensures session in Remembered(k, session, telemetry).sessions
    ensures Remembered(k, session, telemetry).sessions[session].trust == k.sessions[session].trust
  {
  }

  /** The gravest severity among the findings. */
  lemma {:induction false} WorstLaw(fs: seq<Anomaly>)
    ensures forall a :: a in fs ==> Rank(SeverityOf(Found(a))) <= Rank(Worst(fs).0)
    ensures fs != [] ==> exists a :: a in fs && Worst(fs) == (SeverityOf(Found(a)), ReasonFor(a))
  {
    if fs == [] {
    } else {
      var before, last := fs[..|fs| - 1], fs[|fs| - 1];
      WorstLaw(before);
      assert fs == before + [last];
      assert last in fs;
      if before != [] && Worst(fs) == Worst(before) {
        var a :| a in before && Worst(before) == (SeverityOf(Found(a)), ReasonFor(a));
        assert a in fs;
      }
    }
  }

  lemma CleanNeverBans(p: Policy, s: Standing)
    requires s.level != Banned
    ensures AfterClean(p, s).level != Banned
  {
  }

  /**
   A command is kicked exactly when its session is registered and banned on return; an unbanned
   one loses its command exactly when some finding is of high severity or worse.
   */
  lemma VerdictLaw<T(!new), C(!new)>(p: Policy, d: Detectors<T, C>, k: Desk<T>, session: nat, player: nat,
                                     tick: nat, c: C)
    ensures var (after, verdict) := InspectCommand(p, d, k, session, player, tick, c);
      && (verdict.Kick? <==> IsBanned(after, session))
      && (session !in k.sessions ==> verdict == Allow && after == k)
      && (session in k.sessions && !IsBanned(k, session) ==>
            var fs := d.inspect(k.sessions[session].telemetry, c).1;
            && (verdict.Allow? <==> fs == [])
            && (verdict.Reject? <==>
                  !IsBanned(after, session) && exists a :: a in fs && Rank(SeverityOf(Found(a))) >= Rank(High)))
  {
    hide ApplyFindings, AfterClean;
    if session in k.sessions {
      var seen := Inspected(k, session);
      if !IsBanned(seen, session) {
        var (telemetry, fs) := d.inspect(seen.sessions[session].telemetry, c);
        var looked := Remembered(seen, session, telemetry);
        if fs == [] {
          CleanNeverBans(p, looked.sessions[session].trust);
        } else {
          WorstLaw(fs);
          FindingsKeepSessions(p, looked, session, player, tick, fs);
          BlockedKeepsBan(ApplyFindings(p, looked, session, player, tick, fs), session);
        }
      }
    }
  }

  lemma BlockedKeepsBan<T>(k: Desk<T>, session: nat)
    requires session in k.sessions
    ensures IsBanned(CountBlocked(k, session), session) == IsBanned(k, session)
  {
  }

  // ---------------------------------------------------------------- every operation

  datatype Operation<C> =
    | Initialize
    | Shutdown
    | Begin(player: nat, session: nat)
    | Authenticated(session: nat, player: nat, faction: nat, tick: nat)
    | Inspect(session: nat, player: nat, tick: nat, command: C)
    | Report(session: nat, player: nat, tick: nat, kind: EventKind)
    | SubmitManifest(session: nat, accepted: bool)
    | OverrideLevel(session: nat, level: Level)
    | EndPlayer(player: nat)
    | EndById(session: nat)
    | DrainKicks

  ghost function Perform<T, C>(p: Policy, d: Detectors<T, C>, k: Desk<T>, op: Operation<C>): Desk<T> {
    match op
    case Initialize => k.(initialized := true)
    case Shutdown => k.(initialized := false, sessions := map[], players := map[], kicks := [])
    case Begin(player, session) => BeginSession(d, k, player, session).0
    case Authenticated(session, player, faction, tick) => Authenticate(d, k, session, player, faction, tick)
    case Inspect(session, player, tick, c) => InspectCommand(p, d, k, session, player, tick, c).0
    case Report(session, player, tick, kind) => ApplyFinding(p, k, session, player, tick, kind)
    case SubmitManifest(session, accepted) => VerifyManifest(p, k, session, accepted).0
    case OverrideLevel(session, level) => Override(k, session, level)
    case EndPlayer(player) => EndSession(k, player)
    case EndById(session) => EndSessionById(k, session)
    case DrainKicks => k.(kicks := [])
  }

  // ---------------------------------------------------------------- reports from outside

  /**
   A report that leaves the record truthful. One of a level change must not name a registered
   session, or the report itself must move that session's level, so that the provider's own record
   follows, or it must name the level that the session has.
   */
  ghost predicate Credible<T(!new)>(p: Policy, k: Desk<T>, session: nat, tick: nat, kind: EventKind) {
    kind.TrustLevelChanged? && session in k.sessions ==>
      var trust := k.sessions[session].trust;
      AfterViolation(p, trust, Info, tick).level != trust.level || kind.target == trust.level
  }

  lemma ReplayEndsWith(events: seq<SecurityEvent>, e: SecurityEvent, session: nat)
    requires e.session == session && e.kind.TrustLevelChanged?
    ensures Replayed(events + [e], session) == e.kind.target
  {
    assert (events + [e])[|events|] == e;
  }

  /** A reported change is replayed last, unless the report moved the level. */
  lemma ReportedReplay<T(!new)>(p: Policy, k: Desk<T>, session: nat, player: nat, tick: nat, kind: EventKind)
    requires Consistent(k) && session in k.sessions && kind.TrustLevelChanged?
    ensures Faithful(ApplyFinding(p, k, session, player, tick, kind), session) <==> Credible(p, k, session, tick, kind)
  {
    hide AfterViolation;
    assert Faithful(k, session);
    var before := k.sessions[session].trust.level;
    var t := AfterViolation(p, k.sessions[session].trust, Info, tick);
    var after, start := ApplyFinding(p, k, session, player, tick, kind), k.since[session];
    var e, note := Written(session, player, tick, kind), Note(session, player, tick, before, t.level);
    ReplayEndsWith(k.record[start..], e, session);
    assert after.record == k.record + [e] + note;
    assert (k.record + [e] + note)[start..] == k.record[start..] + [e] + note;
    if before != t.level {
      ReplayEndsWith(k.record[start..] + [e], note[0], session);
    } else {
      assert k.record[start..] + [e] + note == k.record[start..] + [e];
    }
  }

  /** Exactly the credible reports keep statuses and record in agreement with the levels. */
  lemma ReportConsistentIff<T(!new)>(p: Policy, k: Desk<T>, session: nat, player: nat, tick: nat, kind: EventKind)
    requires Consistent(k)
    ensures Consistent(ApplyFinding(p, k, session, player, tick, kind)) <==> Credible(p, k, session, tick, kind)
  {
    hide Faithful, Credible, Move, AfterViolation;
    var after := ApplyFinding(p, k, session, player, tick, kind);
    if kind.Found? {
      FindingConsistent(p, k, session, player, tick, kind);
      assert Credible(p, k, session, tick, kind) by { FoundIsCredible(p, k, session, tick, kind); }
    } else {
      forall s | s in after.sessions && s != session ensures Faithful(after, s) {
        OthersStayFaithful(p, k, session, player, tick, kind, s);
      }
      if session in k.sessions {
        ReportedReplay(p, k, session, player, tick, kind);
        assert session in after.sessions by { FindingKeepsKeys(p, k, session, player, tick, kind); }
      } else {
        assert Credible(p, k, session, tick, kind) by { StrangerIsCredible(p, k, session, tick, kind); }
      }
    }
  }

  lemma FoundIsCredible<T(!new)>(p: Policy, k: Desk<T>, session: nat, tick: nat, kind: EventKind)
    requires kind.Found?
    ensures Credible(p, k, session, tick, kind)
  {
  }

  lemma StrangerIsCredible<T(!new)>(p: Policy, k: Desk<T>, session: nat, tick: nat, kind: EventKind)
    requires session !in k.sessions
    ensures Credible(p, k, session, tick, kind)
  {
  }

  lemma FindingKeepsKeys<T(!new)>(p: Policy, k: Desk<T>, session: nat, player: nat, tick: nat, kind: EventKind)
    ensures ApplyFinding(p, k, session, player, tick, kind).sessions.Keys == k.sessions.Keys
  {
    hide AfterViolation;
  }

  lemma OthersStayFaithful<T(!new)>(p: Policy, k: Desk<T>, session: nat, player: nat, tick: nat, kind: EventKind,
                                    other: nat)
    requires Consistent(k) && other in ApplyFinding(p, k, session, player, tick, kind).sessions && other != session
    ensures Faithful(ApplyFinding(p, k, session, player, tick, kind), other)
  {
    hide AfterViolation;
    assert Faithful(k, other);
    var after := ApplyFinding(p, k, session, player, tick, kind);
    var e := [Written(session, player, tick, kind)];
    if session in k.sessions {
      var before := k.sessions[session].trust.level;
      var t := AfterViolation(p, k.sessions[session].trust, SeverityOf(kind), tick);
      var note := Note(session, player, tick, before, t.level);
      NoteIsSilent(session, player, tick, before, t.level, other);
      assert k.record + e + note == k.record + (e + note);
      StaysFaithful(k, after, e + note, other);
    } else {
      StaysFaithful(k, after, e, other);
    }
  }

  /** An operation that does not falsify the record. */
  ghost predicate Honest<T(!new), C>(p: Policy, k: Desk<T>, op: Operation<C>) {
    op.Report? ==> Credible(p, k, op.session, op.tick, op.kind)
  }

  lemma RegisterConsistent<T(!new)>(k: Desk<T>, session: nat, d: Dossier<T>, after: Desk<T>)
    requires Consistent(k)
    requires session !in k.sessions
    requires d.trust.level == Untrusted && d.status == InGoodStanding
    requires after.sessions == k.sessions[session := d] && after.record == k.record
    requires after.since == k.since[session := |k.record|]
    ensures Consistent(after)
  {
    forall s | s in after.sessions ensures Faithful(after, s) {
      if s == session {
        assert after.record[after.since[s]..] == [];
      } else {
        assert Faithful(k, s);
        assert k.record + [] == k.record;
        StaysFaithful(k, after, [], s);
      }
    }
  }

  lemma AuthenticateConsistent<T(!new), C(!new)>(d: Detectors<T, C>, k: Desk<T>, session: nat, player: nat,
                                                 faction: nat, tick: nat)
    requires Consistent(k)
    ensures Consistent(Authenticate(d, k, session, player, faction, tick))
  {
    hide Consistent;
    var after := Authenticate(d, k, session, player, faction, tick);
    if session in k.sessions {
      assert k.record + [] == k.record;
      QuietUpdate(k, after, []);
    } else {
      RegisterConsistent(k, session, after.sessions[session], after);
    }
  }

  lemma RemovalConsistent<T(!new)>(k: Desk<T>, after: Desk<T>)
    requires Consistent(k)
    requires after.record == k.record && after.since == k.since
    requires after.sessions.Keys <= k.sessions.Keys
    requires forall s :: s in after.sessions ==> after.sessions[s] == k.sessions[s]
    ensures Consistent(after)
  {
    hide Consistent;
    assert k.record + [] == k.record;
    QuietUpdate(k, after, []);
  }

  lemma ManifestConsistent<T(!new)>(p: Policy, k: Desk<T>, session: nat, accepted: bool)
    requires Consistent(k)
    ensures Consistent(VerifyManifest(p, k, session, accepted).0)
  {
    hide Consistent, ApplyFinding;
    if k.initialized && session in k.sessions {
      if accepted {
        assert k.record + [] == k.record;
        QuietUpdate(k, VerifyManifest(p, k, session, accepted).0, []);
      } else {
        var d := k.sessions[session];
        var found := ApplyFinding(p, k, session, d.player, d.startTick, Found(ManifestMismatch));
        FindingConsistent(p, k, session, d.player, d.startTick, Found(ManifestMismatch));
        RemovalConsistent(found, VerifyManifest(p, k, session, accepted).0);
      }
    }
  }

  lemma OverrideConsistent<T(!new)>(k: Desk<T>, session: nat, level: Level)
    requires Consistent(k)
    ensures Consistent(Override(k, session, level))
  {
    hide Consistent, Move;
    if session in k.sessions {
      var d := k.sessions[session];
      MoveConsistent(k, session, d.player, d.startTick, d.trust.(level := level));
    }
  }

  /** One operation keeps the agreement exactly when it is honest. */
  lemma PerformConsistentIff<T(!new), C(!new)>(p: Policy, d: Detectors<T, C>, k: Desk<T>, op: Operation<C>)
    requires Consistent(k)
    ensures Consistent(Perform(p, d, k, op)) <==> Honest(p, k, op)
  {
    hide Consistent, InspectCommand, ApplyFinding, VerifyManifest, Override, Without, Authenticate, Credible;
    match op {
      case Begin(player, session) =>
        if k.initialized && session !in k.sessions {
          RegisterConsistent(k, session, NewDossier(d, player, 0, 0), Perform(p, d, k, op));
        }
      case Authenticated(session, player, faction, tick) =>
        AuthenticateConsistent(d, k, session, player, faction, tick);
      case Inspect(session, player, tick, c) => InspectConsistent(p, d, k, session, player, tick, c);
      case Report(session, player, tick, kind) => ReportConsistentIff(p, k, session, player, tick, kind);
      case SubmitManifest(session, accepted) => ManifestConsistent(p, k, session, accepted);
      case OverrideLevel(session, level) => OverrideConsistent(k, session, level);
      case _ => RemovalConsistent(k, Perform(p, d, k, op));
    }
  }

  ghost function Run<T, C>(p: Policy, d: Detectors<T, C>, ops: seq<Operation<C>>): Desk<T> {
    if ops == [] then Desk(false, map[], map[], [], [], map[])
    else Perform(p, d, Run(p, d, ops[..|ops| - 1]), ops[|ops| - 1])
  }

  /** Statuses and record agree with the levels at every point of a run. */
  ghost predicate AlwaysConsistent<T(!new), C>(p: Policy, d: Detectors<T, C>, ops: seq<Operation<C>>) {
    Consistent(Run(p, d, ops)) && (ops != [] ==> AlwaysConsistent(p, d, ops[..|ops| - 1]))
  }

  /** Every operation is honest at its turn. */
  ghost predicate AlwaysHonest<T(!new), C>(p: Policy, d: Detectors<T, C>, ops: seq<Operation<C>>) {
    ops != [] ==>
      var before := ops[..|ops| - 1];
      AlwaysHonest(p, d, before) && Honest(p, Run(p, d, before), ops[|ops| - 1])
  }

  /**
   Over every run each registered session's status is the projection of its trust level, and
   replaying the changes recorded since its registration gives exactly that level, at every point
   of the run exactly when every operation is honest at its turn.
   */
  lemma {:induction false} RecordReplaysEveryLevel<T(!new), C(!new)>(p: Policy, d: Detectors<T, C>,
                                                                     ops: seq<Operation<C>>)
    ensures AlwaysConsistent(p, d, ops) <==> AlwaysHonest(p, d, ops)
  {
    hide Perform, Honest, Consistent;
    if ops == [] {
      NothingToReplay(p, d);
    } else {
      var before := ops[..|ops| - 1];
      RecordReplaysEveryLevel(p, d, before);
      if AlwaysConsistent(p, d, before) {
        assert Consistent(Run(p, d, before));
        PerformConsistentIff(p, d, Run(p, d, before), ops[|ops| - 1]);
      }
    }
  }

  lemma NothingToReplay<T(!new), C(!new)>(p: Policy, d: Detectors<T, C>)
    ensures Consistent(Run(p, d, []))
  {
  }

  /** A false report: a fresh session is reported as promoted, and the replay believes it. */
  lemma ForgedRecordMisleads<T(!new)>(p: Policy, k: Desk<T>, session: nat, player: nat, tick: nat)
    requires Consistent(k) && session in k.sessions && k.sessions[session].trust == NewStanding()
    requires p.flagThreshold > 0 && p.banThreshold > 0
    ensures !Consistent(ApplyFinding(p, k, session, player, tick, TrustLevelChanged(Untrusted, Trusted)))
  {
    ReportConsistentIff(p, k, session, player, tick, TrustLevelChanged(Untrusted, Trusted));
  }

  // ---------------------------------------------------------------- kicks

  ghost predicate Queued<T>(k: Desk<T>, session: nat) {
    exists i :: 0 <= i < |k.kicks| && k.kicks[i].0 == session
  }

  lemma MoveQueues<T>(k: Desk<T>, session: nat, player: nat, tick: nat, t: Standing, other: nat)
    requires session in k.sessions
    ensures var after := Move(k, session, player, tick, t);
      && (Queued(k, other) ==> Queued(after, other))
      && (IsBanned(after, other) ==> IsBanned(k, other) || Queued(after, other))
  {
    var after := Move(k, session, player, tick, t);
    assert forall i :: 0 <= i < |k.kicks| ==> after.kicks[i] == k.kicks[i];
    if IsBanned(after, other) && !IsBanned(k, other) {
      assert after.kicks[|k.kicks|].0 == other;
    }
  }

  lemma {:induction false} FindingsQueue<T>(p: Policy, k: Desk<T>, session: nat, player: nat, tick: nat,
                                            fs: seq<Anomaly>, other: nat)
    ensures var after := ApplyFindings(p, k, session, player, tick, fs);
      && (Queued(k, other) ==> Queued(after, other))
      && (IsBanned(after, other) ==> IsBanned(k, other) || Queued(after, other))
  {
    hide ApplyFinding, Queued, IsBanned;
    if fs == [] {
    } else {
      var before := ApplyFindings(p, k, session, player, tick, fs[..|fs| - 1]);
      FindingsQueue(p, k, session, player, tick, fs[..|fs| - 1], other);
      FindingQueues(p, before, session, player, tick, Found(fs[|fs| - 1]), other);
    }
  }

  lemma FindingQueues<T>(p: Policy, k: Desk<T>, session: nat, player: nat, tick: nat, kind: EventKind, other: nat)
    ensures var after := ApplyFinding(p, k, session, player, tick, kind);
      && (Queued(k, other) ==> Queued(after, other))
      && (IsBanned(after, other) ==> IsBanned(k, other) || Queued(after, other))
  {
    hide AfterViolation, SeverityOf, Move;
    if session in k.sessions {
      var written := k.(record := k.record + [Written(session, player, tick, kind)]);
      MoveQueues(written, session, player, tick, AfterViolation(p, k.sessions[session].trust, SeverityOf(kind), tick),
                 other);
    }
  }

  /** Whatever bans a session during one command queues its kick. */
  lemma NewBanIsQueued<T(!new), C(!new)>(p: Policy, d: Detectors<T, C>, k: Desk<T>, session: nat, player: nat,
                                         tick: nat, c: C)
    ensures var after := InspectCommand(p, d, k, session, player, tick, c).0;
      IsBanned(after, session) && !IsBanned(k, session) ==> Queued(after, session)
  {
    hide ApplyFindings, AfterClean, Move, Queued, Worst;
    if session in k.sessions && !IsBanned(k, session) {
      var seen := Inspected(k, session);
      var (telemetry, fs) := d.inspect(seen.sessions[session].telemetry, c);
      var looked := Remembered(seen, session, telemetry);
      if fs == [] {
        MoveQueues(looked, session, player, tick, AfterClean(p, looked.sessions[session].trust), session);
      } else {
        FindingsQueue(p, looked, session, player, tick, fs, session);
        FindingsKeepSessions(p, looked, session, player, tick, fs);
        BlockedKeepsQueue(ApplyFindings(p, looked, session, player, tick, fs), session);
      }
    }
  }

  lemma BlockedKeepsQueue<T>(k: Desk<T>, session: nat)
    requires session in k.sessions
    ensures Queued(CountBlocked(k, session), session) == Queued(k, session)
    ensures IsBanned(CountBlocked(k, session), session) == IsBanned(k, session)
  {
  }
}
