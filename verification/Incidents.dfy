/** What a finding costs, what a command's inspection leaves behind, and how the provider keeps its books. */
module Incidents {
  import opened Words
  import opened Wrappers
  import opened Trust
  import opened TrustLaws
  import opened AntiCheat

  // ---------------------------------------------------------------- one finding

  /** The points of a finding. */
  function Cost(a: Anomaly): nat {
    match a
    case ImpossibleMovement => 5
    case FutureDatedCommand => 5
    case TeleportAttempt => 15
    case FireRateViolation => 15
    case InvalidPlacement => 15
    case CommandFloodDetected => 15
    case AmmoInconsistency => 40
    case ImpossibleEconomyDelta => 40
    case UnauthorizedOrder => 40
    case UnauthorizedStructureOrder => 40
    case HiddenTargetAttempt => 40
    case AdminPermissionDenied => 40
    case NonFinitePosition => 200
    case PositionOutOfBounds => 200
    case ManifestMismatch => 200
    case SessionBindingMismatch => 200
  }

  /** What the client is told about a finding. */
  function Cause(a: Anomaly): Reason {
    if a.ImpossibleMovement? || a.TeleportAttempt? || a.NonFinitePosition? || a.PositionOutOfBounds? then ByMovement
    else if a.UnauthorizedOrder? || a.UnauthorizedStructureOrder? then ByOrder
    else if a.FireRateViolation? then ByFireRate
    else if a.AmmoInconsistency? then ByAmmo
    else if a.InvalidPlacement? then ByPlacement
    else if a.ImpossibleEconomyDelta? then ByEconomy
    else if a.HiddenTargetAttempt? then ByHiddenTarget
    else if a.FutureDatedCommand? then ByEnvelope
    else if a.CommandFloodDetected? then ByFlood
    else if a.ManifestMismatch? then ByManifest
    else if a.AdminPermissionDenied? then ByAdminPermission
    else ByBinding
  }

  /** The severity of so many points. */
  function Grade(points: nat): Severity {
    if points == 0 then Info else if points == 5 then Low else if points == 15 then Medium
    else if points == 40 then High else Critical
  }

  function PointsOf(kind: EventKind): nat {
    if kind.Found? then Cost(kind.anomaly) else 0
  }

  /** A standing under a charge: the score rises and decides the level; the clean commands start over. */
  function Charged(p: Policy, s: Standing, tick: nat, points: nat): Standing {
    if s.level == Banned then s
    else
      var score := Kept(s.suspicion + points);
      Standing(if (p.banOnCritical && points == 200) || score >= p.banThreshold then Banned
               else if score >= p.flagThreshold then Flagged
               else if s.level == Trusted then Probationary
               else s.level,
               score, 0, Kept(s.violations + 1), Some(tick))
  }

  /** A standing after a clean command. */
  function Praised(p: Policy, s: Standing): Standing {
    if s.level == Banned then s
    else
      var score := if s.suspicion >= p.decay then s.suspicion - p.decay else 0;
      var streak := Kept(s.clean + 1);
      Standing(if s.level == Flagged && score < p.flagThreshold then Probationary
               else if s.level == Untrusted && streak >= p.probationAfter then Probationary
               else if s.level == Probationary && streak >= p.trustedAfter then Trusted
               else s.level,
               score, streak, s.violations, s.lastViolation)
  }

  lemma GradesAre(kind: EventKind)
    ensures SeverityOf(kind) == Grade(PointsOf(kind))
  {
  }

  lemma ChargedIs(p: Policy, s: Standing, tick: nat, kind: EventKind)
    ensures AfterViolation(p, s, SeverityOf(kind), tick) == Charged(p, s, tick, PointsOf(kind))
  {
  }

  lemma PraisedIs(p: Policy, s: Standing)
    ensures AfterClean(p, s) == Praised(p, s)
  {
  }

  // ---------------------------------------------------------------- the verdict

  /** The first of the costliest findings. */
  ghost predicate Gravest(fs: seq<Anomaly>, i: nat) {
    && i < |fs|
    && (forall j :: 0 <= j < i ==> Cost(fs[j]) < Cost(fs[i]))
    && (forall j :: 0 <= j < |fs| ==> Cost(fs[j]) <= Cost(fs[i]))
  }

  lemma RankIsCost(a: Anomaly, b: Anomaly)
    ensures Rank(SeverityOf(Found(a))) > Rank(SeverityOf(Found(b))) <==> Cost(a) > Cost(b)
    ensures Rank(SeverityOf(Found(a))) >= 3 <==> Cost(a) >= 40
    ensures Rank(SeverityOf(Found(a))) > 0 && ReasonFor(a) == Cause(a)
  {
    RankOf(a);
    RankOf(b);
  }

  lemma RankOf(a: Anomaly)
    ensures var rank := Rank(SeverityOf(Found(a)));
      || (rank == 1 && Cost(a) == 5)
      || (rank == 2 && Cost(a) == 15)
      || (rank == 3 && Cost(a) == 40)
      || (rank == 4 && Cost(a) == 200)
    ensures ReasonFor(a) == Cause(a)
  {
  }

  lemma {:induction false} WorstIsGravest(fs: seq<Anomaly>) returns (i: nat)
    requires fs != []
    ensures Gravest(fs, i) && Worst(fs) == (SeverityOf(Found(fs[i])), Cause(fs[i]))
  {
    hide SeverityOf, ReasonFor, Rank, Cost, Cause;
    var before, last := fs[..|fs| - 1], fs[|fs| - 1];
    RankIsCost(last, last);
    if before == [] {
      RankOfInfo();
      i := 0;
    } else {
      i := WorstIsGravest(before);
      RankIsCost(last, before[i]);
      assert forall j :: 0 <= j < |before| ==> before[j] == fs[j];
      if Cost(last) > Cost(before[i]) {
        i := |before|;
      }
    }
  }

  lemma RankOfInfo()
    ensures Rank(Info) == 0
  {
  }

  lemma OneGravest(fs: seq<Anomaly>, i: nat, j: nat)
    requires Gravest(fs, i) && Gravest(fs, j)
    ensures i == j
  {
    hide Cost;
    assert Cost(fs[i]) == Cost(fs[j]);
  }

  /**
   Findings cost the command to a banned session, and to any other from 40 points on; what the
   client is told is the cause of the first of the costliest.
   */
  lemma VerdictIs(banned: bool, fs: seq<Anomaly>, i: nat)
    requires Gravest(fs, i)
    ensures VerdictOn(banned, fs) ==
            if banned then Kick(Cause(fs[i]))
            else if Cost(fs[i]) >= 40 then Reject(Cause(fs[i]))
            else Observe(Cause(fs[i]))
  {
    hide SeverityOf, Cost, Cause, Worst, Gravest;
    assert fs != [] by { GravestWithin(fs, i); }
    var j := WorstIsGravest(fs);
    OneGravest(fs, i, j);
    GravestWithin(fs, i);
    RankIsCost(fs[i], fs[i]);
  }

  lemma GravestWithin(fs: seq<Anomaly>, i: nat)
    requires Gravest(fs, i)
    ensures i < |fs|
  {
  }

  // ---------------------------------------------------------------- the books

  function StatusOf(l: Level): Status {
    if l == Banned then BannedStatus else if l == Flagged then UnderReview else InGoodStanding
  }

  function Change(session: nat, player: nat, tick: nat, before: Level, after: Level): seq<SecurityEvent> {
    if before == after then [] else [SecurityEvent(session, player, tick, Info, TrustLevelChanged(before, after))]
  }

  /** Only the file of `session` differs, and in it nothing but the trust, the status and what the detectors keep. */
  ghost predicate Elsewhere<T(!new)>(a: Desk<T>, b: Desk<T>, session: nat)
    requires session in a.sessions
  {
    && b == a.(sessions := b.sessions, kicks := b.kicks, record := b.record)
    && b.sessions.Keys == a.sessions.Keys
    && (forall s :: s in a.sessions && s != session ==> b.sessions[s] == a.sessions[s])
    && var x, y := a.sessions[session], b.sessions[session];
       && y == x.(trust := y.trust, status := y.status, telemetry := y.telemetry, inspected := y.inspected,
                  blocked := y.blocked)
       && (x.status == StatusOf(x.trust.level) ==> y.status == StatusOf(y.trust.level))
  }

  lemma MoveLaw<T(!new)>(k: Desk<T>, session: nat, player: nat, tick: nat, t: Standing)
    requires session in k.sessions
    ensures var after, x := Move(k, session, player, tick, t), k.sessions[session];
      && Elsewhere(k, after, session)
      && after.sessions[session] == x.(trust := t, status := after.sessions[session].status)
      && after.record == k.record + Change(session, player, tick, x.trust.level, t.level)
      && after.kicks == k.kicks + if x.trust.level != Banned && t.level == Banned then [(session, ByTrustLevel)] else []
  {
  }

  /** A report goes on record, with the change of level that it causes; a ban is queued as a kick. */
  lemma FindingLaw<T(!new)>(p: Policy, k: Desk<T>, session: nat, player: nat, tick: nat, kind: EventKind)
    ensures var after := ApplyFinding(p, k, session, player, tick, kind);
      var event := SecurityEvent(session, player, tick, Grade(PointsOf(kind)), kind);
      && (session !in k.sessions ==> after == k.(record := k.record + [event]))
      && (session in k.sessions ==>
            var x := k.sessions[session];
            var t := Charged(p, x.trust, tick, PointsOf(kind));
            && Elsewhere(k, after, session)
            && after.sessions[session] == x.(trust := t, status := after.sessions[session].status)
            && after.record == k.record + [event] + Change(session, player, tick, x.trust.level, t.level)
            && after.kicks == k.kicks +
                 if x.trust.level != Banned && t.level == Banned then [(session, ByTrustLevel)] else [])
  {
    hide Move, AfterViolation, Charged, Grade, PointsOf, Elsewhere;
    GradesAre(kind);
    if session in k.sessions {
      ChargedIs(p, k.sessions[session].trust, tick, kind);
      var written := k.(record := k.record + [Written(session, player, tick, kind)]);
      MoveLaw(written, session, player, tick, Charged(p, k.sessions[session].trust, tick, PointsOf(kind)));
      ElsewhereSame(k, written, ApplyFinding(p, k, session, player, tick, kind), session);
    }
  }

  lemma ElsewhereSame<T(!new)>(a: Desk<T>, b: Desk<T>, c: Desk<T>, session: nat)
    requires session in a.sessions && b == a.(record := b.record) && Elsewhere(b, c, session)
    ensures Elsewhere(a, c, session)
  {
  }

  lemma ElsewhereTrans<T(!new)>(a: Desk<T>, b: Desk<T>, c: Desk<T>, session: nat)
    requires session in a.sessions && Elsewhere(a, b, session) && Elsewhere(b, c, session)
    ensures Elsewhere(a, c, session)
  {
  }

  ghost function ChargedAll(p: Policy, s: Standing, tick: nat, fs: seq<Anomaly>): Standing {
    if fs == [] then s else Charged(p, ChargedAll(p, s, tick, fs[..|fs| - 1]), tick, Cost(fs[|fs| - 1]))
  }

  /** What the findings of one command put on record. */
  ghost function Reports(p: Policy, s: Standing, session: nat, player: nat, tick: nat, fs: seq<Anomaly>)
    : seq<SecurityEvent>
  {
    if fs == [] then []
    else
      var before, last := fs[..|fs| - 1], fs[|fs| - 1];
      Reports(p, s, session, player, tick, before)
      + [SecurityEvent(session, player, tick, Grade(Cost(last)), Found(last))]
      + Change(session, player, tick, ChargedAll(p, s, tick, before).level, ChargedAll(p, s, tick, fs).level)
  }

  lemma {:induction false} FindingsLaw<T(!new)>(p: Policy, k: Desk<T>, session: nat, player: nat, tick: nat,
                                                fs: seq<Anomaly>)
    requires session in k.sessions
    ensures var after, x := ApplyFindings(p, k, session, player, tick, fs), k.sessions[session];
      var t := ChargedAll(p, x.trust, tick, fs);
      && Elsewhere(k, after, session)
      && (x.trust.level == Banned ==> t == x.trust)
      && after.sessions[session] == x.(trust := t, status := after.sessions[session].status)
      && after.record == k.record + Reports(p, x.trust, session, player, tick, fs)
      && after.kicks == k.kicks + if x.trust.level != Banned && t.level == Banned then [(session, ByTrustLevel)] else []
  {
    hide ApplyFinding, Charged, Change, Elsewhere, Cost;
    if fs == [] {
      assert Elsewhere(k, k, session) by { ElsewhereSelf(k, session); }
    } else {
      var before, last, trust := fs[..|fs| - 1], fs[|fs| - 1], k.sessions[session].trust;
      FindingsLaw(p, k, session, player, tick, before);
      var mid := ApplyFindings(p, k, session, player, tick, before);
      assert session in mid.sessions by { ElsewhereKeeps(k, mid, session); }
      FindingLaw(p, mid, session, player, tick, Found(last));
      ElsewhereTrans(k, mid, ApplyFindings(p, k, session, player, tick, fs), session);
      BansStay(p, ChargedAll(p, trust, tick, before), tick, Cost(last));
      var event := [SecurityEvent(session, player, tick, Grade(Cost(last)), Found(last))];
      var change := Change(session, player, tick, ChargedAll(p, trust, tick, before).level,
                           ChargedAll(p, trust, tick, fs).level);
      var reports := Reports(p, trust, session, player, tick, before);
      assert Reports(p, trust, session, player, tick, fs) == reports + event + change;
      assert k.record + reports + event + change == k.record + (reports + event + change);
    }
  }

  lemma BansStay(p: Policy, s: Standing, tick: nat, points: nat)
    ensures s.level == Banned ==> Charged(p, s, tick, points) == s
  {
  }

  lemma ElsewhereSelf<T(!new)>(a: Desk<T>, session: nat)
    requires session in a.sessions
    ensures Elsewhere(a, a, session)
  {
  }

  lemma ElsewhereKeeps<T(!new)>(a: Desk<T>, b: Desk<T>, session: nat)
    requires session in a.sessions && Elsewhere(a, b, session)
    ensures session in b.sessions
  {
  }

  // ---------------------------------------------------------------- a command

  function Counted(n: nat): nat {
    if n < 0xFFFF_FFFF_FFFF_FFFF then n + 1 else 0xFFFF_FFFF_FFFF_FFFF
  }

  lemma NobodyInspected<T(!new), C(!new)>(p: Policy, d: Detectors<T, C>, k: Desk<T>, session: nat, player: nat,
                                          tick: nat, c: C)
    requires session !in k.sessions
    ensures InspectCommand(p, d, k, session, player, tick, c) == (k, Allow)
  {
  }

  /** A banned session's commands are not even looked at: they are counted, and it is kicked. */
  lemma BannedInspected<T(!new), C(!new)>(p: Policy, d: Detectors<T, C>, k: Desk<T>, session: nat, player: nat,
                                          tick: nat, c: C)
    requires session in k.sessions && k.sessions[session].trust.level == Banned
    ensures var x := k.sessions[session];
      InspectCommand(p, d, k, session, player, tick, c) ==
      (k.(sessions := k.sessions[session := x.(inspected := Counted(x.inspected), blocked := Counted(x.blocked))]),
       Kick(ByTrustLevel))
  {
    var x := k.sessions[session];
    var seen, blocked := x.(inspected := Counted(x.inspected)), Counted(x.blocked);
    assert k.sessions[session := seen][session := seen.(blocked := blocked)] ==
      k.sessions[session := seen.(blocked := blocked)];
  }

  /** A clean command is allowed; it counts for its session's trust, and a change of level is put on record. */
  lemma CleanInspected<T(!new), C(!new)>(p: Policy, d: Detectors<T, C>, k: Desk<T>, session: nat, player: nat,
                                         tick: nat, c: C)
    requires session in k.sessions && k.sessions[session].trust.level != Banned
    requires d.inspect(k.sessions[session].telemetry, c).1 == []
    ensures var x, t := k.sessions[session], Praised(p, k.sessions[session].trust);
      var (after, verdict) := InspectCommand(p, d, k, session, player, tick, c);
      && verdict == Allow && Elsewhere(k, after, session)
      && after.sessions[session] == x.(trust := t, status := after.sessions[session].status,
                                       inspected := Counted(x.inspected),
                                       telemetry := d.inspect(x.telemetry, c).0)
      && after.record == k.record + Change(session, player, tick, x.trust.level, t.level)
      && after.kicks == k.kicks
  {
    hide AfterClean, Praised, Move, Change, Elsewhere;
    var x := k.sessions[session];
    PraisedIs(p, x.trust);
    PraiseNeverBans(p, x.trust);
    var looked := Remembered(Inspected(k, session), session, d.inspect(x.telemetry, c).0);
    LookedAt(k, looked, session, Counted(x.inspected), d.inspect(x.telemetry, c).0);
    assert InspectCommand(p, d, k, session, player, tick, c) ==
      (Move(looked, session, player, tick, Praised(p, x.trust)), Allow);
    MoveLaw(looked, session, player, tick, Praised(p, x.trust));
    ElsewhereTrans(k, looked, Move(looked, session, player, tick, Praised(p, x.trust)), session);
  }

  lemma PraiseNeverBans(p: Policy, s: Standing)
    requires s.level != Banned
    ensures Praised(p, s).level != Banned
  {
  }

  lemma LookedAt<T(!new)>(k: Desk<T>, b: Desk<T>, session: nat, inspected: nat, telemetry: T)
    requires session in k.sessions
    requires b == k.(sessions :=
      k.sessions[session := k.sessions[session].(inspected := inspected, telemetry := telemetry)])
    ensures Elsewhere(k, b, session)
  {
  }

  lemma BlockedElsewhere<T(!new)>(k: Desk<T>, session: nat)
    requires session in k.sessions
    ensures Elsewhere(k, CountBlocked(k, session), session)
    ensures var x := k.sessions[session];
      CountBlocked(k, session) == k.(sessions := k.sessions[session := x.(blocked := Counted(x.blocked))])
  {
  }

  /**
   Findings are charged one after another and put on record with the changes of level they cause; a
   ban is queued as a kick. The command is lost to a ban, or to a finding of 40 points or more.
   */
  lemma FoundInspected<T(!new), C(!new)>(p: Policy, d: Detectors<T, C>, k: Desk<T>, session: nat, player: nat,
                                         tick: nat, c: C, i: nat)
    requires session in k.sessions && k.sessions[session].trust.level != Banned
    requires Gravest(d.inspect(k.sessions[session].telemetry, c).1, i)
    ensures var x, fs := k.sessions[session], d.inspect(k.sessions[session].telemetry, c).1;
      var t := ChargedAll(p, x.trust, tick, fs);
      var (after, verdict) := InspectCommand(p, d, k, session, player, tick, c);
      && verdict == (if t.level == Banned then Kick(Cause(fs[i]))
                     else if Cost(fs[i]) >= 40 then Reject(Cause(fs[i]))
                     else Observe(Cause(fs[i])))
      && Elsewhere(k, after, session)
      && after.sessions[session] == x.(trust := t, status := after.sessions[session].status,
                                       inspected := Counted(x.inspected),
                                       blocked := if verdict.Observe? then x.blocked else Counted(x.blocked),
                                       telemetry := d.inspect(x.telemetry, c).0)
      && after.record == k.record + Reports(p, x.trust, session, player, tick, fs)
      && after.kicks == k.kicks + if t.level == Banned then [(session, ByTrustLevel)] else []
  {
    hide ApplyFindings, ChargedAll, Reports, Elsewhere, Cost, Cause, VerdictOn, Gravest, CountBlocked;
    var x := k.sessions[session];
    var (telemetry, fs) := d.inspect(x.telemetry, c);
    GravestWithin(fs, i);
    var looked := Remembered(Inspected(k, session), session, telemetry);
    LookedAt(k, looked, session, Counted(x.inspected), telemetry);
    FindingsLaw(p, looked, session, player, tick, fs);
    var judged := ApplyFindings(p, looked, session, player, tick, fs);
    ElsewhereKeeps(looked, judged, session);
    ElsewhereTrans(k, looked, judged, session);
    VerdictIs(IsBanned(judged, session), fs, i);
    BlockedElsewhere(judged, session);
    ElsewhereTrans(k, judged, CountBlocked(judged, session), session);
  }

  // ---------------------------------------------------------------- the life of a file

  /** A file is opened once, untrusted and in good standing, for a player without a faction. */
  lemma BegunIs<T(!new), C(!new)>(d: Detectors<T, C>, k: Desk<T>, player: nat, session: nat)
    ensures var (after, r) := BeginSession(d, k, player, session);
      && (!k.initialized ==> r == Err(NotInitialized))
      && (k.initialized && session in k.sessions ==> r == Err(SessionAlreadyRegistered))
      && (r.Ok? <==> k.initialized && session !in k.sessions)
      && (r.Err? ==> after == k)
      && (r.Ok? ==>
            && after == k.(sessions := after.sessions, players := k.players[player := session],
                           since := k.since[session := |k.record|])
            && after.sessions.Keys == k.sessions.Keys + {session}
            && (forall s :: s in k.sessions ==> after.sessions[s] == k.sessions[s])
            && after.sessions[session] ==
               Dossier(Standing(Untrusted, 0, 0, 0, None), player, 0, 0, d.blank(0), InGoodStanding, false, 0, 0))
  {
  }

  /** Authentication names the player of a file, opening it if need be, and starts the detectors afresh. */
  lemma AuthenticatedIs<T(!new), C(!new)>(d: Detectors<T, C>, k: Desk<T>, session: nat, player: nat, faction: nat,
                                          tick: nat)
    ensures var after := Authenticate(d, k, session, player, faction, tick);
      && after == k.(sessions := after.sessions, players := k.players[player := session], since := after.since)
      && after.since == (if session in k.sessions then k.since else k.since[session := |k.record|])
      && after.sessions.Keys == k.sessions.Keys + {session}
      && (forall s :: s in k.sessions && s != session ==> after.sessions[s] == k.sessions[s])
      && after.sessions[session] ==
           if session in k.sessions
           then k.sessions[session].(player := player, faction := faction, startTick := tick,
                                     telemetry := d.blank(tick))
           else Dossier(Standing(Untrusted, 0, 0, 0, None), player, faction, tick, d.blank(tick), InGoodStanding,
                        false, 0, 0)
  {
  }

  lemma {:induction false} WithoutIs(kicks: seq<(nat, Reason)>, session: nat, r: (nat, Reason))
    ensures multiset(Without(kicks, session))[r] == if r.0 == session then 0 else multiset(kicks)[r]
  {
    if kicks == [] {
    } else {
      WithoutIs(kicks[..|kicks| - 1], session, r);
      assert kicks == kicks[..|kicks| - 1] + [kicks[|kicks| - 1]];
    }
  }

  /** Ending a player's session closes its file and strikes its kicks; a player without one ends nothing. */
  lemma EndedIs<T(!new)>(k: Desk<T>, player: nat)
    ensures var after := EndSession(k, player);
      if player !in k.players then after == k
      else
        var session := k.players[player];
        && after == k.(players := after.players, sessions := after.sessions, kicks := after.kicks)
        && after.sessions.Keys == k.sessions.Keys - {session} && after.players.Keys == k.players.Keys - {player}
        && (forall s :: s in after.sessions ==> after.sessions[s] == k.sessions[s])
        && (forall q :: q in after.players ==> after.players[q] == k.players[q])
        && (forall r :: multiset(after.kicks)[r] == if r.0 == session then 0 else multiset(k.kicks)[r])
  {
    hide Without;
    if player in k.players {
      forall r ensures multiset(Without(k.kicks, k.players[player]))[r] ==
                       if r.0 == k.players[player] then 0 else multiset(k.kicks)[r] {
        WithoutIs(k.kicks, k.players[player], r);
      }
    }
  }

  /** Ending a session by its number strikes its kicks even when no file is open. */
  lemma EndedByIdIs<T(!new)>(k: Desk<T>, session: nat)
    ensures var after := EndSessionById(k, session);
      && after == k.(players := after.players, sessions := after.sessions, kicks := after.kicks)
      && after.sessions.Keys == k.sessions.Keys - {session}
      && after.players.Keys == (if session in k.sessions then k.players.Keys - {k.sessions[session].player}
                                else k.players.Keys)
      && (forall s :: s in after.sessions ==> after.sessions[s] == k.sessions[s])
      && (forall q :: q in after.players ==> after.players[q] == k.players[q])
      && (forall r :: multiset(after.kicks)[r] == if r.0 == session then 0 else multiset(k.kicks)[r])
  {
    hide Without;
    forall r ensures multiset(Without(k.kicks, session))[r] == if r.0 == session then 0 else multiset(k.kicks)[r] {
      WithoutIs(k.kicks, session, r);
    }
  }

  /** A manifest is marked on its file when accepted; otherwise it is a finding of 200 points, and a kick. */
  lemma ManifestIs<T(!new)>(p: Policy, k: Desk<T>, session: nat, accepted: bool)
    ensures var (after, r) := VerifyManifest(p, k, session, accepted);
      if !k.initialized then after == k && r == Err(NotInitialized)
      else if session !in k.sessions then after == k && r == Err(SessionNotRegistered)
      else
        var x := k.sessions[session];
        var t := Charged(p, x.trust, x.startTick, 200);
        if accepted then
          r == Ok(()) && after == k.(sessions := k.sessions[session := x.(manifestVerified := true)])
        else
          && r == Err(ManifestRejected) && Elsewhere(k, after, session)
          && after.sessions[session] == x.(trust := t, status := after.sessions[session].status)
          && after.record == k.record
               + [SecurityEvent(session, x.player, x.startTick, Critical, Found(ManifestMismatch))]
               + Change(session, x.player, x.startTick, x.trust.level, t.level)
          && after.kicks == k.kicks
               + (if x.trust.level != Banned && t.level == Banned then [(session, ByTrustLevel)] else [])
               + [(session, ByManifest)]
  {
    hide ApplyFinding, Charged, Change;
    if k.initialized && session in k.sessions && !accepted {
      FindingLaw(p, k, session, k.sessions[session].player, k.sessions[session].startTick, Found(ManifestMismatch));
    }
  }

  /** An administrator's level is set outright, with score and counts kept, and the change is recorded. */
  lemma OverriddenIs<T(!new)>(k: Desk<T>, session: nat, level: Level)
    ensures var after := Override(k, session, level);
      if session !in k.sessions then after == k
      else
        var x := k.sessions[session];
        && Elsewhere(k, after, session)
        && after.sessions[session] == x.(trust := x.trust.(level := level), status := after.sessions[session].status)
        && after.record == k.record + Change(session, x.player, x.startTick, x.trust.level, level)
        && after.kicks == k.kicks +
             if x.trust.level != Banned && level == Banned then [(session, ByTrustLevel)] else []
  {
    hide Move, Change, Elsewhere;
    if session in k.sessions {
      var x := k.sessions[session];
      MoveLaw(k, session, x.player, x.startTick, x.trust.(level := level));
    }
  }
}
