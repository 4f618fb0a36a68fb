/** The heuristic anti-cheat provider: findings, verdicts, pending kicks and the security record. */
module AntiCheat {
  import opened Wrappers
  import opened Trust

  const U64_MAX: nat := 0xFFFF_FFFF_FFFF_FFFF

  // ---------------------------------------------------------------- events

  datatype Anomaly =
    | ImpossibleMovement | TeleportAttempt | NonFinitePosition | PositionOutOfBounds
    | FireRateViolation | AmmoInconsistency | InvalidPlacement | ImpossibleEconomyDelta
    | UnauthorizedOrder | UnauthorizedStructureOrder | HiddenTargetAttempt | FutureDatedCommand
    | CommandFloodDetected | ManifestMismatch | AdminPermissionDenied | SessionBindingMismatch

  datatype EventKind = Found(anomaly: Anomaly) | TrustLevelChanged(source: Level, target: Level)

  function SeverityOf(k: EventKind): Severity {
    match k
    case TrustLevelChanged(_, _) => Info
    case Found(a) =>
      match a
      case FutureDatedCommand | ImpossibleMovement => Low
      case TeleportAttempt | FireRateViolation | CommandFloodDetected | InvalidPlacement => Medium
      case AmmoInconsistency | ImpossibleEconomyDelta | UnauthorizedOrder | UnauthorizedStructureOrder => High
      case HiddenTargetAttempt | AdminPermissionDenied => High
      case NonFinitePosition | PositionOutOfBounds | ManifestMismatch | SessionBindingMismatch => Critical
  }

  datatype Reason =
    | ByMovement | ByFireRate | ByAmmo | ByPlacement | ByEconomy | ByOrder | ByHiddenTarget
    | ByEnvelope | ByFlood | ByManifest | ByAdminPermission | ByBinding | ByTrustLevel

  function ReasonFor(a: Anomaly): Reason {
    match a
    case ImpossibleMovement | TeleportAttempt | NonFinitePosition | PositionOutOfBounds => ByMovement
    case FireRateViolation => ByFireRate
    case AmmoInconsistency => ByAmmo
    case InvalidPlacement => ByPlacement
    case ImpossibleEconomyDelta => ByEconomy
    case UnauthorizedOrder | UnauthorizedStructureOrder => ByOrder
    case HiddenTargetAttempt => ByHiddenTarget
    case FutureDatedCommand => ByEnvelope
    case CommandFloodDetected => ByFlood
    case ManifestMismatch => ByManifest
    case AdminPermissionDenied => ByAdminPermission
    case SessionBindingMismatch => ByBinding
  }

  datatype SecurityEvent = SecurityEvent(session: nat, player: nat, tick: nat, severity: Severity, kind: EventKind)

  /** A bounded, append-only sink: the oldest record makes room for the newest. */
  class SecurityLog {
    const capacity: nat
    var entries: seq<SecurityEvent>
    var appended: nat
    var dropped: nat
    ghost var everything: seq<SecurityEvent>

    /** What is retained is the newest part of all that was appended, and the counters say how much. */
    ghost predicate Valid()
      reads this
    {
      && capacity >= 1
      && |entries| == Min(capacity, |everything|)
      && entries == everything[|everything| - |entries|..]
      && appended == |everything| && dropped == appended - |entries|
    }

    constructor (capacity: nat)
      ensures Valid() && everything == [] && this.capacity == if capacity >= 1 then capacity else 1
    {
      this.capacity := if capacity >= 1 then capacity else 1;
      entries, appended, dropped, everything := [], 0, 0, [];
    }

    method Append(e: SecurityEvent)
      requires Valid()
      modifies this
      ensures Valid() && everything == old(everything) + [e]
      ensures entries == everything[if |everything| > capacity then |everything| - capacity else 0..]
      ensures entries == old(if |entries| < capacity then entries else entries[1..]) + [e]
      ensures appended == old(appended) + 1
      ensures dropped == old(dropped) + if old(|entries|) < capacity then 0 else 1
    {
      if |entries| >= capacity {
        entries := entries[1..];
        dropped := dropped + 1;
      }
      entries := entries + [e];
      appended := appended + 1;
      everything := everything + [e];
    }
  }

  // ---------------------------------------------------------------- the provider's state

  datatype Status = Unknown | InGoodStanding | UnderReview | BannedStatus

  function FromTrust(l: Level): Status {
    match l
    case Untrusted | Probationary | Trusted => InGoodStanding
    case Flagged => UnderReview
    case Banned => BannedStatus
  }

  datatype Verdict = Allow | Observe(reason: Reason) | Reject(reason: Reason) | Kick(reason: Reason) {
    predicate AllowsCommand() {
      Allow? || Observe?
    }
  }

  /** `T` is what the detectors remember of a session. */
  datatype Dossier<T> = Dossier(
    trust: Standing,
    player: nat,
    faction: nat,
    startTick: nat,
    telemetry: T,
    status: Status,
    manifestVerified: bool,
    inspected: nat,
    blocked: nat
  )

  /** The detectors: `C` is a command in its context. */
  datatype Detectors<!T, !C> = Detectors(blank: nat -> T, inspect: (T, C) -> (T, seq<Anomaly>))

  /** `since` marks where in the record a session's registration falls. */
  datatype Desk<T> = Desk(
    initialized: bool,
    sessions: map<nat, Dossier<T>>,
    players: map<nat, nat>,
    kicks: seq<(nat, Reason)>,
    record: seq<SecurityEvent>,
    since: map<nat, nat>
  )

  function NewDossier<T, C>(d: Detectors<T, C>, player: nat, faction: nat, tick: nat): Dossier<T> {
    Dossier(NewStanding(), player, faction, tick, d.blank(tick), InGoodStanding, false, 0, 0)
  }

  function Bump(n: nat): nat {
    Min(n + 1, U64_MAX)
  }

  function Written(session: nat, player: nat, tick: nat, kind: EventKind): SecurityEvent {
    SecurityEvent(session, player, tick, SeverityOf(kind), kind)
  }

  /** The record of a change of level, if there was one. */
  function Note(session: nat, player: nat, tick: nat, before: Level, after: Level): seq<SecurityEvent> {
    if before == after then [] else [Written(session, player, tick, TrustLevelChanged(before, after))]
  }

  function WithTrust<T>(d: Dossier<T>, t: Standing): Dossier<T> {
    if t.level == d.trust.level then d.(trust := t) else d.(trust := t, status := FromTrust(t.level))
  }

  /** A session's trust moves to `t`; the change is written down and a ban queues a kick. */
  function Move<T>(k: Desk<T>, session: nat, player: nat, tick: nat, t: Standing): Desk<T>
    requires session in k.sessions
  {
    var before := k.sessions[session].trust.level;
    k.(sessions := k.sessions[session := WithTrust(k.sessions[session], t)],
       record := k.record + Note(session, player, tick, before, t.level),
       kicks := if before != t.level && t.level == Banned then k.kicks + [(session, ByTrustLevel)] else k.kicks)
  }

  function ApplyFinding<T>(p: Policy, k: Desk<T>, session: nat, player: nat, tick: nat, kind: EventKind): Desk<T> {
    var written := k.(record := k.record + [Written(session, player, tick, kind)]);
    if session !in k.sessions then written
    else Move(written, session, player, tick, AfterViolation(p, k.sessions[session].trust, SeverityOf(kind), tick))
  }

  function ApplyFindings<T>(p: Policy, k: Desk<T>, session: nat, player: nat, tick: nat, fs: seq<Anomaly>): Desk<T> {
    if fs == [] then k
    else ApplyFinding(p, ApplyFindings(p, k, session, player, tick, fs[..|fs| - 1]), session, player, tick,
                      Found(fs[|fs| - 1]))
  }

  /** The gravest finding so far, the earliest of equals, and its reason. */
  function Worst(fs: seq<Anomaly>): (Severity, Reason) {
    if fs == [] then (Info, ByEnvelope)
    else
      var before, last := Worst(fs[..|fs| - 1]), fs[|fs| - 1];
      if Rank(SeverityOf(Found(last))) > Rank(before.0) then (SeverityOf(Found(last)), ReasonFor(last)) else before
  }

  function VerdictOn(banned: bool, fs: seq<Anomaly>): Verdict {
    var (worst, reason) := Worst(fs);
    if banned then Kick(reason) else if Rank(worst) >= Rank(High) then Reject(reason) else Observe(reason)
  }

  function IsBanned<T>(k: Desk<T>, session: nat): bool {
    session in k.sessions && k.sessions[session].trust.level == Banned
  }

  function CountBlocked<T>(k: Desk<T>, session: nat): Desk<T>
    requires session in k.sessions
  {
    k.(sessions := k.sessions[session := k.sessions[session].(blocked := Bump(k.sessions[session].blocked))])
  }

  /** Counting an inspection touches neither trust nor status. */
  function Inspected<T>(k: Desk<T>, session: nat): Desk<T>
    requires session in k.sessions
  {
    k.(sessions := k.sessions[session := k.sessions[session].(inspected := Bump(k.sessions[session].inspected))])
  }

  function Remembered<T>(k: Desk<T>, session: nat, telemetry: T): Desk<T>
    requires session in k.sessions
  {
    k.(sessions := k.sessions[session := k.sessions[session].(telemetry := telemetry)])
  }

  lemma {:induction false} FindingsKeepSessions<T>(p: Policy, k: Desk<T>, session: nat, player: nat, tick: nat,
                                                   fs: seq<Anomaly>)
    ensures ApplyFindings(p, k, session, player, tick, fs).sessions.Keys == k.sessions.Keys
  {
    if fs == [] {
    } else {
      FindingsKeepSessions(p, k, session, player, tick, fs[..|fs| - 1]);
    }
  }

  function InspectCommand<T, C>(p: Policy, d: Detectors<T, C>, k: Desk<T>, session: nat, player: nat, tick: nat,
                                c: C): (Desk<T>, Verdict)
  {
    if session !in k.sessions then (k, Allow)
    else
      var seen := Inspected(k, session);
      if IsBanned(seen, session) then (CountBlocked(seen, session), Kick(ByTrustLevel))
      else
        var (telemetry, fs) := d.inspect(seen.sessions[session].telemetry, c);
        var looked := Remembered(seen, session, telemetry);
        if fs == [] then
          (Move(looked, session, player, tick, AfterClean(p, looked.sessions[session].trust)), Allow)
        else
          var judged := ApplyFindings(p, looked, session, player, tick, fs);
          FindingsKeepSessions(p, looked, session, player, tick, fs);
          var verdict := VerdictOn(IsBanned(judged, session), fs);
          (if verdict.AllowsCommand() then judged else CountBlocked(judged, session), verdict)
  }

  datatype Refusal = NotInitialized | SessionBanned | SessionAlreadyRegistered | SessionNotRegistered | ManifestRejected

  function BeginSession<T, C>(d: Detectors<T, C>, k: Desk<T>, player: nat, session: nat): (Desk<T>, Result<(),
      Refusal>) {
    if !k.initialized then (k, Err(NotInitialized))
    else if session in k.sessions then (k, Err(SessionAlreadyRegistered))
    else
      (k.(sessions := k.sessions[session := NewDossier(d, player, 0, 0)], players := k.players[player := session],
          since := k.since[session := |k.record|]), Ok(()))
  }

  function Authenticate<T, C>(d: Detectors<T, C>, k: Desk<T>, session: nat, player: nat, faction: nat, tick: nat)
    : Desk<T>
  {
    var entry := if session in k.sessions then k.sessions[session] else NewDossier(d, player, faction, tick);
    k.(sessions := k.sessions[session := entry.(player := player, faction := faction, startTick := tick,
                                               telemetry := d.blank(tick))],
       players := k.players[player := session],
       since := if session in k.sessions then k.since else k.since[session := |k.record|])
  }

  function Without(kicks: seq<(nat, Reason)>, session: nat): seq<(nat, Reason)> {
    if kicks == [] then []
    else if kicks[|kicks| - 1].0 == session then Without(kicks[..|kicks| - 1], session)
    else Without(kicks[..|kicks| - 1], session) + [kicks[|kicks| - 1]]
  }

  function EndSession<T>(k: Desk<T>, player: nat): Desk<T> {
    if player !in k.players then k
    else
      var session := k.players[player];
      k.(players := k.players - {player}, sessions := k.sessions - {session}, kicks := Without(k.kicks, session))
  }

  function EndSessionById<T>(k: Desk<T>, session: nat): Desk<T> {
    k.(players := if session in k.sessions then k.players - {k.sessions[session].player} else k.players,
       sessions := k.sessions - {session},
       kicks := Without(k.kicks, session))
  }

  function VerifyManifest<T>(p: Policy, k: Desk<T>, session: nat, accepted: bool): (Desk<T>, Result<(), Refusal>) {
    if !k.initialized then (k, Err(NotInitialized))
    else if session !in k.sessions then (k, Err(SessionNotRegistered))
    else if accepted then
      (k.(sessions := k.sessions[session := k.sessions[session].(manifestVerified := true)]), Ok(()))
    else
      var d := k.sessions[session];
      var found := ApplyFinding(p, k, session, d.player, d.startTick, Found(ManifestMismatch));
      (found.(kicks := found.kicks + [(session, ByManifest)]), Err(ManifestRejected))
  }

  function Override<T>(k: Desk<T>, session: nat, level: Level): Desk<T> {
    if session !in k.sessions then k
    else
      var d := k.sessions[session];
      Move(k, session, d.player, d.startTick, d.trust.(level := level))
  }
}
