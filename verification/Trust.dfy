/** The trust machine of one session: promotion by clean commands, suspicion by violations. */
module Trust {
  import opened Words
  import opened Wrappers

  const U32_MAX: u32 := 0xFFFF_FFFF

  datatype Level = Untrusted | Probationary | Trusted | Flagged | Banned

  datatype Severity = Info | Low | Medium | High | Critical

  function Weight(s: Severity): u32 {
    match s case Info => 0 case Low => 5 case Medium => 15 case High => 40 case Critical => 200
  }

  function Rank(s: Severity): nat {
    match s case Info => 0 case Low => 1 case Medium => 2 case High => 3 case Critical => 4
  }

  datatype Policy = Policy(
    probationAfter: u32,
    trustedAfter: u32,
    flagThreshold: u32,
    banThreshold: u32,
    decay: u32,
    banOnCritical: bool
  )

  const DEFAULT_POLICY: Policy := Policy(8, 64, 40, 200, 1, true)

  /** Telemetry only: the ban threshold is the largest word, and no single event bans. */
  const TELEMETRY_ONLY: Policy := Policy(8, 64, 40, 0xFFFF_FFFF, 1, false)

  function SaturatingAdd(a: u32, b: u32): u32 {
    Min(a + b, U32_MAX)
  }

  function SaturatingSub(a: u32, b: u32): u32 {
    if a >= b then a - b else 0
  }

  datatype Transition = Transition(source: Level, target: Level)

  datatype Standing = Standing(
    level: Level,
    suspicion: u32,
    clean: u32,
    violations: u32,
    lastViolation: Option<nat>
  )

  function NewStanding(): Standing {
    Standing(Untrusted, 0, 0, 0, None)
  }

  function Promoted(p: Policy, s: Standing): Level {
    match s.level
    case Flagged => if s.suspicion < p.flagThreshold then Probationary else Flagged
    case Untrusted => if s.clean >= p.probationAfter then Probationary else Untrusted
    case Probationary => if s.clean >= p.trustedAfter then Trusted else Probationary
    case Trusted => Trusted
    case Banned => Banned
  }

  function AfterClean(p: Policy, s: Standing): Standing {
    if s.level == Banned then s
    else
      var t := s.(clean := SaturatingAdd(s.clean, 1), suspicion := SaturatingSub(s.suspicion, p.decay));
      t.(level := Promoted(p, t))
  }

  function Demoted(p: Policy, s: Standing, severity: Severity): Level {
    if (p.banOnCritical && severity == Critical) || s.suspicion >= p.banThreshold then Banned
    else if s.suspicion >= p.flagThreshold then Flagged
    else if s.level == Trusted then Probationary
    else s.level
  }

  function AfterViolation(p: Policy, s: Standing, severity: Severity, tick: nat): Standing {
    if s.level == Banned then s
    else
      var t := s.(violations := SaturatingAdd(s.violations, 1), clean := 0, lastViolation := Some(tick),
                  suspicion := SaturatingAdd(s.suspicion, Weight(severity)));
      t.(level := Demoted(p, t, severity))
  }

  class ClientTrustState {
    var level: Level
    var suspicionScore: u32
    var cleanCommands: u32
    var violations: u32
    var lastViolationTick: Option<nat>

    ghost function View(): Standing
      reads this
    {
      Standing(level, suspicionScore, cleanCommands, violations, lastViolationTick)
    }

    constructor ()
      ensures View() == NewStanding()
    {
      level, suspicionScore, cleanCommands, violations, lastViolationTick := Untrusted, 0, 0, 0, None;
    }

    method Move(target: Level) returns (t: Option<Transition>)
      modifies this`level
      ensures level == target && t == if target == old(level) then None else Some(Transition(old(level), target))
    {
      if level == target {
        return None;
      }
      t := Some(Transition(level, target));
      level := target;
    }

    method RecordCleanCommand(p: Policy) returns (t: Option<Transition>)
      modifies this
      ensures View() == AfterClean(p, old(View()))
      ensures t == if level == old(level) then None else Some(Transition(old(level), level))
    {
      if level == Banned {
        return None;
      }
      cleanCommands := SaturatingAdd(cleanCommands, 1);
      suspicionScore := SaturatingSub(suspicionScore, p.decay);
      var target := level;
      if level == Flagged && suspicionScore < p.flagThreshold {
        target := Probationary;
      } else if level == Untrusted && cleanCommands >= p.probationAfter {
        target := Probationary;
      } else if level == Probationary && cleanCommands >= p.trustedAfter {
        target := Trusted;
      }
      t := Move(target);
    }

    method RecordViolation(p: Policy, severity: Severity, tick: nat) returns (t: Option<Transition>)
      modifies this
      ensures View() == AfterViolation(p, old(View()), severity, tick)
      ensures t == if level == old(level) then None else Some(Transition(old(level), level))
    {
      if level == Banned {
        return None;
      }
      violations := SaturatingAdd(violations, 1);
      cleanCommands := 0;
      lastViolationTick := Some(tick);
      suspicionScore := SaturatingAdd(suspicionScore, Weight(severity));
      var target := level;
      if (p.banOnCritical && severity == Critical) || suspicionScore >= p.banThreshold {
        target := Banned;
      } else if suspicionScore >= p.flagThreshold {
        target := Flagged;
      } else if level == Trusted {
        target := Probationary;
      }
      t := Move(target);
    }

    method ForceLevel(target: Level) returns (t: Option<Transition>)
      modifies this`level
      ensures level == target && t == if target == old(level) then None else Some(Transition(old(level), target))
    {
      t := Move(target);
    }
  }

  // ---------------------------------------------------------------- runs

  datatype Observation = Clean | Violation(severity: Severity, tick: nat)

  function Observe(p: Policy, s: Standing, o: Observation): Standing {
    match o
    case Clean => AfterClean(p, s)
    case Violation(severity, tick) => AfterViolation(p, s, severity, tick)
  }

  function History(p: Policy, os: seq<Observation>): Standing {
    if os == [] then NewStanding() else Observe(p, History(p, os[..|os| - 1]), os[|os| - 1])
  }

  /** An unbanned score stays below the ban threshold, and being flagged is having reached the flag threshold. */
  ghost predicate LevelFitsScore(p: Policy, s: Standing) {
    s.level != Banned ==> s.suspicion < p.banThreshold && (s.level == Flagged <==> s.suspicion >= p.flagThreshold)
  }

  /** This holds over every run exactly for policies with positive thresholds. */
  lemma LevelFitsScoreIff(p: Policy)
    ensures (forall os :: LevelFitsScore(p, History(p, os))) <==> p.flagThreshold > 0 && p.banThreshold > 0
  {
    if p.flagThreshold > 0 && p.banThreshold > 0 {
      forall os ensures LevelFitsScore(p, History(p, os)) {
        LevelFollowsScore(p, os);
      }
    } else {
      assert !LevelFitsScore(p, History(p, []));
    }
  }

  lemma {:induction false} LevelFollowsScore(p: Policy, os: seq<Observation>)
    requires p.flagThreshold > 0 && p.banThreshold > 0
    ensures LevelFitsScore(p, History(p, os))
  {
    if os == [] {
    } else {
      LevelFollowsScore(p, os[..|os| - 1]);
    }
  }

  /** Nothing observed leads out of a ban. */
  lemma {:induction false} BannedIsFinal(p: Policy, os: seq<Observation>, more: seq<Observation>)
    requires History(p, os).level == Banned
    ensures History(p, os + more) == History(p, os)
    decreases |more|
  {
    if more == [] {
      assert os + more == os;
    } else {
      assert (os + more)[..|os + more| - 1] == os + more[..|more| - 1];
      BannedIsFinal(p, os, more[..|more| - 1]);
    }
  }

  // ---------------------------------------------------------------- telemetry only

  ghost function Violations(os: seq<Observation>): nat {
    if os == [] then 0 else Violations(os[..|os| - 1]) + if os[|os| - 1].Violation? then 1 else 0
  }

  const TELEMETRY_LIMIT: nat := 21_474_837

  lemma {:induction false} ScoreIsBounded(p: Policy, os: seq<Observation>)
    ensures History(p, os).suspicion <= 200 * Violations(os)
  {
    if os == [] {
    } else {
      ScoreIsBounded(p, os[..|os| - 1]);
    }
  }

  /** With the telemetry policy no run of fewer than 21 474 837 violations bans. */
  lemma {:induction false} TelemetryNeverBans(os: seq<Observation>)
    requires Violations(os) < 21_474_837
    ensures TELEMETRY_ONLY == Policy(8, 64, 40, 0xFFFF_FFFF, 1, false)
    ensures History(TELEMETRY_ONLY, os).level != Banned
  {
    if os == [] {
    } else {
      TelemetryNeverBans(os[..|os| - 1]);
      ScoreIsBounded(TELEMETRY_ONLY, os);
    }
  }

  function Criticals(n: nat): seq<Observation> {
    seq(n, _ => Violation(Critical, 0))
  }

  lemma {:induction false} CriticalsLaw(n: nat)
    requires n <= TELEMETRY_LIMIT
    ensures Violations(Criticals(n)) == n
    ensures n < TELEMETRY_LIMIT ==>
              History(TELEMETRY_ONLY, Criticals(n)).suspicion == 200 * n &&
              History(TELEMETRY_ONLY, Criticals(n)).level != Banned
    ensures n == TELEMETRY_LIMIT ==> History(TELEMETRY_ONLY, Criticals(n)).level == Banned
  {
    if n == 0 {
    } else {
      assert Criticals(n)[..n - 1] == Criticals(n - 1);
      CriticalsLaw(n - 1);
    }
  }

  /** The bound is tight: saturation turns that many critical violations into a ban. */
  lemma TelemetryLimitIsReached()
    ensures Violations(Criticals(21_474_837)) == 21_474_837
    ensures History(TELEMETRY_ONLY, Criticals(21_474_837)).level == Banned
  {
    CriticalsLaw(TELEMETRY_LIMIT);
  }
}
