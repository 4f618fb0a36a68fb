/** The trust machine against a plain account: a score, a streak of clean commands, and a ladder of levels. */
module TrustLaws {
  import opened Words
  import opened Wrappers
  import opened Trust

  /** What a violation costs. */
  function Points(s: Severity): nat {
    if s == Info then 0 else if s == Low then 5 else if s == Medium then 15 else if s == High then 40 else 200
  }

  /** What 32 bits hold of a count. */
  function Kept(n: nat): nat {
    if n < 0x1_0000_0000 then n else 0xFFFF_FFFF
  }

  /** The score: up by the points of each violation, down by the decay of each clean command, never below 0. */
  ghost function Score(p: Policy, os: seq<Observation>): nat {
    if os == [] then 0
    else
      var before := Score(p, os[..|os| - 1]);
      match os[|os| - 1]
      case Clean => if before >= p.decay then before - p.decay else 0
      case Violation(severity, _) => Kept(before + Points(severity))
  }

  /** The clean commands since the last violation. */
  ghost function Streak(os: seq<Observation>): nat {
    if os == [] || os[|os| - 1].Violation? then 0 else Kept(Streak(os[..|os| - 1]) + 1)
  }

  ghost function Offences(os: seq<Observation>): nat {
    if os == [] then 0
    else if os[|os| - 1].Violation? then Kept(Offences(os[..|os| - 1]) + 1) else Offences(os[..|os| - 1])
  }

  ghost function LastOffence(os: seq<Observation>): Option<nat> {
    if os == [] then None
    else if os[|os| - 1].Violation? then Some(os[|os| - 1].tick) else LastOffence(os[..|os| - 1])
  }

  /** Observation `n` is one to ban for: a critical violation where that is the rule, or one that fills the score. */
  ghost predicate Condemns(p: Policy, os: seq<Observation>, n: int) {
    && 0 <= n < |os| && os[n].Violation?
    && ((p.banOnCritical && os[n].severity == Critical) || Score(p, os[..n + 1]) >= p.banThreshold)
  }

  /** The level of somebody who has not been banned. */
  ghost function Rung(p: Policy, os: seq<Observation>): Level {
    if os == [] then Untrusted
    else
      var before, score, streak := Rung(p, os[..|os| - 1]), Score(p, os), Streak(os);
      if os[|os| - 1].Violation? then
        if score >= p.flagThreshold then Flagged
        else if before == Trusted then Probationary
        else before
      else if before == Flagged then
        if score < p.flagThreshold then Probationary else Flagged
      else if before == Untrusted && streak >= p.probationAfter then Probationary
      else if before == Probationary && streak >= p.trustedAfter then Trusted
      else before
  }

  ghost predicate Condemned(p: Policy, os: seq<Observation>) {
    exists n :: Condemns(p, os, n)
  }

  lemma CondemnedSnoc(p: Policy, os: seq<Observation>, o: Observation)
    ensures Condemned(p, os + [o]) <==> Condemned(p, os) || Condemns(p, os + [o], |os|)
  {
    forall n ensures Condemns(p, os + [o], n) <==> Condemns(p, os, n) || (n == |os| && Condemns(p, os + [o], |os|)) {
      if 0 <= n < |os| {
        assert (os + [o])[..n + 1] == os[..n + 1];
      }
    }
  }

  lemma RungIsNoBan(p: Policy, os: seq<Observation>)
    ensures Rung(p, os) != Banned
  {
  }

  /**
   After every run somebody is banned exactly when some observation was one to ban for. Whoever is
   not has the level, the score and the counts of the plain account.
   */
  lemma {:induction false} StandingIff(p: Policy, os: seq<Observation>)
    ensures var s := History(p, os);
      && (s.level == Banned <==> Condemned(p, os))
      && (s.level != Banned ==> s.level == Rung(p, os) && Agrees(p, s, os))
  {
    hide Condemned, Condemns, History, Agrees, Rung;
    if os == [] {
      NothingObserved(p);
    } else {
      var before, last := os[..|os| - 1], os[|os| - 1];
      StandingIff(p, before);
      RungIsNoBan(p, before);
      RungIsNoBan(p, os);
      assert os == before + [last];
      CondemnedSnoc(p, before, last);
      if last.Violation? {
        ViolationAgrees(p, os);
      } else {
        CleanAgrees(p, os);
      }
    }
  }

  /** The account of the observations is the standing's. */
  ghost predicate Agrees(p: Policy, s: Standing, os: seq<Observation>) {
    && s.suspicion == Score(p, os) && s.clean == Streak(os)
    && s.violations == Offences(os) && s.lastViolation == LastOffence(os)
  }

  lemma ViolationAgrees(p: Policy, os: seq<Observation>)
    requires os != [] && os[|os| - 1].Violation?
    ensures var before, s, t := os[..|os| - 1], History(p, os[..|os| - 1]), History(p, os);
      if s.level == Banned then t.level == Banned
      else Agrees(p, s, before) && s.level == Rung(p, before) ==>
        && Agrees(p, t, os)
        && (t.level == Banned <==> Condemns(p, os, |os| - 1))
        && (t.level != Banned ==> t.level == Rung(p, os))
  {
    assert os[..|os|] == os;
    PointsAre(os[|os| - 1].severity);
  }

  lemma PointsAre(s: Severity)
    ensures Points(s) == Weight(s)
  {
  }

  lemma CleanAgrees(p: Policy, os: seq<Observation>)
    requires os != [] && os[|os| - 1].Clean?
    ensures var before, s, t := os[..|os| - 1], History(p, os[..|os| - 1]), History(p, os);
      && !Condemns(p, os, |os| - 1)
      && (t.level == Banned <==> s.level == Banned)
      && (s.level != Banned && Agrees(p, s, before) && s.level == Rung(p, before) ==>
            Agrees(p, t, os) && t.level == Rung(p, os))
  {
    hide Score;
    CleanScore(p, os);
  }

  lemma CleanScore(p: Policy, os: seq<Observation>)
    requires os != [] && os[|os| - 1].Clean?
    ensures Score(p, os) == if Score(p, os[..|os| - 1]) >= p.decay then Score(p, os[..|os| - 1]) - p.decay else 0
  {
  }

  lemma NothingObserved(p: Policy)
    ensures !Condemned(p, []) && History(p, []).level == Untrusted == Rung(p, []) && Agrees(p, History(p, []), [])
  {
  }

  // ---------------------------------------------------------------- the default policy

  /** By default a critical violation bans, and so does one that brings the score to 200; decay is 1. */
  lemma BannedByDefault(os: seq<Observation>)
    ensures History(DEFAULT_POLICY, os).level == Banned <==>
            Condemned(Policy(8, 64, 40, 200, 1, true), os)
    ensures History(DEFAULT_POLICY, os).level != Banned ==>
              (History(DEFAULT_POLICY, os).level == Flagged <==> Score(DEFAULT_POLICY, os) >= 40)
  {
    hide Condemned, Rung, Score;
    StandingIff(DEFAULT_POLICY, os);
    LevelFollowsScore(DEFAULT_POLICY, os);
  }

  function Cleans(n: nat): seq<Observation> {
    seq(n, _ => Clean)
  }

  /** By default eight clean commands end probation's wait, and sixty-four earn trust. */
  lemma {:induction false} CleanRun(n: nat)
    ensures var s := History(DEFAULT_POLICY, Cleans(n));
      && s.level == (if n < 8 then Untrusted else if n < 64 then Probationary else Trusted)
      && s.suspicion == 0 && s.clean == Kept(n) && s.violations == 0 && s.lastViolation == None
  {
    if n == 0 {
    } else {
      CleanRun(n - 1);
      assert Cleans(n)[..n - 1] == Cleans(n - 1);
    }
  }
}
