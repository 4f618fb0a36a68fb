/** The sightings on record are the faction's view, and ghosts outlive what is out of sight only. */
module KnowledgeLaws {
  import opened Wrappers
  import opened OrderedKeys
  import opened FogGrids
  import opened Knowledge

  /** The view that a faction's recorded sightings amount to. */
  ghost function Tracked(start: set<nat>, f: nat, journal: seq<Sighting>): set<nat> {
    if journal == [] then start
    else
      var before, last := Tracked(start, f, journal[..|journal| - 1]), journal[|journal| - 1];
      if last.observer != f then before
      else if last.EntitySpotted? then before + {last.target}
      else before - {last.target}
  }

  lemma {:induction false} TrackedConcat(start: set<nat>, f: nat, a: seq<Sighting>, b: seq<Sighting>)
    ensures Tracked(start, f, a + b) == Tracked(Tracked(start, f, a), f, b)
    decreases |b|
  {
    if b == [] {
      assert a + b == a;
    } else {
      assert (a + b)[..|a + b| - 1] == a + b[..|b| - 1];
      TrackedConcat(start, f, a, b[..|b| - 1]);
    }
  }

  lemma {:induction false} TrackedForeign(start: set<nat>, f: nat, journal: seq<Sighting>)
    requires forall e :: e in journal ==> e.observer != f
    ensures Tracked(start, f, journal) == start
  {
    if journal == [] {
    } else {
      TrackedForeign(start, f, journal[..|journal| - 1]);
    }
  }

  lemma EntitiesSnoc(cs: seq<Contact>)
    requires cs != []
    ensures Entities(cs) == Entities(cs[..|cs| - 1]) + {cs[|cs| - 1].entity}
  {
    assert cs == cs[..|cs| - 1] + [cs[|cs| - 1]];
  }

  lemma {:induction false} TrackedSpotted(f: nat, tick: nat, previous: set<nat>, cs: seq<Contact>)
    ensures Tracked(previous, f, Spotted(f, tick, previous, cs)) == previous + Entities(cs)
    ensures forall e :: e in Spotted(f, tick, previous, cs) ==> e.observer == f
  {
    if cs == [] {
    } else {
      var before, c := cs[..|cs| - 1], cs[|cs| - 1];
      TrackedSpotted(f, tick, previous, before);
      EntitiesSnoc(cs);
      var s := Spotted(f, tick, previous, before);
      if c.entity !in previous {
        assert (s + [EntitySpotted(tick, f, c.entity, c.position)])[..|s|] == s;
      }
    }
  }

  lemma {:induction false} TrackedLost(start: set<nat>, f: nat, tick: nat, previous: seq<nat>, visible: set<nat>)
    ensures Tracked(start, f, LostFrom(f, tick, previous, visible)) == start - ((set e | e in previous) - visible)
    ensures forall e :: e in LostFrom(f, tick, previous, visible) ==> e.observer == f
  {
    if previous == [] {
    } else {
      var before, e := previous[..|previous| - 1], previous[|previous| - 1];
      TrackedLost(start, f, tick, before, visible);
      assert (set x | x in previous) == (set x | x in before) + {e} by {
        assert previous == before + [e];
      }
      DropOne(start, (set x | x in before), e, visible);
      var s := LostFrom(f, tick, before, visible);
      if e !in visible {
        assert (s + [EntityLost(tick, f, e)])[..|s|] == s;
      }
    }
  }

  lemma DropOne(start: set<nat>, gone: set<nat>, e: nat, visible: set<nat>)
    ensures start - (gone + {e} - visible) ==
            if e in visible then start - (gone - visible) else start - (gone - visible) - {e}
  {
  }

  lemma RecordTracks(f: nat, tick: nat, previous: set<nat>, contacts: seq<Contact>)
    ensures var record := Spotted(f, tick, previous, contacts) +
                          LostFrom(f, tick, Ascending(previous), Entities(contacts));
      && Tracked(previous, f, record) == Entities(contacts)
      && forall e :: e in record ==> e.observer == f
  {
    hide Entities, Spotted, LostFrom, Tracked;
    var seen, order := Entities(contacts), Ascending(previous);
    TrackedSpotted(f, tick, previous, contacts);
    TrackedLost(previous + seen, f, tick, order, seen);
    TrackedConcat(previous, f, Spotted(f, tick, previous, contacts), LostFrom(f, tick, order, seen));
    assert (set e | e in order) == previous;
    assert previous + seen - (previous - seen) == seen;
  }

  /** One step's record turns the old view into the new one. */
  lemma StepTracks(k: Knowledge, f: nat, tick: nat, mult: real, w: Census)
    ensures Tracked(k.visible, f, Recorded(k, f, tick, mult, w)) == After(k, f, tick, mult, w).visible
    ensures forall e :: e in Recorded(k, f, tick, mult, w) ==> e.observer == f
  {
    hide ViewOf, Contacts, Entities, Refreshed, Surviving, Ascending, Tracked, Spotted, LostFrom;
    RecordTracks(f, tick, k.visible, Contacts(f, ViewOf(k, f, mult, w), w));
  }

  /** The journal accounts for the view of every faction. */
  ghost predicate Accounted(l: Ledger) {
    forall f :: Tracked({}, f, l.journal) == Of(l.factions, f).visible
  }

  lemma StepOneAccounted(l: Ledger, t: Moment, f: nat)
    requires Accounted(l)
    ensures var k := Of(l.factions, f);
      Accounted(Ledger(l.factions[f := After(k, f, t.tick, t.mult(f), t.census)],
                       l.journal + Recorded(k, f, t.tick, t.mult(f), t.census)))
  {
    hide After, Recorded, Tracked;
    var k := Of(l.factions, f);
    var record := Recorded(k, f, t.tick, t.mult(f), t.census);
    StepTracks(k, f, t.tick, t.mult(f), t.census);
    var m := l.factions[f := After(k, f, t.tick, t.mult(f), t.census)];
    forall g ensures Tracked({}, g, l.journal + record) == Of(m, g).visible {
      TrackedConcat({}, g, l.journal, record);
      if g != f {
        TrackedForeign(Tracked({}, g, l.journal), g, record);
      }
    }
  }

  lemma {:induction false} StepAllAccounted(l: Ledger, t: Moment, fs: seq<nat>)
    requires Accounted(l)
    ensures Accounted(StepAll(l, t, fs))
  {
    hide Accounted, After, Recorded;
    if fs == [] {
    } else {
      StepAllAccounted(l, t, fs[..|fs| - 1]);
      StepOneAccounted(StepAll(l, t, fs[..|fs| - 1]), t, fs[|fs| - 1]);
    }
  }

  /** After every run, folding a faction's sightings gives exactly the entities it has in view. */
  lemma {:induction false} JournalIsTheView(ts: seq<Moment>)
    ensures Accounted(Run(Ledger(map[], []), ts))
  {
    hide StepAll;
    if ts == [] {
    } else {
      JournalIsTheView(ts[..|ts| - 1]);
      var l := Run(Ledger(map[], []), ts[..|ts| - 1]);
      StepAllAccounted(l, ts[|ts| - 1], Ascending(ActiveFactions(l.factions.Keys, ts[|ts| - 1].census)));
    }
  }

  // ---------------------------------------------------------------- who is in view

  lemma {:induction false} StructureContactsLaw(f: nat, v: View, ss: map<nat, Structure>, ids: seq<nat>)
    requires forall id :: id in ids ==> id in ss
    ensures forall c :: c in StructureContacts(f, v, ss, ids) ==>
              c.entity in ids && Observed(f, v, ss[c.entity]) && c.position == ss[c.entity].position
    ensures forall id :: id in ids && Observed(f, v, ss[id]) ==>
              Contact(id, ss[id].position) in StructureContacts(f, v, ss, ids)
  {
    hide Observed;
    if ids == [] {
    } else {
      StructureContactsLaw(f, v, ss, ids[..|ids| - 1]);
      assert ids == ids[..|ids| - 1] + [ids[|ids| - 1]];
    }
  }

  lemma {:induction false} RobotContactsLaw(f: nat, v: View, rs: seq<Robot>)
    ensures forall c :: c in RobotContacts(f, v, rs) <==>
              exists r :: r in rs && r.faction != f && r.hp > 0 && Sees(v, r.position) &&
                  c == Contact(r.entity, r.position)
  {
    hide Sees;
    if rs == [] {
    } else {
      var before, last := rs[..|rs| - 1], rs[|rs| - 1];
      RobotContactsLaw(f, v, before);
      assert rs == before + [last];
    }
  }

  // ---------------------------------------------------------------- ghosts

  lemma {:induction false} RefreshedLaw(ghosts: map<nat, Ghost>, f: nat, tick: nat, v: View, ss: map<nat, Structure>,
                                        ids: seq<nat>, id: nat)
    requires forall i :: i in ids ==> i in ss
    ensures var seen := Refreshed(ghosts, f, tick, v, ss, ids);
      if id in ids && Observed(f, v, ss[id]) then id in seen && seen[id] == GhostOf(ss[id], tick)
      else (id in seen <==> id in ghosts) && (id in seen ==> seen[id] == ghosts[id])
  {
    hide Observed;
    if ids == [] {
    } else {
      RefreshedLaw(ghosts, f, tick, v, ss, ids[..|ids| - 1], id);
      assert ids == ids[..|ids| - 1] + [ids[|ids| - 1]];
    }
  }

  /**
   After a step, a faction remembers a structure exactly when it has it in view now, or
   remembered it before and has not looked at an empty site since: the site was out of view,
   or the structure still stands.
   */
  lemma GhostLaw(k: Knowledge, f: nat, tick: nat, mult: real, w: Census, id: nat)
    ensures var v, after := ViewOf(k, f, mult, w), After(k, f, tick, mult, w).ghosts;
      var inView := id in w.structures && Observed(f, v, w.structures[id]);
      && (id in after <==> inView || (id in k.ghosts && (Sees(v, k.ghosts[id].position) ==> Alive(w.structures, id))))
      && (inView ==> after[id] == GhostOf(w.structures[id], tick))
      && (!inView && id in after ==> after[id] == k.ghosts[id])
      && (id in after && Sees(v, after[id].position) ==> Alive(w.structures, id))
  {
    hide ViewOf, Sees, Ascending, Contacts;
    var v := ViewOf(k, f, mult, w);
    RefreshedLaw(k.ghosts, f, tick, v, w.structures, Ascending(w.structures.Keys), id);
  }

  // ---------------------------------------------------------------- what a faction may be told

  /** A hostile registered entity is known exactly while it is in view; spectators know everything. */
  lemma KnowledgeIsTheView(m: Factions, f: nat, e: nat, w: Census)
    ensures KnowsEntity(m, NO_FACTION, e, w)
    ensures f != NO_FACTION && e in w.registry && w.registry[e] != f && w.registry[e] != NO_FACTION ==>
              (KnowsEntity(m, f, e, w) <==> e in Of(m, f).visible)
  {
  }

  lemma {:induction false} AvatarContactsLaw(f: nat, v: View, avatars: seq<Avatar>)
    ensures forall c :: c in AvatarContacts(f, v, avatars) <==>
              exists a :: a in avatars && a.faction != f && Sees(v, a.position) && c == Contact(a.entity, a.position)
  {
    hide Sees;
    if avatars == [] {
    } else {
      var before, last := avatars[..|avatars| - 1], avatars[|avatars| - 1];
      AvatarContactsLaw(f, v, before);
      assert avatars == before + [last];
    }
  }

  ghost predicate RobotInSight(f: nat, v: View, w: Census, e: nat) {
    exists r :: r in w.robots && r.faction != f && r.hp > 0 && Sees(v, r.position) && r.entity == e
  }

  ghost predicate AvatarInSight(f: nat, v: View, w: Census, e: nat) {
    exists a :: a in w.avatars && a.faction != f && Sees(v, a.position) && a.entity == e
  }

  lemma ContactsLaw(f: nat, v: View, w: Census, e: nat)
    ensures e in Entities(Contacts(f, v, w)) <==>
            || RobotInSight(f, v, w, e)
            || AvatarInSight(f, v, w, e)
            || (e in w.structures && Observed(f, v, w.structures[e]))
  {
    hide Sees, Observed, RobotContacts, AvatarContacts, StructureContacts, Ascending;
    var ids := Ascending(w.structures.Keys);
    RobotContactsLaw(f, v, w.robots);
    AvatarContactsLaw(f, v, w.avatars);
    StructureContactsLaw(f, v, w.structures, ids);
    var rs, avs := RobotContacts(f, v, w.robots), AvatarContacts(f, v, w.avatars);
    var ss := StructureContacts(f, v, w.structures, ids);
    assert forall c :: c in Contacts(f, v, w) <==> c in rs || c in avs || c in ss;
    if RobotInSight(f, v, w, e) {
      var r :| r in w.robots && r.faction != f && r.hp > 0 && Sees(v, r.position) && r.entity == e;
      assert Contact(e, r.position) in rs;
    }
    if AvatarInSight(f, v, w, e) {
      var a :| a in w.avatars && a.faction != f && Sees(v, a.position) && a.entity == e;
      assert Contact(e, a.position) in avs;
    }
    if e in w.structures && Observed(f, v, w.structures[e]) {
      assert Contact(e, w.structures[e].position) in ss;
    }
  }

  /** After a step a faction has in view the living hostile robots, avatars and structures it sees, and nothing else. */
  lemma ViewIsWhatIsSeen(k: Knowledge, f: nat, tick: nat, mult: real, w: Census, e: nat)
    ensures var v := ViewOf(k, f, mult, w);
      e in After(k, f, tick, mult, w).visible <==>
      || RobotInSight(f, v, w, e)
      || AvatarInSight(f, v, w, e)
      || (e in w.structures && Observed(f, v, w.structures[e]))
  {
    hide ViewOf, Contacts, Entities, RobotInSight, AvatarInSight, Observed, Refreshed, Ascending;
    ContactsLaw(f, ViewOf(k, f, mult, w), w, e);
  }

  // ---------------------------------------------------------------- one faction within a moment

  lemma {:induction false} StepAllElsewhere(l: Ledger, t: Moment, fs: seq<nat>, f: nat)
    requires f !in fs
    ensures Of(StepAll(l, t, fs).factions, f) == Of(l.factions, f)
  {
    hide After, Recorded;
    if fs == [] {
    } else {
      StepAllElsewhere(l, t, fs[..|fs| - 1], f);
    }
  }

  lemma {:induction false} StepAllHere(l: Ledger, t: Moment, fs: seq<nat>, f: nat)
    requires f in fs && forall i, j :: 0 <= i < j < |fs| ==> fs[i] < fs[j]
    ensures Of(StepAll(l, t, fs).factions, f) == After(Of(l.factions, f), f, t.tick, t.mult(f), t.census)
  {
    hide After, Recorded;
    var before, last := fs[..|fs| - 1], fs[|fs| - 1];
    if last == f {
      StepAllElsewhere(l, t, before, f);
    } else {
      assert fs == before + [last];
      StepAllHere(l, t, before, f);
    }
  }

  /** A moment steps an active faction from its own entry, and leaves any other as it was. */
  lemma StepMomentHere(l: Ledger, t: Moment, f: nat)
    ensures Of(StepMoment(l, t).factions, f) ==
            if f in ActiveFactions(l.factions.Keys, t.census)
            then After(Of(l.factions, f), f, t.tick, t.mult(f), t.census) else Of(l.factions, f)
  {
    hide After, StepAll, ActiveFactions;
    var fs := Ascending(ActiveFactions(l.factions.Keys, t.census));
    if f in ActiveFactions(l.factions.Keys, t.census) {
      StepAllHere(l, t, fs, f);
    } else {
      StepAllElsewhere(l, t, fs, f);
    }
  }

  /** The eyes of a faction at a moment. */
  ghost function EyesAt(before: Ledger, t: Moment, f: nat): View {
    ViewOf(Of(before.factions, f), f, t.mult(f), t.census)
  }

  // ---------------------------------------------------------------- the history of a ghost

  ghost function Past(ts: seq<Moment>): Ledger {
    Run(Ledger(map[], []), ts)
  }

  /** Moment `n` of a run stepped the faction while it had the live hostile structure in view. */
  ghost predicate HadInView(ts: seq<Moment>, n: nat, f: nat, id: nat)
    requires n < |ts|
  {
    && f in ActiveFactions(Past(ts[..n]).factions.Keys, ts[n].census)
    && id in ts[n].census.structures
    && Observed(f, EyesAt(Past(ts[..n]), ts[n], f), ts[n].census.structures[id])
  }

  /** Moment `n` of a run stepped the faction while it saw the site and the structure was gone. */
  ghost predicate SawEmpty(ts: seq<Moment>, n: nat, f: nat, id: nat, site: Position)
    requires n < |ts|
  {
    && f in ActiveFactions(Past(ts[..n]).factions.Keys, ts[n].census)
    && Sees(EyesAt(Past(ts[..n]), ts[n], f), site)
    && !Alive(ts[n].census.structures, id)
  }

  /** Moment `j` was the last that had the structure in view, and none since saw its site empty. */
  ghost predicate RememberedSince(ts: seq<Moment>, j: nat, f: nat, id: nat) {
    && j < |ts| && HadInView(ts, j, f, id)
    && forall i :: j < i < |ts| ==>
         !HadInView(ts, i, f, id) && !SawEmpty(ts, i, f, id, ts[j].census.structures[id].position)
  }

  lemma SamePast(ts: seq<Moment>, n: nat, f: nat, id: nat, site: Position)
    requires n + 1 < |ts|
    ensures var before := ts[..|ts| - 1];
      && (HadInView(ts, n, f, id) <==> HadInView(before, n, f, id))
      && (SawEmpty(ts, n, f, id, site) <==> SawEmpty(before, n, f, id, site))
  {
    hide Past, EyesAt, ActiveFactions, Observed, Sees, Alive;
    assert ts[..|ts| - 1][..n] == ts[..n];
  }

  lemma HadStructure(ts: seq<Moment>, n: nat, f: nat, id: nat)
    requires n < |ts| && HadInView(ts, n, f, id)
    ensures id in ts[n].census.structures
  {
  }

  /** One more moment: the memory is from now, or survives from before. */
  lemma RememberedSnoc(ts: seq<Moment>, j: nat, f: nat, id: nat)
    requires ts != []
    ensures var n := |ts| - 1;
      RememberedSince(ts, j, f, id) <==>
      if HadInView(ts, n, f, id) then j == n
      else RememberedSince(ts[..n], j, f, id) &&
           !SawEmpty(ts, n, f, id, ts[j].census.structures[id].position)
  {
    hide HadInView, SawEmpty;
    var n := |ts| - 1;
    var before := ts[..n];
    if j < n {
      SamePast(ts, j, f, id, Position(0.0, 0.0, 0.0));
    }
    if j < n && HadInView(ts, j, f, id) {
      HadStructure(ts, j, f, id);
      var site := ts[j].census.structures[id].position;
      forall i | j < i < n
        ensures HadInView(ts, i, f, id) <==> HadInView(before, i, f, id)
        ensures SawEmpty(ts, i, f, id, site) <==> SawEmpty(before, i, f, id, site)
      {
        SamePast(ts, i, f, id, site);
      }
    }
  }

  /** What one more moment does to a memory, in the terms of its history. */
  lemma GhostStep(ts: seq<Moment>, f: nat, id: nat)
    requires ts != []
    ensures var n := |ts| - 1;
      var was, now := Of(Past(ts[..n]).factions, f).ghosts, Of(Past(ts).factions, f).ghosts;
      if HadInView(ts, n, f, id) then id in now && now[id] == GhostOf(ts[n].census.structures[id], ts[n].tick)
      else && (id in now <==> id in was && !SawEmpty(ts, n, f, id, was[id].position))
           && (id in now ==> now[id] == was[id])
  {
    hide After, StepMoment, ViewOf, ActiveFactions, Observed, Sees, Alive;
    var t, l := ts[|ts| - 1], Past(ts[..|ts| - 1]);
    StepMomentHere(l, t, f);
    if f in ActiveFactions(l.factions.Keys, t.census) {
      GhostLaw(Of(l.factions, f), f, t.tick, t.mult(f), t.census, id);
    }
  }

  lemma NothingRemembered(f: nat, id: nat)
    ensures id !in Of(Past([]).factions, f).ghosts
  {
  }

  /**
   After every run, a faction remembers a structure exactly when some moment had it in view and no
   moment since the last such one saw its remembered site empty; the memory is of that moment.
   */
  lemma {:induction false} GhostHistory(ts: seq<Moment>, f: nat, id: nat)
    ensures var ghosts := Of(Past(ts).factions, f).ghosts;
      && (id in ghosts <==> exists j: nat :: RememberedSince(ts, j, f, id))
      && forall j: nat :: RememberedSince(ts, j, f, id) ==>
           ghosts[id] == GhostOf(ts[j].census.structures[id], ts[j].tick)
  {
    hide Past, SawEmpty, EyesAt, ActiveFactions, Observed;
    if ts == [] {
      NothingRemembered(f, id);
    } else {
      var n := |ts| - 1;
      GhostHistory(ts[..n], f, id);
      GhostStep(ts, f, id);
      forall j: nat
        ensures RememberedSince(ts, j, f, id) <==>
                if HadInView(ts, n, f, id) then j == n
                else RememberedSince(ts[..n], j, f, id) && !SawEmpty(ts, n, f, id, ts[j].census.structures[id].position)
      {
        RememberedSnoc(ts, j, f, id);
      }
      if HadInView(ts, n, f, id) {
        assert RememberedSince(ts, n, f, id);
      } else if id in Of(Past(ts).factions, f).ghosts {
        var j: nat :| RememberedSince(ts[..n], j, f, id);
        assert RememberedSince(ts, j, f, id);
      }
    }
  }
}
