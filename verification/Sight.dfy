/** Sight in terms of the world alone: who lights what, who is in view of whom, and what is remembered. */
module Sight {
  import opened OrderedKeys
  import opened FogGrids
  import opened Knowledge
  import KnowledgeLaws

  // ---------------------------------------------------------------- emitters

  /** Something of the faction stands at `p` and senses as far as `radius`. */
  ghost predicate Emitter(f: nat, mult: real, w: Census, p: Position, radius: real) {
    || (exists r :: r in w.robots && r.faction == f && r.hp > 0 && r.position == p && radius == r.sensorRadius * mult)
    || (exists id :: id in w.structures &&
          var s := w.structures[id];
          s.faction == f && s.emits && s.position == p && radius == s.sensorRadius * mult)
    || (exists a :: a in w.avatars && a.faction == f && a.position == p && radius == 45.0 * mult)
  }

  lemma {:induction false} RobotsEmit(f: nat, mult: real, rs: seq<Robot>, s: Sensor)
    ensures s in RobotSensors(f, mult, rs) <==>
            exists r :: r in rs && r.faction == f && r.hp > 0 && r.position == s.position &&
                s.radius == Reach(r.sensorRadius, mult)
  {
    hide Reach;
    if rs == [] {
    } else {
      var before, last := rs[..|rs| - 1], rs[|rs| - 1];
      RobotsEmit(f, mult, before, s);
      assert rs == before + [last];
      assert s in RobotSensors(f, mult, rs) <==>
        || s in RobotSensors(f, mult, before)
        || (last.faction == f && last.hp > 0 && s == Sensor(last.position, Reach(last.sensorRadius, mult)));
    }
  }

  lemma {:induction false} StructuresEmit(f: nat, mult: real, ss: map<nat, Structure>, ids: seq<nat>, s: Sensor)
    requires forall id :: id in ids ==> id in ss
    ensures s in StructureSensors(f, mult, ss, ids) <==>
            exists id :: id in ids && ss[id].faction == f && ss[id].emits && ss[id].position == s.position &&
                s.radius == Reach(ss[id].sensorRadius, mult)
  {
    hide Reach;
    if ids == [] {
    } else {
      var before, last := ids[..|ids| - 1], ids[|ids| - 1];
      StructuresEmit(f, mult, ss, before, s);
      assert ids == before + [last];
      assert s in StructureSensors(f, mult, ss, ids) <==>
        || s in StructureSensors(f, mult, ss, before)
        || (&& ss[last].faction == f && ss[last].emits
            && s == Sensor(ss[last].position, Reach(ss[last].sensorRadius, mult)));
    }
  }

  lemma {:induction false} AvatarsEmit(f: nat, mult: real, avatars: seq<Avatar>, s: Sensor)
    ensures s in AvatarSensors(f, mult, avatars) <==>
            exists a :: a in avatars && a.faction == f && a.position == s.position && s.radius == Reach(45.0, mult)
  {
    hide Reach;
    if avatars == [] {
    } else {
      AvatarsEmit(f, mult, avatars[..|avatars| - 1], s);
      assert avatars == avatars[..|avatars| - 1] + [avatars[|avatars| - 1]];
    }
  }

  /** A faction's sensors are its living robots, its emitting structures and its avatars. */
  lemma SensorsIff(f: nat, mult: real, w: Census, p: Position, radius: real)
    ensures Sensor(p, radius) in Sensors(f, mult, w) <==> Emitter(f, mult, w, p, radius)
  {
    hide RobotSensors, StructureSensors, AvatarSensors, Ascending;
    var s, ids := Sensor(p, radius), Ascending(w.structures.Keys);
    RobotsEmit(f, mult, w.robots, s);
    StructuresEmit(f, mult, w.structures, ids, s);
    AvatarsEmit(f, mult, w.avatars, s);
    assert forall id :: id in ids <==> id in w.structures;
  }

  // ---------------------------------------------------------------- what is in sight

  predicate Near(a: real, b: real, x: real, z: real, radius: real) {
    (x - a) * (x - a) + (z - b) * (z - b) <= radius * radius
  }

  /** The middle of the ten metres that hold a coordinate. */
  function Middle(x: real): real {
    (x / 10.0).Floor as real * 10.0 + 5.0
  }

  /** Within the radius of something that senses, or in a square of the map whose middle is. */
  ghost predicate Lit(f: nat, mult: real, w: Census, q: Position) {
    exists p, radius :: Emitter(f, mult, w, p, radius) &&
      (|| Near(p.x, p.z, q.x, q.z, radius)
       || (&& -500.0 <= q.x < 500.0 && -500.0 <= q.z < 500.0 && radius > 0.0
           && Near(p.x, p.z, Middle(q.x), Middle(q.z), radius)))
  }

  lemma CellMiddle(x: real)
    requires -500.0 <= x < 500.0
    ensures var c := ((x - FOG_MIN) / FOG_CELL_SIZE).Floor;
      0 <= c < 100 && Center(c) == Middle(x)
  {
    var c, n := ((x - FOG_MIN) / FOG_CELL_SIZE).Floor, (x / 10.0).Floor;
    assert (x - FOG_MIN) / FOG_CELL_SIZE == x / 10.0 + 50.0;
    assert c == n + 50;
  }

  lemma PositionLit(cells: Cells, sensors: seq<Sensor>, q: Position)
    ensures PositionState(Frame(cells, sensors), q.x, q.z) == Visible <==>
            && -500.0 <= q.x < 500.0 && -500.0 <= q.z < 500.0
            && exists s :: s in sensors && s.radius > 0.0 &&
                 Near(s.position.x, s.position.z, Middle(q.x), Middle(q.z), s.radius)
  {
    hide Frame, Center, Middle;
    if -500.0 <= q.x < 500.0 && -500.0 <= q.z < 500.0 {
      CellMiddle(q.x);
      CellMiddle(q.z);
      var (_, cx, cz) := WorldToCell(q.x, q.z);
      CellLaw(cx, cz);
      VisibleIffCovered(cells, sensors, Index(cx, cz));
      CoveredMeans(sensors, cx, cz, Middle(q.x), Middle(q.z));
    }
  }

  lemma CoveredMeans(sensors: seq<Sensor>, cx: nat, cz: nat, x: real, z: real)
    requires cx < FOG_GRID_WIDTH && cz < FOG_GRID_WIDTH && Center(cx) == x && Center(cz) == z
    ensures Covered(sensors, Index(cx, cz)) <==>
            exists s :: s in sensors && s.radius > 0.0 && Near(s.position.x, s.position.z, x, z, s.radius)
  {
    hide Center;
    CellLaw(cx, cz);
    forall s: Sensor
      ensures Covers(s, Index(cx, cz)) <==> s.radius > 0.0 && Near(s.position.x, s.position.z, x, z, s.radius)
    {
    }
  }

  /** What a faction sees in a tick is what its own lights up, whatever it knew before. */
  lemma SeesIff(k: Knowledge, f: nat, mult: real, w: Census, q: Position)
    ensures Sees(ViewOf(k, f, mult, w), q) <==> Lit(f, mult, w, q)
  {
    hide Sensors, Frame, Emitter, Near, Middle, PositionState;
    var sensors := Sensors(f, mult, w);
    PositionLit(k.fog, sensors, q);
    RangeMeans(sensors, q);
    forall s: Sensor ensures s in sensors <==> Emitter(f, mult, w, s.position, s.radius) {
      SensorsIff(f, mult, w, s.position, s.radius);
    }
    if Lit(f, mult, w, q) {
      var p, radius :| Emitter(f, mult, w, p, radius) &&
        (|| Near(p.x, p.z, q.x, q.z, radius)
         || (&& -500.0 <= q.x < 500.0 && -500.0 <= q.z < 500.0 && radius > 0.0
             && Near(p.x, p.z, Middle(q.x), Middle(q.z), radius)));
      assert Sensor(p, radius) in sensors;
    }
  }

  lemma RangeMeans(sensors: seq<Sensor>, q: Position)
    ensures InSensor(sensors, q) <==>
            exists s :: s in sensors && Near(s.position.x, s.position.z, q.x, q.z, s.radius)
  {
    forall s: Sensor ensures InRange(s, q.x, q.z) <==> Near(s.position.x, s.position.z, q.x, q.z, s.radius) {
    }
  }

  // ---------------------------------------------------------------- one step

  /** A living robot, an avatar or a standing structure of somebody else is lit up at `p`. */
  ghost predicate DetectedAt(f: nat, mult: real, w: Census, e: nat, p: Position) {
    && Lit(f, mult, w, p)
    && (|| (exists r :: r in w.robots && r.faction != f && r.hp > 0 && r.entity == e && r.position == p)
        || (exists a :: a in w.avatars && a.faction != f && a.entity == e && a.position == p)
        || (e in w.structures && w.structures[e].faction != f && w.structures[e].live
            && w.structures[e].position == p))
  }

  ghost predicate Detected(f: nat, mult: real, w: Census, e: nat) {
    exists p :: DetectedAt(f, mult, w, e, p)
  }

  lemma StructureContactIff(f: nat, v: View, w: Census, c: Contact)
    ensures c in StructureContacts(f, v, w.structures, Ascending(w.structures.Keys)) <==>
            && Sees(v, c.position)
            && c.entity in w.structures && w.structures[c.entity].faction != f && w.structures[c.entity].live
            && w.structures[c.entity].position == c.position
  {
    hide Sees, StructureContacts, Ascending;
    KnowledgeLaws.StructureContactsLaw(f, v, w.structures, Ascending(w.structures.Keys));
  }

  lemma ContactIff(k: Knowledge, f: nat, mult: real, w: Census, c: Contact)
    ensures c in Contacts(f, ViewOf(k, f, mult, w), w) <==> DetectedAt(f, mult, w, c.entity, c.position)
  {
    hide ViewOf, Sees, Lit, RobotContacts, AvatarContacts, StructureContacts, Ascending;
    var v := ViewOf(k, f, mult, w);
    SeesIff(k, f, mult, w, c.position);
    KnowledgeLaws.RobotContactsLaw(f, v, w.robots);
    KnowledgeLaws.AvatarContactsLaw(f, v, w.avatars);
    StructureContactIff(f, v, w, c);
  }

  lemma EntityIff(k: Knowledge, f: nat, mult: real, w: Census, e: nat)
    ensures e in Entities(Contacts(f, ViewOf(k, f, mult, w), w)) <==> Detected(f, mult, w, e)
  {
    hide ViewOf, Contacts, DetectedAt;
    var contacts := Contacts(f, ViewOf(k, f, mult, w), w);
    forall c: Contact ensures c in contacts <==> DetectedAt(f, mult, w, c.entity, c.position) {
      ContactIff(k, f, mult, w, c);
    }
    if Detected(f, mult, w, e) {
      var p :| DetectedAt(f, mult, w, e, p);
      assert Contact(e, p) in contacts;
    }
  }

  /** After a step a faction has in view exactly what it detects in the world of that step. */
  lemma ViewIff(k: Knowledge, f: nat, tick: nat, mult: real, w: Census, e: nat)
    ensures e in After(k, f, tick, mult, w).visible <==> Detected(f, mult, w, e)
    ensures After(k, f, tick, mult, w).previous == k.visible
  {
    hide ViewOf, Contacts, Entities, Refreshed, Surviving, Ascending, Detected;
    EntityIff(k, f, mult, w, e);
  }

  lemma {:induction false} SpottedIff(f: nat, tick: nat, previous: set<nat>, cs: seq<Contact>, x: Sighting)
    ensures x in Spotted(f, tick, previous, cs) <==>
            && x.EntitySpotted? && x.tick == tick && x.observer == f && x.target !in previous
            && Contact(x.target, x.position) in cs
  {
    if cs == [] {
    } else {
      SpottedIff(f, tick, previous, cs[..|cs| - 1], x);
      assert cs == cs[..|cs| - 1] + [cs[|cs| - 1]];
    }
  }

  lemma {:induction false} LostIff(f: nat, tick: nat, previous: seq<nat>, visible: set<nat>, x: Sighting)
    ensures x in LostFrom(f, tick, previous, visible) <==>
            && x.EntityLost? && x.tick == tick && x.observer == f && x.target in previous && x.target !in visible
  {
    if previous == [] {
    } else {
      LostIff(f, tick, previous[..|previous| - 1], visible, x);
      assert previous == previous[..|previous| - 1] + [previous[|previous| - 1]];
    }
  }

  /** A step records who comes into view, with the place, and who goes out of it. */
  lemma RecordedIff(k: Knowledge, f: nat, tick: nat, mult: real, w: Census, x: Sighting)
    ensures x in Recorded(k, f, tick, mult, w) <==>
            && x.tick == tick && x.observer == f
            && if x.EntitySpotted? then x.target !in k.visible && DetectedAt(f, mult, w, x.target, x.position)
               else x.target in k.visible && !Detected(f, mult, w, x.target)
  {
    hide ViewOf, Contacts, Entities, Spotted, LostFrom, Ascending, Detected, DetectedAt;
    var contacts := Contacts(f, ViewOf(k, f, mult, w), w);
    SpottedIff(f, tick, k.visible, contacts, x);
    LostIff(f, tick, Ascending(k.visible), Entities(contacts), x);
    EntityIff(k, f, mult, w, x.target);
    if x.EntitySpotted? {
      ContactIff(k, f, mult, w, Contact(x.target, x.position));
    }
  }

  /** A standing structure of somebody else is lit up. */
  ghost predicate Watched(f: nat, mult: real, w: Census, id: nat) {
    id in w.structures && w.structures[id].faction != f && w.structures[id].live
    && Lit(f, mult, w, w.structures[id].position)
  }

  /** The site is lit up and the structure does not stand any more. */
  ghost predicate SeenEmpty(f: nat, mult: real, w: Census, id: nat, site: Position) {
    Lit(f, mult, w, site) && !(id in w.structures && w.structures[id].live)
  }

  lemma WatchedIff(k: Knowledge, f: nat, mult: real, w: Census, id: nat, site: Position)
    ensures Watched(f, mult, w, id) <==> id in w.structures && Observed(f, ViewOf(k, f, mult, w), w.structures[id])
    ensures SeenEmpty(f, mult, w, id, site) <==> Sees(ViewOf(k, f, mult, w), site) && !Alive(w.structures, id)
  {
    hide ViewOf, Sees, Lit;
    SeesIff(k, f, mult, w, site);
    if id in w.structures {
      SeesIff(k, f, mult, w, w.structures[id].position);
    }
  }

  // ---------------------------------------------------------------- runs

  /** The faction owns something in the world. */
  ghost predicate Present(f: nat, w: Census) {
    || (exists e :: e in w.registry && w.registry[e] == f)
    || (exists r :: r in w.robots && r.faction == f)
    || (exists a :: a in w.avatars && a.faction == f)
    || (exists id :: id in w.structures && w.structures[id].faction == f)
  }

  /** By moment `n` of a run the faction has owned something. */
  ghost predicate Acting(ts: seq<Moment>, n: nat, f: nat) {
    f != 0 && exists m :: 0 <= m <= n && m < |ts| && Present(f, ts[m].census)
  }

  lemma ActiveIff(known: set<nat>, w: Census, f: nat)
    ensures f in ActiveFactions(known, w) <==> f != 0 && (Present(f, w) || f in known)
  {
  }

  lemma {:induction false} StepAllKeys(l: Ledger, t: Moment, fs: seq<nat>, f: nat)
    ensures f in StepAll(l, t, fs).factions <==> f in l.factions || f in fs
  {
    hide After, Recorded;
    if fs == [] {
    } else {
      StepAllKeys(l, t, fs[..|fs| - 1], f);
      assert fs == fs[..|fs| - 1] + [fs[|fs| - 1]];
    }
  }

  /** The factions on file after a run are those that have owned something at some moment. */
  lemma {:induction false} FactionsIff(ts: seq<Moment>, f: nat)
    ensures f in KnowledgeLaws.Past(ts).factions <==> f != 0 && exists m :: 0 <= m < |ts| && Present(f, ts[m].census)
  {
    hide Present, StepAll, ActiveFactions;
    if ts == [] {
    } else {
      var n := |ts| - 1;
      FactionsIff(ts[..n], f);
      var l := KnowledgeLaws.Past(ts[..n]);
      ActiveIff(l.factions.Keys, ts[n].census, f);
      StepAllKeys(l, ts[n], Ascending(ActiveFactions(l.factions.Keys, ts[n].census)), f);
      assert forall m :: 0 <= m < n ==> ts[..n][m] == ts[m];
    }
  }

  lemma ActingIff(ts: seq<Moment>, n: nat, f: nat)
    requires n < |ts|
    ensures f in ActiveFactions(KnowledgeLaws.Past(ts[..n]).factions.Keys, ts[n].census) <==> Acting(ts, n, f)
  {
    hide Present, KnowledgeLaws.Past, ActiveFactions;
    FactionsIff(ts[..n], f);
    ActiveIff(KnowledgeLaws.Past(ts[..n]).factions.Keys, ts[n].census, f);
    assert forall m :: 0 <= m < n ==> ts[..n][m] == ts[m];
  }

  /** At moment `n` of a run the faction detects the entity. */
  ghost predicate SeenAt(ts: seq<Moment>, n: nat, f: nat, e: nat) {
    n < |ts| && Acting(ts, n, f) && Detected(f, ts[n].mult(f), ts[n].census, e)
  }

  /** After every run a faction has in view exactly what it detects at the last moment. */
  lemma {:induction false} ViewHistory(ts: seq<Moment>, f: nat, e: nat)
    ensures e in Of(KnowledgeLaws.Past(ts).factions, f).visible <==> ts != [] && SeenAt(ts, |ts| - 1, f, e)
  {
    hide Acting, Detected, After, StepMoment, ActiveFactions;
    if ts == [] {
    } else {
      var n := |ts| - 1;
      var l := KnowledgeLaws.Past(ts[..n]);
      ActingIff(ts, n, f);
      KnowledgeLaws.StepMomentHere(l, ts[n], f);
      if Acting(ts, n, f) {
        ViewIff(Of(l.factions, f), f, ts[n].tick, ts[n].mult(f), ts[n].census, e);
      } else {
        ViewHistory(ts[..n], f, e);
        NotActingBefore(ts, n, f);
      }
    }
  }

  lemma NotActingBefore(ts: seq<Moment>, n: nat, f: nat)
    requires n < |ts| && !Acting(ts, n, f)
    ensures n > 0 ==> !Acting(ts[..n], n - 1, f)
  {
    hide Present;
    assert forall m :: 0 <= m < n ==> ts[..n][m] == ts[m];
  }

  // ---------------------------------------------------------------- the record of a run

  lemma {:induction false} StepAllRecords(l: Ledger, t: Moment, fs: seq<nat>, x: Sighting)
    requires forall i, j :: 0 <= i < j < |fs| ==> fs[i] < fs[j]
    ensures var f := x.observer;
      x in StepAll(l, t, fs).journal <==>
      x in l.journal || (f in fs && x in Recorded(Of(l.factions, f), f, t.tick, t.mult(f), t.census))
  {
    hide After, Recorded;
    if fs == [] {
    } else {
      var before, f := fs[..|fs| - 1], fs[|fs| - 1];
      StepAllRecords(l, t, before, x);
      KnowledgeLaws.StepAllElsewhere(l, t, before, f);
      var k := Of(l.factions, f);
      RecordedHere(k, f, t.tick, t.mult(f), t.census, x);
      assert fs == before + [f];
    }
  }

  lemma RecordedHere(k: Knowledge, f: nat, tick: nat, mult: real, w: Census, x: Sighting)
    ensures x in Recorded(k, f, tick, mult, w) ==> x.observer == f
  {
    hide Recorded, Detected, DetectedAt;
    RecordedIff(k, f, tick, mult, w, x);
  }

  /** The entry tells that at moment `n` its target came into view where it says, or went out of it. */
  ghost predicate Tells(ts: seq<Moment>, n: nat, x: Sighting) {
    && n < |ts| && x.tick == ts[n].tick && Acting(ts, n, x.observer)
    && var f, before := x.observer, n > 0 && SeenAt(ts, n - 1, x.observer, x.target);
       if x.EntitySpotted? then !before && DetectedAt(f, ts[n].mult(f), ts[n].census, x.target, x.position)
       else before && !Detected(f, ts[n].mult(f), ts[n].census, x.target)
  }

  lemma TellsBefore(ts: seq<Moment>, m: nat, n: nat, x: Sighting)
    requires m < n <= |ts|
    ensures Tells(ts[..n], m, x) <==> Tells(ts, m, x)
  {
    hide Detected, DetectedAt;
    ActingBefore(ts, m, n, x.observer);
    if m > 0 {
      ActingBefore(ts, m - 1, n, x.observer);
    }
  }

  lemma ActingBefore(ts: seq<Moment>, m: nat, n: nat, f: nat)
    requires m < n <= |ts|
    ensures Acting(ts[..n], m, f) <==> Acting(ts, m, f)
  {
    hide Present;
    assert forall i :: 0 <= i < n ==> ts[..n][i] == ts[i];
  }

  lemma TellsLast(ts: seq<Moment>, x: Sighting)
    requires ts != []
    ensures var n, f := |ts| - 1, x.observer;
      var l := KnowledgeLaws.Past(ts[..n]);
      x in StepMoment(l, ts[n]).journal <==> x in l.journal || Tells(ts, n, x)
  {
    hide Acting, Detected, DetectedAt, Recorded, StepAll, ActiveFactions, KnowledgeLaws.Past;
    var n, f := |ts| - 1, x.observer;
    var l := KnowledgeLaws.Past(ts[..n]);
    StepAllRecords(l, ts[n], Ascending(ActiveFactions(l.factions.Keys, ts[n].census)), x);
    ActingIff(ts, n, f);
    RecordedIff(Of(l.factions, f), f, ts[n].tick, ts[n].mult(f), ts[n].census, x);
    ViewHistory(ts[..n], f, x.target);
    if n > 0 {
      ActingBefore(ts, n - 1, n, f);
    }
  }

  /** The record of every run tells of every coming into view and every going out of it, and of nothing else. */
  lemma {:induction false} JournalIff(ts: seq<Moment>, x: Sighting)
    ensures x in KnowledgeLaws.Past(ts).journal <==> exists n: nat :: Tells(ts, n, x)
  {
    hide Tells, StepMoment;
    if ts == [] {
      NothingTold(x);
    } else {
      var n := |ts| - 1;
      JournalIff(ts[..n], x);
      TellsLast(ts, x);
      forall m: nat ensures Tells(ts, m, x) <==> (m == n && Tells(ts, n, x)) || Tells(ts[..n], m, x) {
        ToldWithin(ts, m, n, x);
      }
    }
  }

  lemma NothingTold(x: Sighting)
    ensures x !in KnowledgeLaws.Past([]).journal && forall n: nat :: !Tells([], n, x)
  {
  }

  lemma ToldWithin(ts: seq<Moment>, m: nat, n: nat, x: Sighting)
    requires n + 1 == |ts|
    ensures Tells(ts, m, x) <==> (m == n && Tells(ts, n, x)) || Tells(ts[..n], m, x)
  {
    hide Acting, Detected, DetectedAt, SeenAt;
    if m < n {
      TellsBefore(ts, m, n, x);
    }
  }

  // ---------------------------------------------------------------- remembered structures

  ghost predicate WatchedAt(ts: seq<Moment>, n: nat, f: nat, id: nat) {
    n < |ts| && Acting(ts, n, f) && Watched(f, ts[n].mult(f), ts[n].census, id)
  }

  /** Moment `j` was the last at which the structure was watched; its site has not been seen empty since. */
  ghost predicate LastWatched(ts: seq<Moment>, j: nat, f: nat, id: nat) {
    && WatchedAt(ts, j, f, id)
    && var site := ts[j].census.structures[id].position;
       forall i :: j < i < |ts| && Acting(ts, i, f) ==>
         && !Watched(f, ts[i].mult(f), ts[i].census, id)
         && !SeenEmpty(f, ts[i].mult(f), ts[i].census, id, site)
  }

  lemma MomentIff(ts: seq<Moment>, n: nat, f: nat, id: nat, site: Position)
    requires n < |ts|
    ensures KnowledgeLaws.HadInView(ts, n, f, id) <==> WatchedAt(ts, n, f, id)
    ensures KnowledgeLaws.SawEmpty(ts, n, f, id, site) <==>
            Acting(ts, n, f) && SeenEmpty(f, ts[n].mult(f), ts[n].census, id, site)
  {
    hide Acting, Watched, SeenEmpty, KnowledgeLaws.Past, ViewOf, Observed, Sees, ActiveFactions, Alive;
    ActingIff(ts, n, f);
    WatchedIff(Of(KnowledgeLaws.Past(ts[..n]).factions, f), f, ts[n].mult(f), ts[n].census, id, site);
  }

  lemma LastWatchedIff(ts: seq<Moment>, j: nat, f: nat, id: nat)
    ensures KnowledgeLaws.RememberedSince(ts, j, f, id) <==> LastWatched(ts, j, f, id)
  {
    hide Acting, Watched, SeenEmpty, KnowledgeLaws.HadInView, KnowledgeLaws.SawEmpty;
    if j < |ts| {
      MomentIff(ts, j, f, id, Position(0.0, 0.0, 0.0));
      if WatchedAt(ts, j, f, id) {
        WatchedStands(ts, j, f, id);
        forall i | j < i < |ts|
          ensures KnowledgeLaws.HadInView(ts, i, f, id) <==> WatchedAt(ts, i, f, id)
          ensures KnowledgeLaws.SawEmpty(ts, i, f, id, ts[j].census.structures[id].position) <==>
                  Acting(ts, i, f) &&
                  SeenEmpty(f, ts[i].mult(f), ts[i].census, id, ts[j].census.structures[id].position)
        {
          MomentIff(ts, i, f, id, ts[j].census.structures[id].position);
        }
      }
    }
  }

  lemma WatchedStands(ts: seq<Moment>, j: nat, f: nat, id: nat)
    requires WatchedAt(ts, j, f, id)
    ensures id in ts[j].census.structures
  {
  }

  /**
   After every run a faction remembers a structure exactly when there was a last moment at which it
   watched it and it has not seen the site empty since; the memory is the structure of that moment.
   */
  lemma MemoryIff(ts: seq<Moment>, f: nat, id: nat)
    ensures var ghosts := Of(KnowledgeLaws.Past(ts).factions, f).ghosts;
      && (id in ghosts <==> exists j: nat :: LastWatched(ts, j, f, id))
      && forall j: nat :: LastWatched(ts, j, f, id) ==>
           var s, g := ts[j].census.structures[id], ghosts[id];
           && g.kind == s.kind && g.faction == s.faction && g.position == s.position
           && g.boundsMin == s.boundsMin && g.boundsMax == s.boundsMax
           && g.lastSeenHp == s.hp && g.lastSeenTick == ts[j].tick
  {
    hide LastWatched, KnowledgeLaws.RememberedSince, KnowledgeLaws.Past;
    KnowledgeLaws.GhostHistory(ts, f, id);
    forall j: nat ensures KnowledgeLaws.RememberedSince(ts, j, f, id) <==> LastWatched(ts, j, f, id) {
      LastWatchedIff(ts, j, f, id);
    }
  }

  // ---------------------------------------------------------------- what a faction may be told

  /** After a run: the faction's own and neutral things, what it sees, and the structures it remembers. */
  ghost predicate Knows(ts: seq<Moment>, f: nat, e: nat)
    requires ts != []
  {
    var n := |ts| - 1;
    var w := ts[n].census;
    || f == 0
    || SeenAt(ts, n, f, e)
    || (if e in w.registry then w.registry[e] == f || w.registry[e] == 0
        else || (e in w.structures && (w.structures[e].faction == f || w.structures[e].faction == 0))
             || exists j: nat :: LastWatched(ts, j, f, e))
  }

  lemma KnowsIff(ts: seq<Moment>, f: nat, e: nat)
    requires ts != []
    ensures KnowsEntity(KnowledgeLaws.Past(ts).factions, f, e, ts[|ts| - 1].census) <==> Knows(ts, f, e)
  {
    hide SeenAt, LastWatched, KnowledgeLaws.Past;
    ViewHistory(ts, f, e);
    MemoryIff(ts, f, e);
  }

  // ---------------------------------------------------------------- the fog of a run

  /** The point's square of the map has its middle within a radius of the faction's. */
  ghost predicate SquareLit(f: nat, mult: real, w: Census, q: Position) {
    && -500.0 <= q.x < 500.0 && -500.0 <= q.z < 500.0
    && exists p, radius :: Emitter(f, mult, w, p, radius) && radius > 0.0 &&
         Near(p.x, p.z, Middle(q.x), Middle(q.z), radius)
  }

  lemma SquareLitIff(cells: Cells, f: nat, mult: real, w: Census, q: Position)
    ensures PositionState(Frame(cells, Sensors(f, mult, w)), q.x, q.z) == Visible <==> SquareLit(f, mult, w, q)
    ensures PositionState(Frame(cells, Sensors(f, mult, w)), q.x, q.z).IsExplored() <==>
            SquareLit(f, mult, w, q) || PositionState(cells, q.x, q.z).IsExplored()
  {
    hide Sensors, Frame, Emitter, Near, Middle, PositionState;
    var sensors := Sensors(f, mult, w);
    PositionLit(cells, sensors, q);
    PositionExplored(cells, sensors, q);
    forall s: Sensor ensures s in sensors <==> Emitter(f, mult, w, s.position, s.radius) {
      SensorsIff(f, mult, w, s.position, s.radius);
    }
    if SquareLit(f, mult, w, q) {
      var p, radius :| Emitter(f, mult, w, p, radius) && radius > 0.0 &&
        Near(p.x, p.z, Middle(q.x), Middle(q.z), radius);
      assert Sensor(p, radius) in sensors;
    }
  }

  lemma PositionExplored(cells: Cells, sensors: seq<Sensor>, q: Position)
    ensures PositionState(Frame(cells, sensors), q.x, q.z).IsExplored() <==>
            || PositionState(Frame(cells, sensors), q.x, q.z) == Visible
            || PositionState(cells, q.x, q.z).IsExplored()
  {
    hide Frame, Covered;
    var (inside, cx, cz) := WorldToCell(q.x, q.z);
    if inside {
      CellLaw(cx, cz);
      VisibleIffCovered(cells, sensors, Index(cx, cz));
    }
  }

  /** Moment `n` of a run lit the square of the point for the faction. */
  ghost predicate SquareLitAt(ts: seq<Moment>, n: nat, f: nat, q: Position) {
    n < |ts| && Acting(ts, n, f) && SquareLit(f, ts[n].mult(f), ts[n].census, q)
  }

  /** After every run a point is explored when some moment lit its square, and visible when the last one did. */
  lemma {:induction false} FogHistory(ts: seq<Moment>, f: nat, q: Position)
    ensures var fog := Of(KnowledgeLaws.Past(ts).factions, f).fog;
      && (PositionState(fog, q.x, q.z) == Visible <==> ts != [] && SquareLitAt(ts, |ts| - 1, f, q))
      && (PositionState(fog, q.x, q.z).IsExplored() <==> exists n: nat :: SquareLitAt(ts, n, f, q))
  {
    hide SquareLitAt, Acting, StepMoment, ActiveFactions, PositionState, KnowledgeState.IsExplored;
    if ts == [] {
      NothingExplored(f, q);
    } else {
      var n := |ts| - 1;
      FogHistory(ts[..n], f, q);
      FogStep(ts, f, q);
      assert (exists m: nat :: SquareLitAt(ts, m, f, q)) <==>
        SquareLitAt(ts, n, f, q) || exists m: nat :: SquareLitAt(ts[..n], m, f, q) by {
        forall m: nat
          ensures SquareLitAt(ts, m, f, q) <==> (m == n && SquareLitAt(ts, n, f, q)) || SquareLitAt(ts[..n], m, f, q)
        {
          SquareWithin(ts, m, n, f, q);
        }
      }
    }
  }

  lemma SquareWithin(ts: seq<Moment>, m: nat, n: nat, f: nat, q: Position)
    requires n + 1 == |ts|
    ensures SquareLitAt(ts, m, f, q) <==> (m == n && SquareLitAt(ts, n, f, q)) || SquareLitAt(ts[..n], m, f, q)
  {
    hide Acting, SquareLit;
    if m < n {
      ActingBefore(ts, m, n, f);
    }
  }

  lemma NothingExplored(f: nat, q: Position)
    ensures var k := PositionState(Of(KnowledgeLaws.Past([]).factions, f).fog, q.x, q.z);
      k != Visible && !k.IsExplored()
    ensures forall n: nat :: !SquareLitAt([], n, f, q)
  {
  }

  lemma FogStep(ts: seq<Moment>, f: nat, q: Position)
    requires ts != []
    ensures var n := |ts| - 1;
      var was, now := Of(KnowledgeLaws.Past(ts[..n]).factions, f).fog, Of(KnowledgeLaws.Past(ts).factions, f).fog;
      if Acting(ts, n, f)
      then && (PositionState(now, q.x, q.z) == Visible <==> SquareLitAt(ts, n, f, q))
           && (PositionState(now, q.x, q.z).IsExplored() <==>
                 SquareLitAt(ts, n, f, q) || PositionState(was, q.x, q.z).IsExplored())
      else now == was && !SquareLitAt(ts, n, f, q) && (n > 0 ==> !SquareLitAt(ts[..n], n - 1, f, q))
  {
    hide Acting, SquareLit, StepMoment, ActiveFactions, PositionState, KnowledgeState.IsExplored, Frame, Sensors,
      Contacts, Entities, Refreshed, Surviving;
    var n := |ts| - 1;
    var l := KnowledgeLaws.Past(ts[..n]);
    ActingIff(ts, n, f);
    KnowledgeLaws.StepMomentHere(l, ts[n], f);
    if Acting(ts, n, f) {
      SquareLitIff(Of(l.factions, f).fog, f, ts[n].mult(f), ts[n].census, q);
    } else {
      NotActingBefore(ts, n, f);
    }
  }
}
