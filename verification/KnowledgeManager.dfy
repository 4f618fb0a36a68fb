/** The knowledge step as the engine performs it: faction by faction, list by list. */
module KnowledgeManagers {
  import opened Wrappers
  import opened OrderedKeys
  import opened FogGrids
  import opened Knowledge

  class SightingJournal {
    var events: seq<Sighting>

    constructor ()
      ensures events == []
    {
      events := [];
    }

    method Record(e: Sighting)
      modifies this
      ensures events == old(events) + [e]
    {
      events := events + [e];
    }
  }

  class FactionKnowledge {
    const faction: nat
    const fogGrid: FogGrid
    var visibleEntities: set<nat>
    var previousVisibleEntities: set<nat>
    var ghostStructures: map<nat, Ghost>
    var activeSensors: seq<Sensor>

    ghost predicate Valid() {
      fogGrid.Valid()
    }

    ghost function Value(): Knowledge
      requires Valid()
      reads this, fogGrid.cells
    {
      Knowledge(fogGrid.Contents(), visibleEntities, previousVisibleEntities, ghostStructures, activeSensors)
    }

    constructor (faction: nat)
      ensures Valid() && Value() == NewKnowledge() && this.faction == faction
      ensures fresh(fogGrid) && fresh(fogGrid.cells)
    {
      this.faction := faction;
      fogGrid := new FogGrid();
      visibleEntities, previousVisibleEntities, ghostStructures, activeSensors := {}, {}, map[], [];
    }

    // ---------------------------------------------------------------- sensors

    method Emit(s: Sensor)
      requires Valid()
      modifies this`activeSensors, fogGrid.cells
      ensures activeSensors == old(activeSensors) + [s]
      ensures fogGrid.Contents() == Stamp(old(fogGrid.Contents()), s)
    {
      activeSensors := activeSensors + [s];
      fogGrid.StampSensor(s);
    }

    /** The sensors gathered so far are the ones stamped on the grid that the tick began with. */
    ghost predicate Lit(start: Cells, sensors: seq<Sensor>)
      requires Valid()
      reads this, fogGrid.cells
    {
      activeSensors == sensors && fogGrid.Contents() == StampAll(start, sensors)
    }

    lemma LitOneMore(start: Cells, sensors: seq<Sensor>, s: Sensor)
      ensures StampAll(start, sensors + [s]) == Stamp(StampAll(start, sensors), s)
    {
      assert (sensors + [s])[..|sensors|] == sensors;
    }

    method CollectRobots(ghost start: Cells, mult: real, rs: seq<Robot>)
      requires Valid() && Lit(start, [])
      modifies this`activeSensors, fogGrid.cells
      ensures Lit(start, RobotSensors(faction, mult, rs))
    {
      hide StampAll, Stamp, Reach;
      for i := 0 to |rs|
        invariant Lit(start, RobotSensors(faction, mult, rs[..i]))
      {
        assert rs[..i + 1][..i] == rs[..i];
        var r := rs[i];
        if r.faction == faction && r.hp > 0 {
          LitOneMore(start, activeSensors, Sensor(r.position, Reach(r.sensorRadius, mult)));
          Emit(Sensor(r.position, Reach(r.sensorRadius, mult)));
        }
      }
      assert rs[..|rs|] == rs;
    }

    method CollectStructures(ghost start: Cells, ghost earlier: seq<Sensor>, mult: real, ss: map<nat, Structure>,
                             ids: seq<nat>)
      requires Valid() && Lit(start, earlier)
      requires forall id :: id in ids ==> id in ss
      modifies this`activeSensors, fogGrid.cells
      ensures Lit(start, earlier + StructureSensors(faction, mult, ss, ids))
    {
      hide StampAll, Stamp, Reach;
      assert earlier + [] == earlier;
      for i := 0 to |ids|
        invariant Lit(start, earlier + StructureSensors(faction, mult, ss, ids[..i]))
      {
        assert ids[..i + 1][..i] == ids[..i];
        var s := ss[ids[i]];
        ghost var gathered := StructureSensors(faction, mult, ss, ids[..i]);
        if s.faction == faction && s.emits {
          var sensor := Sensor(s.position, Reach(s.sensorRadius, mult));
          LitOneMore(start, earlier + gathered, sensor);
          Emit(sensor);
          assert fogGrid.Contents() == StampAll(start, activeSensors);
          assert activeSensors == earlier + (gathered + [sensor]);
        }
      }
      assert ids[..|ids|] == ids;
    }

    method CollectAvatars(ghost start: Cells, ghost earlier: seq<Sensor>, mult: real, avatars: seq<Avatar>)
      requires Valid() && Lit(start, earlier)
      modifies this`activeSensors, fogGrid.cells
      ensures Lit(start, earlier + AvatarSensors(faction, mult, avatars))
    {
      hide StampAll, Stamp, Reach;
      assert earlier + [] == earlier;
      for i := 0 to |avatars|
        invariant Lit(start, earlier + AvatarSensors(faction, mult, avatars[..i]))
      {
        assert avatars[..i + 1][..i] == avatars[..i];
        var a := avatars[i];
        ghost var gathered := AvatarSensors(faction, mult, avatars[..i]);
        if a.faction == faction {
          var sensor := Sensor(a.position, Reach(AVATAR_SENSOR_RADIUS, mult));
          LitOneMore(start, earlier + gathered, sensor);
          Emit(sensor);
          assert fogGrid.Contents() == StampAll(start, activeSensors);
          assert activeSensors == earlier + (gathered + [sensor]);
        }
      }
      assert avatars[..|avatars|] == avatars;
    }

    // ---------------------------------------------------------------- sight

    method InAnySensor(p: Position) returns (found: bool)
      ensures found <==> InSensor(activeSensors, p)
    {
      hide InRange;
      for i := 0 to |activeSensors|
        invariant !InSensor(activeSensors[..i], p)
      {
        assert activeSensors[..i + 1] == activeSensors[..i] + [activeSensors[i]];
        if InRange(activeSensors[i], p.x, p.z) {
          return true;
        }
      }
      assert activeSensors[..|activeSensors|] == activeSensors;
      return false;
    }

    method SeesPosition(p: Position) returns (seen: bool)
      requires Valid()
      ensures seen <==> Sees(View(activeSensors, fogGrid.Contents()), p)
    {
      hide InSensor, Column, Row;
      seen := InAnySensor(p);
      if !seen {
        var (inside, cx, cz) := WorldToCell(p.x, p.z);
        if inside {
          CellLaw(cx, cz);
          seen := fogGrid.cells[Index(cx, cz)] == Visible;
        }
      }
    }

    /** One contact: in view, and on record unless it was in view a tick ago. */
    method Note(tick: nat, entity: nat, position: Position, journal: SightingJournal)
      modifies this`visibleEntities, journal
      ensures visibleEntities == old(visibleEntities) + {entity}
      ensures journal.events == if entity in previousVisibleEntities then old(journal.events)
                                else old(journal.events) + [EntitySpotted(tick, faction, entity, position)]
    {
      visibleEntities := visibleEntities + {entity};
      if entity !in previousVisibleEntities {
        journal.Record(EntitySpotted(tick, faction, entity, position));
      }
    }

    /** What has been noted so far: these contacts, on top of a journal that held `start`. */
    ghost predicate Noted(tick: nat, journal: SightingJournal, start: seq<Sighting>, contacts: seq<Contact>)
      reads this, journal
    {
      && visibleEntities == Entities(contacts)
      && journal.events == start + Spotted(faction, tick, previousVisibleEntities, contacts)
    }

    lemma NotedOneMore(tick: nat, start: seq<Sighting>, contacts: seq<Contact>, c: Contact)
      ensures Entities(contacts + [c]) == Entities(contacts) + {c.entity}
      ensures start + Spotted(faction, tick, previousVisibleEntities, contacts + [c]) ==
              if c.entity in previousVisibleEntities
              then start + Spotted(faction, tick, previousVisibleEntities, contacts)
              else start + Spotted(faction, tick, previousVisibleEntities, contacts) +
                   [EntitySpotted(tick, faction, c.entity, c.position)]
    {
      assert (contacts + [c])[..|contacts|] == contacts;
    }

    method SpotRobots(tick: nat, rs: seq<Robot>, journal: SightingJournal, ghost start: seq<Sighting>)
      requires Valid() && Noted(tick, journal, start, [])
      modifies this`visibleEntities, journal
      ensures Noted(tick, journal, start, RobotContacts(faction, View(activeSensors, fogGrid.Contents()), rs))
    {
      hide Sees, Entities, Spotted;
      ghost var v := View(activeSensors, fogGrid.Contents());
      for i := 0 to |rs|
        invariant Noted(tick, journal, start, RobotContacts(faction, v, rs[..i]))
      {
        assert rs[..i + 1][..i] == rs[..i];
        var r := rs[i];
        if r.faction != faction && r.hp > 0 {
          var seen := SeesPosition(r.position);
          if seen {
            NotedOneMore(tick, start, RobotContacts(faction, v, rs[..i]), Contact(r.entity, r.position));
            Note(tick, r.entity, r.position, journal);
          }
        }
      }
      assert rs[..|rs|] == rs;
    }

    method SpotAvatars(tick: nat, avatars: seq<Avatar>, journal: SightingJournal, ghost start: seq<Sighting>,
                       ghost earlier: seq<Contact>)
      requires Valid() && Noted(tick, journal, start, earlier)
      modifies this`visibleEntities, journal
      ensures Noted(tick, journal, start,
                    earlier + AvatarContacts(faction, View(activeSensors, fogGrid.Contents()), avatars))
    {
      hide Sees, Entities, Spotted;
      ghost var v := View(activeSensors, fogGrid.Contents());
      assert earlier + [] == earlier;
      for i := 0 to |avatars|
        invariant Noted(tick, journal, start, earlier + AvatarContacts(faction, v, avatars[..i]))
      {
        assert avatars[..i + 1][..i] == avatars[..i];
        var a := avatars[i];
        ghost var found := AvatarContacts(faction, v, avatars[..i]);
        if a.faction != faction {
          var seen := SeesPosition(a.position);
          if seen {
            var c := Contact(a.entity, a.position);
            NotedOneMore(tick, start, earlier + found, c);
            assert earlier + (found + [c]) == earlier + found + [c];
            Note(tick, a.entity, a.position, journal);
          }
        }
      }
      assert avatars[..|avatars|] == avatars;
    }

    method SpotStructures(tick: nat, ss: map<nat, Structure>, ids: seq<nat>, journal: SightingJournal,
                          ghost start: seq<Sighting>, ghost earlier: seq<Contact>)
      requires Valid() && Noted(tick, journal, start, earlier)
      requires forall id :: id in ids ==> id in ss
      modifies this`visibleEntities, this`ghostStructures, journal
      ensures var v := View(activeSensors, fogGrid.Contents());
        && Noted(tick, journal, start, earlier + StructureContacts(faction, v, ss, ids))
        && ghostStructures == Refreshed(old(ghostStructures), faction, tick, v, ss, ids)
    {
      hide Sees, Entities, Spotted;
      ghost var v := View(activeSensors, fogGrid.Contents());
      assert earlier + [] == earlier;
      for i := 0 to |ids|
        invariant Noted(tick, journal, start, earlier + StructureContacts(faction, v, ss, ids[..i]))
        invariant ghostStructures == Refreshed(old(ghostStructures), faction, tick, v, ss, ids[..i])
      {
        assert ids[..i + 1][..i] == ids[..i];
        var s := ss[ids[i]];
        ghost var found := StructureContacts(faction, v, ss, ids[..i]);
        if s.faction != faction && s.live {
          var seen := SeesPosition(s.position);
          if seen {
            var c := Contact(ids[i], s.position);
            NotedOneMore(tick, start, earlier + found, c);
            assert earlier + (found + [c]) == earlier + found + [c];
            Note(tick, ids[i], s.position, journal);
            ghostStructures := ghostStructures[ids[i] := GhostOf(s, tick)];
          }
        }
      }
      assert ids[..|ids|] == ids;
    }

    // ---------------------------------------------------------------- clean-up

    method StaleGhosts(ss: map<nat, Structure>, ids: seq<nat>) returns (stale: set<nat>)
      requires Valid() && forall id :: id in ids ==> id in ghostStructures
      ensures var v := View(activeSensors, fogGrid.Contents());
        forall id :: id in stale <==> id in ids && Stale(v, ss, id, ghostStructures[id])
    {
      hide Sees;
      ghost var v := View(activeSensors, fogGrid.Contents());
      stale := {};
      for i := 0 to |ids|
        invariant forall id :: id in stale <==> id in ids[..i] && Stale(v, ss, id, ghostStructures[id])
      {
        assert ids[..i + 1] == ids[..i] + [ids[i]];
        var visible := SeesPosition(ghostStructures[ids[i]].position);
        if visible && !Alive(ss, ids[i]) {
          stale := stale + {ids[i]};
        }
      }
      assert ids[..|ids|] == ids;
    }

    method PurgeGhosts(ss: map<nat, Structure>)
      requires Valid()
      modifies this`ghostStructures
      ensures ghostStructures == Surviving(old(ghostStructures), View(activeSensors, fogGrid.Contents()), ss)
    {
      hide Stale, Ascending;
      var stale := StaleGhosts(ss, Ascending(ghostStructures.Keys));
      ghostStructures := ghostStructures - stale;
    }

    method RecordLost(tick: nat, previous: seq<nat>, journal: SightingJournal)
      modifies journal
      ensures journal.events == old(journal.events) + LostFrom(faction, tick, previous, visibleEntities)
    {
      for i := 0 to |previous|
        invariant journal.events == old(journal.events) + LostFrom(faction, tick, previous[..i], visibleEntities)
      {
        assert previous[..i + 1][..i] == previous[..i];
        if previous[i] !in visibleEntities {
          journal.Record(EntityLost(tick, faction, previous[i]));
        }
      }
      assert previous[..|previous|] == previous;
    }

    // ---------------------------------------------------------------- the step

    method Look(mult: real, w: Census)
      requires Valid()
      modifies this, fogGrid.cells
      ensures Value() == Knowledge(Frame(old(fogGrid.Contents()), Sensors(faction, mult, w)), {},
                                   old(visibleEntities), old(ghostStructures), Sensors(faction, mult, w))
    {
      hide StampAll, RobotSensors, StructureSensors, AvatarSensors, Ascending;
      previousVisibleEntities, visibleEntities := visibleEntities, {};
      fogGrid.BeginTick();
      activeSensors := [];
      ghost var start := fogGrid.Contents();
      assert Lit(start, []) by { NothingStamped(start); }
      CollectRobots(start, mult, w.robots);
      var ids := Ascending(w.structures.Keys);
      CollectStructures(start, activeSensors, mult, w.structures, ids);
      CollectAvatars(start, activeSensors, mult, w.avatars);
    }

    lemma NothingStamped(start: Cells)
      ensures StampAll(start, []) == start
    {
    }

    method Spot(tick: nat, w: Census, journal: SightingJournal)
      requires Valid() && visibleEntities == {}
      modifies this`visibleEntities, this`ghostStructures, journal
      ensures var v := View(activeSensors, fogGrid.Contents());
        && visibleEntities == Entities(Contacts(faction, v, w))
        && journal.events == old(journal.events) +
             Spotted(faction, tick, previousVisibleEntities, Contacts(faction, v, w))
        && ghostStructures ==
             Refreshed(old(ghostStructures), faction, tick, v, w.structures, Ascending(w.structures.Keys))
    {
      hide RobotContacts, AvatarContacts, StructureContacts, Refreshed, Ascending;
      ghost var v := View(activeSensors, fogGrid.Contents());
      ghost var start := journal.events;
      assert start + [] == start;
      SpotRobots(tick, w.robots, journal, start);
      ghost var rs := RobotContacts(faction, v, w.robots);
      SpotAvatars(tick, w.avatars, journal, start, rs);
      ghost var avs := AvatarContacts(faction, v, w.avatars);
      SpotStructures(tick, w.structures, Ascending(w.structures.Keys), journal, start, rs + avs);
    }

    method Step(tick: nat, mult: real, w: Census, journal: SightingJournal)
      requires Valid()
      modifies this, fogGrid.cells, journal
      ensures Value() == After(old(Value()), faction, tick, mult, w)
      ensures journal.events == old(journal.events) + Recorded(old(Value()), faction, tick, mult, w)
    {
      hide Sensors, Frame, Contacts, Entities, Spotted, LostFrom, Refreshed, Surviving, Ascending;
      Look(mult, w);
      Spot(tick, w, journal);
      PurgeGhosts(w.structures);
      RecordLost(tick, Ascending(previousVisibleEntities), journal);
    }
  }

  class KnowledgeManager {
    var factions: map<nat, FactionKnowledge>
    ghost var Repr: set<object>

    /** Every faction has its own entry and its own grid, all of them owned here. */
    ghost predicate Valid()
      reads this
    {
      && (forall f :: f in factions ==>
            && factions[f].faction == f && factions[f].Valid()
            && factions[f] in Repr && factions[f].fogGrid.cells in Repr)
      && (forall f, g :: f in factions && g in factions && f != g ==>
            factions[f].fogGrid.cells != factions[g].fogGrid.cells)
    }

    ghost function Value(): Factions
      requires Valid()
      reads this, Repr
    {
      map f | f in factions :: factions[f].Value()
    }

    constructor ()
      ensures Valid() && Value() == map[] && Repr == {}
    {
      factions, Repr := map[], {};
    }

    method Create(f: nat)
      requires Valid() && f !in factions
      modifies this
      ensures Valid() && fresh(Repr - old(Repr))
      ensures f in factions && Value() == old(Value())[f := NewKnowledge()]
    {
      hide NewKnowledge, Shroud;
      var k := new FactionKnowledge(f);
      assert k.Value() == NewKnowledge();
      factions := factions[f := k];
      Repr := Repr + {k, k.fogGrid.cells};
    }

    /** Stepping one faction's entry changes that entry and no other. */
    method StepEntry(f: nat, tick: nat, mult: real, w: Census, journal: SightingJournal)
      requires Valid() && f in factions
      modifies factions[f], factions[f].fogGrid.cells, journal
      ensures Valid()
      ensures Value() == old(Value())[f := After(old(Value())[f], f, tick, mult, w)]
      ensures journal.events == old(journal.events) + Recorded(old(Value())[f], f, tick, mult, w)
    {
      hide After, Recorded;
      var k := factions[f];
      k.Step(tick, mult, w, journal);
    }

    method StepFaction(f: nat, t: Moment, journal: SightingJournal)
      requires Valid()
      modifies this, Repr, journal
      ensures Valid() && fresh(Repr - old(Repr))
      ensures var k := Of(old(Value()), f);
        && Value() == old(Value())[f := After(k, f, t.tick, t.mult(f), t.census)]
        && journal.events == old(journal.events) + Recorded(k, f, t.tick, t.mult(f), t.census)
    {
      hide After, Recorded, NewKnowledge;
      if f !in factions {
        Create(f);
      }
      StepEntry(f, t.tick, t.mult(f), t.census, journal);
    }

    /** One tick of sensing for every faction, in identifier order. */
    method Step(t: Moment, journal: SightingJournal)
      requires Valid()
      modifies this, Repr, journal
      ensures Valid() && fresh(Repr - old(Repr))
      ensures Ledger(Value(), journal.events) == StepMoment(Ledger(old(Value()), old(journal.events)), t)
    {
      hide After, Recorded, Ascending, ActiveFactions, NewKnowledge;
      ghost var start := Ledger(Value(), journal.events);
      assert start.factions.Keys == factions.Keys;
      var fs := Ascending(ActiveFactions(factions.Keys, t.census));
      for i := 0 to |fs|
        invariant Valid() && fresh(Repr - old(Repr))
        invariant Ledger(Value(), journal.events) == StepAll(start, t, fs[..i])
      {
        assert fs[..i + 1][..i] == fs[..i];
        StepFaction(fs[i], t, journal);
      }
      assert fs[..|fs|] == fs;
    }
  }
}
