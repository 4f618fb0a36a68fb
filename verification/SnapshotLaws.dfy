/** Who is sent a snapshot, and what it shows. */
module SnapshotLaws {
  import opened Words
  import opened Wrappers
  import opened Protocol
  import opened OrderedKeys
  import opened Sessions
  import opened ServerSteps

  /** The active sessions among `ids`, in order. */
  ghost function Audience(sessions: SessionTable, ids: seq<nat>): seq<nat>
    requires forall id :: id in ids ==> id in sessions
  {
    if ids == [] then []
    else
      var before, id := Audience(sessions, ids[..|ids| - 1]), ids[|ids| - 1];
      if sessions[id].IsActive() then before + [id] else before
  }

  ghost predicate Climbing(ids: seq<nat>) {
    forall i, j :: 0 <= i < j < |ids| ==> ids[i] < ids[j]
  }

  lemma ClimbingSnoc(ids: seq<nat>, id: nat)
    requires Climbing(ids) && forall x :: x in ids ==> x < id
    ensures Climbing(ids + [id])
  {
    assert forall i :: 0 <= i < |ids| ==> ids[i] in ids;
  }

  /** What one session may see: what its faction knows, or everything for a spectator. */
  ghost predicate MaySee<W(!new)>(engine: Engine<W>, world: W, faction: u32, e: EntitySnapshot) {
    faction == 0 || engine.knows(world, faction, e.id)
  }

  /** `view` takes from `all` the elements at the places `at`, in order and once each. */
  ghost predicate Picks(all: seq<EntitySnapshot>, at: seq<nat>, view: seq<EntitySnapshot>) {
    && |view| == |at| && Climbing(at)
    && forall i :: 0 <= i < |at| ==> at[i] < |all| && view[i] == all[at[i]]
  }

  /** The places picked are exactly those of the entities the session may see. */
  ghost predicate PicksVisible<W(!new)>(engine: Engine<W>, world: W, faction: u32, all: seq<EntitySnapshot>,
                                        view: seq<EntitySnapshot>, at: seq<nat>) {
    && Picks(all, at, view)
    && forall p: nat :: p in at <==> p < |all| && MaySee(engine, world, faction, all[p])
  }

  /** One session's view of the world: the entities it may see, in the world's order and once each. */
  ghost predicate Shows<W(!new)>(engine: Engine<W>, world: W, faction: u32, view: seq<EntitySnapshot>) {
    exists at :: PicksVisible(engine, world, faction, engine.entities(world), view, at)
  }

  lemma PicksSnoc(all: seq<EntitySnapshot>, last: EntitySnapshot, at: seq<nat>, view: seq<EntitySnapshot>)
    requires Picks(all, at, view)
    ensures Picks(all + [last], at, view)
    ensures Picks(all + [last], at + [|all|], view + [last])
  {
    assert forall i :: 0 <= i < |at| ==> (all + [last])[at[i]] == all[at[i]];
    assert forall p :: p in at ==> p < |all|;
    ClimbingSnoc(at, |all|);
  }

  lemma NothingPicked(all: seq<EntitySnapshot>, at: seq<nat>, view: seq<EntitySnapshot>)
    requires at == [] && view == []
    ensures Picks(all, at, view)
  {
  }

  lemma {:induction false} KnownPicks<W(!new)>(engine: Engine<W>, world: W, faction: u32, es: seq<EntitySnapshot>)
    returns (at: seq<nat>)
    requires faction != NULL_FACTION
    ensures PicksVisible(engine, world, faction, es, Known(engine, world, faction, es), at)
  {
    hide Picks;
    at := [];
    if es == [] {
      NothingPicked(es, at, Known(engine, world, faction, es));
    } else {
      var before, last := es[..|es| - 1], es[|es| - 1];
      at := KnownPicks(engine, world, faction, before);
      PicksSnoc(before, last, at, Known(engine, world, faction, before));
      assert es == before + [last];
      if engine.knows(world, faction, last.id) {
        at := at + [|before|];
      }
    }
  }

  lemma AllPicked(es: seq<EntitySnapshot>) returns (at: seq<nat>)
    ensures Picks(es, at, es)
    ensures forall p: nat :: p in at <==> p < |es|
  {
    at := seq(|es|, i => i);
    forall p: nat ensures p in at <==> p < |es| {
      if p < |es| {
        assert at[p] == p;
      }
    }
  }

  /** Either build's snapshot for a session shows exactly what it may see. */
  lemma SnapshotShows<W(!new)>(engine: Engine<W>, world: W, tick: nat, x: Session)
    ensures var p := SnapshotFor(engine, world, tick, x);
      p.SnapshotPayload? && p.serverTick == Word(tick) && Shows(engine, world, x.faction, p.entities)
  {
    hide Word, Picks, Known;
    var all := engine.entities(world);
    if x.faction == NULL_FACTION {
      var at := AllPicked(all);
      assert PicksVisible(engine, world, x.faction, all, all, at);
    } else {
      var at := KnownPicks(engine, world, x.faction, all);
      assert PicksVisible(engine, world, x.faction, all, Known(engine, world, x.faction, all), at);
    }
  }

  lemma PickedShown(all: seq<EntitySnapshot>, at: seq<nat>, view: seq<EntitySnapshot>, p: nat)
    requires Picks(all, at, view) && p in at
    ensures p < |all| && all[p] in view
  {
    var i :| 0 <= i < |at| && at[i] == p;
    assert view[i] == all[p];
  }

  lemma ShownPicked(all: seq<EntitySnapshot>, at: seq<nat>, view: seq<EntitySnapshot>, e: EntitySnapshot)
    returns (p: nat)
    requires Picks(all, at, view) && e in view
    ensures p in at && p < |all| && all[p] == e
  {
    var i :| 0 <= i < |view| && view[i] == e;
    p := at[i];
  }

  lemma ShowsMembers<W(!new)>(engine: Engine<W>, world: W, faction: u32, view: seq<EntitySnapshot>, e: EntitySnapshot)
    requires Shows(engine, world, faction, view)
    ensures e in view <==> e in engine.entities(world) && MaySee(engine, world, faction, e)
  {
    hide Picks, MaySee;
    var all := engine.entities(world);
    var at :| PicksVisible(engine, world, faction, all, view, at);
    if e in view {
      var p := ShownPicked(all, at, view, e);
    } else if e in all && MaySee(engine, world, faction, e) {
      var p: nat :| p < |all| && all[p] == e;
      PickedShown(all, at, view, p);
    }
  }

  lemma {:induction false} AudienceMembers(sessions: SessionTable, ids: seq<nat>)
    requires forall id :: id in ids ==> id in sessions
    ensures forall id :: id in Audience(sessions, ids) <==> id in ids && sessions[id].IsActive()
  {
    if ids == [] {
    } else {
      AudienceMembers(sessions, ids[..|ids| - 1]);
      assert ids == ids[..|ids| - 1] + [ids[|ids| - 1]];
    }
  }

  lemma {:induction false} AudienceClimbs(sessions: SessionTable, ids: seq<nat>)
    requires forall id :: id in ids ==> id in sessions
    requires Climbing(ids)
    ensures Climbing(Audience(sessions, ids))
  {
    if ids == [] {
    } else {
      var before, id := ids[..|ids| - 1], ids[|ids| - 1];
      AudienceClimbs(sessions, before);
      AudienceMembers(sessions, before);
      if sessions[id].IsActive() {
        ClimbingSnoc(Audience(sessions, before), id);
      }
    }
  }

  /** The packet for one session shows what that session may see. */
  ghost predicate Addressed<W(!new)>(engine: Engine<W>, world: W, tick: nat, sent: nat, x: Session, id: nat, p: Packet)
  {
    && p.header == Header(1, id % 0x1_0000_0000_0000_0000, sent % 0x1_0000_0000_0000_0000, 3)
    && p.payload.SnapshotPayload?
    && p.payload.serverTick == tick % 0x1_0000_0000_0000_0000
    && Shows(engine, world, x.faction, p.payload.entities)
  }

  lemma {:induction false} SnapshotsLaw<W(!new)>(engine: Engine<W>, world: W, tick: nat, sent: nat,
                                                 sessions: SessionTable, ids: seq<nat>)
    requires forall id :: id in ids ==> id in sessions
    ensures var ps, to := Snapshots(engine, world, tick, sent, sessions, ids), Audience(sessions, ids);
      && |ps| == |to|
      && forall i :: 0 <= i < |ps| ==>
           to[i] in sessions && Addressed(engine, world, tick, sent, sessions[to[i]], to[i], ps[i])
  {
    hide Shows, SnapshotFor;
    if ids == [] {
    } else {
      var id := ids[|ids| - 1];
      SnapshotsLaw(engine, world, tick, sent, sessions, ids[..|ids| - 1]);
      SnapshotShows(engine, world, tick, sessions[id]);
      if sessions[id].IsActive() {
        var p := Packet(Header(PROTOCOL_VERSION, Word(id), Word(sent), 3),
                        SnapshotFor(engine, world, tick, sessions[id]));
        assert Addressed(engine, world, tick, sent, sessions[id], id, p);
      }
    }
  }

  /**
   A broadcast sends one snapshot to every active session and to no other, in session order and
   under one fresh number; each shows exactly the entities its faction knows, in the world's order
   and once each.
   */
  lemma BroadcastReaches<W(!new)>(st: Settings<W>, s: State<W>) returns (to: seq<nat>, ps: seq<Packet>)
    requires s.sessions != map[]
    ensures Broadcast(st, s).outbox == s.outbox + ps && Broadcast(st, s).sent == s.sent + 1
    ensures forall id :: id in to <==> id in s.sessions && s.sessions[id].IsActive()
    ensures Climbing(to)
    ensures |ps| == |to|
    ensures forall i :: 0 <= i < |ps| ==>
              to[i] in s.sessions &&
              Addressed(st.engine, s.world, s.tick, s.sent + 1, s.sessions[to[i]], to[i], ps[i])
  {
    hide Addressed, Audience, Snapshots, Climbing, Session.IsActive;
    var ids := Ascending(s.sessions.Keys);
    to := Audience(s.sessions, ids);
    ps := Snapshots(st.engine, s.world, s.tick, s.sent + 1, s.sessions, ids);
    AudienceMembers(s.sessions, ids);
    AudienceClimbs(s.sessions, ids);
    SnapshotsLaw(st.engine, s.world, s.tick, s.sent + 1, s.sessions, ids);
  }
}
