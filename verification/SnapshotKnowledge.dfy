/** Snapshots over the knowledge of factions: a player is shown a hostile exactly while it is seen. */
module SnapshotKnowledge {
  import opened Words
  import opened Wrappers
  import opened Protocol
  import opened OrderedKeys
  import opened Sessions
  import opened ServerSteps
  import opened SnapshotLaws
  import K = Knowledge
  import KnowledgeLaws
  import Sight

  /** The engine answers from the knowledge of factions. */
  ghost predicate AnswersFrom<W(!new)>(engine: Engine<W>, world: W, m: K.Factions, w: K.Census) {
    forall f: u32, e: u64 :: engine.knows(world, f, e) <==> K.KnowsEntity(m, f, e, w)
  }

  /** Nobody's neutral or own entity. */
  predicate Hostile(w: K.Census, f: nat, e: nat) {
    e in w.registry && w.registry[e] != f && w.registry[e] != 0
  }

  /** After a run a player's faction knows a hostile exactly when it detects it at the last moment. */
  lemma KnownIffInSight(ts: seq<K.Moment>, f: nat, e: nat)
    requires ts != [] && f != 0 && Hostile(ts[|ts| - 1].census, f, e)
    ensures K.KnowsEntity(KnowledgeLaws.Past(ts).factions, f, e, ts[|ts| - 1].census) <==>
            Sight.SeenAt(ts, |ts| - 1, f, e)
  {
    hide Sight.SeenAt, Sight.LastWatched, K.KnowsEntity, KnowledgeLaws.Past;
    Sight.KnowsIff(ts, f, e);
  }

  /**
   A broadcast after any run: the snapshot of an active session shows an entity of the world exactly
   when the session's faction is a spectator's, owns it, sees it at that moment or remembers it, or
   it is nobody's.
   */
  lemma SnapshotShowsWhatIsInSight<W(!new)>(st: Settings<W>, s: State<W>, ts: seq<K.Moment>, id: nat,
                                            e: EntitySnapshot) returns (p: Packet)
    requires ts != [] && AnswersFrom(st.engine, s.world, KnowledgeLaws.Past(ts).factions, ts[|ts| - 1].census)
    requires id in s.sessions && s.sessions[id].IsActive() && e in st.engine.entities(s.world)
    ensures p in Broadcast(st, s).outbox && p.header.session == Word(id) && p.payload.SnapshotPayload?
    ensures e in p.payload.entities <==> Sight.Knows(ts, s.sessions[id].faction, e.id)
  {
    hide KnowledgeLaws.Past, K.KnowsEntity, Sight.SeenAt, Sight.LastWatched, Broadcast, Shows;
    var f := s.sessions[id].faction;
    assert s.sessions != map[];
    var to, ps := BroadcastReaches(st, s);
    var i :| 0 <= i < |to| && to[i] == id;
    p := ps[i];
    assert p in s.outbox + ps by {
      assert (s.outbox + ps)[|s.outbox| + i] == p;
    }
    ShowsMembers(st.engine, s.world, f, p.payload.entities, e);
    Sight.KnowsIff(ts, f, e.id);
  }
}
