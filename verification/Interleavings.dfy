/** The order in which different sessions' commands arrive between two ticks decides nothing. */
module Interleavings {
  import opened Words
  import opened Wrappers
  import opened Protocol
  import opened Sessions
  import opened CommandBuffers
  import opened AdminRoles
  import opened Tokens
  import opened ServerSteps

  predicate Claims(i: Inbound, k: nat) {
    i.packet.payload.CommandPayload? && i.packet.payload.session == k
  }

  /** What one session has to do with a batch: its own commands and every packet that is no command. */
  predicate Concerns(i: Inbound, k: nat) {
    i.packet.payload.CommandPayload? ==> i.packet.payload.session == k
  }

  /** The packets that concern one session, in order. */
  ghost function Stream(batch: seq<Inbound>, k: nat): seq<Inbound>
    decreases |batch|
  {
    if batch == [] then []
    else
      var before, last := Stream(batch[..|batch| - 1], k), batch[|batch| - 1];
      if Concerns(last, k) then before + [last] else before
  }

  /** Equal in everything but how the buffer interleaves its sessions. */
  ghost predicate Interleaved<W(!new)>(s: State<W>, t: State<W>) {
    && s == t.(buffer := s.buffer)
    && forall k :: OfSession(s.buffer, k) == OfSession(t.buffer, k)
  }

  // ---------------------------------------------------------------- one packet

  lemma PushInterleaves(a: seq<Envelope>, b: seq<Envelope>, e: Envelope)
    requires forall k :: OfSession(a, k) == OfSession(b, k)
    ensures forall k :: OfSession(a + [e], k) == OfSession(b + [e], k)
  {
    forall k ensures OfSession(a + [e], k) == OfSession(b + [e], k) {
      OfSessionConcat(a, [e], k);
      OfSessionConcat(b, [e], k);
    }
  }

  lemma IngestRespects<W(!new)>(build: Build, st: Settings<W>, s: State<W>, t: State<W>, e: Envelope,
                                source: Option<SocketAddr>)
    requires Interleaved(s, t)
    ensures Interleaved(Ingest(build, st, s, e, source), Ingest(build, st, t, e, source))
  {
    hide Rule;
    PushInterleaves(s.buffer, t.buffer, e);
  }

  lemma PushOrder(buffer: seq<Envelope>, d: Envelope, e: Envelope)
    requires d.session != e.session
    ensures forall k :: OfSession(buffer + [d] + [e], k) == OfSession(buffer + [e] + [d], k)
  {
    forall k ensures OfSession(buffer + [d] + [e], k) == OfSession(buffer + [e] + [d], k) {
      OfSessionConcat(buffer, [d], k);
      OfSessionConcat(buffer + [d], [e], k);
      OfSessionConcat(buffer, [e], k);
      OfSessionConcat(buffer + [e], [d], k);
    }
  }

  /** A packet's ruling is not touched by another session's packet. */
  lemma RulingIsLocal<W(!new)>(build: Build, st: Settings<W>, s: State<W>, d: Envelope, r: Ruling, e: Envelope,
                               source: Option<SocketAddr>)
    requires d.session != e.session
    ensures RuleFor(build, st, Enforce(s, d, r), e, source) == RuleFor(build, st, s, e, source)
  {
    hide Rule;
  }

  lemma EnforceCommutes<W(!new)>(s: State<W>, d: Envelope, q: Ruling, e: Envelope, r: Ruling)
    requires d.session != e.session
    ensures Interleaved(Enforce(Enforce(s, d, q), e, r), Enforce(Enforce(s, e, r), d, q))
  {
    PushOrder(s.buffer, d, e);
    var a, b := Enforce(Enforce(s, d, q), e, r), Enforce(Enforce(s, e, r), d, q);
    assert a.sessions == b.sessions;
    assert s.roles - {d.session} - {e.session} == s.roles - {e.session} - {d.session};
  }

  lemma IngestCommutes<W(!new)>(build: Build, st: Settings<W>, s: State<W>, d: Envelope, from: Option<SocketAddr>,
                                e: Envelope, source: Option<SocketAddr>)
    requires d.session != e.session
    ensures Interleaved(Ingest(build, st, Ingest(build, st, s, d, from), e, source),
                        Ingest(build, st, Ingest(build, st, s, e, source), d, from))
  {
    hide RuleFor, Enforce, Interleaved;
    var q, r := RuleFor(build, st, s, d, from), RuleFor(build, st, s, e, source);
    RulingIsLocal(build, st, s, d, q, e, source);
    RulingIsLocal(build, st, s, e, r, d, from);
    EnforceCommutes(s, d, q, e, r);
  }

  lemma OtherRespects<W(!new)>(build: Build, st: Settings<W>, s: State<W>, t: State<W>, p: Inbound)
    requires Interleaved(s, t) && !p.packet.payload.CommandPayload?
    ensures Interleaved(Handle(build, st, s, p), Handle(build, st, t, p))
  {
    hide NewSession, TokenOf, WrappingAdd;
  }

  lemma HandleRespects<W(!new)>(build: Build, st: Settings<W>, s: State<W>, t: State<W>, p: Inbound)
    requires Interleaved(s, t)
    ensures Interleaved(Handle(build, st, s, p), Handle(build, st, t, p))
  {
    hide Ingest, NewSession, TokenOf, WrappingAdd, Interleaved;
    if p.packet.payload.CommandPayload? {
      IngestRespects(build, st, s, t, EnvelopeOf(p.packet.payload), p.source);
    } else {
      OtherRespects(build, st, s, t, p);
    }
  }

  lemma HandleCommutes<W(!new)>(build: Build, st: Settings<W>, s: State<W>, p: Inbound, q: Inbound)
    requires p.packet.payload.CommandPayload? && q.packet.payload.CommandPayload?
    requires p.packet.payload.session != q.packet.payload.session
    ensures Interleaved(Handle(build, st, Handle(build, st, s, p), q), Handle(build, st, Handle(build, st, s, q), p))
  {
    hide Interleaved, Ingest;
    IngestCommutes(build, st, s, EnvelopeOf(p.packet.payload), p.source, EnvelopeOf(q.packet.payload), q.source);
  }

  lemma InterleavedTrans<W(!new)>(s: State<W>, t: State<W>, u: State<W>)
    requires Interleaved(s, t) && Interleaved(t, u)
    ensures Interleaved(s, u)
  {
  }

  // ---------------------------------------------------------------- batches

  lemma {:induction false} ReceiveConcat<W(!new)>(build: Build, st: Settings<W>, s: State<W>, a: seq<Inbound>,
                                                  b: seq<Inbound>)
    ensures Receive(build, st, s, a + b) == Receive(build, st, Receive(build, st, s, a), b)
    decreases |b|
  {
    hide Handle;
    if b == [] {
      assert a + b == a;
    } else {
      assert (a + b)[..|a + b| - 1] == a + b[..|b| - 1];
      ReceiveConcat(build, st, s, a, b[..|b| - 1]);
    }
  }

  /** A command may be handled behind any commands of other sessions instead of before them. */
  lemma {:induction false} MoveBehind<W(!new)>(build: Build, st: Settings<W>, s: State<W>, p: Inbound, b: seq<Inbound>,
                                               k: nat)
    requires Claims(p, k) && Stream(b, k) == []
    ensures Interleaved(Receive(build, st, Handle(build, st, s, p), b), Handle(build, st, Receive(build, st, s, b), p))
    decreases |b|
  {
    hide Handle, Interleaved;
    if b == [] {
      SelfInterleaved(Handle(build, st, s, p));
    } else {
      var before, q := b[..|b| - 1], b[|b| - 1];
      var mid := Receive(build, st, s, before);
      MoveBehind(build, st, s, p, before, k);
      HandleRespects(build, st, Receive(build, st, Handle(build, st, s, p), before), Handle(build, st, mid, p), q);
      HandleCommutes(build, st, mid, p, q);
      InterleavedTrans(Handle(build, st, Receive(build, st, Handle(build, st, s, p), before), q),
                       Handle(build, st, Handle(build, st, mid, p), q),
                       Handle(build, st, Handle(build, st, mid, q), p));
    }
  }

  lemma SelfInterleaved<W(!new)>(s: State<W>)
    ensures Interleaved(s, s)
  {
  }

  lemma {:induction false} StreamConcat(a: seq<Inbound>, b: seq<Inbound>, k: nat)
    ensures Stream(a + b, k) == Stream(a, k) + Stream(b, k)
    decreases |b|
  {
    if b == [] {
      assert a + b == a;
    } else {
      assert (a + b)[..|a + b| - 1] == a + b[..|b| - 1];
      StreamConcat(a, b[..|b| - 1], k);
    }
  }

  /** The last packet that concerns a session splits the batch. */
  lemma {:induction false} LastConcern(batch: seq<Inbound>, k: nat) returns (a: seq<Inbound>, b: seq<Inbound>)
    requires Stream(batch, k) != []
    ensures batch == a + [Stream(batch, k)[|Stream(batch, k)| - 1]] + b
    ensures Stream(b, k) == []
    decreases |batch|
  {
    var before, last := batch[..|batch| - 1], batch[|batch| - 1];
    if Concerns(last, k) {
      a, b := before, [];
    } else {
      a, b := LastConcern(before, k);
      b := b + [last];
      StreamConcat(b[..|b| - 1], [last], k);
    }
  }

  lemma DropFrom(a: seq<Inbound>, p: Inbound, b: seq<Inbound>, k: nat, j: nat)
    requires Claims(p, k) && Stream(b, k) == []
    ensures Stream(a + [p] + b, j) == if j == k then Stream(a + b, j) + [p] else Stream(a + b, j)
  {
    StreamConcat(a, [p], j);
    StreamConcat(a + [p], b, j);
    StreamConcat(a, b, j);
  }

  lemma PullOut<W(!new)>(build: Build, st: Settings<W>, s: State<W>, a: seq<Inbound>, p: Inbound, b: seq<Inbound>,
                         k: nat)
    requires Claims(p, k) && Stream(b, k) == []
    ensures Interleaved(Receive(build, st, s, a + [p] + b), Handle(build, st, Receive(build, st, s, a + b), p))
  {
    hide Handle, Interleaved;
    ReceiveConcat(build, st, s, a + [p], b);
    ReceiveConcat(build, st, s, a, [p]);
    ReceiveConcat(build, st, s, a, b);
    assert Receive(build, st, Receive(build, st, s, a), [p]) == Handle(build, st, Receive(build, st, s, a), p) by {
      assert [p][..0] == [];
    }
    MoveBehind(build, st, Receive(build, st, s, a), p, b, k);
  }

  lemma InterleavedSym<W(!new)>(s: State<W>, t: State<W>)
    requires Interleaved(s, t)
    ensures Interleaved(t, s)
  {
  }

  /**
   Every session sent the same commands in the same order, and they fall between the same other
   packets: the batches are equal up to reordering commands of different sessions.
   */
  ghost predicate SameStreams(ps: seq<Inbound>, qs: seq<Inbound>) {
    forall k :: Stream(ps, k) == Stream(qs, k)
  }

  lemma DropLast(x: seq<Inbound>, y: seq<Inbound>, p: Inbound)
    requires x + [p] == y + [p]
    ensures x == y
  {
    assert x == (x + [p])[..|x|];
    assert y == (y + [p])[..|y|];
  }

  /** A packet that is no command has the same place in both batches. */
  lemma SameBarrier(ps: seq<Inbound>, qs: seq<Inbound>)
    requires SameStreams(ps, qs)
    requires ps != [] && !ps[|ps| - 1].packet.payload.CommandPayload?
    ensures qs != [] && qs[|qs| - 1] == ps[|ps| - 1]
    ensures SameStreams(ps[..|ps| - 1], qs[..|qs| - 1])
  {
    var p := ps[|ps| - 1];
    assert Stream(ps, 0) == Stream(qs, 0);
    var q := qs[|qs| - 1];
    var k := if q.packet.payload.CommandPayload? then q.packet.payload.session else 0;
    assert Stream(ps, k) == Stream(qs, k);
    assert q == Stream(qs, k)[|Stream(qs, k)| - 1] == Stream(ps, k)[|Stream(ps, k)| - 1] == p;
    var before, rest := ps[..|ps| - 1], qs[..|qs| - 1];
    forall j ensures Stream(before, j) == Stream(rest, j) {
      assert Stream(ps, j) == Stream(qs, j);
      DropLast(Stream(before, j), Stream(rest, j), p);
    }
  }

  /** A command may stand elsewhere in the other batch, with none of its session behind it. */
  lemma SameCommand(ps: seq<Inbound>, qs: seq<Inbound>, k: nat) returns (a: seq<Inbound>, b: seq<Inbound>)
    requires SameStreams(ps, qs)
    requires ps != [] && Claims(ps[|ps| - 1], k)
    ensures qs == a + [ps[|ps| - 1]] + b && Stream(b, k) == []
    ensures SameStreams(ps[..|ps| - 1], a + b)
  {
    var before, p := ps[..|ps| - 1], ps[|ps| - 1];
    assert Stream(ps, k) == Stream(qs, k);
    a, b := LastConcern(qs, k);
    forall j ensures Stream(before, j) == Stream(a + b, j) {
      DropFrom(a, p, b, k, j);
      assert Stream(ps, j) == Stream(qs, j);
      if j == k {
        DropLast(Stream(before, j), Stream(a + b, j), p);
      }
    }
  }

  /** Every packet concerns some session. */
  lemma SomeConcern(batch: seq<Inbound>) returns (k: nat)
    ensures batch != [] ==> Stream(batch, k) != []
  {
    k := 0;
    if batch != [] && batch[|batch| - 1].packet.payload.CommandPayload? {
      k := batch[|batch| - 1].packet.payload.session;
    }
  }

  lemma SilentBatch(ps: seq<Inbound>, qs: seq<Inbound>)
    requires SameStreams(ps, qs) && ps == []
    ensures qs == []
  {
    var k := SomeConcern(qs);
    assert Stream(ps, k) == Stream(qs, k);
  }

  /** Any two such batches leave states that differ in the buffer's interleaving only. */
  lemma {:induction false} InterleavingsAgree<W(!new)>(build: Build, st: Settings<W>, s: State<W>, ps: seq<Inbound>,
                                                       qs: seq<Inbound>)
    requires SameStreams(ps, qs)
    ensures Interleaved(Receive(build, st, s, ps), Receive(build, st, s, qs))
    decreases |ps|
  {
    hide Handle, Interleaved, SameStreams;
    if ps == [] {
      SilentBatch(ps, qs);
      SelfInterleaved(s);
    } else {
      var before, p := ps[..|ps| - 1], ps[|ps| - 1];
      if p.packet.payload.CommandPayload? {
        var k := p.packet.payload.session;
        var a, b := SameCommand(ps, qs, k);
        var mid := Receive(build, st, s, a + b);
        InterleavingsAgree(build, st, s, before, a + b);
        HandleRespects(build, st, Receive(build, st, s, before), mid, p);
        PullOut(build, st, s, a, p, b, k);
        InterleavedSym(Receive(build, st, s, qs), Handle(build, st, mid, p));
        InterleavedTrans(Receive(build, st, s, ps), Handle(build, st, mid, p), Receive(build, st, s, qs));
      } else {
        SameBarrier(ps, qs);
        InterleavingsAgree(build, st, s, before, qs[..|qs| - 1]);
        HandleRespects(build, st, Receive(build, st, s, before), Receive(build, st, s, qs[..|qs| - 1]), p);
      }
    }
  }

  /**
   Confluence: whatever the interleaving, the sessions and every counter are the same, the same
   envelope list is drained, and the tick ends in the same state with the same packets sent.
   */
  lemma ArrivalOrderIsIrrelevant<W(!new)>(build: Build, st: Settings<W>, s: State<W>, ps: seq<Inbound>,
                                          qs: seq<Inbound>)
    requires SameStreams(ps, qs)
    ensures Receive(build, st, s, ps).sessions == Receive(build, st, s, qs).sessions
    ensures Sorted(Receive(build, st, s, ps).buffer) == Sorted(Receive(build, st, s, qs).buffer)
    ensures Tick(build, st, s, ps) == Tick(build, st, s, qs)
  {
    hide Receive, Dispatch, CarryOut, StepSystems, Expire, Broadcast, SameStreams;
    InterleavingsAgree(build, st, s, ps, qs);
    SameSessionsSameDrain(Receive(build, st, s, ps).buffer, Receive(build, st, s, qs).buffer);
  }

  /** The same grants, and batches equal up to reordering. */
  ghost predicate SameEvent(a: Event, b: Event) {
    a == b || (a.Batch? && b.Batch? && SameStreams(a.packets, b.packets))
  }

  ghost predicate SameEvents(a: seq<Event>, b: seq<Event>) {
    |a| == |b| && forall t :: 0 <= t < |a| ==> SameEvent(a[t], b[t])
  }

  /** The same over whole runs, whoever connects, pings or leaves: who was faster within a tick never shows. */
  lemma {:induction false} RunsAgree<W(!new)>(build: Build, st: Settings<W>, s: State<W>, a: seq<Event>, b: seq<Event>)
    requires SameEvents(a, b)
    ensures Run(build, st, s, a) == Run(build, st, s, b)
    decreases |a|
  {
    hide Tick, SameStreams;
    if a == [] {
    } else {
      var n := |a| - 1;
      assert SameEvent(a[n], b[n]);
      assert SameEvents(a[..n], b[..n]);
      RunsAgree(build, st, s, a[..n], b[..n]);
      if a[n] != b[n] {
        ArrivalOrderIsIrrelevant(build, st, Run(build, st, s, a[..n]), a[n].packets, b[n].packets);
      }
    }
  }
}
