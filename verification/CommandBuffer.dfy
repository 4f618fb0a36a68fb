/** The command buffer: envelopes in arrival order, drained in `(session, sequence)` order. */
module CommandBuffers {
  import opened Words
  import opened Protocol

  datatype Envelope = Envelope(session: nat, sequence: nat, clientTick: nat, token: u64, command: Command)

  /** The sort key order. */
  predicate NoLater(a: Envelope, b: Envelope) {
    a.session < b.session || (a.session == b.session && a.sequence <= b.sequence)
  }

  predicate SameKey(a: Envelope, b: Envelope) {
    a.session == b.session && a.sequence == b.sequence
  }

  ghost predicate Ordered(es: seq<Envelope>) {
    forall i, j :: 0 <= i < j < |es| ==>
      || es[i].session < es[j].session
      || (es[i].session == es[j].session && es[i].sequence <= es[j].sequence)
  }

  /** The envelopes with one key, in order. */
  ghost function WithKey(es: seq<Envelope>, session: nat, sequence: nat): seq<Envelope> {
    if es == [] then []
    else if es[0].session == session && es[0].sequence == sequence then [es[0]] + WithKey(es[1..], session, sequence)
    else WithKey(es[1..], session, sequence)
  }

  /** The envelopes of one session, in order. */
  ghost function OfSession(es: seq<Envelope>, session: nat): seq<Envelope> {
    if es == [] then []
    else if es[0].session == session then [es[0]] + OfSession(es[1..], session)
    else OfSession(es[1..], session)
  }

  /** What a stable sort promises: the keys are ordered, and each key's envelopes keep their order. */
  ghost predicate StableSortOf(es: seq<Envelope>, out: seq<Envelope>) {
    && Ordered(out)
    && forall k, n :: WithKey(out, k, n) == WithKey(es, k, n)
  }

  // ---------------------------------------------------------------- projections

  lemma {:induction false} WithKeyConcat(a: seq<Envelope>, b: seq<Envelope>, k: nat, n: nat)
    ensures WithKey(a + b, k, n) == WithKey(a, k, n) + WithKey(b, k, n)
  {
    if a == [] {
      assert a + b == b;
    } else {
      assert (a + b)[1..] == a[1..] + b;
      WithKeyConcat(a[1..], b, k, n);
    }
  }

  lemma {:induction false} OfSessionConcat(a: seq<Envelope>, b: seq<Envelope>, k: nat)
    ensures OfSession(a + b, k) == OfSession(a, k) + OfSession(b, k)
  {
    if a == [] {
      assert a + b == b;
    } else {
      assert (a + b)[1..] == a[1..] + b;
      OfSessionConcat(a[1..], b, k);
    }
  }

  /** A key's envelopes are found within its session's. */
  lemma {:induction false} KeyWithinSession(es: seq<Envelope>, k: nat, n: nat)
    ensures WithKey(es, k, n) == WithKey(OfSession(es, k), k, n)
  {
    if es == [] {
    } else {
      KeyWithinSession(es[1..], k, n);
      if es[0].session == k {
        assert OfSession(es, k)[1..] == OfSession(es[1..], k);
      }
    }
  }

  lemma {:induction false} WithKeyMember(es: seq<Envelope>, e: Envelope)
    ensures e in es <==> e in WithKey(es, e.session, e.sequence)
  {
    if es == [] {
    } else {
      WithKeyMember(es[1..], e);
    }
  }

  lemma {:induction false} WithKeyOnly(es: seq<Envelope>, k: nat, n: nat)
    ensures forall e :: e in WithKey(es, k, n) ==> e.session == k && e.sequence == n
  {
    if es == [] {
    } else {
      WithKeyOnly(es[1..], k, n);
    }
  }

  // ---------------------------------------------------------------- a stable sort is unique

  /** The head of an ordered sequence is the first of the least key. */
  lemma HeadOfOrdered(out: seq<Envelope>, e: Envelope)
    requires Ordered(out) && out != [] && e in out
    ensures NoLater(out[0], e)
    ensures WithKey(out, out[0].session, out[0].sequence)[0] == out[0]
  {
  }

  lemma SameHead(a: seq<Envelope>, b: seq<Envelope>)
    requires Ordered(a) && StableSortOf(a, b) && a != []
    ensures b != [] && a[0] == b[0]
  {
    WithKeyMember(a, a[0]);
    WithKeyMember(b, a[0]);
    assert b != [];
    WithKeyMember(a, b[0]);
    WithKeyMember(b, b[0]);
    HeadOfOrdered(a, b[0]);
    HeadOfOrdered(b, a[0]);
    assert SameKey(a[0], b[0]);
  }

  lemma SameTails(a: seq<Envelope>, b: seq<Envelope>)
    requires a != [] && b != [] && a[0] == b[0]
    requires forall k, n :: WithKey(a, k, n) == WithKey(b, k, n)
    ensures forall k, n :: WithKey(a[1..], k, n) == WithKey(b[1..], k, n)
  {
    forall k, n ensures WithKey(a[1..], k, n) == WithKey(b[1..], k, n) {
      assert WithKey(a, k, n) == WithKey(b, k, n);
      if a[0].session == k && a[0].sequence == n {
        assert WithKey(a, k, n)[1..] == WithKey(a[1..], k, n);
        assert WithKey(b, k, n)[1..] == WithKey(b[1..], k, n);
      }
    }
  }

  /** Two stable sorts of one sequence are the same sequence. */
  lemma {:induction false} StableSortUnique(a: seq<Envelope>, b: seq<Envelope>)
    requires Ordered(a) && StableSortOf(a, b)
    ensures a == b
  {
    if a == [] {
      if b != [] {
        WithKeyMember(a, b[0]);
        WithKeyMember(b, b[0]);
      }
    } else {
      SameHead(a, b);
      SameTails(a, b);
      StableSortUnique(a[1..], b[1..]);
      assert a == [a[0]] + a[1..] && b == [b[0]] + b[1..];
    }
  }

  // ---------------------------------------------------------------- the sort

  /** `e` goes behind every envelope that is no later than it. */
  function Insert(e: Envelope, es: seq<Envelope>): seq<Envelope> {
    if es == [] then [e]
    else if NoLater(es[0], e) then [es[0]] + Insert(e, es[1..])
    else [e] + es
  }

  function Sorted(es: seq<Envelope>): seq<Envelope> {
    if es == [] then [] else Insert(es[|es| - 1], Sorted(es[..|es| - 1]))
  }

  lemma {:induction false} InsertMembers(e: Envelope, es: seq<Envelope>)
    ensures forall x :: x in Insert(e, es) <==> x == e || x in es
  {
    if es == [] {
    } else if NoLater(es[0], e) {
      InsertMembers(e, es[1..]);
    }
  }

  lemma {:induction false} InsertOrdered(e: Envelope, es: seq<Envelope>)
    requires Ordered(es)
    ensures Ordered(Insert(e, es))
  {
    if es == [] {
    } else if NoLater(es[0], e) {
      InsertOrdered(e, es[1..]);
      InsertMembers(e, es[1..]);
      HeadFirst(es[0], Insert(e, es[1..]));
    } else {
      HeadFirst(e, es);
    }
  }

  lemma HeadFirst(e: Envelope, es: seq<Envelope>)
    requires Ordered(es) && forall x :: x in es ==> NoLater(e, x)
    ensures Ordered([e] + es)
  {
    var all := [e] + es;
    forall i, j | 0 <= i < j < |all| ensures NoLater(all[i], all[j]) {
      assert all[j] in es;
    }
  }

  lemma {:induction false} NothingWithKey(es: seq<Envelope>, e: Envelope)
    requires Ordered(es)
    requires es != [] ==> !NoLater(es[0], e)
    ensures WithKey(es, e.session, e.sequence) == []
  {
    WithKeyOnly(es, e.session, e.sequence);
    var found := WithKey(es, e.session, e.sequence);
    assert forall x :: x in es ==> NoLater(es[0], x);
    if found != [] {
      WithKeyMember(es, found[0]);
    }
  }

  lemma {:induction false} InsertKeeps(e: Envelope, es: seq<Envelope>, k: nat, n: nat)
    requires Ordered(es)
    ensures WithKey(Insert(e, es), k, n) == WithKey(es + [e], k, n)
  {
    WithKeyConcat(es, [e], k, n);
    if es == [] {
    } else if NoLater(es[0], e) {
      InsertKeeps(e, es[1..], k, n);
      WithKeyConcat(es[1..], [e], k, n);
      assert ([es[0]] + Insert(e, es[1..]))[1..] == Insert(e, es[1..]);
    } else {
      assert ([e] + es)[1..] == es;
      if e.session == k && e.sequence == n {
        NothingWithKey(es, e);
      }
    }
  }

  /** The sort is a stable sort. */
  lemma {:induction false} SortedIsStable(es: seq<Envelope>)
    ensures StableSortOf(es, Sorted(es))
  {
    if es == [] {
    } else {
      var before, last := es[..|es| - 1], es[|es| - 1];
      SortedIsStable(before);
      InsertOrdered(last, Sorted(before));
      forall k, n ensures WithKey(Sorted(es), k, n) == WithKey(es, k, n) {
        InsertKeeps(last, Sorted(before), k, n);
        WithKeyConcat(Sorted(before), [last], k, n);
        WithKeyConcat(before, [last], k, n);
        assert before + [last] == es;
      }
    }
  }

  lemma SortedMembers(es: seq<Envelope>)
    ensures forall e :: e in Sorted(es) <==> e in es
  {
    SortedIsStable(es);
    forall e ensures e in Sorted(es) <==> e in es {
      WithKeyMember(es, e);
      WithKeyMember(Sorted(es), e);
    }
  }

  /** Buffers that hold the same envelopes session by session drain identically. */
  lemma SameSessionsSameDrain(a: seq<Envelope>, b: seq<Envelope>)
    requires forall k :: OfSession(a, k) == OfSession(b, k)
    ensures Sorted(a) == Sorted(b)
  {
    SortedIsStable(a);
    SortedIsStable(b);
    forall k, n ensures WithKey(Sorted(b), k, n) == WithKey(Sorted(a), k, n) {
      KeyWithinSession(a, k, n);
      KeyWithinSession(b, k, n);
    }
    StableSortUnique(Sorted(a), Sorted(b));
  }

  // ---------------------------------------------------------------- sequences of one session

  /** Strictly increasing sequence numbers. */
  ghost predicate Rising(es: seq<Envelope>) {
    forall i, j :: 0 <= i < j < |es| ==> es[i].sequence < es[j].sequence
  }

  lemma {:induction false} OfSessionMembers(es: seq<Envelope>, k: nat)
    ensures forall e :: e in OfSession(es, k) <==> e in es && e.session == k
  {
    if es == [] {
    } else {
      OfSessionMembers(es[1..], k);
    }
  }

  lemma {:induction false} OfSessionOrdered(es: seq<Envelope>, k: nat)
    requires Ordered(es)
    ensures Ordered(OfSession(es, k))
  {
    if es == [] {
    } else {
      OfSessionOrdered(es[1..], k);
      OfSessionMembers(es[1..], k);
    }
  }

  /** A session whose envelopes arrived in rising order is drained in that order. */
  lemma DrainKeepsRising(es: seq<Envelope>, k: nat)
    requires Rising(OfSession(es, k))
    ensures OfSession(Sorted(es), k) == OfSession(es, k)
  {
    SortedIsStable(es);
    var a, b := OfSession(es, k), OfSession(Sorted(es), k);
    OfSessionMembers(es, k);
    OfSessionOrdered(Sorted(es), k);
    assert Ordered(a);
    forall j, n ensures WithKey(b, j, n) == WithKey(a, j, n) {
      if j == k {
        KeyWithinSession(es, k, n);
        KeyWithinSession(Sorted(es), k, n);
      } else {
        OtherSession(es, k, j, n);
        OtherSession(Sorted(es), k, j, n);
      }
    }
    StableSortUnique(a, b);
  }

  lemma {:induction false} OtherSession(es: seq<Envelope>, k: nat, j: nat, n: nat)
    requires j != k
    ensures WithKey(OfSession(es, k), j, n) == []
  {
    WithKeyOnly(OfSession(es, k), j, n);
    OfSessionMembers(es, k);
    var found := WithKey(OfSession(es, k), j, n);
    if found != [] {
      WithKeyMember(OfSession(es, k), found[0]);
    }
  }

  // ---------------------------------------------------------------- the buffer

  class CommandBuffer {
    var commands: seq<Envelope>

    constructor (commands: seq<Envelope>)
      ensures this.commands == commands
    {
      this.commands := commands;
    }

    method Push(e: Envelope)
      modifies this
      ensures commands == old(commands) + [e]
    {
      commands := commands + [e];
    }

    /** Sorts the vector and takes it. */
    method DrainOrdered() returns (drained: seq<Envelope>)
      modifies this
      ensures StableSortOf(old(commands), drained)
      ensures drained == Sorted(old(commands))
      ensures commands == []
    {
      drained := [];
      for i := 0 to |commands|
        invariant drained == Sorted(commands[..i])
      {
        assert commands[..i + 1][..i] == commands[..i];
        drained := Insert(commands[i], drained);
      }
      assert commands[..|commands|] == commands;
      SortedIsStable(commands);
      commands := [];
    }
  }
}
