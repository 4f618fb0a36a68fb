/** Where the units go: what each walk over a container's slots does to every single slot. */
module Placement {
  import opened Words
  import opened Wrappers
  import opened Resources
  import opened Containers
  import opened ContainerLaws

  /** What a slot with `here` to give gets of `n` units, when `before` were given to others first. */
  function Share(n: nat, before: nat, here: nat): nat {
    if n <= before then 0 else Min(n - before, here)
  }

  lemma SumTail(m: Measure, slots: seq<Slot>, i: nat)
    requires 0 < i <= |slots|
    ensures Sum(m, slots[..i]) == Weigh(m, slots[0]) + Sum(m, slots[1..][..i - 1])
  {
    assert slots[..i][1..] == slots[1..][..i - 1];
  }

  lemma SumFirst(m: Measure, slots: seq<Slot>)
    ensures Sum(m, slots[..0]) == 0
  {
  }

  lemma WholeStack(s: Slot)
    ensures s.(quantity := s.quantity) == s && s.(reserved := s.reserved) == s
  {
  }

  /** Front to back, every stack of `r` is topped up as far as the limit and the units last. */
  lemma {:induction false} FillPlaces(slots: seq<Slot>, r: ResourceId, limit: nat, n: nat, i: nat)
    requires limit <= 5000 && i < |slots|
    ensures var s := slots[i];
      var gap := if s.resource == r && s.quantity < limit then limit - s.quantity else 0;
      var k := Share(n, Sum(Headroom(r, limit), slots[..i]), gap);
      && |Fill(slots, r, limit, n)| == |slots|
      && Fill(slots, r, limit, n)[i].quantity == s.quantity + k
      && Fill(slots, r, limit, n)[i].resource == s.resource && Fill(slots, r, limit, n)[i].reserved == s.reserved
  {
    hide Sum;
    if n == 0 {
    } else if i == 0 {
      SumFirst(Headroom(r, limit), slots);
      if |slots| > 1 {
        FillPlaces(slots[1..], r, limit, n - Min(n, Weigh(Headroom(r, limit), slots[0])), 0);
      }
    } else {
      SumTail(Headroom(r, limit), slots, i);
      FillPlaces(slots[1..], r, limit, n - Min(n, Weigh(Headroom(r, limit), slots[0])), i - 1);
    }
  }

  /** New stacks are full, all but the last, which takes what is left. */
  lemma {:induction false} GrowPlaces(r: ResourceId, limit: nat, n: nat, i: nat)
    requires 0 < limit <= 5000 && i < |Grow(r, limit, n)|
    ensures i * limit < n
    ensures Grow(r, limit, n)[i] == Slot(r, Min(limit, n - i * limit), 0)
  {
    if n == 0 {
    } else if i == 0 {
    } else {
      GrowPlaces(r, limit, n - Min(n, limit), i - 1);
      Distribute(i - 1, 1, limit);
    }
  }

  /** Front to back, unreserved units of `r` are locked as far as they are needed. */
  lemma {:induction false} LockPlaces(slots: seq<Slot>, r: ResourceId, n: nat, i: nat)
    requires i < |slots|
    ensures var s := slots[i];
      var free := if s.resource == r && s.reserved < s.quantity then s.quantity - s.reserved else 0;
      var k := Share(n, Sum(Unreserved(r), slots[..i]), free);
      && |Lock(slots, r, n)| == |slots|
      && Lock(slots, r, n)[i].reserved == s.reserved + k
      && Lock(slots, r, n)[i].resource == s.resource && Lock(slots, r, n)[i].quantity == s.quantity
  {
    hide Sum;
    if n == 0 {
    } else if i == 0 {
      SumFirst(Unreserved(r), slots);
      if |slots| > 1 {
        LockPlaces(slots[1..], r, n - Min(n, Weigh(Unreserved(r), slots[0])), 0);
      }
    } else {
      SumTail(Unreserved(r), slots, i);
      LockPlaces(slots[1..], r, n - Min(n, Weigh(Unreserved(r), slots[0])), i - 1);
    }
  }

  /** Front to back, locks on `r` are released as far as they are to go. */
  lemma {:induction false} UnlockPlaces(slots: seq<Slot>, r: ResourceId, n: nat, i: nat)
    requires i < |slots|
    ensures var s := slots[i];
      var k := Share(n, Sum(Locked(r), slots[..i]), if s.resource == r then s.reserved else 0);
      && |Unlock(slots, r, n)| == |slots|
      && Unlock(slots, r, n)[i].reserved == s.reserved - k
      && Unlock(slots, r, n)[i].resource == s.resource && Unlock(slots, r, n)[i].quantity == s.quantity
  {
    hide Sum;
    if n == 0 {
    } else if i == 0 {
      SumFirst(Locked(r), slots);
      if |slots| > 1 {
        UnlockPlaces(slots[1..], r, n - Min(n, Weigh(Locked(r), slots[0])), 0);
      }
    } else {
      SumTail(Locked(r), slots, i);
      UnlockPlaces(slots[1..], r, n - Min(n, Weigh(Locked(r), slots[0])), i - 1);
    }
  }

  /** Back to front, unreserved units of `r` are taken as far as they are needed. */
  lemma {:induction false} TakeBackPlaces(slots: seq<Slot>, r: ResourceId, n: nat, i: nat)
    requires i < |slots|
    ensures var s := slots[i];
      var free := if s.resource == r && s.reserved < s.quantity then s.quantity - s.reserved else 0;
      var k := Share(n, Sum(Unreserved(r), slots[i + 1..]), free);
      && |TakeBack(slots, r, n)| == |slots|
      && TakeBack(slots, r, n)[i].quantity == s.quantity - k
      && TakeBack(slots, r, n)[i].resource == s.resource && TakeBack(slots, r, n)[i].reserved == s.reserved
  {
    hide Sum;
    if n == 0 {
    } else {
      var init, last := slots[..|slots| - 1], slots[|slots| - 1];
      var k := Min(n, Weigh(Unreserved(r), last));
      if i == |slots| - 1 {
        assert slots[i + 1..] == slots[..0];
        SumFirst(Unreserved(r), slots);
        if |slots| > 1 {
          TakeBackPlaces(init, r, n - k, 0);
        }
      } else {
        TakeBackPlaces(init, r, n - k, i);
        assert slots[i + 1..] == init[i + 1..] + [last];
        SumSnoc(Unreserved(r), init[i + 1..], last);
      }
    }
  }

  /** Front to back, a commit takes stock and lock together; slot by slot, while it does not fail. */
  lemma {:induction false} DeductPlaces(slots: seq<Slot>, r: ResourceId, n: nat, i: nat)
    requires i < |slots| && Deduct(slots, r, n).completed
    ensures var s := slots[i];
      var k := Share(n, Sum(Locked(r), slots[..i]), if s.resource == r then s.reserved else 0);
      && |Deduct(slots, r, n).slots| == |slots| && k <= s.quantity
      && Deduct(slots, r, n).slots[i] == s.(reserved := s.reserved - k, quantity := s.quantity - k)
  {
    hide Sum;
    WholeStack(slots[i]);
    if n == 0 {
    } else if i == 0 {
      SumFirst(Locked(r), slots);
      if |slots| > 1 {
        DeductPlaces(slots[1..], r, n - Min(n, Weigh(Locked(r), slots[0])), 0);
      }
    } else {
      SumTail(Locked(r), slots, i);
      DeductPlaces(slots[1..], r, n - Min(n, Weigh(Locked(r), slots[0])), i - 1);
    }
  }

  // ---------------------------------------------------------------- compaction

  ghost predicate Climbing(at: seq<nat>) {
    forall i, j :: 0 <= i < j < |at| ==> at[i] < at[j]
  }

  /** `out` is what stands in `slots` at the places `at`. */
  ghost predicate Keeps(slots: seq<Slot>, at: seq<nat>, out: seq<Slot>) {
    && |out| == |at| && Climbing(at)
    && forall i :: 0 <= i < |at| ==> at[i] < |slots| && out[i] == slots[at[i]]
  }

  function Shifted(at: seq<nat>): seq<nat> {
    seq(|at|, i requires 0 <= i < |at| => at[i] + 1)
  }

  lemma KeepsOneMore(slots: seq<Slot>, at: seq<nat>, out: seq<Slot>)
    requires slots != [] && Keeps(slots[1..], at, out)
    ensures Keeps(slots, Shifted(at), out)
    ensures Keeps(slots, [0] + Shifted(at), [slots[0]] + out)
  {
    assert forall i :: 0 <= i < |at| ==> slots[1..][at[i]] == slots[Shifted(at)[i]];
  }

  /** Compaction drops exactly the slots that hold and lock nothing, and keeps the others in order. */
  lemma {:induction false} CompactKeeps(slots: seq<Slot>) returns (at: seq<nat>)
    ensures Keeps(slots, at, Compact(slots))
    ensures forall p: nat :: p in at <==> p < |slots| && (slots[p].quantity > 0 || slots[p].reserved > 0)
  {
    at := [];
    if slots == [] {
    } else {
      hide Keeps, Shifted;
      var tail := CompactKeeps(slots[1..]);
      KeepsOneMore(slots, tail, Compact(slots[1..]));
      at := if slots[0].quantity > 0 || slots[0].reserved > 0 then [0] + Shifted(tail) else Shifted(tail);
      forall p: nat ensures p in at <==> p < |slots| && (slots[p].quantity > 0 || slots[p].reserved > 0) {
        if p > 0 {
          ShiftedMembers(tail, p - 1);
        } else {
          ZeroNotShifted(tail);
        }
      }
    }
  }

  lemma ZeroNotShifted(at: seq<nat>)
    ensures 0 !in Shifted(at)
  {
  }

  lemma ShiftedMembers(at: seq<nat>, p: nat)
    ensures p + 1 in Shifted(at) <==> p in at
  {
    if p in at {
      var i :| 0 <= i < |at| && at[i] == p;
      assert Shifted(at)[i] == p + 1;
    }
  }
}
