/**
 The dry run against an independent notion of packing, what acceptance survives, when the
 source's 32-bit sums are exact, and the one way a commit can be torn in a corrupt container.
 */
module Acceptance {
  import opened Words
  import opened Wrappers
  import opened Resources
  import opened Containers
  import opened ContainerLaws

  // ---------------------------------------------------------------- packing

  function Total(adds: seq<nat>): nat {
    if adds == [] then 0 else adds[0] + Total(adds[1..])
  }

  /**
   `adds` says how many units of `r` go into each slot; slots past the existing ones are new.
   Only stacks of `r` may grow, and no stack may exceed the limit.
   */
  ghost predicate Packing(slots: seq<Slot>, maxSlots: nat, r: ResourceId, limit: nat, adds: seq<nat>) {
    && |slots| <= |adds| <= maxSlots
    && (forall i :: 0 <= i < |slots| && adds[i] > 0 ==>
          slots[i].resource == r && slots[i].quantity + adds[i] <= limit)
    && (forall i :: |slots| <= i < |adds| ==> adds[i] <= limit)
  }

  lemma {:induction false} PackingBound(slots: seq<Slot>, maxSlots: nat, r: ResourceId, limit: nat, adds: seq<nat>)
    requires Packing(slots, maxSlots, r, limit, adds)
    ensures Total(adds) <= Sum(Headroom(r, limit), slots) + (|adds| - |slots|) * limit
    decreases |adds|
  {
    if adds == [] {
    } else if slots == [] {
      PackingBound([], |adds| - 1, r, limit, adds[1..]);
      Distribute(|adds| - 1, 1, limit);
    } else {
      PackingBound(slots[1..], |adds| - 1, r, limit, adds[1..]);
    }
  }

  /** The packing that `add` itself produces. */
  function GreedyPacking(slots: seq<Slot>, r: ResourceId, limit: nat, n: nat): seq<nat>
    requires limit > 0
    decreases |slots|, n
  {
    if slots == [] then
      if n == 0 then [] else [Min(n, limit)] + GreedyPacking([], r, limit, n - Min(n, limit))
    else
      var k := Min(n, Weigh(Headroom(r, limit), slots[0]));
      [k] + GreedyPacking(slots[1..], r, limit, n - k)
  }

  lemma PackingCons(slots: seq<Slot>, maxSlots: nat, r: ResourceId, limit: nat, k: nat, rest: seq<nat>)
    requires maxSlots > 0
    requires slots == [] ==> k <= limit
    requires slots != [] && k > 0 ==> slots[0].resource == r && slots[0].quantity + k <= limit
    requires Packing(if slots == [] then [] else slots[1..], maxSlots - 1, r, limit, rest)
    ensures Packing(slots, maxSlots, r, limit, [k] + rest)
    ensures Total([k] + rest) == k + Total(rest)
  {
    assert ([k] + rest)[1..] == rest;
  }

  lemma {:induction false} GreedyPacksFresh(maxSlots: nat, r: ResourceId, limit: nat, n: nat)
    requires limit > 0
    requires n <= maxSlots * limit
    ensures Packing([], maxSlots, r, limit, GreedyPacking([], r, limit, n))
    ensures Total(GreedyPacking([], r, limit, n)) == n
    decreases n
  {
    if n == 0 {
    } else {
      var k := Min(n, limit);
      Distribute(maxSlots - 1, 1, limit);
      assert maxSlots > 0;
      if maxSlots == 1 {
        assert n <= limit;
      }
      GreedyPacksFresh(maxSlots - 1, r, limit, n - k);
      PackingCons([], maxSlots, r, limit, k, GreedyPacking([], r, limit, n - k));
    }
  }

  lemma {:induction false} GreedyPacks(slots: seq<Slot>, maxSlots: nat, r: ResourceId, limit: nat, n: nat)
    requires limit > 0
    requires |slots| <= maxSlots
    requires n <= Sum(Headroom(r, limit), slots) + (maxSlots - |slots|) * limit
    ensures Packing(slots, maxSlots, r, limit, GreedyPacking(slots, r, limit, n))
    ensures Total(GreedyPacking(slots, r, limit, n)) == n
  {
    hide Packing;
    if slots == [] {
      GreedyPacksFresh(maxSlots, r, limit, n);
    } else {
      var k := Min(n, Weigh(Headroom(r, limit), slots[0]));
      var spare := (maxSlots - |slots|) * limit;
      assert spare >= 0 by {
        MulMono(0, maxSlots - |slots|, limit);
      }
      assert maxSlots - 1 - |slots[1..]| == maxSlots - |slots|;
      GreedyPacks(slots[1..], maxSlots - 1, r, limit, n - k);
      PackingCons(slots, maxSlots, r, limit, k, GreedyPacking(slots[1..], r, limit, n - k));
    }
  }

  /** With no surplus slots the slot test is one comparison with the free capacity. */
  lemma SlotTestIsCapacity(slots: seq<Slot>, maxSlots: nat, r: ResourceId, limit: nat, n: nat)
    requires |slots| <= maxSlots
    ensures FitsSlots(slots, maxSlots, r, limit, n) <==>
            n <= Sum(Headroom(r, limit), slots) + (maxSlots - |slots|) * limit
  {
    hide Sum;
    var spare := (maxSlots - |slots|) * limit;
    assert spare >= 0 by {
      MulMono(0, maxSlots - |slots|, limit);
    }
  }

  lemma PackingFits(slots: seq<Slot>, maxSlots: nat, r: ResourceId, limit: nat, adds: seq<nat>)
    requires |slots| <= maxSlots
    requires Packing(slots, maxSlots, r, limit, adds)
    ensures FitsSlots(slots, maxSlots, r, limit, Total(adds))
  {
    PackingBound(slots, maxSlots, r, limit, adds);
    MulMono(|adds| - |slots|, maxSlots - |slots|, limit);
    SlotTestIsCapacity(slots, maxSlots, r, limit, Total(adds));
  }

  /** The slot test of `can_accept` says yes exactly when some packing of `n` units exists. */
  lemma SlotTestIsExact(slots: seq<Slot>, maxSlots: nat, r: ResourceId, limit: nat, n: nat)
    requires limit > 0
    requires |slots| <= maxSlots
    ensures FitsSlots(slots, maxSlots, r, limit, n) <==>
            exists adds :: Packing(slots, maxSlots, r, limit, adds) && Total(adds) == n
  {
    if FitsSlots(slots, maxSlots, r, limit, n) {
      SlotTestIsCapacity(slots, maxSlots, r, limit, n);
      GreedyPacks(slots, maxSlots, r, limit, n);
    }
    forall adds | Packing(slots, maxSlots, r, limit, adds) && Total(adds) == n
      ensures FitsSlots(slots, maxSlots, r, limit, n)
    {
      PackingFits(slots, maxSlots, r, limit, adds);
    }
  }

  // ---------------------------------------------------------------- what acceptance survives

  lemma {:induction false} TakeBackFreesRoom(slots: seq<Slot>, r: ResourceId, n: nat, p: ResourceId, limit: nat)
    ensures Sum(Headroom(p, limit), TakeBack(slots, r, n)) >= Sum(Headroom(p, limit), slots)
  {
    if slots == [] || n == 0 {
    } else {
      var init, s := slots[..|slots| - 1], slots[|slots| - 1];
      assert slots == init + [s];
      var k := Min(n, Weigh(Unreserved(r), s));
      TakeBackFreesRoom(init, r, n - k, p, limit);
      SumSnoc(Headroom(p, limit), init, s);
      SumSnoc(Headroom(p, limit), TakeBack(init, r, n - k), s.(quantity := s.quantity - k));
    }
  }

  lemma {:induction false} DeductFreesRoom(slots: seq<Slot>, r: ResourceId, n: nat, p: ResourceId, limit: nat)
    requires SlotsSound(slots)
    ensures Sum(Headroom(p, limit), Deduct(slots, r, n).slots) >= Sum(Headroom(p, limit), slots)
  {
    if slots == [] || n == 0 {
    } else {
      DeductFreesRoom(slots[1..], r, n - Min(n, Weigh(Locked(r), slots[0])), p, limit);
    }
  }

  /** Dropping an empty slot loses at most one stack of headroom and gains one unused slot. */
  lemma {:induction false} CompactKeepsRoom(slots: seq<Slot>, p: ResourceId, limit: nat)
    ensures |Compact(slots)| <= |slots|
    ensures Sum(Headroom(p, limit), Compact(slots)) + (|slots| - |Compact(slots)|) * limit
            >= Sum(Headroom(p, limit), slots)
  {
    if slots == [] {
    } else {
      CompactKeepsRoom(slots[1..], p, limit);
      Distribute(|slots| - 1 - |Compact(slots[1..])|, 1, limit);
    }
  }

  /** Fewer units and dropped empty slots never turn an accepted amount away. */
  lemma AcceptanceMonotone(c: Container, slots: seq<Slot>, p: ResourceId, m: nat)
    requires |slots| <= |c.slots| <= c.maxSlots
    requires Sum(VolumeMl, slots) <= Sum(VolumeMl, c.slots)
    requires Lookup(p).Some? ==>
               var limit := Lookup(p).value.stackLimit;
               Sum(Headroom(p, limit), slots) + (|c.slots| - |slots|) * limit >= Sum(Headroom(p, limit), c.slots)
    requires CanAccept(c, p, m)
    ensures CanAccept(c.(slots := slots), p, m)
  {
    if m > 0 {
      var limit := Lookup(p).value.stackLimit;
      Distribute(c.maxSlots - |c.slots|, |c.slots| - |slots|, limit);
      SlotTestIsCapacity(c.slots, c.maxSlots, p, limit, m);
      SlotTestIsCapacity(slots, c.maxSlots, p, limit, m);
    }
  }

  /** Whatever a container accepts, it still accepts after any removal. */
  lemma AcceptanceSurvivesRemoval(c: Container, r: ResourceId, n: nat, p: ResourceId, m: nat)
    requires |c.slots| <= c.maxSlots
    requires CanAccept(c, p, m)
    ensures CanAccept(RemoveFrom(c, r, n).after, p, m)
  {
    var o := RemoveFrom(c, r, n);
    if o.result.Ok? && n > 0 {
      var taken := TakeBack(c.slots, r, n);
      TakeBackLaw(c.slots, r, n, p);
      RemoveShrinks(c, r, n);
      if Lookup(p).Some? {
        TakeBackFreesRoom(c.slots, r, n, p, Lookup(p).value.stackLimit);
        CompactKeepsRoom(taken, p, Lookup(p).value.stackLimit);
      }
      AcceptanceMonotone(c, o.after.slots, p, m);
    }
  }

  /** Whatever a sound container accepts, it still accepts after committing a reservation of its own. */
  lemma AcceptanceSurvivesCommit(c: Container, id: ReservationId, p: ResourceId, m: nat)
    requires Sound(c)
    requires CanAccept(c, p, m)
    ensures CanAccept(CommitIn(c, id).after, p, m)
  {
    var o := CommitIn(c, id);
    CommitLaw(c, id, p);
    if o.result.Ok? {
      var res := c.reservations[id];
      var deducted := Deduct(c.slots, res.resource, res.amount).slots;
      DeductLaw(c.slots, res.resource, res.amount, p);
      CommitShrinks(c, id);
      if Lookup(p).Some? {
        DeductFreesRoom(c.slots, res.resource, res.amount, p, Lookup(p).value.stackLimit);
        CompactKeepsRoom(deducted, p, Lookup(p).value.stackLimit);
      }
      AcceptanceMonotone(c, o.after.slots, p, m);
    }
  }

  // ---------------------------------------------------------------- 32-bit sums

  lemma {:induction false} VolumeBoundsQuantity(slots: seq<Slot>, r: ResourceId)
    ensures Sum(Quantity(r), slots) * UnitVolume(r) <= Sum(VolumeMl, slots)
  {
    if slots == [] {
    } else {
      VolumeBoundsQuantity(slots[1..], r);
      Distribute(Weigh(Quantity(r), slots[0]), Sum(Quantity(r), slots[1..]), UnitVolume(r));
    }
  }

  /** Limits under which no total of `r` can reach 2^32: a single slot, or too little volume for so many units. */
  predicate WordSized(maxSlots: nat, maxVolumeLiters: nat, r: ResourceId) {
    maxSlots < 2 || maxVolumeLiters * 1000 + 1 < 0x1_0000_0000 * UnitVolume(r)
  }

  lemma QuantityFits(c: Container, r: ResourceId)
    requires Sound(c) && WordSized(c.maxSlots, c.maxVolumeLiters, r)
    ensures Sum(Quantity(r), c.slots) < 0x1_0000_0000
  {
    if |c.slots| < 2 {
      assert c.slots == [] || c.slots == [c.slots[0]];
      assert c.slots != [] ==> Sum(Quantity(r), c.slots[1..]) == 0;
    } else {
      VolumeBoundsQuantity(c.slots, r);
      if Sum(Quantity(r), c.slots) >= 0x1_0000_0000 {
        MulMono(0x1_0000_0000, Sum(Quantity(r), c.slots), UnitVolume(r));
      }
    }
  }

  /** Two stacks of 2^32 units together, nothing locked. */
  function Overfull(maxSlots: nat, maxVolumeLiters: nat, r: ResourceId): Container {
    Container(1, 0, Depot, maxSlots, maxVolumeLiters, [Slot(r, 0xFFFF_FFFF, 0), Slot(r, 1, 0)], map[])
  }

  lemma OverfullIsSound(maxSlots: nat, maxVolumeLiters: nat, r: ResourceId)
    requires !WordSized(maxSlots, maxVolumeLiters, r)
    ensures var c := Overfull(maxSlots, maxVolumeLiters, r);
      Sound(c) && Sum(Quantity(r), c.slots) == 0x1_0000_0000
  {
    var c := Overfull(maxSlots, maxVolumeLiters, r);
    assert c.slots[1..] == [Slot(r, 1, 0)] && c.slots[1..][1..] == [];
    forall q: ResourceId ensures Sum(Locked(q), c.slots) == 0 {
      assert Sum(Locked(q), c.slots[1..]) == 0;
    }
    assert Sum(Quantity(r), c.slots[1..]) == 1;
    assert Sum(VolumeMl, c.slots[1..]) == UnitVolume(r);
    Distribute(0xFFFF_FFFF, 1, UnitVolume(r));
  }

  /**
   The source adds quantities as 32-bit words. A total of some resource can reach 2^32 in a sound
   container exactly when there are two slots for it and volume for that many units; below, every
   balance, lock and pledge total fits, so no sum can wrap.
   */
  lemma TotalsFitInWord(maxSlots: nat, maxVolumeLiters: nat, r: ResourceId)
    ensures WordSized(maxSlots, maxVolumeLiters, r) <==>
            forall c :: Sound(c) && c.maxSlots == maxSlots && c.maxVolumeLiters == maxVolumeLiters ==>
                          Sum(Quantity(r), c.slots) < 0x1_0000_0000
    ensures forall c :: Sound(c) ==>
              && Sum(Unreserved(r), c.slots) <= Sum(Quantity(r), c.slots)
              && Sum(Locked(r), c.slots) <= Sum(Quantity(r), c.slots)
              && Pledged(c.reservations, r) <= Sum(Quantity(r), c.slots)
  {
    hide Sound, Sum, WordSized, Pledged;
    if WordSized(maxSlots, maxVolumeLiters, r) {
      forall c | Sound(c) && c.maxSlots == maxSlots && c.maxVolumeLiters == maxVolumeLiters
        ensures Sum(Quantity(r), c.slots) < 0x1_0000_0000
      {
        QuantityFits(c, r);
      }
    } else {
      OverfullIsSound(maxSlots, maxVolumeLiters, r);
    }
    forall c | Sound(c)
      ensures Sum(Unreserved(r), c.slots) <= Sum(Quantity(r), c.slots)
      ensures Sum(Locked(r), c.slots) <= Sum(Quantity(r), c.slots)
      ensures Pledged(c.reservations, r) <= Sum(Quantity(r), c.slots)
    {
      PartsWithinQuantity(c, r);
    }
  }

  lemma PartsWithinQuantity(c: Container, r: ResourceId)
    requires Sound(c)
    ensures Sum(Unreserved(r), c.slots) <= Sum(Quantity(r), c.slots)
    ensures Sum(Locked(r), c.slots) <= Sum(Quantity(r), c.slots)
    ensures Pledged(c.reservations, r) <= Sum(Quantity(r), c.slots)
  {
    LockedWithinQuantity(c.slots, r);
    assert Sum(Locked(r), c.slots) == Pledged(c.reservations, r);
  }

  // ---------------------------------------------------------------- torn commits

  /** Some slot the deduction reaches is asked for more units than it holds. */
  ghost predicate Overdrawn(slots: seq<Slot>, r: ResourceId, n: nat) {
    exists i :: 0 <= i < |slots| && OverdrawnAt(slots, r, n, i)
  }

  predicate OverdrawnAt(slots: seq<Slot>, r: ResourceId, n: nat, i: nat)
    requires i < |slots|
  {
    var before := Sum(Locked(r), slots[..i]);
    && slots[i].resource == r
    && before < n
    && Min(n - before, slots[i].reserved) > slots[i].quantity
  }

  lemma OverdrawnTail(slots: seq<Slot>, r: ResourceId, n: nat, i: nat)
    requires 0 < i < |slots|
    requires n >= Weigh(Locked(r), slots[0])
    ensures OverdrawnAt(slots, r, n, i) <==>
            OverdrawnAt(slots[1..], r, n - Weigh(Locked(r), slots[0]), i - 1)
  {
    assert slots[..i] == [slots[0]] + slots[1..][..i - 1];
    SumConcat(Locked(r), [slots[0]], slots[1..][..i - 1]);
    assert Sum(Locked(r), [slots[0]]) == Weigh(Locked(r), slots[0]);
  }

  lemma {:induction false} DeductCompletes(slots: seq<Slot>, r: ResourceId, n: nat)
    ensures Deduct(slots, r, n).completed <==> !Overdrawn(slots, r, n)
  {
    if slots == [] || n == 0 {
    } else {
      var w := Weigh(Locked(r), slots[0]);
      var k := Min(n, w);
      assert slots[..0] == [];
      assert OverdrawnAt(slots, r, n, 0) <==> slots[0].quantity < k;
      if slots[0].quantity >= k {
        DeductCompletes(slots[1..], r, n - k);
        if w <= n {
          forall i | 0 < i < |slots|
            ensures OverdrawnAt(slots, r, n, i) <==> OverdrawnAt(slots[1..], r, n - k, i - 1)
          {
            OverdrawnTail(slots, r, n, i);
          }
          if Overdrawn(slots[1..], r, n - k) {
            var j :| 0 <= j < |slots| - 1 && OverdrawnAt(slots[1..], r, n - k, j);
            assert OverdrawnAt(slots, r, n, j + 1);
          }
        } else {
          forall i | 0 < i < |slots| ensures !OverdrawnAt(slots, r, n, i) {
            assert slots[..i] == [slots[0]] + slots[1..i];
            SumConcat(Locked(r), [slots[0]], slots[1..i]);
            assert Sum(Locked(r), [slots[0]]) == w;
          }
        }
      }
    }
  }

  /**
   A failing commit is promised to leave the container untouched. It does, except exactly when
   the reservation is live, the up-front balance check passes, and a reached slot is overdrawn.
   */
  lemma CommitTornIff(c: Container, id: ReservationId)
    ensures var o := CommitIn(c, id);
      o.result.Err? && o.after != c <==>
        && id in c.reservations
        && c.reservations[id].amount <= Sum(Deductible(c.reservations[id].resource), c.slots)
        && Overdrawn(c.slots, c.reservations[id].resource, c.reservations[id].amount)
  {
    if id in c.reservations {
      DeductCompletes(c.slots, c.reservations[id].resource, c.reservations[id].amount);
      assert id !in c.reservations - {id};
    }
  }

  /** Two corrupt stacks of steel: the commit fails after dropping the reservation. */
  lemma TornCommitExample()
    ensures var c := Container(1, 0, Depot, 50, 100000, [Slot(10, 3, 5), Slot(10, 5, 5)],
                               map[7 := Reservation(10, 6, 1, 1, None)]);
      && CommitIn(c, 7).result == Err(ResourceUnderflow)
      && CommitIn(c, 7).after.slots == [Slot(10, 3, 0), Slot(10, 5, 5)]
      && CommitIn(c, 7).after.reservations == map[]
  {
    var slots := [Slot(10, 3, 5), Slot(10, 5, 5)];
    assert slots[1..] == [Slot(10, 5, 5)];
    assert Sum(Deductible(10), slots[1..]) == 5;
    assert Sum(Deductible(10), slots) == 8;
    assert Deduct(slots, 10, 6).slots == [Slot(10, 3, 0), Slot(10, 5, 5)];
  }
}
