/** What every container operation keeps, changes and refuses, for all containers. */
module ContainerLaws {
  import opened Words
  import opened Wrappers
  import opened Resources
  import opened Containers

  // ---------------------------------------------------------------- sums

  lemma {:induction false} SumConcat(m: Measure, a: seq<Slot>, b: seq<Slot>)
    ensures Sum(m, a + b) == Sum(m, a) + Sum(m, b)
  {
    if a == [] {
      assert a + b == b;
    } else {
      assert (a + b)[1..] == a[1..] + b;
      SumConcat(m, a[1..], b);
    }
  }

  lemma SumSnoc(m: Measure, a: seq<Slot>, s: Slot)
    ensures Sum(m, a + [s]) == Sum(m, a) + Weigh(m, s)
  {
    SumConcat(m, a, [s]);
  }

  lemma {:induction false} LockedWithinQuantity(slots: seq<Slot>, r: ResourceId)
    requires SlotsSound(slots)
    ensures Sum(Deductible(r), slots) == Sum(Locked(r), slots)
    ensures Sum(Quantity(r), slots) == Sum(Unreserved(r), slots) + Sum(Locked(r), slots)
  {
    if slots == [] {
    } else {
      LockedWithinQuantity(slots[1..], r);
    }
  }

  // ---------------------------------------------------------------- walks

  /** Filling adds exactly what fits to `r` and touches no other balance and no lock. */
  lemma {:induction false} FillLaw(slots: seq<Slot>, r: ResourceId, limit: nat, n: nat, q: ResourceId)
    requires limit <= 5000
    ensures var out := Fill(slots, r, limit, n);
      && |out| == |slots|
      && Sum(Quantity(q), out) == Sum(Quantity(q), slots) + (if q == r then Min(n, Sum(Headroom(r, limit),
          slots)) else 0)
      && Sum(Locked(q), out) == Sum(Locked(q), slots)
      && (SlotsSound(slots) ==> SlotsSound(out))
  {
    if slots == [] || n == 0 {
    } else {
      FillLaw(slots[1..], r, limit, n - Min(n, Weigh(Headroom(r, limit), slots[0])), q);
      if SlotsSound(slots) {
        assert SlotsSound(slots[1..]);
      }
    }
  }

  lemma {:induction false} FillVolume(slots: seq<Slot>, r: ResourceId, limit: nat, n: nat)
    requires limit <= 5000
    ensures Sum(VolumeMl, Fill(slots, r, limit, n)) ==
            Sum(VolumeMl, slots) + Min(n, Sum(Headroom(r, limit), slots)) * UnitVolume(r)
  {
    if slots == [] || n == 0 {
    } else {
      var k := Min(n, Weigh(Headroom(r, limit), slots[0]));
      FillVolume(slots[1..], r, limit, n - k);
      VolumeDrops(slots[0].(quantity := slots[0].quantity + k), r, k);
      Distribute(k, Min(n - k, Sum(Headroom(r, limit), slots[1..])), UnitVolume(r));
    }
  }

  lemma Distribute(a: int, b: int, u: int)
    ensures (a + b) * u == a * u + b * u
  {
  }

  lemma MulMono(a: int, b: int, u: nat)
    requires a <= b
    ensures a * u <= b * u
  {
  }

  lemma {:induction false} GrowLaw(r: ResourceId, limit: nat, n: nat, q: ResourceId)
    requires 0 < limit <= 5000
    ensures var out := Grow(r, limit, n);
      && Sum(Quantity(q), out) == (if q == r then n else 0)
      && Sum(Locked(q), out) == 0
      && Sum(VolumeMl, out) == n * UnitVolume(r)
      && SlotsSound(out)
    decreases n
  {
    if n == 0 {
    } else {
      GrowLaw(r, limit, n - Min(n, limit), q);
      Distribute(Min(n, limit), n - Min(n, limit), UnitVolume(r));
    }
  }

  /** `n` units need at most `slots` fresh slots iff that many full stacks hold them. */
  lemma {:induction false} GrowLength(r: ResourceId, limit: nat, n: nat, slots: int)
    requires 0 < limit <= 5000
    requires n > 0
    ensures |Grow(r, limit, n)| <= slots <==> n <= slots * limit
    decreases n
  {
    if n <= limit {
      assert Grow(r, limit, 0) == [];
      assert |Grow(r, limit, n)| == 1;
      if slots >= 1 { assert slots * limit >= limit; }
    } else {
      GrowLength(r, limit, n - limit, slots - 1);
      Distribute(slots, -1, limit);
    }
  }

  /** The rounding-up division of the dry run counts exactly the slots that growing adds. */
  lemma CeilingLaw(limit: nat, n: nat, slots: int)
    requires limit > 0
    ensures (n + limit - 1) / limit <= slots <==> n <= slots * limit
  {
    var k := (n + limit - 1) / limit;
    assert k * limit <= n + limit - 1 < (k + 1) * limit;
    Distribute(k, 1, limit);
    if k <= slots {
      assert k * limit <= slots * limit;
    } else {
      assert (slots + 1) * limit <= k * limit;
      Distribute(slots, 1, limit);
    }
  }

  lemma {:induction false} TakeBackLaw(slots: seq<Slot>, r: ResourceId, n: nat, q: ResourceId)
    ensures var out := TakeBack(slots, r, n);
      && |out| == |slots|
      && Sum(Quantity(q), out) == Sum(Quantity(q), slots) - (if q == r then Min(n, Sum(Unreserved(r), slots)) else 0)
      && Sum(Locked(q), out) == Sum(Locked(q), slots)
      && (SlotsSound(slots) ==> SlotsSound(out))
  {
    if slots == [] || n == 0 {
    } else {
      var init, s := slots[..|slots| - 1], slots[|slots| - 1];
      assert slots == init + [s];
      var k := Min(n, Weigh(Unreserved(r), s));
      var s' := s.(quantity := s.quantity - k);
      TakeBackLaw(init, r, n - k, q);
      var rest := TakeBack(init, r, n - k);
      SumSnoc(Unreserved(r), init, s);
      SumSnoc(Quantity(q), init, s);
      SumSnoc(Quantity(q), rest, s');
      SumSnoc(Locked(q), init, s);
      SumSnoc(Locked(q), rest, s');
    }
  }

  lemma {:induction false} TakeBackVolume(slots: seq<Slot>, r: ResourceId, n: nat)
    ensures Sum(VolumeMl, TakeBack(slots, r, n)) ==
            Sum(VolumeMl, slots) - Min(n, Sum(Unreserved(r), slots)) * UnitVolume(r)
  {
    if slots == [] || n == 0 {
    } else {
      var init, s := slots[..|slots| - 1], slots[|slots| - 1];
      assert slots == init + [s];
      var k := Min(n, Weigh(Unreserved(r), s));
      var s' := s.(quantity := s.quantity - k);
      TakeBackVolume(init, r, n - k);
      SumSnoc(Unreserved(r), init, s);
      SumSnoc(VolumeMl, init, s);
      SumSnoc(VolumeMl, TakeBack(init, r, n - k), s');
      VolumeDrops(s, r, k);
      Distribute(k, Min(n - k, Sum(Unreserved(r), init)), UnitVolume(r));
    }
  }

  lemma VolumeDrops(s: Slot, r: ResourceId, k: nat)
    requires k <= s.quantity && (k == 0 || s.resource == r)
    ensures Weigh(VolumeMl, s.(quantity := s.quantity - k)) == Weigh(VolumeMl, s) - k * UnitVolume(r)
  {
    Distribute(s.quantity - k, k, UnitVolume(s.resource));
  }

  lemma {:induction false} LockLaw(slots: seq<Slot>, r: ResourceId, n: nat, q: ResourceId)
    ensures var out := Lock(slots, r, n);
      var locked := Min(n, Sum(Unreserved(r), slots));
      && |out| == |slots|
      && Sum(Quantity(q), out) == Sum(Quantity(q), slots)
      && Sum(Locked(q), out) == Sum(Locked(q), slots) + (if q == r then locked else 0)
      && Sum(VolumeMl, out) == Sum(VolumeMl, slots)
      && (SlotsSound(slots) ==> SlotsSound(out))
  {
    if slots == [] || n == 0 {
    } else {
      LockLaw(slots[1..], r, n - Min(n, Weigh(Unreserved(r), slots[0])), q);
      if SlotsSound(slots) {
        assert SlotsSound(slots[1..]);
      }
    }
  }

  lemma {:induction false} UnlockLaw(slots: seq<Slot>, r: ResourceId, n: nat, q: ResourceId)
    ensures var out := Unlock(slots, r, n);
      var freed := Min(n, Sum(Locked(r), slots));
      && |out| == |slots|
      && Sum(Quantity(q), out) == Sum(Quantity(q), slots)
      && Sum(Locked(q), out) == Sum(Locked(q), slots) - (if q == r then freed else 0)
      && Sum(VolumeMl, out) == Sum(VolumeMl, slots)
      && (SlotsSound(slots) ==> SlotsSound(out))
  {
    if slots == [] || n == 0 {
    } else {
      UnlockLaw(slots[1..], r, n - Min(n, Weigh(Locked(r), slots[0])), q);
      if SlotsSound(slots) {
        assert SlotsSound(slots[1..]);
      }
    }
  }

  /** On sound slots the deduction walk always completes, and lowers balance and lock alike. */
  lemma {:induction false} DeductLaw(slots: seq<Slot>, r: ResourceId, n: nat, q: ResourceId)
    requires SlotsSound(slots)
    ensures var walk := Deduct(slots, r, n);
      var taken := if q == r then Min(n, Sum(Locked(r), slots)) else 0;
      && walk.completed
      && |walk.slots| == |slots|
      && Sum(Quantity(q), walk.slots) == Sum(Quantity(q), slots) - taken
      && Sum(Locked(q), walk.slots) == Sum(Locked(q), slots) - taken
      && SlotsSound(walk.slots)
  {
    if slots == [] || n == 0 {
    } else {
      DeductLaw(slots[1..], r, n - Min(n, Weigh(Locked(r), slots[0])), q);
    }
  }

  lemma {:induction false} DeductVolume(slots: seq<Slot>, r: ResourceId, n: nat)
    requires SlotsSound(slots)
    ensures Sum(VolumeMl, Deduct(slots, r, n).slots) ==
            Sum(VolumeMl, slots) - Min(n, Sum(Locked(r), slots)) * UnitVolume(r)
  {
    if slots == [] || n == 0 {
    } else {
      var k := Min(n, Weigh(Locked(r), slots[0]));
      var rest := Min(n - k, Sum(Locked(r), slots[1..]));
      DeductVolume(slots[1..], r, n - k);
      VolumeDrops(slots[0], r, k);
      Distribute(k, rest, UnitVolume(r));
      assert Min(n, Sum(Locked(r), slots)) == k + rest;
    }
  }

  lemma {:induction false} CompactLaw(slots: seq<Slot>, q: ResourceId)
    ensures var out := Compact(slots);
      && |out| <= |slots|
      && Sum(Quantity(q), out) == Sum(Quantity(q), slots)
      && Sum(Locked(q), out) == Sum(Locked(q), slots)
      && Sum(VolumeMl, out) == Sum(VolumeMl, slots)
      && (SlotsSound(slots) ==> SlotsSound(out))
  {
    if slots == [] {
    } else {
      CompactLaw(slots[1..], q);
      if SlotsSound(slots) {
        assert SlotsSound(slots[1..]);
      }
    }
  }

  lemma {:induction false} CompactConcat(a: seq<Slot>, b: seq<Slot>)
    ensures Compact(a + b) == Compact(a) + Compact(b)
  {
    if a == [] {
      assert a + b == b;
    } else {
      assert (a + b)[1..] == a[1..] + b;
      CompactConcat(a[1..], b);
    }
  }

  // ---------------------------------------------------------------- reservations

  function Pledge(res: Reservation, r: ResourceId): nat {
    if res.resource == r then res.amount else 0
  }

  /** The pledged total does not depend on the order reservations are visited in. */
  lemma {:induction false} PledgedRemove(m: map<ReservationId, Reservation>, k: ReservationId, r: ResourceId)
    requires k in m
    ensures Pledged(m, r) == Pledge(m[k], r) + Pledged(m - {k}, r)
    decreases |m|
  {
    var j :| j in m && Pledged(m, r) == Pledge(m[j], r) + Pledged(m - {j}, r);
    if j != k {
      PledgedRemove(m - {j}, k, r);
      PledgedRemove(m - {k}, j, r);
      assert m - {j} - {k} == m - {k} - {j};
    }
  }

  lemma PledgedInsert(m: map<ReservationId, Reservation>, k: ReservationId, res: Reservation, r: ResourceId)
    requires k !in m
    ensures Pledged(m[k := res], r) == Pledge(res, r) + Pledged(m, r)
  {
    PledgedRemove(m[k := res], k, r);
    assert m[k := res] - {k} == m;
  }

  // ---------------------------------------------------------------- operations

  /** `add` succeeds iff `can_accept`, adds exactly `n` of `r` and nothing else. */
  lemma AddLaw(c: Container, r: ResourceId, n: nat, q: ResourceId)
    ensures var o := AddTo(c, r, n);
      && (o.result.Ok? <==> CanAccept(c, r, n))
      && (o.result.Err? ==> o.after == c && o.result.error == FullError(c))
      && (o.result.Ok? ==>
            && Sum(Quantity(q), o.after.slots) == Sum(Quantity(q), c.slots) + (if q == r then n else 0)
            && Sum(Locked(q), o.after.slots) == Sum(Locked(q), c.slots)
            && Sum(VolumeMl, o.after.slots) == Sum(VolumeMl, c.slots) + n * UnitVolume(r)
            && o.after == c.(slots := o.after.slots))
  {
    if n > 0 && CanAccept(c, r, n) {
      var limit := Lookup(r).value.stackLimit;
      var room := Sum(Headroom(r, limit), c.slots);
      var rest := n - Min(n, room);
      FillLaw(c.slots, r, limit, n, q);
      FillVolume(c.slots, r, limit, n);
      GrowLaw(r, limit, rest, q);
      forall m: Measure ensures Sum(m, Fill(c.slots, r, limit, n) + Grow(r, limit, rest)) ==
                               Sum(m, Fill(c.slots, r, limit, n)) + Sum(m, Grow(r, limit, rest)) {
        SumConcat(m, Fill(c.slots, r, limit, n), Grow(r, limit, rest));
      }
      Distribute(Min(n, room), rest, UnitVolume(r));
    }
  }

  lemma AddStaysInSlots(c: Container, r: ResourceId, n: nat)
    requires |c.slots| <= c.maxSlots
    ensures |AddTo(c, r, n).after.slots| <= c.maxSlots
    ensures SlotsSound(c.slots) ==> SlotsSound(AddTo(c, r, n).after.slots)
  {
    if n > 0 && CanAccept(c, r, n) {
      var limit := Lookup(r).value.stackLimit;
      var rest := n - Min(n, Sum(Headroom(r, limit), c.slots));
      FillLaw(c.slots, r, limit, n, r);
      GrowLaw(r, limit, rest, r);
      if rest > 0 {
        GrowLength(r, limit, rest, c.maxSlots - |c.slots|);
      }
    }
  }

  lemma AddKeepsSound(c: Container, r: ResourceId, n: nat)
    requires Sound(c)
    ensures Sound(AddTo(c, r, n).after)
  {
    var o := AddTo(c, r, n);
    AddStaysInSlots(c, r, n);
    AddLaw(c, r, n, r);
    forall q: ResourceId ensures Sum(Locked(q), o.after.slots) == Pledged(o.after.reservations, q) {
      AddLaw(c, r, n, q);
      assert Sum(Locked(q), c.slots) == Pledged(c.reservations, q);
    }
  }

  lemma RemoveLaw(c: Container, r: ResourceId, n: nat, q: ResourceId)
    ensures var o := RemoveFrom(c, r, n);
      && (o.result.Ok? <==> n <= Sum(Unreserved(r), c.slots))
      && (o.result.Err? ==> o.after == c)
      && (o.result.Ok? ==>
            && Sum(Quantity(q), o.after.slots) == Sum(Quantity(q), c.slots) - (if q == r then n else 0)
            && Sum(Locked(q), o.after.slots) == Sum(Locked(q), c.slots)
            && Sum(VolumeMl, o.after.slots) == Sum(VolumeMl, c.slots) - n * UnitVolume(r)
            && o.after == c.(slots := o.after.slots))
  {
    TakeBackLaw(c.slots, r, n, q);
    TakeBackVolume(c.slots, r, n);
    CompactLaw(TakeBack(c.slots, r, n), q);
  }

  lemma RemoveShrinks(c: Container, r: ResourceId, n: nat)
    ensures var slots := RemoveFrom(c, r, n).after.slots;
      && |slots| <= |c.slots|
      && Sum(VolumeMl, slots) <= Sum(VolumeMl, c.slots)
      && (SlotsSound(c.slots) ==> SlotsSound(slots))
  {
    RemoveLaw(c, r, n, r);
    MulMono(0, n, UnitVolume(r));
    TakeBackLaw(c.slots, r, n, r);
    CompactLaw(TakeBack(c.slots, r, n), r);
  }

  lemma RemoveKeepsSound(c: Container, r: ResourceId, n: nat)
    requires Sound(c)
    ensures Sound(RemoveFrom(c, r, n).after)
  {
    var o := RemoveFrom(c, r, n);
    RemoveShrinks(c, r, n);
    forall q: ResourceId ensures Sum(Locked(q), o.after.slots) == Pledged(o.after.reservations, q) {
      RemoveLaw(c, r, n, q);
      assert Sum(Locked(q), c.slots) == Pledged(c.reservations, q);
    }
  }

  lemma ReserveLaw(c: Container, id: ReservationId, r: ResourceId, n: u32, tick: SimTick, target: Option<EntityId>,
                   q: ResourceId)
    ensures var o := ReserveIn(c, id, r, n, tick, target);
      && (o.result.Ok? <==> id != NULL_ID && (n == 0 || (id !in c.reservations && n <= Sum(Unreserved(r), c.slots))))
      && (o.result.Err? ==> o.after == c)
      && Sum(Quantity(q), o.after.slots) == Sum(Quantity(q), c.slots)
      && Sum(VolumeMl, o.after.slots) == Sum(VolumeMl, c.slots)
      && (o.result.Ok? ==>
            && Sum(Locked(q), o.after.slots) == Sum(Locked(q), c.slots) + (if q == r then n else 0)
            && o.after == c.(slots := o.after.slots, reservations := o.after.reservations)
            && Pledged(o.after.reservations, q) == Pledged(c.reservations, q) + (if q == r then n else 0))
  {
    LockLaw(c.slots, r, n, q);
    if ReserveIn(c, id, r, n, tick, target).result.Ok? && n > 0 {
      PledgedInsert(c.reservations, id, Reservation(r, n, tick, c.owner, target), q);
    }
  }

  lemma ReserveKeepsSound(c: Container, id: ReservationId, r: ResourceId, n: u32, tick: SimTick,
                          target: Option<EntityId>)
    requires Sound(c)
    ensures Sound(ReserveIn(c, id, r, n, tick, target).after)
  {
    var o := ReserveIn(c, id, r, n, tick, target);
    forall q: ResourceId ensures Sum(Locked(q), o.after.slots) == Pledged(o.after.reservations, q) {
      ReserveLaw(c, id, r, n, tick, target, q);
      assert Sum(Locked(q), c.slots) == Pledged(c.reservations, q);
    }
    ReserveLaw(c, id, r, n, tick, target, r);
    LockLaw(c.slots, r, n, r);
  }

  /** In a sound container committing a live reservation cannot fail, and deducts exactly it. */
  lemma CommitLaw(c: Container, id: ReservationId, q: ResourceId)
    requires Sound(c)
    ensures var o := CommitIn(c, id);
      && (o.result.Ok? <==> id in c.reservations)
      && (o.result.Err? ==> o.after == c && o.result.error == ReservationNotFound(id))
      && (o.result.Ok? ==>
            var res := c.reservations[id];
            && o.result.value == (res.resource, res.amount)
            && Sum(Quantity(q), o.after.slots) == Sum(Quantity(q), c.slots) - Pledge(res, q)
            && Sum(Locked(q), o.after.slots) == Sum(Locked(q), c.slots) - Pledge(res, q)
            && Sum(VolumeMl, o.after.slots) == Sum(VolumeMl, c.slots) - res.amount * UnitVolume(res.resource)
            && o.after == c.(slots := o.after.slots, reservations := c.reservations - {id}))
  {
    if id in c.reservations {
      var res := c.reservations[id];
      PledgedRemove(c.reservations, id, res.resource);
      assert Sum(Locked(res.resource), c.slots) == Pledged(c.reservations, res.resource);
      LockedWithinQuantity(c.slots, res.resource);
      DeductLaw(c.slots, res.resource, res.amount, q);
      DeductVolume(c.slots, res.resource, res.amount);
      CompactLaw(Deduct(c.slots, res.resource, res.amount).slots, q);
    }
  }

  lemma CommitShrinks(c: Container, id: ReservationId)
    requires Sound(c)
    ensures var slots := CommitIn(c, id).after.slots;
      && |slots| <= |c.slots|
      && Sum(VolumeMl, slots) <= Sum(VolumeMl, c.slots)
      && SlotsSound(slots)
  {
    CommitLaw(c, id, 0);
    if id in c.reservations {
      var res := c.reservations[id];
      MulMono(0, res.amount, UnitVolume(res.resource));
      DeductLaw(c.slots, res.resource, res.amount, 0);
      CompactLaw(Deduct(c.slots, res.resource, res.amount).slots, 0);
    }
  }

  lemma CommitKeepsSound(c: Container, id: ReservationId)
    requires Sound(c)
    ensures Sound(CommitIn(c, id).after)
  {
    var o := CommitIn(c, id);
    CommitShrinks(c, id);
    forall q: ResourceId ensures Sum(Locked(q), o.after.slots) == Pledged(o.after.reservations, q) {
      CommitLaw(c, id, q);
      if id in c.reservations {
        PledgedRemove(c.reservations, id, q);
      }
      assert Sum(Locked(q), c.slots) == Pledged(c.reservations, q);
    }
  }

  /** In a sound container releasing a live reservation cannot fail, and frees exactly it. */
  lemma ReleaseLaw(c: Container, id: ReservationId, q: ResourceId)
    requires Sound(c)
    ensures var o := ReleaseIn(c, id);
      && (o.result.Ok? <==> id in c.reservations)
      && (o.result.Err? ==> o.after == c && o.result.error == ReservationNotFound(id))
      && Sum(Quantity(q), o.after.slots) == Sum(Quantity(q), c.slots)
      && Sum(VolumeMl, o.after.slots) == Sum(VolumeMl, c.slots)
      && (o.result.Ok? ==>
            var res := c.reservations[id];
            && o.result.value == (res.resource, res.amount)
            && Sum(Locked(q), o.after.slots) == Sum(Locked(q), c.slots) - Pledge(res, q)
            && o.after == c.(slots := o.after.slots, reservations := c.reservations - {id}))
  {
    if id in c.reservations {
      var res := c.reservations[id];
      PledgedRemove(c.reservations, id, res.resource);
      assert Sum(Locked(res.resource), c.slots) == Pledged(c.reservations, res.resource);
      UnlockLaw(c.slots, res.resource, res.amount, q);
    }
  }

  lemma ReleaseKeepsSound(c: Container, id: ReservationId)
    requires Sound(c)
    ensures Sound(ReleaseIn(c, id).after)
  {
    var o := ReleaseIn(c, id);
    ReleaseLaw(c, id, 0);
    if o.result.Ok? {
      forall q: ResourceId ensures Sum(Locked(q), o.after.slots) == Pledged(o.after.reservations, q) {
        ReleaseLaw(c, id, q);
        PledgedRemove(c.reservations, id, q);
        assert Sum(Locked(q), c.slots) == Pledged(c.reservations, q);
      }
      UnlockLaw(c.slots, c.reservations[id].resource, c.reservations[id].amount, 0);
    }
  }
}
