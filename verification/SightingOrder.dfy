/** In which order a step records what it sees: robots, avatars, structures, and then what is lost. */
module SightingOrder {
  import opened OrderedKeys
  import opened Knowledge

  /** Everybody in the order of the census: robots, avatars, and structures by number. */
  ghost function Roll(w: Census): seq<Contact> {
    var ids := Ascending(w.structures.Keys);
    RobotRoll(w.robots) + AvatarRoll(w.avatars) + StructureRoll(w, ids)
  }

  function RobotRoll(rs: seq<Robot>): seq<Contact> {
    seq(|rs|, i requires 0 <= i < |rs| => Contact(rs[i].entity, rs[i].position))
  }

  function AvatarRoll(avatars: seq<Avatar>): seq<Contact> {
    seq(|avatars|, i requires 0 <= i < |avatars| => Contact(avatars[i].entity, avatars[i].position))
  }

  ghost function StructureRoll(w: Census, ids: seq<nat>): seq<Contact>
    requires forall id :: id in ids ==> id in w.structures
  {
    seq(|ids|, i requires 0 <= i < |ids| => Contact(ids[i], w.structures[ids[i]].position))
  }

  /** `some` are the elements of `all` at the rising places `at`. */
  ghost predicate Picked<T>(all: seq<T>, at: seq<nat>, some: seq<T>) {
    && |some| == |at|
    && (forall i :: 0 <= i < |at| ==> at[i] < |all| && some[i] == all[at[i]])
    && (forall i, j :: 0 <= i < j < |at| ==> at[i] < at[j])
  }

  lemma PickedMore<T>(all: seq<T>, last: T, at: seq<nat>, some: seq<T>)
    requires Picked(all, at, some)
    ensures Picked(all + [last], at, some) && Picked(all + [last], at + [|all|], some + [last])
  {
  }

  lemma PickedBoth<T>(a: seq<T>, b: seq<T>, at: seq<nat>, bt: seq<nat>, x: seq<T>, y: seq<T>) returns (ct: seq<nat>)
    requires Picked(a, at, x) && Picked(b, bt, y)
    ensures Picked(a + b, ct, x + y)
  {
    ct := at + seq(|bt|, i requires 0 <= i < |bt| => |a| + bt[i]);
  }

  lemma PickedTwice<T>(a: seq<T>, b: seq<T>, c: seq<T>, at: seq<nat>, bt: seq<nat>) returns (ct: seq<nat>)
    requires Picked(a, at, b) && Picked(b, bt, c)
    ensures Picked(a, ct, c)
  {
    ct := seq(|bt|, i requires 0 <= i < |bt| => at[bt[i]]);
  }

  lemma {:induction false} RobotsPicked(f: nat, v: View, rs: seq<Robot>) returns (at: seq<nat>)
    ensures Picked(RobotRoll(rs), at, RobotContacts(f, v, rs))
  {
    hide Picked, Sees;
    if rs == [] {
      at := NothingPicked(RobotRoll(rs), RobotContacts(f, v, rs));
    } else {
      var before, last := rs[..|rs| - 1], rs[|rs| - 1];
      at := RobotsPicked(f, v, before);
      var c := Contact(last.entity, last.position);
      PickedMore(RobotRoll(before), c, at, RobotContacts(f, v, before));
      assert RobotRoll(rs) == RobotRoll(before) + [c];
      if last.faction != f && last.hp > 0 && Sees(v, last.position) {
        at := at + [|before|];
      }
    }
  }

  lemma NothingPicked<T>(all: seq<T>, some: seq<T>) returns (at: seq<nat>)
    requires some == []
    ensures Picked(all, at, some)
  {
    at := [];
  }

  lemma {:induction false} AvatarsPicked(f: nat, v: View, avatars: seq<Avatar>) returns (at: seq<nat>)
    ensures Picked(AvatarRoll(avatars), at, AvatarContacts(f, v, avatars))
  {
    hide Picked, Sees;
    if avatars == [] {
      at := NothingPicked(AvatarRoll(avatars), AvatarContacts(f, v, avatars));
    } else {
      var before, last := avatars[..|avatars| - 1], avatars[|avatars| - 1];
      at := AvatarsPicked(f, v, before);
      var c := Contact(last.entity, last.position);
      PickedMore(AvatarRoll(before), c, at, AvatarContacts(f, v, before));
      assert AvatarRoll(avatars) == AvatarRoll(before) + [c];
      if last.faction != f && Sees(v, last.position) {
        at := at + [|before|];
      }
    }
  }

  lemma {:induction false} StructuresPicked(f: nat, v: View, w: Census, ids: seq<nat>) returns (at: seq<nat>)
    requires forall id :: id in ids ==> id in w.structures
    ensures Picked(StructureRoll(w, ids), at, StructureContacts(f, v, w.structures, ids))
  {
    hide Picked, Observed;
    if ids == [] {
      at := NothingPicked(StructureRoll(w, ids), StructureContacts(f, v, w.structures, ids));
    } else {
      var before, last := ids[..|ids| - 1], ids[|ids| - 1];
      at := StructuresPicked(f, v, w, before);
      var c := Contact(last, w.structures[last].position);
      PickedMore(StructureRoll(w, before), c, at, StructureContacts(f, v, w.structures, before));
      assert StructureRoll(w, ids) == StructureRoll(w, before) + [c];
      if Observed(f, v, w.structures[last]) {
        at := at + [|before|];
      }
    }
  }

  lemma ContactsPicked(f: nat, v: View, w: Census) returns (at: seq<nat>)
    ensures Picked(Roll(w), at, Contacts(f, v, w))
  {
    hide Picked, RobotContacts, AvatarContacts, StructureContacts, RobotRoll, AvatarRoll, StructureRoll, Ascending;
    var ids := Ascending(w.structures.Keys);
    var rs, avs := RobotRoll(w.robots), AvatarRoll(w.avatars);
    var rt := RobotsPicked(f, v, w.robots);
    var vt := AvatarsPicked(f, v, w.avatars);
    var st := StructuresPicked(f, v, w, ids);
    at := PickedBoth(rs, avs, rt, vt, RobotContacts(f, v, w.robots), AvatarContacts(f, v, w.avatars));
    at := PickedBoth(rs + avs, StructureRoll(w, ids), at, st,
                     RobotContacts(f, v, w.robots) + AvatarContacts(f, v, w.avatars),
                     StructureContacts(f, v, w.structures, ids));
  }

  /** What comes into view is recorded in the order of the contacts. */
  lemma {:induction false} SpottedPicked(f: nat, tick: nat, previous: set<nat>, cs: seq<Contact>)
    returns (at: seq<nat>, novel: seq<Contact>)
    ensures Picked(cs, at, novel) && |Spotted(f, tick, previous, cs)| == |novel|
    ensures forall i :: 0 <= i < |novel| ==>
              Spotted(f, tick, previous, cs)[i] == EntitySpotted(tick, f, novel[i].entity, novel[i].position)
  {
    hide Picked;
    if cs == [] {
      novel := [];
      at := NothingPicked(cs, novel);
    } else {
      var before, last := cs[..|cs| - 1], cs[|cs| - 1];
      at, novel := SpottedPicked(f, tick, previous, before);
      PickedMore(before, last, at, novel);
      assert cs == before + [last];
      if last.entity !in previous {
        at, novel := at + [|before|], novel + [last];
      }
    }
  }

  ghost predicate LostInOrder(xs: seq<Sighting>) {
    && (forall i :: 0 <= i < |xs| ==> xs[i].EntityLost?)
    && (forall i, j :: 0 <= i < j < |xs| ==> xs[i].target < xs[j].target)
  }

  lemma {:induction false} LostInOrderOf(f: nat, tick: nat, previous: seq<nat>, visible: set<nat>)
    requires forall i, j :: 0 <= i < j < |previous| ==> previous[i] < previous[j]
    ensures var xs := LostFrom(f, tick, previous, visible);
      && LostInOrder(xs)
      && forall x :: x in xs ==> x.EntityLost? && x.target in previous
  {
    if previous == [] {
    } else {
      var before, last := previous[..|previous| - 1], previous[|previous| - 1];
      LostInOrderOf(f, tick, before, visible);
      assert previous == before + [last];
      var xs := LostFrom(f, tick, before, visible);
      forall i | 0 <= i < |xs| ensures xs[i].EntityLost? && xs[i].target < last {
        assert xs[i] in xs;
      }
    }
  }

  /**
   A step first records what has come into view, in the order of the census and under its own
   number and place, and then what is lost, by number.
   */
  lemma RecordOrder(k: Knowledge, f: nat, tick: nat, mult: real, w: Census)
    returns (at: seq<nat>, novel: seq<Contact>, lost: seq<Sighting>)
    ensures Picked(Roll(w), at, novel) && LostInOrder(lost)
    ensures Recorded(k, f, tick, mult, w) ==
            seq(|novel|, i requires 0 <= i < |novel| => EntitySpotted(tick, f, novel[i].entity, novel[i].position))
            + lost
  {
    hide Picked, Roll, ViewOf, Contacts, Spotted, LostFrom, LostInOrder, Ascending;
    var v := ViewOf(k, f, mult, w);
    var contacts := Contacts(f, v, w);
    var ct := ContactsPicked(f, v, w);
    var st;
    st, novel := SpottedPicked(f, tick, k.visible, contacts);
    at := PickedTwice(Roll(w), contacts, novel, ct, st);
    LostInOrderOf(f, tick, Ascending(k.visible), Entities(contacts));
    lost := LostFrom(f, tick, Ascending(k.visible), Entities(contacts));
    assert Spotted(f, tick, k.visible, contacts) ==
      seq(|novel|, i requires 0 <= i < |novel| => EntitySpotted(tick, f, novel[i].entity, novel[i].position));
  }
}
