/** The keys of an ordered map, in the order in which it iterates. */
module OrderedKeys {
  predicate IsLeast(s: set<nat>, m: nat) {
    m in s && forall x :: x in s ==> m <= x
  }

  function Least(s: set<nat>): (m: nat)
    requires s != {}
    ensures IsLeast(s, m)
  {
    LeastExists(s);
    var m :| m in s && IsLeast(s, m);
    m
  }

  lemma LeastExists(s: set<nat>)
    requires s != {}
    ensures exists m :: m in s && IsLeast(s, m)
  {
    var x :| x in s;
    var rest := s - {x};
    if rest == {} {
      assert forall y :: y in s ==> y == x || y in rest;
      assert IsLeast(s, x);
    } else {
      LeastExists(rest);
      var m :| m in rest && IsLeast(rest, m);
      LeastOfTwo(s, x, m);
    }
  }

  lemma LeastOfTwo(s: set<nat>, x: nat, m: nat)
    requires x in s && IsLeast(s - {x}, m)
    ensures IsLeast(s, if x < m then x else m)
  {
    forall y | y in s ensures (if x < m then x else m) <= y {
      assert y == x || y in s - {x};
    }
  }

  lemma PutFirst(s: set<nat>, first: nat, rest: seq<nat>)
    requires IsLeast(s, first)
    requires forall x :: x in rest <==> x in s && x != first
    requires forall i, j :: 0 <= i < j < |rest| ==> rest[i] < rest[j]
    ensures forall x :: x in [first] + rest <==> x in s
    ensures var ids := [first] + rest; forall i, j :: 0 <= i < j < |ids| ==> ids[i] < ids[j]
  {
    var ids := [first] + rest;
    forall i, j | 0 <= i < j < |ids| ensures ids[i] < ids[j] {
      assert ids[j] == rest[j - 1] && rest[j - 1] in rest;
    }
  }

  /** The keys of an ordered map, smallest first. */
  function Ascending(s: set<nat>): (ids: seq<nat>)
    ensures forall x :: x in ids <==> x in s
    ensures forall i, j :: 0 <= i < j < |ids| ==> ids[i] < ids[j]
    ensures |ids| == |s|
  {
    if s == {} then []
    else
      var first := Least(s);
      var rest := Ascending(s - {first});
      PutFirst(s, first, rest);
      [first] + rest
  }
}
