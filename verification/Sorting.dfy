/** The sorted list of a finite set of UIDs, as `sorted(...)` returns it. */
module Sorting {

  predicate Ascends(q: seq<nat>) {
    forall i, j :: 0 <= i < j < |q| ==> q[i] < q[j]
  }

  predicate IsLeast(m: nat, s: set<nat>) {
    m in s && forall x :: x in s ==> m <= x
  }

  lemma {:induction false} LeastExists(s: set<nat>)
    requires s != {}
    ensures exists m :: IsLeast(m, s)
  {
    var m :| m in s;
    if s != {m} {
      var rest := s - {m};
      assert s == rest + {m};
      LeastExists(rest);
      var k :| IsLeast(k, rest);
      assert IsLeast(if k < m then k else m, s);
    } else {
      assert IsLeast(m, s);
    }
  }

  function Least(s: set<nat>): (m: nat)
    requires s != {}
    ensures IsLeast(m, s)
  {
    LeastExists(s);
    var m :| m in s && IsLeast(m, s);
    m
  }

  function Ascending(s: set<nat>): (q: seq<nat>)
    ensures |q| == |s|
  {
    if s == {} then [] else [Least(s)] + Ascending(s - {Least(s)})
  }

  lemma {:induction false} AscendingMembers(s: set<nat>)
    ensures forall x :: x in Ascending(s) <==> x in s
  {
    if s != {} { AscendingMembers(s - {Least(s)}); }
  }

  lemma {:induction false} AscendingAscends(s: set<nat>)
    ensures Ascends(Ascending(s))
  {
    if s != {} {
      var m := Least(s);
      var rest := Ascending(s - {m});
      AscendingAscends(s - {m});
      AscendingMembers(s - {m});
      forall i | 0 <= i < |rest| ensures m < rest[i] { assert rest[i] in rest; }
    }
  }

  /** Sorting has one answer. */
  lemma {:induction false} AscendingIs(s: set<nat>, q: seq<nat>)
    requires Ascends(q) && forall x :: x in q <==> x in s
    ensures Ascending(s) == q
  {
    if q == [] {
      assert s == {};
    } else {
      assert q[0] in s;
      var m := Least(s);
      assert m == q[0] by {
        var i :| 0 <= i < |q| && q[i] == m;
      }
      assert forall x :: x in q[1..] <==> x in s - {m};
      AscendingIs(s - {m}, q[1..]);
    }
  }

  lemma AscendingLeast(s: set<nat>, m: nat)
    requires IsLeast(m, s)
    ensures Ascending(s) == [m] + Ascending(s - {m})
  {
  }
}
