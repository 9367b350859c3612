/** Bitfields as finite sets of sector numbers, iterated in ascending order. */
module Bitfields {

  ghost predicate StrictlyAscending(xs: seq<nat>) {
    forall i, j :: 0 <= i < j < |xs| ==> xs[i] < xs[j]
  }

  lemma {:induction false} LeastExists(s: set<nat>)
    requires s != {}
    ensures exists m :: m in s && forall x :: x in s ==> m <= x
    decreases s
  {
    var y :| y in s;
    var rest := s - {y};
    if rest == {} {
      assert s == {y};
    } else {
      LeastExists(rest);
      var m :| m in rest && forall x :: x in rest ==> m <= x;
      assert forall x :: x in s ==> x == y || x in rest;
      var least := if m <= y then m else y;
      assert least in s && forall x :: x in s ==> least <= x;
    }
  }

  function Least(s: set<nat>): (m: nat)
    requires s != {}
    ensures m in s && forall x :: x in s ==> m <= x
  {
    LeastExists(s);
    var m :| m in s && forall x :: x in s ==> m <= x;
    m
  }

  /** The order in which a bitfield is walked. */
  function Ascending(s: set<nat>): (xs: seq<nat>)
    ensures |xs| == |s|
  {
    if s == {} then []
    else
      var m := Least(s);
      [m] + Ascending(s - {m})
  }

  lemma {:induction false} AscendingMembers(s: set<nat>, x: nat)
    ensures x in Ascending(s) <==> x in s
  {
    if s != {} {
      AscendingMembers(s - {Least(s)}, x);
    }
  }

  lemma {:induction false} AscendingSorted(s: set<nat>)
    ensures StrictlyAscending(Ascending(s))
  {
    if s != {} {
      var m := Least(s);
      var rest := Ascending(s - {m});
      AscendingSorted(s - {m});
      forall i | 0 <= i < |rest|
        ensures m < rest[i]
      {
        AscendingMembers(s - {m}, rest[i]);
      }
    }
  }
}
