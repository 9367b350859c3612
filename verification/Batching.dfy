/**
 The commitment batcher (damocles-manager/modules/impl/commitmgr/batcher.go).

 One loop owns the pending list.  It is filled from a channel and emptied in
 full, when the threshold is reached or on a manual signal, or in part, on a
 timer, by filtering the expired sectors out of the list in place.
 */
module Batching {
  import opened Common

  /** A received sector: the number of its arrival and its id. */
  datatype Sector = Sector(arrival: nat, id: nat)

  /** One turn of the loop, with the threshold configured at that moment.  A tick
      carries the ids the processor reports as expired, none when it fails. */
  datatype Event =
    | Arrive(id: nat, threshold: int)
    | Manual(threshold: int)
    | Tick(expired: set<nat>, threshold: int)

  // ---------------------------------------------------------------------------
  // Specification

  function Having(xs: seq<Sector>, ids: set<nat>): seq<Sector> {
    if xs == [] then []
    else
      var n := |xs| - 1;
      if xs[n].id in ids then Having(xs[..n], ids) + [xs[n]] else Having(xs[..n], ids)
  }

  function Lacking(xs: seq<Sector>, ids: set<nat>): seq<Sector> {
    if xs == [] then []
    else
      var n := |xs| - 1;
      if xs[n].id in ids then Lacking(xs[..n], ids) else Lacking(xs[..n], ids) + [xs[n]]
  }

  /** The pending list, the number of arrivals, and every dispatched list. */
  datatype State = State(pending: seq<Sector>, arrived: nat, dispatched: seq<seq<Sector>>)

  const Initial := State([], 0, [])

  function Dispatch(s: State, list: seq<Sector>, rest: seq<Sector>): State {
    State(rest, s.arrived, if list == [] then s.dispatched else s.dispatched + [list])
  }

  function Receive(s: State, e: Event): State {
    if e.Arrive? then s.(pending := s.pending + [Sector(s.arrived, e.id)], arrived := s.arrived + 1) else s
  }

  function Step(s: State, e: Event): State {
    var r := Receive(s, e);
    if |r.pending| >= e.threshold || e.Manual? then Dispatch(r, r.pending, [])
    else if e.Tick? then Dispatch(r, Having(r.pending, e.expired), Lacking(r.pending, e.expired))
    else r
  }

  function Run(events: seq<Event>): State {
    if events == [] then Initial else Step(Run(events[..|events| - 1]), events[|events| - 1])
  }

  ghost predicate InOrder(xs: seq<Sector>) {
    forall i, j :: 0 <= i < j < |xs| ==> xs[i].arrival < xs[j].arrival
  }

  // ---------------------------------------------------------------------------
  // One turn, by the pending and dispatched lists alone

  /** Everything pending when the turn looks at the list. */
  ghost function Present(s: State, e: Event): seq<Sector> {
    if e.Arrive? then s.pending + [Sector(s.arrived, e.id)] else s.pending
  }

  /** The list is sent as a whole: the threshold is reached, or by hand. */
  ghost predicate SendsAll(s: State, e: Event) {
    Present(s, e) != [] && (e.Manual? || |Present(s, e)| >= e.threshold)
  }

  /** The timer finds expired sectors in a list below the threshold. */
  ghost predicate SendsExpired(s: State, e: Event) {
    !SendsAll(s, e) && e.Tick? && exists x :: x in s.pending && x.id in e.expired
  }

  /** `list` and `rest` share out `xs`, each in order: the expired ones and the others. */
  ghost predicate SplitByExpiry(xs: seq<Sector>, expired: set<nat>, list: seq<Sector>, rest: seq<Sector>) {
    && multiset(list) + multiset(rest) == multiset(xs)
    && (forall x :: x in list <==> x in xs && x.id in expired)
    && (forall x :: x in rest <==> x in xs && x.id !in expired)
    && (InOrder(xs) ==> InOrder(list) && InOrder(rest))
  }

  /** What a turn leads to: the whole list is sent, or exactly its expired sectors, as one new
      list; or nothing is sent. */
  ghost predicate Turns(s: State, e: Event, t: State) {
    && t.arrived == s.arrived + One(e.Arrive?)
    && (SendsAll(s, e) ==> t.pending == [] && t.dispatched == s.dispatched + [Present(s, e)])
    && (SendsExpired(s, e) ==>
          && |t.dispatched| == |s.dispatched| + 1
          && t.dispatched[..|s.dispatched|] == s.dispatched
          && SplitByExpiry(s.pending, e.expired, t.dispatched[|s.dispatched|], t.pending))
    && (!SendsAll(s, e) && !SendsExpired(s, e) ==> t.pending == Present(s, e) && t.dispatched == s.dispatched)
  }

  // ---------------------------------------------------------------------------
  // batcher.go

  /** Halfway through the in-place filter: the kept sectors sit at the front,
      the unread ones are untouched. */
  ghost predicate Sieved(before: seq<Sector>, now: seq<Sector>, i: nat, remain: nat, expired: set<nat>) {
    && remain <= i <= |before| == |now|
    && now[i..] == before[i..]
    && now[..remain] == Lacking(before[..i], expired)
  }

  lemma SieveStep(before: seq<Sector>, now: seq<Sector>, i: nat, remain: nat, expired: set<nat>)
    requires i < |before| && Sieved(before, now, i, remain, expired)
    ensures now[i] == before[i]
    ensures Having(before[..i + 1], expired)
            == if now[i].id in expired then Having(before[..i], expired) + [now[i]] else Having(before[..i], expired)
    ensures if now[i].id in expired then Sieved(before, now, i + 1, remain, expired)
            else Sieved(before, now[remain := now[i]], i + 1, remain + 1, expired)
  {
    assert now[i] == now[i..][0] == before[i];
    assert before[..i + 1][..i] == before[..i];
    assert now[i + 1..] == now[i..][1..] == before[i + 1..];
    var next := now[remain := now[i]];
    assert next[i + 1..] == now[i + 1..];
    assert next[..remain + 1] == now[..remain] + [now[i]];
  }

  class Batcher {
    var buf: array<Sector>
    var len: nat
    var arrived: nat
    var dispatched: seq<seq<Sector>>

    ghost predicate Valid()
      reads this
    {
      len <= buf.Length
    }

    ghost function Abs(): State
      requires Valid()
      reads this, buf
    {
      State(buf[..len], arrived, dispatched)
    }

    constructor (capacity: nat)
      ensures Valid() && fresh(buf) && Abs() == Initial
    {
      buf := new Sector[capacity](_ => Sector(0, 0));
      len, arrived, dispatched := 0, 0, [];
    }

    /** append: writes after the last pending sector, or moves to a larger buffer. */
    method Append(s: Sector)
      requires Valid()
      modifies this`buf, this`len, buf
      ensures Valid() && (buf == old(buf) || fresh(buf))
      ensures buf[..len] == old(buf[..len]) + [s]
    {
      if len == buf.Length {
        var old_ := buf;
        var bigger := new Sector[2 * len + 1](_ => s);
        for i := 0 to len
          invariant bigger[..i] == old_[..i] && bigger != old_ && fresh(bigger)
          invariant buf == old_ && len == old(len) && old_[..] == old(buf[..])
        {
          bigger[i] := old_[i];
        }
        buf := bigger;
      }
      buf[len] := s;
      len := len + 1;
    }

    /** The filter that shares its buffer with the list it reads: `remain` is
        written behind the reading position. */
    method FilterInPlace(expired: set<nat>) returns (list: seq<Sector>)
      requires Valid()
      modifies this`len, buf
      ensures Valid()
      ensures list == Having(old(buf[..len]), expired)
      ensures buf[..len] == Lacking(old(buf[..len]), expired)
    {
      ghost var before := buf[..len];
      list := [];
      var remain := 0;
      for i := 0 to len
        invariant len == old(len)
        invariant Sieved(before, buf[..len], i, remain, expired)
        invariant list == Having(before[..i], expired)
      {
        ghost var now := buf[..len];
        SieveStep(before, now, i, remain, expired);
        if buf[i].id in expired {
          list := list + [buf[i]];
        } else {
          buf[remain] := buf[i];
          assert buf[..len] == now[remain := now[i]];
          remain := remain + 1;
        }
      }
      assert before[..len] == before;
      assert buf[..remain] == buf[..len][..remain];
      len := remain;
    }

    method Handle(e: Event)
      requires Valid()
      modifies this, buf
      ensures Valid() && (buf == old(buf) || fresh(buf))
      ensures Abs() == Step(old(Abs()), e)
      ensures Turns(old(Abs()), e, Abs())
    {
      StepTurns(Abs(), e);
      if e.Arrive? {
        Append(Sector(arrived, e.id));
        arrived := arrived + 1;
      }
      assert Abs() == Receive(old(Abs()), e);
      if len > 0 {
        var list: seq<Sector> := [];
        if len >= e.threshold || e.Manual? {
          list := buf[..len];
          len := 0;
        } else if e.Tick? && e.expired != {} {
          list := FilterInPlace(e.expired);
        } else if e.Tick? {
          NoneExpired(buf[..len], {});
        }
        if |list| > 0 {
          dispatched := dispatched + [list];
        }
      }
    }
  }

  // ---------------------------------------------------------------------------
  // Every run

  /** The sectors received during a run, in order of arrival. */
  ghost function Received(events: seq<Event>): seq<Sector> {
    if events == [] then []
    else
      var n := |events| - 1;
      var before := Received(events[..n]);
      before + if events[n].Arrive? then [Sector(|before|, events[n].id)] else []
  }

  lemma {:induction false} FilterSplits(xs: seq<Sector>, ids: set<nat>)
    ensures multiset(Having(xs, ids)) + multiset(Lacking(xs, ids)) == multiset(xs)
  {
    if xs != [] {
      var n := |xs| - 1;
      FilterSplits(xs[..n], ids);
      MultisetSnoc(xs[..n], xs[n]);
      MultisetSnoc(Having(xs[..n], ids), xs[n]);
      MultisetSnoc(Lacking(xs[..n], ids), xs[n]);
      assert xs[..n] + [xs[n]] == xs;
    }
  }

  lemma MultisetSnoc(xs: seq<Sector>, x: Sector)
    ensures multiset(xs + [x]) == multiset(xs) + multiset{x}
  {
  }

  lemma {:induction false} FilterMembers(xs: seq<Sector>, ids: set<nat>, x: Sector)
    ensures x in Having(xs, ids) <==> x in xs && x.id in ids
    ensures x in Lacking(xs, ids) <==> x in xs && x.id !in ids
  {
    if xs != [] {
      var n := |xs| - 1;
      FilterMembers(xs[..n], ids, x);
      assert xs == xs[..n] + [xs[n]];
    }
  }

  lemma {:induction false} FilterKeepsOrder(xs: seq<Sector>, ids: set<nat>)
    requires InOrder(xs)
    ensures InOrder(Having(xs, ids)) && InOrder(Lacking(xs, ids))
  {
    if xs != [] {
      var n := |xs| - 1;
      FilterKeepsOrder(xs[..n], ids);
      forall i | 0 <= i < |Having(xs[..n], ids)|
        ensures Having(xs[..n], ids)[i].arrival < xs[n].arrival
      {
        FilterMembers(xs[..n], ids, Having(xs[..n], ids)[i]);
      }
      forall i | 0 <= i < |Lacking(xs[..n], ids)|
        ensures Lacking(xs[..n], ids)[i].arrival < xs[n].arrival
      {
        FilterMembers(xs[..n], ids, Lacking(xs[..n], ids)[i]);
      }
    }
  }

  lemma SplitByFilter(xs: seq<Sector>, ids: set<nat>)
    ensures SplitByExpiry(xs, ids, Having(xs, ids), Lacking(xs, ids))
  {
    FilterSplits(xs, ids);
    forall x: Sector
      ensures x in Having(xs, ids) <==> x in xs && x.id in ids
      ensures x in Lacking(xs, ids) <==> x in xs && x.id !in ids
    {
      FilterMembers(xs, ids, x);
    }
    if InOrder(xs) {
      FilterKeepsOrder(xs, ids);
    }
  }

  /** Without an expired sector the filter keeps the list as it is. */
  lemma {:induction false} NoneExpired(xs: seq<Sector>, ids: set<nat>)
    requires forall x :: x in xs ==> x.id !in ids
    ensures Having(xs, ids) == [] && Lacking(xs, ids) == xs
  {
    if xs != [] {
      var n := |xs| - 1;
      NoneExpired(xs[..n], ids);
      assert xs[n] in xs;
      assert xs == xs[..n] + [xs[n]];
    }
  }

  /** Every turn sends the whole list, exactly the expired sectors, or nothing. */
  lemma StepTurns(s: State, e: Event)
    ensures Turns(s, e, Step(s, e))
  {
    assert Receive(s, e).pending == Present(s, e);
    if !SendsAll(s, e) && e.Tick? {
      if SendsExpired(s, e) {
        SplitByFilter(s.pending, e.expired);
        var x :| x in s.pending && x.id in e.expired;
        assert x in Having(s.pending, e.expired);
      } else {
        NoneExpired(s.pending, e.expired);
      }
    }
  }

  ghost function Everything(s: State): multiset<Sector> {
    multiset(Flatten(s.dispatched)) + multiset(s.pending)
  }

  /** Moving sectors from the pending list to a process list loses and adds none. */
  lemma DispatchConserves(s: State, list: seq<Sector>, rest: seq<Sector>)
    requires multiset(list) + multiset(rest) == multiset(s.pending)
    ensures Everything(Dispatch(s, list, rest)) == Everything(s)
  {
    FlattenSnoc(s.dispatched, list);
    assert list == [] ==> multiset(list) == multiset{};
  }

  ghost function Arrival(s: State, e: Event): multiset<Sector> {
    if e.Arrive? then multiset{Sector(s.arrived, e.id)} else multiset{}
  }

  lemma ReceiveConserves(s: State, e: Event)
    ensures Everything(Receive(s, e)) == Everything(s) + Arrival(s, e)
  {
  }

  lemma StepConserves(s: State, e: Event)
    ensures Everything(Step(s, e)) == Everything(s) + Arrival(s, e)
    ensures Step(s, e).arrived == s.arrived + if e.Arrive? then 1 else 0
  {
    var r := Receive(s, e);
    ReceiveConserves(s, e);
    if |r.pending| >= e.threshold || e.Manual? {
      DispatchConserves(r, r.pending, []);
    } else if e.Tick? {
      FilterSplits(r.pending, e.expired);
      DispatchConserves(r, Having(r.pending, e.expired), Lacking(r.pending, e.expired));
    }
  }

  /** Conservation: received = dispatched + pending, as multisets, after any run. */
  lemma {:induction false} RunConserves(events: seq<Event>)
    ensures Everything(Run(events)) == multiset(Received(events))
    ensures Run(events).arrived == |Received(events)|
  {
    if events != [] {
      RunConserves(events[..|events| - 1]);
      StepConserves(Run(events[..|events| - 1]), events[|events| - 1]);
    }
  }

  lemma {:induction false} ReceivedNumbered(events: seq<Event>, i: nat)
    requires i < |Received(events)|
    ensures Received(events)[i].arrival == i
  {
    var n := |events| - 1;
    if i < |Received(events[..n])| {
      ReceivedNumbered(events[..n], i);
    }
  }

  lemma {:induction false} DistinctOnce(xs: seq<Sector>, x: Sector)
    requires forall i, j :: 0 <= i < j < |xs| ==> xs[i] != xs[j]
    ensures multiset(xs)[x] <= 1
  {
    if xs != [] {
      var n := |xs| - 1;
      DistinctOnce(xs[..n], x);
      assert xs == xs[..n] + [xs[n]];
      assert xs[n] !in xs[..n];
    }
  }

  /** No received sector is dispatched twice, nor dispatched and still pending. */
  lemma DispatchedAtMostOnce(events: seq<Event>, x: Sector)
    ensures multiset(Flatten(Run(events).dispatched))[x] + multiset(Run(events).pending)[x] <= 1
  {
    RunConserves(events);
    var received := Received(events);
    forall i, j | 0 <= i < j < |received|
      ensures received[i] != received[j]
    {
      ReceivedNumbered(events, i);
      ReceivedNumbered(events, j);
    }
    DistinctOnce(received, x);
    assert Everything(Run(events))[x] == multiset(received)[x];
  }

  /** Lists are non-empty and keep the order of arrival. */
  ghost predicate Ordered(s: State) {
    && InOrder(s.pending)
    && (forall i :: 0 <= i < |s.pending| ==> s.pending[i].arrival < s.arrived)
    && (forall k :: 0 <= k < |s.dispatched| ==> s.dispatched[k] != [] && InOrder(s.dispatched[k]))
  }

  lemma ReceiveOrdered(s: State, e: Event)
    requires Ordered(s)
    ensures Ordered(Receive(s, e))
  {
  }

  lemma DispatchOrdered(s: State, list: seq<Sector>, rest: seq<Sector>)
    requires Ordered(s) && InOrder(list) && InOrder(rest)
    requires forall i :: 0 <= i < |rest| ==> rest[i].arrival < s.arrived
    ensures Ordered(Dispatch(s, list, rest))
  {
  }

  lemma StepOrdered(s: State, e: Event)
    requires Ordered(s)
    ensures Ordered(Step(s, e))
  {
    var r := Receive(s, e);
    ReceiveOrdered(s, e);
    if |r.pending| >= e.threshold || e.Manual? {
      DispatchOrdered(r, r.pending, []);
    } else if e.Tick? {
      FilterKeepsOrder(r.pending, e.expired);
      var rest := Lacking(r.pending, e.expired);
      forall i | 0 <= i < |rest|
        ensures rest[i].arrival < r.arrived
      {
        FilterMembers(r.pending, e.expired, rest[i]);
      }
      DispatchOrdered(r, Having(r.pending, e.expired), rest);
    }
  }

  lemma {:induction false} RunOrdered(events: seq<Event>)
    ensures Ordered(Run(events))
  {
    if events != [] {
      RunOrdered(events[..|events| - 1]);
      StepOrdered(Run(events[..|events| - 1]), events[|events| - 1]);
    }
  }

  lemma {:induction false} LackingShorter(xs: seq<Sector>, ids: set<nat>)
    ensures |Lacking(xs, ids)| <= |xs|
  {
    if xs != [] {
      LackingShorter(xs[..|xs| - 1], ids);
    }
  }

  /** After every turn the pending list is empty or below the threshold. */
  lemma BelowThreshold(s: State, e: Event)
    ensures Step(s, e).pending == [] || |Step(s, e).pending| < e.threshold
  {
    if e.Tick? {
      LackingShorter(s.pending, e.expired);
    }
  }

  // ---------------------------------------------------------------------------
  // How long a sector waits

  /** The turn sends `x`, if it is pending. */
  ghost predicate Releases(s: State, e: Event, x: Sector) {
    SendsAll(s, e) || (e.Tick? && x.id in e.expired)
  }

  lemma PendingNext(s: State, e: Event, x: Sector)
    requires x.arrival < s.arrived
    ensures x in Step(s, e).pending <==> x in s.pending && !Releases(s, e, x)
    ensures s.arrived <= Step(s, e).arrived
  {
    StepTurns(s, e);
    assert x in Present(s, e) <==> x in s.pending;
  }

  /** The states of a run, one before and one after every turn. */
  ghost predicate Behaves(states: seq<State>, events: seq<Event>) {
    && |states| == |events| + 1 && states[0] == Initial
    && (forall k :: 0 <= k < |events| ==> StepAt(states, events, k))
  }

  ghost predicate StepAt(states: seq<State>, events: seq<Event>, k: nat)
    requires k < |events| == |states| - 1
  {
    states[k + 1] == Step(states[k], events[k])
  }

  lemma {:induction false} BehavesOrdered(states: seq<State>, events: seq<Event>, n: nat)
    requires Behaves(states, events) && n <= |events|
    ensures Ordered(states[n])
  {
    if n > 0 {
      BehavesOrdered(states, events, n - 1);
      assert StepAt(states, events, n - 1);
      StepOrdered(states[n - 1], events[n - 1]);
    }
  }

  /** No turn from `m` to before `n` sends `x`. */
  ghost predicate Held(states: seq<State>, events: seq<Event>, m: nat, n: nat, x: Sector)
    requires m <= n <= |events| == |states| - 1
  {
    forall k :: m <= k < n ==> !Releases(states[k], events[k], x)
  }

  lemma HeldNext(states: seq<State>, events: seq<Event>, m: nat, n: nat, x: Sector)
    requires m <= n < |events| == |states| - 1
    ensures Held(states, events, m, n + 1, x) <==> Held(states, events, m, n, x) && !Releases(states[n], events[n], x)
  {
  }

  /** A pending sector waits exactly until the first turn at which the threshold is reached, the
      list is sent by hand, or the timer finds it expired. */
  lemma {:induction false} WaitsUntilReleased(states: seq<State>, events: seq<Event>, m: nat, n: nat, x: Sector)
    requires Behaves(states, events) && m <= n <= |events| && x in states[m].pending
    ensures x in states[n].pending <==> Held(states, events, m, n, x)
    ensures x.arrival < states[n].arrived
  {
    if m == n {
      BehavesOrdered(states, events, m);
    } else {
      WaitsUntilReleased(states, events, m, n - 1, x);
      assert StepAt(states, events, n - 1);
      PendingNext(states[n - 1], events[n - 1], x);
      HeldNext(states, events, m, n - 1, x);
    }
  }
}
