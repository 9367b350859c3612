/**
 One batcher of the commitment pipeline (damocles-manager/modules/impl/commitmgr/batcher.go)
 together with the processing of the lists it dispatches: where each ticket is.
 */
module CommitmentWorkers {
  import opened Common
  import B = Batching

  /** A batcher, whose sectors are known by their tickets, and the dispatched lists whose
      processing has begun. */
  datatype Worker = Worker(b: B.State, ran: set<nat>)

  predicate HasTicket(xs: seq<B.Sector>, t: nat) {
    exists i :: 0 <= i < |xs| && xs[i].id == t
  }

  /** The batcher still holds ticket `t`: pending, or in a list that is not being processed yet. */
  ghost predicate Holds(w: Worker, t: nat) {
    HasTicket(w.b.pending, t) || exists j :: 0 <= j < |w.b.dispatched| && Waits(w, j, t)
  }

  ghost predicate Waits(w: Worker, j: nat, t: nat)
    requires j < |w.b.dispatched|
  {
    j !in w.ran && HasTicket(w.b.dispatched[j], t)
  }

  /** Every arrival is in one place, and no ticket arrives twice. */
  ghost predicate Sound(w: Worker) {
    && (forall x :: B.Everything(w.b)[x] <= 1)
    && (forall x, y :: x in B.Everything(w.b) && y in B.Everything(w.b) && x.id == y.id ==> x == y)
    && (forall x :: x in B.Everything(w.b) ==> x.arrival < w.b.arrived)
    && (forall j :: j in w.ran ==> j < |w.b.dispatched|)
  }

  /** The ticket has been at the batcher. */
  ghost predicate Seen(w: Worker, t: nat) {
    exists x :: x in B.Everything(w.b) && x.id == t
  }

  lemma {:induction false} InFlatten(xss: seq<seq<B.Sector>>, j: nat, x: B.Sector)
    requires j < |xss| && x in xss[j]
    ensures x in Flatten(xss)
  {
    if j < |xss| - 1 {
      InFlatten(xss[..|xss| - 1], j, x);
    }
  }

  lemma {:induction false} TwiceInFlatten(xss: seq<seq<B.Sector>>, i: nat, j: nat, x: B.Sector)
    requires i < j < |xss| && x in xss[i] && x in xss[j]
    ensures multiset(Flatten(xss))[x] >= 2
  {
    var n := |xss| - 1;
    if j < n {
      TwiceInFlatten(xss[..n], i, j, x);
    } else {
      InFlatten(xss[..n], i, x);
    }
  }

  lemma HeldIsSeen(w: Worker, t: nat)
    requires Holds(w, t)
    ensures Seen(w, t)
  {
    if HasTicket(w.b.pending, t) {
      var i :| 0 <= i < |w.b.pending| && w.b.pending[i].id == t;
      assert w.b.pending[i] in B.Everything(w.b);
    } else {
      var j :| 0 <= j < |w.b.dispatched| && Waits(w, j, t);
      var i :| 0 <= i < |w.b.dispatched[j]| && w.b.dispatched[j][i].id == t;
      InFlatten(w.b.dispatched, j, w.b.dispatched[j][i]);
      assert w.b.dispatched[j][i] in B.Everything(w.b);
    }
  }

  lemma InEverything(b: B.State, x: B.Sector)
    ensures x in b.pending ==> x in B.Everything(b)
    ensures forall j :: 0 <= j < |b.dispatched| && x in b.dispatched[j] ==> x in B.Everything(b)
  {
    forall j | 0 <= j < |b.dispatched| && x in b.dispatched[j]
      ensures x in B.Everything(b)
    {
      InFlatten(b.dispatched, j, x);
    }
  }

  /** A list with the ticket of `x` has `x`. */
  lemma TicketIs(w: Worker, xs: seq<B.Sector>, x: B.Sector)
    requires Sound(w) && x in B.Everything(w.b) && forall y :: y in xs ==> y in B.Everything(w.b)
    ensures HasTicket(xs, x.id) ==> x in xs
  {
    if i :| 0 <= i < |xs| && xs[i].id == x.id {
      assert xs[i] in xs;
    }
  }

  lemma SectorOnlyInOne(w: Worker, j: nat, x: B.Sector)
    requires Sound(w) && j < |w.b.dispatched| && x in w.b.dispatched[j]
    ensures x !in w.b.pending
    ensures forall i :: 0 <= i < |w.b.dispatched| && i != j ==> x !in w.b.dispatched[i]
  {
    InFlatten(w.b.dispatched, j, x);
    assert B.Everything(w.b)[x] == multiset(Flatten(w.b.dispatched))[x] + multiset(w.b.pending)[x];
    forall i | 0 <= i < |w.b.dispatched| && i != j
      ensures x !in w.b.dispatched[i]
    {
      if x in w.b.dispatched[i] {
        TwiceInFlatten(w.b.dispatched, if i < j then i else j, if i < j then j else i, x);
      }
    }
  }

  /** A ticket in one dispatched list is not pending and in no other list. */
  lemma OnlyInOne(w: Worker, j: nat, t: nat)
    requires Sound(w) && j < |w.b.dispatched| && HasTicket(w.b.dispatched[j], t)
    ensures !HasTicket(w.b.pending, t)
    ensures forall i :: 0 <= i < |w.b.dispatched| && i != j ==> !HasTicket(w.b.dispatched[i], t)
  {
    var lists: seq<seq<B.Sector>> := w.b.dispatched;
    var a :| 0 <= a < |lists[j]| && lists[j][a].id == t;
    var x := lists[j][a];
    assert x in lists[j];
    forall y: B.Sector
      ensures y in w.b.pending ==> y in B.Everything(w.b)
      ensures forall i :: 0 <= i < |lists| && y in lists[i] ==> y in B.Everything(w.b)
    {
      InEverything(w.b, y);
    }
    SectorOnlyInOne(w, j, x);
    TicketIs(w, w.b.pending, x);
    forall i | 0 <= i < |lists| && i != j
      ensures !HasTicket(lists[i], t)
    {
      TicketIs(w, lists[i], x);
    }
  }

  /** Dispatching moves tickets to a new list without losing any. */
  lemma DispatchHolds(w: Worker, list: seq<B.Sector>, rest: seq<B.Sector>, t: nat)
    requires forall j :: j in w.ran ==> j < |w.b.dispatched|
    requires HasTicket(list, t) || HasTicket(rest, t) <==> HasTicket(w.b.pending, t)
    ensures Holds(w.(b := B.Dispatch(w.b, list, rest)), t) <==> Holds(w, t)
  {
    var n := |w.b.dispatched|;
    var w' := w.(b := B.Dispatch(w.b, list, rest));
    forall j | 0 <= j < n
      ensures Waits(w', j, t) <==> Waits(w, j, t)
    {
    }
    if HasTicket(list, t) {
      assert Waits(w', n, t);
    }
  }

  lemma FilterTickets(xs: seq<B.Sector>, ids: set<nat>, t: nat)
    ensures HasTicket(B.Having(xs, ids), t) || HasTicket(B.Lacking(xs, ids), t) <==> HasTicket(xs, t)
  {
    forall x: B.Sector
      ensures x in B.Having(xs, ids) || x in B.Lacking(xs, ids) <==> x in xs
    {
      B.FilterMembers(xs, ids, x);
    }
    TicketMembers(xs, t);
    TicketMembers(B.Having(xs, ids), t);
    TicketMembers(B.Lacking(xs, ids), t);
  }

  lemma TicketMembers(xs: seq<B.Sector>, t: nat)
    ensures HasTicket(xs, t) <==> exists x :: x in xs && x.id == t
  {
    if i :| 0 <= i < |xs| && xs[i].id == t {
      assert xs[i] in xs;
    }
  }

  lemma ReceiveHolds(w: Worker, e: B.Event, t: nat)
    ensures Holds(w.(b := B.Receive(w.b, e)), t) <==> Holds(w, t) || (e.Arrive? && t == e.id)
  {
    var r := B.Receive(w.b, e);
    if e.Arrive? {
      var x := B.Sector(w.b.arrived, e.id);
      assert r.pending == w.b.pending + [x];
      assert r.pending[|w.b.pending|] == x;
      forall i | 0 <= i < |w.b.pending| ensures r.pending[i] == w.b.pending[i] {
      }
    }
    forall j | 0 <= j < |w.b.dispatched|
      ensures Waits(w.(b := r), j, t) <==> Waits(w, j, t)
    {
    }
  }

  /** A turn of the batcher keeps what it holds, and adds what arrives. */
  lemma TurnHolds(w: Worker, e: B.Event, t: nat)
    requires forall j :: j in w.ran ==> j < |w.b.dispatched|
    ensures Holds(w.(b := B.Step(w.b, e)), t) <==> Holds(w, t) || (e.Arrive? && t == e.id)
  {
    ReceiveHolds(w, e, t);
    var r := B.Receive(w.b, e);
    if |r.pending| >= e.threshold || e.Manual? {
      DispatchHolds(w.(b := r), r.pending, [], t);
    } else if e.Tick? {
      FilterTickets(r.pending, e.expired, t);
      DispatchHolds(w.(b := r), B.Having(r.pending, e.expired), B.Lacking(r.pending, e.expired), t);
    }
  }

  lemma TurnSeen(w: Worker, e: B.Event, t: nat)
    ensures Seen(w.(b := B.Step(w.b, e)), t) <==> Seen(w, t) || (e.Arrive? && t == e.id)
  {
    B.StepConserves(w.b, e);
    var w' := w.(b := B.Step(w.b, e));
    if e.Arrive? && t == e.id {
      assert B.Sector(w.b.arrived, t) in B.Everything(w'.b);
    }
    if Seen(w, t) {
      var x :| x in B.Everything(w.b) && x.id == t;
      assert x in B.Everything(w'.b);
    }
    if Seen(w', t) {
      var x :| x in B.Everything(w'.b) && x.id == t;
      assert x in B.Everything(w.b) || x in B.Arrival(w.b, e);
    }
  }

  lemma TurnSound(w: Worker, e: B.Event)
    requires Sound(w) && (e.Arrive? ==> !Seen(w, e.id))
    ensures Sound(w.(b := B.Step(w.b, e)))
  {
    B.StepConserves(w.b, e);
    var b' := B.Step(w.b, e);
    forall x ensures B.Everything(b')[x] <= 1 {
      assert B.Everything(b')[x] == B.Everything(w.b)[x] + B.Arrival(w.b, e)[x];
      assert x in B.Everything(w.b) ==> x.arrival < w.b.arrived;
    }
    forall x, y | x in B.Everything(b') && y in B.Everything(b') && x.id == y.id
      ensures x == y
    {
      assert x in B.Everything(w.b) || x in B.Arrival(w.b, e);
      assert y in B.Everything(w.b) || y in B.Arrival(w.b, e);
    }
    forall x | x in B.Everything(b')
      ensures x.arrival < b'.arrived
    {
      assert x in B.Everything(w.b) || x in B.Arrival(w.b, e);
    }
    TurnDispatched(w.b, e);
  }

  lemma TurnDispatched(b: B.State, e: B.Event)
    ensures |B.Step(b, e).dispatched| >= |b.dispatched|
  {
  }
}
