/**
 Callbacks at chain heights (damocles-manager/pkg/chain/eventbus.go).
 */
module EventBus {

  /** A registered callback: the height it waits for, and which registration it is. */
  datatype Callback = Callback(h: int, id: nat)

  /** A registration for `height` with `confidential` epochs on top, or a new head. */
  datatype Event = At(height: int, confidential: int) | Head(height: int)

  // ---------------------------------------------------------------------------
  // Runs

  /** The callbacks a head at height `t` leaves waiting, and those it fires. */
  function Later(cbs: set<Callback>, t: int): set<Callback> {
    set cb | cb in cbs && cb.h > t
  }

  function Due(cbs: set<Callback>, t: int): set<Callback> {
    set cb | cb in cbs && cb.h <= t
  }

  function Next(cbs: set<Callback>, e: Event, id: nat): set<Callback> {
    match e
    case At(height, confidential) => cbs + {Callback(height + confidential, id)}
    case Head(height) => Later(cbs, height)
  }

  /** The callbacks waiting after the first `n` events. */
  function Waiting(events: seq<Event>, n: nat): set<Callback>
    requires n <= |events|
  {
    if n == 0 then {} else Next(Waiting(events, n - 1), events[n - 1], n - 1)
  }

  /** The callbacks that event `n` fires. */
  function Fired(events: seq<Event>, n: nat): set<Callback>
    requires n < |events|
  {
    if events[n].Head? then Due(Waiting(events, n), events[n].height) else {}
  }

  lemma {:induction false} WaitingPrefix(events: seq<Event>, e: Event, n: nat)
    requires n <= |events|
    ensures Waiting(events + [e], n) == Waiting(events, n)
  {
    if n > 0 {
      WaitingPrefix(events, e, n - 1);
    }
  }

  /** Registration `cb` was made before event `n`. */
  predicate Registered(events: seq<Event>, n: nat, cb: Callback)
    requires n <= |events|
  {
    cb.id < n && events[cb.id].At? && cb.h == events[cb.id].height + events[cb.id].confidential
  }

  /** Event `k` is a head that reaches the callback's height. */
  predicate Reaches(events: seq<Event>, k: nat, cb: Callback)
    requires k < |events|
  {
    events[k].Head? && events[k].height >= cb.h
  }

  /** No head has reached the callback between its registration and event `n`. */
  predicate Unreached(events: seq<Event>, n: nat, cb: Callback)
    requires n <= |events|
  {
    forall k :: cb.id < k < n ==> !Reaches(events, k, cb)
  }

  /** A callback waits from its registration up to the first head that reaches it. */
  lemma {:induction false} WaitsUntilReached(events: seq<Event>, n: nat, cb: Callback)
    requires n <= |events|
    ensures cb in Waiting(events, n) <==> Registered(events, n, cb) && Unreached(events, n, cb)
  {
    if n > 0 {
      WaitsUntilReached(events, n - 1, cb);
      if Registered(events, n, cb) && cb.id < n - 1 {
        assert Unreached(events, n, cb) <==> Unreached(events, n - 1, cb) && !Reaches(events, n - 1, cb);
      }
    }
  }

  /** A callback is fired by an event exactly when that is the first head to reach it. */
  lemma FiresWhenFirstReached(events: seq<Event>, n: nat, cb: Callback)
    requires n < |events|
    ensures cb in Fired(events, n) <==>
              Registered(events, n, cb) && Reaches(events, n, cb) && Unreached(events, n, cb)
  {
    WaitsUntilReached(events, n, cb);
  }

  /** No callback is fired twice. */
  lemma FiresAtMostOnce(events: seq<Event>, m: nat, n: nat, cb: Callback)
    requires m < n < |events| && cb in Fired(events, m)
    ensures cb !in Fired(events, n)
  {
    FiresWhenFirstReached(events, m, cb);
    FiresWhenFirstReached(events, n, cb);
  }

  /** All callbacks fired by the first `n` events. */
  function AllFired(events: seq<Event>, n: nat): set<Callback>
    requires n <= |events|
  {
    if n == 0 then {} else AllFired(events, n - 1) + Fired(events, n - 1)
  }

  /** Every registration is fired or waiting, never both, and nothing else is. */
  lemma {:induction false} RegisteredIsFiredOrWaiting(events: seq<Event>, n: nat, cb: Callback)
    requires n <= |events|
    ensures Registered(events, n, cb) <==> cb in AllFired(events, n) || cb in Waiting(events, n)
    ensures !(cb in AllFired(events, n) && cb in Waiting(events, n))
  {
    if n > 0 {
      RegisteredIsFiredOrWaiting(events, n - 1, cb);
    }
  }

  // ---------------------------------------------------------------------------
  // eventbus.go

  ghost predicate Descending(cbs: seq<Callback>) {
    forall i, j :: 0 <= i < j < |cbs| ==> cbs[i].h >= cbs[j].h
  }

  /** The list holds each of the callbacks once. */
  ghost predicate Lists(cbs: seq<Callback>, all: set<Callback>) {
    && (forall cb :: cb in cbs <==> cb in all)
    && (forall i, j :: 0 <= i < j < |cbs| ==> cbs[i] != cbs[j])
  }

  /** Appends a callback and sorts downwards. */
  method Sorted(cbs: seq<Callback>, cb: Callback, ghost all: set<Callback>) returns (r: seq<Callback>)
    requires Descending(cbs) && Lists(cbs, all) && cb !in all
    ensures Descending(r) && Lists(r, all + {cb})
  {
    var k := |cbs|;
    while k > 0 && cbs[k - 1].h < cb.h
      invariant 0 <= k <= |cbs|
      invariant forall i :: k <= i < |cbs| ==> cbs[i].h < cb.h
    {
      k := k - 1;
    }
    r := cbs[..k] + [cb] + cbs[k..];
    InsertedLists(cbs, k, cb, all);
    InsertedDescending(cbs, k, cb);
  }

  lemma InsertedDescending(cbs: seq<Callback>, k: nat, cb: Callback)
    requires k <= |cbs| && Descending(cbs)
    requires (k > 0 ==> cbs[k - 1].h >= cb.h) && forall i :: k <= i < |cbs| ==> cbs[i].h < cb.h
    ensures Descending(cbs[..k] + [cb] + cbs[k..])
  {
    assert forall i :: 0 <= i < k ==> cbs[i].h >= cb.h;
  }

  lemma InsertedLists(cbs: seq<Callback>, k: nat, cb: Callback, all: set<Callback>)
    requires k <= |cbs| && Lists(cbs, all) && cb !in all
    ensures Lists(cbs[..k] + [cb] + cbs[k..], all + {cb})
  {
    assert cbs == cbs[..k] + cbs[k..];
    assert cb !in cbs;
  }

  /** In a list sorted downwards, what is due is a suffix: cutting it off is exact. */
  lemma CutIsExact(cbs: seq<Callback>, all: set<Callback>, t: int, start: nat)
    requires Lists(cbs, all) && Descending(cbs) && start <= |cbs|
    requires forall i :: 0 <= i < start ==> cbs[i].h > t
    requires start < |cbs| ==> cbs[start].h <= t
    ensures Lists(cbs[..start], Later(all, t)) && Lists(cbs[start..], Due(all, t))
  {
    assert cbs == cbs[..start] + cbs[start..];
    assert forall i :: start <= i < |cbs| ==> cbs[i].h <= t;
  }

  /** `calls` numbers the calls, so that each registration has a name of its own. */
  class Bus {
    var cbs: seq<Callback>
    var calls: nat
    ghost var events: seq<Event>

    ghost predicate Valid()
      reads this
    {
      && calls == |events|
      && Descending(cbs)
      && Lists(cbs, Waiting(events, |events|))
    }

    constructor ()
      ensures Valid() && events == []
    {
      cbs, calls := [], 0;
      events := [];
    }

    /** Registers a callback and keeps the list sorted downwards.  Without a callback nothing happens. */
    method Register(height: int, confidential: int, given: bool)
      requires Valid()
      modifies this
      ensures Valid()
      ensures events == if given then old(events) + [At(height, confidential)] else old(events)
    {
      if !given {
        return;
      }
      var cb := Callback(height + confidential, calls);
      WaitingPrefix(events, At(height, confidential), |events|);
      WaitsUntilReached(events, |events|, cb);
      cbs := Sorted(cbs, cb, Waiting(events, |events|));
      calls := calls + 1;
      events := events + [At(height, confidential)];
    }

    /** Fires what is due at the new head: everything from the first callback that is due on. */
    method Trigger(height: int) returns (fired: seq<Callback>)
      requires Valid()
      modifies this
      ensures Valid() && events == old(events) + [Head(height)]
      ensures Lists(fired, Fired(events, |old(events)|))
      ensures old(cbs) == cbs + fired
    {
      WaitingPrefix(events, Head(height), |events|);
      var count := |cbs|;
      var start := 0;
      while start < count && cbs[start].h > height
        invariant start <= count
        invariant forall i :: 0 <= i < start ==> cbs[i].h > height
      {
        start := start + 1;
      }
      CutIsExact(cbs, Waiting(events, |events|), height, start);
      fired := cbs[start..];
      cbs, calls := cbs[..start], calls + 1;
      events := events + [Head(height)];
    }
  }
}
