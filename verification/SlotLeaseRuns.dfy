/**
 Slot leases over every timed run of acquires, releases, extensions and passing time.
 */
module SlotLeaseRuns {
  import opened Common
  import opened SlotLeases

  datatype Event =
    | Acquire(name: string, id: string)
    | Release(slot: string, id: string)
    | Extend(slot: string, id: string)
    | Pass(dt: nat)

  function Step(l: Limiter, s: State, e: Event): State {
    match e
    case Acquire(name, id) => Acquired(l, s, name, id)
    case Release(slot, id) => Released(l, s, slot, id)
    case Extend(slot, id) => Extended(l, s, slot, id)
    case Pass(dt) => s.(now := s.now + dt)
  }

  function Run(l: Limiter, events: seq<Event>, n: nat): State
    requires n <= |events|
  {
    if n == 0 then State(map[], 0) else Step(l, Run(l, events, n - 1), events[n - 1])
  }

  // ---------------------------------------------------------------------------
  // At most `concurrent[name]` live slots

  /** The live slots of a name: the keys that say they are for it. */
  ghost function LiveSlots(s: State, name: string): set<string> {
    set slot | slot in s.leases && Live(s, slot) && NameOf(slot) == Some(name)
  }

  function AllSlots(name: string, count: nat): set<string> {
    set i | 0 <= i < count :: SlotName(i, name)
  }

  lemma {:induction false} AllSlotsCount(name: string, count: nat)
    ensures |AllSlots(name, count)| == count
  {
    if count > 0 {
      AllSlotsCount(name, count - 1);
      var last := SlotName(count - 1, name);
      assert last !in AllSlots(name, count - 1) by {
        forall i: nat | i < count - 1 ensures SlotName(i, name) != last {
          if SlotName(i, name) == last {
            SlotsDistinct(i, name, count - 1, name);
          }
        }
      }
      assert AllSlots(name, count) == AllSlots(name, count - 1) + {last};
    } else {
      assert AllSlots(name, 0) == {};
    }
  }

  ghost predicate Orderly(l: Limiter, s: State) {
    forall slot :: slot in s.leases ==> Proper(l, slot)
  }

  /** When only proper slots are stored, a name has no more live slots than the limit allows. */
  lemma OrderlyIsBounded(l: Limiter, s: State, name: string)
    requires Orderly(l, s)
    ensures |LiveSlots(s, name)| <= SlotCount(l, name)
  {
    var all := AllSlots(name, SlotCount(l, name));
    forall slot | slot in LiveSlots(s, name) ensures slot in all {
      ProperOfName(l, slot, name);
    }
    AllSlotsCount(name, SlotCount(l, name));
    SubsetCount(LiveSlots(s, name), all);
  }

  lemma ProperOfName(l: Limiter, slot: string, name: string)
    requires Proper(l, slot) && NameOf(slot) == Some(name)
    ensures slot in AllSlots(name, SlotCount(l, name))
  {
    var i: nat, other :| i < SlotCount(l, other) && slot == SlotName(i, other);
    NameOfSlot(i, other);
  }

  /** The slots acquires have handed out in the first `n` events. */
  ghost predicate HandedOut(l: Limiter, events: seq<Event>, n: nat, slot: string)
    requires n <= |events|
  {
    exists i :: 0 <= i < n && Hands(l, events, i, slot)
  }

  ghost predicate Hands(l: Limiter, events: seq<Event>, i: nat, slot: string)
    requires i < |events|
  {
    && events[i].Acquire?
    && var free := FirstFree(Run(l, events, i), events[i].name, 0, SlotCount(l, events[i].name));
       free.Some? && slot == SlotName(free.value, events[i].name)
  }

  /** Clients extend only slots that acquires have handed out before. */
  ghost predicate Honest(l: Limiter, events: seq<Event>) {
    forall i :: 0 <= i < |events| ==> HonestAt(l, events, i)
  }

  ghost predicate HonestAt(l: Limiter, events: seq<Event>, i: nat)
    requires i < |events|
  {
    events[i].Extend? ==> HandedOut(l, events, i, events[i].slot)
  }

  lemma HandedIsProper(l: Limiter, events: seq<Event>, n: nat, slot: string)
    requires n <= |events| && HandedOut(l, events, n, slot)
    ensures Proper(l, slot)
  {
    var i :| 0 <= i < n && Hands(l, events, i, slot);
    FirstFreeIs(Run(l, events, i), events[i].name, 0, SlotCount(l, events[i].name));
  }

  lemma StepOrderly(l: Limiter, s: State, e: Event)
    requires Orderly(l, s) && (e.Extend? ==> Proper(l, e.slot))
    ensures Orderly(l, Step(l, s, e))
  {
    if e.Acquire? {
      FirstFreeIs(s, e.name, 0, SlotCount(l, e.name));
    }
  }

  lemma {:induction false} RunOrderly(l: Limiter, events: seq<Event>, n: nat)
    requires n <= |events| && Honest(l, events)
    ensures Orderly(l, Run(l, events, n))
  {
    if n > 0 {
      RunOrderly(l, events, n - 1);
      assert HonestAt(l, events, n - 1);
      if events[n - 1].Extend? {
        HandedIsProper(l, events, n - 1, events[n - 1].slot);
      }
      StepOrderly(l, Run(l, events, n - 1), events[n - 1]);
    }
  }

  /** In every run with honest clients no name ever has more live slots than its limit. */
  lemma NeverTooMany(l: Limiter, events: seq<Event>, n: nat, name: string)
    requires n <= |events| && Honest(l, events)
    ensures |LiveSlots(Run(l, events, n), name)| <= SlotCount(l, name)
  {
    RunOrderly(l, events, n);
    OrderlyIsBounded(l, Run(l, events, n), name);
  }

  // ---------------------------------------------------------------------------
  // Which extensions are safe

  ghost predicate Bounded(l: Limiter, s: State) {
    forall name :: name in l.concurrent ==> |LiveSlots(s, name)| <= l.concurrent[name]
  }

  /** Every slot of the name leased by `id`, at time zero. */
  function Full(l: Limiter, name: string, id: string): State {
    State(map slot | slot in AllSlots(name, SlotCount(l, name)) :: Lease(id, l.timeout), 0)
  }

  lemma FullIsOrderly(l: Limiter, name: string, id: string)
    ensures Orderly(l, Full(l, name, id))
  {
  }

  /** Extending a slot of some other shape, though checkSlot accepts it, takes a place beyond the limit. */
  lemma ImproperExtendExceeds(l: Limiter, slot: string, id: string)
    requires l.timeout > 0 && Checks(l, slot) && !Proper(l, slot)
    ensures var name := NameOf(slot).value;
            |LiveSlots(Extended(l, Full(l, name, id), slot, id), name)| == SlotCount(l, name) + 1
  {
    var name := NameOf(slot).value;
    var all := AllSlots(name, SlotCount(l, name));
    var s := Full(l, name, id);
    assert slot !in all;
    forall x | x in all ensures NameOf(x) == Some(name) {
      var i: nat :| i < SlotCount(l, name) && x == SlotName(i, name);
      NameOfSlot(i, name);
    }
    assert LiveSlots(Extended(l, s, slot, id), name) == all + {slot};
    AllSlotsCount(name, SlotCount(l, name));
  }

  /** Acquiring a name `n` times in a row. */
  function Acquires(name: string, id: string, n: nat): seq<Event> {
    seq(n, _ => Acquire(name, id))
  }

  function Taken(l: Limiter, name: string, id: string, n: nat): State {
    State(map slot | slot in AllSlots(name, n) :: Lease(id, l.timeout), 0)
  }

  lemma {:induction false} FirstFreeAfter(l: Limiter, name: string, id: string, n: nat, i: nat, count: nat)
    requires l.timeout > 0 && i <= n < count
    ensures FirstFree(Taken(l, name, id, n), name, i, count) == Some(n)
    decreases n - i
  {
    var s := Taken(l, name, id, n);
    if i < n {
      assert SlotName(i, name) in AllSlots(name, n);
      FirstFreeAfter(l, name, id, n, i + 1, count);
    } else if SlotName(n, name) in AllSlots(name, n) {
      var j: nat :| j < n && SlotName(j, name) == SlotName(n, name);
      SlotsDistinct(j, name, n, name);
    }
  }

  lemma TakenNext(l: Limiter, name: string, id: string, n: nat)
    requires l.timeout > 0 && n < SlotCount(l, name)
    ensures Acquired(l, Taken(l, name, id, n), name, id) == Taken(l, name, id, n + 1)
  {
    FirstFreeAfter(l, name, id, n, 0, SlotCount(l, name));
    var slot := SlotName(n, name);
    assert AllSlots(name, n + 1) == AllSlots(name, n) + {slot};
    assert Taken(l, name, id, n + 1).leases == Taken(l, name, id, n).leases[slot := Lease(id, l.timeout)];
  }

  /** Acquires at one moment take the slots one after the other. */
  lemma {:induction false} AcquiresFill(l: Limiter, name: string, id: string, events: seq<Event>, n: nat)
    requires l.timeout > 0 && n <= SlotCount(l, name) && n <= |events|
    requires forall i :: 0 <= i < n ==> events[i] == Acquire(name, id)
    ensures Run(l, events, n) == Taken(l, name, id, n)
  {
    if n == 0 {
      assert AllSlots(name, 0) == {};
      assert Taken(l, name, id, 0).leases == map[];
    } else {
      AcquiresFill(l, name, id, events, n - 1);
      TakenNext(l, name, id, n - 1);
    }
  }

  /** For every made-up slot that checkSlot accepts there is a run that ends with more live slots
      than the limit: take all slots of its name, then extend it. */
  lemma ImproperExtendRun(l: Limiter, slot: string, id: string)
    requires l.timeout > 0 && Checks(l, slot) && !Proper(l, slot)
    ensures var name := NameOf(slot).value;
            var events := Acquires(name, id, SlotCount(l, name)) + [Extend(slot, id)];
            |LiveSlots(Run(l, events, |events|), name)| == SlotCount(l, name) + 1
  {
    var name := NameOf(slot).value;
    var n := SlotCount(l, name);
    var events := Acquires(name, id, n) + [Extend(slot, id)];
    AcquiresFill(l, name, id, events, n);
    ImproperExtendExceeds(l, slot, id);
    assert events[n] == Extend(slot, id);
    assert Taken(l, name, id, n) == Full(l, name, id);
  }

  /** An accepted slot can be extended within the limit from every orderly state exactly when
      it is one the limiter hands out. */
  lemma ExtendIsSafeIff(l: Limiter, slot: string, id: string)
    requires l.timeout > 0 && Checks(l, slot)
    ensures Proper(l, slot) <==> forall s :: Orderly(l, s) ==> Bounded(l, Extended(l, s, slot, id))
  {
    if Proper(l, slot) {
      forall s | Orderly(l, s) ensures Bounded(l, Extended(l, s, slot, id)) {
        StepOrderly(l, s, Extend(slot, id));
        forall name | name in l.concurrent ensures |LiveSlots(Extended(l, s, slot, id), name)| <= l.concurrent[name] {
          OrderlyIsBounded(l, Extended(l, s, slot, id), name);
        }
      }
    } else {
      var name := NameOf(slot).value;
      FullIsOrderly(l, name, id);
      ImproperExtendExceeds(l, slot, id);
      assert !Bounded(l, Extended(l, Full(l, name, id), slot, id));
    }
  }

  // ---------------------------------------------------------------------------
  // Ownership

  /** A live slot stays its owner's through every event but the owner's own release and the
      passing of its time. */
  lemma OwnerKeeps(l: Limiter, s: State, e: Event, slot: string, owner: string)
    requires Owns(s, slot, owner) && l.timeout > 0
    ensures Owns(Step(l, s, e), slot, owner)
            || e == Release(slot, owner)
            || (e.Pass? && s.leases[slot].expires <= s.now + e.dt)
  {
    if e.Acquire? {
      FirstFreeIs(s, e.name, 0, SlotCount(l, e.name));
    }
  }

  /** Event `i` ends the owner's lease: a release by the owner, or expiry. */
  ghost predicate Ends(l: Limiter, events: seq<Event>, i: nat, slot: string, owner: string)
    requires i < |events|
  {
    && Owns(Run(l, events, i), slot, owner)
    && !Live(Run(l, events, i + 1), slot)
    && (events[i].Pass? || events[i] == Release(slot, owner))
  }

  /** Between two moments at which a slot has different owners, or has lost its owner, the
      first owner released it or its lease ran out. */
  lemma {:induction false} OwnerChangesOnlyByEnding(l: Limiter, events: seq<Event>, m: nat, n: nat, slot: string,
                                                    owner: string)
    requires m <= n <= |events| && l.timeout > 0
    requires Owns(Run(l, events, m), slot, owner) && !Owns(Run(l, events, n), slot, owner)
    ensures exists i :: m <= i < n && Ends(l, events, i, slot, owner)
  {
    if Owns(Run(l, events, n - 1), slot, owner) {
      OwnerKeeps(l, Run(l, events, n - 1), events[n - 1], slot, owner);
      assert Ends(l, events, n - 1, slot, owner);
    } else {
      OwnerChangesOnlyByEnding(l, events, m, n - 1, slot, owner);
    }
  }
}
