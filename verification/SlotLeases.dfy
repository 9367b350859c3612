/**
 Slot leases of the concurrent limiter plugin
 (manager-plugin/examples/concurrent-limiter/concurrent_limiter.go).

 Slot `i` of a name is stored under the key "i-name" with a time to live.  A key is there
 as long as its lease has not run out.
 */
module SlotLeases {
  import opened Common
  import opened Format

  datatype Lease = Lease(owner: string, expires: nat)

  /** The store as of `now`. */
  datatype State = State(leases: map<string, Lease>, now: nat)

  datatype Limiter = Limiter(concurrent: map<string, nat>, timeout: nat)

  predicate Live(s: State, slot: string) {
    slot in s.leases && s.now < s.leases[slot].expires
  }

  function SlotName(i: nat, name: string): string {
    Decimal(i) + "-" + name
  }

  /** How many slots the limiter has for a name. */
  function SlotCount(l: Limiter, name: string): nat {
    if name in l.concurrent then l.concurrent[name] else 0
  }

  /** The name a slot claims to be for. */
  function NameOf(slot: string): Option<string> {
    var parts := SplitFirst(slot, '-');
    if parts.None? then None else Some(parts.value.1)
  }

  /** A slot that the limiter itself would hand out. */
  ghost predicate Proper(l: Limiter, slot: string) {
    exists i: nat, name :: i < SlotCount(l, name) && slot == SlotName(i, name)
  }

  // ---------------------------------------------------------------------------
  // Slot names

  /** The dash that checkSlot splits at is the one slots put in, whatever dashes the name has. */
  lemma NameOfSlot(i: nat, name: string)
    ensures SplitFirst(SlotName(i, name), '-') == Some((Decimal(i), name))
    ensures NameOf(SlotName(i, name)) == Some(name)
  {
    assert '-' !in Decimal(i);
    SplitJoined(Decimal(i), '-', name);
  }

  /** Different slots have different keys. */
  lemma SlotsDistinct(i: nat, name: string, j: nat, other: string)
    requires SlotName(i, name) == SlotName(j, other)
    ensures i == j && name == other
  {
    NameOfSlot(i, name);
    NameOfSlot(j, other);
    DecimalInjective(i, j);
  }

  predicate Checks(l: Limiter, slot: string) {
    NameOf(slot).Some? && NameOf(slot).value in l.concurrent
  }

  /** checkSlot accepts exactly the keys with some text, a dash and a known name: the text need
      not be the number of a slot. */
  lemma ChecksIff(l: Limiter, slot: string)
    ensures Checks(l, slot) <==>
              exists text: string, name :: '-' !in text && name in l.concurrent && slot == text + "-" + name
  {
    SplitIsJoin(slot, '-');
    if Checks(l, slot) {
      var (text, name) := SplitFirst(slot, '-').value;
      assert '-' !in text && slot == text + "-" + name;
    }
    if text: string, name :| '-' !in text && name in l.concurrent && slot == text + "-" + name {
      SplitJoined(text, '-', name);
    }
  }

  // ---------------------------------------------------------------------------
  // Transactions

  /** The first slot from `i` on that nobody holds. */
  function FirstFree(s: State, name: string, i: nat, count: nat): Option<nat>
    decreases count - i
  {
    if i >= count then None
    else if !Live(s, SlotName(i, name)) then Some(i)
    else FirstFree(s, name, i + 1, count)
  }

  lemma {:induction false} FirstFreeIs(s: State, name: string, i: nat, count: nat)
    ensures var r := FirstFree(s, name, i, count);
            && (r.None? ==> forall j :: i <= j < count ==> Live(s, SlotName(j, name)))
            && (r.Some? ==> i <= r.value < count && !Live(s, SlotName(r.value, name))
                            && forall j :: i <= j < r.value ==> Live(s, SlotName(j, name)))
    decreases count - i
  {
    if i < count && Live(s, SlotName(i, name)) {
      FirstFreeIs(s, name, i + 1, count);
    }
  }

  function Leased(l: Limiter, s: State, slot: string, id: string): State {
    s.(leases := s.leases[slot := Lease(id, s.now + l.timeout)])
  }

  function Acquired(l: Limiter, s: State, name: string, id: string): State {
    var free := FirstFree(s, name, 0, SlotCount(l, name));
    if free.Some? then Leased(l, s, SlotName(free.value, name), id) else s
  }

  predicate Owns(s: State, slot: string, id: string) {
    Live(s, slot) && s.leases[slot].owner == id
  }

  function Released(l: Limiter, s: State, slot: string, id: string): State {
    if Checks(l, slot) && Owns(s, slot, id) then s.(leases := s.leases - {slot}) else s
  }

  /** The slot is the caller's, or nobody's. */
  predicate MayExtend(l: Limiter, s: State, slot: string, id: string) {
    Checks(l, slot) && (Live(s, slot) ==> s.leases[slot].owner == id)
  }

  function Extended(l: Limiter, s: State, slot: string, id: string): State {
    if MayExtend(l, s, slot, id) then Leased(l, s, slot, id) else s
  }

  class ConcurrentLimiter {
    const l: Limiter
    var s: State

    constructor (l: Limiter)
      ensures this.l == l && s == State(map[], 0)
    {
      this.l, s := l, State(map[], 0);
    }

    method Pass(dt: nat)
      modifies this
      ensures s == old(s).(now := old(s).now + dt)
    {
      s := s.(now := s.now + dt);
    }

    method Slots(name: string) returns (slots: seq<string>)
      ensures |slots| == SlotCount(l, name)
      ensures forall i :: 0 <= i < |slots| ==> slots[i] == SlotName(i, name)
    {
      slots := [];
      if name in l.concurrent {
        for i := 0 to l.concurrent[name]
          invariant |slots| == i
          invariant forall j :: 0 <= j < i ==> slots[j] == SlotName(j, name)
        {
          slots := slots + [SlotName(i, name)];
        }
      }
    }

    /** Leases the first free slot; the empty string says there is none.  A failed transaction changes nothing. */
    method Acquire(name: string, id: string, fails: bool) returns (r: Result<string>)
      modifies this
      ensures r.Err? <==> SlotCount(l, name) == 0 || fails
      ensures r.Err? ==> s == old(s)
      ensures r.Ok? ==> s == Acquired(l, old(s), name, id)
      ensures r.Ok? && r.value != "" ==> Proper(l, r.value) && !Live(old(s), r.value) && s == Leased(l, old(s), r.value, id)
      ensures r.Ok? && r.value != "" ==> s == old(s).(leases := old(s).leases[r.value := Lease(id, old(s).now + l.timeout)])
      ensures r.Ok? && r.value != "" ==>
                exists i: nat :: i < SlotCount(l, name) && r.value == SlotName(i, name)
                                 && forall j :: 0 <= j < i ==> Live(old(s), SlotName(j, name))
      ensures r.Ok? && r.value == "" ==> s == old(s)
      ensures r.Ok? ==> (r.value == "" <==> forall i :: 0 <= i < SlotCount(l, name) ==> Live(old(s), SlotName(i, name)))
    {
      var slots := Slots(name);
      if |slots| == 0 || fails {
        return Err;
      }
      FirstFreeIs(s, name, 0, |slots|);
      var i := 0;
      while i < |slots|
        invariant i <= |slots| && s == old(s)
        invariant forall j :: 0 <= j < i ==> Live(s, slots[j])
        invariant FirstFree(s, name, i, |slots|) == FirstFree(s, name, 0, |slots|)
      {
        if !Live(s, slots[i]) {
          s := Leased(l, s, slots[i], id);
          return Ok(slots[i]);
        }
        i := i + 1;
      }
      return Ok("");
    }

    method Release(slot: string, id: string, fails: bool) returns (r: Result<()>)
      modifies this
      ensures r.Err? <==> !Checks(l, slot) || fails
      ensures s == if r.Ok? then Released(l, old(s), slot, id) else old(s)
      ensures s.leases == if r.Ok? && Live(old(s), slot) && old(s).leases[slot].owner == id then old(s).leases - {slot}
                          else old(s).leases
      ensures s.now == old(s).now
    {
      if !Checks(l, slot) || fails {
        return Err;
      }
      if Live(s, slot) && s.leases[slot].owner == id {
        s := s.(leases := s.leases - {slot});
      }
      return Ok(());
    }

    method Extend(slot: string, id: string, fails: bool) returns (r: Result<bool>)
      modifies this
      ensures r.Err? <==> Checks(l, slot) && fails
      ensures r.Ok? ==> r.value == MayExtend(l, old(s), slot, id)
      ensures s == if r.Ok? then Extended(l, old(s), slot, id) else old(s)
      ensures r == Ok(true) <==> Checks(l, slot) && !fails && (!Live(old(s), slot) || old(s).leases[slot].owner == id)
      ensures s == if r == Ok(true) then old(s).(leases := old(s).leases[slot := Lease(id, old(s).now + l.timeout)])
                   else old(s)
    {
      if !Checks(l, slot) {
        return Ok(false);
      }
      if fails {
        return Err;
      }
      if !Live(s, slot) || s.leases[slot].owner == id {
        s := Leased(l, s, slot, id);
        return Ok(true);
      }
      return Ok(false);
    }
  }
}
