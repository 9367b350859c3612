/**
 Reservation accounting over every sequence of bookings and releases.
 */
module ReservationRuns {
  import opened Common
  import opened Reservations

  /** The sum of all records. */
  ghost function Total(records: map<SectorId, nat>): nat
    decreases records.Keys
  {
    if records == map[] then 0
    else
      var sid :| sid in records;
      records[sid] + Total(records - {sid})
  }

  lemma {:induction false} TotalRemove(records: map<SectorId, nat>, sid: SectorId)
    requires sid in records
    ensures Total(records) == records[sid] + Total(records - {sid})
    decreases records.Keys
  {
    var first :| first in records && Total(records) == records[first] + Total(records - {first});
    if first != sid {
      TotalRemove(records - {first}, sid);
      TotalRemove(records - {sid}, first);
      assert records - {first} - {sid} == records - {sid} - {first};
    }
  }

  function SizeOf(records: map<SectorId, nat>, sid: SectorId): nat {
    if sid in records then records[sid] else 0
  }

  lemma TotalSet(records: map<SectorId, nat>, sid: SectorId, size: nat)
    ensures Total(records[sid := size]) == Total(records) - SizeOf(records, sid) + size
  {
    TotalRemove(records[sid := size], sid);
    if sid in records {
      TotalRemove(records, sid);
      assert records[sid := size] - {sid} == records - {sid};
    } else {
      assert records[sid := size] - {sid} == records;
    }
  }

  function Records(s: Summary, name: Name): map<SectorId, nat> {
    if name in s then s[name].reserved else map[]
  }

  /** What is reserved beyond the records. */
  ghost function Slack(s: Summary, name: Name): int {
    ReservedAt(s, name) - Total(Records(s, name))
  }

  // ---------------------------------------------------------------------------
  // One change

  predicate Wraps(s: Summary, op: Op) {
    op.Book? && ReservedAt(s, op.name) + op.size >= UINT64
  }

  /** The size of the record that `op` replaces at store `name`. */
  function Overwritten(s: Summary, op: Op, name: Name): nat {
    if op.Book? && op.name == name then SizeOf(Records(s, name), op.sid) else 0
  }

  /** Without wrap-around a booking adds to the slack exactly the record it replaces, and a
      release leaves the slack of every store as it is. */
  lemma SlackNext(s: Summary, op: Op, name: Name)
    requires Slack(s, name) >= 0 && !Wraps(s, op)
    ensures Slack(Apply(s, op), name) == Slack(s, name) + Overwritten(s, op, name)
  {
    match op
    case Book(at, sid, size) =>
      TotalSet(Records(s, name), sid, size);
    case Free(sid) =>
      if name in s && sid in s[name].reserved {
        TotalRemove(s[name].reserved, sid);
      }
  }

  /** A booking keeps the total no less than the records exactly when it does not wrap. */
  lemma BookingKeepsIff(s: Summary, name: Name, sid: SectorId, size: nat)
    requires 0 <= Slack(s, name) && ReservedAt(s, name) < UINT64 && size < UINT64
    ensures Slack(Booked(s, name, sid, size), name) >= 0 <==> ReservedAt(s, name) + size < UINT64
  {
    TotalSet(Records(s, name), sid, size);
    if sid in Records(s, name) {
      TotalRemove(Records(s, name), sid);
    }
  }

  // ---------------------------------------------------------------------------
  // Whole runs

  predicate NoWrap(ops: seq<Op>, n: nat)
    requires n <= |ops|
  {
    forall i :: 0 <= i < n ==> !WrapsAt(ops, i)
  }

  predicate WrapsAt(ops: seq<Op>, i: nat)
    requires i < |ops|
  {
    Wraps(Replay(ops, i), ops[i])
  }

  /** What change `i` replaces at store `name`. */
  function Replaced(ops: seq<Op>, i: nat, name: Name): nat
    requires i < |ops|
  {
    Overwritten(Replay(ops, i), ops[i], name)
  }

  /** All that the first `n` changes replaced at store `name`. */
  function Leaked(ops: seq<Op>, n: nat, name: Name): nat
    requires n <= |ops|
  {
    if n == 0 then 0 else Leaked(ops, n - 1, name) + Replaced(ops, n - 1, name)
  }

  /** In every reachable summary the reserved total of a store is the sum of its records plus
      whatever re-reservations have replaced there. */
  lemma {:induction false} ReservedIsRecordsPlusLeaked(ops: seq<Op>, n: nat, name: Name)
    requires n <= |ops| && NoWrap(ops, n)
    ensures Slack(Replay(ops, n), name) == Leaked(ops, n, name)
  {
    if n > 0 {
      ReservedIsRecordsPlusLeaked(ops, n - 1, name);
      assert !WrapsAt(ops, n - 1);
      SlackNext(Replay(ops, n - 1), ops[n - 1], name);
    }
  }

  lemma {:induction false} LeakedNothingIff(ops: seq<Op>, n: nat, name: Name)
    requires n <= |ops|
    ensures Leaked(ops, n, name) == 0 <==> forall i :: 0 <= i < n ==> Replaced(ops, i, name) == 0
  {
    if n > 0 {
      LeakedNothingIff(ops, n - 1, name);
    }
  }

  /** The total equals the records exactly when no booking ever replaced a non-empty record. */
  lemma ExactIffNothingReplaced(ops: seq<Op>, n: nat, name: Name)
    requires n <= |ops| && NoWrap(ops, n)
    ensures Slack(Replay(ops, n), name) == 0
            <==> forall i :: 0 <= i < n ==> Replaced(ops, i, name) == 0
  {
    ReservedIsRecordsPlusLeaked(ops, n, name);
    LeakedNothingIff(ops, n, name);
  }

  /** A request is booked at a store: it is not on record there already and there is room. */
  ghost predicate Books(policy: map<Name, Policy>, s: Summary, q: Request, name: Name, info: Info) {
    && info.name == name
    && !Prior(policy, s, q, name, Some(info))
    && Roomy(policy, s, q, name, Some(info))
  }

  /** A sector that re-reserves another size at the same store leaks for good: both requests are
      booked, and releasing the sector leaves the space of the first record reserved. */
  lemma ReReservingLeaks(policy: map<Name, Policy>, q: Request, again: Request, name: Name, info: Info)
    requires again.sid == q.sid && again.size != q.size && q.size + again.size <= info.free < UINT64
    requires Reachable(policy, q, name, Some(info)) && Reachable(policy, again, name, Some(info))
    requires info.name == name && !info.readOnly
    ensures var ops := [Book(name, q.sid, q.size), Book(name, q.sid, again.size), Free(q.sid)];
            && NoWrap(ops, 3)
            && Books(policy, Replay(ops, 0), q, name, info)
            && Books(policy, Replay(ops, 1), again, name, info)
            && Held(Replay(ops, 2), q.sid)
            && ReservedAt(Replay(ops, 3), name) == q.size
            && Records(Replay(ops, 3), name) == map[]
  {
    var sid, a, b := q.sid, q.size, again.size;
    var ops := [Book(name, sid, a), Book(name, sid, b), Free(sid)];
    LeakStates(name, sid, a, b);
    assert !WrapsAt(ops, 0) && !WrapsAt(ops, 1) && !WrapsAt(ops, 2);
    assert sid in Replay(ops, 2)[name].reserved;
  }

  /** The leak as calls on a manager with one store. */
  method ReReserve(policy: map<Name, Policy>, q: Request, again: Request, name: Name, info: Info)
    returns (m: StoreManager)
    requires again.sid == q.sid && again.size != q.size && q.size + again.size <= info.free < UINT64
    requires q.infos == again.infos == [Some(info)]
    requires Reachable(policy, q, name, Some(info)) && Reachable(policy, again, name, Some(info))
    requires info.name == name && !info.readOnly
    ensures fresh(m) && m.Valid()
    ensures ReservedAt(m.Stored(), name) == q.size && Records(m.Stored(), name) == map[]
  {
    ReReservingLeaks(policy, q, again, name, info);
    LeakStates(name, q.sid, q.size, again.size);
    ghost var ops := [Book(name, q.sid, q.size), Book(name, q.sid, again.size), Free(q.sid)];
    m := new StoreManager([name], policy);
    assert m.RoomyAt(m.Stored(), q, 0);
    var first := m.ReserveSpace(q, true, Some(0), true);
    ReplaySame(ops, m.ops, |m.ops|);
    assert m.ops == ops[..1];
    assert m.RoomyAt(m.Stored(), again, 0);
    var second := m.ReserveSpace(again, true, Some(0), true);
    ReplaySame(ops, m.ops, |m.ops|);
    assert m.ops == ops[..2];
    var released := m.ReleaseReserved(q.sid, true, true);
    ReplaySame(ops, m.ops, |m.ops|);
  }

  /** A prefix of the changes replays to the same summary. */
  lemma {:induction false} ReplaySame(ops: seq<Op>, prefix: seq<Op>, n: nat)
    requires prefix <= ops && n <= |prefix|
    ensures Replay(prefix, n) == Replay(ops, n)
  {
    if n > 0 {
      ReplaySame(ops, prefix, n - 1);
    }
  }

  lemma LeakStates(name: Name, sid: SectorId, a: nat, b: nat)
    requires a + b < UINT64
    ensures var ops := [Book(name, sid, a), Book(name, sid, b), Free(sid)];
            && Replay(ops, 0) == map[]
            && Replay(ops, 1) == map[name := Stat(a, map[sid := a])]
            && Replay(ops, 2) == map[name := Stat(a + b, map[sid := b])]
            && Replay(ops, 3) == map[name := Stat(a, map[])]
  {
    var ops := [Book(name, sid, a), Book(name, sid, b), Free(sid)];
    var s1: Summary := map[name := Stat(a, map[sid := a])];
    var s2: Summary := map[name := Stat(a + b, map[sid := b])];
    var s3: Summary := map[name := Stat(a, map[])];
    assert Replay(ops, 0) == map[];
    assert Replay(ops, 1) == Booked(map[], name, sid, a) == s1;
    assert s1[name].reserved[sid := b] == map[sid := b];
    assert s1[name := Stat(a + b, map[sid := b])] == s2;
    assert Replay(ops, 2) == Booked(s1, name, sid, b) == s2;
    assert s2[name].reserved - {sid} == map[];
    assert Replay(ops, 3) == Released(s2, sid) == s3;
  }

  /** The record a sector should have: the last booking there that no release has followed. */
  function Latest(ops: seq<Op>, n: nat, name: Name, sid: SectorId): Option<nat>
    requires n <= |ops|
  {
    if n == 0 then None
    else if ops[n - 1].sid != sid then Latest(ops, n - 1, name, sid)
    else if ops[n - 1].Free? then None
    else if ops[n - 1].name == name then Some(ops[n - 1].size)
    else Latest(ops, n - 1, name, sid)
  }

  /** Releases remove all and only the records of their sector: each record is the latest
      booking of its sector at its store that has not been released. */
  lemma {:induction false} RecordsAreLatest(ops: seq<Op>, n: nat, name: Name, sid: SectorId)
    requires n <= |ops|
    ensures var records := Records(Replay(ops, n), name);
            Latest(ops, n, name, sid) == if sid in records then Some(records[sid]) else None
  {
    if n > 0 {
      RecordsAreLatest(ops, n - 1, name, sid);
    }
  }

  // ---------------------------------------------------------------------------
  // Granting

  /** At any time, a request is on record at a store exactly when its size is the one the sector
      booked there last and has not released; asking again then changes nothing, whatever room
      there is left. */
  lemma OnRecordIff(policy: map<Name, Policy>, ops: seq<Op>, n: nat, q: Request, name: Name, info: Option<Info>)
    requires n <= |ops| && Reachable(policy, q, name, info)
    ensures Prior(policy, Replay(ops, n), q, name, info) <==> Latest(ops, n, name, q.sid) == Some(q.size)
  {
    RecordsAreLatest(ops, n, name, q.sid);
  }

  /** A granted request stays on record until the sector is released or books another size there. */
  lemma {:induction false} RepeatIsOnRecord(policy: map<Name, Policy>, ops: seq<Op>, m: nat, n: nat, q: Request,
                                            name: Name, info: Option<Info>)
    requires m < n <= |ops| && ops[m] == Book(name, q.sid, q.size) && Reachable(policy, q, name, info)
    requires forall i :: m < i < n ==>
               !(ops[i].sid == q.sid && (ops[i].Free? || (ops[i].name == name && ops[i].size != q.size)))
    ensures Prior(policy, Replay(ops, n), q, name, info)
  {
    OnRecordIff(policy, ops, n, q, name, info);
    if m + 1 < n {
      RepeatIsOnRecord(policy, ops, m, n - 1, q, name, info);
      OnRecordIff(policy, ops, n - 1, q, name, info);
    }
  }

  /** A store that answers to its own name and has room for the request has room for all it
      has then promised, unless the sum wraps. */
  lemma PromiseFits(policy: map<Name, Policy>, s: Summary, q: Request, name: Name, info: Info)
    requires Roomy(policy, s, q, name, Some(info)) && info.name == name
    ensures ReservedAt(Booked(s, info.name, q.sid, q.size), name) <= info.free
    ensures !Wraps(s, Book(name, q.sid, q.size)) ==> ReservedAt(s, name) + q.size <= info.free
  {
  }
}
