/**
 Space reservations of the object store manager (damocles-manager/pkg/objstore/mgr.go).

 The summary kept in the metadata store maps each store to the total it has reserved
 and the records that total is for.
 */
module Reservations {
  import opened Common

  type Name = string

  datatype SectorId = SectorId(miner: nat, number: nat)

  datatype Stat = Stat(reservedSize: nat, reserved: map<SectorId, nat>)

  type Summary = map<Name, Stat>

  const EMPTY_STAT := Stat(0, map[])

  datatype Policy = Policy(allow: seq<nat>, deny: seq<nat>)

  /** What a store says about itself: the name in its configuration, and its free space. */
  datatype Info = Info(name: Name, readOnly: bool, free: nat)

  function Add64(a: nat, b: nat): nat {
    (a + b) % UINT64
  }

  // ---------------------------------------------------------------------------
  // Which stores qualify

  predicate MayUse(p: Policy, miner: nat) {
    miner !in p.deny && (p.allow == [] || miner in p.allow)
  }

  method Allowed(p: Policy, miner: nat) returns (ok: bool)
    ensures ok <==> MayUse(p, miner)
    ensures ok <==> miner !in p.deny && (p.allow == [] || miner in p.allow)
  {
    if |p.deny| > 0 {
      for i := 0 to |p.deny|
        invariant miner !in p.deny[..i]
      {
        if p.deny[i] == miner {
          return false;
        }
      }
    }
    if |p.allow| > 0 {
      for i := 0 to |p.allow|
        invariant miner !in p.allow[..i]
      {
        if p.allow[i] == miner {
          return true;
        }
      }
      return false;
    }
    return true;
  }

  /** A request for space, and the stores as they answer while it is served. */
  datatype Request = Request(sid: SectorId, size: nat, candidates: seq<Name>, infos: seq<Option<Info>>)

  /** The request may be served by store `name`, which answered with `info`. */
  predicate Reachable(policy: map<Name, Policy>, q: Request, name: Name, info: Option<Info>) {
    && (name in policy ==> MayUse(policy[name], q.sid.miner))
    && (q.candidates == [] || name in q.candidates)
    && info.Some?
  }

  function ReservedAt(s: Summary, name: Name): nat {
    if name in s then s[name].reservedSize else 0
  }

  /** The sector already has a record of this very size there. */
  predicate Prior(policy: map<Name, Policy>, s: Summary, q: Request, name: Name, info: Option<Info>) {
    && Reachable(policy, q, name, info)
    && name in s
    && q.sid in s[name].reserved
    && s[name].reserved[q.sid] == q.size
  }

  /** The store can take a new record: writable, and with room for all it will have promised. */
  predicate Roomy(policy: map<Name, Policy>, s: Summary, q: Request, name: Name, info: Option<Info>) {
    && Reachable(policy, q, name, info)
    && !info.value.readOnly
    && Add64(ReservedAt(s, name), q.size) <= info.value.free
  }

  /** The stores among the first `n` that can take the request, in order. */
  function Offers(policy: map<Name, Policy>, s: Summary, q: Request, names: seq<Name>, n: nat): seq<nat>
    requires n <= |names| == |q.infos|
  {
    if n == 0 then []
    else Offers(policy, s, q, names, n - 1)
         + if Roomy(policy, s, q, names[n - 1], q.infos[n - 1]) then [n - 1] else []
  }

  lemma {:induction false} OffersAre(policy: map<Name, Policy>, s: Summary, q: Request, names: seq<Name>, n: nat, i: nat)
    requires n <= |names| == |q.infos|
    ensures i in Offers(policy, s, q, names, n) <==> i < n && Roomy(policy, s, q, names[i], q.infos[i])
  {
    if n > 0 {
      OffersAre(policy, s, q, names, n - 1, i);
    }
  }

  // ---------------------------------------------------------------------------
  // What an operation does to the summary

  function Booked(s: Summary, name: Name, sid: SectorId, size: nat): Summary {
    var stat := if name in s then s[name] else EMPTY_STAT;
    s[name := Stat(Add64(stat.reservedSize, size), stat.reserved[sid := size])]
  }

  function ReleasedStat(stat: Stat, sid: SectorId): Stat {
    if sid in stat.reserved then
      var size := stat.reserved[sid];
      Stat(if stat.reservedSize > size then stat.reservedSize - size else 0, stat.reserved - {sid})
    else stat
  }

  function Released(s: Summary, sid: SectorId): Summary {
    map name | name in s :: ReleasedStat(s[name], sid)
  }

  /** Some store has a record of the sector. */
  ghost predicate Held(s: Summary, sid: SectorId) {
    exists name :: name in s && sid in s[name].reserved
  }

  datatype Op = Book(name: Name, sid: SectorId, size: nat) | Free(sid: SectorId)

  function Apply(s: Summary, op: Op): Summary {
    match op
    case Book(name, sid, size) => Booked(s, name, sid, size)
    case Free(sid) => Released(s, sid)
  }

  /** The summary after the first `n` changes. */
  function Replay(ops: seq<Op>, n: nat): Summary
    requires n <= |ops|
  {
    if n == 0 then map[] else Apply(Replay(ops, n - 1), ops[n - 1])
  }

  lemma {:induction false} ReplayPrefix(ops: seq<Op>, op: Op, n: nat)
    requires n <= |ops|
    ensures Replay(ops + [op], n) == Replay(ops, n)
  {
    if n > 0 {
      ReplayPrefix(ops, op, n - 1);
    }
  }

  // ---------------------------------------------------------------------------
  // mgr.go

  /** The loop over the summary: every store forgets the sector. */
  method ReleaseAll(before: Summary, sid: SectorId) returns (s: Summary, changed: bool)
    ensures s == Released(before, sid)
    ensures changed <==> Held(before, sid)
  {
    s, changed := before, false;
    var todo := s.Keys;
    while todo != {}
      invariant todo <= before.Keys == s.Keys
      invariant forall name :: name in s ==>
                  s[name] == if name in todo then before[name] else ReleasedStat(before[name], sid)
      invariant changed <==> exists name :: name in before && name !in todo && sid in before[name].reserved
      decreases todo
    {
      var name := Pick(todo);
      var stat := s[name];
      if sid in stat.reserved {
        var size := stat.reserved[sid];
        s := s[name := Stat(if stat.reservedSize > size then stat.reservedSize - size else 0, stat.reserved - {sid})];
        changed := true;
      }
      todo := todo - {name};
    }
  }

  class StoreManager {
    const names: seq<Name>
    const policy: map<Name, Policy>
    var db: Option<Summary>
    ghost var ops: seq<Op>

    ghost predicate Valid()
      reads this
    {
      Stored() == Replay(ops, |ops|)
    }

    function Stored(): Summary
      reads this
    {
      if db.Some? then db.value else map[]
    }

    constructor (names: seq<Name>, policy: map<Name, Policy>)
      ensures Valid() && ops == [] && this.names == names && this.policy == policy
    {
      this.names, this.policy, db := names, policy, None;
      ops := [];
    }

    /** The loop over the stores: it ends early at a store that has the record already. */
    method Search(s: Summary, q: Request) returns (found: Option<nat>, offers: seq<nat>)
      requires |q.infos| == |names|
      ensures found.Some? ==> found.value < |names| && Prior(policy, s, q, names[found.value], q.infos[found.value])
      ensures found.None? ==> forall i :: 0 <= i < |names| ==> !Prior(policy, s, q, names[i], q.infos[i])
      ensures found.None? ==> offers == Offers(policy, s, q, names, |names|)
    {
      found, offers := None, [];
      for i := 0 to |names|
        invariant forall j :: 0 <= j < i ==> !Prior(policy, s, q, names[j], q.infos[j])
        invariant offers == Offers(policy, s, q, names, i)
      {
        var name, info := names[i], q.infos[i];
        var ok := true;
        if name in policy {
          ok := Allowed(policy[name], q.sid.miner);
        }
        if ok && (q.candidates == [] || name in q.candidates) && info.Some? {
          var reserved := 0;
          if name in s {
            reserved := s[name].reservedSize;
            if q.sid in s[name].reserved && s[name].reserved[q.sid] == q.size {
              return Some(i), offers;
            }
          }
          if !info.value.readOnly && !(info.value.free < Add64(reserved, q.size)) {
            offers := offers + [i];
          }
        }
      }
    }

    /** Saves a changed summary.  When saving fails the stored one stays. */
    method Save(s: Summary, saves: bool, ghost op: Op) returns (saved: bool)
      requires Valid() && s == Apply(Stored(), op)
      modifies this
      ensures Valid()
      ensures saved == saves
      ensures saves ==> ops == old(ops) + [op]
      ensures !saves ==> unchanged(this)
    {
      if !saves {
        return false;
      }
      ReplayPrefix(ops, op, |ops|);
      db := Some(s);
      ops := ops + [op];
      return true;
    }

    /** Store `i` answers, is among the candidates, and its policy lets the miner in. */
    ghost predicate ServesAt(q: Request, i: nat)
      requires |q.infos| == |names|
    {
      && i < |names| && q.infos[i].Some?
      && (q.candidates != [] ==> names[i] in q.candidates)
      && (names[i] in policy ==>
            && q.sid.miner !in policy[names[i]].deny
            && (policy[names[i]].allow != [] ==> q.sid.miner in policy[names[i]].allow))
    }

    /** Store `i` has the record already. */
    ghost predicate PriorAt(s: Summary, q: Request, i: nat)
      requires |q.infos| == |names|
    {
      ServesAt(q, i) && names[i] in s && q.sid in s[names[i]].reserved && s[names[i]].reserved[q.sid] == q.size
    }

    /** Store `i` can take the request: it is writable, and what it has reserved and the size, as an
        unsigned sum, fit into its free space. */
    ghost predicate RoomyAt(s: Summary, q: Request, i: nat)
      requires |q.infos| == |names|
    {
      && ServesAt(q, i) && !q.infos[i].value.readOnly
      && ((if names[i] in s then s[names[i]].reservedSize else 0) + q.size) % UINT64 <= q.infos[i].value.free
    }

    ghost function BookOn(q: Request, i: nat): Op
      requires i < |q.infos| && q.infos[i].Some?
    {
      Book(q.infos[i].value.name, q.sid, q.size)
    }

    /** The answer names a store by its configuration; `pick` is the weighted draw, which may fail.
        A request that is on record already is granted without a change; otherwise one of the
        stores with room is booked. */
    method ReserveSpace(q: Request, views: bool, pick: Option<nat>, saves: bool) returns (r: Result<Option<Name>>)
      requires Valid() && |q.infos| == |names|
      modifies this
      ensures Valid()
      ensures r.Err? || ops == old(ops) ==> unchanged(this)
      ensures r.Err? ==> !views || !saves
      ensures !views ==> r.Err?
      ensures views && (exists i: nat :: PriorAt(old(Stored()), q, i)) ==>
                && ops == old(ops)
                && exists i: nat :: PriorAt(old(Stored()), q, i) && r == Ok(Some(q.infos[i].value.name))
      ensures views && (forall i: nat :: !PriorAt(old(Stored()), q, i))
              && (pick.None? || forall i: nat :: !RoomyAt(old(Stored()), q, i)) ==>
                ops == old(ops) && r == Ok(None)
      ensures views && (forall i: nat :: !PriorAt(old(Stored()), q, i))
              && pick.Some? && (exists i: nat :: RoomyAt(old(Stored()), q, i)) ==>
                if saves then
                  exists i: nat :: RoomyAt(old(Stored()), q, i) && r == Ok(Some(q.infos[i].value.name))
                                   && ops == old(ops) + [BookOn(q, i)]
                else r.Err?
    {
      if !views {
        return Err;
      }
      var s := Stored();
      var found, offers := Search(s, q);
      if found.Some? {
        assert PriorAt(s, q, found.value);
        return Ok(Some(q.infos[found.value].value.name));
      }
      forall i: nat ensures i in offers <==> RoomyAt(s, q, i) {
        OffersAre(policy, s, q, names, |names|, i);
      }
      if offers == [] || pick.None? {
        return Ok(None);
      }
      var i := offers[pick.value % |offers|];
      assert i in offers;
      var name := q.infos[i].value.name;
      var saved := Save(Booked(s, name, q.sid, q.size), saves, Book(name, q.sid, q.size));
      if !saved {
        return Err;
      }
      return Ok(Some(name));
    }

    method ReleaseReserved(sid: SectorId, views: bool, saves: bool) returns (r: Result<bool>)
      requires Valid()
      modifies this
      ensures Valid()
      ensures r.Err? ==> unchanged(this)
      ensures r.Err? <==> !views || (Held(old(Stored()), sid) && !saves)
      ensures r.Ok? ==> r.value == Held(old(Stored()), sid)
      ensures r.Ok? ==> ops == if r.value then old(ops) + [Free(sid)] else old(ops)
      ensures r.Ok? && !r.value ==> unchanged(this)
    {
      if !views {
        return Err;
      }
      var s, changed := ReleaseAll(Stored(), sid);
      if !changed {
        return Ok(false);
      }
      var saved := Save(s, saves, Free(sid));
      if !saved {
        return Err;
      }
      return Ok(true);
    }
  }
}
