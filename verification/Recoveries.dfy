/**
 Declaring recovered sectors under a limit
 (damocles-manager/modules/poster/runner.go, checkRecoveries).
 */
module Recoveries {
  import opened Common
  import opened Bitfields

  datatype Partition = Partition(faulty: set<nat>, recovering: set<nat>)

  /** Outcome of checking a partition's unrecovered sectors: those that are
      provable, always among the ones asked for, or an error. */
  type Check = Result<set<nat>>

  /** A declared bitfield is held as the ascending list of its sectors. */
  datatype Declaration = Declaration(deadline: nat, partition: nat, sectors: seq<nat>)

  function Unrecovered(p: Partition): set<nat> {
    p.faulty - p.recovering
  }

  /** What can be declared for a partition: nothing when its check fails. */
  function Recoverable(p: Partition, check: Check): set<nat> {
    if check.Ok? then check.value * Unrecovered(p) else {}
  }

  function Tag(partition: nat, sectors: seq<nat>): seq<(nat, nat)> {
    seq(|sectors|, k requires 0 <= k < |sectors| => (partition, sectors[k]))
  }

  /** The recoverable sectors of a partition, in the order they are walked. */
  function WalkOf(p: Partition, check: Check): seq<nat> {
    Ascending(Recoverable(p, check))
  }

  /** `walks` are the walks of all partitions. */
  ghost predicate AreWalks(walks: seq<seq<nat>>, parts: seq<Partition>, checks: seq<Check>) {
    |walks| == |parts| == |checks| && forall i :: 0 <= i < |walks| ==> WalkAt(walks, parts, checks, i)
  }

  ghost predicate WalkAt(walks: seq<seq<nat>>, parts: seq<Partition>, checks: seq<Check>, i: nat)
    requires i < |walks| == |parts| == |checks|
  {
    walks[i] == WalkOf(parts[i], checks[i])
  }

  ghost function Walks(parts: seq<Partition>, checks: seq<Check>): (walks: seq<seq<nat>>)
    requires |parts| == |checks|
    ensures AreWalks(walks, parts, checks)
  {
    seq(|parts|, i requires 0 <= i < |parts| == |checks| => WalkOf(parts[i], checks[i]))
  }

  /** The first `n` walks in a row, as (partition, sector) pairs. */
  ghost function Wanted(walks: seq<seq<nat>>, n: nat): seq<(nat, nat)>
    requires n <= |walks|
  {
    if n == 0 then [] else Wanted(walks, n - 1) + Tag(n - 1, walks[n - 1])
  }

  ghost function Pairs(decls: seq<Declaration>): seq<(nat, nat)> {
    if decls == [] then []
    else
      var d := decls[|decls| - 1];
      Pairs(decls[..|decls| - 1]) + Tag(d.partition, d.sectors)
  }

  function Take<T>(xs: seq<T>, n: nat): seq<T> {
    if n < |xs| then xs[..n] else xs
  }

  lemma PairsSnoc(decls: seq<Declaration>, d: Declaration)
    ensures Pairs(decls + [d]) == Pairs(decls) + Tag(d.partition, d.sectors)
  {
    assert (decls + [d])[..|decls|] == decls;
  }

  // ---------------------------------------------------------------------------
  // What each partition adds

  /** The sectors of a walk that are declared when `total` are already: as many as the limit leaves
      room for. */
  ghost function Chosen(walk: seq<nat>, limit: nat, total: nat): (sectors: seq<nat>)
    requires limit > 0 ==> total <= limit
    ensures limit > 0 ==> total + |sectors| <= limit
  {
    if limit > 0 then Take(walk, limit - total) else walk
  }

  /** How many sectors of the first `n` partitions are declared. */
  ghost function Total(walks: seq<seq<nat>>, limit: nat, n: nat): (total: nat)
    requires n <= |walks|
    ensures limit > 0 ==> total <= limit
  {
    if n == 0 then 0 else Total(walks, limit, n - 1) + |Chosen(walks[n - 1], limit, Total(walks, limit, n - 1))|
  }

  /** The declarations with one more, if it has sectors. */
  ghost function With(decls: seq<Declaration>, d: Declaration): seq<Declaration> {
    if d.sectors == [] then decls else decls + [d]
  }

  ghost function Declarations(walks: seq<seq<nat>>, deadline: nat, limit: nat, n: nat): seq<Declaration>
    requires n <= |walks|
  {
    if n == 0 then []
    else With(Declarations(walks, deadline, limit, n - 1),
              Declaration(deadline, n - 1, Chosen(walks[n - 1], limit, Total(walks, limit, n - 1))))
  }

  lemma PairsWith(decls: seq<Declaration>, d: Declaration)
    ensures Pairs(With(decls, d)) == Pairs(decls) + Tag(d.partition, d.sectors)
  {
    if d.sectors != [] {
      PairsSnoc(decls, d);
    }
  }

  /** Taking what there is room for of `a`, then of `b`. */
  lemma TakeConcat<T>(a: seq<T>, b: seq<T>, n: nat)
    ensures Take(a + b, n) == Take(a, n) + Take(b, n - |Take(a, n)|)
  {
  }

  lemma TagTake(partition: nat, sectors: seq<nat>, n: nat)
    ensures Tag(partition, Take(sectors, n)) == Take(Tag(partition, sectors), n)
  {
  }

  /** The sectors of all walks, or the first `limit` of them. */
  ghost function First(walks: seq<seq<nat>>, limit: nat, n: nat): seq<(nat, nat)>
    requires n <= |walks|
  {
    if limit == 0 then Wanted(walks, n) else Take(Wanted(walks, n), limit)
  }

  lemma FirstNext(walks: seq<seq<nat>>, limit: nat, n: nat, total: nat)
    requires n < |walks| && total == |First(walks, limit, n)| && (limit > 0 ==> total <= limit)
    ensures First(walks, limit, n + 1) == First(walks, limit, n) + Tag(n, Chosen(walks[n], limit, total))
  {
    if limit > 0 {
      TakeConcat(Wanted(walks, n), Tag(n, walks[n]), limit);
      TagTake(n, walks[n], limit - total);
    }
  }

  /** `pairs` is what the first `n` partitions declare. */
  ghost predicate Lists(walks: seq<seq<nat>>, deadline: nat, limit: nat, n: nat, pairs: seq<(nat, nat)>)
    requires n <= |walks|
  {
    && pairs == Pairs(Declarations(walks, deadline, limit, n))
    && pairs == First(walks, limit, n)
    && |pairs| == Total(walks, limit, n)
  }

  lemma ListsNext(walks: seq<seq<nat>>, deadline: nat, limit: nat, n: nat, pairs: seq<(nat, nat)>)
    requires n < |walks| && Lists(walks, deadline, limit, n, pairs)
    ensures Lists(walks, deadline, limit, n + 1, pairs + Tag(n, Chosen(walks[n], limit, |pairs|)))
  {
    FirstNext(walks, limit, n, |pairs|);
    PairsWith(Declarations(walks, deadline, limit, n), Declaration(deadline, n, Chosen(walks[n], limit, |pairs|)));
  }

  lemma {:induction false} PairsAre(walks: seq<seq<nat>>, deadline: nat, limit: nat, n: nat)
    requires n <= |walks|
    ensures exists pairs :: Lists(walks, deadline, limit, n, pairs)
  {
    if n == 0 {
      assert Lists(walks, deadline, limit, 0, []);
    } else {
      PairsAre(walks, deadline, limit, n - 1);
      var pairs :| Lists(walks, deadline, limit, n - 1, pairs);
      ListsNext(walks, deadline, limit, n - 1, pairs);
    }
  }

  /** Once the limit is reached nothing more is declared. */
  lemma {:induction false} FullStays(walks: seq<seq<nat>>, deadline: nat, limit: nat, i: nat, n: nat)
    requires i <= n <= |walks| && 0 < limit <= Total(walks, limit, i)
    ensures Declarations(walks, deadline, limit, n) == Declarations(walks, deadline, limit, i)
    ensures Total(walks, limit, n) == limit
  {
    if i < n {
      FullStays(walks, deadline, limit, i, n - 1);
    }
  }

  /** Every declaration is for the right deadline, non-empty and recoverable. */
  ghost predicate Sound(decls: seq<Declaration>, deadline: nat, parts: seq<Partition>, checks: seq<Check>)
    requires |parts| == |checks|
  {
    forall k :: 0 <= k < |decls| ==> SoundOne(decls[k], deadline, parts, checks)
  }

  /** Every published message is non-empty and within the size limit; all but the last are full,
      and without a limit there is at most one. */
  ghost predicate Sized(messages: seq<seq<Declaration>>, max: nat) {
    && (forall k :: 0 <= k < |messages| ==> messages[k] != [] && (max > 0 ==> |messages[k]| <= max))
    && Filled(messages, |messages| - 1, max)
  }

  /** The first `n` messages are full. */
  ghost predicate Filled(messages: seq<seq<Declaration>>, n: int, max: nat)
    requires n <= |messages|
  {
    forall k :: 0 <= k < n ==> max > 0 && |messages[k]| == max
  }

  /** One declaration per partition, in order, of the partitions below `n`. */
  ghost predicate Single(decls: seq<Declaration>, n: nat) {
    && (forall k :: 0 <= k < |decls| ==> decls[k].partition < n)
    && (forall j, k :: 0 <= j < k < |decls| ==> decls[j].partition < decls[k].partition)
  }

  ghost predicate SoundOne(d: Declaration, deadline: nat, parts: seq<Partition>, checks: seq<Check>)
    requires |parts| == |checks|
  {
    && d.deadline == deadline && d.partition < |parts| && d.sectors != []
    && StrictlyAscending(d.sectors)
    && checks[d.partition].Ok?
    && (forall x :: x in d.sectors ==>
          && x in checks[d.partition].value
          && x in parts[d.partition].faulty && x !in parts[d.partition].recovering)
  }

  /** Sound declarations, one per partition, of the partitions below `n`. */
  ghost predicate Proper(decls: seq<Declaration>, deadline: nat, parts: seq<Partition>, checks: seq<Check>, n: nat)
    requires |parts| == |checks|
  {
    Sound(decls, deadline, parts, checks) && Single(decls, n)
  }

  lemma ProperWith(decls: seq<Declaration>, d: Declaration, deadline: nat, parts: seq<Partition>, checks: seq<Check>)
    requires |parts| == |checks| && Proper(decls, deadline, parts, checks, d.partition)
    requires d.sectors != [] ==> SoundOne(d, deadline, parts, checks)
    ensures Proper(With(decls, d), deadline, parts, checks, d.partition + 1)
  {
    if d.sectors != [] {
      var more := decls + [d];
      forall k | 0 <= k < |more| ensures SoundOne(more[k], deadline, parts, checks) {
        assert k < |decls| ==> more[k] == decls[k];
      }
    }
  }

  /** Any first sectors of a walk can be declared. */
  lemma ChosenSound(parts: seq<Partition>, checks: seq<Check>, deadline: nat, i: nat, limit: nat, total: nat)
    requires i < |parts| == |checks| && (limit > 0 ==> total <= limit)
    ensures var d := Declaration(deadline, i, Chosen(WalkOf(parts[i], checks[i]), limit, total));
            d.sectors != [] ==> SoundOne(d, deadline, parts, checks)
  {
    var walk := WalkOf(parts[i], checks[i]);
    var sectors := Chosen(walk, limit, total);
    if sectors != [] {
      AscendingSorted(Recoverable(parts[i], checks[i]));
      forall x | x in sectors ensures Declarable(parts, checks, i, x) {
        WalkIs(parts, checks, i, x);
      }
      assert walk[0] in walk;
      WalkIs(parts, checks, i, walk[0]);
    }
  }

  lemma {:induction false} DeclarationsProper(walks: seq<seq<nat>>, parts: seq<Partition>, checks: seq<Check>,
                                              deadline: nat, limit: nat, n: nat)
    requires AreWalks(walks, parts, checks) && n <= |parts|
    ensures Proper(Declarations(walks, deadline, limit, n), deadline, parts, checks, n)
  {
    if n > 0 {
      var total := Total(walks, limit, n - 1);
      DeclarationsProper(walks, parts, checks, deadline, limit, n - 1);
      ChosenSound(parts, checks, deadline, n - 1, limit, total);
      assert WalkAt(walks, parts, checks, n - 1);
      ProperWith(Declarations(walks, deadline, limit, n - 1),
                 Declaration(deadline, n - 1, Chosen(walks[n - 1], limit, total)), deadline, parts, checks);
    }
  }

  // ---------------------------------------------------------------------------
  // What is declared, by the bitfields and checks alone

  /** Sector `x` of partition `i` is faulty, not recovering yet, and was found good. */
  ghost predicate Declarable(parts: seq<Partition>, checks: seq<Check>, i: nat, x: nat)
    requires i < |parts| == |checks|
  {
    x in parts[i].faulty && x !in parts[i].recovering && checks[i].Ok? && x in checks[i].value
  }

  /** All of them, as (partition, sector) pairs. */
  ghost function AllDeclarable(parts: seq<Partition>, checks: seq<Check>): set<(nat, nat)>
    requires |parts| == |checks|
  {
    set i: nat, x | 0 <= i < |parts| && x in parts[i].faulty && Declarable(parts, checks, i, x) :: (i, x)
  }

  /** By partition, then by sector. */
  predicate Before(p: (nat, nat), q: (nat, nat)) {
    p.0 < q.0 || (p.0 == q.0 && p.1 < q.1)
  }

  ghost predicate Ordered(pairs: seq<(nat, nat)>) {
    forall j, k :: 0 <= j < k < |pairs| ==> Before(pairs[j], pairs[k])
  }

  /** The pairs are in order, from `all`, as many as there are or as the limit allows, and the
      first of them. */
  ghost predicate LeastFirst(pairs: seq<(nat, nat)>, all: set<(nat, nat)>, limit: nat) {
    && Ordered(pairs)
    && (forall p :: p in pairs ==> p in all)
    && |pairs| == (if 0 < limit < |all| then limit else |all|)
    && (forall p, q :: p in pairs && q in all && q !in pairs ==> Before(p, q))
    && (limit == 0 ==> forall q :: q in all ==> q in pairs)
  }

  /** A walk holds exactly the sectors that can be declared. */
  lemma WalkIs(parts: seq<Partition>, checks: seq<Check>, i: nat, x: nat)
    requires i < |parts| == |checks|
    ensures x in WalkOf(parts[i], checks[i]) <==> Declarable(parts, checks, i, x)
  {
    AscendingMembers(Recoverable(parts[i], checks[i]), x);
  }

  lemma TagMembers(partition: nat, sectors: seq<nat>, p: (nat, nat))
    ensures p in Tag(partition, sectors) <==> p.0 == partition && p.1 in sectors
  {
    if p.0 == partition && p.1 in sectors {
      var k :| 0 <= k < |sectors| && sectors[k] == p.1;
      assert Tag(partition, sectors)[k] == p;
    }
  }

  lemma {:induction false} WantedIs(walks: seq<seq<nat>>, parts: seq<Partition>, checks: seq<Check>, n: nat, p: (nat, nat))
    requires AreWalks(walks, parts, checks) && n <= |parts|
    ensures p in Wanted(walks, n) <==> p.0 < n && Declarable(parts, checks, p.0, p.1)
  {
    if n > 0 {
      WantedIs(walks, parts, checks, n - 1, p);
      assert WalkAt(walks, parts, checks, n - 1);
      TagMembers(n - 1, walks[n - 1], p);
      WalkIs(parts, checks, n - 1, p.1);
    }
  }

  lemma TagOrdered(partition: nat, sectors: seq<nat>)
    requires StrictlyAscending(sectors)
    ensures Ordered(Tag(partition, sectors))
  {
  }

  lemma OrderedConcat(a: seq<(nat, nat)>, b: seq<(nat, nat)>, n: nat)
    requires Ordered(a) && Ordered(b)
    requires forall p :: p in a ==> p.0 < n
    requires forall k :: 0 <= k < |b| ==> b[k].0 == n
    ensures Ordered(a + b)
  {
    forall j, k | 0 <= j < k < |a + b| ensures Before((a + b)[j], (a + b)[k]) {
      assert j < |a| ==> a[j] in a;
    }
  }

  lemma {:induction false} WantedOrdered(walks: seq<seq<nat>>, parts: seq<Partition>, checks: seq<Check>, n: nat)
    requires AreWalks(walks, parts, checks) && n <= |parts|
    ensures Ordered(Wanted(walks, n))
  {
    if n > 0 {
      WantedOrdered(walks, parts, checks, n - 1);
      assert WalkAt(walks, parts, checks, n - 1);
      AscendingSorted(Recoverable(parts[n - 1], checks[n - 1]));
      TagOrdered(n - 1, walks[n - 1]);
      forall p | p in Wanted(walks, n - 1) ensures p.0 < n - 1 {
        WantedIs(walks, parts, checks, n - 1, p);
      }
      OrderedConcat(Wanted(walks, n - 1), Tag(n - 1, walks[n - 1]), n - 1);
    }
  }

  /** A list in order without repetition is as long as the set of its members is large. */
  lemma {:induction false} OrderedCount(pairs: seq<(nat, nat)>, all: set<(nat, nat)>)
    requires Ordered(pairs)
    requires forall p :: p in pairs <==> p in all
    ensures |pairs| == |all|
  {
    if pairs != [] {
      var n := |pairs| - 1;
      assert pairs == pairs[..n] + [pairs[n]];
      assert pairs[n] in pairs && pairs[n] !in pairs[..n];
      OrderedCount(pairs[..n], all - {pairs[n]});
    } else {
      assert all == {};
    }
  }

  /** A prefix of a list in order is the first of it. */
  lemma PrefixFirst(wanted: seq<(nat, nat)>, n: nat)
    requires Ordered(wanted) && n <= |wanted|
    ensures Ordered(wanted[..n])
    ensures forall p, q :: p in wanted[..n] && q in wanted && q !in wanted[..n] ==> Before(p, q)
  {
    forall p, q | p in wanted[..n] && q in wanted && q !in wanted[..n]
      ensures Before(p, q)
    {
      assert wanted == wanted[..n] + wanted[n..];
      var j :| 0 <= j < n && wanted[j] == p;
      var k :| n <= k < |wanted| && wanted[k] == q;
    }
  }

  /** So the declarations are the least pairs that can be declared, up to the limit. */
  lemma DeclarationsLeastFirst(walks: seq<seq<nat>>, parts: seq<Partition>, checks: seq<Check>, deadline: nat, limit: nat)
    requires AreWalks(walks, parts, checks)
    ensures LeastFirst(Pairs(Declarations(walks, deadline, limit, |parts|)), AllDeclarable(parts, checks), limit)
  {
    var all := AllDeclarable(parts, checks);
    var wanted := Wanted(walks, |parts|);
    forall p: (nat, nat) ensures p in wanted <==> p in all {
      WantedIs(walks, parts, checks, |parts|, p);
    }
    WantedOrdered(walks, parts, checks, |parts|);
    OrderedCount(wanted, all);
    PairsAre(walks, deadline, limit, |parts|);
    var first := First(walks, limit, |parts|);
    PrefixFirst(wanted, |first|);
    assert first == wanted[..|first|];
  }

  // ---------------------------------------------------------------------------
  // runner.go

  /** One partition: the declaration of its recoverable sectors, as many as the limit leaves room
      for; it is empty when there is nothing to declare. */
  method Select(parts: seq<Partition>, checks: seq<Check>, i: nat, deadline: nat, limit: nat, total: nat)
    returns (d: Declaration)
    requires i < |parts| == |checks|
    requires limit > 0 ==> total <= limit
    ensures d == Declaration(deadline, i, Chosen(WalkOf(parts[i], checks[i]), limit, total))
  {
    d := Declaration(deadline, i, []);
    if |Unrecovered(parts[i])| == 0 {
      return;
    }
    if checks[i].Err? {
      return;
    }
    var recovered := checks[i].value * Unrecovered(parts[i]);
    var sectors := Ascending(recovered);
    if limit > 0 {
      var room := limit - total;
      if |sectors| > room {
        sectors := sectors[..room];
      }
    }
    return Declaration(deadline, i, sectors);
  }

  /** The declarations so far are those already sent and those being gathered. */
  ghost predicate Queued(decls: seq<Declaration>, messages: seq<seq<Declaration>>, current: seq<Declaration>, max: nat) {
    && decls == Flatten(messages) + current
    && Filled(messages, |messages|, max)
    && (max > 0 ==> |current| < max)
  }

  lemma Assoc<T>(a: seq<T>, b: seq<T>, x: T)
    ensures a + b + [x] == a + (b + [x])
  {
  }

  /** Adds a declaration, sending the gathered ones when the message is full. */
  method Queue(messages: seq<seq<Declaration>>, current: seq<Declaration>, d: Declaration, max: nat,
               ghost decls: seq<Declaration>)
    returns (sent: seq<seq<Declaration>>, left: seq<Declaration>)
    requires Queued(decls, messages, current, max)
    ensures Queued(With(decls, d), sent, left, max)
  {
    if d.sectors == [] {
      return messages, current;
    }
    sent, left := messages, current + [d];
    Assoc(Flatten(messages), current, d);
    if max > 0 && |left| >= max {
      FlattenSnoc(messages, left);
      sent, left := messages + [left], [];
    }
  }

  /** Sends what is left, if anything. */
  method Flush(messages: seq<seq<Declaration>>, current: seq<Declaration>, max: nat, ghost decls: seq<Declaration>)
    returns (sent: seq<seq<Declaration>>)
    requires Queued(decls, messages, current, max)
    ensures Flatten(sent) == decls && Sized(sent, max)
  {
    sent := messages;
    if current != [] {
      FlattenSnoc(messages, current);
      sent := messages + [current];
      assert forall k :: 0 <= k < |messages| ==> sent[k] == messages[k];
    }
  }

  /** The loop over the partitions: full messages are sent, the rest is left. */
  method Declare(parts: seq<Partition>, checks: seq<Check>, deadline: nat, limit: nat, max: nat, ghost walks: seq<seq<nat>>)
    returns (messages: seq<seq<Declaration>>, current: seq<Declaration>)
    requires AreWalks(walks, parts, checks)
    ensures Queued(Declarations(walks, deadline, limit, |parts|), messages, current, max)
  {
    messages, current := [], [];
    var total: nat, i: nat, full := 0, 0, false;
    while i < |parts| && !full
      invariant 0 <= i <= |parts|
      invariant Queued(Declarations(walks, deadline, limit, i), messages, current, max)
      invariant total == Total(walks, limit, i)
      invariant full ==> 0 < limit <= total
    {
      // the check for having accepted more than the limit never fires
      assert limit > 0 ==> total <= limit;
      var d := Select(parts, checks, i, deadline, limit, total);
      assert WalkAt(walks, parts, checks, i);
      messages, current := Queue(messages, current, d, max, Declarations(walks, deadline, limit, i));
      i, total := i + 1, total + |d.sectors|;
      full := limit > 0 && total >= limit;
    }
    if full {
      FullStays(walks, deadline, limit, i, |parts|);
    }
  }

  method CheckRecoveries(parts: seq<Partition>, checks: seq<Check>, deadline: nat, limit: nat, max: nat)
    returns (messages: seq<seq<Declaration>>)
    requires |parts| == |checks|
    ensures LeastFirst(Pairs(Flatten(messages)), AllDeclarable(parts, checks), limit)
    ensures Proper(Flatten(messages), deadline, parts, checks, |parts|)
    ensures Sized(messages, max)
  {
    ghost var walks := Walks(parts, checks);
    var sent, current := Declare(parts, checks, deadline, limit, max, walks);
    DeclarationsLeastFirst(walks, parts, checks, deadline, limit);
    DeclarationsProper(walks, parts, checks, deadline, limit, |parts|);
    messages := Flush(sent, current, max, Declarations(walks, deadline, limit, |parts|));
  }
}
