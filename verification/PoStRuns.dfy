/**
 The retry loop of one batch
 (damocles-manager/modules/poster/runner.go, generatePoStForPartitionBatch).
 */
module PoStRuns {
  import opened Common
  import opened Bitfields
  import opened PoStAttempts

  // ---------------------------------------------------------------------------
  // Retrying: attempt `i` meets the answers `envs[i]`; when they run out the
  // runner was cancelled while waiting for the next attempt.

  function Final(b: Batch, envs: seq<Env>, verify: Verifier, i: nat, postSkipped: set<nat>): Params
    requires i <= |envs|
    decreases |envs| - i
  {
    if i == |envs| then NoParams
    else match Attempt(b, envs[i], postSkipped, verify)
      case Stop(params) => if params.Some? then params.value else NoParams
      case Again(skipped) => Final(b, envs, verify, i + 1, skipped)
  }

  /** The skip set at the start of attempt `i`, if that attempt is made. */
  ghost function SkippedAt(b: Batch, envs: seq<Env>, verify: Verifier, i: nat): Option<set<nat>>
    requires i <= |envs|
  {
    if i == 0 then Some({}) else Following(b, envs[i - 1], verify, SkippedAt(b, envs, verify, i - 1))
  }

  /** The skip set after an attempt that starts with `before`, if there is one and another follows. */
  ghost function Following(b: Batch, env: Env, verify: Verifier, before: Option<set<nat>>): Option<set<nat>> {
    if before.None? then None
    else match Attempt(b, env, before.value, verify)
      case Stop(_) => None
      case Again(skipped) => Some(skipped)
  }

  /** The sectors reported by the prover in attempt `i`, when it leads to another. */
  ghost function ReportedAt(b: Batch, envs: seq<Env>, verify: Verifier, i: nat): set<nat>
    requires i < |envs|
  {
    var skipped, next := SkippedAt(b, envs, verify, i), SkippedAt(b, envs, verify, i + 1);
    if skipped.Some? && next.Some? && Consulted(b, envs[i], skipped.value) && envs[i].prover.Unproved?
    then envs[i].prover.skipped else {}
  }

  /** Only reports of the prover enlarge the skip set. */
  lemma SkippedGrows(b: Batch, envs: seq<Env>, verify: Verifier, i: nat)
    requires i < |envs| && SkippedAt(b, envs, verify, i + 1).Some?
    ensures SkippedAt(b, envs, verify, i).Some?
    ensures SkippedAt(b, envs, verify, i + 1).value
            == SkippedAt(b, envs, verify, i).value + ReportedAt(b, envs, verify, i)
  {
  }

  ghost predicate Grows(before: Option<set<nat>>, after: Option<set<nat>>) {
    after.Some? ==> before.Some? && before.value <= after.value
  }

  lemma {:induction false} ChainGrows(chain: seq<Option<set<nat>>>, i: nat, j: nat)
    requires i <= j < |chain|
    requires forall k :: 0 <= k < |chain| - 1 ==> Grows(chain[k], chain[k + 1])
    ensures Grows(chain[i], chain[j])
  {
    if i < j {
      ChainGrows(chain, i, j - 1);
    }
  }

  lemma SkippedMonotone(b: Batch, envs: seq<Env>, verify: Verifier, i: nat, j: nat)
    requires i <= j <= |envs|
    ensures Grows(SkippedAt(b, envs, verify, i), SkippedAt(b, envs, verify, j))
  {
    var chain := seq(|envs| + 1, k requires 0 <= k <= |envs| => SkippedAt(b, envs, verify, k));
    forall k | 0 <= k < |chain| - 1
      ensures Grows(chain[k], chain[k + 1])
    {
      if chain[k + 1].Some? {
        SkippedGrows(b, envs, verify, k);
      }
    }
    ChainGrows(chain, i, j);
  }

  /** The proved sectors avoid the skip set. */
  lemma {:induction false} ChallengedAvoids(b: Batch, es: seq<PoStPartition>, x: nat)
    requires Indexed(b, es)
    requires forall j :: 0 <= j < |es| ==> x !in Kept(b, es[j])
    ensures x !in Challenged(b, es)
  {
    if es != [] {
      var n := |es| - 1;
      ChallengedAvoids(b, es[..n], x);
      var e := es[n];
      if x in EntryBlock(b, e) {
        BlockIsGood(Kept(b, e), Subject(b, e).all, x);
      }
    }
  }

  lemma GatherAvoids(b: Batch, env: Env, postSkipped: set<nat>, x: nat)
    requires Gather(b, env, postSkipped).Ok? && x in postSkipped
    ensures x !in Gather(b, env, postSkipped).value.sectors
  {
    GatherMatchesEntries(b, env, postSkipped);
    ChallengedAvoids(b, Gather(b, env, postSkipped).value.partitions, x);
  }

  lemma ReportedStays(b: Batch, envs: seq<Env>, verify: Verifier, i: nat, j: nat, x: nat)
    requires i < j <= |envs| && SkippedAt(b, envs, verify, j).Some?
    requires x in ReportedAt(b, envs, verify, i)
    ensures x in SkippedAt(b, envs, verify, j).value
  {
    var next := SkippedAt(b, envs, verify, i + 1);
    assert next.Some? && x in next.value by {
      SkippedGrows(b, envs, verify, i);
    }
    SkippedMonotone(b, envs, verify, i + 1, j);
  }

  /** A sector the prover reported bad is in no later attempt's proof. */
  lemma ReportedNeverReturns(b: Batch, envs: seq<Env>, verify: Verifier, i: nat, j: nat, x: nat)
    requires i < j < |envs| && SkippedAt(b, envs, verify, j).Some?
    requires x in ReportedAt(b, envs, verify, i)
    ensures var g := Gather(b, envs[j], SkippedAt(b, envs, verify, j).value);
            g.Ok? ==> x !in g.value.sectors
  {
    var skipped := SkippedAt(b, envs, verify, j).value;
    assert x in skipped by {
      ReportedStays(b, envs, verify, i, j, x);
    }
    if Gather(b, envs[j], skipped).Ok? {
      GatherAvoids(b, envs[j], skipped, x);
    }
  }

  // ---------------------------------------------------------------------------
  // The number of retries caused by the prover

  ghost function Universe(parts: seq<Partition>): set<nat> {
    if parts == [] then {} else Universe(parts[..|parts| - 1]) + ToProve(parts[|parts| - 1])
  }

  lemma {:induction false} InUniverse(parts: seq<Partition>, k: nat, x: nat)
    requires k < |parts| && x in ToProve(parts[k])
    ensures x in Universe(parts)
  {
    if k < |parts| - 1 {
      InUniverse(parts[..|parts| - 1], k, x);
    }
  }

  lemma {:induction false} ChallengedInUniverse(b: Batch, es: seq<PoStPartition>, x: nat)
    requires Indexed(b, es) && x in Challenged(b, es)
    ensures x in Universe(b.parts)
  {
    var n := |es| - 1;
    if x in Challenged(b, es[..n]) {
      ChallengedInUniverse(b, es[..n], x);
    } else {
      var e := es[n];
      BlockIsGood(Kept(b, e), Subject(b, e).all, x);
      InUniverse(b.parts, e.index - b.start, x);
    }
  }

  /** Attempt `i` ends in a report that names a sector it was proving. */
  ghost predicate Names(b: Batch, envs: seq<Env>, verify: Verifier, i: nat)
    requires i < |envs|
  {
    exists x :: x in ReportedAt(b, envs, verify, i)
                && x in Gather(b, envs[i], SkippedAt(b, envs, verify, i).value).value.sectors
  }

  /** A report of a sector that was being proved is new and was to prove. */
  lemma ReportGrows(b: Batch, env: Env, before: set<nat>, reported: set<nat>, x: nat)
    requires Gather(b, env, before).Ok?
    requires x in reported && x in Gather(b, env, before).value.sectors
    ensures |before * Universe(b.parts)| + 1 <= |(before + reported) * Universe(b.parts)|
  {
    var u := Universe(b.parts);
    GatherMatchesEntries(b, env, before);
    ChallengedInUniverse(b, Gather(b, env, before).value.partitions, x);
    if x in before {
      GatherAvoids(b, env, before, x);
    }
    SubsetCount(before * u + {x}, (before + reported) * u);
  }

  /** How many of the first `n` attempts end in a report of the prover that leads to a retry. */
  ghost function SkipRetries(b: Batch, envs: seq<Env>, verify: Verifier, n: nat): nat
    requires n <= |envs|
  {
    if n == 0 then 0 else SkipRetries(b, envs, verify, n - 1) + One(Reports(b, envs, verify, n - 1))
  }

  ghost predicate Reports(b: Batch, envs: seq<Env>, verify: Verifier, i: nat)
    requires i < |envs|
  {
    ReportedAt(b, envs, verify, i) != {}
  }

  /** How many of them name a sector that was being proved, and how many none. */
  ghost function NamedRetries(b: Batch, envs: seq<Env>, verify: Verifier, n: nat): nat
    requires n <= |envs|
  {
    if n == 0 then 0 else NamedRetries(b, envs, verify, n - 1) + One(Names(b, envs, verify, n - 1))
  }

  ghost function StrayRetries(b: Batch, envs: seq<Env>, verify: Verifier, n: nat): nat
    requires n <= |envs|
  {
    if n == 0 then 0
    else StrayRetries(b, envs, verify, n - 1) + One(Reports(b, envs, verify, n - 1) && !Names(b, envs, verify, n - 1))
  }

  /** A hit happens only before a live moment, and raises the level. */
  ghost predicate Rises(hit: bool, before: Option<nat>, after: Option<nat>) {
    && (hit ==> after.Some?)
    && (after.Some? ==> before.Some? && before.value + (if hit then 1 else 0) <= after.value)
  }

  /** How many of the sectors to prove are skipped before attempt `i`. */
  ghost function Level(b: Batch, envs: seq<Env>, verify: Verifier, i: nat): (level: Option<nat>)
    requires i <= |envs|
    ensures level.Some? ==> level.value <= |Universe(b.parts)|
  {
    var s := SkippedAt(b, envs, verify, i);
    if s.None? then None
    else
      SubsetCount(s.value * Universe(b.parts), Universe(b.parts));
      Some(|s.value * Universe(b.parts)|)
  }

  ghost predicate RisesAt(b: Batch, envs: seq<Env>, verify: Verifier, i: nat)
    requires i < |envs|
  {
    Rises(Names(b, envs, verify, i), Level(b, envs, verify, i), Level(b, envs, verify, i + 1))
  }

  lemma LevelRises(b: Batch, envs: seq<Env>, verify: Verifier, i: nat)
    requires i < |envs|
    ensures RisesAt(b, envs, verify, i)
  {
    if SkippedAt(b, envs, verify, i + 1).Some? {
      SkippedGrows(b, envs, verify, i);
      var before, reported := SkippedAt(b, envs, verify, i).value, ReportedAt(b, envs, verify, i);
      if Names(b, envs, verify, i) {
        var x :| x in reported && x in Gather(b, envs[i], before).value.sectors;
        ReportGrows(b, envs[i], before, reported, x);
      } else {
        SubsetCount(before * Universe(b.parts), (before + reported) * Universe(b.parts));
      }
    }
  }

  /** The count so far is within the level, or within `bound` once the attempts are over. */
  ghost predicate Within(count: nat, level: Option<nat>, bound: nat) {
    count <= if level.Some? then level.value else bound
  }

  lemma WithinNext(count: nat, hit: bool, before: Option<nat>, after: Option<nat>, bound: nat)
    ensures Within(count, before, bound) && Rises(hit, before, after) && (before.Some? ==> before.value <= bound)
            ==> Within(count + One(hit), after, bound)
  {
  }

  ghost predicate Counted(b: Batch, envs: seq<Env>, verify: Verifier, n: nat, count: nat)
    requires n <= |envs|
  {
    count == NamedRetries(b, envs, verify, n) && Within(count, Level(b, envs, verify, n), |Universe(b.parts)|)
  }

  ghost predicate WithinAt(b: Batch, envs: seq<Env>, verify: Verifier, n: nat)
    requires n <= |envs|
  {
    exists count: nat :: Counted(b, envs, verify, n, count)
  }

  lemma NamedWithinFirst(b: Batch, envs: seq<Env>, verify: Verifier)
    ensures WithinAt(b, envs, verify, 0)
  {
    assert Counted(b, envs, verify, 0, 0);
  }

  lemma NamedWithinNext(b: Batch, envs: seq<Env>, verify: Verifier, n: nat)
    requires n < |envs|
    ensures WithinAt(b, envs, verify, n) ==> WithinAt(b, envs, verify, n + 1)
  {
    LevelRises(b, envs, verify, n);
    var before, after := Level(b, envs, verify, n), Level(b, envs, verify, n + 1);
    if count: nat :| Counted(b, envs, verify, n, count) {
      WithinNext(count, Names(b, envs, verify, n), before, after, |Universe(b.parts)|);
      assert Counted(b, envs, verify, n + 1, count + One(Names(b, envs, verify, n)));
    }
  }

  lemma {:induction false} NamedWithin(b: Batch, envs: seq<Env>, verify: Verifier, n: nat)
    requires n <= |envs|
    ensures WithinAt(b, envs, verify, n)
  {
    if n == 0 {
      NamedWithinFirst(b, envs, verify);
    } else {
      NamedWithin(b, envs, verify, n - 1);
      NamedWithinNext(b, envs, verify, n - 1);
    }
  }

  /** Whatever the prover answers, it can force at most as many retries with a report that names
      a sector being proved as there are sectors to prove. */
  lemma NamedRetriesBounded(b: Batch, envs: seq<Env>, verify: Verifier, n: nat)
    requires n <= |envs|
    ensures NamedRetries(b, envs, verify, n) <= |Universe(b.parts)|
  {
    NamedWithin(b, envs, verify, n);
  }

  lemma {:induction false} RetriesSplit(b: Batch, envs: seq<Env>, verify: Verifier, n: nat)
    requires n <= |envs|
    ensures SkipRetries(b, envs, verify, n) == NamedRetries(b, envs, verify, n) + StrayRetries(b, envs, verify, n)
  {
    if n > 0 {
      RetriesSplit(b, envs, verify, n - 1);
      assert Names(b, envs, verify, n - 1) ==> Reports(b, envs, verify, n - 1);
    }
  }

  /** So all retries a prover forces are at most the sectors to prove, plus its reports that name
      no sector being proved. */
  lemma SkipRetriesBounded(b: Batch, envs: seq<Env>, verify: Verifier, n: nat)
    requires n <= |envs|
    ensures SkipRetries(b, envs, verify, n) <= |Universe(b.parts)| + StrayRetries(b, envs, verify, n)
  {
    RetriesSplit(b, envs, verify, n);
    NamedRetriesBounded(b, envs, verify, n);
  }

  // What is left to prove, and which reports make it less

  /** The sectors of a batch that an attempt finds good. */
  ghost predicate IsLeft(b: Batch, env: Env, postSkipped: set<nat>, x: nat) {
    exists k :: 0 <= k < |b.parts| && GoodAt(b, env, postSkipped, k, x)
  }

  ghost function Left(b: Batch, env: Env, postSkipped: set<nat>): set<nat> {
    set x | x in Universe(b.parts) && IsLeft(b, env, postSkipped, x)
  }

  lemma LeftIs(b: Batch, env: Env, postSkipped: set<nat>, x: nat)
    ensures x in Left(b, env, postSkipped) <==> IsLeft(b, env, postSkipped, x)
  {
    if IsLeft(b, env, postSkipped, x) {
      var k :| 0 <= k < |b.parts| && GoodAt(b, env, postSkipped, k, x);
      InUniverse(b.parts, k, x);
    }
  }

  /** A report takes exactly the sectors it names out of what is left ... */
  lemma LeftAfterReport(b: Batch, env: Env, postSkipped: set<nat>, reported: set<nat>)
    ensures Left(b, env, postSkipped + reported) == Left(b, env, postSkipped) - reported
  {
    forall x ensures IsLeft(b, env, postSkipped + reported, x) <==> IsLeft(b, env, postSkipped, x) && x !in reported {
      forall k | 0 <= k < |b.parts|
        ensures GoodAt(b, env, postSkipped + reported, k, x) <==> GoodAt(b, env, postSkipped, k, x) && x !in reported
      {
      }
    }
  }

  /** ... so a retry has less left to prove exactly when the report names a sector that was left. */
  lemma RetryShrinksIff(b: Batch, env: Env, postSkipped: set<nat>, reported: set<nat>)
    ensures |Left(b, env, postSkipped + reported)| < |Left(b, env, postSkipped)|
            <==> exists x :: x in reported && x in Left(b, env, postSkipped)
  {
    LeftAfterReport(b, env, postSkipped, reported);
    var left := Left(b, env, postSkipped);
    if x :| x in reported && x in left {
      SubsetCount(left - reported, left - {x});
    } else {
      assert left - reported == left;
    }
  }

  lemma {:induction false} SumSectors(cs: seq<Contribution>, x: nat)
    requires Sum(cs).Ok?
    ensures x in Sum(cs).value.sectors <==> exists k :: 0 <= k < |cs| && cs[k].Proves? && x in cs[k].block
  {
    if cs != [] {
      var n := |cs| - 1;
      SumSectors(cs[..n], x);
      if k :| 0 <= k < |cs| && cs[k].Proves? && x in cs[k].block {
        assert k < n ==> cs[..n][k] == cs[k];
      }
    }
  }

  lemma BlockHasGood(good: set<nat>, all: set<nat>, x: nat)
    requires good <= all
    ensures x in Block(good, all) <==> x in good
  {
    if x in Block(good, all) {
      BlockIsGood(good, all, x);
    }
    if x in good {
      AscendingMembers(all, x);
      var i :| 0 <= i < |Ascending(all)| && Ascending(all)[i] == x;
      BlockShape(good, all, i);
    }
  }

  /** When partitions hold all their live and recovering sectors, what is left is what the
      prover is given. */
  lemma LeftIsProved(b: Batch, env: Env, postSkipped: set<nat>, x: nat)
    requires Gather(b, env, postSkipped).Ok?
    requires forall k :: 0 <= k < |b.parts| ==> ToProve(b.parts[k]) <= b.parts[k].all
    ensures x in Gather(b, env, postSkipped).value.sectors <==> x in Left(b, env, postSkipped)
  {
    var cs := Contributions(b, env, postSkipped, |b.parts|);
    SumSectors(cs, x);
    LeftIs(b, env, postSkipped, x);
    forall k | 0 <= k < |b.parts|
      ensures cs[k].Proves? && x in cs[k].block <==> GoodAt(b, env, postSkipped, k, x)
    {
      ContributionAt(b, env, postSkipped, |b.parts|, k);
      SumOkAt(cs, k);
      BlockHasGood(Good(b, b.parts[k], env.answers[k].bad.value, postSkipped), b.parts[k].all, x);
    }
  }

  lemma {:induction false} SumOkAt(cs: seq<Contribution>, k: nat)
    requires Sum(cs).Ok? && k < |cs|
    ensures !cs[k].Failed?
  {
    if k < |cs| - 1 {
      SumOkAt(cs[..|cs| - 1], k);
    }
  }

  // Reports that name none of the sectors

  lemma {:induction false} SameContributions(b: Batch, env: Env, postSkipped: set<nat>, n: nat)
    requires n <= |b.parts| && postSkipped !! Universe(b.parts)
    ensures Contributions(b, env, postSkipped, n) == Contributions(b, env, {}, n)
  {
    if n > 0 {
      SameContributions(b, env, postSkipped, n - 1);
      forall x | x in ToProve(b.parts[n - 1]) ensures x !in postSkipped {
        InUniverse(b.parts, n - 1, x);
      }
      if n - 1 < |env.answers| && env.answers[n - 1].bad.Ok? {
        var bad := env.answers[n - 1].bad.value;
        assert Good(b, b.parts[n - 1], bad, postSkipped) == Good(b, b.parts[n - 1], bad, {});
      }
    }
  }

  /** The prover is reached and answers with a report of sectors that are not to be proved. */
  ghost predicate Misreports(b: Batch, env: Env) {
    && Consulted(b, env, {}) && env.prover.Unproved? && !env.cancelled
    && env.prover.skipped != {} && env.prover.skipped !! Universe(b.parts)
  }

  lemma MisreportRetries(b: Batch, env: Env, verify: Verifier, before: set<nat>)
    requires Misreports(b, env) && before <= env.prover.skipped
    ensures Consulted(b, env, before)
    ensures Following(b, env, verify, Some(before)) == Some(env.prover.skipped)
  {
    SameContributions(b, env, before, |b.parts|);
    assert before + env.prover.skipped == env.prover.skipped;
  }

  /** Every attempt meets the same answers. */
  ghost predicate Always(envs: seq<Env>, env: Env) {
    forall i :: 0 <= i < |envs| ==> envs[i] == env
  }

  lemma {:induction false} MisreportedSkips(b: Batch, env: Env, envs: seq<Env>, verify: Verifier, i: nat)
    requires Misreports(b, env) && Always(envs, env) && i <= |envs|
    ensures SkippedAt(b, envs, verify, i) == Some(if i == 0 then {} else env.prover.skipped)
  {
    if i > 0 {
      MisreportedSkips(b, env, envs, verify, i - 1);
      MisreportRetries(b, env, verify, if i == 1 then {} else env.prover.skipped);
    }
  }

  lemma MisreportReports(b: Batch, env: Env, envs: seq<Env>, verify: Verifier, i: nat)
    requires Misreports(b, env) && Always(envs, env) && i < |envs|
    ensures Reports(b, envs, verify, i)
  {
    MisreportedSkips(b, env, envs, verify, i);
    MisreportedSkips(b, env, envs, verify, i + 1);
    MisreportRetries(b, env, verify, if i == 0 then {} else env.prover.skipped);
  }

  /** Such reports are not bounded: however many attempts there are, each leads to a retry. */
  lemma {:induction false} MisreportsRetryForever(b: Batch, env: Env, envs: seq<Env>, verify: Verifier, n: nat)
    requires Misreports(b, env) && Always(envs, env) && n <= |envs|
    ensures SkipRetries(b, envs, verify, n) == n
  {
    if n > 0 {
      MisreportsRetryForever(b, env, envs, verify, n - 1);
      MisreportReports(b, env, envs, verify, n - 1);
    }
  }

  /** A batch of one partition that adds to the proof. */
  lemma SoleContribution(b: Batch, env: Env)
    requires |b.parts| == 1 && Contribute(b, env, {}, 0).Proves?
    ensures Gather(b, env, {}) == Ok(Gathered([Contribute(b, env, {}, 0).partition], Contribute(b, env, {}, 0).block))
  {
    var c := Contribute(b, env, {}, 0);
    assert Contributions(b, env, {}, 0) == [];
    assert Contributions(b, env, {}, 1) == [c];
    SumSnoc([], c);
    assert [] + [c] == [c];
    assert [] + [c.partition] == [c.partition] && [] + c.block == c.block;
  }

  /** One partition with one live sector, and a prover that reports another. */
  lemma MisreportExists(x: nat, y: nat, rand: Rand) returns (b: Batch, env: Env)
    requires x != y
    ensures Misreports(b, env) && Universe(b.parts) == {x} && env.prover == Unproved({y})
  {
    b := Batch([Partition({x}, {x}, {}, {})], 0, {x}, rand);
    env := Env([Answer(Ok({}), true)], true, true, Unproved({y}), Some(rand), false);
    assert Universe(b.parts) == {x} by {
      assert b.parts[..0] == [] && Universe([]) == {};
      assert ToProve(b.parts[0]) == {x};
    }
    assert GoodAt(b, env, {}, 0, x);
    ProvesIff(b, env, {}, 0);
    SoleContribution(b, env);
  }

  // ---------------------------------------------------------------------------
  // Only verified proofs

  predicate Useful(p: Params) {
    p.partitions != [] && p.proofs != []
  }

  /** Attempt `i` produced `params`: the proof was verified against the batch's
      randomness, still the same at the head, for exactly the sectors its
      partition entries call for. */
  ghost predicate Verified(b: Batch, env: Env, postSkipped: set<nat>, verify: Verifier, params: Params) {
    && Indexed(b, params.partitions)
    && Useful(params)
    && (forall j :: 0 <= j < |params.partitions| ==> Faithful(b, env, postSkipped, params.partitions[j]))
    && env.headRand == Some(b.rand)
    && verify(b.rand, params.proofs, Challenged(b, params.partitions)) == Some(true)
  }

  lemma {:induction false} FinalVerified(b: Batch, envs: seq<Env>, verify: Verifier, i: nat, postSkipped: set<nat>)
    requires i <= |envs| && SkippedAt(b, envs, verify, i) == Some(postSkipped)
    requires Final(b, envs, verify, i, postSkipped) != NoParams
    ensures exists k, s :: && i <= k < |envs| && SkippedAt(b, envs, verify, k) == Some(s)
                           && Verified(b, envs[k], s, verify, Final(b, envs, verify, i, postSkipped))
    decreases |envs| - i
  {
    if Attempt(b, envs[i], postSkipped, verify).Again? {
      FinalVerified(b, envs, verify, i + 1, Attempt(b, envs[i], postSkipped, verify).postSkipped);
    } else {
      GatherMatchesEntries(b, envs[i], postSkipped);
      assert Verified(b, envs[i], postSkipped, verify, Final(b, envs, verify, i, postSkipped));
    }
  }

  // ---------------------------------------------------------------------------
  // Which proof is filed, told by the answers alone

  /** All sectors found bad in the first `n` attempts. */
  ghost function ToldBy(envs: seq<Env>, n: nat): set<nat>
    requires n <= |envs|
  {
    if n == 0 then {} else ToldBy(envs, n - 1) + Told(envs[n - 1])
  }

  ghost predicate TriesAgainAt(b: Batch, envs: seq<Env>, verify: Verifier, i: nat)
    requires i < |envs|
  {
    TriesAgain(b, envs[i], ToldBy(envs, i), verify)
  }

  /** Attempt `k` is made: every earlier one asks for another. */
  ghost predicate Reaches(b: Batch, envs: seq<Env>, verify: Verifier, k: nat)
    requires k <= |envs|
  {
    forall i :: 0 <= i < k ==> TriesAgainAt(b, envs, verify, i)
  }

  lemma FollowingIs(b: Batch, env: Env, verify: Verifier, before: set<nat>)
    ensures Following(b, env, verify, Some(before))
            == if TriesAgain(b, env, before, verify) then Some(before + Told(env)) else None
  {
    AttemptEnds(b, env, before, verify);
  }

  lemma ReachesNext(b: Batch, envs: seq<Env>, verify: Verifier, k: nat)
    requires k < |envs|
    ensures Reaches(b, envs, verify, k + 1) <==> Reaches(b, envs, verify, k) && TriesAgainAt(b, envs, verify, k)
  {
  }

  /** Attempt `k` is made exactly when all before it ask for another, and then skips exactly what
      their reports name. */
  lemma {:induction false} MadeIff(b: Batch, envs: seq<Env>, verify: Verifier, k: nat)
    requires k <= |envs|
    ensures SkippedAt(b, envs, verify, k) == if Reaches(b, envs, verify, k) then Some(ToldBy(envs, k)) else None
  {
    if k > 0 {
      var before := SkippedAt(b, envs, verify, k - 1);
      assert before == if Reaches(b, envs, verify, k - 1) then Some(ToldBy(envs, k - 1)) else None by {
        MadeIff(b, envs, verify, k - 1);
      }
      ReachesNext(b, envs, verify, k - 1);
      if before.Some? {
        FollowingIs(b, envs[k - 1], verify, before.value);
      }
    }
  }

  lemma FinalStep(b: Batch, envs: seq<Env>, verify: Verifier, i: nat, postSkipped: set<nat>)
    requires i < |envs| && TriesAgain(b, envs[i], postSkipped, verify)
    ensures Final(b, envs, verify, i, postSkipped) == Final(b, envs, verify, i + 1, postSkipped + Told(envs[i]))
  {
    AttemptEnds(b, envs[i], postSkipped, verify);
  }

  lemma {:induction false} FinalFrom(b: Batch, envs: seq<Env>, verify: Verifier, k: nat)
    requires k <= |envs| && Reaches(b, envs, verify, k)
    ensures Final(b, envs, verify, 0, {}) == Final(b, envs, verify, k, ToldBy(envs, k))
  {
    if k > 0 {
      FinalFrom(b, envs, verify, k - 1);
      assert TriesAgainAt(b, envs, verify, k - 1);
      FinalStep(b, envs, verify, k - 1, ToldBy(envs, k - 1));
    }
  }

  lemma FinalSucceeds(b: Batch, envs: seq<Env>, verify: Verifier, i: nat, postSkipped: set<nat>)
    requires i < |envs| && Succeeds(b, envs[i], postSkipped, verify)
    ensures Final(b, envs, verify, i, postSkipped) == Filing(b, envs[i], postSkipped)
  {
    AttemptEnds(b, envs[i], postSkipped, verify);
  }

  /** A good attempt, once it is made, is what the batch files. */
  lemma GoodAttemptIsFiled(b: Batch, envs: seq<Env>, verify: Verifier, k: nat)
    requires k < |envs| && SkippedAt(b, envs, verify, k).Some?
    requires Succeeds(b, envs[k], SkippedAt(b, envs, verify, k).value, verify)
    ensures Final(b, envs, verify, 0, {}) == Filing(b, envs[k], SkippedAt(b, envs, verify, k).value)
  {
    MadeIff(b, envs, verify, k);
    FinalFrom(b, envs, verify, k);
    FinalSucceeds(b, envs, verify, k, ToldBy(envs, k));
  }

  /** Attempt `k` is made, succeeds and yields `params`. */
  ghost predicate FiledAt(b: Batch, envs: seq<Env>, verify: Verifier, k: nat, params: Params)
    requires k < |envs|
  {
    && Reaches(b, envs, verify, k)
    && Succeeds(b, envs[k], ToldBy(envs, k), verify)
    && params == Filing(b, envs[k], ToldBy(envs, k))
  }

  lemma {:induction false} FiledFrom(b: Batch, envs: seq<Env>, verify: Verifier, i: nat)
    requires i <= |envs| && Reaches(b, envs, verify, i)
    requires Final(b, envs, verify, i, ToldBy(envs, i)) != NoParams
    ensures exists k :: i <= k < |envs| && FiledAt(b, envs, verify, k, Final(b, envs, verify, i, ToldBy(envs, i)))
    decreases |envs| - i
  {
    AttemptEnds(b, envs[i], ToldBy(envs, i), verify);
    if TriesAgainAt(b, envs, verify, i) {
      FiledFrom(b, envs, verify, i + 1);
    } else {
      assert FiledAt(b, envs, verify, i, Final(b, envs, verify, i, ToldBy(envs, i)));
    }
  }

  /** A batch files a proof exactly when some attempt is made and succeeds, and files that one. */
  lemma FiledIff(b: Batch, envs: seq<Env>, verify: Verifier, params: Params)
    requires params != NoParams
    ensures Final(b, envs, verify, 0, {}) == params <==> exists k :: 0 <= k < |envs| && FiledAt(b, envs, verify, k, params)
  {
    if Final(b, envs, verify, 0, {}) == params {
      FiledFrom(b, envs, verify, 0);
    }
    if k :| 0 <= k < |envs| && FiledAt(b, envs, verify, k, params) {
      MadeIff(b, envs, verify, k);
      GoodAttemptIsFiled(b, envs, verify, k);
    }
  }

  /** What submit skips is exactly the batches that ended without a proof. */
  lemma UsefulIffProved(b: Batch, envs: seq<Env>, verify: Verifier)
    ensures Useful(Final(b, envs, verify, 0, {})) <==> Final(b, envs, verify, 0, {}) != NoParams
  {
    if Final(b, envs, verify, 0, {}) != NoParams {
      FinalVerified(b, envs, verify, 0, {});
    }
  }
}
