/**
 One runner from its start to its posts
 (damocles-manager/modules/poster/runner.go, start, generatePoSt and submit).

 The runner is started once, cuts the deadline's partitions into batches and proves each
 batch once; batches finish in any order, with submits in between.
 */
module PoStRunner {
  import opened Common
  import opened PartitionBatches
  import opened PoStAttempts
  import opened PoStRuns
  import opened PoStHistory

  /** What a start finds: whether the randomness, the partitions and the network version could
      be had, and the caps on the partitions per message. */
  datatype Setup = Setup(ready: bool, partitions: seq<Partition>, onChain: set<nat>, rand: Rand,
                         maxPartitions: Result<nat>, declMax: nat, cfgMax: int)

  /** Batches cover disjoint ranges of partition indices, in order. */
  ghost predicate Spread(jobs: seq<Batch>) {
    forall a, b :: 0 <= a < b < |jobs| ==> jobs[a].start + |jobs[a].parts| <= jobs[b].start
  }

  function JobOf(b: Batch): Job<Partition> {
    Job(b.parts, b.start)
  }

  ghost function PartsOf(jobs: seq<Batch>): seq<seq<Partition>> {
    seq(|jobs|, j requires 0 <= j < |jobs| => jobs[j].parts)
  }

  /** The jobs are made of all partitions, in order, as many per job as the least cap allows; there
      are none if something was missing.  All are for the setup's randomness and sectors. */
  ghost predicate Covers(jobs: seq<Batch>, setup: Setup) {
    && Flatten(PartsOf(jobs)) == (if setup.ready && setup.maxPartitions.Ok? then setup.partitions else [])
    && (forall j :: 0 <= j < |jobs| ==> Located(setup.partitions, JobOf(jobs[j])))
    && (forall j :: 0 <= j < |jobs| ==> jobs[j].rand == setup.rand && jobs[j].onChain == setup.onChain)
    && (setup.ready && setup.maxPartitions.Ok? ==> exists n: nat :: Fills(jobs, setup, n))
  }

  /** Every job but the last has `n` partitions, the least of the caps. */
  ghost predicate Fills(jobs: seq<Batch>, setup: Setup, n: nat)
    requires setup.maxPartitions.Ok?
  {
    && Caps(n, setup.maxPartitions.value, setup.declMax, setup.cfgMax)
    && (forall j :: 0 <= j < |jobs| ==> 0 < |jobs[j].parts| <= n)
    && (forall j :: 0 <= j < |jobs| - 1 ==> |jobs[j].parts| == n)
  }

  lemma JobsSpread(jobs: seq<Batch>, n: nat, batches: seq<seq<Partition>>)
    requires |jobs| == |batches| && forall j :: 0 <= j < |jobs| ==> JobOf(jobs[j]) == Job(batches[j], j * n)
    requires forall j :: 0 <= j < |batches| ==> |batches[j]| <= n
    ensures Spread(jobs)
  {
    forall a, b | 0 <= a < b < |jobs|
      ensures jobs[a].start + |jobs[a].parts| <= jobs[b].start
    {
      assert JobOf(jobs[a]) == Job(batches[a], a * n) && JobOf(jobs[b]) == Job(batches[b], b * n);
      assert (a + 1) * n == a * n + n;
      MulMonotone(a + 1, b, n);
    }
  }

  lemma SameJob(jobs: seq<Batch>, a: nat, b: nat, x: nat)
    requires Spread(jobs) && a < |jobs| && b < |jobs|
    requires jobs[a].start <= x < jobs[a].start + |jobs[a].parts|
    requires jobs[b].start <= x < jobs[b].start + |jobs[b].parts|
    ensures a == b
  {
  }

  function Below(n: nat): (s: set<nat>)
    ensures forall j: nat :: j in s <==> j < n
  {
    if n == 0 then {} else Below(n - 1) + {n - 1}
  }

  /** Every finished batch is one of the jobs, not open any more, and no job finishes twice:
      `owner[i]` is the job of event `i`. */
  ghost predicate Assigned(events: seq<Event>, owner: seq<nat>, jobs: seq<Batch>, open: set<nat>) {
    && |owner| == |events|
    && (forall i :: 0 <= i < |events| ==> AssignedAt(events, owner, jobs, open, i))
    && (forall i, k :: 0 <= i < k < |events| && events[i].Done? && events[k].Done? ==> owner[i] != owner[k])
  }

  ghost predicate AssignedAt(events: seq<Event>, owner: seq<nat>, jobs: seq<Batch>, open: set<nat>, i: nat)
    requires i < |events| == |owner|
  {
    events[i].Done? ==> owner[i] < |jobs| && owner[i] !in open && events[i].b == jobs[owner[i]]
  }

  lemma AssignedSnoc(events: seq<Event>, owner: seq<nat>, jobs: seq<Batch>, open: set<nat>, e: Event, j: nat)
    requires Assigned(events, owner, jobs, open)
    requires e.Done? ==> j in open && j < |jobs| && e.b == jobs[j]
    ensures Assigned(events + [e], owner + [j], jobs, if e.Done? then open - {j} else open)
  {
    var open' := if e.Done? then open - {j} else open;
    forall i | 0 <= i <= |events|
      ensures AssignedAt(events + [e], owner + [j], jobs, open', i)
    {
      assert i < |events| ==> AssignedAt(events, owner, jobs, open, i);
    }
    forall i | 0 <= i < |events| && events[i].Done? && e.Done?
      ensures owner[i] != j
    {
      assert AssignedAt(events, owner, jobs, open, i);
    }
  }

  class PostRunner {
    const proofs: ProofRunner
    var started: bool
    var jobs: seq<Batch>
    var open: set<nat>
    ghost var owner: seq<nat>

    ghost predicate Valid()
      reads this, proofs
    {
      && proofs.Valid()
      && Spread(jobs)
      && Assigned(proofs.history, owner, jobs, open)
      && (forall j :: j in open ==> j < |jobs|)
      && (!started ==> jobs == [])
    }

    constructor (verify: Verifier)
      ensures Valid() && fresh(proofs) && !started && proofs.history == [] && proofs.verify == verify
    {
      proofs := new ProofRunner(verify);
      started, jobs, open, owner := false, [], {}, [];
    }

    /** The batches of a deadline, one job each. */
    static method Split(setup: Setup) returns (jobs: seq<Batch>)
      requires 0 < setup.declMax && (setup.maxPartitions.Ok? ==> 0 < setup.maxPartitions.value)
      ensures Spread(jobs)
      ensures Covers(jobs, setup)
    {
      jobs := [];
      if !setup.ready {
        return;
      }
      var cut, n := BatchPartitions(setup.partitions, setup.maxPartitions, setup.declMax, setup.cfgMax);
      if cut.Err? {
        return;
      }
      var located := Jobs(setup.partitions, n, cut.value);
      for j := 0 to |located|
        invariant |jobs| == j
        invariant forall i :: 0 <= i < j ==> JobOf(jobs[i]) == located[i]
        invariant forall i :: 0 <= i < j ==> jobs[i].rand == setup.rand && jobs[i].onChain == setup.onChain
      {
        jobs := jobs + [Batch(located[j].batch, located[j].start, setup.onChain, setup.rand)];
      }
      JobsSpread(jobs, n, cut.value);
      assert PartsOf(jobs) == cut.value;
      assert forall j :: 0 <= j < |jobs| ==> jobs[j].parts == cut.value[j];
      assert Fills(jobs, setup, n);
    }

    /** Only the first start does anything. */
    method Start(setup: Setup)
      requires Valid()
      requires 0 < setup.declMax && (setup.maxPartitions.Ok? ==> 0 < setup.maxPartitions.value)
      modifies this
      ensures Valid() && started && proofs.history == old(proofs.history)
      ensures old(started) ==> unchanged(this)
      ensures !old(started) ==> Covers(jobs, setup) && open == Below(|jobs|)
    {
      if started {
        return;
      }
      started := true;
      jobs := Split(setup);
      open := Below(|jobs|);
      forall i | 0 <= i < |proofs.history|
        ensures AssignedAt(proofs.history, owner, jobs, open, i)
      {
        assert AssignedAt(proofs.history, owner, [], old(open), i);
      }
    }

    /** Job `j` is proved, with the answers its attempts meet, and its result filed. */
    method Prove(j: nat, envs: seq<Env>)
      requires Valid() && j in open
      modifies this, proofs
      ensures Valid() && open == old(open) - {j} && jobs == old(jobs)
      ensures proofs.history == old(proofs.history) + [Done(jobs[j], envs, Final(jobs[j], envs, proofs.verify, 0, {}))]
    {
      ghost var e := Done(jobs[j], envs, Final(jobs[j], envs, proofs.verify, 0, {}));
      AssignedSnoc(proofs.history, owner, jobs, open, e, j);
      proofs.GeneratePoStForPartitionBatch(jobs[j], envs);
      open, owner := open - {j}, owner + [j];
    }

    method Submit(dlOpen: int, challenge: int, version: Result<nat>, rand: bool) returns (posts: seq<Post>)
      requires Valid()
      modifies this, proofs
      ensures Valid() && open == old(open) && jobs == old(jobs)
      ensures proofs.history == old(proofs.history) + [Take(rand, CommitEpoch(dlOpen, challenge, version))]
      ensures |old(proofs.history)| < |proofs.history|
      ensures PostsFor(proofs.history, PublishedBy(proofs.history, |old(proofs.history)|),
                       CommitEpoch(dlOpen, challenge, version), posts)
      ensures Dated(posts, dlOpen, challenge, version)
    {
      AssignedSnoc(proofs.history, owner, jobs, open, Take(rand, CommitEpoch(dlOpen, challenge, version)), 0);
      posts := proofs.Submit(dlOpen, challenge, version, rand);
      owner := owner + [0];
    }
  }

  // ---------------------------------------------------------------------------
  // Every history of a runner

  /** Entry `p` of what batch `i` filed, and it was published. */
  ghost predicate PublishedEntry(events: seq<Event>, n: nat, i: nat, p: nat)
    requires n <= |events|
  {
    i in Published(events, n) && i < |events| && events[i].Done? && p < |events[i].params.partitions|
  }

  /** A published entry is for a partition of its own batch. */
  lemma EntryInBatch(verify: Verifier, events: seq<Event>, n: nat, i: nat, p: nat)
    requires Truthful(verify, events) && n <= |events| && PublishedEntry(events, n, i, p)
    ensures Indexed(events[i].b, events[i].params.partitions)
    ensures var x := events[i].params.partitions[p].index;
            events[i].b.start <= x < events[i].b.start + |events[i].b.parts|
  {
    PublishedIsVerified(verify, events, n, i);
  }

  /** Over the whole life of a runner each partition of its deadline is in at most one entry of
      all the posts it publishes. */
  lemma PartitionPublishedOnce(verify: Verifier, events: seq<Event>, owner: seq<nat>, jobs: seq<Batch>, open: set<nat>,
                               n: nat, i: nat, p: nat, k: nat, q: nat)
    requires Truthful(verify, events) && Assigned(events, owner, jobs, open) && Spread(jobs) && n <= |events|
    requires PublishedEntry(events, n, i, p) && PublishedEntry(events, n, k, q)
    requires events[i].params.partitions[p].index == events[k].params.partitions[q].index
    ensures i == k && p == q
  {
    EntryInBatch(verify, events, n, i, p);
    EntryInBatch(verify, events, n, k, q);
    assert AssignedAt(events, owner, jobs, open, i) && AssignedAt(events, owner, jobs, open, k);
    SameJob(jobs, owner[i], owner[k], events[i].params.partitions[p].index);
  }
}
