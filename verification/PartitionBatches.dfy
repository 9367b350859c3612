/**
 Splitting the partitions of a deadline into messages
 (damocles-manager/modules/poster/runner.go, batchPartitions and generatePoSt).
 */
module PartitionBatches {
  import opened Common

  /** The number of partitions per message: the least of the caps. */
  ghost predicate Caps(n: nat, maxPartitions: nat, declMax: nat, cfgMax: int) {
    && n <= maxPartitions && n <= declMax && (cfgMax > 0 ==> n <= cfgMax)
    && (n == maxPartitions || n == declMax || n == cfgMax)
  }

  /** `batches` cuts `xs` into consecutive pieces of `n`, the last one shorter. */
  ghost predicate Cut<T>(xs: seq<T>, n: nat, batches: seq<seq<T>>) {
    && Flatten(batches) == xs
    && (forall i :: 0 <= i < |batches| ==> 0 < |batches[i]| <= n)
    && (forall i :: 0 <= i < |batches| - 1 ==> |batches[i]| == n)
  }

  method BatchPartitions<T>(partitions: seq<T>, maxPartitions: Result<nat>, declMax: nat, cfgMax: int)
    returns (r: Result<seq<seq<T>>>, ghost n: nat)
    requires 0 < declMax && (maxPartitions.Ok? ==> 0 < maxPartitions.value)
    ensures r.Ok? <==> maxPartitions.Ok?
    ensures r.Ok? ==> 0 < n && Caps(n, maxPartitions.value, declMax, cfgMax) && Cut(partitions, n, r.value)
  {
    n := 0;
    if maxPartitions.Err? {
      return Err, n;
    }
    var perMsg := maxPartitions.value;
    if perMsg > declMax {
      perMsg := declMax;
    }
    if cfgMax > 0 && perMsg > cfgMax {
      perMsg := cfgMax;
    }
    n := perMsg;
    var batches: seq<seq<T>> := [];
    var i := 0;
    while i < |partitions|
      invariant 0 <= i
      invariant i < |partitions| ==> Cut(partitions[..i], perMsg, batches)
      invariant i < |partitions| ==> forall k :: 0 <= k < |batches| ==> |batches[k]| == perMsg
      invariant i >= |partitions| ==> Cut(partitions, perMsg, batches)
      decreases |partitions| - i
    {
      var end := i + perMsg;
      if end > |partitions| {
        end := |partitions|;
      }
      ghost var before := batches;
      batches := batches + [partitions[i..end]];
      assert batches[..|batches| - 1] == before;
      assert partitions[..i] + partitions[i..end] == partitions[..end];
      assert end == |partitions| ==> partitions[..end] == partitions;
      i := i + perMsg;
    }
    return Ok(batches), n;
  }

  /** Everything a cut determines: the number of batches is the rounded-up
      quotient and batch `b` starts at `b * n`. */
  lemma {:induction false} CutShape<T>(xs: seq<T>, n: nat, batches: seq<seq<T>>, b: nat, k: nat)
    requires 0 < n && Cut(xs, n, batches)
    requires b < |batches| && k < |batches[b]|
    ensures b * n + k < |xs| && xs[b * n + k] == batches[b][k]
    decreases |batches|
  {
    var m := |batches| - 1;
    var init := batches[..m];
    FullBatches(init, n);
    assert |Flatten(init)| == m * n;
    if b < m {
      assert Cut(Flatten(init), n, init);
      CutShape(Flatten(init), n, init, b, k);
    }
  }

  lemma {:induction false} FullBatches<T>(batches: seq<seq<T>>, n: nat)
    requires forall i :: 0 <= i < |batches| ==> |batches[i]| == n
    ensures |Flatten(batches)| == |batches| * n
  {
    if batches != [] {
      FullBatches(batches[..|batches| - 1], n);
      assert (|batches| - 1) * n + n == |batches| * n;
    }
  }

  lemma BatchCount<T>(xs: seq<T>, n: nat, batches: seq<seq<T>>)
    requires 0 < n && Cut(xs, n, batches)
    ensures |batches| == (|xs| + n - 1) / n
  {
    if batches == [] {
      QuotientIs(n - 1, n, 0);
    } else {
      var m := |batches| - 1;
      FullBatches(batches[..m], n);
      assert (m + 1) * n == m * n + n;
      QuotientIs(m * n + |batches[m]| + n - 1, n, m + 1);
    }
  }

  datatype Job<T> = Job(batch: seq<T>, start: nat)

  /** Start index plus local index is the global partition index. */
  ghost predicate Located<T>(partitions: seq<T>, job: Job<T>) {
    forall k :: 0 <= k < |job.batch| ==> LocatedAt(partitions, job, k)
  }

  ghost predicate LocatedAt<T>(partitions: seq<T>, job: Job<T>, k: nat)
    requires k < |job.batch|
  {
    job.start + k < |partitions| && partitions[job.start + k] == job.batch[k]
  }

  /** generatePoSt hands each batch on with the index of its first partition. */
  method Jobs<T>(partitions: seq<T>, ghost n: nat, batches: seq<seq<T>>) returns (jobs: seq<Job<T>>)
    requires 0 < n && Cut(partitions, n, batches)
    ensures |jobs| == |batches|
    ensures forall b :: 0 <= b < |jobs| ==> jobs[b].batch == batches[b] && jobs[b].start == b * n
    ensures forall b :: 0 <= b < |jobs| ==> Located(partitions, jobs[b])
  {
    jobs := [];
    var start := 0;
    for b := 0 to |batches|
      invariant |jobs| == b
      invariant b < |batches| ==> start == b * n
      invariant forall c :: 0 <= c < b ==> jobs[c].batch == batches[c] && jobs[c].start == c * n
    {
      jobs := jobs + [Job(batches[b], start)];
      start := start + |batches[b]|;
      assert (b + 1) * n == b * n + n;
    }
    forall b | 0 <= b < |jobs|
      ensures Located(partitions, jobs[b])
    {
      JobLocated(partitions, n, batches, b, jobs[b]);
    }
  }

  lemma JobLocated<T>(partitions: seq<T>, n: nat, batches: seq<seq<T>>, b: nat, job: Job<T>)
    requires 0 < n && Cut(partitions, n, batches) && b < |batches|
    requires job.batch == batches[b] && job.start == b * n
    ensures Located(partitions, job)
  {
    forall k | 0 <= k < |job.batch|
      ensures LocatedAt(partitions, job, k)
    {
      CutShape(partitions, n, batches, b, k);
    }
  }
}
