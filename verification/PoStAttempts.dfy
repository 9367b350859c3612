/**
 Proving one batch of partitions, with retries
 (damocles-manager/modules/poster/runner.go, generatePoStForPartitionBatch and
 sectorsForProof).

 A sector's on-chain info is represented by its number.  The checks, the prover,
 the head randomness and the network version are answers of the environment, one
 record per attempt; the verifier is a function of what it is given.
 */
module PoStAttempts {
  import opened Common
  import opened Bitfields

  type Rand = string
  type Proof = string

  datatype Partition = Partition(all: set<nat>, live: set<nat>, faulty: set<nat>, recovering: set<nat>)

  /** One batch, the index of its first partition, the sectors the chain knows
      and the randomness the proof is for. */
  datatype Batch = Batch(parts: seq<Partition>, start: nat, onChain: set<nat>, rand: Rand)

  /** The answers about one partition: the sectors found unprovable, or an error;
      and whether the sector infos could be read. */
  datatype Answer = Answer(bad: Result<set<nat>>, infos: bool)

  datatype ProverAnswer = Proved(proofs: seq<Proof>) | Unproved(skipped: set<nat>)

  datatype Env = Env(
    answers: seq<Answer>,
    version: bool,
    proofType: bool,
    prover: ProverAnswer,
    headRand: Option<Rand>,
    cancelled: bool)

  /** True, false or an error. */
  type Verifier = (Rand, seq<Proof>, seq<nat>) -> Option<bool>

  datatype PoStPartition = PoStPartition(index: nat, skipped: set<nat>)

  datatype Params = Params(partitions: seq<PoStPartition>, proofs: seq<Proof>)

  const NoParams := Params([], [])

  function ToProve(p: Partition): set<nat> {
    (p.live - p.faulty) + p.recovering
  }

  function Good(b: Batch, p: Partition, bad: set<nat>, postSkipped: set<nat>): set<nat> {
    ToProve(p) * b.onChain - bad - postSkipped
  }

  // ---------------------------------------------------------------------------
  // sectorsForProof

  /** Each walked sector stands for itself when good, else for the substitute. */
  function Substituted(walk: seq<nat>, good: set<nat>, substitute: nat): (r: seq<nat>)
    ensures |r| == |walk|
  {
    if walk == [] then []
    else
      var n := |walk| - 1;
      Substituted(walk[..n], good, substitute) + [if walk[n] in good then walk[n] else substitute]
  }

  function Block(good: set<nat>, all: set<nat>): seq<nat> {
    if good == {} then [] else Substituted(Ascending(all), good, Least(good))
  }

  method SectorsForProof(good: set<nat>, all: set<nat>) returns (sectors: seq<nat>)
    ensures sectors == Block(good, all)
  {
    if good == {} {
      return [];
    }
    var substitute := Least(good);
    var walk := Ascending(all);
    sectors := [];
    for i := 0 to |walk|
      invariant sectors == Substituted(walk[..i], good, substitute)
    {
      assert walk[..i + 1][..i] == walk[..i];
      if walk[i] in good {
        sectors := sectors + [walk[i]];
      } else {
        sectors := sectors + [substitute];
      }
    }
    assert walk[..|walk|] == walk;
  }

  lemma {:induction false} SubstitutedAt(walk: seq<nat>, good: set<nat>, substitute: nat, k: nat)
    requires k < |walk|
    ensures Substituted(walk, good, substitute)[k] == if walk[k] in good then walk[k] else substitute
  {
    if k < |walk| - 1 {
      SubstitutedAt(walk[..|walk| - 1], good, substitute, k);
    }
  }

  /** A proved partition contributes one entry per sector of the partition: every
      good sector in its own place, a good substitute in all others. */
  lemma BlockShape(good: set<nat>, all: set<nat>, k: nat)
    requires good != {} && k < |all|
    ensures |Block(good, all)| == |all|
    ensures var own := Ascending(all)[k];
            && Block(good, all)[k] in good
            && (own in good ==> Block(good, all)[k] == own)
            && (own !in good ==> Block(good, all)[k] == Least(good))
  {
    SubstitutedAt(Ascending(all), good, Least(good), k);
  }

  lemma BlockIsGood(good: set<nat>, all: set<nat>, x: nat)
    requires x in Block(good, all)
    ensures x in good
  {
    var k :| 0 <= k < |Block(good, all)| && Block(good, all)[k] == x;
    BlockShape(good, all, k);
  }

  // ---------------------------------------------------------------------------
  // One attempt

  /** What one partition contributes to the proof. */
  datatype Contribution = Failed | Nothing | Proves(partition: PoStPartition, block: seq<nat>)

  function Contribute(b: Batch, env: Env, postSkipped: set<nat>, k: nat): Contribution
    requires k < |b.parts|
  {
    if k >= |env.answers| || env.answers[k].bad.Err? || !env.answers[k].infos then Failed
    else
      var good := Good(b, b.parts[k], env.answers[k].bad.value, postSkipped);
      var block := Block(good, b.parts[k].all);
      if block == [] then Nothing
      else Proves(PoStPartition(b.start + k, ToProve(b.parts[k]) - good), block)
  }

  function Contributions(b: Batch, env: Env, postSkipped: set<nat>, n: nat): (cs: seq<Contribution>)
    requires n <= |b.parts|
    ensures |cs| == n
  {
    if n == 0 then [] else Contributions(b, env, postSkipped, n - 1) + [Contribute(b, env, postSkipped, n - 1)]
  }

  datatype Gathered = Gathered(partitions: seq<PoStPartition>, sectors: seq<nat>)

  function Add(g: Result<Gathered>, c: Contribution): Result<Gathered> {
    if g.Err? || c.Failed? then Err
    else if c.Nothing? then g
    else Ok(Gathered(g.value.partitions + [c.partition], g.value.sectors + c.block))
  }

  function Sum(cs: seq<Contribution>): Result<Gathered> {
    if cs == [] then Ok(Gathered([], [])) else Add(Sum(cs[..|cs| - 1]), cs[|cs| - 1])
  }

  /** All contributions of a batch, in partition order. */
  function Gather(b: Batch, env: Env, postSkipped: set<nat>): Result<Gathered> {
    Sum(Contributions(b, env, postSkipped, |b.parts|))
  }

  /** An attempt ends the batch, with a proof or without, or asks for another
      attempt with a larger skip set. */
  datatype Outcome = Stop(params: Option<Params>) | Again(postSkipped: set<nat>)

  function Conclude(b: Batch, env: Env, postSkipped: set<nat>, verify: Verifier, g: Gathered): Outcome {
    if g.sectors == [] then Stop(None)
    else if !env.version then Again(postSkipped)
    else if !env.proofType then Stop(None)
    else match env.prover
      case Unproved(bad) => if bad == {} || env.cancelled then Stop(None) else Again(postSkipped + bad)
      case Proved(proofs) =>
        if proofs == [] then Stop(None)
        else if env.headRand != Some(b.rand) then Again(postSkipped)
        else if verify(b.rand, proofs, g.sectors) != Some(true) then Again(postSkipped)
        else Stop(Some(Params(g.partitions, proofs)))
  }

  function Attempt(b: Batch, env: Env, postSkipped: set<nat>, verify: Verifier): Outcome {
    var g := Gather(b, env, postSkipped);
    if g.Err? then Stop(None) else Conclude(b, env, postSkipped, verify, g.value)
  }

  lemma SumSnoc(cs: seq<Contribution>, c: Contribution)
    ensures Sum(cs + [c]) == Add(Sum(cs), c)
  {
    assert (cs + [c])[..|cs|] == cs;
  }

  lemma {:induction false} SumFails(cs: seq<Contribution>, m: nat)
    requires m <= |cs| && Sum(cs[..m]).Err?
    ensures Sum(cs).Err?
  {
    if m < |cs| {
      assert cs[..|cs| - 1][..m] == cs[..m];
      SumFails(cs[..|cs| - 1], m);
    } else {
      assert cs[..m] == cs;
    }
  }

  lemma {:induction false} ContributionsPrefix(b: Batch, env: Env, postSkipped: set<nat>, m: nat, n: nat)
    requires m <= n <= |b.parts|
    ensures Contributions(b, env, postSkipped, n)[..m] == Contributions(b, env, postSkipped, m)
  {
    if m < n {
      ContributionsPrefix(b, env, postSkipped, m, n - 1);
    }
  }

  method ContributeOne(b: Batch, env: Env, postSkipped: set<nat>, k: nat) returns (c: Contribution)
    requires k < |b.parts|
    ensures c == Contribute(b, env, postSkipped, k)
  {
    var toProve := b.parts[k].live - b.parts[k].faulty;
    toProve := toProve + b.parts[k].recovering;
    if k >= |env.answers| || env.answers[k].bad.Err? {
      return Failed;
    }
    var good := toProve * b.onChain - env.answers[k].bad.value;
    good := good - postSkipped;
    var skipped := toProve - good;
    if !env.answers[k].infos {
      return Failed;
    }
    var block := SectorsForProof(good, b.parts[k].all);
    if block == [] {
      return Nothing;
    }
    return Proves(PoStPartition(b.start + k, skipped), block);
  }

  lemma GatherStep(b: Batch, env: Env, postSkipped: set<nat>, k: nat)
    requires k < |b.parts|
    ensures var c := Contribute(b, env, postSkipped, k);
            && Sum(Contributions(b, env, postSkipped, k + 1)) == Add(Sum(Contributions(b, env, postSkipped, k)), c)
            && (c.Failed? ==> Gather(b, env, postSkipped) == Err)
  {
    var c := Contribute(b, env, postSkipped, k);
    SumSnoc(Contributions(b, env, postSkipped, k), c);
    if c.Failed? {
      ContributionsPrefix(b, env, postSkipped, k + 1, |b.parts|);
      SumFails(Contributions(b, env, postSkipped, |b.parts|), k + 1);
    }
  }

  method GatherAll(b: Batch, env: Env, postSkipped: set<nat>) returns (g: Result<Gathered>)
    ensures g == Gather(b, env, postSkipped)
  {
    var partitions: seq<PoStPartition>, sectors: seq<nat> := [], [];
    for k := 0 to |b.parts|
      invariant Sum(Contributions(b, env, postSkipped, k)) == Ok(Gathered(partitions, sectors))
    {
      var c := ContributeOne(b, env, postSkipped, k);
      GatherStep(b, env, postSkipped, k);
      if c.Failed? {
        return Err;
      }
      if c.Proves? {
        sectors := sectors + c.block;
        partitions := partitions + [c.partition];
      }
    }
    return Ok(Gathered(partitions, sectors));
  }

  // How an attempt ends, by what it meets

  /** The checks leave sectors to prove. */
  ghost predicate HasSectors(b: Batch, env: Env, postSkipped: set<nat>) {
    var g := Gather(b, env, postSkipped);
    g.Ok? && g.value.sectors != []
  }

  /** The attempt gets as far as the prover. */
  ghost predicate Consulted(b: Batch, env: Env, postSkipped: set<nat>) {
    HasSectors(b, env, postSkipped) && env.version && env.proofType
  }

  /** The prover finds a proof, the randomness at the head is still the batch's, and the verifier
      accepts the proof for the sectors. */
  ghost predicate Succeeds(b: Batch, env: Env, postSkipped: set<nat>, verify: Verifier) {
    && Consulted(b, env, postSkipped)
    && env.prover.Proved? && env.prover.proofs != []
    && env.headRand == Some(b.rand)
    && verify(b.rand, env.prover.proofs, Gather(b, env, postSkipped).value.sectors) == Some(true)
  }

  /** Nothing to prove, no proof type, no proof, or a failure that another attempt cannot mend. */
  ghost predicate GivesUp(b: Batch, env: Env, postSkipped: set<nat>) {
    || !HasSectors(b, env, postSkipped)
    || (env.version && !env.proofType)
    || (Consulted(b, env, postSkipped) && env.prover.Proved? && env.prover.proofs == [])
    || (Consulted(b, env, postSkipped) && env.prover.Unproved? && (env.prover.skipped == {} || env.cancelled))
  }

  /** No network version, changed randomness, a refused proof, or a report of bad sectors. */
  ghost predicate TriesAgain(b: Batch, env: Env, postSkipped: set<nat>, verify: Verifier) {
    && HasSectors(b, env, postSkipped)
    && (|| !env.version
        || (&& env.proofType && env.prover.Proved? && env.prover.proofs != []
            && (|| env.headRand != Some(b.rand)
                || verify(b.rand, env.prover.proofs, Gather(b, env, postSkipped).value.sectors) != Some(true)))
        || (env.proofType && env.prover.Unproved? && env.prover.skipped != {} && !env.cancelled))
  }

  /** The sectors an attempt that is followed by another has found bad. */
  ghost function Told(env: Env): set<nat> {
    if env.version && env.prover.Unproved? then env.prover.skipped else {}
  }

  /** What is filed when the attempt succeeds. */
  ghost function Filing(b: Batch, env: Env, postSkipped: set<nat>): Params
    requires Consulted(b, env, postSkipped) && env.prover.Proved?
  {
    Params(Gather(b, env, postSkipped).value.partitions, env.prover.proofs)
  }

  /** `o` is a proof, giving up or another attempt, each exactly when the answers say so. */
  ghost predicate EndsAs(b: Batch, env: Env, postSkipped: set<nat>, verify: Verifier, o: Outcome) {
    && (Succeeds(b, env, postSkipped, verify) <==> o.Stop? && o.params.Some?)
    && (Succeeds(b, env, postSkipped, verify) ==> o == Stop(Some(Filing(b, env, postSkipped))))
    && (GivesUp(b, env, postSkipped) <==> o == Stop(None))
    && (TriesAgain(b, env, postSkipped, verify) <==> o.Again?)
    && (TriesAgain(b, env, postSkipped, verify) ==> o == Again(postSkipped + Told(env)))
  }

  /** Every attempt ends in one of the three ways, told by the answers alone. */
  lemma AttemptEnds(b: Batch, env: Env, postSkipped: set<nat>, verify: Verifier)
    ensures EndsAs(b, env, postSkipped, verify, Attempt(b, env, postSkipped, verify))
  {
    assert postSkipped + {} == postSkipped;
  }

  /** One attempt, up to the decision whether to try again. */
  method ProveAttempt(b: Batch, env: Env, postSkipped: set<nat>, verify: Verifier) returns (o: Outcome)
    ensures o == Attempt(b, env, postSkipped, verify)
    ensures EndsAs(b, env, postSkipped, verify, o)
  {
    AttemptEnds(b, env, postSkipped, verify);
    var g := GatherAll(b, env, postSkipped);
    if g.Err? || g.value.sectors == [] {
      return Stop(None);
    }
    if !env.version {
      return Again(postSkipped);
    }
    if !env.proofType {
      return Stop(None);
    }
    match env.prover {
      case Proved(proofs) =>
        if proofs == [] {
          return Stop(None);
        }
        if env.headRand.None? || env.headRand.value != b.rand {
          return Again(postSkipped);
        }
        if verify(env.headRand.value, proofs, g.value.sectors) != Some(true) {
          return Again(postSkipped);
        }
        return Stop(Some(Params(g.value.partitions, proofs)));
      case Unproved(bad) =>
        if bad == {} || env.cancelled {
          return Stop(None);
        }
        return Again(postSkipped + bad);
    }
  }

  // ---------------------------------------------------------------------------
  // What a proof is about

  /** The partition a submitted entry stands for. */
  ghost function Subject(b: Batch, e: PoStPartition): Partition
    requires b.start <= e.index < b.start + |b.parts|
  {
    b.parts[e.index - b.start]
  }

  /** The good sectors of a submitted entry: what was to prove and not skipped. */
  ghost function Kept(b: Batch, e: PoStPartition): set<nat>
    requires b.start <= e.index < b.start + |b.parts|
  {
    ToProve(Subject(b, e)) - e.skipped
  }

  ghost function EntryBlock(b: Batch, e: PoStPartition): seq<nat>
    requires b.start <= e.index < b.start + |b.parts|
  {
    Block(Kept(b, e), Subject(b, e).all)
  }

  ghost predicate Indexed(b: Batch, es: seq<PoStPartition>) {
    && (forall j :: 0 <= j < |es| ==> b.start <= es[j].index < b.start + |b.parts|)
    && (forall i, j :: 0 <= i < j < |es| ==> es[i].index < es[j].index)
  }

  /** The sector list a verifier derives from the submitted entries alone. */
  ghost function Challenged(b: Batch, es: seq<PoStPartition>): seq<nat>
    requires forall j :: 0 <= j < |es| ==> b.start <= es[j].index < b.start + |b.parts|
  {
    if es == [] then []
    else
      var e := es[|es| - 1];
      Challenged(b, es[..|es| - 1]) + EntryBlock(b, e)
  }

  /** One entry: skipped and kept partition what was to prove; the kept sectors
      are on chain, passed the check and were never reported by the prover. */
  ghost predicate Faithful(b: Batch, env: Env, postSkipped: set<nat>, e: PoStPartition)
    requires b.start <= e.index < b.start + |b.parts|
  {
    var k := e.index - b.start;
    && k < |env.answers| && env.answers[k].bad.Ok?
    && e.skipped <= ToProve(Subject(b, e))
    && Kept(b, e) != {}
    && (forall x :: x in Kept(b, e) <==>
          && (x in Subject(b, e).recovering || (x in Subject(b, e).live && x !in Subject(b, e).faulty))
          && x in b.onChain && x !in env.answers[k].bad.value && x !in postSkipped)
  }

  lemma ContributionFaithful(b: Batch, env: Env, postSkipped: set<nat>, k: nat)
    requires k < |b.parts| && Contribute(b, env, postSkipped, k).Proves?
    ensures var c := Contribute(b, env, postSkipped, k);
            && c.partition.index == b.start + k
            && Faithful(b, env, postSkipped, c.partition)
            && c.block == EntryBlock(b, c.partition)
  {
    var good := Good(b, b.parts[k], env.answers[k].bad.value, postSkipped);
    assert ToProve(b.parts[k]) - (ToProve(b.parts[k]) - good) == good;
  }

  lemma {:induction false} ContributionAt(b: Batch, env: Env, postSkipped: set<nat>, n: nat, k: nat)
    requires k < n <= |b.parts|
    ensures Contributions(b, env, postSkipped, n)[k] == Contribute(b, env, postSkipped, k)
  {
    if k < n - 1 {
      ContributionAt(b, env, postSkipped, n - 1, k);
    }
  }

  /** The contributions of a batch name their own partitions and blocks. */
  ghost predicate Numbered(start: nat, cs: seq<Contribution>) {
    forall k :: 0 <= k < |cs| && cs[k].Proves? ==> cs[k].partition.index == start + k
  }

  ghost predicate Placed(b: Batch, cs: seq<Contribution>) {
    && |cs| <= |b.parts|
    && Numbered(b.start, cs)
    && (forall k :: 0 <= k < |cs| && cs[k].Proves? ==> cs[k].block == EntryBlock(b, cs[k].partition))
  }

  /** `e` comes from the contribution of its own partition. */
  ghost predicate Origin(start: nat, cs: seq<Contribution>, e: PoStPartition) {
    && start <= e.index < start + |cs|
    && cs[e.index - start].Proves? && cs[e.index - start].partition == e
  }

  lemma {:induction false} SumOrigins(start: nat, cs: seq<Contribution>)
    requires Numbered(start, cs) && Sum(cs).Ok?
    ensures forall j :: 0 <= j < |Sum(cs).value.partitions| ==> Origin(start, cs, Sum(cs).value.partitions[j])
  {
    if cs != [] {
      var init, c := cs[..|cs| - 1], cs[|cs| - 1];
      SumOrigins(start, init);
      forall e | Origin(start, init, e)
        ensures Origin(start, cs, e)
      {
      }
      assert c.Proves? ==> Origin(start, cs, c.partition);
    }
  }

  lemma {:induction false} SumAscending(start: nat, cs: seq<Contribution>)
    requires Numbered(start, cs) && Sum(cs).Ok?
    ensures var es := Sum(cs).value.partitions;
            forall i, j :: 0 <= i < j < |es| ==> es[i].index < es[j].index
  {
    if cs != [] {
      var init := cs[..|cs| - 1];
      SumAscending(start, init);
      SumOrigins(start, init);
      var es := Sum(init).value.partitions;
      assert forall j :: 0 <= j < |es| ==> Origin(start, init, es[j]);
    }
  }

  lemma SumIndexed(b: Batch, cs: seq<Contribution>)
    requires |cs| <= |b.parts| && Numbered(b.start, cs) && Sum(cs).Ok?
    ensures Indexed(b, Sum(cs).value.partitions)
    ensures forall j :: 0 <= j < |Sum(cs).value.partitions| ==> Origin(b.start, cs, Sum(cs).value.partitions[j])
  {
    SumOrigins(b.start, cs);
    SumAscending(b.start, cs);
    var es := Sum(cs).value.partitions;
    assert forall j :: 0 <= j < |es| ==> Origin(b.start, cs, es[j]);
  }

  lemma {:induction false} SumChallenged(b: Batch, cs: seq<Contribution>)
    requires Placed(b, cs) && Sum(cs).Ok?
    ensures Indexed(b, Sum(cs).value.partitions)
    ensures Sum(cs).value.sectors == Challenged(b, Sum(cs).value.partitions)
  {
    SumIndexed(b, cs);
    if cs != [] {
      var init, c := cs[..|cs| - 1], cs[|cs| - 1];
      SumChallenged(b, init);
      if c.Proves? {
        var es := Sum(init).value.partitions;
        assert (es + [c.partition])[..|es|] == es;
      }
    }
  }

  /** The proved sectors are exactly those the submitted entries call for, one
      entry per proved partition in ascending order. */
  lemma GatherMatchesEntries(b: Batch, env: Env, postSkipped: set<nat>)
    requires Gather(b, env, postSkipped).Ok?
    ensures var g := Gather(b, env, postSkipped).value;
            && Indexed(b, g.partitions)
            && (forall j :: 0 <= j < |g.partitions| ==> Faithful(b, env, postSkipped, g.partitions[j]))
            && g.sectors == Challenged(b, g.partitions)
  {
    var cs := Contributions(b, env, postSkipped, |b.parts|);
    forall k | 0 <= k < |cs| && cs[k].Proves?
      ensures cs[k].partition.index == b.start + k && cs[k].block == EntryBlock(b, cs[k].partition)
      ensures Faithful(b, env, postSkipped, cs[k].partition)
    {
      ContributionAt(b, env, postSkipped, |b.parts|, k);
      ContributionFaithful(b, env, postSkipped, k);
    }
    SumIndexed(b, cs);
    SumChallenged(b, cs);
  }

  /** The checks of partition `k` were answered. */
  ghost predicate Answered(env: Env, k: nat) {
    k < |env.answers| && env.answers[k].bad.Ok? && env.answers[k].infos
  }

  lemma {:induction false} SumOkIff(cs: seq<Contribution>)
    ensures Sum(cs).Ok? <==> forall k :: 0 <= k < |cs| ==> !cs[k].Failed?
  {
    if cs != [] {
      var n := |cs| - 1;
      SumOkIff(cs[..n]);
      assert forall k :: 0 <= k < n ==> cs[..n][k] == cs[k];
    }
  }

  /** An attempt has its sectors exactly when every partition's checks were answered. */
  lemma GatherOkIff(b: Batch, env: Env, postSkipped: set<nat>)
    ensures Gather(b, env, postSkipped).Ok? <==> forall k :: 0 <= k < |b.parts| ==> Answered(env, k)
  {
    var cs := Contributions(b, env, postSkipped, |b.parts|);
    SumOkIff(cs);
    forall k | 0 <= k < |cs| ensures cs[k].Failed? <==> !Answered(env, k) {
      ContributionAt(b, env, postSkipped, |b.parts|, k);
    }
  }

  /** Partition `k` has an entry. */
  ghost predicate HasEntry(es: seq<PoStPartition>, index: nat) {
    exists j :: 0 <= j < |es| && es[j].index == index
  }

  lemma {:induction false} SumHasEntry(start: nat, cs: seq<Contribution>, k: nat)
    requires Numbered(start, cs) && Sum(cs).Ok? && k < |cs| && cs[k].Proves?
    ensures HasEntry(Sum(cs).value.partitions, start + k)
  {
    var n := |cs| - 1;
    var es := Sum(cs[..n]).value.partitions;
    if k < n {
      SumHasEntry(start, cs[..n], k);
      var j :| 0 <= j < |es| && es[j].index == start + k;
      assert Sum(cs).value.partitions[j] == es[j];
    } else {
      assert Sum(cs).value.partitions[|es|] == cs[k].partition;
    }
  }

  /** Sector `x` of partition `k` is to be proved, on chain, checked and not reported. */
  ghost predicate GoodAt(b: Batch, env: Env, postSkipped: set<nat>, k: nat, x: nat)
    requires k < |b.parts|
  {
    && k < |env.answers| && env.answers[k].bad.Ok?
    && (x in b.parts[k].recovering || (x in b.parts[k].live && x !in b.parts[k].faulty))
    && x in b.onChain && x !in env.answers[k].bad.value && x !in postSkipped
  }

  /** A partition adds to the proof exactly when it has sectors and one of them is good. */
  lemma ProvesIff(b: Batch, env: Env, postSkipped: set<nat>, k: nat)
    requires k < |b.parts| && Answered(env, k)
    ensures Contribute(b, env, postSkipped, k).Proves?
            <==> b.parts[k].all != {} && exists x :: GoodAt(b, env, postSkipped, k, x)
  {
    var good := Good(b, b.parts[k], env.answers[k].bad.value, postSkipped);
    assert forall x :: x in good <==> GoodAt(b, env, postSkipped, k, x);
    assert good != {} <==> exists x :: x in good;
    assert |Ascending(b.parts[k].all)| == |b.parts[k].all|;
  }

  /** The entries are those of the partitions that add to the proof. */
  lemma SumEntries(start: nat, cs: seq<Contribution>, k: nat)
    requires Numbered(start, cs) && Sum(cs).Ok? && k < |cs|
    ensures HasEntry(Sum(cs).value.partitions, start + k) <==> cs[k].Proves?
  {
    SumOrigins(start, cs);
    if cs[k].Proves? {
      SumHasEntry(start, cs, k);
    }
    var es := Sum(cs).value.partitions;
    if j :| 0 <= j < |es| && es[j].index == start + k {
      assert Origin(start, cs, es[j]);
    }
  }

  /** A partition is in the proof exactly when it has sectors and one of them is good. */
  lemma EntryIff(b: Batch, env: Env, postSkipped: set<nat>, k: nat)
    requires Gather(b, env, postSkipped).Ok? && k < |b.parts|
    ensures HasEntry(Gather(b, env, postSkipped).value.partitions, b.start + k)
            <==> b.parts[k].all != {} && exists x :: GoodAt(b, env, postSkipped, k, x)
  {
    var cs := Contributions(b, env, postSkipped, |b.parts|);
    forall i | 0 <= i < |cs| ensures cs[i].Proves? ==> cs[i].partition.index == b.start + i {
      ContributionAt(b, env, postSkipped, |b.parts|, i);
    }
    SumEntries(b.start, cs, k);
    GatherOkIff(b, env, postSkipped);
    ProvesIff(b, env, postSkipped, k);
    ContributionAt(b, env, postSkipped, |b.parts|, k);
  }
}
