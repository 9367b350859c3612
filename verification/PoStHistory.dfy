/**
 The hand-over of finished proofs
 (damocles-manager/modules/poster/runner.go, generatePoStForPartitionBatch, submit and
 submitPoSts).
 */
module PoStHistory {
  import opened Common
  import opened Bitfields
  import opened PoStAttempts
  import opened PoStRuns

  function CommitEpoch(open: int, challenge: int, version: Result<nat>): int {
    if version.Ok? && version.value >= 4 then challenge else open
  }

  datatype Post = Post(params: Params, epoch: int)

  /** Every post commits to the challenge from network version 4 on, and to the opening before it
      or when the version is unknown. */
  ghost predicate Dated(posts: seq<Post>, open: int, challenge: int, version: Result<nat>) {
    forall k :: 0 <= k < |posts| ==> (&& (version.Ok? && version.value >= 4 ==> posts[k].epoch == challenge)
                                      && (version.Err? || version.value < 4 ==> posts[k].epoch == open))
  }

  function Posts(proofs: seq<Params>, epoch: int): seq<Post> {
    if proofs == [] then []
    else
      var n := |proofs| - 1;
      Posts(proofs[..n], epoch) + if Useful(proofs[n]) then [Post(proofs[n], epoch)] else []
  }

  /** A batch that is done, with the answers its attempts met and the parameters it files; or
      a submit.  They come in the order the lock admits them.  `rand` says that the commit
      randomness for `epoch` was available. */
  datatype Event = Done(b: Batch, envs: seq<Env>, params: Params) | Take(rand: bool, epoch: int)

  /** Every batch files the outcome of its own attempts. */
  ghost predicate Truthful(verify: Verifier, events: seq<Event>) {
    forall i :: 0 <= i < |events| ==> TruthfulAt(verify, events, i)
  }

  ghost predicate TruthfulAt(verify: Verifier, events: seq<Event>, i: nat)
    requires i < |events|
  {
    events[i].Done? ==> events[i].params == Final(events[i].b, events[i].envs, verify, 0, {})
  }

  /** The batches, by the number of their event, that wait after the first `n` events. */
  ghost function Waiting(events: seq<Event>, n: nat): seq<nat>
    requires n <= |events|
  {
    if n == 0 then [] else if events[n - 1].Done? then Waiting(events, n - 1) + [n - 1] else []
  }

  /** The batches handed to submitters, and all finished ones, in order. */
  ghost function Handed(events: seq<Event>, n: nat): seq<nat>
    requires n <= |events|
  {
    if n == 0 then [] else Handed(events, n - 1) + if events[n - 1].Take? then Waiting(events, n - 1) else []
  }

  ghost function Finished(events: seq<Event>, n: nat): seq<nat>
    requires n <= |events|
  {
    if n == 0 then [] else Finished(events, n - 1) + if events[n - 1].Done? then [n - 1] else []
  }

  /** Batch `i` ended with a proof. */
  ghost predicate Proves(events: seq<Event>, i: nat) {
    i < |events| && events[i].Done? && Useful(events[i].params)
  }

  ghost function Proving(events: seq<Event>, ids: seq<nat>): seq<nat> {
    if ids == [] then []
    else
      var n := |ids| - 1;
      Proving(events, ids[..n]) + if Proves(events, ids[n]) then [ids[n]] else []
  }

  /** The batches whose proofs event `j` publishes. */
  ghost function PublishedBy(events: seq<Event>, j: nat): seq<nat>
    requires j < |events|
  {
    if events[j].Take? && events[j].rand then Proving(events, Waiting(events, j)) else []
  }

  ghost function Published(events: seq<Event>, n: nat): seq<nat>
    requires n <= |events|
  {
    if n == 0 then [] else Published(events, n - 1) + PublishedBy(events, n - 1)
  }

  // ---------------------------------------------------------------------------
  // The same for the values the runner holds

  /** `proofs` are the parameters that the batches `ids` filed. */
  ghost predicate Results(events: seq<Event>, ids: seq<nat>, proofs: seq<Params>) {
    |proofs| == |ids| && forall k :: 0 <= k < |ids| ==> ResultAt(events, ids, proofs, k)
  }

  ghost predicate ResultAt(events: seq<Event>, ids: seq<nat>, proofs: seq<Params>, k: nat)
    requires k < |ids| == |proofs|
  {
    ids[k] < |events| && events[ids[k]].Done? && proofs[k] == events[ids[k]].params
  }

  /** `posts` publish what the batches `ids` filed, one post each. */
  ghost predicate PostsFor(events: seq<Event>, ids: seq<nat>, epoch: int, posts: seq<Post>) {
    |posts| == |ids| && forall k :: 0 <= k < |ids| ==> PostAt(events, ids, epoch, posts, k)
  }

  ghost predicate PostAt(events: seq<Event>, ids: seq<nat>, epoch: int, posts: seq<Post>, k: nat)
    requires k < |ids| == |posts|
  {
    ids[k] < |events| && events[ids[k]].Done? && posts[k] == Post(events[ids[k]].params, epoch)
  }

  lemma {:induction false} WaitingPrefix(events: seq<Event>, e: Event, n: nat)
    requires n <= |events|
    ensures Waiting(events + [e], n) == Waiting(events, n)
  {
    if n > 0 {
      WaitingPrefix(events, e, n - 1);
    }
  }

  lemma ResultsPrefix(events: seq<Event>, e: Event, ids: seq<nat>, proofs: seq<Params>)
    requires Results(events, ids, proofs)
    ensures Results(events + [e], ids, proofs)
  {
    forall k | 0 <= k < |ids| ensures ResultAt(events + [e], ids, proofs, k) {
      assert ResultAt(events, ids, proofs, k);
    }
  }

  /** Filing one more batch. */
  lemma ResultsSnoc(events: seq<Event>, ids: seq<nat>, proofs: seq<Params>, e: Event)
    requires Results(events, ids, proofs) && e.Done?
    ensures Results(events + [e], ids + [|events|], proofs + [e.params])
  {
    var more, ids', proofs' := events + [e], ids + [|events|], proofs + [e.params];
    forall k | 0 <= k < |ids'| ensures ResultAt(more, ids', proofs', k) {
      assert k < |ids| ==> ResultAt(events, ids, proofs, k);
    }
  }

  lemma TruthfulSnoc(verify: Verifier, events: seq<Event>, e: Event)
    requires Truthful(verify, events)
    requires e.Done? ==> e.params == Final(e.b, e.envs, verify, 0, {})
    ensures Truthful(verify, events + [e])
  {
    forall i | 0 <= i <= |events| ensures TruthfulAt(verify, events + [e], i) {
      assert i < |events| ==> TruthfulAt(verify, events, i);
    }
  }

  /** Skipping the useless parameters leaves one post for each batch with a proof. */
  lemma {:induction false} PostsAreOfProving(events: seq<Event>, ids: seq<nat>, proofs: seq<Params>, epoch: int)
    requires Results(events, ids, proofs)
    ensures PostsFor(events, Proving(events, ids), epoch, Posts(proofs, epoch))
  {
    if ids != [] {
      var n := |ids| - 1;
      assert ResultAt(events, ids, proofs, n);
      forall k | 0 <= k < n ensures ResultAt(events, ids[..n], proofs[..n], k) {
        assert ResultAt(events, ids, proofs, k);
      }
      PostsAreOfProving(events, ids[..n], proofs[..n], epoch);
      var ps, qs := Proving(events, ids[..n]), Posts(proofs[..n], epoch);
      var ps', qs' := Proving(events, ids), Posts(proofs, epoch);
      forall k | 0 <= k < |ps'| ensures PostAt(events, ps', epoch, qs', k) {
        assert k < |ps| ==> PostAt(events, ps, epoch, qs, k);
      }
    }
  }

  class ProofRunner {
    const verify: Verifier
    var proofs: seq<Params>
    ghost var history: seq<Event>

    ghost predicate Valid()
      reads this
    {
      && Truthful(verify, history)
      && Results(history, Waiting(history, |history|), proofs)
    }

    constructor (verify: Verifier)
      ensures Valid() && history == [] && this.verify == verify
    {
      this.verify, proofs, history := verify, [], [];
    }

    /** The attempts at one batch, until one does not ask for another. */
    static method Retry(b: Batch, envs: seq<Env>, verify: Verifier) returns (params: Params)
      ensures params == Final(b, envs, verify, 0, {})
    {
      var postSkipped: set<nat>, i := {}, 0;
      while i < |envs|
        invariant 0 <= i <= |envs|
        invariant Final(b, envs, verify, i, postSkipped) == Final(b, envs, verify, 0, {})
      {
        var o := ProveAttempt(b, envs[i], postSkipped, verify);
        if o.Stop? {
          return if o.params.Some? then o.params.value else NoParams;
        }
        postSkipped := o.postSkipped;
        i := i + 1;
      }
      return NoParams;
    }

    /** Proves one batch and files its result, proved or not. */
    method GeneratePoStForPartitionBatch(b: Batch, envs: seq<Env>)
      requires Valid()
      modifies this
      ensures Valid()
      ensures history == old(history) + [Done(b, envs, Final(b, envs, verify, 0, {}))]
    {
      var params := Retry(b, envs, verify);
      ghost var e := Done(b, envs, params);
      WaitingPrefix(history, e, |history|);
      ResultsSnoc(history, Waiting(history, |history|), proofs, e);
      TruthfulSnoc(verify, history, e);
      proofs, history := proofs + [params], history + [e];
    }

    /** The loop of submitPoSts. */
    static method PublishAll(taken: seq<Params>, epoch: int) returns (posts: seq<Post>)
      ensures posts == Posts(taken, epoch)
    {
      posts := [];
      for i := 0 to |taken|
        invariant posts == Posts(taken[..i], epoch)
      {
        assert taken[..i + 1][..i] == taken[..i];
        if taken[i].partitions == [] || taken[i].proofs == [] {
          continue;
        }
        posts := posts + [Post(taken[i], epoch)];
      }
      assert taken[..|taken|] == taken;
    }

    /** Takes every finished proof and publishes one post for each batch that ended with a proof,
        unless the commit randomness is unavailable. */
    method Submit(open: int, challenge: int, version: Result<nat>, rand: bool) returns (posts: seq<Post>)
      requires Valid()
      modifies this
      ensures Valid()
      ensures history == old(history) + [Take(rand, CommitEpoch(open, challenge, version))]
      ensures |old(history)| < |history|
      ensures PostsFor(history, PublishedBy(history, |old(history)|), CommitEpoch(open, challenge, version), posts)
      ensures Dated(posts, open, challenge, version)
    {
      var taken := proofs;
      var epoch := open;
      if version.Ok? && version.value >= 4 {
        epoch := challenge;
      }
      ghost var e, ids := Take(rand, epoch), Waiting(history, |history|);
      WaitingPrefix(history, e, |history|);
      ResultsPrefix(history, e, ids, proofs);
      TruthfulSnoc(verify, history, e);
      PostsAreOfProving(history + [e], ids, proofs, epoch);
      proofs, history := [], history + [e];
      posts := [];
      if taken == [] || !rand {
        return;
      }
      posts := PublishAll(taken, epoch);
      PostsDated(taken, epoch);
    }
  }

  lemma {:induction false} PostsDated(proofs: seq<Params>, epoch: int)
    ensures forall k :: 0 <= k < |Posts(proofs, epoch)| ==> Posts(proofs, epoch)[k].epoch == epoch
  {
    if proofs != [] {
      PostsDated(proofs[..|proofs| - 1], epoch);
    }
  }

  // ---------------------------------------------------------------------------
  // Every history

  /** Each finished batch is handed over at most once, in the order of completion, and those
      not handed over are still waiting. */
  lemma {:induction false} HandedOnce(events: seq<Event>, n: nat)
    requires n <= |events|
    ensures Handed(events, n) + Waiting(events, n) == Finished(events, n)
  {
    if n > 0 {
      HandedOnce(events, n - 1);
    }
  }

  /** No submit comes between `i` and `n`. */
  ghost predicate Untaken(events: seq<Event>, i: nat, n: nat)
    requires n <= |events|
  {
    forall k :: i < k < n ==> !events[k].Take?
  }

  lemma {:induction false} WaitingIs(events: seq<Event>, n: nat, i: nat)
    requires n <= |events|
    ensures i in Waiting(events, n) <==> i < n && events[i].Done? && Untaken(events, i, n)
  {
    if n > 0 {
      WaitingIs(events, n - 1, i);
      assert i < n - 1 ==> (Untaken(events, i, n) <==> Untaken(events, i, n - 1) && !events[n - 1].Take?);
    }
  }

  lemma {:induction false} ProvingIs(events: seq<Event>, ids: seq<nat>, i: nat)
    ensures i in Proving(events, ids) <==> i in ids && Proves(events, i)
  {
    if ids != [] {
      ProvingIs(events, ids[..|ids| - 1], i);
      assert ids == ids[..|ids| - 1] + [ids[|ids| - 1]];
    }
  }

  /** Event `j` is the first submit after `i`, and its commit randomness was available. */
  ghost predicate FirstTake(events: seq<Event>, i: nat, j: nat)
    requires j < |events|
  {
    i < j && Untaken(events, i, j) && events[j].Take? && events[j].rand
  }

  lemma PublishedByIs(events: seq<Event>, j: nat, i: nat)
    requires j < |events|
    ensures i in PublishedBy(events, j) <==> Proves(events, i) && FirstTake(events, i, j)
  {
    WaitingIs(events, j, i);
    ProvingIs(events, Waiting(events, j), i);
  }

  /** What has been published are exactly the proofs of the batches that ended with one and whose
      first submit had its commit randomness; a proof taken without it is never published. */
  lemma {:induction false} PublishedIff(events: seq<Event>, n: nat, i: nat)
    requires n <= |events|
    ensures i in Published(events, n) <==> Proves(events, i) && exists j :: 0 <= j < n && FirstTake(events, i, j)
  {
    if n > 0 {
      PublishedIff(events, n - 1, i);
      PublishedByIs(events, n - 1, i);
    }
  }

  /** Batch `i` made an attempt that succeeded, and filed it. */
  ghost predicate Succeeded(verify: Verifier, events: seq<Event>, i: nat) {
    && i < |events| && events[i].Done?
    && exists k :: 0 <= k < |events[i].envs| && FiledAt(events[i].b, events[i].envs, verify, k, events[i].params)
  }

  lemma SucceededProves(verify: Verifier, events: seq<Event>, i: nat)
    requires Truthful(verify, events)
    ensures Succeeded(verify, events, i) <==> Proves(events, i)
  {
    if i < |events| && events[i].Done? {
      assert TruthfulAt(verify, events, i);
      UsefulIffProved(events[i].b, events[i].envs, verify);
      if events[i].params != NoParams {
        FiledIff(events[i].b, events[i].envs, verify, events[i].params);
      }
    }
  }

  /** The batches whose proofs are published are those with an attempt that was made and succeeded,
      told by its answers, and whose first submit had its commit randomness. */
  lemma SucceededIsPublishedIff(verify: Verifier, events: seq<Event>, n: nat, i: nat)
    requires Truthful(verify, events) && n <= |events|
    ensures i in Published(events, n)
            <==> Succeeded(verify, events, i) && exists j :: 0 <= j < n && FirstTake(events, i, j)
  {
    PublishedIff(events, n, i);
    SucceededProves(verify, events, i);
  }

  /** A published proof was verified, for the batch it was filed for: against its randomness,
      re-read at head, and for exactly the sectors its entries call for. */
  lemma PublishedIsVerified(verify: Verifier, events: seq<Event>, n: nat, i: nat)
    requires Truthful(verify, events) && n <= |events| && i in Published(events, n)
    ensures i < |events| && events[i].Done?
    ensures exists k, s :: && 0 <= k < |events[i].envs|
                           && SkippedAt(events[i].b, events[i].envs, verify, k) == Some(s)
                           && Verified(events[i].b, events[i].envs[k], s, verify, events[i].params)
  {
    PublishedIff(events, n, i);
    assert TruthfulAt(verify, events, i);
    FinalVerified(events[i].b, events[i].envs, verify, 0, {});
  }

  /** So is every post a submit sends. */
  lemma PostIsVerified(verify: Verifier, events: seq<Event>, j: nat, epoch: int, posts: seq<Post>, k: nat)
    requires Truthful(verify, events) && j < |events|
    requires PostsFor(events, PublishedBy(events, j), epoch, posts) && k < |posts|
    ensures var i := PublishedBy(events, j)[k];
            && i < |events| && events[i].Done? && posts[k].params == events[i].params
            && exists a, s :: && 0 <= a < |events[i].envs|
                              && SkippedAt(events[i].b, events[i].envs, verify, a) == Some(s)
                              && Verified(events[i].b, events[i].envs[a], s, verify, posts[k].params)
  {
    var i := PublishedBy(events, j)[k];
    assert PostAt(events, PublishedBy(events, j), epoch, posts, k);
    assert i in Published(events, j + 1);
    PublishedIsVerified(verify, events, j + 1, i);
  }

  lemma {:induction false} WaitingAscends(events: seq<Event>, n: nat)
    requires n <= |events|
    ensures StrictlyAscending(Waiting(events, n))
    ensures forall k :: 0 <= k < |Waiting(events, n)| ==> Waiting(events, n)[k] < n
  {
    if n > 0 {
      WaitingAscends(events, n - 1);
    }
  }

  lemma {:induction false} ProvingAscends(events: seq<Event>, ids: seq<nat>)
    requires StrictlyAscending(ids)
    ensures StrictlyAscending(Proving(events, ids))
  {
    if ids != [] {
      var front, last := ids[..|ids| - 1], ids[|ids| - 1];
      ProvingAscends(events, front);
      var ps := Proving(events, front);
      forall k | 0 <= k < |ps| ensures ps[k] < last {
        ProvingIs(events, front, ps[k]);
      }
    }
  }

  /** A later submit publishes only batches that finished later. */
  lemma LaterIsNewer(events: seq<Event>, n: nat, i: nat, j: nat)
    requires n < |events| && i in Published(events, n) && j in PublishedBy(events, n)
    ensures i < j
  {
    PublishedIff(events, n, i);
    PublishedByIs(events, n, j);
    var k :| 0 <= k < n && FirstTake(events, i, k);
    assert !(j < k < n);
  }

  lemma AscendingConcat(a: seq<nat>, b: seq<nat>)
    requires StrictlyAscending(a) && StrictlyAscending(b)
    requires forall i, j :: 0 <= i < |a| && 0 <= j < |b| ==> a[i] < b[j]
    ensures StrictlyAscending(a + b)
  {
  }

  /** No batch is published twice, and proofs are published in the order of completion. */
  lemma {:induction false} PublishedOnce(events: seq<Event>, n: nat)
    requires n <= |events|
    ensures StrictlyAscending(Published(events, n))
  {
    if n > 0 {
      PublishedOnce(events, n - 1);
      WaitingAscends(events, n - 1);
      ProvingAscends(events, Waiting(events, n - 1));
      var before, more := Published(events, n - 1), PublishedBy(events, n - 1);
      forall i, j | 0 <= i < |before| && 0 <= j < |more| ensures before[i] < more[j] {
        LaterIsNewer(events, n - 1, before[i], more[j]);
      }
      AscendingConcat(before, more);
    }
  }
}
