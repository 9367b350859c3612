/**
 What the sealing simulator keeps in every minute of every run, for all stage
 durations, concurrency limits and thread counts.
 */
module SealCalcRuns {
  import opened Common
  import opened SealCalc

  const STAGES := 5

  function At(p: Pipeline, k: nat): Stage
    requires k < STAGES
  {
    if k == 0 then p.treeD else if k == 1 then p.pc1 else if k == 2 then p.pc2 else if k == 3 then p.seed else p.c2
  }

  /** What stage `k` finds pending in the coming minute: idle threads, or what the stage before has finished. */
  function PendingFor(p: Pipeline, k: nat): nat
    requires k < STAGES
  {
    if k == 0 then p.free else Ready(At(p, k - 1))
  }

  /** Stage `k` after `m` minutes. */
  function StageAt(cfg: Config, k: nat, m: nat): Stage
    requires k < STAGES
  {
    At(After(cfg, m), k)
  }

  function Required(cfg: Config, k: nat): nat
    requires k < STAGES
  {
    At(Idle(cfg), k).required
  }

  function Cap(cfg: Config, k: nat): nat
    requires k < STAGES
  {
    At(Idle(cfg), k).cap
  }

  // ---------------------------------------------------------------------------
  // One stage through the minutes

  /** Two stages that differ only in the finished tasks still waiting. */
  ghost predicate SameWork(a: Stage, b: Stage) {
    a == b.(done := a.done)
  }

  lemma MinuteAt(p: Pipeline, k: nat)
    requires k < STAGES
    ensures SameWork(At(Minute(p), k), Advance(At(p, k), PendingFor(p, k)))
  {
  }

  /** At most `cap` tasks ran after `n` minutes. */
  ghost predicate WithinAt(st: Stage, n: nat) {
    n <= |st.starts| ==> Sum(st.starts, Low(n, st.required), n) <= st.cap
  }

  ghost predicate Within(st: Stage) {
    forall n: nat :: WithinAt(st, n)
  }

  /** A stage with its parameters after `m` minutes: its count is right now and was within the cap always. */
  ghost predicate Standing(st: Stage, required: nat, cap: nat, m: nat) {
    && st.required == required
    && st.cap == cap
    && |st.starts| == m
    && Sound(st)
    && Within(st)
  }

  lemma StandingNext(st: Stage, pending: nat, st': Stage, required: nat, cap: nat, m: nat)
    requires Standing(st, required, cap, m) && SameWork(st', Advance(st, pending))
    ensures Standing(st', required, cap, m + 1)
    ensures Finished(st') == Finished(st) + st.Finishing()
  {
    AdvanceSound(st, pending);
    forall n: nat ensures WithinAt(st', n) {
      assert WithinAt(st, n);
      if n <= m {
        SumPrefix(st.starts, [Started(st, pending)], Low(n, required), n);
      }
    }
  }

  /** `running_num` is the sum of the starts of the last `required` minutes and never exceeds the cap. */
  lemma {:induction false} CapHolds(cfg: Config, k: nat, m: nat)
    requires k < STAGES
    ensures Standing(StageAt(cfg, k, m), Required(cfg, k), Cap(cfg, k), m)
  {
    if m == 0 {
      forall n: nat ensures WithinAt(StageAt(cfg, k, 0), n) {
      }
    } else {
      var p := After(cfg, m - 1);
      CapHolds(cfg, k, m - 1);
      MinuteAt(p, k);
      StandingNext(At(p, k), PendingFor(p, k), At(Minute(p), k), Required(cfg, k), Cap(cfg, k), m - 1);
    }
  }

  /** In minute `m` exactly the tasks started in minute `m - required` finish; with
      `required` zero nothing ever does. */
  lemma FinishesOnTime(cfg: Config, k: nat, m: nat)
    requires k < STAGES
    ensures |StageAt(cfg, k, m).starts| == m
    ensures Finished(StageAt(cfg, k, m + 1)) - Finished(StageAt(cfg, k, m))
         == if 0 < Required(cfg, k) <= m then StageAt(cfg, k, m).starts[m - Required(cfg, k)] else 0
    ensures Required(cfg, k) == 0 ==> Finished(StageAt(cfg, k, m)) == 0
  {
    var p := After(cfg, m);
    CapHolds(cfg, k, m);
    MinuteAt(p, k);
    StandingNext(At(p, k), PendingFor(p, k), At(Minute(p), k), Required(cfg, k), Cap(cfg, k), m);
  }

  /** What was started in a minute stays on record. */
  lemma {:induction false} HistoryStays(cfg: Config, k: nat, n: nat, m: nat)
    requires k < STAGES && n <= m
    ensures StageAt(cfg, k, n).starts <= StageAt(cfg, k, m).starts
  {
    if n < m {
      HistoryStays(cfg, k, n, m - 1);
      MinuteAt(After(cfg, m - 1), k);
    }
  }

  /** A stage that takes `required` minutes and runs at most `cap` tasks at a time has, at the end
      of minute `m`, finished at most cap * floor(m / required). */
  lemma Throughput(cfg: Config, k: nat, m: nat)
    requires k < STAGES && Required(cfg, k) > 0
    ensures Finished(StageAt(cfg, k, m + 1)) <= Cap(cfg, k) * (m / Required(cfg, k))
  {
    CapHolds(cfg, k, m + 1);
    FinishedBound(StageAt(cfg, k, m + 1), m);
  }

  lemma {:induction false} FinishedBound(st: Stage, m: nat)
    requires Within(st) && st.required > 0 && m < |st.starts|
    ensures Sum(st.starts, 0, Low(m + 1, st.required)) <= st.cap * (m / st.required)
    decreases m
  {
    if st.required <= m {
      var n := m - st.required;
      FinishedBound(st, n);
      assert WithinAt(st, n + 1);
      SumSplit(st.starts, 0, Low(n + 1, st.required), n + 1);
      NextQuotient(m, st.required, st.cap);
    } else {
      QuotientIs(m, st.required, 0);
    }
  }

  lemma NextQuotient(m: nat, required: nat, cap: nat)
    requires 0 < required <= m
    ensures cap * (m / required) == cap * ((m - required) / required) + cap
  {
    var q := (m - required) / required;
    assert q * required <= m - required < q * required + required;
    assert (q + 1) * required == q * required + required;
    QuotientIs(m, required, q + 1);
  }

  // ---------------------------------------------------------------------------
  // The whole pipeline

  function AllRunning(p: Pipeline): int {
    p.treeD.running + p.pc1.running + p.pc2.running + p.seed.running + p.c2.running
  }

  /** The sectors waiting between two stages. */
  function AllWaiting(p: Pipeline): nat {
    p.treeD.done + p.pc1.done + p.pc2.done + p.seed.done
  }

  /** Every thread is free, running a task of some stage, or holding a sector between two stages. */
  lemma {:induction false} Conservation(cfg: Config, m: nat)
    ensures cfg.threads == After(cfg, m).free + AllRunning(After(cfg, m)) + AllWaiting(After(cfg, m))
  {
    if m > 0 {
      Conservation(cfg, m - 1);
      MinuteConserves(After(cfg, m - 1));
    }
  }

  lemma MinuteConserves(p: Pipeline)
    ensures Minute(p).free + AllRunning(Minute(p)) + AllWaiting(Minute(p)) == p.free + AllRunning(p) + AllWaiting(p)
  {
  }

  /** All tasks ever started by a stage. */
  ghost function Begun(st: Stage): nat {
    Sum(st.starts, 0, |st.starts|)
  }

  lemma BegunNext(st: Stage, pending: nat, st': Stage)
    requires SameWork(st', Advance(st, pending))
    ensures Begun(st') == Begun(st) + Started(st, pending)
  {
    SumPrefix(st.starts, [Started(st, pending)], 0, |st.starts|);
  }

  /** What stage `k` has taken out of the stage before it, or out of the free threads. */
  ghost function Inflow(threads: nat, p: Pipeline, k: nat): int
    requires k < STAGES
  {
    if k == 0 then threads + p.c2.done - p.free else Finished(At(p, k - 1)) - At(p, k - 1).done
  }

  lemma FinishedNext(p: Pipeline, k: nat)
    requires k < STAGES && Sound(At(p, k))
    ensures Finished(At(Minute(p), k)) == Finished(At(p, k)) + At(p, k).Finishing()
  {
    MinuteAt(p, k);
    AdvanceSound(At(p, k), PendingFor(p, k));
  }

  lemma InflowNext(threads: nat, p: Pipeline, k: nat)
    requires k < STAGES && (k > 0 ==> Sound(At(p, k - 1)))
    ensures Inflow(threads, Minute(p), k) == Inflow(threads, p, k) + Started(At(p, k), PendingFor(p, k))
  {
    if k > 0 {
      FinishedNext(p, k - 1);
    }
  }

  lemma BegunInflow(threads: nat, p: Pipeline, k: nat)
    requires k < STAGES && (k > 0 ==> Sound(At(p, k - 1)))
    requires Begun(At(p, k)) == Inflow(threads, p, k)
    ensures Begun(At(Minute(p), k)) == Inflow(threads, Minute(p), k)
  {
    MinuteAt(p, k);
    BegunNext(At(p, k), PendingFor(p, k), At(Minute(p), k));
    InflowNext(threads, p, k);
  }

  /** Nothing is lost or made between stages: what a stage has begun is what the one before
      has finished and no longer holds; and each finished sector gives its thread back. */
  lemma {:induction false} Ledger(cfg: Config, k: nat, m: nat)
    requires k < STAGES
    ensures Begun(StageAt(cfg, k, m)) == Inflow(cfg.threads, After(cfg, m), k)
  {
    if m > 0 {
      Ledger(cfg, k, m - 1);
      if k > 0 {
        CapHolds(cfg, k - 1, m - 1);
      }
      BegunInflow(cfg.threads, After(cfg, m - 1), k);
    }
  }

  lemma CountedNext(p: Pipeline)
    requires Sound(p.c2) && p.c2.done == Finished(p.c2)
    ensures Minute(p).c2.done == Finished(Minute(p).c2)
  {
    FinishedNext(p, 4);
  }

  /** Every sector the last stage has finished is counted. */
  lemma {:induction false} FinishedIsCounted(cfg: Config, m: nat)
    ensures After(cfg, m).c2.done == Finished(After(cfg, m).c2)
  {
    if m > 0 {
      FinishedIsCounted(cfg, m - 1);
      CapHolds(cfg, 4, m - 1);
      CountedNext(After(cfg, m - 1));
    }
  }

  /** No stage idles while work waits for it: after every minute either nothing is left
      for the stage or it runs at its cap. */
  lemma WorkConserving(cfg: Config, k: nat, m: nat)
    requires k < STAGES
    ensures var p, q := After(cfg, m), After(cfg, m + 1);
            && (k > 0 ==> At(q, k - 1).done == 0 || At(q, k).running == Cap(cfg, k))
            && (k == 0 ==> q.free == q.c2.done - p.c2.done || q.treeD.running == Cap(cfg, k))
  {
    CapHolds(cfg, k, m);
    AdvanceSound(StageAt(cfg, k, m), PendingFor(After(cfg, m), k));
  }

  /** Waiting for the seed is never limited, so a finished pc2 moves on in the same minute. */
  lemma SeedNeverWaits(cfg: Config, m: nat)
    requires cfg.threads <= USIZE_MAX
    ensures After(cfg, m).pc2.done == 0
  {
    if m > 0 {
      WorkConserving(cfg, 3, m - 1);
      Conservation(cfg, m);
      CapHolds(cfg, 0, m);
      CapHolds(cfg, 1, m);
      CapHolds(cfg, 2, m);
      CapHolds(cfg, 4, m);
    }
  }
}
