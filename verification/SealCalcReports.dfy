/**
 The reports of the sealing simulator (damocles-worker-util/src/sealcalc.rs, calc).
 */
module SealCalcReports {
  import opened Common
  import opened SealCalc
  import opened SealCalcRuns

  datatype Item = Item(timeInMins: nat, threadsRunning: int, treeDRunning: int, pc1Running: int, pc2Running: int,
                       seedWaiting: int, c2Running: int, finishedSectors: nat)

  // ---------------------------------------------------------------------------
  // What a report says, by the starts of the stages alone

  /** The tasks of stage `k` that run at the end of minute `m`: those started in the last
      `required` minutes, or ever if they take no time. */
  ghost function RunningAt(cfg: Config, k: nat, m: nat): nat
    requires k < STAGES
  {
    var starts := StageAt(cfg, k, m + 1).starts;
    Sum(starts, Low(|starts|, Required(cfg, k)), |starts|)
  }

  /** The sectors that have finished stage `k` and not begun the next. */
  ghost function WaitingAt(cfg: Config, k: nat, m: nat): int
    requires k < STAGES - 1
  {
    Finished(StageAt(cfg, k, m + 1)) - Begun(StageAt(cfg, k + 1, m + 1))
  }

  /** The report of minute `m`. */
  ghost predicate Accurate(cfg: Config, m: nat, r: Item) {
    && r.timeInMins == m
    && r.treeDRunning == RunningAt(cfg, 0, m)
    && r.pc1Running == RunningAt(cfg, 1, m)
    && r.pc2Running == RunningAt(cfg, 2, m)
    && r.seedWaiting == RunningAt(cfg, 3, m)
    && r.c2Running == RunningAt(cfg, 4, m)
    && r.finishedSectors == Finished(StageAt(cfg, 4, m + 1))
    && r.threadsRunning == RunningAt(cfg, 0, m) + RunningAt(cfg, 1, m) + RunningAt(cfg, 2, m) + RunningAt(cfg, 3, m)
                           + RunningAt(cfg, 4, m)
                           + WaitingAt(cfg, 0, m) + WaitingAt(cfg, 1, m) + WaitingAt(cfg, 2, m) + WaitingAt(cfg, 3, m)
  }

  lemma RunningIs(cfg: Config, k: nat, m: nat)
    requires k < STAGES
    ensures StageAt(cfg, k, m + 1).running == RunningAt(cfg, k, m)
  {
    CapHolds(cfg, k, m + 1);
  }

  lemma WaitingIs(cfg: Config, k: nat, m: nat)
    requires k < STAGES - 1
    ensures StageAt(cfg, k, m + 1).done == WaitingAt(cfg, k, m)
  {
    Ledger(cfg, k + 1, m + 1);
  }

  /** What is reported of minute `m`. */
  function Summary(threads: nat, m: nat, p: Pipeline): Item {
    Item(m, threads - p.free, p.treeD.running, p.pc1.running, p.pc2.running, p.seed.running,
         p.c2.running, p.c2.done)
  }

  /** The reports of the minutes before `m`: one every `step` minutes. */
  function Reports(cfg: Config, step: nat, m: nat): seq<Item>
    requires m > 0 ==> step > 0
  {
    if m == 0 then []
    else Reports(cfg, step, m - 1) + (if (m - 1) % step == 0 then [Summary(cfg.threads, m - 1, After(cfg, m))] else [])
  }

  lemma SummaryAccurate(cfg: Config, m: nat)
    ensures Accurate(cfg, m, Summary(cfg.threads, m, After(cfg, m + 1)))
  {
    Conservation(cfg, m + 1);
    FinishedIsCounted(cfg, m + 1);
    RunningIs(cfg, 0, m);
    RunningIs(cfg, 1, m);
    RunningIs(cfg, 2, m);
    RunningIs(cfg, 3, m);
    RunningIs(cfg, 4, m);
    WaitingIs(cfg, 0, m);
    WaitingIs(cfg, 1, m);
    WaitingIs(cfg, 2, m);
    WaitingIs(cfg, 3, m);
  }

  /** A report stays within every limit, and claims no more finished sectors than the last stage
      can have finished. */
  ghost predicate Reliable(cfg: Config, m: nat, r: Item) {
    && 0 <= r.threadsRunning <= cfg.threads
    && r.treeDRunning + r.pc1Running + r.pc2Running + r.seedWaiting + r.c2Running <= r.threadsRunning
    && 0 <= r.treeDRunning <= cfg.treeD.concurrent
    && 0 <= r.pc1Running <= cfg.pc1.concurrent
    && 0 <= r.pc2Running <= cfg.pc2.concurrent
    && 0 <= r.seedWaiting
    && 0 <= r.c2Running <= cfg.c2.concurrent
    && (cfg.c2.mins > 0 ==> r.finishedSectors <= cfg.c2.concurrent * (m / cfg.c2.mins))
  }

  lemma SummaryReliable(cfg: Config, m: nat)
    ensures Reliable(cfg, m, Summary(cfg.threads, m, After(cfg, m + 1)))
  {
    Conservation(cfg, m + 1);
    FinishedIsCounted(cfg, m + 1);
    CapHolds(cfg, 0, m + 1);
    CapHolds(cfg, 1, m + 1);
    CapHolds(cfg, 2, m + 1);
    CapHolds(cfg, 3, m + 1);
    CapHolds(cfg, 4, m + 1);
    if cfg.c2.mins > 0 {
      Throughput(cfg, 4, m);
    }
  }

  /** There is a report for minute 0 and every `step` minutes after, up to the end. */
  lemma {:induction false} ReportsAre(cfg: Config, step: nat, mins: nat, i: nat)
    requires step > 0
    ensures |Reports(cfg, step, mins)| == Reported(step, mins)
    ensures i < Reported(step, mins) ==>
              Reports(cfg, step, mins)[i] == Summary(cfg.threads, i * step, After(cfg, i * step + 1))
  {
    if mins > 0 {
      ReportsAre(cfg, step, mins - 1, i);
      ReportedNext(step, mins - 1);
    } else {
      QuotientIs(step - 1, step, 0);
    }
  }

  function Reported(step: nat, mins: nat): nat
    requires step > 0
  {
    (mins + step - 1) / step
  }

  lemma ReportedNext(step: nat, mins: nat)
    requires step > 0
    ensures mins % step == 0 ==> Reported(step, mins + 1) == Reported(step, mins) + 1 && mins == Reported(step, mins) * step
    ensures mins % step != 0 ==> Reported(step, mins + 1) == Reported(step, mins)
  {
    var q := mins / step;
    assert mins == q * step + mins % step;
    assert (q + 1) * step == q * step + step;
    QuotientIs(mins + step, step, q + 1);
    QuotientIs(mins + step - 1, step, if mins % step == 0 then q else q + 1);
  }

  // ---------------------------------------------------------------------------
  // sealcalc.rs

  method Report(m: nat, threads: nat, free: nat, treeD: TaskStatus, pc1: TaskStatus, pc2: TaskStatus,
                seed: TaskStatus, c2: TaskStatus, ghost p: Pipeline)
    returns (item: Item)
    requires Holds(p, free, treeD, pc1, pc2, seed, c2)
    ensures item == Summary(threads, m, p)
  {
    assert treeD.Valid() && pc1.Valid() && pc2.Valid() && seed.Valid() && c2.Valid();
    item := Item(m, threads - free, treeD.runningNum, pc1.runningNum, pc2.runningNum, seed.runningNum,
                 c2.runningNum, c2.done);
  }

  /** The loop of `Calc`. */
  method Simulate(cfg: Config, mins: nat, outputStep: nat, treeD: TaskStatus, pc1: TaskStatus, pc2: TaskStatus,
                  seed: TaskStatus, c2: TaskStatus)
    returns (items: seq<Item>)
    requires mins > 0 ==> outputStep > 0
    requires treeD != pc1 && treeD != pc2 && treeD != seed && treeD != c2
    requires pc1 != pc2 && pc1 != seed && pc1 != c2 && pc2 != seed && pc2 != c2 && seed != c2
    requires Holds(Idle(cfg), cfg.threads, treeD, pc1, pc2, seed, c2)
    modifies treeD, pc1, pc2, seed, c2
    ensures items == Reports(cfg, outputStep, mins)
  {
    var free := cfg.threads;
    items := [];
    for m := 0 to mins
      invariant Holds(After(cfg, m), free, treeD, pc1, pc2, seed, c2)
      invariant items == Reports(cfg, outputStep, m)
    {
      AfterLength(cfg, m);
      free := StepAll(m, free, treeD, pc1, pc2, seed, c2, After(cfg, m));
      if m % outputStep == 0 {
        var item := Report(m, cfg.threads, free, treeD, pc1, pc2, seed, c2, After(cfg, m + 1));
        items := items + [item];
      }
    }
  }

  /** There is an accurate and reliable report of minute 0 and of every `outputStep` minutes after. */
  method Calc(cfg: Config, mins: nat, outputStep: nat) returns (items: seq<Item>)
    requires mins > 0 ==> outputStep > 0
    ensures mins == 0 ==> items == []
    ensures mins > 0 ==> |items| == Reported(outputStep, mins)
    ensures forall i :: 0 <= i < |items| ==> Accurate(cfg, i * outputStep, items[i])
    ensures forall i :: 0 <= i < |items| ==> Reliable(cfg, i * outputStep, items[i])
  {
    var treeD := new TaskStatus(cfg.treeD.mins, cfg.treeD.concurrent);
    var pc1 := new TaskStatus(cfg.pc1.mins, cfg.pc1.concurrent);
    var pc2 := new TaskStatus(cfg.pc2.mins, cfg.pc2.concurrent);
    var seed := new TaskStatus(cfg.seedMins, USIZE_MAX);
    var c2 := new TaskStatus(cfg.c2.mins, cfg.c2.concurrent);
    items := Simulate(cfg, mins, outputStep, treeD, pc1, pc2, seed, c2);
    forall i | 0 <= i < |items|
      ensures Accurate(cfg, i * outputStep, items[i]) && Reliable(cfg, i * outputStep, items[i])
    {
      ReportsAre(cfg, outputStep, mins, i);
      SummaryAccurate(cfg, i * outputStep);
      SummaryReliable(cfg, i * outputStep);
    }
    if mins > 0 {
      ReportsAre(cfg, outputStep, mins, 0);
    }
  }
}
