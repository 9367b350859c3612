/**
 The sealing pipeline simulator (damocles-worker-util/src/sealcalc.rs).

 A stage keeps a map from start minute to the number of tasks started then.  The
 specification instead keeps the whole history of starts: what runs is the last
 `required` minutes of it, what has finished is everything before.
 */
module SealCalc {
  import opened Common

  const USIZE_MAX := 0xFFFF_FFFF_FFFF_FFFF

  /** xs[lo] + ... + xs[hi - 1] */
  function Sum(xs: seq<nat>, lo: nat, hi: nat): nat
    requires lo <= hi <= |xs|
  {
    if lo == hi then 0 else Sum(xs, lo, hi - 1) + xs[hi - 1]
  }

  /** The first start minute still running after `len` minutes.  A task that takes
      no time is never found finished. */
  function Low(len: nat, required: nat): (lo: nat)
    ensures lo <= len
  {
    if required == 0 || len <= required then 0 else len - required
  }

  /** A stage: its parameters, the tasks started in each minute so far, how many run,
      and the finished tasks nobody has taken over yet. */
  datatype Stage = Stage(required: nat, cap: nat, starts: seq<nat>, running: int, done: nat) {
    /** The tasks that finish in the coming minute: those started `required` ago. */
    function Finishing(): nat {
      if 0 < required <= |starts| then starts[|starts| - required] else 0
    }
  }

  function Min(a: nat, b: nat): nat {
    if a <= b then a else b
  }

  /** The tasks a stage starts in the coming minute. */
  function Started(st: Stage, pending: nat): nat {
    var busy := st.running - st.Finishing();
    Min(if busy <= st.cap then st.cap - busy else 0, pending)
  }

  /** The finished tasks the next stage can take over in the coming minute. */
  function Ready(st: Stage): nat {
    st.done + st.Finishing()
  }

  function Advance(st: Stage, pending: nat): Stage {
    st.(starts := st.starts + [Started(st, pending)],
        running := st.running - st.Finishing() + Started(st, pending),
        done := Ready(st))
  }

  /** All tasks that have finished. */
  ghost function Finished(st: Stage): nat {
    Sum(st.starts, 0, Low(|st.starts|, st.required))
  }

  /** What runs is what was started in the last `required` minutes, and is within the cap. */
  ghost predicate Sound(st: Stage) {
    && st.running == Sum(st.starts, Low(|st.starts|, st.required), |st.starts|)
    && st.running <= st.cap
  }

  // ---------------------------------------------------------------------------
  // Sums

  lemma {:induction false} SumSplit(xs: seq<nat>, lo: nat, mid: nat, hi: nat)
    requires lo <= mid <= hi <= |xs|
    ensures Sum(xs, lo, hi) == Sum(xs, lo, mid) + Sum(xs, mid, hi)
  {
    if mid < hi {
      SumSplit(xs, lo, mid, hi - 1);
    }
  }

  lemma {:induction false} SumPrefix(xs: seq<nat>, ys: seq<nat>, lo: nat, hi: nat)
    requires lo <= hi <= |xs|
    ensures Sum(xs + ys, lo, hi) == Sum(xs, lo, hi)
  {
    if lo < hi {
      SumPrefix(xs, ys, lo, hi - 1);
    }
  }

  /** One minute of a stage: what finishes leaves, what starts joins. */
  lemma AdvanceSound(st: Stage, pending: nat)
    requires Sound(st)
    ensures st.Finishing() <= st.running
    ensures Sound(Advance(st, pending))
    ensures Finished(Advance(st, pending)) == Finished(st) + st.Finishing()
  {
    var n := |st.starts|;
    var lo, next := Low(n, st.required), Low(n + 1, st.required);
    var xs, x := st.starts, Started(st, pending);
    SumPrefix(xs, [x], next, n);
    SumPrefix(xs, [x], 0, next);
    SumSplit(xs, lo, next, n);
    SumSplit(xs, 0, lo, next);
    assert next == lo || next == lo + 1;
    assert next == lo + 1 <==> 0 < st.required <= n;
    assert next == lo + 1 ==> Sum(xs, lo, next) == Sum(xs, lo, lo) + xs[lo] && lo == n - st.required;
  }

  // ---------------------------------------------------------------------------
  // sealcalc.rs

  /** What the map from start minutes to task counts says about minute `s`. */
  ghost predicate MatchesAt(running: map<nat, nat>, st: Stage, s: nat) {
    && (s in running <==> Low(|st.starts|, st.required) <= s < |st.starts| && st.starts[s] > 0)
    && (s in running ==> running[s] == st.starts[s])
  }

  ghost predicate Matches(running: map<nat, nat>, st: Stage) {
    forall s: nat :: MatchesAt(running, st, s)
  }

  /** `kept` is `before` without the tasks that have run for `required` minutes at `now`. */
  ghost predicate RetiredAt(before: map<nat, nat>, kept: map<nat, nat>, required: nat, now: nat, s: nat) {
    && (s in kept <==> s in before && !(required > 0 && s + required == now))
    && (s in kept ==> kept[s] == before[s])
  }

  ghost predicate Retired(before: map<nat, nat>, kept: map<nat, nat>, required: nat, now: nat) {
    forall s: nat :: RetiredAt(before, kept, required, now, s)
  }

  /** Retiring what finishes and filing what starts is one minute of the stage. */
  lemma MatchesNext(before: map<nat, nat>, kept: map<nat, nat>, st: Stage, pending: nat)
    requires Matches(before, st)
    requires Retired(before, kept, st.required, |st.starts|)
    ensures Matches(Filed(kept, |st.starts|, Started(st, pending)), Advance(st, pending))
  {
    forall s: nat
      ensures MatchesAt(Filed(kept, |st.starts|, Started(st, pending)), Advance(st, pending), s)
    {
      assert MatchesAt(before, st, s) && RetiredAt(before, kept, st.required, |st.starts|, s);
    }
  }

  function Filed(running: map<nat, nat>, now: nat, x: nat): map<nat, nat> {
    if x > 0 then running[now := x] else running
  }

  class TaskStatus {
    const requiredMins: nat
    const maxConcurrent: nat
    var runningNum: nat
    var done: nat
    var running: map<nat, nat>
    ghost var st: Stage

    ghost predicate Valid()
      reads this
    {
      && Matches(running, st)
      && st.required == requiredMins
      && st.cap == maxConcurrent
      && st.done == done
      && runningNum == st.running
      && Sound(st)
    }

    constructor (required: nat, cap: nat)
      ensures Valid() && st == Stage(required, cap, [], 0, 0)
    {
      requiredMins, maxConcurrent, runningNum, done, running := required, cap, 0, 0, map[];
      st := Stage(required, cap, [], 0, 0);
    }

    /** Removes the entry of the tasks that finish now: a task runs for exactly
        `requiredMins` minutes. */
    method Retire(currentMin: nat) returns (finished: nat)
      requires Matches(running, st) && st.required == requiredMins && currentMin == |st.starts|
      modifies this`running
      ensures finished == st.Finishing()
      ensures Retired(old(running), running, requiredMins, currentMin)
    {
      finished := 0;
      ghost var before := running;
      var todo := running.Keys;
      while todo != {}
        invariant todo <= before.Keys
        invariant forall s :: s in running <==>
                    s in before && (s in todo || !(requiredMins > 0 && s + requiredMins == currentMin))
        invariant forall s :: s in running ==> running[s] == before[s]
        invariant finished == if requiredMins > 0 && currentMin >= requiredMins && currentMin - requiredMins in before
                                 && currentMin - requiredMins !in todo then before[currentMin - requiredMins] else 0
        decreases todo
      {
        var s := Pick(todo);
        // start minutes lie in the past, so the subtraction cannot underflow
        assert MatchesAt(before, st, s);
        if currentMin - s == requiredMins {
          finished := finished + running[s];
          running := running - {s};
        }
        todo := todo - {s};
      }
      assert 0 < requiredMins <= currentMin ==> MatchesAt(before, st, currentMin - requiredMins);
    }

    /** The caller's pending tasks that can start do; the rest is left. */
    method Step(currentMin: nat, pending: nat) returns (finished: nat, left: nat)
      requires Valid() && currentMin == |st.starts|
      modifies this
      ensures Valid() && st == Advance(old(st), pending)
      ensures finished == old(st).Finishing()
      ensures left == pending - Started(old(st), pending)
    {
      ghost var before := running;
      AdvanceSound(st, pending);
      finished := Retire(currentMin);
      MatchesNext(before, running, st, pending);
      runningNum := runningNum - finished;
      done := done + finished;
      var canRun := Min(maxConcurrent - runningNum, pending);
      assert canRun == Started(st, pending);
      left := pending;
      if canRun > 0 {
        running := running[currentMin := canRun];
        runningNum := runningNum + canRun;
        left := left - canRun;
      }
      st := Advance(st, pending);
    }

    /** The step whose pending tasks are those `from` has finished. */
    method StepFrom(currentMin: nat, from: TaskStatus) returns (finished: nat)
      requires Valid() && from.Valid() && from != this && currentMin == |st.starts|
      modifies this, from`done, from`st
      ensures Valid() && st == Advance(old(st), old(from.st.done))
      ensures finished == old(st).Finishing()
      ensures from.Valid() && from.st == old(from.st).(done := old(from.st.done) - Started(old(st), old(from.st.done)))
    {
      var left;
      finished, left := Step(currentMin, from.done);
      forall s: nat ensures MatchesAt(from.running, from.st.(done := left), s) {
        assert MatchesAt(from.running, from.st, s);
      }
      from.done := left;
      from.st := from.st.(done := left);
    }
  }

  // ---------------------------------------------------------------------------
  // The pipeline

  datatype Limits = Limits(mins: nat, concurrent: nat)

  datatype Config = Config(treeD: Limits, pc1: Limits, pc2: Limits, c2: Limits, seedMins: nat, threads: nat)

  datatype Pipeline = Pipeline(free: nat, treeD: Stage, pc1: Stage, pc2: Stage, seed: Stage, c2: Stage)

  function Idle(cfg: Config): Pipeline {
    Pipeline(cfg.threads,
             Stage(cfg.treeD.mins, cfg.treeD.concurrent, [], 0, 0),
             Stage(cfg.pc1.mins, cfg.pc1.concurrent, [], 0, 0),
             Stage(cfg.pc2.mins, cfg.pc2.concurrent, [], 0, 0),
             Stage(cfg.seedMins, USIZE_MAX, [], 0, 0),
             Stage(cfg.c2.mins, cfg.c2.concurrent, [], 0, 0))
  }

  /** `st` advanced by a minute, with the finished tasks the next stage starts taken away. */
  function Handed(st: Stage, pending: nat, next: Stage): Stage {
    Advance(st, pending).(done := Ready(st) - Started(next, Ready(st)))
  }

  function Minute(p: Pipeline): Pipeline {
    Pipeline(p.free - Started(p.treeD, p.free) + p.c2.Finishing(),
             Handed(p.treeD, p.free, p.pc1),
             Handed(p.pc1, Ready(p.treeD), p.pc2),
             Handed(p.pc2, Ready(p.pc1), p.seed),
             Handed(p.seed, Ready(p.pc2), p.c2),
             Advance(p.c2, Ready(p.seed)))
  }

  /** The pipeline after `m` minutes. */
  function After(cfg: Config, m: nat): Pipeline {
    if m == 0 then Idle(cfg) else Minute(After(cfg, m - 1))
  }

  ghost predicate Length(p: Pipeline, m: nat) {
    |p.treeD.starts| == |p.pc1.starts| == |p.pc2.starts| == |p.seed.starts| == |p.c2.starts| == m
  }

  lemma MinuteLength(p: Pipeline, m: nat)
    requires Length(p, m)
    ensures Length(Minute(p), m + 1)
  {
  }

  lemma {:induction false} AfterLength(cfg: Config, m: nat)
    ensures Length(After(cfg, m), m)
  {
    if m > 0 {
      AfterLength(cfg, m - 1);
      MinuteLength(After(cfg, m - 1), m - 1);
    }
  }

  /** The stages are in good order and hold exactly what `p` holds. */
  ghost predicate Holds(p: Pipeline, free: nat, treeD: TaskStatus, pc1: TaskStatus, pc2: TaskStatus,
                        seed: TaskStatus, c2: TaskStatus)
    reads treeD, pc1, pc2, seed, c2
  {
    && (forall t :: t in {treeD, pc1, pc2, seed, c2} ==> t.Valid())
    && p == Pipeline(free, treeD.st, pc1.st, pc2.st, seed.st, c2.st)
  }

  /** One turn of the loop of `Calc`: the stages in order, each taking from the one before. */
  method StepAll(m: nat, free: nat, treeD: TaskStatus, pc1: TaskStatus, pc2: TaskStatus,
                 seed: TaskStatus, c2: TaskStatus, ghost p: Pipeline)
    returns (free': nat)
    requires treeD != pc1 && treeD != pc2 && treeD != seed && treeD != c2
    requires pc1 != pc2 && pc1 != seed && pc1 != c2 && pc2 != seed && pc2 != c2 && seed != c2
    requires Holds(p, free, treeD, pc1, pc2, seed, c2) && Length(p, m)
    modifies treeD, pc1, pc2, seed, c2
    ensures Holds(Minute(p), free', treeD, pc1, pc2, seed, c2)
  {
    var finished;
    finished, free' := treeD.Step(m, free);
    finished := pc1.StepFrom(m, treeD);
    finished := pc2.StepFrom(m, pc1);
    finished := seed.StepFrom(m, pc2);
    finished := c2.StepFrom(m, seed);
    free' := free' + finished;
  }
}
