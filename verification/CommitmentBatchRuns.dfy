/**
 Runs of the commitment pipeline with its batchers: from a fresh store, with crashes.
 */
module CommitmentBatchRuns {
  import opened Common
  import opened Commitments
  import opened CommitmentRuns
  import opened CommitmentWorkers
  import opened CommitmentBatches

  /** The machine after the first `n` moves, from a fresh store and no batchers. */
  function After(minerOf: MinerOf, s: State, moves: seq<Move>, n: nat): Machine
    requires n <= |moves|
  {
    if n == 0 then Machine(s, map[]) else Moved(minerOf, After(minerOf, s, moves, n - 1), moves[n - 1])
  }

  ghost predicate PossibleAt(minerOf: MinerOf, s: State, moves: seq<Move>, i: nat)
    requires i < |moves|
  {
    Possible(After(minerOf, s, moves, i), moves[i])
  }

  ghost predicate Legal(minerOf: MinerOf, s: State, moves: seq<Move>) {
    Fresh(s) && forall i :: 0 <= i < |moves| ==> PossibleAt(minerOf, s, moves, i)
  }

  /** In every run the batchers hold exactly the copies that wait to be processed. */
  lemma {:induction false} RunJoined(minerOf: MinerOf, s: State, moves: seq<Move>, n: nat)
    requires Legal(minerOf, s, moves) && n <= |moves|
    ensures Joined(minerOf, After(minerOf, s, moves, n))
  {
    if n == 0 {
      forall k, t
        ensures SeenAt(Machine(s, map[]), k, t) && JoinedAt(minerOf, Machine(s, map[]), k, t)
      {
      }
    } else {
      RunJoined(minerOf, s, moves, n - 1);
      assert PossibleAt(minerOf, s, moves, n - 1);
      MoveJoined(minerOf, After(minerOf, s, moves, n - 1), moves[n - 1]);
    }
  }

  lemma {:induction false} RunOfPrefix(s: State, events: seq<Event>, more: seq<Event>, n: nat)
    requires n <= |events|
    ensures Run(s, events + more, n) == Run(s, events, n)
  {
    if n > 0 {
      RunOfPrefix(s, events, more, n - 1);
    }
  }

  lemma ValidSnoc(s: State, events: seq<Event>, e: Event)
    requires Valid(s, events) && Enabled(Run(s, events, |events|), e)
    ensures Valid(s, events + [e])
    ensures Run(s, events + [e], |events| + 1) == Step(Run(s, events, |events|), e)
  {
    forall i | 0 <= i <= |events|
      ensures EnabledAt(s, events + [e], i)
    {
      RunOfPrefix(s, events, [e], i);
      assert i < |events| ==> EnabledAt(s, events, i);
    }
    RunOfPrefix(s, events, [e], |events|);
  }

  /** The pipeline allows `e` and it leads from `a` to `b`; without a step they are the same. */
  ghost predicate OneStep(a: State, e: Option<Event>, b: State) {
    if e.None? then b == a else Enabled(a, e.value) && b == Step(a, e.value)
  }

  /** Every copy in a dispatched list that is not processed yet is there and pending. */
  lemma ListIsPending(minerOf: MinerOf, m: Machine, k: Key, j: nat, t: nat)
    requires Joined(minerOf, m) && k in m.workers && j < |m.workers[k].b.dispatched| && j !in m.workers[k].ran
    requires HasTicket(m.workers[k].b.dispatched[j], t)
    ensures PendingAt(minerOf, m.s, t, k)
  {
    assert Waits(m.workers[k], j, t);
    assert HoldsAt(m, k, t) && JoinedAt(minerOf, m, k, t);
  }

  /** So a dispatched list is a batch the pipeline allows, ... */
  lemma BatchAllowed(minerOf: MinerOf, m: Machine, k: Key, j: nat, built: set<nat>, cid: Option<Cid>)
    requires Joined(minerOf, m) && k in m.workers && j < |m.workers[k].b.dispatched| && j !in m.workers[k].ran
    ensures Enabled(m.s, Process(BatchOf(m.workers[k].b.dispatched[j], built), cid))
  {
    var list := m.workers[k].b.dispatched[j];
    forall t | t in BatchOf(list, built)
      ensures t in m.s.flight && m.s.flight[t].phase.Pending?
    {
      assert HasTicket(list, t);
      ListIsPending(minerOf, m, k, j, t);
    }
  }

  /** ... and so is every other move. */
  lemma MoveAllowed(minerOf: MinerOf, m: Machine, v: Move)
    requires Joined(minerOf, m) && Possible(m, v)
    ensures StepOf(m, v).Some? ==> Enabled(m.s, StepOf(m, v).value)
  {
    if v.Works? {
      BatchAllowed(minerOf, m, v.k, v.j, v.built, v.cid);
    }
  }

  lemma MoveOneStep(minerOf: MinerOf, m: Machine, v: Move)
    requires Joined(minerOf, m) && Possible(m, v)
    ensures OneStep(m.s, StepOf(m, v), Moved(minerOf, m, v).s)
  {
    MoveAllowed(minerOf, m, v);
    assert Moved(minerOf, m, v).s == StateAfter(m, v);
  }

  lemma MovesOneStep(minerOf: MinerOf, s: State, moves: seq<Move>, i: nat)
    requires Legal(minerOf, s, moves) && i < |moves|
    ensures var m := After(minerOf, s, moves, i);
            OneStep(m.s, StepOf(m, moves[i]), After(minerOf, s, moves, i + 1).s)
  {
    RunJoined(minerOf, s, moves, i);
    assert PossibleAt(minerOf, s, moves, i);
    MoveOneStep(minerOf, After(minerOf, s, moves, i), moves[i]);
  }

  /** The pipeline gets from `s` to `now` by these events. */
  ghost predicate Leads(s: State, events: seq<Event>, now: State) {
    Valid(s, events) && Run(s, events, |events|) == now
  }

  ghost predicate Reachable(s: State, now: State) {
    exists events :: Leads(s, events, now)
  }

  lemma ReachableNext(s: State, a: State, e: Option<Event>, b: State)
    requires Reachable(s, a) && OneStep(a, e, b)
    ensures Reachable(s, b)
  {
    var events :| Leads(s, events, a);
    if e.Some? {
      ValidSnoc(s, events, e.value);
      assert Leads(s, events + [e.value], b);
    }
  }

  /** Every run with batchers is a run of the pipeline: whatever its batchers dispatch is a batch
      the pipeline allows.  So all that holds over the runs of the pipeline holds here. */
  lemma {:induction false} MachineIsPipeline(minerOf: MinerOf, s: State, moves: seq<Move>, n: nat)
    requires Legal(minerOf, s, moves) && n <= |moves|
    ensures Reachable(s, After(minerOf, s, moves, n).s)
  {
    if n == 0 {
      assert Leads(s, [], s);
    } else {
      MachineIsPipeline(minerOf, s, moves, n - 1);
      MovesOneStep(minerOf, s, moves, n - 1);
      var m := After(minerOf, s, moves, n - 1);
      ReachableNext(s, m.s, StepOf(m, moves[n - 1]), After(minerOf, s, moves, n).s);
    }
  }

  /** A copy that was processed is processed or gone. */
  ghost predicate Past(s: State, t: nat) {
    t < s.next && (t in s.flight ==> s.flight[t].phase.Processed?)
  }

  lemma StepPast(s: State, e: Event, t: nat)
    requires Filed(s) && Enabled(s, e) && Past(s, t)
    ensures Past(Step(s, e), t)
  {
    assert t in s.flight ==> CopyFiled(s, t);
    if e.Scan? {
      QueueAdds(s, e.order, t);
    }
  }

  lemma {:induction false} RunPast(minerOf: MinerOf, s: State, moves: seq<Move>, m: nat, n: nat, t: nat)
    requires Legal(minerOf, s, moves) && m <= n <= |moves| && Past(After(minerOf, s, moves, m).s, t)
    ensures Past(After(minerOf, s, moves, n).s, t)
  {
    if m < n {
      RunPast(minerOf, s, moves, m, n - 1, t);
      RunJoined(minerOf, s, moves, n - 1);
      MovesOneStep(minerOf, s, moves, n - 1);
      var now := After(minerOf, s, moves, n - 1);
      if StepOf(now, moves[n - 1]).Some? {
        StepPast(now.s, StepOf(now, moves[n - 1]).value, t);
      }
    }
  }

  /** Move `i` hands ticket `t` to a processor. */
  ghost predicate Processes(minerOf: MinerOf, s: State, moves: seq<Move>, i: nat, t: nat)
    requires i < |moves|
  {
    var m := After(minerOf, s, moves, i);
    && moves[i].Works? && moves[i].k in m.workers && moves[i].j < |m.workers[moves[i].k].b.dispatched|
    && HasTicket(m.workers[moves[i].k].b.dispatched[moves[i].j], t)
  }

  /** Every copy is in at most one batch that is processed, over the whole run and all batchers. */
  lemma ProcessedOnce(minerOf: MinerOf, s: State, moves: seq<Move>, i: nat, j: nat, t: nat)
    requires Legal(minerOf, s, moves) && i < j < |moves| && Processes(minerOf, s, moves, i, t)
    ensures !Processes(minerOf, s, moves, j, t)
  {
    ProcessesPending(minerOf, s, moves, i, t);
    RunPast(minerOf, s, moves, i + 1, j, t);
    if Processes(minerOf, s, moves, j, t) {
      ProcessesPending(minerOf, s, moves, j, t);
    }
  }

  lemma ProcessPast(s: State, batch: map<nat, bool>, cid: Option<Cid>, t: nat)
    requires t in batch && t in s.flight && t < s.next
    ensures Past(Step(s, Process(batch, cid)), t)
  {
  }

  lemma WorksPast(minerOf: MinerOf, m: Machine, k: Key, j: nat, built: set<nat>, cid: Option<Cid>, t: nat)
    requires Joined(minerOf, m) && k in m.workers && j < |m.workers[k].b.dispatched| && j !in m.workers[k].ran
    requires HasTicket(m.workers[k].b.dispatched[j], t)
    ensures !Past(m.s, t)
    ensures Past(Step(m.s, Process(BatchOf(m.workers[k].b.dispatched[j], built), cid)), t)
  {
    ListIsPending(minerOf, m, k, j, t);
    assert CopyFiled(m.s, t);
    ProcessPast(m.s, BatchOf(m.workers[k].b.dispatched[j], built), cid, t);
  }

  lemma ProcessesPending(minerOf: MinerOf, s: State, moves: seq<Move>, i: nat, t: nat)
    requires Legal(minerOf, s, moves) && i < |moves| && Processes(minerOf, s, moves, i, t)
    ensures !Past(After(minerOf, s, moves, i).s, t)
    ensures Past(After(minerOf, s, moves, i + 1).s, t)
  {
    RunJoined(minerOf, s, moves, i);
    assert PossibleAt(minerOf, s, moves, i);
    var v := moves[i];
    WorksPast(minerOf, After(minerOf, s, moves, i), v.k, v.j, v.built, v.cid, t);
  }

  /** No copy is forgotten: every copy that was received and not processed yet is at the batcher of
      its stage and miner, pending or in one list that will be processed, and in one place only. */
  lemma NothingForgotten(minerOf: MinerOf, s: State, moves: seq<Move>, n: nat, t: nat)
    requires Legal(minerOf, s, moves) && n <= |moves|
    requires var now := After(minerOf, s, moves, n).s; t in now.flight && now.flight[t].phase.Pending?
    ensures var m := After(minerOf, s, moves, n);
            var k := KeyOf(minerOf, m.s.flight[t]);
            && HoldsAt(m, k, t)
            && (forall q :: HoldsAt(m, q, t) ==> q == k)
            && (forall j :: 0 <= j < |m.workers[k].b.dispatched| && HasTicket(m.workers[k].b.dispatched[j], t) ==>
                  && !HasTicket(m.workers[k].b.pending, t)
                  && forall i :: 0 <= i < |m.workers[k].b.dispatched| && i != j ==>
                       !HasTicket(m.workers[k].b.dispatched[i], t))
  {
    RunJoined(minerOf, s, moves, n);
    var m := After(minerOf, s, moves, n);
    var k := KeyOf(minerOf, m.s.flight[t]);
    assert JoinedAt(minerOf, m, k, t);
    forall q ensures HoldsAt(m, q, t) ==> q == k {
      assert JoinedAt(minerOf, m, q, t);
    }
    var w := m.workers[k];
    forall j | 0 <= j < |w.b.dispatched| && HasTicket(w.b.dispatched[j], t)
      ensures !HasTicket(w.b.pending, t)
      ensures forall i :: 0 <= i < |w.b.dispatched| && i != j ==> !HasTicket(w.b.dispatched[i], t)
    {
      OnlyInOne(w, j, t);
    }
  }
}
