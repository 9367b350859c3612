/**
 The commitment pipeline with its batchers (damocles-manager/modules/impl/commitmgr/commitmgr.go
 and batcher.go): the batches the processors get are the lists the batchers dispatch.

 There is one batcher per stage and miner.  A copy that is received arrives at its batcher; a
 dispatched list is handed to the processor later, by a goroutine of its own.  A crash loses
 the batchers along with the copies.
 */
module CommitmentBatches {
  import opened Common
  import opened Commitments
  import opened CommitmentRuns
  import opened CommitmentWorkers
  import B = Batching

  datatype Key = Key(stage: Stage, miner: nat)

  datatype Machine = Machine(s: State, workers: map<Key, Worker>)

  /** A step of the pipeline that does not concern the batchers; a copy arriving at its batcher; a
      manual signal or a tick of a batcher; the processing of a dispatched list. */
  datatype Move =
    | Other(e: Event)
    | Arrives(ticket: nat, threshold: int)
    | Turn(k: Key, turn: B.Event)
    | Works(k: Key, j: nat, built: set<nat>, cid: Option<Cid>)

  type MinerOf = Id -> nat

  function KeyOf(minerOf: MinerOf, c: Copy): Key {
    Key(c.stage, minerOf(c.sector.id))
  }

  function TicketsOf(xs: seq<B.Sector>): set<nat> {
    set i | 0 <= i < |xs| :: xs[i].id
  }

  /** The batch a dispatched list becomes. */
  function BatchOf(xs: seq<B.Sector>, built: set<nat>): map<nat, bool> {
    map t | t in TicketsOf(xs) :: t in built
  }

  function WorkerAt(m: Machine, k: Key): Worker {
    if k in m.workers then m.workers[k] else Worker(B.Initial, {})
  }

  /** The pipeline's own step, if any. */
  function StepOf(m: Machine, v: Move): Option<Event> {
    match v
    case Other(e) => Some(e)
    case Arrives(t, _) => Some(Receive(t, true))
    case Turn(_, _) => None
    case Works(k, j, built, cid) =>
      var lists := WorkerAt(m, k).b.dispatched;
      if j < |lists| then Some(Process(BatchOf(lists[j], built), cid)) else None
  }

  function StateAfter(m: Machine, v: Move): State {
    if StepOf(m, v).Some? then Step(m.s, StepOf(m, v).value) else m.s
  }

  function WorkersAfter(minerOf: MinerOf, m: Machine, v: Move): map<Key, Worker> {
    match v
    case Other(e) => if e.Crash? then map[] else m.workers
    case Arrives(t, threshold) =>
      if t !in m.s.flight then m.workers
      else
        var k := KeyOf(minerOf, m.s.flight[t]);
        var w := WorkerAt(m, k);
        m.workers[k := w.(b := B.Step(w.b, B.Arrive(t, threshold)))]
    case Turn(k, turn) =>
      var w := WorkerAt(m, k);
      m.workers[k := w.(b := B.Step(w.b, turn))]
    case Works(k, j, _, _) =>
      var w := WorkerAt(m, k);
      m.workers[k := w.(ran := w.ran + {j})]
  }

  function Moved(minerOf: MinerOf, m: Machine, v: Move): Machine {
    Machine(StateAfter(m, v), WorkersAfter(minerOf, m, v))
  }

  /** The move can happen.  Nothing is asked of the copies in a dispatched list. */
  ghost predicate Possible(m: Machine, v: Move) {
    match v
    case Other(e) => Enabled(m.s, e) && !e.Process? && !(e.Receive? && e.sender)
    case Arrives(t, _) => t in m.s.flight && m.s.flight[t].phase.Queued?
    case Turn(_, turn) => !turn.Arrive?
    case Works(k, j, _, _) => k in m.workers && j < |m.workers[k].b.dispatched| && j !in m.workers[k].ran
  }

  // ---------------------------------------------------------------------------
  // The machine

  /** A copy that waits to be processed, at the batcher of its stage and miner. */
  ghost predicate PendingAt(minerOf: MinerOf, s: State, t: nat, k: Key) {
    t in s.flight && s.flight[t].phase.Pending? && KeyOf(minerOf, s.flight[t]) == k
  }

  /** The ticket is used, and its copy, if still there, has arrived. */
  ghost predicate Arrived(s: State, t: nat) {
    t < s.next && (t in s.flight ==> !s.flight[t].phase.Queued?)
  }

  ghost predicate HoldsAt(m: Machine, k: Key, t: nat) {
    k in m.workers && Holds(m.workers[k], t)
  }

  ghost predicate JoinedAt(minerOf: MinerOf, m: Machine, k: Key, t: nat) {
    HoldsAt(m, k, t) <==> PendingAt(minerOf, m.s, t, k)
  }

  ghost predicate SeenAt(m: Machine, k: Key, t: nat) {
    k in m.workers && Seen(m.workers[k], t) ==> Arrived(m.s, t)
  }

  /** The batchers hold exactly the pending copies, each at its own batcher. */
  ghost predicate Joined(minerOf: MinerOf, m: Machine) {
    && Filed(m.s)
    && (forall k :: k in m.workers ==> Sound(m.workers[k]))
    && (forall k, t :: SeenAt(m, k, t))
    && (forall k, t :: JoinedAt(minerOf, m, k, t))
  }

  // ---------------------------------------------------------------------------
  // Each move keeps the batchers and the pipeline joined

  /** From `s` to `q`, ticket `t` keeps its copy, or is new and queued. */
  ghost predicate Extends(s: State, q: State, t: nat) {
    && q.next >= s.next
    && (t < s.next ==> (t in q.flight <==> t in s.flight))
    && (t in s.flight ==> t in q.flight && q.flight[t] == s.flight[t])
    && (t in q.flight && t !in s.flight ==> q.flight[t].phase.Queued?)
  }

  lemma LaunchExtends(s: State, q: State, stage: Stage, sector: Sector, t: nat)
    requires Extends(s, q, t) && (t in s.flight ==> t < s.next)
    ensures Extends(s, Launch(q, stage, sector), t)
  {
  }

  lemma {:induction false} QueueAdds(s: State, order: seq<Id>, t: nat)
    requires t in s.flight ==> t < s.next
    ensures Extends(s, Queue(s, order), t)
  {
    if order != [] {
      var n := |order| - 1;
      var q := Queue(s, order[..n]);
      QueueAdds(s, order[..n], t);
      if order[n] in q.store && NeedsScan(q.store[order[n]]) {
        LaunchExtends(s, q, StageOf(q.store[order[n]]), q.store[order[n]], t);
      }
    }
  }

  /** Steps that do not concern the batchers leave the pending copies alone. */
  lemma OtherKeeps(minerOf: MinerOf, s: State, e: Event, t: nat, k: Key)
    requires Filed(s) && Enabled(s, e) && !e.Process? && !(e.Receive? && e.sender) && !e.Crash?
    ensures PendingAt(minerOf, Step(s, e), t, k) <==> PendingAt(minerOf, s, t, k)
    ensures Arrived(s, t) ==> Arrived(Step(s, e), t)
  {
    assert t in s.flight ==> CopyFiled(s, t);
    if e.Scan? {
      QueueAdds(s, e.order, t);
    }
  }

  lemma OtherJoined(minerOf: MinerOf, m: Machine, v: Move)
    requires Joined(minerOf, m) && Possible(m, v) && v.Other?
    ensures Joined(minerOf, Moved(minerOf, m, v))
  {
    var n := Moved(minerOf, m, v);
    StepFiled(m.s, v.e);
    forall k, t
      ensures SeenAt(n, k, t) && JoinedAt(minerOf, n, k, t)
    {
      assert SeenAt(m, k, t) && JoinedAt(minerOf, m, k, t);
      if !v.e.Crash? {
        OtherKeeps(minerOf, m.s, v.e, t, k);
      }
    }
  }

  /** A batcher that has not been used holds nothing. */
  lemma WorkerIs(m: Machine, k: Key, t: nat)
    ensures Holds(WorkerAt(m, k), t) <==> HoldsAt(m, k, t)
    ensures k !in m.workers ==> !Seen(WorkerAt(m, k), t) && Sound(WorkerAt(m, k))
  {
    if k !in m.workers {
      assert B.Everything(B.Initial) == multiset{};
    }
  }

  /** What a move does about ticket `t` when it changes only the batcher at `k`. */
  ghost predicate MovesAt(minerOf: MinerOf, s: State, s': State, k: Key, w: Worker, t: nat) {
    && (Seen(w, t) ==> Arrived(s', t))
    && (Arrived(s, t) ==> Arrived(s', t))
    && (Holds(w, t) <==> PendingAt(minerOf, s', t, k))
    && (forall q :: q != k ==> (PendingAt(minerOf, s', t, q) <==> PendingAt(minerOf, s, t, q)))
  }

  lemma OneWorkerChanges(minerOf: MinerOf, m: Machine, s': State, k: Key, w: Worker)
    requires Joined(minerOf, m) && Filed(s') && Sound(w)
    requires forall t :: MovesAt(minerOf, m.s, s', k, w, t)
    ensures Joined(minerOf, Machine(s', m.workers[k := w]))
  {
    var n := Machine(s', m.workers[k := w]);
    forall q, t
      ensures SeenAt(n, q, t) && JoinedAt(minerOf, n, q, t)
    {
      assert SeenAt(m, q, t) && JoinedAt(minerOf, m, q, t) && MovesAt(minerOf, m.s, s', k, w, t);
    }
  }

  lemma TurnAt(minerOf: MinerOf, m: Machine, k: Key, turn: B.Event, t: nat)
    requires Joined(minerOf, m) && !turn.Arrive?
    ensures var w := WorkerAt(m, k); MovesAt(minerOf, m.s, m.s, k, w.(b := B.Step(w.b, turn)), t)
  {
    assert SeenAt(m, k, t) && JoinedAt(minerOf, m, k, t);
    WorkerIs(m, k, t);
    TurnHolds(WorkerAt(m, k), turn, t);
    TurnSeen(WorkerAt(m, k), turn, t);
  }

  lemma TurnJoined(minerOf: MinerOf, m: Machine, v: Move)
    requires Joined(minerOf, m) && Possible(m, v) && v.Turn?
    ensures Joined(minerOf, Moved(minerOf, m, v))
  {
    var w := WorkerAt(m, v.k);
    WorkerIs(m, v.k, 0);
    TurnSound(w, v.turn);
    forall t ensures MovesAt(minerOf, m.s, m.s, v.k, w.(b := B.Step(w.b, v.turn)), t) {
      TurnAt(minerOf, m, v.k, v.turn, t);
    }
    OneWorkerChanges(minerOf, m, m.s, v.k, w.(b := B.Step(w.b, v.turn)));
  }

  lemma ReceiveKeeps(minerOf: MinerOf, s: State, t0: nat, t: nat, k: Key)
    requires Filed(s) && t0 in s.flight && s.flight[t0].phase.Queued?
    ensures var n := Step(s, Receive(t0, true));
            && (PendingAt(minerOf, n, t, k) <==>
                  PendingAt(minerOf, s, t, k) || (t == t0 && k == KeyOf(minerOf, s.flight[t0])))
            && (Arrived(s, t) || t == t0 ==> Arrived(n, t))
  {
    assert CopyFiled(s, t0);
  }

  lemma ArrivesAt(minerOf: MinerOf, m: Machine, t0: nat, threshold: int, t: nat)
    requires Joined(minerOf, m) && t0 in m.s.flight && m.s.flight[t0].phase.Queued?
    ensures var k := KeyOf(minerOf, m.s.flight[t0]);
            var w := WorkerAt(m, k);
            MovesAt(minerOf, m.s, Step(m.s, Receive(t0, true)), k, w.(b := B.Step(w.b, B.Arrive(t0, threshold))), t)
  {
    var k, s' := KeyOf(minerOf, m.s.flight[t0]), Step(m.s, Receive(t0, true));
    forall q
      ensures PendingAt(minerOf, s', t, q) <==> PendingAt(minerOf, m.s, t, q) || (t == t0 && q == k)
      ensures Arrived(m.s, t) || t == t0 ==> Arrived(s', t)
    {
      ReceiveKeeps(minerOf, m.s, t0, t, q);
    }
    assert SeenAt(m, k, t) && JoinedAt(minerOf, m, k, t);
    WorkerIs(m, k, t);
    TurnHolds(WorkerAt(m, k), B.Arrive(t0, threshold), t);
    TurnSeen(WorkerAt(m, k), B.Arrive(t0, threshold), t);
  }

  lemma ArrivesJoined(minerOf: MinerOf, m: Machine, v: Move)
    requires Joined(minerOf, m) && Possible(m, v) && v.Arrives?
    ensures Joined(minerOf, Moved(minerOf, m, v))
  {
    var k, s' := KeyOf(minerOf, m.s.flight[v.ticket]), Step(m.s, Receive(v.ticket, true));
    var w, e := WorkerAt(m, k), B.Arrive(v.ticket, v.threshold);
    StepFiled(m.s, Receive(v.ticket, true));
    WorkerIs(m, k, v.ticket);
    assert SeenAt(m, k, v.ticket);
    TurnSound(w, e);
    forall t ensures MovesAt(minerOf, m.s, s', k, w.(b := B.Step(w.b, e)), t) {
      ArrivesAt(minerOf, m, v.ticket, v.threshold, t);
    }
    OneWorkerChanges(minerOf, m, s', k, w.(b := B.Step(w.b, e)));
  }

  /** Processing a list takes exactly its tickets from what the batcher holds. */
  lemma RanHolds(w: Worker, j: nat, t: nat)
    requires Sound(w) && j < |w.b.dispatched| && j !in w.ran
    ensures Holds(w.(ran := w.ran + {j}), t) <==> Holds(w, t) && !HasTicket(w.b.dispatched[j], t)
  {
    var w' := w.(ran := w.ran + {j});
    forall i | 0 <= i < |w.b.dispatched|
      ensures Waits(w', i, t) <==> Waits(w, i, t) && i != j
    {
    }
    if HasTicket(w.b.dispatched[j], t) {
      OnlyInOne(w, j, t);
    }
  }

  lemma ProcessKeeps(minerOf: MinerOf, s: State, batch: map<nat, bool>, cid: Option<Cid>, t: nat, k: Key)
    ensures var n := Step(s, Process(batch, cid));
            && (PendingAt(minerOf, n, t, k) <==> PendingAt(minerOf, s, t, k) && t !in batch)
            && (Arrived(s, t) ==> Arrived(n, t))
  {
  }

  lemma WorksAt(minerOf: MinerOf, m: Machine, k: Key, j: nat, built: set<nat>, cid: Option<Cid>, t: nat)
    requires Joined(minerOf, m) && k in m.workers && j < |m.workers[k].b.dispatched| && j !in m.workers[k].ran
    ensures var w := m.workers[k];
            var s' := Step(m.s, Process(BatchOf(w.b.dispatched[j], built), cid));
            MovesAt(minerOf, m.s, s', k, w.(ran := w.ran + {j}), t)
  {
    var w := m.workers[k];
    var list := w.b.dispatched[j];
    var batch := BatchOf(list, built);
    assert SeenAt(m, k, t) && JoinedAt(minerOf, m, k, t);
    assert t in batch <==> HasTicket(list, t);
    RanHolds(w, j, t);
    assert HasTicket(list, t) ==> Waits(w, j, t);
    forall q
      ensures var n := Step(m.s, Process(batch, cid));
              && (PendingAt(minerOf, n, t, q) <==> PendingAt(minerOf, m.s, t, q) && t !in batch)
              && (Arrived(m.s, t) ==> Arrived(n, t))
    {
      ProcessKeeps(minerOf, m.s, batch, cid, t, q);
    }
  }

  lemma RanSound(w: Worker, j: nat)
    requires Sound(w) && j < |w.b.dispatched|
    ensures Sound(w.(ran := w.ran + {j}))
  {
    var w' := w.(ran := w.ran + {j});
    assert B.Everything(w'.b) == B.Everything(w.b);
  }

  lemma WorksNext(minerOf: MinerOf, m: Machine, k: Key, j: nat, built: set<nat>, cid: Option<Cid>)
    requires Joined(minerOf, m) && k in m.workers && j < |m.workers[k].b.dispatched| && j !in m.workers[k].ran
    ensures var w := m.workers[k];
            var s' := Step(m.s, Process(BatchOf(w.b.dispatched[j], built), cid));
            Joined(minerOf, Machine(s', m.workers[k := w.(ran := w.ran + {j})]))
  {
    var w := m.workers[k];
    var s' := Step(m.s, Process(BatchOf(w.b.dispatched[j], built), cid));
    var w' := w.(ran := w.ran + {j});
    StepFiled(m.s, Process(BatchOf(w.b.dispatched[j], built), cid));
    forall t ensures MovesAt(minerOf, m.s, s', k, w', t) {
      WorksAt(minerOf, m, k, j, built, cid, t);
    }
    RanSound(w, j);
    OneWorkerChanges(minerOf, m, s', k, w');
  }

  lemma WorksJoined(minerOf: MinerOf, m: Machine, v: Move)
    requires Joined(minerOf, m) && Possible(m, v) && v.Works?
    ensures Joined(minerOf, Moved(minerOf, m, v))
  {
    WorksNext(minerOf, m, v.k, v.j, v.built, v.cid);
  }

  lemma MoveJoined(minerOf: MinerOf, m: Machine, v: Move)
    requires Joined(minerOf, m) && Possible(m, v)
    ensures Joined(minerOf, Moved(minerOf, m, v))
  {
    match v
    case Other(_) => OtherJoined(minerOf, m, v);
    case Arrives(_, _) => ArrivesJoined(minerOf, m, v);
    case Turn(_, _) => TurnJoined(minerOf, m, v);
    case Works(_, _, _, _) => WorksJoined(minerOf, m, v);
  }
}
