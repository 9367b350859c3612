/**
 What processing, writing back and scanning do to a commitment pipeline, told by the copies and
 records alone (damocles-manager/modules/impl/commitmgr/commitmgr.go and the processors).
 */
module CommitmentSteps {
  import opened Common
  import opened Commitments
  import opened CommitmentRuns

  // ---------------------------------------------------------------------------
  // Processing a batch

  /** The id of a message at a stage. */
  function IdAt(msg: MessageInfo, stage: Stage): Option<Cid> {
    if stage.Pre? then msg.preCommitCid else msg.commitCid
  }

  function OtherStage(stage: Stage): Stage {
    if stage.Pre? then Pro else Pre
  }

  /** Copy `t` of the batch is done.  It carries the id of the message if its parameters could be
      built and a message was pushed, and else is as it was. */
  ghost predicate DoneAs(before: Copy, after: Copy, built: bool, cid: Option<Cid>) {
    && after.phase.Processed? && after.stage == before.stage
    && after.sector.id == before.sector.id && after.sector.sealing == before.sector.sealing
    && after.sector.pre == before.sector.pre && after.sector.proof == before.sector.proof
    && after.sector.msg.needSend == before.sector.msg.needSend
    && IdAt(after.sector.msg, OtherStage(before.stage)) == IdAt(before.sector.msg, OtherStage(before.stage))
    && (built && cid.Some? ==> IdAt(after.sector.msg, before.stage) == cid)
    && (!built || cid.None? ==> IdAt(after.sector.msg, before.stage) == IdAt(before.sector.msg, before.stage))
  }

  /** `m` is pushed for sector `m.2`: it was before, or the batch has a built copy of it. */
  ghost predicate PushedBy(s: State, batch: map<nat, bool>, cid: Option<Cid>, m: (Stage, Cid, Id)) {
    || m in s.pushed
    || (&& cid == Some(m.1)
        && exists t :: t in batch && batch[t] && t in s.flight && s.flight[t].stage == m.0 && s.flight[t].sector.id == m.2)
  }

  ghost predicate Processes(s: State, batch: map<nat, bool>, cid: Option<Cid>, n: State) {
    && n.store == s.store && n.next == s.next && n.scanned == s.scanned
    && n.flight.Keys == s.flight.Keys
    && (forall t :: t in s.flight && t !in batch ==> n.flight[t] == s.flight[t])
    && (forall t :: t in s.flight && t in batch ==> DoneAs(s.flight[t], n.flight[t], batch[t], cid))
    && (forall m :: m in n.pushed <==> PushedBy(s, batch, cid, m))
  }

  lemma ProcessMeans(s: State, batch: map<nat, bool>, cid: Option<Cid>)
    ensures Processes(s, batch, cid, Step(s, Process(batch, cid)))
  {
    var n := Step(s, Process(batch, cid));
    forall m: (Stage, Cid, Id) ensures m in n.pushed <==> PushedBy(s, batch, cid, m) {
    }
  }

  // ---------------------------------------------------------------------------
  // Writing back a batch

  /** Ticket `k` of the batch writes the record of `id`, and none after it does. */
  ghost predicate Writes(s: State, tickets: seq<nat>, failing: set<nat>, id: Id, k: nat)
    requires forall t :: t in tickets ==> t in s.flight
  {
    k < |tickets| && tickets[k] !in failing && s.flight[tickets[k]].sector.id == id
  }

  ghost predicate WritesLast(s: State, tickets: seq<nat>, failing: set<nat>, id: Id, k: nat)
    requires forall t :: t in tickets ==> t in s.flight
  {
    Writes(s, tickets, failing, id, k) && forall j: nat :: k < j ==> !Writes(s, tickets, failing, id, j)
  }

  /** The record of `id` after the write-back: the message info of the last copy written, with
      NeedSend cleared, and all else as it was. */
  ghost predicate RecordAfter(s: State, tickets: seq<nat>, failing: set<nat>, id: Id, after: Sector)
    requires id in s.store && forall t :: t in tickets ==> t in s.flight
  {
    && after == s.store[id].(msg := after.msg)
    && (forall k: nat :: WritesLast(s, tickets, failing, id, k) ==>
          after == s.store[id].(msg := s.flight[tickets[k]].sector.msg.(needSend := false)))
    && ((forall k: nat :: !Writes(s, tickets, failing, id, k)) ==> after == s.store[id])
  }

  ghost predicate WritesBack(s: State, tickets: seq<nat>, failing: set<nat>, n: State)
    requires forall t :: t in tickets ==> t in s.flight
  {
    && n.next == s.next && n.scanned == s.scanned && n.pushed == s.pushed
    && n.store.Keys == s.store.Keys
    && (forall id :: id in s.store ==> RecordAfter(s, tickets, failing, id, n.store[id]))
    && (forall t :: t in n.flight <==> t in s.flight && t !in tickets)
    && (forall t :: t in n.flight ==> n.flight[t] == s.flight[t])
  }

  /** The state after writing back a batch, one record at a time; the updates of the tickets
      in `failing` fail. */
  function UpdateAll(s: State, tickets: seq<nat>, failing: set<nat>): State {
    if tickets == [] then s
    else
      var last := tickets[|tickets| - 1];
      Step(UpdateAll(s, tickets[..|tickets| - 1], failing), Update(last, last !in failing))
  }

  lemma RecordNext(s: State, tickets: seq<nat>, failing: set<nat>, id: Id, before: Sector, after: Sector)
    requires tickets != [] && id in s.store && forall t :: t in tickets ==> t in s.flight
    requires var n := |tickets| - 1;
             && RecordAfter(s, tickets[..n], failing, id, before)
             && after == if Writes(s, tickets, failing, id, n)
                         then before.(msg := s.flight[tickets[n]].sector.msg.(needSend := false)) else before
    ensures RecordAfter(s, tickets, failing, id, after)
  {
    var n := |tickets| - 1;
    assert forall k: nat :: k < n ==> (Writes(s, tickets, failing, id, k) <==> Writes(s, tickets[..n], failing, id, k));
    forall k: nat | WritesLast(s, tickets, failing, id, k)
      ensures after == s.store[id].(msg := s.flight[tickets[k]].sector.msg.(needSend := false))
    {
      if k < n {
        assert WritesLast(s, tickets[..n], failing, id, k);
      }
    }
  }

  /** One more ticket of the batch. */
  lemma WriteNext(s: State, tickets: seq<nat>, failing: set<nat>, b: State, a: State)
    requires tickets != [] && forall t :: t in tickets ==> t in s.flight
    requires forall i, j :: 0 <= i < j < |tickets| ==> tickets[i] != tickets[j]
    requires var n := |tickets| - 1;
             && WritesBack(s, tickets[..n], failing, b)
             && a == Step(b, Update(tickets[n], tickets[n] !in failing))
    ensures WritesBack(s, tickets, failing, a)
  {
    var n := |tickets| - 1;
    assert tickets == tickets[..n] + [tickets[n]];
    assert tickets[n] in b.flight && b.flight[tickets[n]] == s.flight[tickets[n]];
    forall id | id in s.store ensures RecordAfter(s, tickets, failing, id, a.store[id]) {
      assert RecordAfter(s, tickets[..n], failing, id, b.store[id]);
      RecordNext(s, tickets, failing, id, b.store[id], a.store[id]);
    }
  }

  lemma {:induction false} UpdateAllMeans(s: State, tickets: seq<nat>, failing: set<nat>)
    requires forall t :: t in tickets ==> t in s.flight
    requires forall i, j :: 0 <= i < j < |tickets| ==> tickets[i] != tickets[j]
    ensures WritesBack(s, tickets, failing, UpdateAll(s, tickets, failing))
  {
    if tickets != [] {
      var n := |tickets| - 1;
      UpdateAllMeans(s, tickets[..n], failing);
      WriteNext(s, tickets, failing, UpdateAll(s, tickets[..n], failing), UpdateAll(s, tickets, failing));
    }
  }

  // ---------------------------------------------------------------------------
  // The scan

  /** Stored sector `id` still needs sending, and is not being upgraded, imported, rebuilt or unsealed. */
  ghost predicate Unsent(s: State, id: Id) {
    id in s.store && s.store[id].msg.needSend && s.store[id].sealing
  }

  /** How many of the first `n` sectors of the walk need sending. */
  ghost function UnsentBelow(s: State, order: seq<Id>, n: nat): nat
    requires n <= |order|
  {
    if n == 0 then 0 else UnsentBelow(s, order, n - 1) + One(Unsent(s, order[n - 1]))
  }

  /** The copy the scan queues: for the pre-commit stage until its message is known. */
  ghost function ScanCopyOf(s: State, id: Id): Copy
    requires id in s.store
  {
    Copy(if s.store[id].msg.preCommitCid.None? then Pre else Pro, Queued, s.store[id])
  }

  /** The walk queues one copy of each sector that needs sending, in order, and nothing else. */
  ghost predicate Scans(s: State, order: seq<Id>, m: nat, n: State)
    requires m <= |order|
  {
    && n.store == s.store && n.pushed == s.pushed
    && n.next == s.next + UnsentBelow(s, order, m)
    && (forall t :: t in n.flight <==> t in s.flight || s.next <= t < n.next)
    && (forall t :: t in s.flight ==> n.flight[t] == s.flight[t])
    && (forall i :: 0 <= i < m && Unsent(s, order[i]) ==> QueuedAt(s, order, i, n))
  }

  ghost predicate QueuedAt(s: State, order: seq<Id>, i: nat, n: State)
    requires i < |order| && order[i] in s.store
  {
    var t := s.next + UnsentBelow(s, order, i);
    t in n.flight && n.flight[t] == ScanCopyOf(s, order[i])
  }

  /** Every ticket in use was handed out. */
  ghost predicate Ticketed(s: State) {
    forall t :: t in s.flight ==> t < s.next
  }

  /** One more sector of the walk. */
  lemma ScanNext(s: State, order: seq<Id>, m: nat, b: State, n: State)
    requires m < |order| && Ticketed(s) && Scans(s, order, m, b)
    requires n == if Unsent(s, order[m]) then Launch(b, ScanCopyOf(s, order[m]).stage, s.store[order[m]]) else b
    ensures Scans(s, order, m + 1, n)
  {
    forall i | 0 <= i <= m && Unsent(s, order[i]) ensures QueuedAt(s, order, i, n) {
      assert i < m ==> QueuedAt(s, order, i, b);
    }
  }

  lemma {:induction false} QueueMeans(s: State, order: seq<Id>, m: nat)
    requires m <= |order| && Ticketed(s)
    ensures Scans(s, order, m, Queue(s, order[..m]))
  {
    if m > 0 {
      QueueMeans(s, order, m - 1);
      assert order[..m][..m - 1] == order[..m - 1];
      ScanNext(s, order, m - 1, Queue(s, order[..m - 1]), Queue(s, order[..m]));
    }
  }

  lemma ScanMeans(s: State, order: seq<Id>)
    requires Ticketed(s)
    ensures Scans(s, order, |order|, Step(s, Scan(order)))
    ensures Step(s, Scan(order)).scanned
  {
    assert order[..|order|] == order;
    QueueMeans(s, order, |order|);
    var q, n := Queue(s, order), Step(s, Scan(order));
    forall i | 0 <= i < |order| && Unsent(s, order[i]) ensures QueuedAt(s, order, i, n) {
      assert QueuedAt(s, order, i, q);
    }
  }

  // ---------------------------------------------------------------------------
  // From processing to the record

  /** A copy that is done stays as it is until it is written back or lost in a crash. */
  lemma DoneStays(s: State, e: Event, t: nat)
    requires Filed(s) && Enabled(s, e) && t in s.flight && s.flight[t].phase.Processed?
    requires !e.Crash? && !(e.Update? && e.ticket == t)
    ensures t in Step(s, e).flight && Step(s, e).flight[t] == s.flight[t]
  {
    assert CopyFiled(s, t);
    if e.Scan? {
      forall u | u in s.flight ensures u < s.next {
        assert CopyFiled(s, u);
      }
      ScanMeans(s, e.order);
    }
  }

  /** Neither a crash nor the write-back of `t`. */
  ghost predicate Leaves(e: Event, t: nat) {
    !e.Crash? && !(e.Update? && e.ticket == t)
  }

  lemma {:induction false} DoneStaysOver(start: State, events: seq<Event>, i: nat, j: nat, t: nat)
    requires Valid(start, events) && i <= j <= |events|
    requires t in Run(start, events, i).flight && Run(start, events, i).flight[t].phase.Processed?
    requires forall k :: i <= k < j ==> Leaves(events[k], t)
    ensures t in Run(start, events, j).flight && Run(start, events, j).flight[t] == Run(start, events, i).flight[t]
  {
    if i < j {
      DoneStaysOver(start, events, i, j - 1, t);
      RunFiled(start, events, j - 1);
      assert EnabledAt(start, events, j - 1);
      DoneStays(Run(start, events, j - 1), events[j - 1], t);
    }
  }

  lemma WrittenId(s: State, t: nat, cid: Cid)
    requires t in s.flight && s.flight[t].sector.id in s.store
    requires IdAt(s.flight[t].sector.msg, s.flight[t].stage) == Some(cid)
    ensures var id := s.flight[t].sector.id; var n := Step(s, Update(t, true));
            id in n.store && IdAt(n.store[id].msg, s.flight[t].stage) == Some(cid) && !n.store[id].msg.needSend
  {
  }

  /** A sector whose parameters were built into a pushed message has, once its copy is written back,
      the id of that message at its stage and no longer needs sending; the message was pushed for it. */
  lemma SentIsStored(start: State, events: seq<Event>, i: nat, j: nat, t: nat, cid: Cid)
    requires Valid(start, events) && i < j < |events|
    requires events[i].Process? && events[i].cid == Some(cid) && t in events[i].batch && events[i].batch[t]
    requires events[j] == Update(t, true) && forall k :: i < k < j ==> Leaves(events[k], t)
    ensures t in Run(start, events, i).flight
    ensures var copy := Run(start, events, i).flight[t];
            var now := Run(start, events, j + 1);
            && copy.sector.id in now.store
            && IdAt(now.store[copy.sector.id].msg, copy.stage) == Some(cid)
            && !now.store[copy.sector.id].msg.needSend
            && (copy.stage, cid, copy.sector.id) in Run(start, events, i + 1).pushed
  {
    var s := Run(start, events, i);
    assert EnabledAt(start, events, i);
    ProcessMeans(s, events[i].batch, events[i].cid);
    assert PushedBy(s, events[i].batch, events[i].cid, (s.flight[t].stage, cid, s.flight[t].sector.id));
    DoneStaysOver(start, events, i + 1, j, t);
    RunFiled(start, events, j);
    assert CopyFiled(Run(start, events, j), t);
    WrittenId(Run(start, events, j), t, cid);
  }
}
