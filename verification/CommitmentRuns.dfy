/**
 What every interleaving of the commitment pipeline keeps.
 */
module CommitmentRuns {
  import opened Common
  import opened Commitments

  ghost predicate EnabledAt(start: State, events: seq<Event>, i: nat)
    requires i < |events|
  {
    Enabled(Run(start, events, i), events[i])
  }

  ghost predicate Valid(start: State, events: seq<Event>) {
    Fresh(start) && forall i :: 0 <= i < |events| ==> EnabledAt(start, events, i)
  }

  // ---------------------------------------------------------------------------
  // Bookkeeping: records are filed under their ids, copies under used tickets

  ghost predicate CopyFiled(s: State, t: nat) {
    t in s.flight ==> t < s.next && s.flight[t].sector.id in s.store
  }

  ghost predicate Filed(s: State) {
    && (forall id :: id in s.store ==> s.store[id].id == id)
    && (forall t :: t in s.flight ==> CopyFiled(s, t))
  }

  lemma {:induction false} QueueFiled(s: State, order: seq<Id>)
    requires Filed(s)
    ensures Filed(Queue(s, order)) && Queue(s, order).store == s.store && Queue(s, order).pushed == s.pushed
  {
    if order != [] {
      QueueFiled(s, order[..|order| - 1]);
      var b := Queue(s, order[..|order| - 1]);
      forall t | t in Queue(s, order).flight
        ensures CopyFiled(Queue(s, order), t)
      {
        assert t in b.flight ==> CopyFiled(b, t);
      }
    }
  }

  lemma StepFiled(s: State, e: Event)
    requires Filed(s)
    ensures Filed(Step(s, e))
    ensures Step(s, e).store.Keys == s.store.Keys
  {
    var n := Step(s, e);
    if e.Scan? {
      QueueFiled(s, e.order);
      assert forall t :: t in n.flight ==> CopyFiled(Queue(s, e.order), t);
    }
    forall t | t in n.flight
      ensures CopyFiled(n, t)
    {
      assert t in s.flight ==> CopyFiled(s, t);
    }
  }

  lemma {:induction false} RunFiled(start: State, events: seq<Event>, n: nat)
    requires Fresh(start) && n <= |events|
    ensures Filed(Run(start, events, n))
  {
    if n > 0 {
      RunFiled(start, events, n - 1);
      StepFiled(Run(start, events, n - 1), events[n - 1]);
    }
  }

  // ---------------------------------------------------------------------------
  // A stored NeedSend is on its way

  ghost predicate CopyOf(s: State, t: nat, id: Id, stage: Stage) {
    t in s.flight && s.flight[t].stage == stage && s.flight[t].sector.id == id
  }

  ghost predicate InFlight(s: State, id: Id, stage: Stage) {
    exists t :: CopyOf(s, t, id, stage)
  }

  /** The stored sector needs no sending, or a copy is in flight at the stage it is
      for, or the scan that will queue it there is still to come. */
  ghost predicate TrackedAt(s: State, id: Id) {
    id in s.store && NeedsScan(s.store[id]) ==> !s.scanned || InFlight(s, id, StageOf(s.store[id]))
  }

  ghost predicate Tracked(s: State) {
    forall id :: id in s.store ==> TrackedAt(s, id)
  }

  /** Sender selection and store updates succeed, and a proof is submitted only
      when the pre-commit message is known, as it is once polled as landed. */
  ghost predicate Smooth(s: State, e: Event) {
    match e
    case Receive(_, sender) => sender
    case Update(_, ok) => ok
    case SubmitProof(id, _, _, _, _) => id in s.store ==> s.store[id].msg.preCommitCid.Some?
    case _ => true
  }

  lemma {:induction false} QueueKeeps(s: State, order: seq<Id>, t: nat)
    requires Filed(s) && t in s.flight
    ensures t in Queue(s, order).flight && Queue(s, order).flight[t] == s.flight[t]
  {
    assert CopyFiled(s, t);
    if order != [] {
      QueueKeeps(s, order[..|order| - 1], t);
      QueueFiled(s, order[..|order| - 1]);
      assert CopyFiled(Queue(s, order[..|order| - 1]), t);
    }
  }

  /** The scan queues a new copy of every stored sector that needs it, at the right
      stage. */
  lemma {:induction false} QueueTracks(s: State, order: seq<Id>, i: nat)
    requires Filed(s) && i < |order|
    requires order[i] in s.store && NeedsScan(s.store[order[i]])
    ensures exists t :: && t >= s.next && CopyOf(Queue(s, order), t, order[i], StageOf(s.store[order[i]]))
                        && Queue(s, order).flight[t].sector == s.store[order[i]]
  {
    var n := |order| - 1;
    QueueFiled(s, order[..n]);
    QueueNext(s, order[..n]);
    var before, after := Queue(s, order[..n]), Queue(s, order);
    var stage := StageOf(s.store[order[i]]);
    if i == n {
      assert CopyOf(after, before.next, order[n], stage);
    } else {
      QueueTracks(s, order[..n], i);
      var t :| t >= s.next && CopyOf(before, t, order[i], stage) && before.flight[t].sector == s.store[order[i]];
      assert CopyFiled(before, t);
      assert CopyOf(after, t, order[i], stage);
    }
  }

  lemma {:induction false} QueueNext(s: State, order: seq<Id>)
    ensures Queue(s, order).next >= s.next
  {
    if order != [] {
      QueueNext(s, order[..|order| - 1]);
    }
  }

  lemma ScanTracks(s: State, e: Event)
    requires Filed(s) && e.Scan? && Enabled(s, e)
    ensures Tracked(Step(s, e))
  {
    QueueFiled(s, e.order);
    var n := Step(s, e);
    forall id | id in n.store && NeedsScan(n.store[id])
      ensures InFlight(n, id, StageOf(n.store[id]))
    {
      var i :| 0 <= i < |e.order| && e.order[i] == id;
      QueueTracks(s, e.order, i);
      var t :| && t >= s.next && CopyOf(Queue(s, e.order), t, e.order[i], StageOf(s.store[e.order[i]]))
               && Queue(s, e.order).flight[t].sector == s.store[e.order[i]];
      assert CopyOf(n, t, id, StageOf(s.store[id]));
    }
  }

  /** Moving, handling and writing back copies keeps all other copies. */
  lemma CopySurvives(s: State, e: Event, t: nat, id: Id, stage: Stage)
    requires Filed(s) && Enabled(s, e) && Smooth(s, e)
    requires CopyOf(s, t, id, stage)
    requires !e.Crash? && !e.Scan? && !(e.Update? && e.ticket == t)
    ensures CopyOf(Step(s, e), t, id, stage)
  {
    assert CopyFiled(s, t);
  }

  lemma StepTracked(s: State, e: Event)
    requires Filed(s) && Tracked(s) && Enabled(s, e) && Smooth(s, e)
    ensures Tracked(Step(s, e))
  {
    if e.Scan? {
      ScanTracks(s, e);
    } else {
      var n := Step(s, e);
      StepFiled(s, e);
      forall id | id in n.store
        ensures TrackedAt(n, id)
      {
        assert TrackedAt(s, id);
        if NeedsScan(n.store[id]) && n.scanned {
          if (e.SubmitPre? && PreTaken(s, e) && e.id == id) || (e.SubmitProof? && ProofTaken(s, e) && e.id == id) {
            assert CopyOf(n, s.next, id, StageOf(n.store[id]));
          } else {
            assert n.store[id] == s.store[id];
            var t :| CopyOf(s, t, id, StageOf(s.store[id]));
            CopySurvives(s, e, t, id, StageOf(s.store[id]));
          }
        }
      }
    }
  }

  ghost predicate SmoothAt(start: State, events: seq<Event>, i: nat)
    requires i < |events|
  {
    Smooth(Run(start, events, i), events[i])
  }

  /** In every interleaving of submissions, moves, updates, crashes and restarts. */
  lemma {:induction false} NeedSendIsTracked(start: State, events: seq<Event>, n: nat)
    requires Valid(start, events) && n <= |events|
    requires forall i :: 0 <= i < |events| ==> SmoothAt(start, events, i)
    ensures Tracked(Run(start, events, n))
  {
    if n > 0 {
      NeedSendIsTracked(start, events, n - 1);
      RunFiled(start, events, n - 1);
      assert EnabledAt(start, events, n - 1) && SmoothAt(start, events, n - 1);
      StepTracked(Run(start, events, n - 1), events[n - 1]);
    }
  }

  /** Whatever failed before, a crash and the scan after it track everything again. */
  lemma RestartHeals(start: State, events: seq<Event>, order: seq<Id>)
    requires Fresh(start)
    requires Enabled(Step(Run(start, events, |events|), Crash), Scan(order))
    ensures Tracked(Step(Step(Run(start, events, |events|), Crash), Scan(order)))
  {
    var s := Run(start, events, |events|);
    RunFiled(start, events, |events|);
    StepFiled(s, Crash);
    ScanTracks(Step(s, Crash), Scan(order));
  }

  /** A sector is never polled as pending for want of a message id while nothing
      is on its way for it. */
  lemma PendingIsLive(start: State, events: seq<Event>, id: Id, poll: Poll)
    requires Valid(start, events)
    requires forall i :: 0 <= i < |events| ==> SmoothAt(start, events, i)
    requires id in start.store && start.store[id].sealing
    ensures var s := Run(start, events, |events|);
            && id in s.store && s.store[id].sealing
            && (s.store[id].msg.preCommitCid.None? ==>
                  (PollPre(s.store[id], poll) == Ok(StatePending) <==> s.store[id].msg.needSend)
                  && (PollPre(s.store[id], poll) == Ok(StatePending) ==> !s.scanned || InFlight(s, id, Pre)))
            && (s.store[id].msg.preCommitCid.Some? && s.store[id].msg.commitCid.None? ==>
                  (PollProof(s.store[id], poll) == Ok(StatePending) <==> s.store[id].msg.needSend)
                  && (PollProof(s.store[id], poll) == Ok(StatePending) ==> !s.scanned || InFlight(s, id, Pro)))
  {
    NeedSendIsTracked(start, events, |events|);
    RunKeepsIdentity(start, events, |events|, id);
    assert TrackedAt(Run(start, events, |events|), id);
  }

  lemma StepKeepsIdentity(s: State, e: Event, id: Id)
    requires Filed(s) && id in s.store
    ensures id in Step(s, e).store && Step(s, e).store[id].sealing == s.store[id].sealing
  {
    if e.Scan? {
      QueueFiled(s, e.order);
    }
  }

  lemma {:induction false} RunKeepsIdentity(start: State, events: seq<Event>, n: nat, id: Id)
    requires Fresh(start) && n <= |events| && id in start.store
    ensures id in Run(start, events, n).store && Run(start, events, n).store[id].sealing == start.store[id].sealing
  {
    if n > 0 {
      RunKeepsIdentity(start, events, n - 1, id);
      RunFiled(start, events, n - 1);
      StepKeepsIdentity(Run(start, events, n - 1), events[n - 1], id);
    }
  }

  /** Processing a batch of one copy. */
  lemma ProcessOne(s: State, t: nat, built: bool, cid: Option<Cid>)
    requires t in s.flight
    ensures var n := Step(s, Process(map[t := built], cid));
            && n.flight == s.flight[t := Handled(s.flight[t], built, cid)]
            && n.pushed == (if built && cid.Some? then s.pushed + {(s.flight[t].stage, cid.value, s.flight[t].sector.id)}
                            else s.pushed)
            && n == s.(flight := n.flight, pushed := n.pushed)
  {
    var pushes := Pushes(s, map[t := built], cid);
    if built && cid.Some? {
      assert pushes == {(s.flight[t].stage, cid.value, s.flight[t].sector.id)};
    } else {
      assert pushes == {};
    }
  }

  // ---------------------------------------------------------------------------
  // Stored message ids name messages sent for the sector

  ghost predicate Named(pushed: set<(Stage, Cid, Id)>, id: Id, msg: MessageInfo) {
    && (msg.preCommitCid.Some? ==> (Pre, msg.preCommitCid.value, id) in pushed)
    && (msg.commitCid.Some? ==> (Pro, msg.commitCid.value, id) in pushed)
  }

  ghost predicate CopyGenuine(s: State, t: nat) {
    t in s.flight ==> Named(s.pushed, s.flight[t].sector.id, s.flight[t].sector.msg)
  }

  ghost predicate RecordGenuine(s: State, id: Id) {
    id in s.store ==> Named(s.pushed, id, s.store[id].msg)
  }

  ghost predicate Genuine(s: State) {
    && (forall id :: id in s.store ==> RecordGenuine(s, id))
    && (forall t :: t in s.flight ==> CopyGenuine(s, t))
  }

  lemma {:induction false} QueueGenuine(s: State, order: seq<Id>)
    requires Filed(s) && Genuine(s)
    ensures Genuine(Queue(s, order))
  {
    if order != [] {
      var n := |order| - 1;
      QueueGenuine(s, order[..n]);
      QueueFiled(s, order[..n]);
      var b, q := Queue(s, order[..n]), Queue(s, order);
      forall t | t in q.flight
        ensures CopyGenuine(q, t)
      {
        assert t in b.flight ==> CopyGenuine(b, t);
        assert order[n] in b.store ==> RecordGenuine(b, order[n]);
      }
      assert forall id :: id in q.store ==> RecordGenuine(b, id);
    }
  }

  lemma HandledNamed(pushed: set<(Stage, Cid, Id)>, c: Copy, built: bool, cid: Option<Cid>)
    requires Named(pushed, c.sector.id, c.sector.msg)
    requires built && cid.Some? ==> (c.stage, cid.value, c.sector.id) in pushed
    ensures Named(pushed, c.sector.id, Handled(c, built, cid).sector.msg)
  {
  }

  lemma ProcessGenuine(s: State, e: Event, t: nat)
    requires Filed(s) && Genuine(s) && e.Process? && t in s.flight
    ensures CopyGenuine(Step(s, e), t)
  {
    assert CopyGenuine(s, t);
    var c, pushed := s.flight[t], s.pushed + Pushes(s, e.batch, e.cid);
    if t in e.batch {
      if e.batch[t] && e.cid.Some? {
        assert (c.stage, e.cid.value, c.sector.id) in Pushes(s, e.batch, e.cid);
      }
      HandledNamed(pushed, c, e.batch[t], e.cid);
    }
  }

  lemma StepGenuine(s: State, e: Event)
    requires Filed(s) && Genuine(s) && Enabled(s, e)
    ensures Genuine(Step(s, e))
  {
    var n := Step(s, e);
    if e.Scan? {
      QueueGenuine(s, e.order);
      assert forall t :: t in n.flight ==> CopyGenuine(Queue(s, e.order), t);
      assert forall id :: id in n.store ==> RecordGenuine(Queue(s, e.order), id);
    }
    forall t | t in n.flight && !e.Scan?
      ensures CopyGenuine(n, t)
    {
      assert t in s.flight ==> CopyGenuine(s, t);
      if e.Process? {
        ProcessGenuine(s, e, t);
      } else if e.SubmitPre? || e.SubmitProof? {
        assert e.id in s.store ==> RecordGenuine(s, e.id);
      }
    }
    forall id | id in n.store && !e.Scan?
      ensures RecordGenuine(n, id)
    {
      assert id in s.store ==> RecordGenuine(s, id);
      if e.Update? {
        assert CopyGenuine(s, e.ticket);
      }
    }
  }

  /** In every run, a stored message id is the id of a message that was pushed for
      that stage and sent for that sector. */
  lemma {:induction false} StoredIdsAreGenuine(start: State, events: seq<Event>, n: nat)
    requires Valid(start, events) && n <= |events|
    ensures Genuine(Run(start, events, n))
  {
    if n > 0 {
      StoredIdsAreGenuine(start, events, n - 1);
      RunFiled(start, events, n - 1);
      assert EnabledAt(start, events, n - 1);
      StepGenuine(Run(start, events, n - 1), events[n - 1]);
    }
  }

  /** In every run, a sector polled as landed has its own message on chain: the message whose
      outcome was reported was pushed for this stage and this sector. */
  lemma LandedIsOwnMessage(start: State, events: seq<Event>, id: Id, poll: Poll)
    requires Valid(start, events) && id in start.store
    ensures var s := Run(start, events, |events|);
            && id in s.store
            && (PollPre(s.store[id], poll) == Ok(StateLanded) ==>
                  s.store[id].msg.preCommitCid.Some? && (Pre, s.store[id].msg.preCommitCid.value, id) in s.pushed)
            && (PollProof(s.store[id], poll) == Ok(StateLanded) ==>
                  s.store[id].msg.commitCid.Some? && (Pro, s.store[id].msg.commitCid.value, id) in s.pushed)
  {
    StoredIdsAreGenuine(start, events, |events|);
    RunKeepsIdentity(start, events, |events|, id);
    assert RecordGenuine(Run(start, events, |events|), id);
  }

  // ---------------------------------------------------------------------------
  // Stored submissions are final

  /** Only a submission with a hard reset replaces a stored pre-commit or proof. */
  lemma SubmissionsAreFinal(s: State, e: Event, id: Id)
    requires Filed(s) && id in s.store
    ensures var n := Step(s, e);
            && id in n.store
            && (s.store[id].pre.Some? && n.store[id].pre != s.store[id].pre ==>
                  e.SubmitPre? && e.reset && e.id == id)
            && (s.store[id].proof.Some? && n.store[id].proof != s.store[id].proof ==>
                  e.SubmitProof? && e.reset && e.id == id)
  {
    if e.Scan? {
      QueueFiled(s, e.order);
    }
  }

  lemma {:induction false} SubmissionsNeverChange(start: State, events: seq<Event>, m: nat, n: nat, id: Id)
    requires Fresh(start) && m <= n <= |events| && id in start.store
    requires forall i :: 0 <= i < |events| ==>
               !(events[i].SubmitPre? && events[i].reset) && !(events[i].SubmitProof? && events[i].reset)
    ensures var before, after := Run(start, events, m).store, Run(start, events, n).store;
            && id in before && id in after
            && (before[id].pre.Some? ==> after[id].pre == before[id].pre)
            && (before[id].proof.Some? ==> after[id].proof == before[id].proof)
  {
    RunKeepsIdentity(start, events, m, id);
    if m < n {
      SubmissionsNeverChange(start, events, m, n - 1, id);
      RunFiled(start, events, n - 1);
      SubmissionsAreFinal(Run(start, events, n - 1), events[n - 1], id);
    }
  }

  /** Once a pre-commit is stored, every later submission for the sector is answered by comparing
      it with that one, whatever its check would find, and leaves everything as it was. */
  lemma FirstPreCommitWins(start: State, events: seq<Event>, m: nat, j: nat)
    requires Fresh(start) && m <= j < |events| && events[j].SubmitPre? && events[j].id in start.store
    requires forall i :: 0 <= i < |events| ==>
               !(events[i].SubmitPre? && events[i].reset) && !(events[i].SubmitProof? && events[i].reset)
    ensures var stored := Run(start, events, m).store;
            && events[j].id in stored
            && (stored[events[j].id].pre.Some? ==>
                  && Run(start, events, j + 1) == Run(start, events, j)
                  && (events[j].sender ==>
                        PreAnswer(Run(start, events, j), events[j])
                        == Ok(if SamePre(stored[events[j].id].pre.value, events[j].info) then Accepted else Mismatched)))
  {
    SubmissionsNeverChange(start, events, m, j, events[j].id);
  }

  lemma FirstProofWins(start: State, events: seq<Event>, m: nat, j: nat)
    requires Fresh(start) && m <= j < |events| && events[j].SubmitProof? && events[j].id in start.store
    requires forall i :: 0 <= i < |events| ==>
               !(events[i].SubmitPre? && events[i].reset) && !(events[i].SubmitProof? && events[i].reset)
    ensures var stored := Run(start, events, m).store;
            && events[j].id in stored
            && (stored[events[j].id].pre.Some? && stored[events[j].id].proof.Some? ==>
                  && Run(start, events, j + 1) == Run(start, events, j)
                  && (events[j].sender ==>
                        ProofAnswer(Run(start, events, j), events[j])
                        == Ok(if stored[events[j].id].proof.value == events[j].proof then Accepted else Mismatched)))
  {
    SubmissionsNeverChange(start, events, m, j, events[j].id);
  }
}
