/**
 When no submission races the restart scan, a sector has at most one copy in
 flight and the write-back never loses anything; when one does, it can.
 */
module CommitmentExclusive {
  import opened Common
  import opened Commitments
  import opened CommitmentRuns

  /** As Smooth, without hard resets, and no submission is taken before the scan of
      this process is over. */
  ghost predicate Guarded(s: State, e: Event) {
    && Smooth(s, e)
    && (e.SubmitPre? ==> !e.reset && (PreTaken(s, e) ==> s.scanned))
    && (e.SubmitProof? ==> !e.reset && (ProofTaken(s, e) ==> s.scanned))
  }

  /** The copy of a sector differs from its record only by the message id the
      processor may have set for the copy's own stage. */
  ghost predicate SameMessages(c: Copy, msg: MessageInfo) {
    if !c.phase.Processed? then c.sector.msg == msg
    else if c.stage.Pre? then c.sector.msg == msg.(preCommitCid := c.sector.msg.preCommitCid)
    else c.sector.msg == msg.(commitCid := c.sector.msg.commitCid)
  }

  ghost predicate Agrees(s: State, t: nat) {
    t in s.flight ==>
      var c := s.flight[t];
      && c.sector.id in s.store
      && var r := s.store[c.sector.id];
         && r.msg.needSend && c.stage == StageOf(r)
         && c.sector.pre == r.pre && c.sector.proof == r.proof
         && SameMessages(c, r.msg)
  }

  ghost predicate Apart(s: State, t: nat, u: nat) {
    t in s.flight && u in s.flight && t != u ==> s.flight[t].sector.id != s.flight[u].sector.id
  }

  /** A record that needs sending holds what its stage sends. */
  ghost predicate Ready(s: State, id: Id) {
    id in s.store && s.store[id].msg.needSend ==>
      && s.store[id].pre.Some?
      && (s.store[id].msg.preCommitCid.Some? ==> s.store[id].proof.Some?)
  }

  ghost predicate Exclusive(s: State) {
    && (!s.scanned ==> s.flight == map[])
    && (forall t :: t in s.flight ==> Agrees(s, t))
    && (forall t, u :: t in s.flight && u in s.flight ==> Apart(s, t, u))
    && (forall id :: id in s.store ==> Ready(s, id))
  }

  /** The copies queued by a scan: one per listed sector that needs it. */
  ghost predicate ScanCopy(s: State, order: seq<Id>, t: nat) {
    t in s.flight ==> s.flight[t].sector.id in order && Agrees(s, t)
  }

  lemma {:induction false} QueueCopies(s: State, order: seq<Id>)
    requires Filed(s) && s.flight == map[]
    ensures var q := Queue(s, order);
            forall t :: t in q.flight ==> ScanCopy(q, order, t)
  {
    if order != [] {
      var n := |order| - 1;
      var init := order[..n];
      QueueCopies(s, init);
      QueueFiled(s, init);
      var b, q := Queue(s, init), Queue(s, order);
      forall t | t in q.flight
        ensures ScanCopy(q, order, t)
      {
        assert t in b.flight ==> ScanCopy(b, init, t) && CopyFiled(b, t);
      }
    }
  }

  lemma {:induction false} QueueApart(s: State, order: seq<Id>)
    requires Filed(s) && s.flight == map[]
    requires forall i, j :: 0 <= i < j < |order| ==> order[i] != order[j]
    ensures var q := Queue(s, order);
            forall t, u :: t in q.flight && u in q.flight ==> Apart(q, t, u)
  {
    if order != [] {
      var n := |order| - 1;
      var init := order[..n];
      QueueApart(s, init);
      QueueCopies(s, init);
      QueueFiled(s, init);
      var b, q := Queue(s, init), Queue(s, order);
      assert order[n] !in init;
      forall t, u | t in q.flight && u in q.flight
        ensures Apart(q, t, u)
      {
        if t in b.flight && u in b.flight {
          assert Apart(b, t, u) && CopyFiled(b, t) && CopyFiled(b, u);
        } else {
          assert t in b.flight ==> ScanCopy(b, init, t) && CopyFiled(b, t);
          assert u in b.flight ==> ScanCopy(b, init, u) && CopyFiled(b, u);
        }
      }
    }
  }

  lemma ScanExclusive(s: State, e: Event)
    requires Filed(s) && Exclusive(s) && e.Scan? && Enabled(s, e)
    ensures Exclusive(Step(s, e))
  {
    QueueFiled(s, e.order);
    QueueCopies(s, e.order);
    QueueApart(s, e.order);
    var q, n := Queue(s, e.order), Step(s, e);
    forall t | t in n.flight
      ensures Agrees(n, t)
    {
      assert ScanCopy(q, e.order, t);
    }
    forall t, u | t in n.flight && u in n.flight
      ensures Apart(n, t, u)
    {
      assert Apart(q, t, u);
    }
    forall id | id in n.store
      ensures Ready(n, id)
    {
      assert Ready(s, id);
    }
  }

  /** A submission that is taken finds no copy of its sector in flight. */
  lemma SubmissionIsAlone(s: State, e: Event, t: nat)
    requires Filed(s) && Exclusive(s) && Guarded(s, e) && t in s.flight
    requires (e.SubmitPre? && PreTaken(s, e)) || (e.SubmitProof? && ProofTaken(s, e))
    ensures s.flight[t].sector.id != e.id
  {
    assert Agrees(s, t) && Ready(s, e.id);
  }

  lemma StepAgrees(s: State, e: Event, t: nat)
    requires Filed(s) && Exclusive(s) && Enabled(s, e) && Guarded(s, e) && !e.Scan?
    requires t in Step(s, e).flight
    ensures Agrees(Step(s, e), t)
  {
    if t in s.flight {
      assert Agrees(s, t) && CopyFiled(s, t);
      if (e.SubmitPre? && PreTaken(s, e)) || (e.SubmitProof? && ProofTaken(s, e)) {
        SubmissionIsAlone(s, e, t);
      } else if e.Update? {
        assert Apart(s, t, e.ticket);
      }
    }
  }

  lemma StepApart(s: State, e: Event, t: nat, u: nat)
    requires Filed(s) && Exclusive(s) && Enabled(s, e) && Guarded(s, e) && !e.Scan?
    requires t in Step(s, e).flight && u in Step(s, e).flight
    ensures Apart(Step(s, e), t, u)
  {
    assert t in s.flight && u in s.flight ==> Apart(s, t, u);
    if (e.SubmitPre? && PreTaken(s, e)) || (e.SubmitProof? && ProofTaken(s, e)) {
      if t in s.flight {
        SubmissionIsAlone(s, e, t);
      }
      if u in s.flight {
        SubmissionIsAlone(s, e, u);
      }
    }
  }

  lemma StepExclusive(s: State, e: Event)
    requires Filed(s) && Exclusive(s) && Enabled(s, e) && Guarded(s, e)
    ensures Exclusive(Step(s, e))
  {
    if e.Scan? {
      ScanExclusive(s, e);
    } else {
      var n := Step(s, e);
      forall t | t in n.flight
        ensures Agrees(n, t)
      {
        StepAgrees(s, e, t);
      }
      forall t, u | t in n.flight && u in n.flight
        ensures Apart(n, t, u)
      {
        StepApart(s, e, t, u);
      }
      forall id | id in n.store
        ensures Ready(n, id)
      {
        assert id in s.store ==> Ready(s, id);
      }
    }
  }

  ghost predicate GuardedAt(start: State, events: seq<Event>, i: nat)
    requires i < |events|
  {
    Guarded(Run(start, events, i), events[i])
  }

  lemma {:induction false} RunExclusive(start: State, events: seq<Event>, n: nat)
    requires Valid(start, events) && n <= |events|
    requires forall i :: 0 <= i < |events| ==> GuardedAt(start, events, i)
    ensures Exclusive(Run(start, events, n)) && Tracked(Run(start, events, n))
  {
    if n > 0 {
      RunExclusive(start, events, n - 1);
      RunFiled(start, events, n - 1);
      assert EnabledAt(start, events, n - 1) && GuardedAt(start, events, n - 1);
      StepExclusive(Run(start, events, n - 1), events[n - 1]);
      StepTracked(Run(start, events, n - 1), events[n - 1]);
    }
  }

  /** Once the scan is over, a sealing sector needs sending exactly while one copy
      of it, and only one, is in flight. */
  lemma NeedSendIsOneCopy(start: State, events: seq<Event>, n: nat, id: Id)
    requires Valid(start, events) && n <= |events|
    requires forall i :: 0 <= i < |events| ==> GuardedAt(start, events, i)
    requires var s := Run(start, events, n); s.scanned && id in s.store && s.store[id].sealing
    ensures var s := Run(start, events, n);
            && (s.store[id].msg.needSend <==> exists t :: t in s.flight && s.flight[t].sector.id == id)
            && (forall t, u | t in s.flight && u in s.flight ::
                  s.flight[t].sector.id == id && s.flight[u].sector.id == id ==> t == u)
  {
    RunExclusive(start, events, n);
    var s := Run(start, events, n);
    assert TrackedAt(s, id);
    if s.store[id].msg.needSend {
      var t :| CopyOf(s, t, id, StageOf(s.store[id]));
      assert t in s.flight && s.flight[t].sector.id == id;
    }
    forall t, u | t in s.flight && u in s.flight && s.flight[t].sector.id == id && s.flight[u].sector.id == id
      ensures t == u
    {
      assert Apart(s, t, u);
    }
    if t :| t in s.flight && s.flight[t].sector.id == id {
      assert Agrees(s, t);
    }
  }

  /** The write-back of a copy changes its record in two places at most: NeedSend,
      and the message id of the copy's stage. */
  lemma WriteBackLosesNothing(s: State, t: nat)
    requires Exclusive(s) && t in s.flight && s.flight[t].phase.Processed?
    ensures var c := s.flight[t];
            && c.sector.id in s.store
            && var r := s.store[c.sector.id];
               Step(s, Update(t, true)).store
               == s.store[c.sector.id := r.(msg :=
                    if c.stage.Pre? then r.msg.(needSend := false, preCommitCid := c.sector.msg.preCommitCid)
                    else r.msg.(needSend := false, commitCid := c.sector.msg.commitCid))]
  {
    assert Agrees(s, t);
  }

  /** A pre-commit id that is stored stays the same in every guarded run: what was polled as
      landed is what the proof builds on. */
  lemma {:induction false} PreCommitIdStays(start: State, events: seq<Event>, m: nat, n: nat, id: Id)
    requires Valid(start, events) && m <= n <= |events|
    requires forall i :: 0 <= i < |events| ==> GuardedAt(start, events, i)
    requires id in Run(start, events, m).store && Run(start, events, m).store[id].msg.preCommitCid.Some?
    ensures id in Run(start, events, n).store
    ensures Run(start, events, n).store[id].msg.preCommitCid == Run(start, events, m).store[id].msg.preCommitCid
  {
    if m < n {
      PreCommitIdStays(start, events, m, n - 1, id);
      RunExclusive(start, events, n - 1);
      RunFiled(start, events, n - 1);
      assert EnabledAt(start, events, n - 1) && GuardedAt(start, events, n - 1);
      RunHasPre(start, events, n - 1, id);
      StepKeepsPreId(Run(start, events, n - 1), events[n - 1], id);
    }
  }

  lemma StepKeepsPreId(s: State, e: Event, id: Id)
    requires Filed(s) && Exclusive(s) && Enabled(s, e) && Guarded(s, e)
    requires id in s.store && s.store[id].msg.preCommitCid.Some? && s.store[id].pre.Some?
    ensures id in Step(s, e).store && Step(s, e).store[id].msg.preCommitCid == s.store[id].msg.preCommitCid
  {
    if e.Scan? {
      QueueFiled(s, e.order);
    } else if e.Update? {
      assert Agrees(s, e.ticket) && CopyFiled(s, e.ticket);
    }
  }

  /** A record with a pre-commit id has a pre-commit. */
  ghost predicate HasPre(s: State, id: Id) {
    id in s.store && s.store[id].msg.preCommitCid.Some? ==> s.store[id].pre.Some?
  }

  lemma StepHasPre(s: State, e: Event, id: Id)
    requires Filed(s) && Exclusive(s) && Enabled(s, e) && HasPre(s, id)
    ensures HasPre(Step(s, e), id)
  {
    if e.Scan? {
      QueueFiled(s, e.order);
    } else if e.Update? {
      assert Agrees(s, e.ticket) && CopyFiled(s, e.ticket);
      assert s.flight[e.ticket].sector.id in s.store ==> Ready(s, s.flight[e.ticket].sector.id);
    }
  }

  lemma {:induction false} RunHasPre(start: State, events: seq<Event>, n: nat, id: Id)
    requires Valid(start, events) && n <= |events|
    requires forall i :: 0 <= i < |events| ==> GuardedAt(start, events, i)
    ensures HasPre(Run(start, events, n), id)
  {
    if n > 0 {
      RunHasPre(start, events, n - 1, id);
      RunExclusive(start, events, n - 1);
      RunFiled(start, events, n - 1);
      assert EnabledAt(start, events, n - 1);
      StepHasPre(Run(start, events, n - 1), events[n - 1], id);
    }
  }

  // ---------------------------------------------------------------------------
  // What a write-back loses, in any state

  /** The message id of a stage. */
  function IdOf(msg: MessageInfo, stage: Stage): Option<Cid> {
    if stage.Pre? then msg.preCommitCid else msg.commitCid
  }

  function OtherStage(stage: Stage): Stage {
    if stage.Pre? then Pro else Pre
  }

  /** Only NeedSend and the message id of the given stage may differ. */
  ghost predicate OnlyOwn(stage: Stage, before: Sector, after: Sector) {
    var msg := before.msg.(needSend := after.msg.needSend);
    if stage.Pre? then after == before.(msg := msg.(preCommitCid := after.msg.preCommitCid))
    else after == before.(msg := msg.(commitCid := after.msg.commitCid))
  }

  /** A write-back changes only NeedSend and the message id of its stage exactly when the copy
      carries the record's message id of the other stage; in particular when the copy has
      the message info of the record, but for its own id. */
  lemma WriteBackIsOwnIff(s: State, t: nat)
    requires t in s.flight && s.flight[t].phase.Processed? && s.flight[t].sector.id in s.store
    ensures var c := s.flight[t];
            var r, n := s.store[c.sector.id], Step(s, Update(t, true)).store[c.sector.id];
            var other := OtherStage(c.stage);
            && (OnlyOwn(c.stage, r, n) <==> IdOf(c.sector.msg, other) == IdOf(r.msg, other))
            && (SameMessages(c, r.msg) <==>
                  c.sector.msg.needSend == r.msg.needSend && IdOf(c.sector.msg, other) == IdOf(r.msg, other))
  {
  }

  /** The record waits for a message of this stage to be sent. */
  ghost predicate WaitsFor(r: Sector, stage: Stage) {
    r.msg.needSend && StageOf(r) == stage && IdOf(r.msg, stage).None?
  }

  function PollStage(r: Sector, stage: Stage, poll: Poll): Result<OnChainState> {
    if stage.Pre? then PollPre(r, poll) else PollProof(r, poll)
  }

  /** A write-back makes a submission that waits to be sent look failed exactly when the copy
      has no message id for the stage it waits at: the copy's own message could not be
      sent, or the copy is of the other stage and knows nothing of the submission. */
  lemma WriteBackHidesIff(s: State, t: nat, stage: Stage, poll: Poll)
    requires t in s.flight && s.flight[t].phase.Processed? && s.flight[t].sector.id in s.store
    requires WaitsFor(s.store[s.flight[t].sector.id], stage)
    ensures var c := s.flight[t];
            var r, n := s.store[c.sector.id], Step(s, Update(t, true)).store[c.sector.id];
            && PollStage(r, stage, poll) == Ok(StatePending)
            && ((IdOf(n.msg, stage).None? && PollStage(n, stage, poll) == Ok(StateFailed))
                <==> IdOf(c.sector.msg, stage).None?)
  {
  }

  /** ... and that is a false alarm, with another copy still on its way to be sent, exactly when
      there is such a copy besides the one written back. */
  lemma FalseAlarmIff(s: State, t: nat, stage: Stage, poll: Poll)
    requires t in s.flight && s.flight[t].phase.Processed? && s.flight[t].sector.id in s.store
    requires WaitsFor(s.store[s.flight[t].sector.id], stage)
    ensures var c, id := s.flight[t], s.flight[t].sector.id;
            var after := Step(s, Update(t, true));
            (IdOf(after.store[id].msg, stage).None? && PollStage(after.store[id], stage, poll) == Ok(StateFailed)
             && InFlight(after, id, stage))
            <==> IdOf(c.sector.msg, stage).None? && exists u :: u != t && CopyOf(s, u, id, stage)
  {
    var id := s.flight[t].sector.id;
    var after := Step(s, Update(t, true));
    WriteBackHidesIff(s, t, stage, poll);
    forall u ensures CopyOf(after, u, id, stage) <==> u != t && CopyOf(s, u, id, stage) {
    }
  }

  /** In a guarded run there are no false alarms: a sector that is polled as failed for want of a
      message id has no copy in flight. */
  lemma GuardedFailureIsReal(start: State, events: seq<Event>, n: nat, id: Id, stage: Stage, poll: Poll)
    requires Valid(start, events) && n <= |events|
    requires forall i :: 0 <= i < |events| ==> GuardedAt(start, events, i)
    requires id in Run(start, events, n).store && IdOf(Run(start, events, n).store[id].msg, stage).None?
    requires PollStage(Run(start, events, n).store[id], stage, poll) == Ok(StateFailed)
    ensures forall t :: t in Run(start, events, n).flight ==> Run(start, events, n).flight[t].sector.id != id
  {
    RunExclusive(start, events, n);
    var s := Run(start, events, n);
    forall t | t in s.flight ensures s.flight[t].sector.id != id {
      assert Agrees(s, t);
    }
  }

  // ---------------------------------------------------------------------------
  // The race

  /** A submission taken before the scan is always doubled by it: the guard that no
      submission is taken before the scan cannot be dropped. */
  lemma EarlySubmissionIsDoubled(s: State, e: Event, order: seq<Id>) returns (t: nat, u: nat)
    requires Filed(s)
    requires (e.SubmitPre? && PreTaken(s, e)) || (e.SubmitProof? && ProofTaken(s, e))
    requires s.store[e.id].sealing && Enabled(Step(s, e), Scan(order))
    ensures var n := Step(Step(s, e), Scan(order));
            && t != u && t in n.flight && u in n.flight && e.id in n.store
            && n.flight[t].sector == n.flight[u].sector == n.store[e.id]
            && n.store[e.id].msg.needSend
  {
    var m := Step(s, e);
    StepFiled(s, e);
    t := s.next;
    QueueKeeps(m, order, t);
    QueueFiled(m, order);
    var i :| 0 <= i < |order| && order[i] == e.id;
    QueueTracks(m, order, i);
    u :| && u >= m.next && CopyOf(Queue(m, order), u, order[i], StageOf(m.store[order[i]]))
         && Queue(m, order).flight[u].sector == m.store[order[i]];
  }

  /** What the race is about: a sector, its submissions, the id of the first message, and what
      becomes of the second one. */
  datatype Setting = Setting(id: Id, info: PreInfo, proof: Proof, cid: Cid, built: bool, again: Option<Cid>)

  /** A pre-commit is submitted before the scan and doubled by it; the first copy is sent and
      written back, the proof is submitted, and then the second copy is written back. */
  function Race(x: Setting): seq<Event> {
    [SubmitPre(x.id, x.info, false, true, Fine), Scan([x.id]), Receive(0, true), Receive(1, true),
     Process(map[0 := true], Some(x.cid)), Update(0, true),
     SubmitProof(x.id, x.proof, false, true, Fine),
     Process(map[1 := x.built], x.again), Update(1, true)]
  }

  function Record(x: Setting, pre: bool, proof: bool, msg: MessageInfo): Sector {
    Sector(x.id, if pre then Some(x.info) else None, if proof then Some(x.proof) else None, msg, true)
  }

  function SentCopy(x: Setting): Copy {
    Copy(Pre, Processed, Record(x, true, false, MessageInfo(Some(x.cid), None, true)))
  }

  function StaleCopy(x: Setting, phase: Phase): Copy {
    var cid := if phase.Processed? && x.built then x.again else None;
    Copy(Pre, phase, Record(x, true, false, MessageInfo(cid, None, true)))
  }

  function ProofCopy(x: Setting): Copy {
    Copy(Pro, Queued, Record(x, true, true, MessageInfo(Some(x.cid), None, true)))
  }

  /** The state after `k` steps of the race. */
  function RaceState(x: Setting, k: nat): State
    requires k <= 9
  {
    var none, sent := MessageInfo(None, None, false), MessageInfo(Some(x.cid), None, false);
    var need := MessageInfo(None, None, true);
    var pushed := {(Pre, x.cid, x.id)};
    var pushed2 := if x.built && x.again.Some? then pushed + {(Pre, x.again.value, x.id)} else pushed;
    if k == 0 then State(map[x.id := Record(x, false, false, none)], map[], 0, false, {})
    else if k <= 4 then
      State(map[x.id := Record(x, true, false, need)],
            if k == 1 then map[0 := StaleCopy(x, Queued)]
            else map[0 := StaleCopy(x, if k >= 3 then Pending else Queued),
                     1 := StaleCopy(x, if k >= 4 then Pending else Queued)],
            if k == 1 then 1 else 2, k > 1, {})
    else if k == 5 then
      State(map[x.id := Record(x, true, false, need)], map[0 := SentCopy(x), 1 := StaleCopy(x, Pending)], 2, true, pushed)
    else if k == 6 then
      State(map[x.id := Record(x, true, false, sent)], map[1 := StaleCopy(x, Pending)], 2, true, pushed)
    else if k <= 8 then
      State(map[x.id := Record(x, true, true, sent.(needSend := true))],
            map[1 := StaleCopy(x, if k == 8 then Processed else Pending), 2 := ProofCopy(x)], 3, true,
            if k == 8 then pushed2 else pushed)
    else
      State(map[x.id := Record(x, true, true, StaleCopy(x, Processed).sector.msg.(needSend := false))],
            map[2 := ProofCopy(x)], 3, true, pushed2)
  }

  ghost predicate RaceGoes(x: Setting, k: nat)
    requires k < 9
  {
    && Step(RaceState(x, k), Race(x)[k]) == RaceState(x, k + 1)
    && Enabled(RaceState(x, k), Race(x)[k])
    && Smooth(RaceState(x, k), Race(x)[k])
  }

  lemma RaceDoubles(x: Setting, k: nat)
    requires k < 2
    ensures RaceGoes(x, k)
  {
    if k == 1 {
      var s := RaceState(x, 1);
      assert Queue(s, []) == s && [x.id][..0] == [];
      assert Queue(s, [x.id]) == Launch(s, Pre, s.store[x.id]);
    }
  }

  lemma RaceReceives(x: Setting, k: nat)
    requires 2 <= k < 4
    ensures RaceGoes(x, k)
  {
  }

  /** Processing one of two copies. */
  lemma ProcessFirst(s: State, a: nat, b: nat, c: Copy, d: Copy, built: bool, cid: Option<Cid>)
    requires a != b && s.flight == map[a := c, b := d]
    ensures Step(s, Process(map[a := built], cid))
         == s.(flight := map[a := Handled(c, built, cid), b := d],
               pushed := if built && cid.Some? then s.pushed + {(c.stage, cid.value, c.sector.id)} else s.pushed)
  {
    ProcessOne(s, a, built, cid);
  }

  lemma RaceSends(x: Setting)
    ensures RaceGoes(x, 4)
  {
    assert Race(x)[4] == Process(map[0 := true], Some(x.cid));
    ProcessFirst(RaceState(x, 4), 0, 1, StaleCopy(x, Pending), StaleCopy(x, Pending), true, Some(x.cid));
  }

  lemma RaceProves(x: Setting, k: nat)
    requires 5 <= k < 7
    ensures RaceGoes(x, k)
  {
  }

  lemma RaceSendsAgain(x: Setting)
    ensures RaceGoes(x, 7)
  {
    assert Race(x)[7] == Process(map[1 := x.built], x.again);
    ProcessFirst(RaceState(x, 7), 1, 2, StaleCopy(x, Pending), ProofCopy(x), x.built, x.again);
  }

  lemma RaceEnds(x: Setting)
    ensures RaceGoes(x, 8)
  {
  }

  lemma RaceStep(x: Setting, k: nat)
    requires k < 9
    ensures RaceGoes(x, k)
  {
    if k < 2 {
      RaceDoubles(x, k);
    } else if k < 4 {
      RaceReceives(x, k);
    } else if k == 4 {
      RaceSends(x);
    } else if k < 7 {
      RaceProves(x, k);
    } else if k == 7 {
      RaceSendsAgain(x);
    } else {
      RaceEnds(x);
    }
  }

  lemma {:induction false} RaceRun(x: Setting, k: nat)
    requires k <= 9
    ensures Run(RaceState(x, 0), Race(x), k) == RaceState(x, k)
  {
    if k > 0 {
      RaceRun(x, k - 1);
      RaceStep(x, k - 1);
    }
  }

  /** For every sector, submission and message the race is a run in which everything succeeds,
      and at its end the proof is polled as failed although a copy of it is on its way. */
  lemma RaceHidesProof(x: Setting, poll: Poll)
    ensures var start, events := RaceState(x, 0), Race(x);
            && Valid(start, events)
            && (forall i :: 0 <= i < |events| ==> SmoothAt(start, events, i))
            && var s := Run(start, events, |events|);
               && x.id in s.store
               && s.store[x.id].proof == Some(x.proof)
               && InFlight(s, x.id, Pro)
               && PollProof(s.store[x.id], poll) == Ok(StateFailed)
  {
    var start, events := RaceState(x, 0), Race(x);
    forall i | 0 <= i < |events|
      ensures EnabledAt(start, events, i) && SmoothAt(start, events, i)
    {
      RaceRun(x, i);
      RaceStep(x, i);
    }
    RaceRun(x, 9);
    assert CopyOf(RaceState(x, 9), 2, x.id, Pro);
  }
}
