/**
 Exactly when the commitment pipeline loses track of a sector that needs sending, and
 what brings it back.
 */
module CommitmentStranded {
  import opened Common
  import opened Commitments
  import opened CommitmentRuns

  /** `t` is the only copy of its sector at the stage the record needs. */
  ghost predicate OnlyCopy(s: State, t: nat) {
    && t in s.flight
    && var id, stage := s.flight[t].sector.id, s.flight[t].stage;
       && id in s.store && NeedsScan(s.store[id]) && StageOf(s.store[id]) == stage
       && forall u :: CopyOf(s, u, id, stage) ==> u == t
  }

  /** A proof is taken for a sealing sector whose pre-commit id is not stored and that has no
      pre-commit copy in flight. */
  ghost predicate TooEarly(s: State, e: Event) {
    && e.SubmitProof? && ProofTaken(s, e)
    && s.store[e.id].sealing && s.store[e.id].msg.preCommitCid.None? && !InFlight(s, e.id, Pre)
  }

  /** The step loses track of a sector. */
  ghost predicate Strands(s: State, e: Event) {
    && s.scanned
    && match e
       case Receive(t, sender) => !sender && OnlyCopy(s, t)
       case Update(t, ok) => !ok && OnlyCopy(s, t)
       case SubmitProof(_, _, _, _, _) => TooEarly(s, e)
       case _ => false
  }

  // ---------------------------------------------------------------------------
  // One step

  /** Dropping a copy leaves the records and all other copies. */
  lemma DropTracked(s: State, e: Event, t: nat)
    requires Filed(s) && Tracked(s) && t in s.flight
    requires e == Receive(t, false) || e == Update(t, false)
    ensures Tracked(Step(s, e)) <==> !(s.scanned && OnlyCopy(s, t))
  {
    var n := Step(s, e);
    forall u, id, stage
      ensures CopyOf(n, u, id, stage) <==> u != t && CopyOf(s, u, id, stage)
    {
    }
    forall id | id in n.store
      ensures TrackedAt(n, id) <==> !(s.scanned && OnlyCopy(s, t) && id == s.flight[t].sector.id)
    {
      assert TrackedAt(s, id);
      var stage := StageOf(s.store[id]);
      if s.scanned && NeedsScan(s.store[id]) {
        var u :| CopyOf(s, u, id, stage);
        assert u != t ==> CopyOf(n, u, id, stage);
      }
    }
    assert CopyFiled(s, t);
  }

  /** Submitting a proof before the pre-commit id is stored. */
  lemma EarlyProofTracked(s: State, e: Event)
    requires Filed(s) && Tracked(s) && e.SubmitProof? && ProofTaken(s, e)
    requires s.store[e.id].msg.preCommitCid.None?
    ensures Tracked(Step(s, e)) <==> !s.scanned || !s.store[e.id].sealing || InFlight(s, e.id, Pre)
  {
    var n := Step(s, e);
    forall u, id, stage
      ensures CopyOf(n, u, id, stage) <==> CopyOf(s, u, id, stage) || (u == s.next && id == e.id && stage == Pro)
    {
      assert u in s.flight ==> CopyFiled(s, u);
    }
    assert InFlight(n, e.id, Pre) <==> InFlight(s, e.id, Pre) by {
      assert forall u :: CopyOf(n, u, e.id, Pre) <==> CopyOf(s, u, e.id, Pre);
    }
    assert NeedsScan(n.store[e.id]) <==> s.store[e.id].sealing;
    assert TrackedAt(n, e.id) <==> !s.scanned || !s.store[e.id].sealing || InFlight(s, e.id, Pre);
    forall id | id in n.store && id != e.id
      ensures TrackedAt(n, id)
    {
      assert TrackedAt(s, id);
      if s.scanned && NeedsScan(s.store[id]) {
        var u :| CopyOf(s, u, id, StageOf(s.store[id]));
        assert CopyOf(n, u, id, StageOf(n.store[id]));
      }
    }
  }

  /** Every step keeps all sectors tracked, except exactly those that strand one: a copy that no
      sender is found for, or whose update fails, when it is the only one; and a proof
      submitted too early. */
  lemma StepTrackedIff(s: State, e: Event)
    requires Filed(s) && Tracked(s) && Enabled(s, e)
    ensures Tracked(Step(s, e)) <==> !Strands(s, e)
  {
    if e.Receive? && !e.sender {
      DropTracked(s, e, e.ticket);
    } else if e.Update? && !e.ok {
      DropTracked(s, e, e.ticket);
    } else if e.SubmitProof? && ProofTaken(s, e) && s.store[e.id].msg.preCommitCid.None? {
      EarlyProofTracked(s, e);
    } else if e.SubmitProof? && !ProofTaken(s, e) {
      assert Step(s, e) == s;
    } else {
      StepTracked(s, e);
    }
  }

  ghost predicate StrandsAt(start: State, events: seq<Event>, i: nat)
    requires i < |events|
  {
    Strands(Run(start, events, i), events[i])
  }

  ghost predicate TrackedBefore(start: State, events: seq<Event>, i: nat)
    requires i <= |events|
  {
    Tracked(Run(start, events, i))
  }

  /** So a run tracks every sector throughout exactly when none of its steps strands one. */
  lemma {:induction false} TrackedThroughoutIff(start: State, events: seq<Event>, n: nat)
    requires Valid(start, events) && n <= |events|
    ensures (forall i :: 0 <= i <= n ==> TrackedBefore(start, events, i))
            <==> forall i :: 0 <= i < n ==> !StrandsAt(start, events, i)
  {
    if n == 0 {
      assert TrackedBefore(start, events, 0);
    } else {
      TrackedThroughoutIff(start, events, n - 1);
      if TrackedBefore(start, events, n - 1) {
        RunFiled(start, events, n - 1);
        assert EnabledAt(start, events, n - 1);
        StepTrackedIff(Run(start, events, n - 1), events[n - 1]);
        assert TrackedBefore(start, events, n) <==> !StrandsAt(start, events, n - 1);
      }
    }
  }

  // ---------------------------------------------------------------------------
  // What a stranded sector waits for

  /** The sector needs sending, the scan is over, and no copy of it is in flight. */
  ghost predicate Stranded(s: State, id: Id) {
    && s.scanned && id in s.store && NeedsScan(s.store[id])
    && forall t :: t in s.flight ==> s.flight[t].sector.id != id
  }

  /** A submission for the sector that is stored and sent on its way. */
  ghost predicate Resubmits(s: State, e: Event, id: Id) {
    || (e.SubmitPre? && e.id == id && PreTaken(s, e))
    || (e.SubmitProof? && e.id == id && ProofTaken(s, e))
  }

  lemma StrandedIsUntracked(s: State, id: Id)
    requires Stranded(s, id)
    ensures !TrackedAt(s, id)
  {
  }

  /** It stays stranded, with the same record, through every step but a crash and a submission
      for it that is taken. */
  lemma StrandedStaysIff(s: State, e: Event, id: Id)
    requires Filed(s) && Stranded(s, id) && Enabled(s, e)
    ensures Stranded(Step(s, e), id) <==> !(e.Crash? || Resubmits(s, e, id))
    ensures Stranded(Step(s, e), id) ==> Step(s, e).store[id] == s.store[id]
  {
    var n := Step(s, e);
    if Resubmits(s, e, id) {
      assert s.next in n.flight && n.flight[s.next].sector.id == id;
    } else if !e.Crash? {
      forall t | t in n.flight
        ensures n.flight[t].sector.id != id
      {
        if (e.SubmitPre? && PreTaken(s, e)) || (e.SubmitProof? && ProofTaken(s, e)) {
          assert s.store[e.id].id == e.id;
        }
      }
      if e.Update? {
        assert s.flight[e.ticket].sector.id != id;
      }
    }
  }

  ghost predicate ResubmitsAt(start: State, events: seq<Event>, i: nat, id: Id)
    requires i < |events|
  {
    Resubmits(Run(start, events, i), events[i], id)
  }

  /** However long: a stranded sector is stranded, with the record it had, until the first crash
      or taken submission; meanwhile it is polled as pending at the stage it waits for. */
  lemma {:induction false} StrandedUntil(start: State, events: seq<Event>, m: nat, n: nat, id: Id, poll: Poll)
    requires Valid(start, events) && m <= n <= |events|
    requires Stranded(Run(start, events, m), id)
    requires forall i :: m <= i < n ==> !events[i].Crash? && !ResubmitsAt(start, events, i, id)
    ensures Stranded(Run(start, events, n), id)
    ensures Run(start, events, n).store[id] == Run(start, events, m).store[id]
    ensures var r := Run(start, events, n).store[id];
            && (r.msg.preCommitCid.None? ==> PollPre(r, poll) == Ok(StatePending))
            && (r.msg.commitCid.None? ==> PollProof(r, poll) == Ok(StatePending))
  {
    if m < n {
      StrandedUntil(start, events, m, n - 1, id, poll);
      RunFiled(start, events, n - 1);
      assert EnabledAt(start, events, n - 1) && !ResubmitsAt(start, events, n - 1, id);
      StrandedStaysIff(Run(start, events, n - 1), events[n - 1], id);
    }
  }

  /** Submitting the same again does not help: it is accepted and nothing is queued.  A hard reset
      that passes its checks sends the sector on its way again, without a restart. */
  lemma RepeatingDoesNotHelp(s: State, id: Id, info: PreInfo, sender: bool, check: Check)
    requires Filed(s) && Stranded(s, id) && s.store[id].pre == Some(info)
    ensures Step(s, SubmitPre(id, info, false, sender, check)) == s
    ensures sender ==> PreAnswer(s, SubmitPre(id, info, false, sender, check)) == Ok(Accepted)
    ensures TrackedAt(Step(s, SubmitPre(id, info, true, true, Fine)), id)
    ensures StageOf(Step(s, SubmitPre(id, info, true, true, Fine)).store[id]) == Pre
  {
    var e := SubmitPre(id, info, true, true, Fine);
    assert CopyOf(Step(s, e), s.next, id, Pre);
  }

  /** For a sector that waits at the proof stage, the same with its proof. */
  lemma RepeatingProofDoesNotHelp(s: State, id: Id, proof: Proof, sender: bool, check: Check)
    requires Filed(s) && Stranded(s, id) && s.store[id].pre.Some? && s.store[id].proof == Some(proof)
    requires s.store[id].msg.preCommitCid.Some?
    ensures Step(s, SubmitProof(id, proof, false, sender, check)) == s
    ensures sender ==> ProofAnswer(s, SubmitProof(id, proof, false, sender, check)) == Ok(Accepted)
    ensures TrackedAt(Step(s, SubmitProof(id, proof, true, true, Fine)), id)
  {
    var e := SubmitProof(id, proof, true, true, Fine);
    assert CopyOf(Step(s, e), s.next, id, Pro);
  }

  // ---------------------------------------------------------------------------
  // Runs that strand a sector

  lemma {:induction false} NothingToScan(s: State, order: seq<Id>)
    requires Fresh(s)
    ensures Queue(s, order) == s
  {
    if order != [] {
      NothingToScan(s, order[..|order| - 1]);
    }
  }

  /** The first two steps of each run: the scan finds nothing, and a pre-commit is submitted. */
  function Begun(start: State, id: Id, info: PreInfo): State
    requires id in start.store
  {
    var sector := WithPre(start.store[id], info);
    Launch(start.(store := start.store[id := sector], scanned := true), Pre, sector)
  }

  function Prologue(order: seq<Id>, id: Id, info: PreInfo): seq<Event> {
    [Scan(order), SubmitPre(id, info, false, true, Fine)]
  }

  ghost predicate Setting(start: State, order: seq<Id>, id: Id) {
    Fresh(start) && Enabled(start, Scan(order)) && id in start.store && start.store[id].sealing
  }

  lemma Begins(start: State, order: seq<Id>, id: Id, info: PreInfo, events: seq<Event>)
    requires Setting(start, order, id) && Prologue(order, id, info) <= events
    ensures Run(start, events, 2) == Begun(start, id, info)
    ensures EnabledAt(start, events, 0) && EnabledAt(start, events, 1)
  {
    NothingToScan(start, order);
    assert events[0] == Scan(order) && events[1] == SubmitPre(id, info, false, true, Fine);
    assert Run(start, events, 0) == start;
    assert Run(start, events, 1) == start.(scanned := true);
  }

  /** From every fresh store: a pre-commit is submitted, no sender is found for its only copy, and
      the sector is polled as pending with nothing in flight. */
  lemma LostSelectionStrands(start: State, order: seq<Id>, id: Id, info: PreInfo, poll: Poll)
    requires Setting(start, order, id)
    ensures var events := Prologue(order, id, info) + [Receive(start.next, false)];
            && Valid(start, events)
            && Stranded(Run(start, events, 3), id)
            && PollPre(Run(start, events, 3).store[id], poll) == Ok(StatePending)
            && Run(start, events, 3).flight == map[]
  {
    var events := Prologue(order, id, info) + [Receive(start.next, false)];
    Begins(start, order, id, info, events);
    assert events[2] == Receive(start.next, false);
    assert Run(start, events, 3) == Step(Begun(start, id, info), events[2]);
    assert EnabledAt(start, events, 2);
  }

  /** ... then the copy is received and processed. */
  function Attempted(start: State, id: Id, info: PreInfo, built: bool, cid: Option<Cid>): State
    requires id in start.store
  {
    var s := Begun(start, id, info);
    s.(flight := map[start.next := Handled(Copy(Pre, Pending, WithPre(start.store[id], info)), built, cid)],
       pushed := if built && cid.Some? then {(Pre, cid.value, id)} else {})
  }

  function Attempt(t: nat, built: bool, cid: Option<Cid>): seq<Event> {
    [Receive(t, true), Process(map[t := built], cid)]
  }

  lemma Attempts(start: State, order: seq<Id>, id: Id, info: PreInfo, built: bool, cid: Option<Cid>, events: seq<Event>)
    requires Setting(start, order, id)
    requires Prologue(order, id, info) + Attempt(start.next, built, cid) <= events
    ensures Run(start, events, 4) == Attempted(start, id, info, built, cid)
    ensures forall i :: 0 <= i < 4 ==> EnabledAt(start, events, i)
  {
    Begins(start, order, id, info, events);
    var t := start.next;
    assert events[2] == Receive(t, true) && events[3] == Process(map[t := built], cid);
    var s3 := Run(start, events, 3);
    assert s3 == Step(Begun(start, id, info), events[2]);
    var c := Copy(Pre, Pending, WithPre(start.store[id], info));
    assert s3.flight == map[t := c];
    ProcessOne(s3, t, built, cid);
    assert EnabledAt(start, events, 2) && EnabledAt(start, events, 3);
  }

  /** ... and: its message is pushed, but storing the message id fails.  The message is out, and
      the sector is polled as pending with nothing in flight. */
  lemma LostUpdateStrands(start: State, order: seq<Id>, id: Id, info: PreInfo, cid: Cid, poll: Poll)
    requires Setting(start, order, id)
    ensures var events := Prologue(order, id, info) + Attempt(start.next, true, Some(cid)) + [Update(start.next, false)];
            && Valid(start, events)
            && Stranded(Run(start, events, 5), id)
            && PollPre(Run(start, events, 5).store[id], poll) == Ok(StatePending)
            && (Pre, cid, id) in Run(start, events, 5).pushed
  {
    var events := Prologue(order, id, info) + Attempt(start.next, true, Some(cid)) + [Update(start.next, false)];
    Attempts(start, order, id, info, true, Some(cid), events);
    assert events[4] == Update(start.next, false);
    assert Run(start, events, 5) == Step(Attempted(start, id, info, true, Some(cid)), events[4]);
    assert EnabledAt(start, events, 4);
  }

  /** ... and: its message cannot be sent, and the proof is submitted all the same.  The proof is on
      its way, but the record asks for the pre-commit stage: a restart would queue it there. */
  lemma EarlyProofStrands(start: State, order: seq<Id>, id: Id, info: PreInfo, proof: Proof)
    requires Setting(start, order, id)
    ensures var events := Prologue(order, id, info) + Attempt(start.next, false, None)
                          + [Update(start.next, true), SubmitProof(id, proof, false, true, Fine)];
            var s := Run(start, events, 6);
            && Valid(start, events)
            && id in s.store && !TrackedAt(s, id)
            && StageOf(s.store[id]) == Pre && InFlight(s, id, Pro)
  {
    var e := SubmitProof(id, proof, false, true, Fine);
    var events := Prologue(order, id, info) + Attempt(start.next, false, None) + [Update(start.next, true), e];
    Attempts(start, order, id, info, false, None, events);
    assert events[4] == Update(start.next, true) && events[5] == e;
    var s5 := Run(start, events, 5);
    assert s5 == Step(Attempted(start, id, info, false, None), events[4]);
    assert s5.flight == map[];
    assert Run(start, events, 6) == Step(s5, e);
    assert EnabledAt(start, events, 4) && EnabledAt(start, events, 5);
    assert CopyOf(Step(s5, e), s5.next, id, Pro);
  }
}
