/**
 The commitment manager as an object: its methods are the steps of the pipeline
 (damocles-manager/modules/impl/commitmgr/commitmgr.go and precommit_processor.go).
 */
module CommitmentMgr {
  import opened Common
  import opened Commitments
  import opened CommitmentSteps

  /** The step of a processor run: which tickets of the batch could be built. */
  function ProcessStep(tickets: seq<nat>, built: set<nat>, cid: Option<Cid>): Event {
    Process(map t | t in tickets :: t in built, cid)
  }

  /** A message with the sectors it is sent for. */
  function Carried(flight: map<nat, Copy>, infos: seq<nat>, cid: Cid): set<(Stage, Cid, Id)>
    requires forall t :: t in infos ==> t in flight
  {
    set t | t in infos :: (flight[t].stage, cid, flight[t].sector.id)
  }

  /** Every answer to a submission is told by the stored record and the check, and decides what
      is left behind. */
  lemma PreSubmission(s: State, e: Event)
    requires e.SubmitPre?
    ensures PreAnswered(s, e, PreAnswer(s, e))
    ensures PreLeaves(s, e, PreAnswer(s, e), Step(s, e))
  {
  }

  lemma ProofSubmission(s: State, e: Event)
    requires e.SubmitProof?
    ensures ProofAnswered(s, e, ProofAnswer(s, e))
    ensures ProofLeaves(s, e, ProofAnswer(s, e), Step(s, e))
  {
  }

  class CommitmentManager {
    var store: map<Id, Sector>
    var flight: map<nat, Copy>
    var next: nat
    var scanned: bool
    var pushed: set<(Stage, Cid, Id)>

    function Abs(): State
      reads this
    {
      State(store, flight, next, scanned, pushed)
    }

    constructor (stored: map<Id, Sector>)
      ensures Abs() == State(stored, map[], 0, false, {})
    {
      store, flight, next, scanned, pushed := stored, map[], 0, false, {};
    }

    method Enqueue(stage: Stage, sector: Sector)
      modifies this
      ensures Abs() == Launch(old(Abs()), stage, sector)
    {
      flight := flight[next := Copy(stage, Queued, sector)];
      next := next + 1;
    }

    method SubmitPreCommit(id: Id, info: PreInfo, hardReset: bool, sender: bool, check: Check)
      returns (r: Result<Response>)
      modifies this
      ensures var e := SubmitPre(id, info, hardReset, sender, check);
              Abs() == Step(old(Abs()), e) && r == PreAnswer(old(Abs()), e)
      ensures var e := SubmitPre(id, info, hardReset, sender, check);
              PreAnswered(old(Abs()), e, r) && PreLeaves(old(Abs()), e, r, Abs())
    {
      PreSubmission(Abs(), SubmitPre(id, info, hardReset, sender, check));
      if !sender || id !in store {
        return Err;
      }
      var sector := store[id];
      if sector.pre.Some? && !hardReset {
        var changed := sector.pre.value.commD != info.commD
                       || sector.pre.value.commR != info.commR
                       || sector.pre.value.ticketEpoch != info.ticketEpoch
                       || sector.pre.value.ticket != info.ticket;
        if changed {
          return Ok(Mismatched);
        }
        return Ok(Accepted);
      }
      match check {
        case ApiError => return Err;
        case OnChain => return Ok(Accepted);
        case BadCommD => return Ok(Mismatched);
        case Refused => return Ok(Rejected);
        case Fine =>
      }
      sector := sector.(pre := Some(info));
      sector := sector.(msg := sector.msg.(needSend := true, preCommitCid := None));
      store := store[id := sector];
      Enqueue(Pre, sector);
      return Ok(Accepted);
    }

    method SubmitProofOf(id: Id, proof: Proof, hardReset: bool, sender: bool, check: Check)
      returns (r: Result<Response>)
      modifies this
      ensures var e := SubmitProof(id, proof, hardReset, sender, check);
              Abs() == Step(old(Abs()), e) && r == ProofAnswer(old(Abs()), e)
      ensures var e := SubmitProof(id, proof, hardReset, sender, check);
              ProofAnswered(old(Abs()), e, r) && ProofLeaves(old(Abs()), e, r, Abs())
    {
      ProofSubmission(Abs(), SubmitProof(id, proof, hardReset, sender, check));
      if !sender || id !in store {
        return Err;
      }
      var sector := store[id];
      if sector.pre.None? {
        return Ok(Rejected);
      }
      if sector.proof.Some? && !hardReset {
        if sector.proof.value != proof {
          return Ok(Mismatched);
        }
        return Ok(Accepted);
      }
      match check {
        case Refused => return Ok(Rejected);
        case Fine =>
        case _ => return Err;
      }
      sector := sector.(proof := Some(proof));
      sector := sector.(msg := sector.msg.(needSend := true, commitCid := None));
      store := store[id := sector];
      Enqueue(Pro, sector);
      return Ok(Accepted);
    }

    /** Landed is answered exactly when the stored message was executed successfully, deep
        enough, and the chain has the sector's pre-commit; should-abort exactly when it landed
        but the chain has none. */
    method PreCommitState(id: Id, poll: Poll) returns (r: Result<OnChainState>)
      ensures id !in store ==> r == Err
      ensures id in store ==> Telling(store[id].msg.preCommitCid, store[id].msg.needSend, poll, r)
      ensures id in store ==> r == PollPre(store[id], poll)
    {
      if id !in store {
        return Err;
      }
      if store[id].msg.preCommitCid.None? {
        if store[id].msg.needSend {
          return Ok(StatePending);
        }
        return Ok(StateFailed);
      }
      if poll.message.Err? {
        return Err;
      }
      var state := HandleMessage(poll.message.value, poll.confidence);
      if state.StateLanded? {
        match poll.chain {
          case Allocated => return Ok(StateShouldAbort);
          case Unavailable => return Err;
          case Missing => return Ok(StateShouldAbort);
          case Known =>
        }
      }
      return Ok(state);
    }

    /** The same for the proof, with the sector's info instead of its pre-commit. */
    method ProofState(id: Id, poll: Poll) returns (r: Result<OnChainState>)
      ensures id !in store ==> r == Err
      ensures id in store ==> Telling(store[id].msg.commitCid, store[id].msg.needSend, ForProof(poll), r)
      ensures (r == Ok(StateShouldAbort) ==> poll.chain.Missing?) && (r == Ok(StateLanded) ==> poll.chain.Known?)
      ensures id in store ==> r == PollProof(store[id], poll)
    {
      if id !in store {
        return Err;
      }
      if store[id].msg.commitCid.None? {
        if store[id].msg.needSend {
          return Ok(StatePending);
        }
        return Ok(StateFailed);
      }
      if poll.message.Err? {
        return Err;
      }
      var state := HandleMessage(poll.message.value, poll.confidence);
      if state.StateLanded? {
        if poll.chain.Unavailable? || poll.chain.Allocated? {
          return Err;
        }
        if poll.chain.Missing? {
          return Ok(StateShouldAbort);
        }
      }
      return Ok(state);
    }

    /** One turn of the pre or pro loop: the copy reaches its batcher, or is dropped
        when no sender can be selected for it. */
    method ReceiveCopy(ticket: nat, sender: bool)
      requires ticket in flight
      modifies this
      ensures Abs() == Step(old(Abs()), Receive(ticket, sender))
    {
      if !sender {
        flight := flight - {ticket};
        return;
      }
      flight := flight[ticket := flight[ticket].(phase := Pending)];
    }

    /** The tickets of the batch whose parameters can be built. */
    static method Infos(tickets: seq<nat>, built: set<nat>) returns (infos: seq<nat>)
      ensures forall t :: t in infos <==> t in tickets && t in built
    {
      infos := [];
      for i := 0 to |tickets|
        invariant forall t :: t in infos <==> t in tickets[..i] && t in built
      {
        if tickets[i] !in built {
          continue;
        }
        infos := infos + [tickets[i]];
      }
    }

    /** Every copy of the batch is done; those in `infos` carry the message id. */
    method Finish(tickets: seq<nat>, infos: seq<nat>, sent: Option<Cid>)
      requires forall t :: t in tickets ==> t in flight && flight[t].stage.Pre?
      requires forall i, j :: 0 <= i < j < |tickets| ==> tickets[i] != tickets[j]
      modifies this`flight
      ensures flight == map t | t in old(flight) ::
                          if t in tickets then Handled(old(flight)[t], t in infos, sent) else old(flight)[t]
    {
      ghost var before := flight;
      for i := 0 to |tickets|
        invariant flight == map t | t in before ::
                              if t in tickets[..i] then Handled(before[t], t in infos, sent) else before[t]
      {
        var t := tickets[i];
        assert t !in tickets[..i] && t in tickets;
        var copy := flight[t].sector;
        if t in infos && sent.Some? {
          copy := copy.(msg := copy.msg.(preCommitCid := sent));
        }
        flight := flight[t := Copy(Pre, Processed, copy)];
        assert tickets[..i + 1] == tickets[..i] + [t];
      }
      assert tickets[..|tickets|] == tickets;
    }

    /** The pre-commit processor: gathers the sectors whose parameters can be built,
        pushes one message for them and gives exactly those its id. */
    method ProcessPreCommits(tickets: seq<nat>, built: set<nat>, config: bool, push: Option<Cid>)
      requires forall t :: t in tickets ==> t in flight && flight[t].stage.Pre?
      requires forall i, j :: 0 <= i < j < |tickets| ==> tickets[i] != tickets[j]
      modifies this
      ensures Abs() == Step(old(Abs()), ProcessStep(tickets, built, if config then push else None))
      ensures Processes(old(Abs()), ProcessStep(tickets, built, None).batch, if config then push else None, Abs())
    {
      ProcessMeans(Abs(), ProcessStep(tickets, built, None).batch, if config then push else None);
      ghost var s := Abs();
      var infos: seq<nat>, sent := [], None;
      if config {
        infos := Infos(tickets, built);
        if infos != [] {
          sent := push;
        }
      }
      if sent.Some? {
        pushed := pushed + Carried(flight, infos, sent.value);
      }
      Finish(tickets, infos, sent);
      ProcessIs(s, tickets, built, infos, if config then push else None, sent);
    }

    /** updateSector: clears NeedSend in every copy of the batch and stores its
        message info.  An update that fails is skipped. */
    method UpdateSector(tickets: seq<nat>, failing: set<nat>)
      requires forall t :: t in tickets ==> t in flight
      requires forall i, j :: 0 <= i < j < |tickets| ==> tickets[i] != tickets[j]
      modifies this
      ensures Abs() == UpdateAll(old(Abs()), tickets, failing)
      ensures WritesBack(old(Abs()), tickets, failing, Abs())
    {
      ghost var s := Abs();
      for i := 0 to |tickets|
        invariant Abs() == UpdateAll(s, tickets[..i], failing)
        invariant forall j :: i <= j < |tickets| ==> tickets[j] in flight
      {
        var copy := flight[tickets[i]].sector;
        copy := copy.(msg := copy.msg.(needSend := false));
        if tickets[i] !in failing && copy.id in store {
          store := store[copy.id := store[copy.id].(msg := copy.msg)];
        }
        flight := flight - {tickets[i]};
        assert tickets[..i + 1][..i] == tickets[..i];
      }
      assert tickets[..|tickets|] == tickets;
      UpdateAllMeans(s, tickets, failing);
    }

    method CrashNow()
      modifies this
      ensures Abs() == Step(old(Abs()), Crash)
    {
      flight, scanned := map[], false;
    }

    /** restartSector: queues the stored sectors that still need sending. */
    method RestartSector(order: seq<Id>)
      requires forall id :: id in order ==> id in store
      modifies this
      ensures Abs() == Step(old(Abs()), Scan(order))
      ensures old(Ticketed(Abs())) ==> Scans(old(Abs()), order, |order|, Abs()) && scanned
    {
      if Ticketed(Abs()) {
        ScanMeans(Abs(), order);
      }
      ghost var s := Abs();
      for i := 0 to |order|
        invariant Abs() == Queue(s, order[..i]) && store == s.store
      {
        assert order[..i + 1][..i] == order[..i];
        var sector := store[order[i]];
        if sector.msg.needSend && sector.sealing {
          if sector.msg.preCommitCid.None? {
            Enqueue(Pre, sector);
          } else {
            Enqueue(Pro, sector);
          }
        }
      }
      assert order[..|order|] == order;
      scanned := true;
    }
  }

  /** Marking the copies in `infos` is the processor's step, whether or not there
      was anything to push. */
  lemma ProcessIs(s: State, tickets: seq<nat>, built: set<nat>, infos: seq<nat>, cid: Option<Cid>, sent: Option<Cid>)
    requires forall t :: t in tickets ==> t in s.flight
    requires cid.Some? ==> forall t :: t in infos <==> t in tickets && t in built
    requires forall t :: t in infos ==> t in tickets
    requires sent == if infos == [] then None else cid
    ensures var n := Step(s, ProcessStep(tickets, built, cid));
            && n.flight == (map t | t in s.flight ::
                              if t in tickets then Handled(s.flight[t], t in infos, sent) else s.flight[t])
            && n.pushed == s.pushed + (if sent.None? then {} else Carried(s.flight, infos, sent.value))
            && n == s.(flight := n.flight, pushed := n.pushed)
  {
    var batch := ProcessStep(tickets, built, cid).batch;
    forall t | t in tickets
      ensures Handled(s.flight[t], batch[t], cid) == Handled(s.flight[t], t in infos, sent)
    {
      if infos == [] {
        assert t !in infos;
      }
    }
    if sent.Some? {
      forall t | t in batch && batch[t]
        ensures t in infos
      {
      }
    } else if cid.Some? {
      assert forall t :: t in batch ==> !batch[t] by {
        forall t | t in batch
          ensures !batch[t]
        {
          assert t !in infos;
        }
      }
    }
  }
}
