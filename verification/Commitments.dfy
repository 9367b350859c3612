/**
 The durable commitment pipeline (damocles-manager/modules/impl/commitmgr/commitmgr.go).

 A submission is stored with NeedSend set and a copy of the sector starts through
 a queue, a batcher and a processor; the final update stores the message id and
 clears NeedSend.  A crash loses every copy; the scan after a restart queues the
 stored sectors that still need sending.

 Submissions, each move of a copy, each single update, crashes and the scan are
 the atomic steps; they interleave freely.
 */
module Commitments {
  import opened Common

  type Id = nat
  type Cid = nat

  datatype PreInfo = PreInfo(commD: nat, commR: nat, ticketEpoch: int, ticket: nat)
  type Proof = nat

  datatype MessageInfo = MessageInfo(preCommitCid: Option<Cid>, commitCid: Option<Cid>, needSend: bool)

  /** A sector record; `sealing` is false for upgraded, imported, rebuilding or
      unsealing sectors, which the restart scan leaves alone. */
  datatype Sector = Sector(id: Id, pre: Option<PreInfo>, proof: Option<Proof>, msg: MessageInfo, sealing: bool)

  datatype Stage = Pre | Pro

  /** Where a copy is: on its way to the batcher, pending there, or handled by the
      processor and about to be written back. */
  datatype Phase = Queued | Pending | Processed

  datatype Copy = Copy(stage: Stage, phase: Phase, sector: Sector)

  /** `flight` holds the copies in memory under tickets; `scanned` says that the
      restart scan of this process is over; `pushed` lists the messages handed to
      the message client with the sectors they are sent for. */
  datatype State = State(
    store: map<Id, Sector>,
    flight: map<nat, Copy>,
    next: nat,
    scanned: bool,
    pushed: set<(Stage, Cid, Id)>)

  datatype Check = Fine | ApiError | OnChain | BadCommD | Refused

  datatype Response = Accepted | Mismatched | Rejected

  datatype Event =
    | SubmitPre(id: Id, info: PreInfo, reset: bool, sender: bool, check: Check)
    | SubmitProof(id: Id, proof: Proof, reset: bool, sender: bool, check: Check)
    | Receive(ticket: nat, sender: bool)
    | Process(batch: map<nat, bool>, cid: Option<Cid>)
    | Update(ticket: nat, ok: bool)
    | Crash
    | Scan(order: seq<Id>)

  // ---------------------------------------------------------------------------
  // The steps

  /** Starts a copy of `sector` on its way to the batcher of `stage`. */
  function Launch(s: State, stage: Stage, sector: Sector): State {
    s.(flight := s.flight[s.next := Copy(stage, Queued, sector)], next := s.next + 1)
  }

  function WithPre(sector: Sector, info: PreInfo): Sector {
    sector.(pre := Some(info), msg := sector.msg.(needSend := true, preCommitCid := None))
  }

  function WithProof(sector: Sector, proof: Proof): Sector {
    sector.(proof := Some(proof), msg := sector.msg.(needSend := true, commitCid := None))
  }

  function PreAnswer(s: State, e: Event): Result<Response>
    requires e.SubmitPre?
  {
    if !e.sender || e.id !in s.store then Err
    else if s.store[e.id].pre.Some? && !e.reset then
      Ok(if s.store[e.id].pre.value == e.info then Accepted else Mismatched)
    else match e.check
      case Fine => Ok(Accepted)
      case ApiError => Err
      case OnChain => Ok(Accepted)
      case BadCommD => Ok(Mismatched)
      case Refused => Ok(Rejected)
  }

  /** The submission is stored and sent on its way. */
  predicate PreTaken(s: State, e: Event)
    requires e.SubmitPre?
  {
    e.sender && e.id in s.store && (s.store[e.id].pre.None? || e.reset) && e.check.Fine?
  }

  function ProofAnswer(s: State, e: Event): Result<Response>
    requires e.SubmitProof?
  {
    if !e.sender || e.id !in s.store then Err
    else if s.store[e.id].pre.None? then Ok(Rejected)
    else if s.store[e.id].proof.Some? && !e.reset then
      Ok(if s.store[e.id].proof.value == e.proof then Accepted else Mismatched)
    else match e.check
      case Fine => Ok(Accepted)
      case Refused => Ok(Rejected)
      case _ => Err
  }

  predicate ProofTaken(s: State, e: Event)
    requires e.SubmitProof?
  {
    && e.sender && e.id in s.store && s.store[e.id].pre.Some?
    && (s.store[e.id].proof.None? || e.reset) && e.check.Fine?
  }

  /** What the processor does to one copy of its batch: a sector whose parameters
      could be built gets the id of the message, if one was pushed. */
  function Handled(c: Copy, built: bool, cid: Option<Cid>): Copy {
    var sent := built && cid.Some?;
    var msg := if !sent then c.sector.msg
               else if c.stage.Pre? then c.sector.msg.(preCommitCid := cid)
               else c.sector.msg.(commitCid := cid);
    c.(phase := Processed, sector := c.sector.(msg := msg))
  }

  /** The record after the write-back of a copy: its message info, all of it, with
      NeedSend cleared. */
  function WrittenBack(stored: Sector, copy: Sector): Sector {
    stored.(msg := copy.msg.(needSend := false))
  }

  predicate NeedsScan(sector: Sector) {
    sector.msg.needSend && sector.sealing
  }

  function StageOf(sector: Sector): Stage {
    if sector.msg.preCommitCid.None? then Pre else Pro
  }

  function Queue(s: State, order: seq<Id>): State {
    if order == [] then s
    else
      var n := |order| - 1;
      var before := Queue(s, order[..n]);
      if order[n] in before.store && NeedsScan(before.store[order[n]]) then
        Launch(before, StageOf(before.store[order[n]]), before.store[order[n]])
      else before
  }

  function Step(s: State, e: Event): State {
    match e
    case SubmitPre(id, info, _, _, _) =>
      if PreTaken(s, e) then
        var sector := WithPre(s.store[id], info);
        Launch(s.(store := s.store[id := sector]), Pre, sector)
      else s
    case SubmitProof(id, proof, _, _, _) =>
      if ProofTaken(s, e) then
        var sector := WithProof(s.store[id], proof);
        Launch(s.(store := s.store[id := sector]), Pro, sector)
      else s
    case Receive(t, sender) =>
      if t !in s.flight then s
      else if sender then s.(flight := s.flight[t := s.flight[t].(phase := Pending)])
      else s.(flight := s.flight - {t})
    case Process(batch, cid) =>
      s.(flight := map t | t in s.flight ::
                     if t in batch then Handled(s.flight[t], batch[t], cid) else s.flight[t],
         pushed := s.pushed + Pushes(s, batch, cid))
    case Update(t, ok) =>
      if t !in s.flight then s
      else
        var copy := s.flight[t].sector;
        var store := if ok && copy.id in s.store then s.store[copy.id := WrittenBack(s.store[copy.id], copy)] else s.store;
        s.(store := store, flight := s.flight - {t})
    case Crash => s.(flight := map[], scanned := false)
    case Scan(order) => Queue(s, order).(scanned := true)
  }

  function Pushes(s: State, batch: map<nat, bool>, cid: Option<Cid>): set<(Stage, Cid, Id)> {
    if cid.None? then {}
    else set t | t in batch && batch[t] && t in s.flight :: (s.flight[t].stage, cid.value, s.flight[t].sector.id)
  }

  /** The step can happen: copies move forward one phase at a time, a batch holds
      pending copies, and the scan walks every stored sector once. */
  ghost predicate Enabled(s: State, e: Event) {
    match e
    case SubmitPre(_, _, _, _, _) => true
    case SubmitProof(_, _, _, _, _) => true
    case Receive(t, _) => t in s.flight && s.flight[t].phase.Queued?
    case Process(batch, _) => forall t :: t in batch ==> t in s.flight && s.flight[t].phase.Pending?
    case Update(t, _) => t in s.flight && s.flight[t].phase.Processed?
    case Crash => true
    case Scan(order) =>
      && !s.scanned
      && (forall id :: id in s.store <==> id in order)
      && (forall i, j :: 0 <= i < j < |order| ==> order[i] != order[j])
  }

  ghost predicate Fresh(s: State) {
    && s.flight == map[] && s.pushed == {} && !s.scanned
    && (forall id :: id in s.store ==>
          s.store[id].id == id && s.store[id].pre.None? && s.store[id].proof.None?
          && s.store[id].msg == MessageInfo(None, None, false))
  }

  // ---------------------------------------------------------------------------
  // Submissions, by what is stored and what the check finds

  ghost predicate SamePre(a: PreInfo, b: PreInfo) {
    a.commD == b.commD && a.commR == b.commR && a.ticketEpoch == b.ticketEpoch && a.ticket == b.ticket
  }

  /** A pre-commit that is stored, and not to be reset, is only compared; any other is checked. */
  ghost predicate PreAnswered(s: State, e: Event, r: Result<Response>)
    requires e.SubmitPre?
  {
    var known := e.sender && e.id in s.store;
    var kept := known && s.store[e.id].pre.Some? && !e.reset;
    var checked := known && !kept;
    && (r == Err <==> !known || (checked && e.check.ApiError?))
    && (r == Ok(Mismatched) <==> (kept && !SamePre(s.store[e.id].pre.value, e.info)) || (checked && e.check.BadCommD?))
    && (r == Ok(Accepted) <==>
          (kept && SamePre(s.store[e.id].pre.value, e.info)) || (checked && (e.check.Fine? || e.check.OnChain?)))
    && (r == Ok(Rejected) <==> checked && e.check.Refused?)
  }

  /** The same for a proof, which is rejected without a stored pre-commit. */
  ghost predicate ProofAnswered(s: State, e: Event, r: Result<Response>)
    requires e.SubmitProof?
  {
    var known := e.sender && e.id in s.store;
    var due := known && s.store[e.id].pre.Some?;
    var kept := due && s.store[e.id].proof.Some? && !e.reset;
    var checked := due && !kept;
    && (r == Err <==> !known || (checked && !e.check.Fine? && !e.check.Refused?))
    && (r == Ok(Mismatched) <==> kept && s.store[e.id].proof.value != e.proof)
    && (r == Ok(Accepted) <==> (kept && s.store[e.id].proof.value == e.proof) || (checked && e.check.Fine?))
    && (r == Ok(Rejected) <==> (known && !due) || (checked && e.check.Refused?))
  }

  /** Only the record of `id` changes, and exactly one copy of it is queued. */
  ghost predicate Sends(s: State, t: State, stage: Stage, id: Id) {
    && t.store.Keys == s.store.Keys && id in t.store
    && (forall other :: other in s.store && other != id ==> t.store[other] == s.store[other])
    && t.next == s.next + 1
    && t.flight == s.flight[s.next := Copy(stage, Queued, t.store[id])]
    && t.scanned == s.scanned && t.pushed == s.pushed
  }

  /** What a submission answered with `r` leaves: the submitted pre-commit, waiting to be sent, if
      it is accepted after a good check; else everything as it was. */
  ghost predicate PreLeaves(s: State, e: Event, r: Result<Response>, t: State)
    requires e.SubmitPre? && PreAnswered(s, e, r)
  {
    if r == Ok(Accepted) && e.check.Fine? && (s.store[e.id].pre.None? || e.reset) then
      && Sends(s, t, Pre, e.id)
      && t.store[e.id].pre == Some(e.info)
      && t.store[e.id].msg == MessageInfo(None, s.store[e.id].msg.commitCid, true)
      && t.store[e.id].id == s.store[e.id].id && t.store[e.id].proof == s.store[e.id].proof
      && t.store[e.id].sealing == s.store[e.id].sealing
    else t == s
  }

  ghost predicate ProofLeaves(s: State, e: Event, r: Result<Response>, t: State)
    requires e.SubmitProof? && ProofAnswered(s, e, r)
  {
    if r == Ok(Accepted) && e.check.Fine? && (s.store[e.id].proof.None? || e.reset) then
      && Sends(s, t, Pro, e.id)
      && t.store[e.id].proof == Some(e.proof)
      && t.store[e.id].msg == MessageInfo(s.store[e.id].msg.preCommitCid, None, true)
      && t.store[e.id].id == s.store[e.id].id && t.store[e.id].pre == s.store[e.id].pre
      && t.store[e.id].sealing == s.store[e.id].sealing
    else t == s
  }

  /** The state after the first `n` steps of a run. */
  function Run(s: State, events: seq<Event>, n: nat): State
    requires n <= |events|
  {
    if n == 0 then s else Step(Run(s, events, n - 1), events[n - 1])
  }

  // ---------------------------------------------------------------------------
  // Polling

  datatype OnChainState = StatePending | StatePacked | StateLanded | StateFailed | StatePermFailed | StateShouldAbort

  datatype MessageState = OnChainMsg | NonceConflictMsg | FailedMsg | OtherMsg

  /** Success; out of gas or funds; anything else. */
  datatype ExitCode = ExitOk | ExitFunds | ExitOther

  /** What the message client knows about a message, with the exit code of its receipt. */
  datatype Message = Message(state: MessageState, confidence: nat, exit: Option<ExitCode>)

  /** What the chain says about a sector at the head: its info, none, or, for a pre-commit
      only, that the sector number is already in use; or the query fails. */
  datatype Lookup = Known | Missing | Allocated | Unavailable

  /** The answers one poll meets: the message, looked up by its id, the confidence the miner
      asks for, and the sector's info on chain. */
  datatype Poll = Poll(message: Result<Message>, confidence: nat, chain: Lookup)

  function HandleMessage(m: Message, confidence: nat): OnChainState {
    match m.state
    case FailedMsg => StateFailed
    case OtherMsg => StatePending
    case _ =>
      if m.confidence < confidence then StatePacked
      else match m.exit
        case None => StateFailed
        case Some(ExitOk) => StateLanded
        case Some(ExitFunds) => StateFailed
        case Some(ExitOther) => StatePermFailed
  }

  /** The answer about a stored message id, or about the want of one. */
  function PollId(cid: Option<Cid>, needSend: bool, poll: Poll): Result<OnChainState> {
    if cid.None? then Ok(if needSend then StatePending else StateFailed)
    else if poll.message.Err? then Err
    else
      var state := HandleMessage(poll.message.value, poll.confidence);
      if !state.StateLanded? then Ok(state)
      else match poll.chain
        case Known => Ok(StateLanded)
        case Missing => Ok(StateShouldAbort)
        case Allocated => Ok(StateShouldAbort)
        case Unavailable => Err
  }

  function PollPre(sector: Sector, poll: Poll): Result<OnChainState> {
    PollId(sector.msg.preCommitCid, sector.msg.needSend, poll)
  }

  /** For a proof every failing query is the same. */
  function ForProof(poll: Poll): Poll {
    if poll.chain.Allocated? then poll.(chain := Unavailable) else poll
  }

  function PollProof(sector: Sector, poll: Poll): Result<OnChainState> {
    PollId(sector.msg.commitCid, sector.msg.needSend, ForProof(poll))
  }

  /** The message is on chain, or replaced there, deep enough. */
  ghost predicate Included(m: Message, confidence: nat) {
    (m.state.OnChainMsg? || m.state.NonceConflictMsg?) && m.confidence >= confidence
  }

  /** ... and was executed successfully. */
  ghost predicate Succeeded(m: Message, confidence: nat) {
    Included(m, confidence) && m.exit == Some(ExitOk)
  }

  /** What each answer of a poll tells the worker about the stored id, the message and the chain. */
  ghost predicate Telling(cid: Option<Cid>, needSend: bool, poll: Poll, r: Result<OnChainState>) {
    var found := cid.Some? && poll.message.Ok?;
    && (r == Ok(StateLanded) <==> found && Succeeded(poll.message.value, poll.confidence) && poll.chain.Known?)
    && (r == Ok(StateShouldAbort) <==>
          found && Succeeded(poll.message.value, poll.confidence) && (poll.chain.Missing? || poll.chain.Allocated?))
    && (r == Ok(StatePermFailed) <==>
          found && Included(poll.message.value, poll.confidence) && poll.message.value.exit == Some(ExitOther))
    && (r == Ok(StatePacked) <==>
          found && Included(poll.message.value, 0) && !Included(poll.message.value, poll.confidence))
    && (r == Ok(StatePending) <==> (cid.None? && needSend) || (found && poll.message.value.state.OtherMsg?))
    && (r == Err <==>
          cid.Some? && (poll.message.Err?
                        || (Succeeded(poll.message.value, poll.confidence) && poll.chain.Unavailable?)))
  }
}
