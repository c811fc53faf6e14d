/**
 The write protocol of one conversation: requests that queue for the conversation's lock, the
 transactions each of them commits while it holds the lock, and crashes between any two of those.

 Every event carries the choices the outside makes at that point: what the customer wants, what the
 gate decides, which faults are scripted, what the time is. An event that does not apply changes nothing.
 */
module CaseProtocol {
  import opened Options
  import opened CaseFacts
  import opened CaseFactLedger
  import opened CaseFactHistory
  import opened CaseRows

  type CaseId = string
  type RequestId = nat

  datatype Kind =
    | Posting
    | Confirming(caseId: CaseId, proposal: ProposalId, version: nat)
    | Declining(caseId: CaseId, proposal: ProposalId, version: nat)
    | Retrying(caseId: CaseId)

  /** How far a request has come; the local variables it carries between transactions are its arguments. */
  datatype Progress =
    | Waiting(kind: Kind)
    | Entered(kind: Kind)
    | Triaging
    | Opened(caseId: CaseId)
    | Clarifying(caseId: CaseId)
    | ChoosingTarget(caseId: CaseId)
    | Looking(caseId: CaseId, mayRevise: bool)
    | Proposing(caseId: CaseId, version: nat, pending: seq<ProposalId>)
    | Asking(caseId: CaseId)
    | AskRecorded(caseId: CaseId, created: bool)
    | Checked(caseId: CaseId, proposal: ProposalId)
    | Confirmable(caseId: CaseId, proposal: ProposalId)
    | Declinable(caseId: CaseId, proposal: ProposalId)
    | Submitting(caseId: CaseId, action: StableId)
    | ReadingBack(caseId: CaseId, action: StableId)
    | FaultPending(caseId: CaseId, action: StableId, fault: Fault)

  predicate HoldsLock(p: Progress) {
    !p.Waiting?
  }

  datatype State = State(
    cases: map<CaseId, CaseRow>,
    active: Option<CaseId>,
    lock: Option<RequestId>,
    requests: map<RequestId, Progress>)

  const START := State(map[], None, None, map[])

  datatype Gate = ProposeTicket | Clarify | RetryLater | CloseForHuman | CloseResolved | ReviseIssue

  datatype Move =
    | Admit
    | TriageEndsWithoutCase
    | OpenCase(newCase: CaseId)
    | RequestTarget
    | StartLooking
    | ChooseTarget
    | TargetChosen(chosen: bool)
    | FactsMove(op: Op)
    | Fails
    | GateDecides(gate: Gate)
    | WriteProposal(proposal: ProposalId, expiresAt: int)
    | RecordQuestionNow(now: int)
    | WriteQuestion
    | Check(now: int)
    | GateStillHolds(holds: bool)
    | WriteConfirmation
    | WriteRefusal
    | SubmitNow(fault: Option<Fault>, scopeTaken: bool)
    | ReadBackNow
    | WriteFault

  datatype Event =
    | Arrives(id: RequestId, kind: Kind)
    | Acquires(id: RequestId)
    | Moves(id: RequestId, move: Move)
    | Aborts(id: RequestId)
    | ProcessRestarts

  // ---------- Small updates ----------

  function Continue(s: State, id: RequestId, p: Progress): State {
    s.(requests := s.requests[id := p])
  }

  /** The request returns or raises: it leaves, and with it the lock. */
  function Finish(s: State, id: RequestId): State {
    s.(requests := s.requests - {id}, lock := None)
  }

  /** Closing a Case also ends it as the conversation's active Case. */
  function Write(s: State, c: CaseId, row: CaseRow): State {
    s.(cases := s.cases[c := row], active := if row.state == Closed && s.active == Some(c) then None else s.active)
  }

  /** Commit and go on; a transaction that raised ends the request and writes nothing. */
  function Commit(s: State, id: RequestId, c: CaseId, tx: Option<CaseRow>, next: Option<Progress>): State {
    match tx
    case None => Finish(s, id)
    case Some(row) =>
      match next
      case None => Finish(Write(s, c, row), id)
      case Some(p) => Continue(Write(s, c, row), id, p)
  }

  /** The Case's rows, with the fact ledger moved on; a question is only ever recorded by RecordQuestionNow. */
  function WithFacts(row: CaseRow, op: Op, reader: Reader): CaseRow {
    if op.Enquires? || (op.Replies? && op.awaitingInput != (row.state == AwaitingCustomerInput)) then row
    else row.(facts := Apply(row.facts, op, reader))
  }

  ghost function HighestVersion(proposals: map<ProposalId, Proposal>, keys: set<ProposalId>): (v: nat)
    requires keys <= proposals.Keys
    ensures forall p :: p in keys ==> proposals[p].version <= v
    decreases |keys|
  {
    if keys == {} then 0
    else
      var p :| p in keys;
      var rest := HighestVersion(proposals, keys - {p});
      if rest < proposals[p].version then proposals[p].version else rest
  }

  ghost function Listed(keys: set<ProposalId>): (s: seq<ProposalId>)
    ensures forall p :: p in s <==> p in keys
    decreases |keys|
  {
    if keys == {} then []
    else
      var p :| p in keys;
      [p] + Listed(keys - {p})
  }

  ghost function PendingIds(row: CaseRow): seq<ProposalId> {
    Listed(set p | p in row.proposals && row.proposals[p].state == Pending)
  }

  // ---------- What each request does next ----------

  function AdmitMessage(s: State, id: RequestId): State {
    if s.active == None || s.active.value !in s.cases then Continue(s, id, Triaging)
    else if s.cases[s.active.value].state != AwaitingCustomerInput then Finish(s, id)
    else Continue(s, id, Clarifying(s.active.value))
  }

  ghost function AdmitRetry(s: State, id: RequestId, c: CaseId): State
    requires c in s.cases
  {
    var row := s.cases[c];
    match PlanRetry(row)
    case ResumeAction(a) => Commit(s, id, c, MoveCase(row, ExecutingAction), Some(Submitting(c, a)))
    case Reinvestigate => Commit(s, id, c, MoveCase(row, Investigating), Some(Looking(c, true)))
    case _ => Finish(s, id)
  }

  /** Checks a proposal before it is confirmed or declined; an expired one lapses there and then. */
  function CheckProposal(s: State, id: RequestId, c: CaseId, p: ProposalId, version: nat, now: int,
      next: Progress): State
    requires c in s.cases
  {
    var row := s.cases[c];
    if p !in row.proposals then Finish(s, id)
    else match ValidatePending(row, p, version, now)
      case None => Continue(s, id, next)
      case Some(ProposalExpired) => Commit(s, id, c, LapseProposal(row, p, Expired), None)
      case Some(_) => Finish(s, id)
  }

  ghost function EnteredMoves(s: State, id: RequestId, kind: Kind, move: Move): State {
    match kind
    case Posting => if move == Admit then AdmitMessage(s, id) else s
    case Retrying(c) => if c !in s.cases then Finish(s, id) else if move == Admit then AdmitRetry(s, id, c) else s
    case Confirming(c, p, version) =>
      if c !in s.cases then Finish(s, id)
      else if move.Check? then CheckProposal(s, id, c, p, version, move.now, Checked(c, p)) else s
    case Declining(c, p, version) =>
      if c !in s.cases then Finish(s, id)
      else if move.Check? then CheckProposal(s, id, c, p, version, move.now, Declinable(c, p)) else s
  }

  ghost function Decided(s: State, id: RequestId, c: CaseId, mayRevise: bool, gate: Gate): State
    requires c in s.cases
  {
    var row := s.cases[c];
    match gate
    case ProposeTicket =>
      Continue(s, id, Proposing(c, HighestVersion(row.proposals, row.proposals.Keys) + 1, PendingIds(row)))
    case Clarify =>
      if row.clarifications >= CLARIFICATION_LIMIT then Commit(s, id, c, CloseCase(row, HumanSupportRequired), None)
      else Continue(s, id, Asking(c))
    case RetryLater => Commit(s, id, c, MoveCase(row, AwaitingRetry), None)
    case CloseForHuman => Commit(s, id, c, CloseCase(row, HumanSupportRequired), None)
    case CloseResolved => Commit(s, id, c, CloseCase(row, ResolvedNoAction), None)
    case ReviseIssue =>
      if mayRevise then Continue(s, id, Looking(c, false))
          else Commit(s, id, c, CloseCase(row, HumanSupportRequired), None)
  }

  /** Record the fact question; a question that cannot be asked, or is no longer open, closes the Case instead. */
  function AskFact(s: State, id: RequestId, c: CaseId, now: int): State
    requires c in s.cases
  {
    var row := s.cases[c];
    var before := Load(row.facts);
    var (facts, asked) := RecordQuestion(row.facts, LocationChecked, row.clarifications, now);
    if before.Refused? || asked.Refused? then Commit(s, id, c, CloseCase(row, HumanSupportRequired), None)
    else if !asked.value.created
            && before.value.Asked(LocationChecked).status !in {Unanswered, ConflictRequiresClarification} then
      Commit(s, id, c, CloseCase(row, HumanSupportRequired), None)
    else Continue(Write(s, c, row.(facts := facts)), id, AskRecorded(c, asked.value.created))
  }

  ghost function CaseMoves(s: State, id: RequestId, p: Progress, c: CaseId, move: Move, reader: Reader): State
    requires c in s.cases
  {
    var row := s.cases[c];
    match (p, move)
    case (Opened(_), RequestTarget) => Commit(s, id, c, AskTarget(row), None)
    case (Opened(_), StartLooking) => Continue(s, id, Looking(c, true))
    case (Opened(_), FactsMove(op)) => Write(s, c, WithFacts(row, op, reader))
    case (Clarifying(_), ChooseTarget) => Continue(s, id, ChoosingTarget(c))
    case (Clarifying(_), StartLooking) =>
      if row.clarifications >= CLARIFICATION_LIMIT then Commit(s, id, c, CloseCase(row, HumanSupportRequired), None)
      else Continue(s, id, Looking(c, true))
    case (Clarifying(_), FactsMove(op)) => Write(s, c, WithFacts(row, op, reader))
    case (ChoosingTarget(_), TargetChosen(chosen)) =>
      if row.clarifications >= CLARIFICATION_LIMIT || !chosen then Commit(s, id, c, AskTarget(row), None)
      else Commit(s, id, c, MoveCase(row, Investigating), Some(Looking(c, true)))
    case (Looking(_, _), FactsMove(op)) => Write(s, c, WithFacts(row, op, reader))
    case (Looking(_, _), Fails) => Commit(s, id, c, MoveCase(row, AwaitingRetry), None)
    case (Looking(_, mayRevise), GateDecides(gate)) => Decided(s, id, c, mayRevise, gate)
    case (Proposing(_, version, pending), WriteProposal(proposal, expiresAt)) =>
      Commit(s, id, c, Propose(row, pending, proposal, version, expiresAt), None)
    case (Asking(_), RecordQuestionNow(now)) => AskFact(s, id, c, now)
    case (AskRecorded(_, created), WriteQuestion) => Commit(s, id, c, AskCustomer(row, created), None)
    case (Checked(_, proposal), GateStillHolds(holds)) =>
      if holds then Continue(s, id, Confirmable(c, proposal))
          else Commit(s, id, c, LapseProposal(row, proposal, Invalidated), None)
    case (Confirmable(_, proposal), WriteConfirmation) =>
      if proposal !in row.proposals then Finish(s, id)
      else Commit(s, id, c, Confirm(row, proposal),
          Some(Submitting(c, StableId(proposal, row.proposals[proposal].version))))
    case (Declinable(_, proposal), WriteRefusal) => Commit(s, id, c, Decline(row, proposal), None)
    case (Submitting(_, a), SubmitNow(fault, scopeTaken)) =>
      Commit(s, id, c, Submit(row, a, fault.Some?, scopeTaken),
             Some(if fault.Some? then FaultPending(c, a, fault.value) else ReadingBack(c, a)))
    case (ReadingBack(_, a), ReadBackNow) => if a !in row.actions then Finish(s, id)
      else Commit(s, id, c, ReadBack(row, a, row.actions[a].key), None)
    case (FaultPending(_, a, fault), WriteFault) => Commit(s, id, c, RecordFault(row, a, fault), None)
    case _ => s
  }

  function CaseOf(p: Progress): Option<CaseId> {
    match p
    case Waiting(_) => None
    case Entered(_) => None
    case Triaging => None
    case _ => Some(p.caseId)
  }

  ghost function Moved(s: State, id: RequestId, move: Move, reader: Reader): State
    requires id in s.requests
  {
    var p := s.requests[id];
    match p
    case Waiting(_) => s
    case Entered(kind) => EnteredMoves(s, id, kind, move)
    case Triaging =>
      if move == TriageEndsWithoutCase then Finish(s, id)
      else if !move.OpenCase? then s
      else if move.newCase in s.cases then Finish(s, id)
      else Continue(s.(cases := s.cases[move.newCase := NewCase(move.newCase)], active := Some(move.newCase)), id,
          Opened(move.newCase))
    case _ => if p.caseId in s.cases then CaseMoves(s, id, p, p.caseId, move, reader) else Finish(s, id)
  }

  ghost function Next(s: State, e: Event, reader: Reader): State {
    match e
    case Arrives(id, kind) => if id in s.requests then s else Continue(s, id, Waiting(kind))
    case Acquires(id) =>
      if id in s.requests && s.requests[id].Waiting? && s.lock == None
      then Continue(s.(lock := Some(id)), id, Entered(s.requests[id].kind)) else s
    case Moves(id, move) => if id in s.requests then Moved(s, id, move, reader) else s
    case Aborts(id) =>
      if id !in s.requests then s
      else if HoldsLock(s.requests[id]) then Finish(s, id)
      else s.(requests := s.requests - {id})
    case ProcessRestarts => s.(lock := None, requests := map[])
  }

  /** The state that a list of events leads to. */
  ghost function After(s: State, events: seq<Event>, reader: Reader): State
    decreases |events|
  {
    if events == [] then s else After(Next(s, events[0], reader), events[1..], reader)
  }

  /** A run from the empty conversation: each state follows from the one before by one event. */
  ghost predicate IsRun(run: seq<State>, events: seq<Event>, reader: Reader) {
    && |run| == |events| + 1 && run[0] == START
    && forall i {:trigger events[i]} :: 0 <= i < |events| ==> run[i + 1] == Next(run[i], events[i], reader)
  }
}
