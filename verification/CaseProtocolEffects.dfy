/** The write protocol, event by event: the transactions bring about exactly the row changes they are meant to. */
module CaseProtocolEffects {
  import opened Options
  import opened CaseFacts
  import opened CaseFactLedger
  import opened CaseFactHistory
  import opened CaseRows
  import opened CaseSafety
  import opened CaseProtocol
  import opened CaseProtocolSafety
  import opened CaseProtocolSteps

  // ---------- What is meant to happen ----------

  function ClosedWith(row: CaseRow, outcome: CaseOutcome): CaseRow {
    row.(state := Closed, outcome := Some(outcome))
  }

  /** The customer is asked, or the Case is given up once both clarifications are spent. */
  function Asked(row: CaseRow): CaseRow {
    if row.clarifications >= CLARIFICATION_LIMIT then ClosedWith(row, HumanSupportRequired)
    else row.(state := AwaitingCustomerInput, clarifications := row.clarifications + 1)
  }

  function WithProposal(row: CaseRow, p: ProposalId, becomes: ProposalState): CaseRow
    requires p in row.proposals
  {
    row.(active := None, proposals := row.proposals[p := row.proposals[p].(state := becomes)])
  }

  function WithAction(row: CaseRow, a: StableId, becomes: ActionState): CaseRow
    requires a in row.actions
  {
    row.(actions := row.actions[a := row.actions[a].(state := becomes)])
  }

  /** What the gate's decision makes of a Case under investigation. */
  function GateMeans(row: CaseRow, mayRevise: bool, gate: Gate): CaseRow {
    match gate
    case RetryLater => row.(state := AwaitingRetry)
    case CloseForHuman => ClosedWith(row, HumanSupportRequired)
    case CloseResolved => ClosedWith(row, ResolvedNoAction)
    case Clarify => if row.clarifications >= CLARIFICATION_LIMIT then ClosedWith(row, HumanSupportRequired) else row
    case ReviseIssue => if mayRevise then row else ClosedWith(row, HumanSupportRequired)
    case ProposeTicket => row
  }

  function FaultMeans(row: CaseRow, a: StableId, fault: Fault): CaseRow
    requires a in row.actions
  {
    match fault
    case RetryableFault => WithAction(row, a, FailedRetryable).(state := AwaitingRetry)
    case TerminalFault => ClosedWith(WithAction(row, a, FailedTerminal), FailedOutcome)
    case UncertainFault => ClosedWith(WithAction(row, a, Uncertain), UncertainOutcome)
  }

  /** The question is new and may be asked. */
  predicate QuestionIsNew(row: CaseRow, now: int) {
    var asked := RecordQuestion(row.facts, LocationChecked, row.clarifications, now).1;
    Load(row.facts).Ok? && asked.Ok? && asked.value.created
  }

  /** The fact ledger moves on with what is posted, replied or read, a reply only while one is awaited. */
  function FactsMean(row: CaseRow, op: Op, reader: Reader): CaseRow {
    match op
    case Enquires(_, _, _) => row
    case Replies(awaitingInput, _, _) =>
      if awaitingInput == (row.state == AwaitingCustomerInput) then row.(facts := Apply(row.facts, op, reader)) else row
    case _ => row.(facts := Apply(row.facts, op, reader))
  }

  /** What a request's move on its own Case is meant to do to its rows. */
  function WorkMeans(p: Progress, move: Move, row: CaseRow, reader: Reader): CaseRow {
    match (p, move)
    case (Opened(_), FactsMove(op)) => FactsMean(row, op, reader)
    case (Clarifying(_), FactsMove(op)) => FactsMean(row, op, reader)
    case (Looking(_, _), FactsMove(op)) => FactsMean(row, op, reader)
    case (Opened(_), RequestTarget) => Asked(row)
    case (Clarifying(_), StartLooking) =>
      if row.clarifications >= CLARIFICATION_LIMIT then ClosedWith(row, HumanSupportRequired) else row
    case (ChoosingTarget(_), TargetChosen(chosen)) =>
      if row.clarifications >= CLARIFICATION_LIMIT || !chosen then Asked(row) else row.(state := Investigating)
    case (Looking(_, _), Fails) => row.(state := AwaitingRetry)
    case (Looking(_, mayRevise), GateDecides(gate)) => GateMeans(row, mayRevise, gate)
    case (Proposing(_, version, _), WriteProposal(proposal, expiresAt)) =>
      if proposal in row.proposals then row
      else row.(state := AwaitingCustomerConfirmation, active := Some(proposal),
                proposals := row.proposals[proposal := Proposal(version, Pending, expiresAt)])
    case (Asking(_), RecordQuestionNow(now)) =>
      if QuestionIsNew(row, now)
      then row.(facts := RecordQuestion(row.facts, LocationChecked, row.clarifications, now).0)
      else ClosedWith(row, HumanSupportRequired)
    case (AskRecorded(_, _), WriteQuestion) => Asked(row)
    case (Checked(_, proposal), GateStillHolds(holds)) =>
      if holds || proposal !in row.proposals then row
      else WithProposal(row, proposal, Invalidated).(state := AwaitingRetry)
    case (Confirmable(_, proposal), WriteConfirmation) =>
      if proposal !in row.proposals then row
      else
        var a := StableId(proposal, row.proposals[proposal].version);
        WithProposal(row, proposal, Confirmed).(state := ExecutingAction, actions := map[a := Action(Ready, a)])
    case (Declinable(_, proposal), WriteRefusal) =>
      if proposal !in row.proposals then row
      else ClosedWith(WithProposal(row, proposal, Declined), ResolvedNoAction)
    case (Submitting(_, a), SubmitNow(fault, scopeTaken)) =>
      if a !in row.actions || (fault == None && scopeTaken) then row
      else WithAction(row, a, Submitted).(tickets := if fault.Some? then row.tickets else map[a := Ticket(a)])
    case (ReadingBack(_, a), ReadBackNow) =>
      if a !in row.actions then row else ClosedWith(WithAction(row, a, Succeeded), TicketCreated)
    case (FaultPending(_, a, fault), WriteFault) => if a !in row.actions then row else FaultMeans(row, a, fault)
    case _ => row
  }

  /** What an entering request's first move is meant to do to a Case it names. */
  function EntryMeans(kind: Kind, move: Move, c: CaseId, row: CaseRow): CaseRow {
    match (kind, move)
    case (Retrying(d), Admit) =>
      if d != c || row.state != AwaitingRetry then row
      else row.(state := if row.actions == map[] then Investigating else ExecutingAction)
    case (Confirming(d, p, version), Check(now)) =>
      if d == c && HasLapsed(row, p, version, now) then WithProposal(row, p, Expired).(state := AwaitingRetry) else row
    case (Declining(d, p, version), Check(now)) =>
      if d == c && HasLapsed(row, p, version, now) then WithProposal(row, p, Expired).(state := AwaitingRetry) else row
    case _ => row
  }

  function MoveMeans(p: Progress, move: Move, c: CaseId, row: CaseRow, reader: Reader): CaseRow {
    if p.Entered? then EntryMeans(p.kind, move, c, row)
    else if CaseOf(p) == Some(c) then WorkMeans(p, move, row, reader)
    else row
  }

  /** What an event is meant to do to a Case. */
  function EventMeans(s: State, e: Event, c: CaseId, reader: Reader): CaseRow
    requires c in s.cases
  {
    if e.Moves? && e.id in s.requests then MoveMeans(s.requests[e.id], e.move, c, s.cases[c], reader) else s.cases[c]
  }

  // ---------- Moves of the lock holder on its own Case ----------

  ghost predicate DoesWhatIsMeant(s: State, p: Progress, c: CaseId, move: Move, reader: Reader, s': State)
    requires c in s.cases
  {
    c in s'.cases && s'.cases[c] == WorkMeans(p, move, s.cases[c], reader)
  }

  lemma CloseMeans(row: CaseRow, outcome: CaseOutcome)
    requires RowsKept(row) && UnderInvestigation(row) && outcome in {ResolvedNoAction, HumanSupportRequired}
    ensures CloseCase(row, outcome) == Some(ClosedWith(row, outcome))
  {
  }

  lemma AskTargetMeans(row: CaseRow)
    requires RowsKept(row) && UnderInvestigation(row)
    ensures AskTarget(row) == Some(Asked(row))
  {
  }

  lemma AskFactExactly(s: State, id: RequestId, c: CaseId, now: int)
    requires c in s.cases && id in s.requests && CaseKept(s.cases[c]) && UnderInvestigation(s.cases[c])
    ensures var row, s' := s.cases[c], AskFact(s, id, c, now);
      var (facts, asked) := RecordQuestion(row.facts, LocationChecked, row.clarifications, now);
      if Load(row.facts).Ok? && asked.Ok? && asked.value.created then
        s' == Continue(Write(s, c, row.(facts := facts)), id, AskRecorded(c, true))
      else
        c in s'.cases && s'.cases[c] == ClosedWith(row, HumanSupportRequired) && s'.lock == None
  {
    hide RecordQuestion, Load, Commit, CloseCase, RowsKept, Kept;
    var row := s.cases[c];
    CloseMeans(row, HumanSupportRequired);
    CommitRows(s, id, c, CloseCase(row, HumanSupportRequired), None);
    if RecordQuestion(row.facts, LocationChecked, row.clarifications, now).1.Ok?
      && !RecordQuestion(row.facts, LocationChecked, row.clarifications, now).1.value.created {
      RecordedQuestionIsNotOpen(row.facts, LocationChecked, row.clarifications, now);
      LoadedIsRecomputed(row.facts);
    }
  }

  lemma LoadedIsRecomputed(l: Ledger)
    ensures Load(l).Ok? ==> Recomputed(l) == Some(Load(l).value)
  {
  }

  lemma FactsMeanFacts(row: CaseRow, op: Op, reader: Reader)
    ensures WithFacts(row, op, reader) == FactsMean(row, op, reader)
  {
    hide Apply;
  }

  lemma OpenedMeans(s: State, id: RequestId, c: CaseId, move: Move, reader: Reader)
    requires Holds(s, id, Opened(c), c)
    ensures c in s.cases && DoesWhatIsMeant(s, Opened(c), c, move, reader, CaseMoves(s, id, Opened(c), c, move, reader))
  {
    hide StateKept, Commit, RowsKept, AskTarget, WithFacts, FactsMean, Kept;
    HeldCase(s, id, Opened(c), c);
    var row := s.cases[c];
    match move
    case RequestTarget =>
      AskTargetMeans(row);
      CommitRows(s, id, c, AskTarget(row), None);
    case FactsMove(op) => FactsMeanFacts(row, op, reader);
    case _ =>
  }

  lemma ClarifyingMeans(s: State, id: RequestId, c: CaseId, move: Move, reader: Reader)
    requires Holds(s, id, Clarifying(c), c)
    ensures c in s.cases && DoesWhatIsMeant(s, Clarifying(c), c, move, reader,
        CaseMoves(s, id, Clarifying(c), c, move, reader))
  {
    hide StateKept, Commit, RowsKept, WithFacts, FactsMean, Kept, CloseCase;
    HeldCase(s, id, Clarifying(c), c);
    var row := s.cases[c];
    match move
    case StartLooking =>
      CloseMeans(row, HumanSupportRequired);
      CommitRows(s, id, c, CloseCase(row, HumanSupportRequired), None);
    case FactsMove(op) => FactsMeanFacts(row, op, reader);
    case _ =>
  }

  lemma ChoosingMeans(s: State, id: RequestId, c: CaseId, move: Move, reader: Reader)
    requires Holds(s, id, ChoosingTarget(c), c)
    ensures c in s.cases
    ensures DoesWhatIsMeant(s, ChoosingTarget(c), c, move, reader, CaseMoves(s, id, ChoosingTarget(c), c, move, reader))
  {
    hide StateKept, Commit, RowsKept, AskTarget, Kept, MoveCase;
    HeldCase(s, id, ChoosingTarget(c), c);
    var row := s.cases[c];
    if move.TargetChosen? {
      AskTargetMeans(row);
      MoveKeeps(row, Investigating);
      CommitRows(s, id, c, AskTarget(row), None);
      CommitRows(s, id, c, MoveCase(row, Investigating), Some(Looking(c, true)));
    }
  }

  lemma DecidedMeans(s: State, id: RequestId, c: CaseId, mayRevise: bool, gate: Gate, reader: Reader)
    requires Holds(s, id, Looking(c, mayRevise), c)
    ensures c in s.cases && DoesWhatIsMeant(s, Looking(c, mayRevise), c, GateDecides(gate), reader,
        Decided(s, id, c, mayRevise, gate))
  {
    hide StateKept, Commit, RowsKept, Kept, CloseCase, MoveCase, HighestVersion, PendingIds;
    HeldCase(s, id, Looking(c, mayRevise), c);
    var row := s.cases[c];
    match gate
    case RetryLater =>
      MoveKeeps(row, AwaitingRetry);
      CommitRows(s, id, c, MoveCase(row, AwaitingRetry), None);
    case CloseResolved =>
      CloseMeans(row, ResolvedNoAction);
      CommitRows(s, id, c, CloseCase(row, ResolvedNoAction), None);
    case _ =>
      CloseMeans(row, HumanSupportRequired);
      CommitRows(s, id, c, CloseCase(row, HumanSupportRequired), None);
  }

  lemma LookingMeans(s: State, id: RequestId, c: CaseId, mayRevise: bool, move: Move, reader: Reader)
    requires Holds(s, id, Looking(c, mayRevise), c)
    ensures c in s.cases
    ensures DoesWhatIsMeant(s, Looking(c, mayRevise), c, move, reader,
        CaseMoves(s, id, Looking(c, mayRevise), c, move, reader))
  {
    hide StateKept, Commit, RowsKept, WithFacts, FactsMean, Kept, MoveCase, Decided;
    HeldCase(s, id, Looking(c, mayRevise), c);
    var row := s.cases[c];
    match move
    case FactsMove(op) => FactsMeanFacts(row, op, reader);
    case Fails =>
      MoveKeeps(row, AwaitingRetry);
      CommitRows(s, id, c, MoveCase(row, AwaitingRetry), None);
    case GateDecides(gate) => DecidedMeans(s, id, c, mayRevise, gate, reader);
    case _ =>
  }

  lemma ProposingMeans(s: State, id: RequestId, p: Progress, c: CaseId, move: Move, reader: Reader)
    requires Holds(s, id, p, c) && p.Proposing?
    ensures c in s.cases && DoesWhatIsMeant(s, p, c, move, reader, CaseMoves(s, id, p, c, move, reader))
  {
    hide StateKept, Commit, RowsKept, Kept, Propose;
    HeldCase(s, id, p, c);
    var row := s.cases[c];
    if move.WriteProposal? {
      ProposeKeeps(row, move.proposal, p.version, move.expiresAt);
      CommitRows(s, id, c, Propose(row, [], move.proposal, p.version, move.expiresAt), None);
    }
  }

  lemma AskingMeans(s: State, id: RequestId, p: Progress, c: CaseId, move: Move, reader: Reader)
    requires Holds(s, id, p, c) && (p.Asking? || p.AskRecorded?)
    ensures c in s.cases && DoesWhatIsMeant(s, p, c, move, reader, CaseMoves(s, id, p, c, move, reader))
  {
    hide StateKept, Commit, RowsKept, Kept, AskFact, AskCustomer, RecordQuestion, Load;
    HeldCase(s, id, p, c);
    var row := s.cases[c];
    if p.Asking? && move.RecordQuestionNow? {
      AskFactExactly(s, id, c, move.now);
    } else if p.AskRecorded? && move.WriteQuestion? {
      AskKeeps(row);
      CommitRows(s, id, c, AskCustomer(row, true), None);
    }
  }

  lemma CheckedMeans(s: State, id: RequestId, p: Progress, c: CaseId, move: Move, reader: Reader)
    requires Holds(s, id, p, c) && p.Checked?
    ensures c in s.cases && DoesWhatIsMeant(s, p, c, move, reader, CaseMoves(s, id, p, c, move, reader))
  {
    hide StateKept, Commit, RowsKept, Kept, LapseProposal;
    HeldCase(s, id, p, c);
    var row := s.cases[c];
    if move.GateStillHolds? {
      LapseKeeps(row, p.proposal, Invalidated);
      CommitRows(s, id, c, LapseProposal(row, p.proposal, Invalidated), None);
    }
  }

  lemma ConfirmableMeans(s: State, id: RequestId, p: Progress, c: CaseId, move: Move, reader: Reader)
    requires Holds(s, id, p, c) && p.Confirmable?
    ensures c in s.cases && DoesWhatIsMeant(s, p, c, move, reader, CaseMoves(s, id, p, c, move, reader))
  {
    hide StateKept, Commit, RowsKept, Kept, Confirm;
    HeldCase(s, id, p, c);
    var row := s.cases[c];
    if move.WriteConfirmation? {
      ConfirmKeeps(row, p.proposal);
      CommitRows(s, id, c, Confirm(row, p.proposal),
                 Some(Submitting(c, StableId(p.proposal, row.proposals[p.proposal].version))));
    }
  }

  lemma DeclinableMeans(s: State, id: RequestId, p: Progress, c: CaseId, move: Move, reader: Reader)
    requires Holds(s, id, p, c) && p.Declinable?
    ensures c in s.cases && DoesWhatIsMeant(s, p, c, move, reader, CaseMoves(s, id, p, c, move, reader))
  {
    hide StateKept, Commit, RowsKept, Kept, Decline;
    HeldCase(s, id, p, c);
    var row := s.cases[c];
    if move.WriteRefusal? {
      DeclineKeeps(row, p.proposal);
      CommitRows(s, id, c, Decline(row, p.proposal), None);
    }
  }

  lemma SubmittingMeans(s: State, id: RequestId, p: Progress, c: CaseId, move: Move, reader: Reader)
    requires Holds(s, id, p, c) && p.Submitting?
    ensures c in s.cases && DoesWhatIsMeant(s, p, c, move, reader, CaseMoves(s, id, p, c, move, reader))
  {
    hide StateKept, Commit, RowsKept, Kept, Submit;
    HeldCase(s, id, p, c);
    var row := s.cases[c];
    if move.SubmitNow? {
      SubmitKeeps(row, p.action, move.fault.Some?, move.scopeTaken);
      CommitRows(s, id, c, Submit(row, p.action, move.fault.Some?, move.scopeTaken),
                 Some(if move.fault.Some? then FaultPending(c, p.action, move.fault.value)
                      else ReadingBack(c, p.action)));
    }
  }

  lemma SubmittedMeans(s: State, id: RequestId, p: Progress, c: CaseId, move: Move, reader: Reader)
    requires Holds(s, id, p, c) && (p.ReadingBack? || p.FaultPending?)
    ensures c in s.cases && DoesWhatIsMeant(s, p, c, move, reader, CaseMoves(s, id, p, c, move, reader))
  {
    hide StateKept, Commit, RowsKept, Kept, ReadBack, RecordFault;
    HeldCase(s, id, p, c);
    var row := s.cases[c];
    if p.ReadingBack? {
      ReadBackKeeps(row, p.action);
      CommitRows(s, id, c, ReadBack(row, p.action, row.actions[p.action].key), None);
    } else {
      FaultRecorded(row, p.action, p.fault);
      CommitRows(s, id, c, RecordFault(row, p.action, p.fault), None);
    }
  }

  lemma CaseMovesMean(s: State, id: RequestId, p: Progress, c: CaseId, move: Move, reader: Reader)
    requires Holds(s, id, p, c)
    ensures c in s.cases && DoesWhatIsMeant(s, p, c, move, reader, CaseMoves(s, id, p, c, move, reader))
  {
    hide CaseMoves, StateKept, DoesWhatIsMeant;
    match p
    case Opened(_) => OpenedMeans(s, id, c, move, reader);
    case Clarifying(_) => ClarifyingMeans(s, id, c, move, reader);
    case ChoosingTarget(_) => ChoosingMeans(s, id, c, move, reader);
    case Looking(_, mayRevise) => LookingMeans(s, id, c, mayRevise, move, reader);
    case Proposing(_, _, _) => ProposingMeans(s, id, p, c, move, reader);
    case Asking(_) => AskingMeans(s, id, p, c, move, reader);
    case AskRecorded(_, _) => AskingMeans(s, id, p, c, move, reader);
    case Checked(_, _) => CheckedMeans(s, id, p, c, move, reader);
    case Confirmable(_, _) => ConfirmableMeans(s, id, p, c, move, reader);
    case Declinable(_, _) => DeclinableMeans(s, id, p, c, move, reader);
    case Submitting(_, _) => SubmittingMeans(s, id, p, c, move, reader);
    case ReadingBack(_, _) => SubmittedMeans(s, id, p, c, move, reader);
    case FaultPending(_, _, _) => SubmittedMeans(s, id, p, c, move, reader);
  }

  // ---------- Entering ----------

  lemma RetryMeans(s: State, id: RequestId, d: CaseId, c: CaseId)
    requires StateKept(s) && c in s.cases && d in s.cases && id in s.requests
    ensures c in AdmitRetry(s, id, d).cases
    ensures AdmitRetry(s, id, d).cases[c] == EntryMeans(Retrying(d), Admit, c, s.cases[c])
  {
    hide StateKept, PlanRetry, MoveCase, Commit, CaseKept, RowsKept;
    StateCase(s, d);
    KeptRows(s.cases[d]);
    var row := s.cases[d];
    RetryGuardsNeverFire(row);
    if PlanRetry(row).ResumeAction? {
      ResumeKeeps(row, PlanRetry(row).action);
      CommitRows(s, id, d, MoveCase(row, ExecutingAction), Some(Submitting(d, PlanRetry(row).action)));
    } else if PlanRetry(row).Reinvestigate? {
      ReinvestigateKeeps(row);
      CommitRows(s, id, d, MoveCase(row, Investigating), Some(Looking(d, true)));
    }
  }

  lemma CheckMeans(s: State, id: RequestId, d: CaseId, c: CaseId, p: ProposalId, version: nat, now: int, next: Progress)
    requires StateKept(s) && id in s.requests && c in s.cases && d in s.cases
    ensures var s' := CheckProposal(s, id, d, p, version, now, next);
      && c in s'.cases
      && s'.cases[c] == (if d == c && HasLapsed(s.cases[c], p, version, now)
                         then WithProposal(s.cases[c], p, Expired).(state := AwaitingRetry) else s.cases[c])
  {
    hide StateKept, LapseProposal, Commit, CaseKept, RowsKept;
    StateCase(s, d);
    var row := s.cases[d];
    if IsPending(row, p) {
      KeptRows(row);
      PendingIsActive(row, p);
      LapseKeeps(row, p, Expired);
      CommitRows(s, id, d, LapseProposal(row, p, Expired), None);
    }
  }

  lemma EnteredMeans(s: State, id: RequestId, kind: Kind, move: Move, c: CaseId)
    requires StateKept(s) && id in s.requests && c in s.cases
    ensures c in EnteredMoves(s, id, kind, move).cases
    ensures EnteredMoves(s, id, kind, move).cases[c] == EntryMeans(kind, move, c, s.cases[c])
  {
    hide StateKept, AdmitRetry, CheckProposal, HasLapsed;
    match kind
    case Posting =>
    case Retrying(d) =>
      if d in s.cases && move == Admit {
        RetryMeans(s, id, d, c);
      }
    case Confirming(d, p, version) =>
      if d in s.cases && move.Check? {
        CheckMeans(s, id, d, c, p, version, move.now, Checked(d, p));
      }
    case Declining(d, p, version) =>
      if d in s.cases && move.Check? {
        CheckMeans(s, id, d, c, p, version, move.now, Declinable(d, p));
      }
  }

  /** Every event does to every Case what it is meant to. */
  lemma NextMeans(s: State, e: Event, reader: Reader, c: CaseId)
    requires StateKept(s) && c in s.cases
    ensures c in Next(s, e, reader).cases && Next(s, e, reader).cases[c] == EventMeans(s, e, c, reader)
  {
    hide StateKept, EnteredMoves, CaseMoves, EntryMeans, WorkMeans, NewCase;
    if e.Moves? && e.id in s.requests && HoldsLock(s.requests[e.id]) {
      var p := s.requests[e.id];
      HolderHasLock(s, e.id);
      if p.Entered? {
        EnteredMeans(s, e.id, p.kind, e.move, c);
      } else if CaseOf(p) == Some(c) {
        CaseMovesMean(s, e.id, p, c, e.move, reader);
      } else if CaseOf(p).Some? && CaseOf(p).value in s.cases {
        OtherCasesStay(s, e.id, p, CaseOf(p).value, c, e.move, reader);
      }
    }
  }
}
