/** What one event does to a Case's state and clarification count, exactly. */
module CaseProtocolSteps {
  import opened Options
  import opened CaseFacts
  import opened CaseFactLedger
  import opened CaseFactHistory
  import opened CaseRows
  import opened CaseSafety
  import opened CaseProtocol
  import opened CaseProtocolSafety

  // ---------- The two events of interest ----------

  predicate IsAsking(move: Move) {
    move.WriteQuestion? || move.RequestTarget? || move.TargetChosen?
  }

  /** A request puts a question to the customer: its asking move goes through and leaves the Case waiting. */
  ghost predicate AsksCustomer(s: State, e: Event, s': State, c: CaseId) {
    && e.Moves? && IsAsking(e.move)
    && e.id in s.requests && CaseOf(s.requests[e.id]) == Some(c)
    && s' != s && c in s'.cases && s'.cases[c].state == AwaitingCustomerInput
  }

  predicate HasLapsed(row: CaseRow, p: ProposalId, version: nat, now: int) {
    IsPending(row, p) && row.proposals[p].version == version && row.proposals[p].expiresAt <= now
  }

  /** The moves the published Case table has no edge for, told from the rows before the move. */
  predicate MovesBeyondTable(p: Progress, move: Move, c: CaseId, row: CaseRow) {
    match (p, move)
    case (Entered(Confirming(d, proposal, version)), Check(now)) => d == c && HasLapsed(row, proposal, version, now)
    case (Entered(Declining(d, proposal, version)), Check(now)) => d == c && HasLapsed(row, proposal, version, now)
    case (Entered(Retrying(d)), Admit) => d == c && row.state == AwaitingRetry && row.actions != map[]
    case (Checked(d, _), GateStillHolds(holds)) => d == c && !holds
    case (Proposing(d, _, _), WriteProposal(proposal, _)) =>
      d == c && row.state == AwaitingCustomerInput && proposal !in row.proposals
    case (FaultPending(d, _, fault), WriteFault) => d == c && fault == RetryableFault
    case _ => false
  }

  predicate BeyondTable(s: State, e: Event, c: CaseId)
    requires c in s.cases
  {
    e.Moves? && e.id in s.requests && MovesBeyondTable(s.requests[e.id], e.move, c, s.cases[c])
  }

  predicate LeavesTable(r: CaseRow, r': CaseRow) {
    r'.state != r.state && !CaseMayBecome(r.state, r'.state)
  }

  /** One Case's share of a move: what it costs, and whether the table has it. */
  ghost predicate RowStep(r: CaseRow, r': CaseRow, asks: bool, beyond: bool) {
    && r'.clarifications == r.clarifications + (if asks then 1 else 0)
    && (LeavesTable(r, r') <==> beyond)
  }

  ghost predicate Steps(s: State, id: RequestId, move: Move, s': State, c: CaseId)
    requires c in s.cases
  {
    && c in s'.cases
    && RowStep(s.cases[c], s'.cases[c], AsksCustomer(s, Moves(id, move), s', c), BeyondTable(s, Moves(id, move), c))
  }

  // ---------- Commits ----------

  /** A commit replaces its own Case's rows and no other's; one that raised replaces none. */
  lemma CommitRows(s: State, id: RequestId, c: CaseId, tx: Option<CaseRow>, next: Option<Progress>)
    requires c in s.cases && id in s.requests
    ensures Commit(s, id, c, tx, next).cases == if tx.Some? then s.cases[c := tx.value] else s.cases
    ensures tx == None || next == None ==> Commit(s, id, c, tx, next) != s && Commit(s, id, c, tx, next).lock == None
  {
    assert s.cases[c := s.cases[c]] == s.cases;
    assert id !in (s.requests - {id});
  }

  lemma CloseRow(row: CaseRow, outcome: CaseOutcome)
    requires RowsKept(row) && UnderInvestigation(row) && outcome in {ResolvedNoAction, HumanSupportRequired}
    ensures CloseCase(row, outcome).Some?
    ensures RowStep(row, CloseCase(row, outcome).value, false, false)
    ensures CloseCase(row, outcome).value.state == Closed && CloseCase(row, outcome).value.outcome == Some(outcome)
  {
  }

  // ---------- Moves of the lock holder on its own Case ----------

  /** Recording the fact question closes the Case, or leaves its state and count as they are and goes on to ask. */
  lemma AskFactRows(s: State, id: RequestId, c: CaseId, now: int)
    requires c in s.cases && id in s.requests && RowsKept(s.cases[c]) && UnderInvestigation(s.cases[c])
    ensures var s' := AskFact(s, id, c, now);
      && c in s'.cases && RowStep(s.cases[c], s'.cases[c], false, false)
      && s'.cases == s.cases[c := s'.cases[c]]
      && (|| s'.cases[c].state == Closed
          || (&& s'.cases[c].state == s.cases[c].state && s'.lock == s.lock
              && exists created :: s'.requests == s.requests[id := AskRecorded(c, created)]))
  {
    hide RecordQuestion, Load, Commit, CloseCase, RowsKept;
    CloseRow(s.cases[c], HumanSupportRequired);
    CommitRows(s, id, c, CloseCase(s.cases[c], HumanSupportRequired), None);
  }

  /** Only entering requests, proposals, gate checks and faults ever leave the table. */
  lemma StaysInTable(p: Progress, move: Move, c: CaseId, row: CaseRow)
    requires !p.Entered? && !p.Checked? && !p.Proposing? && !p.FaultPending?
    ensures !MovesBeyondTable(p, move, c, row)
  {
  }

  lemma OpenedSteps(s: State, id: RequestId, c: CaseId, move: Move, reader: Reader)
    requires StateKept(s) && s.lock == Some(id) && id in s.requests && s.requests[id] == Opened(c)
    ensures c in s.cases && Steps(s, id, move, CaseMoves(s, id, Opened(c), c, move, reader), c)
  {
    hide StateKept, Commit, RowsKept, AskTarget, WithFacts, Kept, MovesBeyondTable;
    HeldCase(s, id, Opened(c), c);
    var row := s.cases[c];
    StaysInTable(Opened(c), move, c, row);
    match move
    case RequestTarget =>
      AskTargetKeeps(row);
      CommitRows(s, id, c, AskTarget(row), None);
    case FactsMove(op) => FactsLeaveRow(row, op, reader);
    case _ =>
  }

  lemma FactsLeaveRow(row: CaseRow, op: Op, reader: Reader)
    ensures WithFacts(row, op, reader) == row.(facts := WithFacts(row, op, reader).facts)
  {
    hide Apply;
  }

  lemma ClarifyingSteps(s: State, id: RequestId, c: CaseId, move: Move, reader: Reader)
    requires StateKept(s) && s.lock == Some(id) && id in s.requests && s.requests[id] == Clarifying(c)
    ensures c in s.cases && Steps(s, id, move, CaseMoves(s, id, Clarifying(c), c, move, reader), c)
  {
    hide StateKept, Commit, RowsKept, WithFacts, Kept, CloseCase, MovesBeyondTable;
    HeldCase(s, id, Clarifying(c), c);
    var row := s.cases[c];
    StaysInTable(Clarifying(c), move, c, row);
    match move
    case StartLooking =>
      CloseRow(row, HumanSupportRequired);
      CommitRows(s, id, c, CloseCase(row, HumanSupportRequired), None);
    case FactsMove(op) => FactsLeaveRow(row, op, reader);
    case _ =>
  }

  lemma ChoosingSteps(s: State, id: RequestId, c: CaseId, move: Move, reader: Reader)
    requires StateKept(s) && s.lock == Some(id) && id in s.requests && s.requests[id] == ChoosingTarget(c)
    ensures c in s.cases && Steps(s, id, move, CaseMoves(s, id, ChoosingTarget(c), c, move, reader), c)
  {
    hide StateKept, Commit, RowsKept, AskTarget, Kept, MoveCase, MovesBeyondTable;
    HeldCase(s, id, ChoosingTarget(c), c);
    var row := s.cases[c];
    StaysInTable(ChoosingTarget(c), move, c, row);
    if move.TargetChosen? {
      AskTargetKeeps(row);
      MoveKeeps(row, Investigating);
      CommitRows(s, id, c, AskTarget(row), None);
      CommitRows(s, id, c, MoveCase(row, Investigating), Some(Looking(c, true)));
    }
  }

  lemma DecidedSteps(s: State, id: RequestId, c: CaseId, mayRevise: bool, gate: Gate)
    requires StateKept(s) && s.lock == Some(id) && id in s.requests && s.requests[id] == Looking(c, mayRevise)
    ensures c in s.cases && Steps(s, id, GateDecides(gate), Decided(s, id, c, mayRevise, gate), c)
  {
    hide StateKept, Commit, RowsKept, Kept, CloseCase, MoveCase, HighestVersion, PendingIds;
    HeldCase(s, id, Looking(c, mayRevise), c);
    var row := s.cases[c];
    match gate
    case RetryLater =>
      MoveKeeps(row, AwaitingRetry);
      CommitRows(s, id, c, MoveCase(row, AwaitingRetry), None);
    case CloseResolved =>
      CloseRow(row, ResolvedNoAction);
      CommitRows(s, id, c, CloseCase(row, ResolvedNoAction), None);
    case _ =>
      CloseRow(row, HumanSupportRequired);
      CommitRows(s, id, c, CloseCase(row, HumanSupportRequired), None);
  }

  lemma LookingSteps(s: State, id: RequestId, c: CaseId, mayRevise: bool, move: Move, reader: Reader)
    requires StateKept(s) && s.lock == Some(id) && id in s.requests && s.requests[id] == Looking(c, mayRevise)
    ensures c in s.cases && Steps(s, id, move, CaseMoves(s, id, Looking(c, mayRevise), c, move, reader), c)
  {
    hide StateKept, Commit, RowsKept, WithFacts, Kept, MoveCase, Decided, MovesBeyondTable;
    HeldCase(s, id, Looking(c, mayRevise), c);
    var row := s.cases[c];
    StaysInTable(Looking(c, mayRevise), move, c, row);
    match move
    case FactsMove(op) => FactsLeaveRow(row, op, reader);
    case Fails =>
      MoveKeeps(row, AwaitingRetry);
      CommitRows(s, id, c, MoveCase(row, AwaitingRetry), None);
    case GateDecides(gate) => DecidedSteps(s, id, c, mayRevise, gate);
    case _ =>
  }

  lemma ProposingSteps(s: State, id: RequestId, p: Progress, c: CaseId, move: Move, reader: Reader)
    requires StateKept(s) && s.lock == Some(id) && id in s.requests && s.requests[id] == p && p.Proposing?
        && p.caseId == c
    ensures c in s.cases && Steps(s, id, move, CaseMoves(s, id, p, c, move, reader), c)
  {
    hide StateKept, Commit, RowsKept, Kept, Propose;
    HeldCase(s, id, p, c);
    var row := s.cases[c];
    if move.WriteProposal? {
      ProposeKeeps(row, move.proposal, p.version, move.expiresAt);
      CommitRows(s, id, c, Propose(row, [], move.proposal, p.version, move.expiresAt), None);
    }
  }

  lemma AskingSteps(s: State, id: RequestId, p: Progress, c: CaseId, move: Move, reader: Reader)
    requires StateKept(s) && s.lock == Some(id) && id in s.requests && s.requests[id] == p && CaseOf(p) == Some(c)
    requires p.Asking? || p.AskRecorded?
    ensures c in s.cases && Steps(s, id, move, CaseMoves(s, id, p, c, move, reader), c)
  {
    hide StateKept, Commit, RowsKept, Kept, AskFact, AskCustomer;
    HeldCase(s, id, p, c);
    var row := s.cases[c];
    if p.Asking? && move.RecordQuestionNow? {
      AskFactRows(s, id, c, move.now);
    } else if p.AskRecorded? && move.WriteQuestion? {
      AskKeeps(row);
      CommitRows(s, id, c, AskCustomer(row, true), None);
    }
  }

  lemma CheckedSteps(s: State, id: RequestId, p: Progress, c: CaseId, move: Move, reader: Reader)
    requires StateKept(s) && s.lock == Some(id) && id in s.requests && s.requests[id] == p && p.Checked?
        && p.caseId == c
    ensures c in s.cases && Steps(s, id, move, CaseMoves(s, id, p, c, move, reader), c)
  {
    hide StateKept, Commit, RowsKept, Kept, LapseProposal, Confirm, Decline;
    HeldCase(s, id, p, c);
    var row := s.cases[c];
    PendingIsActive(row, p.proposal);
    if move.GateStillHolds? {
      LapseKeeps(row, p.proposal, Invalidated);
      CommitRows(s, id, c, LapseProposal(row, p.proposal, Invalidated), None);
    }
  }

  lemma ConfirmableSteps(s: State, id: RequestId, p: Progress, c: CaseId, move: Move, reader: Reader)
    requires StateKept(s) && s.lock == Some(id) && id in s.requests && s.requests[id] == p && p.Confirmable?
        && p.caseId == c
    ensures c in s.cases && Steps(s, id, move, CaseMoves(s, id, p, c, move, reader), c)
  {
    hide StateKept, Commit, RowsKept, Kept, LapseProposal, Confirm, Decline;
    HeldCase(s, id, p, c);
    var row := s.cases[c];
    PendingIsActive(row, p.proposal);
    if move.WriteConfirmation? {
      ConfirmKeeps(row, p.proposal);
      CommitRows(s, id, c, Confirm(row, p.proposal),
                 Some(Submitting(c, StableId(p.proposal, row.proposals[p.proposal].version))));
    }
  }

  lemma DeclinableSteps(s: State, id: RequestId, p: Progress, c: CaseId, move: Move, reader: Reader)
    requires StateKept(s) && s.lock == Some(id) && id in s.requests && s.requests[id] == p && p.Declinable?
        && p.caseId == c
    ensures c in s.cases && Steps(s, id, move, CaseMoves(s, id, p, c, move, reader), c)
  {
    hide StateKept, Commit, RowsKept, Kept, LapseProposal, Confirm, Decline;
    HeldCase(s, id, p, c);
    var row := s.cases[c];
    PendingIsActive(row, p.proposal);
    if move.WriteRefusal? {
      DeclineKeeps(row, p.proposal);
      CommitRows(s, id, c, Decline(row, p.proposal), None);
    }
  }

  lemma SubmittingSteps(s: State, id: RequestId, p: Progress, c: CaseId, move: Move, reader: Reader)
    requires StateKept(s) && s.lock == Some(id) && id in s.requests && s.requests[id] == p && p.Submitting?
        && p.caseId == c
    ensures c in s.cases && Steps(s, id, move, CaseMoves(s, id, p, c, move, reader), c)
  {
    hide StateKept, Commit, RowsKept, Kept, Submit;
    HeldCase(s, id, p, c);
    var row := s.cases[c];
    if move.SubmitNow? {
      SubmitKeeps(row, p.action, move.fault.Some?, move.scopeTaken);
      CommitRows(s, id, c, Submit(row, p.action, move.fault.Some?, move.scopeTaken),
                 Some(if move.fault.Some? then FaultPending(c, p.action, move.fault.value)
                     else ReadingBack(c, p.action)));
    }
  }

  lemma SubmittedSteps(s: State, id: RequestId, p: Progress, c: CaseId, move: Move, reader: Reader)
    requires StateKept(s) && s.lock == Some(id) && id in s.requests && s.requests[id] == p && CaseOf(p) == Some(c)
    requires p.ReadingBack? || p.FaultPending?
    ensures c in s.cases && Steps(s, id, move, CaseMoves(s, id, p, c, move, reader), c)
  {
    hide StateKept, Commit, RowsKept, Kept, ReadBack, RecordFault;
    HeldCase(s, id, p, c);
    var row := s.cases[c];
    if p.ReadingBack? {
      ReadBackKeeps(row, p.action);
      CommitRows(s, id, c, ReadBack(row, p.action, row.actions[p.action].key), None);
    } else {
      FaultRecorded(row, p.action, p.fault);
      CommitRows(s, id, c, RecordFault(row, p.action, p.fault), None);
    }
  }

  lemma CaseMovesStep(s: State, id: RequestId, p: Progress, c: CaseId, move: Move, reader: Reader)
    requires StateKept(s) && s.lock == Some(id) && id in s.requests && s.requests[id] == p && CaseOf(p) == Some(c)
    ensures c in s.cases && Steps(s, id, move, CaseMoves(s, id, p, c, move, reader), c)
  {
    hide CaseMoves, StateKept, Steps;
    match p
    case Opened(_) => OpenedSteps(s, id, c, move, reader);
    case Clarifying(_) => ClarifyingSteps(s, id, c, move, reader);
    case ChoosingTarget(_) => ChoosingSteps(s, id, c, move, reader);
    case Looking(_, mayRevise) => LookingSteps(s, id, c, mayRevise, move, reader);
    case Proposing(_, _, _) => ProposingSteps(s, id, p, c, move, reader);
    case Asking(_) => AskingSteps(s, id, p, c, move, reader);
    case AskRecorded(_, _) => AskingSteps(s, id, p, c, move, reader);
    case Checked(_, _) => CheckedSteps(s, id, p, c, move, reader);
    case Confirmable(_, _) => ConfirmableSteps(s, id, p, c, move, reader);
    case Declinable(_, _) => DeclinableSteps(s, id, p, c, move, reader);
    case Submitting(_, _) => SubmittingSteps(s, id, p, c, move, reader);
    case ReadingBack(_, _) => SubmittedSteps(s, id, p, c, move, reader);
    case FaultPending(_, _, _) => SubmittedSteps(s, id, p, c, move, reader);
  }

  // ---------- Moves that leave a Case alone ----------

  lemma OtherCasesStay(s: State, id: RequestId, p: Progress, c: CaseId, d: CaseId, move: Move, reader: Reader)
    requires c in s.cases && d in s.cases && d != c
    ensures var s' := CaseMoves(s, id, p, c, move, reader); d in s'.cases && s'.cases[d] == s.cases[d]
  {
    hide CloseCase, MoveCase, AskTarget, AskCustomer, LapseProposal, Confirm, Decline, Submit, ReadBack, RecordFault,
      Propose, RecordQuestion, Load, WithFacts, HighestVersion, PendingIds;
  }

  lemma SameRow(r: CaseRow)
    ensures RowStep(r, r, false, false)
  {
  }

  // ---------- Entering ----------

  lemma RetrySteps(s: State, id: RequestId, d: CaseId, c: CaseId)
    requires StateKept(s) && s.lock == Some(id) && id in s.requests && s.requests[id] == Entered(Retrying(d))
    requires c in s.cases && d in s.cases
    ensures Steps(s, id, Admit, AdmitRetry(s, id, d), c)
  {
    hide CasesKept, LockKept, PlanRetry, MoveCase, Commit, RowsKept, Kept;
    KeptCase(s, d);
    var row := s.cases[d];
    RetryGuardsNeverFire(row);
    if PlanRetry(row).ResumeAction? {
      ResumeKeeps(row, PlanRetry(row).action);
      CommitRows(s, id, d, MoveCase(row, ExecutingAction), Some(Submitting(d, PlanRetry(row).action)));
    } else if PlanRetry(row).Reinvestigate? {
      ReinvestigateKeeps(row);
      CommitRows(s, id, d, MoveCase(row, Investigating), Some(Looking(d, true)));
    }
  }

  /** Checking a proposal lets it lapse when it has expired, and changes no Case otherwise. */
  lemma CheckRows(s: State, id: RequestId, d: CaseId, p: ProposalId, version: nat, now: int, next: Progress)
    requires StateKept(s) && id in s.requests && d in s.cases
    ensures var s' := CheckProposal(s, id, d, p, version, now, next);
      if HasLapsed(s.cases[d], p, version, now) then
        && d in s'.cases && s'.cases == s.cases[d := s'.cases[d]]
        && LeavesTable(s.cases[d], s'.cases[d]) && s'.cases[d].clarifications == s.cases[d].clarifications
      else s'.cases == s.cases
  {
    hide StateKept, LapseProposal, Commit, CaseKept, RowsKept;
    StateCase(s, d);
    var row := s.cases[d];
    if IsPending(row, p) {
      KeptRows(row);
      PendingIsActive(row, p);
      LapseKeeps(row, p, Expired);
      CommitRows(s, id, d, LapseProposal(row, p, Expired), None);
    }
  }

  lemma CheckSteps(s: State, id: RequestId, d: CaseId, c: CaseId, p: ProposalId, version: nat, now: int, next: Progress)
    requires StateKept(s) && id in s.requests && c in s.cases && d in s.cases
    requires s.requests[id] == Entered(Confirming(d, p, version)) || s.requests[id] == Entered(Declining(d, p, version))
    ensures Steps(s, id, Check(now), CheckProposal(s, id, d, p, version, now, next), c)
  {
    hide StateKept, CheckProposal, HasLapsed, LeavesTable;
    CheckRows(s, id, d, p, version, now, next);
    Unmoved(s.cases[c]);
  }

  lemma Unmoved(row: CaseRow)
    ensures !LeavesTable(row, row)
  {
  }

  lemma StateCase(s: State, c: CaseId)
    requires StateKept(s) && c in s.cases
    ensures CaseKept(s.cases[c])
  {
    hide CaseKept;
  }

  lemma KeptRows(row: CaseRow)
    requires CaseKept(row)
    ensures RowsKept(row)
  {
  }

  lemma EnteredSteps(s: State, id: RequestId, kind: Kind, move: Move, c: CaseId)
    requires StateKept(s) && s.lock == Some(id) && id in s.requests && s.requests[id] == Entered(kind) && c in s.cases
    ensures Steps(s, id, move, EnteredMoves(s, id, kind, move), c)
  {
    hide StateKept, AdmitRetry, CheckProposal;
    match kind
    case Posting =>
    case Retrying(d) =>
      if d in s.cases && move == Admit {
        RetrySteps(s, id, d, c);
      }
    case Confirming(d, p, version) =>
      if d in s.cases && move.Check? {
        CheckSteps(s, id, d, c, p, version, move.now, Checked(d, p));
      }
    case Declining(d, p, version) =>
      if d in s.cases && move.Check? {
        CheckSteps(s, id, d, c, p, version, move.now, Declinable(d, p));
      }
  }

  lemma MovedSteps(s: State, id: RequestId, move: Move, reader: Reader, c: CaseId)
    requires StateKept(s) && id in s.requests && c in s.cases
    ensures Steps(s, id, move, Moved(s, id, move, reader), c)
  {
    hide StateKept, EnteredMoves, CaseMoves, RowStep, NewCase;
    var p := s.requests[id];
    SameRow(s.cases[c]);
    if HoldsLock(p) {
      HolderHasLock(s, id);
      if p.Entered? {
        EnteredSteps(s, id, p.kind, move, c);
      } else if CaseOf(p) == Some(c) {
        CaseMovesStep(s, id, p, c, move, reader);
      } else if CaseOf(p).Some? && CaseOf(p).value in s.cases {
        OtherCasesStay(s, id, p, CaseOf(p).value, c, move, reader);
      }
    }
  }

  /**
   One event, exactly: it raises a Case's clarification count by one if it asks the customer and
   leaves the count alone otherwise, and it leaves the published table exactly on the moves named above.
   */
  lemma NextSteps(s: State, e: Event, reader: Reader, c: CaseId)
    requires StateKept(s) && c in s.cases
    ensures var s' := Next(s, e, reader);
      && c in s'.cases && RowStep(s.cases[c], s'.cases[c], AsksCustomer(s, e, s', c), BeyondTable(s, e, c))
  {
    hide StateKept, Moved, RowStep;
    SameRow(s.cases[c]);
    if e.Moves? && e.id in s.requests {
      MovedSteps(s, e.id, e.move, reader, c);
    }
  }
}
