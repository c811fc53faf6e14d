/** What every transaction keeps true of a Case's rows. */
module CaseSafety {
  import opened Options
  import opened CaseFactLedger
  import opened CaseFactHistory
  import opened CaseRows

  /** Where a Case can be while its action is in a given state. */
  predicate Lifecycle(row: CaseRow, action: ActionState) {
    match action
    case Ready => row.state == ExecutingAction
    case Submitted => row.state == ExecutingAction
    case FailedRetryable => row.state == AwaitingRetry || row.state == ExecutingAction
    case Succeeded => row.outcome == Some(TicketCreated)
    case FailedTerminal => row.outcome == Some(FailedOutcome)
    case Uncertain => row.outcome == Some(UncertainOutcome)
  }

  predicate ActionOutcome(outcome: Option<CaseOutcome>) {
    outcome in {Some(TicketCreated), Some(FailedOutcome), Some(UncertainOutcome)}
  }

  ghost predicate ProposalsKept(row: CaseRow) {
    && (row.state == AwaitingCustomerConfirmation <==> row.active.Some?)
    && (forall p :: p in row.proposals ==> (row.proposals[p].state == Pending <==> row.active == Some(p)))
    && (row.active.Some? ==> row.active.value in row.proposals)
  }

  ghost predicate ActionsKept(row: CaseRow) {
    && (forall a, b :: a in row.actions && b in row.actions ==> a == b)
    && (forall a :: a in row.actions ==>
          && a.proposal in row.proposals && row.proposals[a.proposal]
               == Proposal(a.version, Confirmed, row.proposals[a.proposal].expiresAt)
          && row.actions[a].key == a && Lifecycle(row, row.actions[a].state))
    && (forall p :: p in row.proposals && row.proposals[p].state == Confirmed ==>
         StableId(p, row.proposals[p].version) in row.actions)
    && (row.actions == map[] ==> row.state != ExecutingAction && !ActionOutcome(row.outcome))
  }

  ghost predicate TicketsKept(row: CaseRow) {
    && (forall k :: k in row.tickets ==>
          k in row.actions && row.actions[k].state in {Submitted, Succeeded} && row.tickets[k] == Ticket(k))
    && (forall a :: a in row.actions && row.actions[a].state == Succeeded ==> a in row.tickets)
  }

  ghost predicate RowsKept(row: CaseRow) {
    && (row.state == Closed <==> row.outcome.Some?)
    && row.clarifications <= CLARIFICATION_LIMIT
    && ProposalsKept(row) && ActionsKept(row) && TicketsKept(row)
  }

  ghost predicate CaseKept(row: CaseRow) {
    RowsKept(row) && Kept(row.facts)
  }

  /** The Case is under investigation: no proposal pending, no action yet. */
  predicate UnderInvestigation(row: CaseRow) {
    row.state == Investigating || row.state == AwaitingCustomerInput
  }

  lemma NoActionYet(row: CaseRow)
    requires RowsKept(row) && (UnderInvestigation(row) || row.state == AwaitingCustomerConfirmation)
    ensures row.actions == map[] && row.tickets == map[]
  {
    forall a ensures a !in row.actions {
    }
    forall k ensures k !in row.tickets {
    }
  }

  // ---------- Transactions of an investigation ----------

  lemma NewCaseKept(caseId: string)
    ensures CaseKept(NewCase(caseId)) && UnderInvestigation(NewCase(caseId))
  {
    NewLedgerKept(caseId);
  }

  lemma MoveKeeps(row: CaseRow, next: CaseState)
    requires RowsKept(row) && UnderInvestigation(row) && next in {Investigating, AwaitingRetry}
    ensures MoveCase(row, next).Some? && RowsKept(MoveCase(row, next).value)
    ensures MoveCase(row, next).value == row.(state := next)
  {
    NoActionYet(row);
  }

  lemma CloseKeeps(row: CaseRow, outcome: CaseOutcome)
    requires RowsKept(row) && UnderInvestigation(row) && outcome in {ResolvedNoAction, HumanSupportRequired}
    ensures CloseCase(row, outcome).Some? && RowsKept(CloseCase(row, outcome).value)
  {
    NoActionYet(row);
  }

  lemma AskKeeps(row: CaseRow)
    requires RowsKept(row) && UnderInvestigation(row) && row.clarifications < CLARIFICATION_LIMIT
    ensures AskCustomer(row, true).Some? && RowsKept(AskCustomer(row, true).value)
    ensures AskCustomer(row, true).value == row.(state := AwaitingCustomerInput,
        clarifications := row.clarifications + 1)
  {
    NoActionYet(row);
  }

  lemma AskTargetKeeps(row: CaseRow)
    requires RowsKept(row) && UnderInvestigation(row)
    ensures AskTarget(row).Some? && RowsKept(AskTarget(row).value)
    ensures var r := AskTarget(row).value;
      if row.clarifications < CLARIFICATION_LIMIT then
          r == row.(state := AwaitingCustomerInput, clarifications := row.clarifications + 1)
      else r.state == Closed && r.clarifications == row.clarifications
  {
    NoActionYet(row);
  }

  /** Nothing is pending when a proposal is written, so nothing is ever superseded. */
  lemma ProposeKeeps(row: CaseRow, p: ProposalId, version: nat, expiresAt: int)
    requires RowsKept(row) && UnderInvestigation(row)
    ensures Propose(row, [], p, version, expiresAt).Some? ==> RowsKept(Propose(row, [], p, version, expiresAt).value)
    ensures Propose(row, [], p, version, expiresAt).Some? <==>
      p !in row.proposals && forall q :: q in row.proposals ==> row.proposals[q].version != version
    ensures Propose(row, [], p, version, expiresAt).Some? ==>
      Propose(row, [], p, version, expiresAt).value
      == row.(state := AwaitingCustomerConfirmation, active := Some(p),
          proposals := row.proposals[p := Proposal(version, Pending, expiresAt)])
  {
    NoActionYet(row);
  }

  // ---------- Transactions on a pending proposal ----------

  predicate IsPending(row: CaseRow, p: ProposalId) {
    p in row.proposals && row.proposals[p].state == Pending
  }

  lemma PendingIsActive(row: CaseRow, p: ProposalId)
    requires RowsKept(row) && IsPending(row, p)
    ensures row.state == AwaitingCustomerConfirmation && row.active == Some(p)
  {
  }

  lemma LapseKeeps(row: CaseRow, p: ProposalId, lapse: ProposalState)
    requires RowsKept(row) && IsPending(row, p) && lapse in {Expired, Invalidated}
    ensures LapseProposal(row, p, lapse).Some? && RowsKept(LapseProposal(row, p, lapse).value)
    ensures LapseProposal(row, p, lapse).value
         == row.(state := AwaitingRetry, active := None,
             proposals := row.proposals[p := row.proposals[p].(state := lapse)])
  {
    NoActionYet(row);
  }

  lemma DeclineKeeps(row: CaseRow, p: ProposalId)
    requires RowsKept(row) && IsPending(row, p)
    ensures Decline(row, p).Some? && RowsKept(Decline(row, p).value)
    ensures Decline(row, p).value
         == row.(state := Closed, outcome := Some(ResolvedNoAction), active := None,
             proposals := row.proposals[p := row.proposals[p].(state := Declined)])
  {
    NoActionYet(row);
  }

  lemma ConfirmKeeps(row: CaseRow, p: ProposalId)
    requires RowsKept(row) && IsPending(row, p)
    ensures Confirm(row, p).Some? && RowsKept(Confirm(row, p).value)
    ensures var id := StableId(p, row.proposals[p].version);
      Confirm(row, p).value
      == row.(state := ExecutingAction, active := None,
          proposals := row.proposals[p := row.proposals[p].(state := Confirmed)],
              actions := map[id := Action(Ready, id)])
  {
    NoActionYet(row);
  }

  // ---------- Transactions on an action ----------

  /** The action is about to be submitted, for the first time or again. */
  predicate Submittable(row: CaseRow, a: StableId) {
    row.state == ExecutingAction && a in row.actions && row.actions[a].state in {Ready, FailedRetryable}
  }

  predicate SubmittedNow(row: CaseRow, a: StableId, ticketed: bool) {
    row.state == ExecutingAction && a in row.actions && row.actions[a].state == Submitted
        && (a in row.tickets) == ticketed
  }

  lemma OnlyAction(row: CaseRow, a: StableId)
    requires RowsKept(row) && a in row.actions
    ensures row.actions == map[a := row.actions[a]]
    ensures row.actions[a].key == a
  {
  }

  /** Scripted faults leave no ticket; otherwise the one ticket carries the action's own key. */
  lemma SubmitKeeps(row: CaseRow, a: StableId, faulted: bool, scopeTaken: bool)
    requires RowsKept(row) && Submittable(row, a)
    ensures Submit(row, a, faulted, scopeTaken).Some? <==> faulted || !scopeTaken
    ensures Submit(row, a, faulted, scopeTaken).Some? ==>
      var r := Submit(row, a, faulted, scopeTaken).value;
      && RowsKept(r) && SubmittedNow(r, a, !faulted)
      && r == row.(actions := row.actions[a := row.actions[a].(state := Submitted)], tickets := if faulted then
           row.tickets else map[a := Ticket(a)])
  {
    OnlyAction(row, a);
    assert row.tickets == map[] by {
      forall k ensures k !in row.tickets {
      }
    }
  }

  /** Once a ticket is written the read-back finds it, and the Case closes on it. */
  lemma ReadBackKeeps(row: CaseRow, a: StableId)
    requires RowsKept(row) && SubmittedNow(row, a, true)
    ensures var r := ReadBack(row, a, row.actions[a].key);
      && r.Some? && RowsKept(r.value)
      && r.value == row.(state := Closed, outcome := Some(TicketCreated),
           actions := row.actions[a := row.actions[a].(state := Succeeded)])
  {
    OnlyAction(row, a);
  }

  function AfterFault(row: CaseRow, a: StableId, fault: Fault): CaseRow
    requires a in row.actions
  {
    row.(state := if fault == RetryableFault then AwaitingRetry else Closed,
         outcome := match fault
           case RetryableFault => row.outcome
           case TerminalFault => Some(FailedOutcome)
           case UncertainFault => Some(UncertainOutcome),
         actions := row.actions[a := row.actions[a].(state := FaultedState(fault))])
  }

  lemma FaultRecorded(row: CaseRow, a: StableId, fault: Fault)
    requires RowsKept(row) && SubmittedNow(row, a, false)
    ensures RecordFault(row, a, fault) == Some(AfterFault(row, a, fault))
  {
  }

  lemma FaultKeeps(row: CaseRow, a: StableId, fault: Fault)
    requires RowsKept(row) && SubmittedNow(row, a, false)
    ensures RecordFault(row, a, fault) == Some(AfterFault(row, a, fault))
    ensures RowsKept(AfterFault(row, a, fault))
  {
    hide RecordFault;
    FaultRecorded(row, a, fault);
    OnlyAction(row, a);
  }

  // ---------- Retrying ----------

  /**
   A Case that awaits a retry and has an action has exactly one, and it failed retryably: so neither
   refusal that guards an unsafe or ambiguous retry is ever taken.
   */
  lemma RetryGuardsNeverFire(row: CaseRow)
    requires RowsKept(row)
    ensures !PlanRetry(row).WriteUnsafe? && !PlanRetry(row).SeveralFailed?
    ensures row.state == AwaitingRetry ==>
      if row.actions == map[] then PlanRetry(row) == Reinvestigate else PlanRetry(row).ResumeAction?
    ensures PlanRetry(row).ResumeAction? ==>
      (var a := PlanRetry(row).action;
       row.state == AwaitingRetry && a in row.actions && row.actions[a].state == FailedRetryable)
    ensures PlanRetry(row).Reinvestigate? ==> row.state == AwaitingRetry && row.actions == map[]
  {
    if row.state == AwaitingRetry {
      forall a | a in row.actions ensures row.actions[a].state == FailedRetryable {
        assert Lifecycle(row, row.actions[a].state);
      }
      if a :| a in row.actions {
        assert AnyAction(row, {FailedRetryable});
      }
    }
  }

  lemma ResumeKeeps(row: CaseRow, a: StableId)
    requires RowsKept(row) && row.state == AwaitingRetry && a in row.actions && row.actions[a].state == FailedRetryable
    ensures MoveCase(row, ExecutingAction).Some? && RowsKept(MoveCase(row, ExecutingAction).value)
    ensures MoveCase(row, ExecutingAction).value == row.(state := ExecutingAction)
  {
    OnlyAction(row, a);
  }

  lemma ReinvestigateKeeps(row: CaseRow)
    requires RowsKept(row) && row.state == AwaitingRetry && row.actions == map[]
    ensures MoveCase(row, Investigating).Some? && RowsKept(MoveCase(row, Investigating).value)
    ensures MoveCase(row, Investigating).value == row.(state := Investigating)
  {
  }
}
