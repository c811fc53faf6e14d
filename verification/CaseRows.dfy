/**
 The rows of one Case and the transactions that write them: the repository's own checks first, then
 each service transaction as the sequence of repository calls it makes. None stands for a raised
 error, after which the transaction is rolled back.
 */
module CaseRows {
  import opened Options
  import opened CaseFacts
  import opened CaseFactLedger

  type ProposalId = string

  datatype CaseState =
    | Investigating
    | AwaitingCustomerInput
    | AwaitingCustomerConfirmation
    | ExecutingAction
    | AwaitingRetry
    | Closed

  datatype CaseOutcome = ResolvedNoAction | HumanSupportRequired | TicketCreated | FailedOutcome | UncertainOutcome

  datatype ProposalState = Pending | Confirmed | Declined | Superseded | Expired | Invalidated

  datatype ActionState = Ready | Submitted | Succeeded | FailedRetryable | FailedTerminal | Uncertain

  datatype Proposal = Proposal(version: nat, state: ProposalState, expiresAt: int)

  /** The digest of a proposal's identity and version; action id and idempotency key are both taken from it. */
  datatype StableId = StableId(proposal: ProposalId, version: nat)

  datatype Action = Action(state: ActionState, key: StableId)

  datatype Ticket = Ticket(action: StableId)

  datatype CaseRow = CaseRow(
    state: CaseState,
    outcome: Option<CaseOutcome>,
    clarifications: nat,
    active: Option<ProposalId>,
    proposals: map<ProposalId, Proposal>,
    actions: map<StableId, Action>,
    tickets: map<StableId, Ticket>,
    facts: Ledger)

  const CLARIFICATION_LIMIT := 2

  function NewCase(caseId: string): CaseRow {
    CaseRow(Investigating, None, 0, None, map[], map[], map[], Ledger(caseId, [], [], [], [], None, None))
  }

  // ---------- Tables ----------

  predicate ProposalMayBecome(current: ProposalState, next: ProposalState) {
    current == Pending && next != Pending
  }

  predicate ActionMayBecome(current: ActionState, next: ActionState) {
    match current
    case Ready => next == Submitted
    case Submitted => next in {Succeeded, FailedRetryable, FailedTerminal, Uncertain}
    case FailedRetryable => next == Submitted
    case _ => false
  }

  predicate CaseMayBecome(current: CaseState, next: CaseState) {
    match current
    case Investigating => next in {AwaitingCustomerInput, AwaitingCustomerConfirmation, AwaitingRetry, Closed}
    case AwaitingCustomerInput => next in {Investigating, AwaitingRetry, Closed}
    case AwaitingCustomerConfirmation => next in {ExecutingAction, Closed}
    case AwaitingRetry => next in {Investigating, Closed}
    case ExecutingAction => next == Closed
    case Closed => false
  }

  // ---------- Repository calls ----------

  /** A closed Case is immutable; closing, and only closing, sets an outcome. */
  function UpdateCase(c: CaseRow, next: CaseState, outcome: Option<CaseOutcome>, clarifications: nat,
      active: Option<ProposalId>): Option<CaseRow> {
    var nextOutcome := if outcome.Some? then outcome else c.outcome;
    if c.state == Closed || (next == Closed) != nextOutcome.Some? || clarifications > CLARIFICATION_LIMIT then None
    else Some(c.(state := next, outcome := nextOutcome, clarifications := clarifications,
                 active := if active.Some? then active else c.active))
  }

  function MoveCase(c: CaseRow, next: CaseState): Option<CaseRow> {
    UpdateCase(c, next, None, c.clarifications, None)
  }

  function CloseCase(c: CaseRow, outcome: CaseOutcome): Option<CaseRow> {
    UpdateCase(c, Closed, Some(outcome), c.clarifications, None)
  }

  /** A proposal that leaves pending also stops being the Case's active one. */
  function UpdateProposal(c: CaseRow, p: ProposalId, next: ProposalState): Option<CaseRow> {
    if p !in c.proposals || (next != c.proposals[p].state && !ProposalMayBecome(c.proposals[p].state, next)) then None
    else Some(c.(proposals := c.proposals[p := c.proposals[p].(state := next)],
                 active := if next != Pending && c.active == Some(p) then None else c.active))
  }

  /** A proposal is pending already, or has the version. */
  predicate Crowds(proposals: map<ProposalId, Proposal>, version: nat) {
    exists q :: q in proposals && (proposals[q].state == Pending || proposals[q].version == version)
  }

  /** One pending proposal per Case, one proposal per version. */
  function CreateProposal(c: CaseRow, p: ProposalId, version: nat, expiresAt: int): Option<CaseRow> {
    if p in c.proposals || Crowds(c.proposals, version) then None
    else Some(c.(proposals := c.proposals[p := Proposal(version, Pending, expiresAt)]))
  }

  function CreateAction(c: CaseRow, p: ProposalId): Option<CaseRow> {
    if p !in c.proposals then None
    else
      var id := StableId(p, c.proposals[p].version);
      if exists a :: a in c.actions && a.proposal == p then None
      else Some(c.(actions := c.actions[id := Action(Ready, id)]))
  }

  function UpdateAction(c: CaseRow, a: StableId, next: ActionState): Option<CaseRow> {
    if a !in c.actions || (next != c.actions[a].state && !ActionMayBecome(c.actions[a].state, next)) then None
    else Some(c.(actions := c.actions[a := c.actions[a].(state := next)]))
  }

  /** Idempotent by key. `scopeTaken` is another active ticket of the same scope, refused by a unique index. */
  function CreateTicket(c: CaseRow, a: StableId, key: StableId, scopeTaken: bool): Option<CaseRow> {
    if key in c.tickets then if c.tickets[key] == Ticket(a) then Some(c) else None
    else if scopeTaken || exists k :: k in c.tickets && c.tickets[k].action == a then None
    else Some(c.(tickets := c.tickets[key := Ticket(a)]))
  }

  // ---------- Transactions ----------

  function SupersedeAll(c: CaseRow, pending: seq<ProposalId>): Option<CaseRow>
    decreases |pending|
  {
    if pending == [] then Some(c)
    else
      var c1 :- UpdateProposal(c, pending[0], Superseded);
      SupersedeAll(c1, pending[1..])
  }

  function Propose(c: CaseRow, pending: seq<ProposalId>, p: ProposalId, version: nat, expiresAt: int): Option<CaseRow> {
    var c1 :- SupersedeAll(c, pending);
    var c2 :- CreateProposal(c1, p, version, expiresAt);
    UpdateCase(c2, AwaitingCustomerConfirmation, None, c2.clarifications, Some(p))
  }

  function AskCustomer(c: CaseRow, questionCreated: bool): Option<CaseRow> {
    UpdateCase(c, AwaitingCustomerInput, None, c.clarifications + if questionCreated then 1 else 0, None)
  }

  /** Ask which parcel is meant, or give up once the budget is spent. */
  function AskTarget(c: CaseRow): Option<CaseRow> {
    if c.clarifications >= CLARIFICATION_LIMIT then CloseCase(c, HumanSupportRequired)
    else UpdateCase(c, AwaitingCustomerInput, None, c.clarifications + 1, None)
  }

  /** An expired or invalidated proposal sends its Case back to be retried. */
  function LapseProposal(c: CaseRow, p: ProposalId, lapse: ProposalState): Option<CaseRow> {
    var c1 :- UpdateProposal(c, p, lapse);
    MoveCase(c1, AwaitingRetry)
  }

  function Confirm(c: CaseRow, p: ProposalId): Option<CaseRow> {
    var c1 :- UpdateProposal(c, p, Confirmed);
    var c2 :- CreateAction(c1, p);
    MoveCase(c2, ExecutingAction)
  }

  function Decline(c: CaseRow, p: ProposalId): Option<CaseRow> {
    var c1 :- UpdateProposal(c, p, Declined);
    CloseCase(c1, ResolvedNoAction)
  }

  /** A scripted fault records the submission but writes no ticket. */
  function Submit(c: CaseRow, a: StableId, faulted: bool, scopeTaken: bool): Option<CaseRow> {
    var c1 :- UpdateAction(c, a, Submitted);
    if faulted then Some(c1) else CreateTicket(c1, a, c1.actions[a].key, scopeTaken)
  }

  function ReadBack(c: CaseRow, a: StableId, key: StableId): Option<CaseRow> {
    if key in c.tickets then
      var c1 :- UpdateAction(c, a, Succeeded);
      CloseCase(c1, TicketCreated)
    else
      var c1 :- UpdateAction(c, a, Uncertain);
      CloseCase(c1, UncertainOutcome)
  }

  datatype Fault = RetryableFault | TerminalFault | UncertainFault

  function FaultedState(fault: Fault): ActionState {
    match fault
    case RetryableFault => FailedRetryable
    case TerminalFault => FailedTerminal
    case UncertainFault => Uncertain
  }

  function RecordFault(c: CaseRow, a: StableId, fault: Fault): Option<CaseRow> {
    var c1 :- UpdateAction(c, a, FaultedState(fault));
    match fault
    case RetryableFault => MoveCase(c1, AwaitingRetry)
    case TerminalFault => CloseCase(c1, FailedOutcome)
    case UncertainFault => CloseCase(c1, UncertainOutcome)
  }

  /** What a retry request finds. The two refusals guard a write whose result is not safely known. */
  datatype RetryPlan = NotRetryable | WriteUnsafe | SeveralFailed | ResumeAction(action: StableId) | Reinvestigate

  predicate AnyAction(c: CaseRow, states: set<ActionState>) {
    exists a :: a in c.actions && c.actions[a].state in states
  }

  predicate SeveralFailedRetryable(c: CaseRow) {
    exists a, b :: a in c.actions && b in c.actions && a != b
      && c.actions[a].state == FailedRetryable && c.actions[b].state == FailedRetryable
  }

  ghost function PlanRetry(c: CaseRow): RetryPlan {
    if c.state != AwaitingRetry then NotRetryable
    else if AnyAction(c, {Submitted, Uncertain}) then WriteUnsafe
    else if SeveralFailedRetryable(c) then SeveralFailed
    else if AnyAction(c, {FailedRetryable}) then
      var a :| a in c.actions && c.actions[a].state == FailedRetryable;
      ResumeAction(a)
    else Reinvestigate
  }

  datatype Refusal = VersionConflict | NotPending | ProposalExpired | NotActive

  /** The checks a confirmation or a refusal of a proposal must pass, in order. */
  function ValidatePending(c: CaseRow, p: ProposalId, version: nat, now: int): Option<Refusal>
    requires p in c.proposals
  {
    var proposal := c.proposals[p];
    if proposal.version != version then Some(VersionConflict)
    else if proposal.state != Pending then Some(NotPending)
    else if proposal.expiresAt <= now then Some(ProposalExpired)
    else if c.state != AwaitingCustomerConfirmation || c.active != Some(p) then Some(NotActive)
    else None
  }

  // ---------- The rows as the service updates them ----------

  class CaseStore {
    var state: CaseState
    var outcome: Option<CaseOutcome>
    var clarifications: nat
    var active: Option<ProposalId>
    var proposals: map<ProposalId, Proposal>
    var actions: map<StableId, Action>
    var tickets: map<StableId, Ticket>
    var facts: Ledger

    ghost function Row(): CaseRow
      reads this
    {
      CaseRow(state, outcome, clarifications, active, proposals, actions, tickets, facts)
    }

    constructor (caseId: string)
      ensures Row() == NewCase(caseId)
    {
      state, outcome, clarifications, active := Investigating, None, 0, None;
      proposals, actions, tickets := map[], map[], map[];
      facts := Ledger(caseId, [], [], [], [], None, None);
    }

    /** Leaves the rows as a transaction that raised left them: as they were. */
    method Rollback(was: CaseRow)
      modifies this
      ensures Row() == was
    {
      state, outcome, clarifications, active := was.state, was.outcome, was.clarifications, was.active;
      proposals, actions, tickets, facts := was.proposals, was.actions, was.tickets, was.facts;
    }

    method Saved() returns (row: CaseRow)
      ensures row == Row()
    {
      row := CaseRow(state, outcome, clarifications, active, proposals, actions, tickets, facts);
    }

    method Update(next: CaseState, newOutcome: Option<CaseOutcome>, newClarifications: nat,
        newActive: Option<ProposalId>) returns (ok: bool)
      modifies this`state, this`outcome, this`clarifications, this`active
      ensures var r := UpdateCase(old(Row()), next, newOutcome, newClarifications, newActive);
        ok == r.Some? && Row() == r.GetOr(old(Row()))
    {
      var nextOutcome := if newOutcome.Some? then newOutcome else outcome;
      if state == Closed || (next == Closed) != nextOutcome.Some? || newClarifications > CLARIFICATION_LIMIT {
        return false;
      }
      state, outcome, clarifications := next, nextOutcome, newClarifications;
      if newActive.Some? {
        active := newActive;
      }
      return true;
    }

    method SetProposal(p: ProposalId, next: ProposalState) returns (ok: bool)
      modifies this`proposals, this`active
      ensures var r := UpdateProposal(old(Row()), p, next); ok == r.Some? && Row() == r.GetOr(old(Row()))
    {
      if p !in proposals || (next != proposals[p].state && !ProposalMayBecome(proposals[p].state, next)) {
        return false;
      }
      proposals := proposals[p := proposals[p].(state := next)];
      if next != Pending && active == Some(p) {
        active := None;
      }
      return true;
    }

    method SetAction(a: StableId, next: ActionState) returns (ok: bool)
      modifies this`actions
      ensures var r := UpdateAction(old(Row()), a, next); ok == r.Some? && Row() == r.GetOr(old(Row()))
    {
      if a !in actions || (next != actions[a].state && !ActionMayBecome(actions[a].state, next)) {
        return false;
      }
      actions := actions[a := actions[a].(state := next)];
      return true;
    }

    method AddTicket(a: StableId, key: StableId, scopeTaken: bool) returns (ok: bool)
      modifies this`tickets
      ensures var r := CreateTicket(old(Row()), a, key, scopeTaken); ok == r.Some? && Row() == r.GetOr(old(Row()))
    {
      if key in tickets {
        return tickets[key] == Ticket(a);
      }
      if scopeTaken || exists k :: k in tickets && tickets[k].action == a {
        return false;
      }
      tickets := tickets[key := Ticket(a)];
      return true;
    }

    /** Supersedes what was pending and puts the new proposal before the customer. */
    method ProposeTicket(pending: seq<ProposalId>, p: ProposalId, version: nat, expiresAt: int) returns (ok: bool)
      modifies this
      ensures var r := Propose(old(Row()), pending, p, version, expiresAt);
        ok == r.Some? && Row() == r.GetOr(old(Row()))
    {
      var was := Saved();
      for i := 0 to |pending|
        invariant SupersedeAll(was, pending) == SupersedeAll(Row(), pending[i..])
      {
        ok := SetProposal(pending[i], Superseded);
        if !ok {
          Rollback(was);
          return false;
        }
        assert pending[i..][1..] == pending[i + 1..];
      }
      if p in proposals || Crowds(proposals, version) {
        Rollback(was);
        return false;
      }
      proposals := proposals[p := Proposal(version, Pending, expiresAt)];
      ok := Update(AwaitingCustomerConfirmation, None, clarifications, Some(p));
      if !ok {
        Rollback(was);
      }
    }

    method ConfirmProposal(p: ProposalId) returns (ok: bool)
      modifies this
      ensures var r := Confirm(old(Row()), p); ok == r.Some? && Row() == r.GetOr(old(Row()))
    {
      var was := Saved();
      ok := SetProposal(p, Confirmed);
      if !ok {
        return;
      }
      var id := StableId(p, proposals[p].version);
      if exists a :: a in actions && a.proposal == p {
        Rollback(was);
        return false;
      }
      actions := actions[id := Action(Ready, id)];
      ok := Update(ExecutingAction, None, clarifications, None);
      if !ok {
        Rollback(was);
      }
    }

    method DeclineProposal(p: ProposalId) returns (ok: bool)
      modifies this
      ensures var r := Decline(old(Row()), p); ok == r.Some? && Row() == r.GetOr(old(Row()))
    {
      var was := Saved();
      ok := SetProposal(p, Declined);
      if ok {
        ok := Update(Closed, Some(ResolvedNoAction), clarifications, None);
      }
      if !ok {
        Rollback(was);
      }
    }

    method Lapse(p: ProposalId, lapse: ProposalState) returns (ok: bool)
      modifies this
      ensures var r := LapseProposal(old(Row()), p, lapse); ok == r.Some? && Row() == r.GetOr(old(Row()))
    {
      var was := Saved();
      ok := SetProposal(p, lapse);
      if ok {
        ok := Update(AwaitingRetry, None, clarifications, None);
      }
      if !ok {
        Rollback(was);
      }
    }

    method SubmitAction(a: StableId, faulted: bool, scopeTaken: bool) returns (ok: bool)
      modifies this
      ensures var r := Submit(old(Row()), a, faulted, scopeTaken); ok == r.Some? && Row() == r.GetOr(old(Row()))
    {
      var was := Saved();
      ok := SetAction(a, Submitted);
      if ok && !faulted {
        ok := AddTicket(a, actions[a].key, scopeTaken);
      }
      if !ok {
        Rollback(was);
      }
    }

    method VerifyTicket(a: StableId, key: StableId) returns (ok: bool)
      modifies this
      ensures var r := ReadBack(old(Row()), a, key); ok == r.Some? && Row() == r.GetOr(old(Row()))
    {
      var was := Saved();
      var found := key in tickets;
      ok := SetAction(a, if found then Succeeded else Uncertain);
      if ok {
        ok := Update(Closed, Some(if found then TicketCreated else UncertainOutcome), clarifications, None);
      }
      if !ok {
        Rollback(was);
      }
    }

    method RecordActionFault(a: StableId, fault: Fault) returns (ok: bool)
      modifies this
      ensures var r := RecordFault(old(Row()), a, fault); ok == r.Some? && Row() == r.GetOr(old(Row()))
    {
      var was := Saved();
      ok := SetAction(a, FaultedState(fault));
      if ok {
        match fault
        case RetryableFault => ok := Update(AwaitingRetry, None, clarifications, None);
        case TerminalFault => ok := Update(Closed, Some(FailedOutcome), clarifications, None);
        case UncertainFault => ok := Update(Closed, Some(UncertainOutcome), clarifications, None);
      }
      if !ok {
        Rollback(was);
      }
    }
  }
}
