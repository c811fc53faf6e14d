/** Who may do what: every action rests on the customer's own confirmation, and a refusal is carried out. */
module CaseProtocolConsent {
  import opened Options
  import opened CaseFactLedger
  import opened CaseFactHistory
  import opened CaseRows
  import opened CaseSafety
  import opened CaseProtocol
  import opened CaseProtocolSafety
  import opened CaseProtocolSteps
  import opened CaseProtocolEffects

  /** What the request now called `id` arrived as, told from the events alone. */
  ghost function ArrivedAs(run: seq<State>, events: seq<Event>, k: nat, id: RequestId): Option<Kind>
    requires |run| == |events| + 1 && k <= |events|
  {
    if k == 0 then None
    else match events[k - 1]
      case Arrives(i, kind) => if i == id && id !in run[k - 1].requests then Some(kind)
        else ArrivedAs(run, events, k - 1, id)
      case _ => ArrivedAs(run, events, k - 1, id)
  }

  /** The proposal may be confirmed or declined now: pending, at this version, and not expired. */
  predicate MayAnswer(row: CaseRow, p: ProposalId, version: nat, now: int) {
    IsPending(row, p) && row.proposals[p].version == version && now < row.proposals[p].expiresAt
  }

  // ---------- How a request goes on ----------

  /** What a request may be at after a move of its own. */
  ghost predicate Follows(s: State, p: Progress, move: Move, p': Progress) {
    match (p, move)
    case (Entered(Posting), Admit) =>
      if s.active == None then p' == Triaging
      else p' == Clarifying(s.active.value) && s.active.value in s.cases
           && s.cases[s.active.value].state == AwaitingCustomerInput
    case (Entered(Retrying(c)), Admit) =>
      && c in s.cases && s.cases[c].state == AwaitingRetry
      && if s.cases[c].actions == map[] then p' == Looking(c, true)
         else p'.Submitting? && p'.caseId == c && p'.action in s.cases[c].actions
    case (Entered(Confirming(c, q, v)), Check(now)) =>
      p' == Checked(c, q) && c in s.cases && MayAnswer(s.cases[c], q, v, now)
    case (Entered(Declining(c, q, v)), Check(now)) =>
      p' == Declinable(c, q) && c in s.cases && MayAnswer(s.cases[c], q, v, now)
    case (Triaging, OpenCase(c)) => p' == Opened(c)
    case (Opened(c), StartLooking) => p' == Looking(c, true)
    case (Clarifying(c), ChooseTarget) => p' == ChoosingTarget(c)
    case (Clarifying(c), StartLooking) => p' == Looking(c, true)
    case (ChoosingTarget(c), TargetChosen(chosen)) => chosen && p' == Looking(c, true)
    case (Looking(c, mayRevise), GateDecides(gate)) =>
      || (gate == ProposeTicket && p'.Proposing? && p'.caseId == c)
      || (gate == Clarify && p' == Asking(c))
      || (gate == ReviseIssue && mayRevise && p' == Looking(c, false))
    case (Asking(c), RecordQuestionNow(_)) => p'.AskRecorded? && p'.caseId == c
    case (Checked(c, q), GateStillHolds(holds)) => holds && p' == Confirmable(c, q)
    case (Confirmable(c, q), WriteConfirmation) =>
      c in s.cases && q in s.cases[c].proposals && p' == Submitting(c, StableId(q, s.cases[c].proposals[q].version))
    case (Submitting(c, a), SubmitNow(fault, _)) =>
      p' == if fault.Some? then FaultPending(c, a, fault.value) else ReadingBack(c, a)
    case _ => false
  }

  /** The request's entry among the others: unchanged, gone, or moved on. */
  ghost predicate GoesOn(s: State, id: RequestId, p: Progress, move: Move, s': State) {
    || s'.requests == s.requests
    || s'.requests == s.requests - {id}
    || exists p' :: s'.requests == s.requests[id := p'] && Follows(s, p, move, p')
  }

  lemma WorkGoesOn(s: State, id: RequestId, p: Progress, c: CaseId, move: Move, reader: Reader)
    requires c in s.cases && CaseOf(p) == Some(c)
    ensures GoesOn(s, id, p, move, CaseMoves(s, id, p, c, move, reader))
  {
    hide CloseCase, MoveCase, AskTarget, AskCustomer, LapseProposal, Confirm, Decline, Submit, ReadBack, RecordFault,
        Propose, RecordQuestion, Load, WithFacts, HighestVersion, PendingIds;
    var s' := CaseMoves(s, id, p, c, move, reader);
    if s'.requests != s.requests && s'.requests != s.requests - {id} {
      assert s'.requests == s.requests[id := s'.requests[id]] && Follows(s, p, move, s'.requests[id]);
    }
  }

  lemma EntryGoesOn(s: State, id: RequestId, kind: Kind, move: Move)
    requires StateKept(s)
    ensures GoesOn(s, id, Entered(kind), move, EnteredMoves(s, id, kind, move))
  {
    hide StateKept, MoveCase, LapseProposal, PlanRetry, CaseKept;
    match kind
    case Confirming(c, p, version) =>
      if c in s.cases && move.Check? {
        CheckGoesOn(s, id, c, p, version, move.now, Checked(c, p));
        assert MayAnswer(s.cases[c], p, version, move.now) ==> Follows(s, Entered(kind), move, Checked(c, p));
      }
    case Declining(c, p, version) =>
      if c in s.cases && move.Check? {
        CheckGoesOn(s, id, c, p, version, move.now, Declinable(c, p));
        assert MayAnswer(s.cases[c], p, version, move.now) ==> Follows(s, Entered(kind), move, Declinable(c, p));
      }
    case Retrying(c) =>
      if c in s.cases && move == Admit {
        RetryGoesOn(s, id, c);
      }
    case Posting =>
      if s.active.Some? {
        ActiveIsOpen(s);
        assert s.cases[s.active.value].state == AwaitingCustomerInput ==>
            Follows(s, Entered(kind), Admit, Clarifying(s.active.value));
      } else {
        assert Follows(s, Entered(kind), Admit, Triaging);
      }
  }

  lemma ActiveIsOpen(s: State)
    requires StateKept(s) && s.active.Some?
    ensures s.active.value in s.cases
  {
    hide CaseKept;
  }

  /** A check passes exactly when the proposal may be answered now. */
  lemma CheckGoesOn(s: State, id: RequestId, c: CaseId, p: ProposalId, version: nat, now: int, next: Progress)
    requires StateKept(s) && c in s.cases
    ensures var s' := CheckProposal(s, id, c, p, version, now, next);
      if MayAnswer(s.cases[c], p, version, now) then s' == Continue(s, id, next) else s'.requests == s.requests - {id}
  {
    hide StateKept, LapseProposal, CaseKept;
    if IsPending(s.cases[c], p) {
      Answerable(s, c, p);
      LapseIsWritten(s, id, c, p);
    }
  }

  lemma LapseIsWritten(s: State, id: RequestId, c: CaseId, p: ProposalId)
    requires StateKept(s) && c in s.cases && IsPending(s.cases[c], p)
    ensures Commit(s, id, c, LapseProposal(s.cases[c], p, Expired), None).requests == s.requests - {id}
  {
    hide StateKept, LapseProposal;
  }

  lemma RetryGoesOn(s: State, id: RequestId, c: CaseId)
    requires StateKept(s) && c in s.cases
    ensures GoesOn(s, id, Entered(Retrying(c)), Admit, AdmitRetry(s, id, c))
  {
    hide StateKept, MoveCase, PlanRetry, CaseKept, RowsKept;
    StateCase(s, c);
    KeptRows(s.cases[c]);
    RetryGuardsNeverFire(s.cases[c]);
    var s' := AdmitRetry(s, id, c);
    if s'.requests != s.requests && s'.requests != s.requests - {id} {
      assert s'.requests == s.requests[id := s'.requests[id]]
          && Follows(s, Entered(Retrying(c)), Admit, s'.requests[id]);
    }
  }

  lemma Answerable(s: State, c: CaseId, p: ProposalId)
    requires StateKept(s) && c in s.cases && IsPending(s.cases[c], p)
    ensures s.cases[c].state == AwaitingCustomerConfirmation && s.cases[c].active == Some(p)
  {
    hide StateKept, CaseKept, RowsKept;
    StateCase(s, c);
    KeptRows(s.cases[c]);
    PendingIsActive(s.cases[c], p);
  }

  /** A request is where it was, has just arrived, has just entered, or has made a move of its own. */
  ghost predicate RequestSteps(s: State, e: Event, s': State, id: RequestId)
    requires id in s'.requests
  {
    var p' := s'.requests[id];
    if id !in s.requests then e.Arrives? && e.id == id && p' == Waiting(e.kind)
    else
      var p := s.requests[id];
      || p' == p
      || (e == Acquires(id) && p.Waiting? && p' == Entered(p.kind))
      || (e.Moves? && e.id == id && Follows(s, p, e.move, p'))
  }

  lemma NextRequest(s: State, e: Event, reader: Reader, id: RequestId)
    requires StateKept(s) && id in Next(s, e, reader).requests
    ensures RequestSteps(s, e, Next(s, e, reader), id)
  {
    hide StateKept, EnteredMoves, CaseMoves, NewCase, Follows;
    if e.Moves? && e.id in s.requests && HoldsLock(s.requests[e.id]) {
      var p := s.requests[e.id];
      if p.Entered? {
        EntryGoesOn(s, e.id, p.kind, e.move);
      } else if CaseOf(p).Some? && CaseOf(p).value in s.cases {
        WorkGoesOn(s, e.id, p, CaseOf(p).value, e.move, reader);
      } else if p.Triaging? && e.move.OpenCase? {
        TriageOpens(s, e.move.newCase);
      }
    }
  }

  lemma TriageOpens(s: State, c: CaseId)
    ensures Follows(s, Triaging, OpenCase(c), Opened(c))
  {
  }

  // ---------- A request serves what it arrived as ----------

  predicate VersionIs(s: State, c: CaseId, p: ProposalId, version: nat) {
    c in s.cases && p in s.cases[c].proposals && s.cases[c].proposals[p].version == version
  }

  ghost predicate Serves(s: State, kind: Kind, p: Progress) {
    match p
    case Waiting(k) => k == kind
    case Entered(k) => k == kind
    case Triaging => kind == Posting
    case Opened(_) => kind == Posting
    case Clarifying(_) => kind == Posting
    case ChoosingTarget(_) => kind == Posting
    case Looking(c, _) => kind == Posting || kind == Retrying(c)
    case Proposing(c, _, _) => kind == Posting || kind == Retrying(c)
    case Asking(c) => kind == Posting || kind == Retrying(c)
    case AskRecorded(c, _) => kind == Posting || kind == Retrying(c)
    case Checked(c, q) => kind.Confirming? && kind == Confirming(c, q, kind.version) && VersionIs(s, c, q, kind.version)
    case Confirmable(c, q) => kind.Confirming? && kind == Confirming(c, q, kind.version)
      && VersionIs(s, c, q, kind.version)
    case Declinable(c, q) => kind.Declining? && kind == Declining(c, q, kind.version)
      && VersionIs(s, c, q, kind.version)
    case Submitting(c, a) => kind == Confirming(c, a.proposal, a.version) || kind == Retrying(c)
    case ReadingBack(c, a) => kind == Confirming(c, a.proposal, a.version) || kind == Retrying(c)
    case FaultPending(c, a, _) => kind == Confirming(c, a.proposal, a.version) || kind == Retrying(c)
  }

  lemma VersionStays(s: State, s': State, c: CaseId, p: ProposalId, version: nat)
    requires AllEvolve(s, s') && VersionIs(s, c, p, version)
    ensures VersionIs(s', c, p, version)
  {
    hide ActionsEvolve, ClarificationsEvolve;
    assert Evolves(s.cases[c], s'.cases[c]);
  }

  lemma ServesOn(s: State, s': State, kind: Kind, p: Progress, move: Move, p': Progress)
    requires AllEvolve(s, s') && Serves(s, kind, p) && (p' == p || Follows(s, p, move, p'))
    ensures Serves(s', kind, p')
  {
    hide AllEvolve;
    if kind.Confirming? && VersionIs(s, kind.caseId, kind.proposal, kind.version) {
      VersionStays(s, s', kind.caseId, kind.proposal, kind.version);
    }
    if kind.Declining? && VersionIs(s, kind.caseId, kind.proposal, kind.version) {
      VersionStays(s, s', kind.caseId, kind.proposal, kind.version);
    }
  }

  /** Every request does, as long as it lasts, what it arrived to do. */
  lemma {:induction false} EveryRequestServes(run: seq<State>, events: seq<Event>, reader: Reader, k: nat,
      id: RequestId)
    requires IsRun(run, events, reader) && k < |run| && id in run[k].requests
    ensures |run| == |events| + 1
    ensures ArrivedAs(run, events, k, id).Some?
    ensures Serves(run[k], ArrivedAs(run, events, k, id).value, run[k].requests[id])
    decreases k
  {
    hide IsRun, StateKept, AllEvolve, Serves, Follows, Next;
    RunShape(run, events, reader);
    if k > 0 {
      RequestMoved(run, events, reader, k - 1, id);
      var s, s' := run[k - 1], run[k];
      if id in s.requests {
        EveryRequestServes(run, events, reader, k - 1, id);
        var kind := ArrivedAs(run, events, k - 1, id).value;
        EvolvesAt(run, events, reader, k - 1);
        if s.requests[id].Waiting? && events[k - 1] == Acquires(id) {
          ServesEntering(s, s', kind, s.requests[id]);
        }
        if events[k - 1].Moves? {
          ServesMoved(s, s', kind, s.requests[id], events[k - 1].move, s'.requests[id]);
        } else if s'.requests[id] == s.requests[id] {
          ServesOn(s, s', kind, s.requests[id], Admit, s'.requests[id]);
        }
      } else {
        ServesArrived(s', events[k - 1].kind);
      }
    }
  }

  lemma ServesMoved(s: State, s': State, kind: Kind, p: Progress, move: Move, p': Progress)
    requires AllEvolve(s, s') && Serves(s, kind, p)
    ensures p' == p || Follows(s, p, move, p') ==> Serves(s', kind, p')
  {
    hide AllEvolve, Serves, Follows;
    if p' == p || Follows(s, p, move, p') {
      ServesOn(s, s', kind, p, move, p');
    }
  }

  lemma ServesEntering(s: State, s': State, kind: Kind, p: Progress)
    requires Serves(s, kind, p) && p.Waiting?
    ensures Serves(s', kind, Entered(p.kind))
  {
  }

  lemma ServesArrived(s: State, kind: Kind)
    ensures Serves(s, kind, Waiting(kind))
  {
  }

  lemma RunShape(run: seq<State>, events: seq<Event>, reader: Reader)
    requires IsRun(run, events, reader)
    ensures |run| == |events| + 1 && run[0].requests == map[] && run[0].cases == map[]
  {
  }

  lemma RequestMoved(run: seq<State>, events: seq<Event>, reader: Reader, k: nat, id: RequestId)
    requires IsRun(run, events, reader) && k < |events| && k + 1 < |run| && id in run[k + 1].requests
    ensures RequestSteps(run[k], events[k], run[k + 1], id)
  {
    hide StateKept, Next, RequestSteps;
    RunKept(run, events, reader, k);
    NextRequest(run[k], events[k], reader, id);
  }

  lemma EvolvesAt(run: seq<State>, events: seq<Event>, reader: Reader, k: nat)
    requires IsRun(run, events, reader) && k < |events| && k + 1 < |run|
    ensures AllEvolve(run[k], run[k + 1])
  {
    hide StateKept, AllEvolve, Next;
    RunKept(run, events, reader, k);
  }

  // ---------- Every action rests on the customer's confirmation ----------

  ghost predicate Stays(run: seq<State>, id: RequestId, j: nat, k: nat)
    requires k < |run|
  {
    forall t :: j <= t <= k ==> id in run[t].requests
  }

  /** Event j checks the proposal, and may, for a request that arrived to confirm it at its own version. */
  ghost predicate ChecksToConfirm(run: seq<State>, events: seq<Event>, j: nat, id: RequestId, c: CaseId, a: StableId)
    requires |run| == |events| + 1 && j < |events|
  {
    && events[j].Moves? && events[j].id == id && events[j].move.Check?
    && ArrivedAs(run, events, j, id) == Some(Confirming(c, a.proposal, a.version))
    && c in run[j].cases && MayAnswer(run[j].cases[c], a.proposal, a.version, events[j].move.now)
  }

  /** One request checked the proposal, passed the gate and is still there. */
  ghost predicate PassedGate(run: seq<State>, events: seq<Event>, j: nat, i: nat, k: nat, id: RequestId, c: CaseId,
      a: StableId)
    requires |run| == |events| + 1 && k < |run|
  {
    && j < i < k && Stays(run, id, j, k)
    && ChecksToConfirm(run, events, j, id, c, a)
    && events[i] == Moves(id, GateStillHolds(true))
  }

  lemma StaysOn(run: seq<State>, id: RequestId, j: nat, k: nat)
    requires j <= k && k + 1 < |run| && Stays(run, id, j, k) && id in run[k + 1].requests
    ensures Stays(run, id, j, k + 1)
  {
  }

  lemma {:induction false} CheckedBefore(run: seq<State>, events: seq<Event>, reader: Reader, k: nat, id: RequestId,
      c: CaseId, a: StableId) returns (j: nat)
    requires IsRun(run, events, reader) && k < |run| && id in run[k].requests
    requires run[k].requests[id] == Checked(c, a.proposal) && VersionIs(run[k], c, a.proposal, a.version)
    ensures |run| == |events| + 1 && j < k && Stays(run, id, j, k) && ChecksToConfirm(run, events, j, id, c, a)
    decreases k
  {
    hide IsRun, StateKept, Next, ArrivedAs, AllEvolve;
    RunShape(run, events, reader);
    var s := run[k - 1];
    RequestMoved(run, events, reader, k - 1, id);
    EveryRequestServes(run, events, reader, k - 1, id);
    if s.requests[id] == Checked(c, a.proposal) {
      EvolvesAt(run, events, reader, k - 1);
      EveryRequestServes(run, events, reader, k, id);
      VersionWas(s, run[k], c, a.proposal, ArrivedAs(run, events, k - 1, id).value.version, a.version);
      j := CheckedBefore(run, events, reader, k - 1, id, c, a);
      StaysOn(run, id, j, k - 1);
    } else {
      j := k - 1;
      EvolvesAt(run, events, reader, k - 1);
      VersionWas(s, run[k], c, a.proposal, s.requests[id].kind.version, a.version);
    }
  }

  lemma VersionWas(s: State, s': State, c: CaseId, p: ProposalId, was: nat, version: nat)
    requires AllEvolve(s, s') && VersionIs(s, c, p, was) && VersionIs(s', c, p, version)
    ensures was == version
  {
    VersionStays(s, s', c, p, was);
  }

  lemma {:induction false} PassedBefore(run: seq<State>, events: seq<Event>, reader: Reader, k: nat, id: RequestId,
      c: CaseId, a: StableId) returns (j: nat, i: nat)
    requires IsRun(run, events, reader) && k < |run| && id in run[k].requests
    requires run[k].requests[id] == Confirmable(c, a.proposal) && VersionIs(run[k], c, a.proposal, a.version)
    ensures |run| == |events| + 1 && PassedGate(run, events, j, i, k, id, c, a)
    decreases k
  {
    hide IsRun, StateKept, Next, ArrivedAs, AllEvolve, ChecksToConfirm;
    RunShape(run, events, reader);
    var s := run[k - 1];
    RequestMoved(run, events, reader, k - 1, id);
    EveryRequestServes(run, events, reader, k - 1, id);
    EvolvesAt(run, events, reader, k - 1);
    VersionWas(s, run[k], c, a.proposal, ArrivedAs(run, events, k - 1, id).value.version, a.version);
    if s.requests[id] == Confirmable(c, a.proposal) {
      j, i := PassedBefore(run, events, reader, k - 1, id, c, a);
      StaysOn(run, id, j, k - 1);
    } else {
      j := CheckedBefore(run, events, reader, k - 1, id, c, a);
      i := k - 1;
      StaysOn(run, id, j, k - 1);
    }
  }

  /** The customer confirmed the proposal at its version, the gate still held, and only then was the action written. */
  ghost predicate Consented(run: seq<State>, events: seq<Event>, k: nat, c: CaseId, a: StableId)
    requires |run| == |events| + 1 && k < |run|
  {
    exists id: RequestId, j: nat, i: nat, w: nat ::
      w < k && PassedGate(run, events, j, i, w, id, c, a) && events[w] == Moves(id, WriteConfirmation)
  }

  /** An action is new exactly when its proposal's confirmation has just been written. */
  lemma NewAction(s: State, e: Event, reader: Reader, c: CaseId, a: StableId)
    requires StateKept(s) && c in s.cases && a !in s.cases[c].actions
    requires c in Next(s, e, reader).cases && a in Next(s, e, reader).cases[c].actions
    ensures e.Moves? && e.move == WriteConfirmation && e.id in s.requests
        && s.requests[e.id] == Confirmable(c, a.proposal)
    ensures VersionIs(s, c, a.proposal, a.version)
  {
    hide StateKept, Next, WorkMeans;
    NextMeans(s, e, reader, c);
    if e.Moves? && e.id in s.requests {
      var p := s.requests[e.id];
      if !p.Entered? && CaseOf(p) == Some(c) {
        WorkAddsAction(p, e.move, s.cases[c], reader, a);
      }
    }
  }

  lemma WorkAddsAction(p: Progress, move: Move, row: CaseRow, reader: Reader, a: StableId)
    requires a !in row.actions && a in WorkMeans(p, move, row, reader).actions
    ensures move == WriteConfirmation && p.Confirmable? && p.proposal == a.proposal
    ensures a.proposal in row.proposals && row.proposals[a.proposal].version == a.version
  {
    hide Apply, QuestionIsNew, RecordQuestion;
  }

  /**
   No action without consent: whenever a Case has an action, one request that had arrived to confirm
   that proposal at its own version checked it while it was pending and unexpired, then found its gate
   still holding, and then wrote the confirmation; and it was there all the while.
   */
  lemma {:induction false} ActionRestsOnConfirmation(run: seq<State>, events: seq<Event>, reader: Reader, k: nat,
      c: CaseId, a: StableId)
    requires IsRun(run, events, reader) && k < |run| && c in run[k].cases && a in run[k].cases[c].actions
    ensures |run| == |events| + 1 && Consented(run, events, k, c, a)
    decreases k
  {
    hide IsRun, StateKept, Next, PassedGate, AllEvolve;
    RunShape(run, events, reader);
    var s := run[k - 1];
    RunKept(run, events, reader, k - 1);
    if c in s.cases && a in s.cases[c].actions {
      ActionRestsOnConfirmation(run, events, reader, k - 1, c, a);
      var id: RequestId, j: nat, i: nat, w: nat :|
        w < k - 1 && PassedGate(run, events, j, i, w, id, c, a) && events[w] == Moves(id, WriteConfirmation);
    } else {
      assert run[k] == Next(s, events[k - 1], reader) by { RunStep(run, events, reader, k - 1); }
      if c !in s.cases {
        EvolvesAt(run, events, reader, k - 1);
        NewCaseHasNone(s, run[k], c);
      }
      NewAction(s, events[k - 1], reader, c, a);
      var id := events[k - 1].id;
      var j, i := PassedBefore(run, events, reader, k - 1, id, c, a);
      assert PassedGate(run, events, j, i, k - 1, id, c, a);
    }
  }

  lemma RunStep(run: seq<State>, events: seq<Event>, reader: Reader, k: nat)
    requires IsRun(run, events, reader) && k < |events| && k + 1 < |run|
    ensures run[k + 1] == Next(run[k], events[k], reader)
  {
    hide Next;
  }

  lemma NewCaseHasNone(s: State, s': State, c: CaseId)
    requires AllEvolve(s, s') && c !in s.cases && c in s'.cases
    ensures s'.cases[c].actions == map[]
  {
    hide Evolves;
  }

  // ---------- Answers are carried out ----------

  /** A request's move leaves the actions, tickets and confirmations of every Case alone. */
  ghost predicate WritesNothing(s: State, s': State) {
    forall c :: c in s.cases ==>
      && c in s'.cases && s'.cases[c].actions == s.cases[c].actions && s'.cases[c].tickets == s.cases[c].tickets
      && forall q :: q in s'.cases[c].proposals && s'.cases[c].proposals[q].state == Confirmed ==>
           q in s.cases[c].proposals && s.cases[c].proposals[q].state == Confirmed
  }

  lemma RefusingWritesNothing(s: State, id: RequestId, move: Move, reader: Reader, c: CaseId, q: ProposalId, v: nat)
    requires StateKept(s) && id in s.requests && Serves(s, Declining(c, q, v), s.requests[id])
    ensures WritesNothing(s, Next(s, Moves(id, move), reader))
  {
    hide StateKept, Next;
    forall d | d in s.cases ensures
      var s' := Next(s, Moves(id, move), reader);
      && d in s'.cases && s'.cases[d].actions == s.cases[d].actions && s'.cases[d].tickets == s.cases[d].tickets
      && forall p :: p in s'.cases[d].proposals && s'.cases[d].proposals[p].state == Confirmed ==>
           p in s.cases[d].proposals && s.cases[d].proposals[p].state == Confirmed
    {
      NextMeans(s, Moves(id, move), reader, d);
    }
  }

  /**
   A refusal is carried out and nothing else is. No move of a request that arrived to decline confirms
   a proposal, adds an action or writes a ticket; its check passes exactly when the proposal may be
   answered, changes no Case then, and lets it go on to refuse; and its completed refusal leaves the
   proposal declined and the Case closed with no action.
   */
  lemma DecliningRefuses(run: seq<State>, events: seq<Event>, reader: Reader, k: nat, id: RequestId, move: Move,
      c: CaseId, q: ProposalId, v: nat)
    requires IsRun(run, events, reader) && k < |events| && events[k] == Moves(id, move) && id in run[k].requests
    requires |run| == |events| + 1 && ArrivedAs(run, events, k, id) == Some(Declining(c, q, v))
    ensures WritesNothing(run[k], run[k + 1])
    ensures run[k].requests[id].Entered? && c in run[k].cases && move.Check? ==>
      if MayAnswer(run[k].cases[c], q, v, move.now)
      then run[k + 1] == run[k].(requests := run[k].requests[id := Declinable(c, q)])
      else id !in run[k + 1].requests
    ensures HoldsLock(run[k].requests[id]) && !run[k].requests[id].Entered? ==> run[k].requests[id] == Declinable(c, q)
    ensures run[k].requests[id] == Declinable(c, q) && move == WriteRefusal ==>
      && c in run[k + 1].cases && q in run[k + 1].cases[c].proposals
      && run[k + 1].cases[c].proposals[q].state == Declined
      && run[k + 1].cases[c].state == Closed && run[k + 1].cases[c].outcome == Some(ResolvedNoAction)
  {
    hide IsRun, StateKept, Next, ArrivedAs, WritesNothing;
    EveryRequestServes(run, events, reader, k, id);
    RunKept(run, events, reader, k);
    RunStep(run, events, reader, k);
    RefusingWritesNothing(run[k], id, move, reader, c, q, v);
    if c in run[k].cases && run[k].requests[id].Entered? && move.Check? {
      CheckGoesOn(run[k], id, c, q, v, move.now, Declinable(c, q));
      CheckIsNext(run[k], id, Declining(c, q, v), move, reader);
    } else if run[k].requests[id] == Declinable(c, q) && move == WriteRefusal {
      RefusalIsWritten(run[k], id, c, q, reader);
    }
  }

  lemma RefusalIsWritten(s: State, id: RequestId, c: CaseId, q: ProposalId, reader: Reader)
    requires StateKept(s) && id in s.requests && s.requests[id] == Declinable(c, q)
    ensures var s' := Next(s, Moves(id, WriteRefusal), reader);
      && c in s'.cases && q in s'.cases[c].proposals && s'.cases[c].proposals[q].state == Declined
      && s'.cases[c].state == Closed && s'.cases[c].outcome == Some(ResolvedNoAction)
  {
    hide StateKept, Next, RowsKept, Kept;
    HolderHasLock(s, id);
    HeldCase(s, id, Declinable(c, q), c);
    NextMeans(s, Moves(id, WriteRefusal), reader, c);
  }

  lemma CheckIsNext(s: State, id: RequestId, kind: Kind, move: Move, reader: Reader)
    requires id in s.requests && s.requests[id] == Entered(kind)
    ensures Next(s, Moves(id, move), reader) == EnteredMoves(s, id, kind, move)
  {
    hide EnteredMoves;
  }

  /** The proposal is confirmed, its action ready, and the request about to submit it. */
  ghost predicate ConfirmationStands(s: State, id: RequestId, c: CaseId, q: ProposalId, v: nat, s': State) {
    var a := StableId(q, v);
    && c in s'.cases && q in s'.cases[c].proposals && s'.cases[c].proposals[q].state == Confirmed
    && s'.cases[c].actions == map[a := Action(Ready, a)] && s'.cases[c].state == ExecutingAction
    && s'.requests == s.requests[id := Submitting(c, a)]
  }

  /**
   A confirmation is carried out: its check passes exactly when the proposal may be answered, and its
   completed confirmation leaves the proposal confirmed, its action ready and the request about to
   submit it.
   */
  lemma ConfirmingConfirms(run: seq<State>, events: seq<Event>, reader: Reader, k: nat, id: RequestId, move: Move,
      c: CaseId, q: ProposalId, v: nat)
    requires IsRun(run, events, reader) && k < |events| && events[k] == Moves(id, move) && id in run[k].requests
    requires |run| == |events| + 1 && ArrivedAs(run, events, k, id) == Some(Confirming(c, q, v))
    ensures run[k].requests[id].Entered? && c in run[k].cases && move.Check? ==>
      if MayAnswer(run[k].cases[c], q, v, move.now)
      then run[k + 1] == run[k].(requests := run[k].requests[id := Checked(c, q)])
      else id !in run[k + 1].requests
    ensures run[k].requests[id] == Checked(c, q) && move == GateStillHolds(true) ==>
      run[k + 1] == run[k].(requests := run[k].requests[id := Confirmable(c, q)])
    ensures run[k].requests[id] == Confirmable(c, q) && move == WriteConfirmation ==>
      ConfirmationStands(run[k], id, c, q, v, run[k + 1])
  {
    hide IsRun, StateKept, Next, ArrivedAs, ConfirmationStands;
    EveryRequestServes(run, events, reader, k, id);
    RunKept(run, events, reader, k);
    RunStep(run, events, reader, k);
    if c in run[k].cases && run[k].requests[id].Entered? && move.Check? {
      CheckGoesOn(run[k], id, c, q, v, move.now, Checked(c, q));
      CheckIsNext(run[k], id, Confirming(c, q, v), move, reader);
    } else if run[k].requests[id] == Checked(c, q) || run[k].requests[id] == Confirmable(c, q) {
      ConfirmingMoves(run[k], id, c, q, v, move, reader);
    }
  }

  lemma ConfirmingMoves(s: State, id: RequestId, c: CaseId, q: ProposalId, v: nat, move: Move, reader: Reader)
    requires StateKept(s) && id in s.requests && VersionIs(s, c, q, v)
    ensures s.requests[id] == Checked(c, q) && move == GateStillHolds(true) ==>
      Next(s, Moves(id, move), reader) == s.(requests := s.requests[id := Confirmable(c, q)])
    ensures s.requests[id] == Confirmable(c, q) && move == WriteConfirmation ==>
      ConfirmationStands(s, id, c, q, v, Next(s, Moves(id, move), reader))
  {
    hide StateKept, Confirm, ConfirmationStands;
    if s.requests[id] == Confirmable(c, q) && move == WriteConfirmation {
      ConfirmationIsWritten(s, id, c, q, v, reader);
    }
  }

  lemma ConfirmationIsWritten(s: State, id: RequestId, c: CaseId, q: ProposalId, v: nat, reader: Reader)
    requires StateKept(s) && id in s.requests && VersionIs(s, c, q, v) && s.requests[id] == Confirmable(c, q)
    ensures ConfirmationStands(s, id, c, q, v, Next(s, Moves(id, WriteConfirmation), reader))
  {
    hide StateKept, RowsKept, Kept, Confirm;
    HolderHasLock(s, id);
    HeldCase(s, id, Confirmable(c, q), c);
    ConfirmKeeps(s.cases[c], q);
  }

  // ---------- A request revises the issue at most once ----------

  ghost predicate Revises(run: seq<State>, events: seq<Event>, k: nat, id: RequestId)
    requires |run| == |events| + 1 && k < |events|
  {
    events[k] == Moves(id, GateDecides(ReviseIssue)) && id in run[k].requests && run[k].requests[id].Looking?
  }

  predicate PastRevision(p: Progress) {
    (p.Looking? && !p.mayRevise) || p.Proposing? || p.Asking? || p.AskRecorded?
  }

  lemma {:induction false} RevisedStaysRevised(run: seq<State>, events: seq<Event>, reader: Reader, j: nat, k: nat,
      id: RequestId)
    requires IsRun(run, events, reader) && |run| == |events| + 1 && j < k <= |events| && Stays(run, id, j, k)
    requires Revises(run, events, j, id)
    ensures PastRevision(run[k].requests[id])
    decreases k
  {
    hide IsRun, StateKept, Next;
    RequestMoved(run, events, reader, k - 1, id);
    RunKept(run, events, reader, k - 1);
    RunStep(run, events, reader, k - 1);
    if j < k - 1 {
      RevisedStaysRevised(run, events, reader, j, k - 1, id);
    } else {
      RevisingMovesOn(run[j], id, reader);
    }
  }

  lemma RevisingMovesOn(s: State, id: RequestId, reader: Reader)
    requires StateKept(s) && id in s.requests && s.requests[id].Looking?
    requires id in Next(s, Moves(id, GateDecides(ReviseIssue)), reader).requests
    ensures PastRevision(Next(s, Moves(id, GateDecides(ReviseIssue)), reader).requests[id])
  {
    hide StateKept, CloseCase, RowsKept, Kept;
    HolderHasLock(s, id);
    HeldCase(s, id, s.requests[id], s.requests[id].caseId);
  }

  /**
   A request revises the reported issue at most once: the gate's second revision closes the Case for
   human support.
   */
  lemma RevisedAtMostOnce(run: seq<State>, events: seq<Event>, reader: Reader, j: nat, k: nat, id: RequestId)
    requires IsRun(run, events, reader) && |run| == |events| + 1 && j < k < |events| && Stays(run, id, j, k)
    requires Revises(run, events, j, id) && Revises(run, events, k, id)
    ensures var c := run[k].requests[id].caseId;
      && c in run[k + 1].cases && run[k + 1].cases[c].state == Closed
      && run[k + 1].cases[c].outcome == Some(HumanSupportRequired)
  {
    hide IsRun, StateKept, Next;
    RevisedStaysRevised(run, events, reader, j, k, id);
    RunKept(run, events, reader, k);
    RunStep(run, events, reader, k);
    SecondRevisionCloses(run[k], id, reader);
  }

  lemma SecondRevisionCloses(s: State, id: RequestId, reader: Reader)
    requires StateKept(s) && id in s.requests && s.requests[id].Looking? && !s.requests[id].mayRevise
    ensures var c, s' := s.requests[id].caseId, Next(s, Moves(id, GateDecides(ReviseIssue)), reader);
      c in s'.cases && s'.cases[c].state == Closed && s'.cases[c].outcome == Some(HumanSupportRequired)
  {
    hide StateKept, Next, RowsKept, Kept;
    HolderHasLock(s, id);
    HeldCase(s, id, s.requests[id], s.requests[id].caseId);
    NextMeans(s, Moves(id, GateDecides(ReviseIssue)), reader, s.requests[id].caseId);
  }
}
