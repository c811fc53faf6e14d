/** Which open Cases can still be closed, and which are stranded for good by a crash. */
module CaseProtocolProgress {
  import opened Options
  import opened CaseFacts
  import opened CaseFactLedger
  import opened CaseFactHistory
  import opened CaseRows
  import opened CaseSafety
  import opened CaseProtocol
  import opened CaseProtocolSafety
  import opened CaseProtocolSteps

  /** Some continuation closes the Case. */
  ghost predicate CanClose(s: State, c: CaseId, reader: Reader) {
    exists more: seq<Event> :: IsClosed(After(s, more, reader), c)
  }

  predicate IsClosed(s: State, c: CaseId) {
    c in s.cases && s.cases[c].state == Closed
  }

  predicate WorksOn(s: State, c: CaseId) {
    s.lock.Some? && s.lock.value in s.requests && CaseOf(s.requests[s.lock.value]) == Some(c)
  }

  /** In the middle of an investigation or of an action, with no request at work on it. */
  predicate Stranded(s: State, c: CaseId) {
    c in s.cases && s.cases[c].state in {Investigating, ExecutingAction} && !WorksOn(s, c)
  }

  lemma ClosedAlready(s: State, c: CaseId, reader: Reader)
    requires IsClosed(s, c)
    ensures CanClose(s, c, reader)
  {
    assert After(s, [], reader) == s;
  }

  lemma OneEarlier(s: State, e: Event, c: CaseId, reader: Reader)
    requires CanClose(Next(s, e, reader), c, reader)
    ensures CanClose(s, c, reader)
  {
    hide Next, IsClosed;
    var more :| IsClosed(After(Next(s, e, reader), more, reader), c);
    assert ([e] + more)[1..] == more;
    assert After(s, [e] + more, reader) == After(Next(s, e, reader), more, reader);
  }

  // ---------- Work that closes the Case at once ----------

  lemma HolderMoves(s: State, id: RequestId, p: Progress, c: CaseId, move: Move, reader: Reader)
    requires id in s.requests && s.requests[id] == p && CaseOf(p) == Some(c) && c in s.cases
    ensures Next(s, Moves(id, move), reader) == CaseMoves(s, id, p, c, move, reader)
  {
    hide CaseMoves;
  }

  lemma LookingCloses(s: State, id: RequestId, c: CaseId, mayRevise: bool, reader: Reader)
    requires Holds(s, id, Looking(c, mayRevise), c)
    ensures CanClose(s, c, reader)
  {
    hide StateKept, Commit, RowsKept, Kept, CloseCase, CanClose;
    var move := GateDecides(CloseResolved);
    HeldCase(s, id, Looking(c, mayRevise), c);
    CloseRow(s.cases[c], ResolvedNoAction);
    CommitRows(s, id, c, CloseCase(s.cases[c], ResolvedNoAction), None);
    HolderMoves(s, id, Looking(c, mayRevise), c, move, reader);
    ClosedAlready(Next(s, Moves(id, move), reader), c, reader);
    OneEarlier(s, Moves(id, move), c, reader);
  }

  lemma TerminalFaultCloses(s: State, id: RequestId, c: CaseId, a: StableId, reader: Reader)
    requires Holds(s, id, FaultPending(c, a, TerminalFault), c)
    ensures CanClose(s, c, reader)
  {
    hide StateKept, Commit, RowsKept, Kept, RecordFault, CanClose;
    HeldCase(s, id, FaultPending(c, a, TerminalFault), c);
    FaultRecorded(s.cases[c], a, TerminalFault);
    CommitRows(s, id, c, RecordFault(s.cases[c], a, TerminalFault), None);
    HolderMoves(s, id, FaultPending(c, a, TerminalFault), c, WriteFault, reader);
    ClosedAlready(Next(s, Moves(id, WriteFault), reader), c, reader);
    OneEarlier(s, Moves(id, WriteFault), c, reader);
  }

  lemma SubmittingCloses(s: State, id: RequestId, c: CaseId, a: StableId, reader: Reader)
    requires Holds(s, id, Submitting(c, a), c)
    ensures CanClose(s, c, reader)
  {
    hide StateKept, RowsKept, Kept, Submit, CanClose, AllEvolve, Next;
    var move := SubmitNow(Some(TerminalFault), false);
    HeldCase(s, id, Submitting(c, a), c);
    SubmitKeeps(s.cases[c], a, true, false);
    HolderMoves(s, id, Submitting(c, a), c, move, reader);
    NextGood(s, Moves(id, move), reader);
    TerminalFaultCloses(Next(s, Moves(id, move), reader), id, c, a, reader);
    OneEarlier(s, Moves(id, move), c, reader);
  }

  lemma ReadingBackCloses(s: State, id: RequestId, c: CaseId, a: StableId, reader: Reader)
    requires Holds(s, id, ReadingBack(c, a), c)
    ensures CanClose(s, c, reader)
  {
    hide StateKept, Commit, RowsKept, Kept, ReadBack, CanClose;
    HeldCase(s, id, ReadingBack(c, a), c);
    var row := s.cases[c];
    ReadBackKeeps(row, a);
    CommitRows(s, id, c, ReadBack(row, a, row.actions[a].key), None);
    HolderMoves(s, id, ReadingBack(c, a), c, ReadBackNow, reader);
    ClosedAlready(Next(s, Moves(id, ReadBackNow), reader), c, reader);
    OneEarlier(s, Moves(id, ReadBackNow), c, reader);
  }

  // ---------- Waiting Cases ----------

  /** No request at all: what a restart of the process leaves. */
  predicate Idle(s: State) {
    s.lock == None && s.requests == map[]
  }

  lemma AfterRestart(s: State, c: CaseId, reader: Reader)
    requires StateKept(s)
    requires StateKept(s.(lock := None, requests := map[])) ==> CanClose(s.(lock := None, requests := map[]), c, reader)
    ensures CanClose(s, c, reader)
  {
    hide StateKept, CanClose, AllEvolve;
    NextGood(s, ProcessRestarts, reader);
    OneEarlier(s, ProcessRestarts, c, reader);
  }

  /** A request of any kind arrives at an idle conversation and enters. */
  function EnteredBy(s: State, kind: Kind): State {
    s.(lock := Some(0), requests := map[0 := Entered(kind)])
  }

  lemma AfterEntering(s: State, kind: Kind, c: CaseId, reader: Reader)
    requires StateKept(s) && Idle(s)
    requires StateKept(EnteredBy(s, kind)) ==> CanClose(EnteredBy(s, kind), c, reader)
    ensures CanClose(s, c, reader)
  {
    hide StateKept, CanClose, AllEvolve, IsClosed;
    var s1 := Next(s, Arrives(0, kind), reader);
    assert s1 == s.(requests := map[0 := Waiting(kind)]);
    var s2 := Next(s1, Acquires(0), reader);
    assert s2 == EnteredBy(s, kind);
    NextGood(s, Arrives(0, kind), reader);
    NextGood(s1, Acquires(0), reader);
    OneEarlier(s1, Acquires(0), c, reader);
    OneEarlier(s, Arrives(0, kind), c, reader);
  }

  lemma EnteredNext(s: State, kind: Kind, move: Move, reader: Reader)
    ensures Next(EnteredBy(s, kind), Moves(0, move), reader) == EnteredMoves(EnteredBy(s, kind), 0, kind, move)
  {
    hide EnteredMoves;
  }

  /** A retry resumes the action or the investigation, and either can end in a closed Case. */
  lemma RetryCloses(s: State, c: CaseId, reader: Reader)
    requires StateKept(s) && s.lock == Some(0) && 0 in s.requests && s.requests[0] == Entered(Retrying(c))
    requires c in s.cases && s.cases[c].state == AwaitingRetry
    ensures CanClose(s, c, reader)
  {
    hide CasesKept, LockKept, ProgressKept, CanClose, RowsKept, Kept, PlanRetry, MoveCase, AllEvolve, IsClosed;
    var row := s.cases[c];
    KeptCase(s, c);
    RetryGuardsNeverFire(row);
    NextGood(s, Moves(0, Admit), reader);
    var next := Next(s, Moves(0, Admit), reader);
    assert next == AdmitRetry(s, 0, c);
    if row.actions == map[] {
      ReinvestigateKeeps(row);
      LookingCloses(next, 0, c, true, reader);
    } else {
      var a := PlanRetry(row).action;
      ResumeKeeps(row, a);
      SubmittingCloses(next, 0, c, a, reader);
    }
    OneEarlier(s, Moves(0, Admit), c, reader);
  }

  lemma ClarifyingCloses(s: State, id: RequestId, c: CaseId, reader: Reader)
    requires Holds(s, id, Clarifying(c), c)
    ensures CanClose(s, c, reader)
  {
    hide StateKept, Commit, RowsKept, Kept, CloseCase, CanClose, AllEvolve;
    HeldCase(s, id, Clarifying(c), c);
    var row := s.cases[c];
    HolderMoves(s, id, Clarifying(c), c, StartLooking, reader);
    NextGood(s, Moves(id, StartLooking), reader);
    if row.clarifications >= CLARIFICATION_LIMIT {
      CloseRow(row, HumanSupportRequired);
      CommitRows(s, id, c, CloseCase(row, HumanSupportRequired), None);
      ClosedAlready(Next(s, Moves(id, StartLooking), reader), c, reader);
    } else {
      LookingCloses(Next(s, Moves(id, StartLooking), reader), id, c, true, reader);
    }
    OneEarlier(s, Moves(id, StartLooking), c, reader);
  }

  /** The answer to a message for a waiting Case resumes its investigation. */
  lemma MessageCloses(s: State, c: CaseId, reader: Reader)
    requires StateKept(s) && s.lock == Some(0) && 0 in s.requests && s.requests[0] == Entered(Posting)
    requires c in s.cases && s.cases[c].state == AwaitingCustomerInput
    ensures CanClose(s, c, reader)
  {
    hide CasesKept, LockKept, ProgressKept, CanClose, CaseKept, AllEvolve, IsClosed;
    KeptCase(s, c);
    NextGood(s, Moves(0, Admit), reader);
    var next := Next(s, Moves(0, Admit), reader);
    assert next == AdmitMessage(s, 0);
    ClarifyingCloses(next, 0, c, reader);
    OneEarlier(s, Moves(0, Admit), c, reader);
  }

  lemma DeclinableCloses(s: State, id: RequestId, c: CaseId, p: ProposalId, reader: Reader)
    requires Holds(s, id, Declinable(c, p), c)
    ensures CanClose(s, c, reader)
  {
    hide StateKept, Commit, RowsKept, Kept, Decline, CanClose;
    HeldCase(s, id, Declinable(c, p), c);
    DeclineKeeps(s.cases[c], p);
    CommitRows(s, id, c, Decline(s.cases[c], p), None);
    HolderMoves(s, id, Declinable(c, p), c, WriteRefusal, reader);
    ClosedAlready(Next(s, Moves(id, WriteRefusal), reader), c, reader);
    OneEarlier(s, Moves(id, WriteRefusal), c, reader);
  }

  /** A pending proposal can be declined in time. */
  lemma RefusalCloses(s: State, c: CaseId, p: ProposalId, reader: Reader)
    requires c in s.cases && IsPending(s.cases[c], p)
    requires StateKept(s) && s.lock == Some(0) && 0 in s.requests
    requires s.requests[0] == Entered(Declining(c, p, s.cases[c].proposals[p].version))
    ensures CanClose(s, c, reader)
  {
    hide CasesKept, LockKept, ProgressKept, CanClose, RowsKept, Kept, AllEvolve, IsClosed;
    var row := s.cases[c];
    KeptCase(s, c);
    PendingIsActive(row, p);
    var move := Check(row.proposals[p].expiresAt - 1);
    NextGood(s, Moves(0, move), reader);
    var next := Next(s, Moves(0, move), reader);
    assert next == Continue(s, 0, Declinable(c, p));
    DeclinableCloses(next, 0, c, p, reader);
    OneEarlier(s, Moves(0, move), c, reader);
  }

  predicate Waits(row: CaseRow) {
    row.state in {AwaitingRetry, AwaitingCustomerInput, AwaitingCustomerConfirmation}
  }

  lemma SomePending(row: CaseRow) returns (p: ProposalId)
    requires RowsKept(row) && row.state == AwaitingCustomerConfirmation
    ensures IsPending(row, p)
  {
    p := row.active.value;
  }

  lemma IdleCloses(s: State, c: CaseId, reader: Reader)
    requires StateKept(s) && Idle(s) && c in s.cases && Waits(s.cases[c])
    ensures CanClose(s, c, reader)
  {
    hide StateKept, CanClose, Next, RowsKept, Kept, IsPending;
    if s.cases[c].state == AwaitingRetry {
      if StateKept(EnteredBy(s, Retrying(c))) {
        RetryCloses(EnteredBy(s, Retrying(c)), c, reader);
      }
      AfterEntering(s, Retrying(c), c, reader);
    } else if s.cases[c].state == AwaitingCustomerInput {
      if StateKept(EnteredBy(s, Posting)) {
        MessageCloses(EnteredBy(s, Posting), c, reader);
      }
      AfterEntering(s, Posting, c, reader);
    } else {
      StateCase(s, c);
      KeptRows(s.cases[c]);
      var p := SomePending(s.cases[c]);
      PendingExists(s.cases[c], p);
      var kind := Declining(c, p, s.cases[c].proposals[p].version);
      if StateKept(EnteredBy(s, kind)) {
        RefusalCloses(EnteredBy(s, kind), c, p, reader);
      }
      AfterEntering(s, kind, c, reader);
    }
  }

  lemma PendingExists(row: CaseRow, p: ProposalId)
    requires IsPending(row, p)
    ensures p in row.proposals
  {
  }

  /** A waiting Case closes from any state: whatever is going on may crash first. */
  lemma WaitingCloses(s: State, c: CaseId, reader: Reader)
    requires StateKept(s) && c in s.cases && Waits(s.cases[c])
    ensures CanClose(s, c, reader)
  {
    hide StateKept, CanClose;
    var idle := s.(lock := None, requests := map[]);
    if StateKept(idle) {
      IdleCloses(idle, c, reader);
    }
    AfterRestart(s, c, reader);
  }

  // ---------- Work under way ----------

  lemma FaultCloses(s: State, id: RequestId, c: CaseId, a: StableId, fault: Fault, reader: Reader)
    requires Holds(s, id, FaultPending(c, a, fault), c)
    ensures CanClose(s, c, reader)
  {
    hide StateKept, Commit, RowsKept, Kept, RecordFault, CanClose, AllEvolve;
    var p := FaultPending(c, a, fault);
    HeldCase(s, id, p, c);
    FaultRecorded(s.cases[c], a, fault);
    CommitRows(s, id, c, RecordFault(s.cases[c], a, fault), None);
    HolderMoves(s, id, p, c, WriteFault, reader);
    var next := Next(s, Moves(id, WriteFault), reader);
    if fault == RetryableFault {
      NextGood(s, Moves(id, WriteFault), reader);
      WaitingCloses(next, c, reader);
    } else {
      ClosedAlready(next, c, reader);
    }
    OneEarlier(s, Moves(id, WriteFault), c, reader);
  }

  lemma AskRecordedCloses(s: State, id: RequestId, c: CaseId, created: bool, reader: Reader)
    requires Holds(s, id, AskRecorded(c, created), c)
    ensures CanClose(s, c, reader)
  {
    hide StateKept, Commit, RowsKept, Kept, AskCustomer, CanClose, AllEvolve;
    HeldCase(s, id, AskRecorded(c, created), c);
    AskKeeps(s.cases[c]);
    CommitRows(s, id, c, AskCustomer(s.cases[c], created), None);
    HolderMoves(s, id, AskRecorded(c, created), c, WriteQuestion, reader);
    NextGood(s, Moves(id, WriteQuestion), reader);
    WaitingCloses(Next(s, Moves(id, WriteQuestion), reader), c, reader);
    OneEarlier(s, Moves(id, WriteQuestion), c, reader);
  }

  lemma AskingCloses(s: State, id: RequestId, c: CaseId, reader: Reader)
    requires Holds(s, id, Asking(c), c)
    ensures CanClose(s, c, reader)
  {
    hide StateKept, RowsKept, Kept, AskFact, CanClose, AllEvolve, Next;
    var move := RecordQuestionNow(0);
    HeldCase(s, id, Asking(c), c);
    AskFactRows(s, id, c, 0);
    HolderMoves(s, id, Asking(c), c, move, reader);
    NextGood(s, Moves(id, move), reader);
    var next := Next(s, Moves(id, move), reader);
    if IsClosed(next, c) {
      ClosedAlready(next, c, reader);
    } else {
      AskRecordedCloses(next, id, c, next.requests[id].created, reader);
    }
    OneEarlier(s, Moves(id, move), c, reader);
  }

  /** A finite set of proposals leaves an id free. */
  lemma {:induction false} FreeId(taken: set<ProposalId>) returns (p: ProposalId)
    ensures p !in taken && forall q :: q in taken ==> |q| < |p|
    decreases |taken|
  {
    if taken == {} {
      p := "";
    } else {
      var q :| q in taken;
      p := FreeId(taken - {q});
      p := if |q| < |p| then p else q + "+";
    }
  }

  lemma ProposingCloses(s: State, id: RequestId, c: CaseId, p: Progress, reader: Reader)
    requires Holds(s, id, p, c) && p.Proposing?
    ensures CanClose(s, c, reader)
  {
    hide StateKept, Commit, RowsKept, Kept, Propose, CanClose, AllEvolve;
    HeldCase(s, id, p, c);
    var row := s.cases[c];
    var proposal := FreeId(row.proposals.Keys);
    var move := WriteProposal(proposal, 0);
    ProposeKeeps(row, proposal, p.version, 0);
    CommitRows(s, id, c, Propose(row, [], proposal, p.version, 0), None);
    HolderMoves(s, id, p, c, move, reader);
    NextGood(s, Moves(id, move), reader);
    WaitingCloses(Next(s, Moves(id, move), reader), c, reader);
    OneEarlier(s, Moves(id, move), c, reader);
  }

  lemma OpenedCloses(s: State, id: RequestId, c: CaseId, reader: Reader)
    requires Holds(s, id, Opened(c), c)
    ensures CanClose(s, c, reader)
  {
    hide StateKept, RowsKept, Kept, CanClose, AllEvolve;
    HeldCase(s, id, Opened(c), c);
    HolderMoves(s, id, Opened(c), c, StartLooking, reader);
    NextGood(s, Moves(id, StartLooking), reader);
    LookingCloses(Next(s, Moves(id, StartLooking), reader), id, c, true, reader);
    OneEarlier(s, Moves(id, StartLooking), c, reader);
  }

  /** Whatever the lock holder is doing for its Case, it can be brought to an end. */
  lemma WorkCloses(s: State, id: RequestId, p: Progress, c: CaseId, reader: Reader)
    requires Holds(s, id, p, c)
    ensures CanClose(s, c, reader)
  {
    hide StateKept, CanClose, RowsKept, Kept;
    HeldCase(s, id, p, c);
    if Waits(s.cases[c]) {
      WaitingCloses(s, c, reader);
    } else {
      match p
      case Opened(_) => OpenedCloses(s, id, c, reader);
      case Looking(_, mayRevise) => LookingCloses(s, id, c, mayRevise, reader);
      case Proposing(_, _, _) => ProposingCloses(s, id, c, p, reader);
      case Asking(_) => AskingCloses(s, id, c, reader);
      case AskRecorded(_, created) => AskRecordedCloses(s, id, c, created, reader);
      case Submitting(_, a) => SubmittingCloses(s, id, c, a, reader);
      case ReadingBack(_, a) => ReadingBackCloses(s, id, c, a, reader);
      case FaultPending(_, a, fault) => FaultCloses(s, id, c, a, fault, reader);
      case Checked(_, q) => PendingIsActive(s.cases[c], q);
      case Confirmable(_, q) => PendingIsActive(s.cases[c], q);
      case Declinable(_, q) => PendingIsActive(s.cases[c], q);
      case _ =>
    }
  }

  // ---------- Stranded Cases ----------

  /** The lock holder works on the one open Case or on none. */
  lemma WorksOnOpen(s: State, id: RequestId)
    requires StateKept(s) && s.lock == Some(id) && CaseOf(s.requests[id]).Some?
    ensures s.active == CaseOf(s.requests[id])
  {
    hide RowsKept, Kept;
    var p := s.requests[id];
    var d := CaseOf(p).value;
    HeldCase(s, id, p, d);
    KeptCase(s, d);
    if p.Checked? || p.Confirmable? || p.Declinable? {
      PendingIsActive(s.cases[d], p.proposal);
    }
  }

  /** Nothing a request may do next changes the rows of any Case while one is stranded. */
  lemma StrandedEntered(s: State, id: RequestId, kind: Kind, move: Move, c: CaseId)
    requires StateKept(s) && s.lock == Some(id) && id in s.requests && s.requests[id] == Entered(kind) && Stranded(s, c)
    ensures EnteredMoves(s, id, kind, move).cases == s.cases && !WorksOn(EnteredMoves(s, id, kind, move), c)
  {
    hide LockKept, ProgressKept, CasesKept, RowsKept, Kept, PlanRetry;
    KeptCase(s, c);
    match kind
    case Posting =>
    case Retrying(d) =>
      if d in s.cases {
        KeptCase(s, d);
        assert s.cases[d].state != AwaitingRetry;
        assert PlanRetry(s.cases[d]) == NotRetryable by { NotAwaitingRetry(s.cases[d]); }
      }
    case Confirming(d, p, _) => StrandedCheck(s, c, d, p);
    case Declining(d, p, _) => StrandedCheck(s, c, d, p);
  }

  lemma NotAwaitingRetry(row: CaseRow)
    requires row.state != AwaitingRetry
    ensures PlanRetry(row) == NotRetryable
  {
  }

  lemma StrandedCheck(s: State, c: CaseId, d: CaseId, p: ProposalId)
    requires StateKept(s) && Stranded(s, c)
    ensures d in s.cases ==> !IsPending(s.cases[d], p)
  {
    hide LockKept, ProgressKept, CasesKept, RowsKept, Kept;
    KeptCase(s, c);
    if d in s.cases && IsPending(s.cases[d], p) {
      KeptCase(s, d);
      PendingIsActive(s.cases[d], p);
    }
  }

  lemma StrandedStep(s: State, e: Event, c: CaseId, reader: Reader)
    requires StateKept(s) && Stranded(s, c)
    ensures Next(s, e, reader).cases == s.cases && Stranded(Next(s, e, reader), c)
  {
    hide StateKept, EnteredMoves, CaseMoves;
    StateCase(s, c);
    if e.Moves? && e.id in s.requests && HoldsLock(s.requests[e.id]) {
      var p := s.requests[e.id];
      HolderHasLock(s, e.id);
      StrandedIsActive(s, c);
      if CaseOf(p).Some? {
        WorksOnOpen(s, e.id);
      }
      NotTriaging(s, e.id);
      if p.Entered? {
        StrandedEntered(s, e.id, p.kind, e.move, c);
      }
    }
  }

  lemma StrandedIsActive(s: State, c: CaseId)
    requires StateKept(s) && Stranded(s, c)
    ensures s.active == Some(c)
  {
    hide CaseKept;
    KeptCase(s, c);
  }

  lemma NotTriaging(s: State, id: RequestId)
    requires StateKept(s) && s.lock == Some(id) && s.active.Some?
    ensures !s.requests[id].Triaging?
  {
    hide CasesKept;
  }

  /** Once stranded, a Case stays as it is and so does every other: no event changes a row or opens a Case again. */
  lemma {:induction false} StrandedForGood(s: State, more: seq<Event>, c: CaseId, reader: Reader)
    requires StateKept(s) && Stranded(s, c)
    ensures After(s, more, reader).cases == s.cases && Stranded(After(s, more, reader), c)
    decreases |more|
  {
    hide StateKept, Next, AllEvolve, Stranded;
    if more != [] {
      StrandedStep(s, more[0], c, reader);
      NextGood(s, more[0], reader);
      StrandedForGood(Next(s, more[0], reader), more[1..], c, reader);
    }
  }

  /**
   Exactly which open Cases of a reachable state can still be closed: all but those that an abort or a
   restart caught in the middle of an investigation or of an action. Those block their conversation
   for good, since no request moves them and no later event changes any Case or opens another.
   */
  lemma ClosableExactly(run: seq<State>, events: seq<Event>, reader: Reader, k: nat, c: CaseId)
    requires IsRun(run, events, reader) && k < |run| && c in run[k].cases
    ensures CanClose(run[k], c, reader) <==> !Stranded(run[k], c)
    ensures Stranded(run[k], c) ==> forall more :: After(run[k], more, reader).cases == run[k].cases
  {
    hide IsRun, StateKept, AllEvolve, CanClose;
    RunKept(run, events, reader, k);
    var s := run[k];
    if Stranded(s, c) {
      forall more ensures After(s, more, reader).cases == s.cases {
        StrandedForGood(s, more, c, reader);
      }
      NeverCloses(s, c, reader);
    } else if IsClosed(s, c) {
      ClosedAlready(s, c, reader);
    } else if WorksOn(s, c) {
      WorkCloses(s, s.lock.value, s.requests[s.lock.value], c, reader);
    } else {
      WaitingCloses(s, c, reader);
    }
  }

  lemma NeverCloses(s: State, c: CaseId, reader: Reader)
    requires Stranded(s, c) && forall more :: After(s, more, reader).cases == s.cases
    ensures !CanClose(s, c, reader)
  {
    hide After;
  }
}
