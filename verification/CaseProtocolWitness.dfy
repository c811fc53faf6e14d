/** Runs that take the edges the published Case table does not have, one for each of the four. */
module CaseProtocolWitness {
  import opened Options
  import opened CaseFacts
  import opened CaseFactLedger
  import opened CaseFactHistory
  import opened CaseRows
  import opened CaseSafety
  import opened CaseProtocol
  import opened CaseProtocolSafety
  import opened CaseProtocolSteps
  import opened CaseProtocolProgress

  const PROOF := ProofContext("call", "hash")

  /** Request 0 holds the lock and has come this far. */
  predicate At(s: State, p: Progress) {
    s.lock == Some(0) && s.requests == map[0 := p]
  }

  ghost function Reached(events: seq<Event>, reader: Reader): State {
    After(START, events, reader)
  }

  ghost function RunOf(events: seq<Event>, reader: Reader): seq<State> {
    seq(|events| + 1, i requires 0 <= i <= |events| => Reached(events[..i], reader))
  }

  lemma {:induction false} AfterSnoc(s: State, events: seq<Event>, e: Event, reader: Reader)
    ensures After(s, events + [e], reader) == Next(After(s, events, reader), e, reader)
    decreases |events|
  {
    hide Next;
    if events == [] {
      assert [e][1..] == [];
      assert After(Next(s, e, reader), [], reader) == Next(s, e, reader);
    } else {
      assert (events + [e])[1..] == events[1..] + [e];
      AfterSnoc(Next(s, events[0], reader), events[1..], e, reader);
    }
  }

  lemma RunOfIsRun(events: seq<Event>, reader: Reader)
    ensures IsRun(RunOf(events, reader), events, reader)
    ensures RunOf(events, reader)[|events|] == Reached(events, reader)
  {
    hide Next, After;
    var run := RunOf(events, reader);
    forall i {:trigger events[i]} | 0 <= i < |events| ensures run[i + 1] == Next(run[i], events[i], reader) {
      assert events[..i + 1] == events[..i] + [events[i]];
      AfterSnoc(START, events[..i], events[i], reader);
    }
    assert run[0] == START by { NothingReached(reader); }
    assert events[..|events|] == events;
  }

  lemma Extend(events: seq<Event>, e: Event, reader: Reader)
    ensures Reached(events + [e], reader) == Next(Reached(events, reader), e, reader)
  {
    AfterSnoc(START, events, e, reader);
  }

  /** A request of any kind arrives at an idle conversation and enters. */
  lemma EnterAs(events: seq<Event>, kind: Kind, reader: Reader) returns (more: seq<Event>)
    requires Idle(Reached(events, reader))
    ensures Reached(more, reader) == EnteredBy(Reached(events, reader), kind)
  {
    hide Reached;
    var e1 := events + [Arrives(0, kind)];
    more := e1 + [Acquires(0)];
    Extend(events, Arrives(0, kind), reader);
    Extend(e1, Acquires(0), reader);
    assert Reached(e1, reader) == Reached(events, reader).(requests := map[0 := Waiting(kind)]);
  }

  lemma MoveIn(events: seq<Event>, kind: Kind, move: Move, reader: Reader) returns (more: seq<Event>)
    requires Idle(Reached(events, reader))
    ensures var s := EnteredBy(Reached(events, reader), kind);
      Reached(more, reader) == EnteredMoves(s, 0, kind, move)
  {
    hide Reached, EnteredMoves;
    var e1 := EnterAs(events, kind, reader);
    more := e1 + [Moves(0, move)];
    Extend(e1, Moves(0, move), reader);
    EnteredNext(Reached(events, reader), kind, move, reader);
  }

  /** A customer message takes the lock and is admitted. */
  lemma PostMessage(events: seq<Event>, reader: Reader) returns (more: seq<Event>)
    requires Idle(Reached(events, reader))
    ensures Reached(more, reader) == AdmitMessage(EnteredBy(Reached(events, reader), Posting), 0)
  {
    hide Reached, AdmitMessage;
    more := MoveIn(events, Posting, Admit, reader);
  }

  /** The holder's next move on its Case. */
  lemma MoveOn(events: seq<Event>, p: Progress, c: CaseId, move: Move, reader: Reader)
    requires var s := Reached(events, reader); At(s, p) && CaseOf(p) == Some(c) && c in s.cases
    ensures Reached(events + [Moves(0, move)], reader) == CaseMoves(Reached(events, reader), 0, p, c, move, reader)
  {
    hide Reached, CaseMoves;
    Extend(events, Moves(0, move), reader);
  }

  function Proved(c: CaseId): CaseRow {
    NewCase(c).(facts := NewCase(c).facts.(proof := Some(PROOF)))
  }

  lemma ProvedIsKept(c: CaseId)
    ensures Kept(Proved(c).facts)
  {
    NewLedgerKept(c);
    ProofKeeps(NewLedger(c), PROOF);
  }

  /** Nothing asserted and nothing asked: the location question is open and may be asked. */
  lemma LocationIsOpen(c: CaseId)
    ensures var snapshot := SnapshotOf(c, [], [], Some(PROOF));
      snapshot.Asked(LocationChecked) == QuestionState(0, Unanswered)
          && snapshot.Fact(LocationChecked).status == UnknownFact
  {
    assert OfFact([], LocationChecked) == [];
  }

  /** With a delivery proof and nothing asked yet, the location question is asked. */
  lemma QuestionIsAsked(c: CaseId)
    ensures Load(Proved(c).facts).Ok?
    ensures var (facts, asked) := RecordQuestion(Proved(c).facts, LocationChecked, 0, 0);
      asked.Ok? && asked.value.created
  {
    hide SnapshotOf, Kept;
    var l := Proved(c).facts;
    ProvedIsKept(c);
    KeptRebuilds(l);
    LocationIsOpen(c);
    hide Recomputed;
    AskEffect(l, LocationChecked, 0, 0);
    QuestionIsNotRefused(l);
  }

  lemma QuestionIsNotRefused(l: Ledger)
    requires Kept(l) && l.questions == [] && l.proof == Some(PROOF)
    requires Recomputed(l).Some? && Recomputed(l).value.Asked(LocationChecked) == QuestionState(0, Unanswered)
    ensures RecordQuestion(l, LocationChecked, 0, 0).1.Ok?
  {
    hide Recomputed, AssertionsKept, ConsumptionsKept, UniqueMessages, SnapshotOf;
    var q := QuestionOn(l, Recomputed(l).value, LocationChecked, 0);
    KeptRebuilds(l);
    AllowedIsFirst(l, LocationChecked, 0, 0);
    AskedQuestionsKept(l, q);
    MoreQuestions(l, q);
    RevisionGrows(l, q);
    RefreshKeeps(l.(questions := l.questions + [q]));
  }

  lemma NothingReached(reader: Reader)
    ensures Reached([], reader) == START
  {
  }

  lemma OpenedCase(c: CaseId, reader: Reader) returns (events: seq<Event>)
    ensures Reached(events, reader) == State(map[c := NewCase(c)], Some(c), Some(0), map[0 := Opened(c)])
  {
    hide Reached, CaseMoves, NewCase;
    NothingReached(reader);
    var e1 := PostMessage([], reader);
    assert Reached(e1, reader) == State(map[], None, Some(0), map[0 := Triaging]);
    events := e1 + [Moves(0, OpenCase(c))];
    Extend(e1, Moves(0, OpenCase(c)), reader);
  }

  /** A new Case whose delivery proof has just arrived. */
  lemma CaseWithProof(c: CaseId, reader: Reader) returns (events: seq<Event>)
    ensures Reached(events, reader) == State(map[c := Proved(c)], Some(c), Some(0), map[0 := Looking(c, true)])
  {
    hide Reached;
    var e1 := OpenedCase(c, reader);
    var e2 := e1 + [Moves(0, StartLooking)];
    MoveOn(e1, Opened(c), c, StartLooking, reader);
    assert Reached(e2, reader) == State(map[c := NewCase(c)], Some(c), Some(0), map[0 := Looking(c, true)]);
    events := e2 + [Moves(0, FactsMove(ProofArrives(PROOF)))];
    MoveOn(e2, Looking(c, true), c, FactsMove(ProofArrives(PROOF)), reader);
  }

  lemma AskingCase(c: CaseId, reader: Reader) returns (events: seq<Event>)
    ensures Reached(events, reader) == State(map[c := Proved(c)], Some(c), Some(0), map[0 := Asking(c)])
  {
    hide Reached;
    var e1 := CaseWithProof(c, reader);
    events := e1 + [Moves(0, GateDecides(Clarify))];
    MoveOn(e1, Looking(c, true), c, GateDecides(Clarify), reader);
  }

  lemma AskedCase(c: CaseId, reader: Reader) returns (events: seq<Event>)
    ensures var row := Proved(c).(facts := RecordQuestion(Proved(c).facts, LocationChecked, 0, 0).0);
      Reached(events, reader) == State(map[c := row], Some(c), Some(0), map[0 := AskRecorded(c, true)])
  {
    hide Reached, RecordQuestion, Load;
    var e1 := AskingCase(c, reader);
    QuestionIsAsked(c);
    events := e1 + [Moves(0, RecordQuestionNow(0))];
    MoveOn(e1, Asking(c), c, RecordQuestionNow(0), reader);
  }

  /** The Case asks its location question and waits for the customer. */
  lemma WaitingCase(c: CaseId, reader: Reader) returns (events: seq<Event>)
    ensures var s := Reached(events, reader);
      && Idle(s) && s.active == Some(c) && c in s.cases
      && s.cases[c].state == AwaitingCustomerInput && s.cases[c].clarifications == 1 && s.cases[c].proposals == map[]
  {
    hide Reached, RecordQuestion;
    var e1 := AskedCase(c, reader);
    events := e1 + [Moves(0, WriteQuestion)];
    MoveOn(e1, AskRecorded(c, true), c, WriteQuestion, reader);
  }

  /** The customer answers, and the investigation resumes on the waiting Case as it is. */
  lemma ResumedCase(events: seq<Event>, c: CaseId, reader: Reader) returns (more: seq<Event>)
    requires var s := Reached(events, reader);
      Idle(s) && s.active == Some(c) && c in s.cases && s.cases[c].state == AwaitingCustomerInput
          && s.cases[c].clarifications < CLARIFICATION_LIMIT
    ensures Reached(more, reader) == Reached(events, reader).(lock := Some(0), requests := map[0 := Looking(c, true)])
  {
    hide Reached;
    var s := Reached(events, reader);
    var e1 := PostMessage(events, reader);
    assert Reached(e1, reader) == s.(lock := Some(0), requests := map[0 := Clarifying(c)]);
    more := e1 + [Moves(0, StartLooking)];
    MoveOn(e1, Clarifying(c), c, StartLooking, reader);
  }

  lemma ProposingCase(events: seq<Event>, c: CaseId, reader: Reader) returns (more: seq<Event>)
    requires var s := Reached(events, reader);
      Idle(s) && s.active == Some(c) && c in s.cases && s.cases[c].state == AwaitingCustomerInput
      && s.cases[c].clarifications < CLARIFICATION_LIMIT && s.cases[c].proposals == map[]
    ensures Reached(more, reader) == Reached(events, reader).(lock := Some(0),
        requests := map[0 := Proposing(c, 1, [])])
  {
    hide Reached, PendingIds, RowsKept;
    var row := Reached(events, reader).cases[c];
    RowIsKept(events, reader, c);
    NothingListed(row);
    var e1 := ResumedCase(events, c, reader);
    more := e1 + [Moves(0, GateDecides(ProposeTicket))];
    MoveOn(e1, Looking(c, true), c, GateDecides(ProposeTicket), reader);
    assert HighestVersion(row.proposals, row.proposals.Keys) == 0;
  }

  lemma AnswerLeadsToProposal(events: seq<Event>, c: CaseId, p: ProposalId, reader: Reader) returns (more: seq<Event>)
    requires var s := Reached(events, reader);
      Idle(s) && s.active == Some(c) && c in s.cases && s.cases[c].state == AwaitingCustomerInput
      && s.cases[c].clarifications < CLARIFICATION_LIMIT && s.cases[c].proposals == map[]
    ensures Reached(more, reader).cases == Reached(events, reader).cases
    ensures var s := Reached(more + [Moves(0, WriteProposal(p, 0))], reader);
      c in s.cases && s.cases[c].state == AwaitingCustomerConfirmation
  {
    hide Reached, Propose, RowsKept;
    RowIsKept(events, reader, c);
    ProposeKeeps(Reached(events, reader).cases[c], p, 1, 0);
    more := ProposingCase(events, c, reader);
    MoveOn(more, Proposing(c, 1, []), c, WriteProposal(p, 0), reader);
  }

  lemma RowIsKept(events: seq<Event>, reader: Reader, c: CaseId)
    requires c in Reached(events, reader).cases
    ensures RowsKept(Reached(events, reader).cases[c])
  {
    hide Reached, RowsKept, IsRun;
    RunOfIsRun(events, reader);
    RunKept(RunOf(events, reader), events, reader, |events|);
    KeptCase(Reached(events, reader), c);
  }

  // ---------- A proposal that lapses, and an action that fails ----------

  /** The one proposal awaits the customer's word and has expired at time 0. */
  ghost predicate ProposedIn(s: State, c: CaseId, p: ProposalId) {
    && StateKept(s) && Idle(s) && c in s.cases && IsPending(s.cases[c], p)
    && s.cases[c].proposals[p] == Proposal(1, Pending, 0)
  }

  lemma ReachedIsKept(events: seq<Event>, reader: Reader)
    ensures StateKept(Reached(events, reader))
  {
    hide Reached, IsRun, StateKept, AllEvolve;
    RunOfIsRun(events, reader);
    RunKept(RunOf(events, reader), events, reader, |events|);
  }

  lemma NewCaseProposes(c: CaseId, reader: Reader) returns (events: seq<Event>)
    ensures Reached(events, reader) == State(map[c := NewCase(c)], Some(c), Some(0), map[0 := Proposing(c, 1, [])])
  {
    hide Reached;
    var e1 := OpenedCase(c, reader);
    var e2 := e1 + [Moves(0, StartLooking)];
    MoveOn(e1, Opened(c), c, StartLooking, reader);
    assert Reached(e2, reader) == State(map[c := NewCase(c)], Some(c), Some(0), map[0 := Looking(c, true)]);
    events := e2 + [Moves(0, GateDecides(ProposeTicket))];
    MoveOn(e2, Looking(c, true), c, GateDecides(ProposeTicket), reader);
    assert HighestVersion(NewCase(c).proposals, NewCase(c).proposals.Keys) == 0;
  }

  lemma ProposedCase(c: CaseId, p: ProposalId, reader: Reader) returns (events: seq<Event>)
    ensures ProposedIn(Reached(events, reader), c, p)
  {
    hide Reached, StateKept;
    var e1 := NewCaseProposes(c, reader);
    events := e1 + [Moves(0, WriteProposal(p, 0))];
    MoveOn(e1, Proposing(c, 1, []), c, WriteProposal(p, 0), reader);
    ReachedIsKept(events, reader);
  }

  /** The last event of the list takes Case c from x to y. */
  ghost predicate LastTakes(events: seq<Event>, c: CaseId, x: CaseState, y: CaseState, reader: Reader) {
    && events != []
    && (var s := Reached(events[..|events| - 1], reader); c in s.cases && s.cases[c].state == x)
    && (var s := Reached(events, reader); c in s.cases && s.cases[c].state == y)
  }

  /** A customer who confirms an expired proposal sends the Case back to be retried. */
  lemma LapseTakesTheEdge(c: CaseId, p: ProposalId, reader: Reader) returns (events: seq<Event>)
    ensures LastTakes(events, c, AwaitingCustomerConfirmation, AwaitingRetry, reader)
  {
    hide Reached, StateKept, LapseProposal, RowsKept, Kept, EnteredMoves;
    var e0 := ProposedCase(c, p, reader);
    var s := Reached(e0, reader);
    var kind := Confirming(c, p, 1);
    var e1 := EnterAs(e0, kind, reader);
    var entered := EnteredBy(s, kind);
    events := e1 + [Moves(0, Check(0))];
    Extend(e1, Moves(0, Check(0)), reader);
    EnteredNext(s, kind, Check(0), reader);
    StateCase(s, c);
    KeptRows(s.cases[c]);
    PendingIsActive(s.cases[c], p);
    LapseKeeps(s.cases[c], p, Expired);
    CheckLapses(entered, c, p);
    assert events[..|e1|] == e1;
  }

  lemma CheckLapses(s: State, c: CaseId, p: ProposalId)
    requires c in s.cases && HasLapsed(s.cases[c], p, 1, 0) && LapseProposal(s.cases[c], p, Expired).Some?
    requires s.requests == map[0 := Entered(Confirming(c, p, 1))]
    ensures var s' := EnteredMoves(s, 0, Confirming(c, p, 1), Check(0));
      c in s'.cases && s'.cases[c] == LapseProposal(s.cases[c], p, Expired).value
  {
    hide LapseProposal;
  }

  /** Request 0 is the only one and works on Case c at this point. */
  ghost predicate Alone(s: State, p: Progress, c: CaseId) {
    Holds(s, 0, p, c) && s.requests == map[0 := p]
  }

  /** The holder's next move, kept. */
  lemma WorkOn(events: seq<Event>, p: Progress, c: CaseId, move: Move, reader: Reader) returns (more: seq<Event>)
    requires Holds(Reached(events, reader), 0, p, c)
    ensures more == events + [Moves(0, move)]
    ensures Reached(more, reader) == CaseMoves(Reached(events, reader), 0, p, c, move, reader)
    ensures StateKept(Reached(more, reader))
  {
    hide Reached, CaseMoves, StateKept, Next;
    more := events + [Moves(0, move)];
    HeldCase(Reached(events, reader), 0, p, c);
    Extend(events, Moves(0, move), reader);
    HolderMoves(Reached(events, reader), 0, p, c, move, reader);
    ReachedIsKept(more, reader);
  }

  lemma ConfirmingMove(s: State, c: CaseId, p: ProposalId, reader: Reader)
    requires Alone(s, Confirmable(c, p), c) && c in s.cases && IsPending(s.cases[c], p)
        && s.cases[c].proposals[p].version == 1
    ensures var s' := CaseMoves(s, 0, Confirmable(c, p), c, WriteConfirmation, reader);
      s'.lock == Some(0) && s'.requests == map[0 := Submitting(c, StableId(p, 1))]
  {
    hide StateKept, RowsKept, Kept, Confirm;
    HeldCase(s, 0, Confirmable(c, p), c);
    ConfirmKeeps(s.cases[c], p);
  }

  /** Request 0 works on the only action, freshly confirmed. */
  lemma ConfirmedCase(c: CaseId, p: ProposalId, reader: Reader) returns (events: seq<Event>)
    ensures Alone(Reached(events, reader), Submitting(c, StableId(p, 1)), c)
  {
    hide Reached, StateKept, CaseKept, CaseMoves, EnteredMoves;
    var e0 := ProposedCase(c, p, reader);
    var s := Reached(e0, reader);
    var e1 := MoveIn(e0, Confirming(c, p, 1), Check(-1), reader);
    CheckPasses(s, c, p);
    ReachedIsKept(e1, reader);
    var e2 := WorkOn(e1, Checked(c, p), c, GateStillHolds(true), reader);
    GateHolds(Reached(e1, reader), c, p, reader);
    events := WorkOn(e2, Confirmable(c, p), c, WriteConfirmation, reader);
    ConfirmingMove(Reached(e2, reader), c, p, reader);
  }

  lemma CheckPasses(s: State, c: CaseId, p: ProposalId)
    requires ProposedIn(s, c, p)
    ensures EnteredMoves(EnteredBy(s, Confirming(c, p, 1)), 0, Confirming(c, p, 1), Check(-1))
         == s.(lock := Some(0), requests := map[0 := Checked(c, p)])
  {
    hide StateKept, RowsKept, Kept;
    StateCase(s, c);
    KeptRows(s.cases[c]);
    PendingIsActive(s.cases[c], p);
  }

  lemma GateHolds(s: State, c: CaseId, p: ProposalId, reader: Reader)
    requires c in s.cases && s.requests == map[0 := Checked(c, p)]
    ensures CaseMoves(s, 0, Checked(c, p), c, GateStillHolds(true), reader)
        == s.(requests := map[0 := Confirmable(c, p)])
  {
  }

  lemma FaultingMove(s: State, c: CaseId, a: StableId, reader: Reader)
    requires Alone(s, Submitting(c, a), c)
    ensures c in s.cases
    ensures var s' := CaseMoves(s, 0, Submitting(c, a), c, SubmitNow(Some(RetryableFault), false), reader);
      s'.lock == Some(0) && s'.requests == map[0 := FaultPending(c, a, RetryableFault)]
  {
    hide StateKept, RowsKept, Kept, Submit;
    HeldCase(s, 0, Submitting(c, a), c);
    SubmitKeeps(s.cases[c], a, true, false);
  }

  lemma RecordingMove(s: State, c: CaseId, a: StableId, reader: Reader)
    requires Alone(s, FaultPending(c, a, RetryableFault), c)
    ensures c in s.cases && s.cases[c].state == ExecutingAction
    ensures var s' := CaseMoves(s, 0, FaultPending(c, a, RetryableFault), c, WriteFault, reader);
      Idle(s') && c in s'.cases && s'.cases[c].state == AwaitingRetry && a in s'.cases[c].actions
  {
    hide StateKept, RowsKept, Kept, RecordFault;
    HeldCase(s, 0, FaultPending(c, a, RetryableFault), c);
    FaultRecorded(s.cases[c], a, RetryableFault);
  }

  /** A retryable fault sends the Case back to be retried. */
  lemma FaultTakesTheEdge(c: CaseId, p: ProposalId, reader: Reader) returns (events: seq<Event>)
    ensures LastTakes(events, c, ExecutingAction, AwaitingRetry, reader)
    ensures var s := Reached(events, reader); StateKept(s) && Idle(s) && s.cases[c].actions != map[]
  {
    hide Reached, StateKept, CaseMoves;
    var a := StableId(p, 1);
    var e1 := ConfirmedCase(c, p, reader);
    var e2 := WorkOn(e1, Submitting(c, a), c, SubmitNow(Some(RetryableFault), false), reader);
    FaultingMove(Reached(e1, reader), c, a, reader);
    events := WorkOn(e2, FaultPending(c, a, RetryableFault), c, WriteFault, reader);
    RecordingMove(Reached(e2, reader), c, a, reader);
    assert events[..|e2|] == e2;
  }

  /** The retry that follows resumes the action. */
  lemma RetryTakesTheEdge(c: CaseId, p: ProposalId, reader: Reader) returns (events: seq<Event>)
    ensures LastTakes(events, c, AwaitingRetry, ExecutingAction, reader)
  {
    hide Reached, StateKept, RowsKept, Kept, PlanRetry, MoveCase, EnteredMoves;
    var e0 := FaultTakesTheEdge(c, p, reader);
    var s := Reached(e0, reader);
    var row := s.cases[c];
    StateCase(s, c);
    KeptRows(row);
    RetryGuardsNeverFire(row);
    ResumeKeeps(row, PlanRetry(row).action);
    var e1 := EnterAs(e0, Retrying(c), reader);
    events := e1 + [Moves(0, Admit)];
    Extend(e1, Moves(0, Admit), reader);
    EnteredNext(s, Retrying(c), Admit, reader);
    RetryResumes(EnteredBy(s, Retrying(c)), c);
    assert events[..|e1|] == e1;
  }

  lemma RetryResumes(s: State, c: CaseId)
    requires c in s.cases && PlanRetry(s.cases[c]).ResumeAction? && MoveCase(s.cases[c], ExecutingAction).Some?
    ensures var s' := EnteredMoves(s, 0, Retrying(c), Admit);
      c in s'.cases && s'.cases[c] == MoveCase(s.cases[c], ExecutingAction).value
  {
    hide PlanRetry, MoveCase;
  }

  /** The answer to a clarification can lead straight to a proposal. */
  lemma AnswerTakesTheEdge(c: CaseId, p: ProposalId, reader: Reader) returns (events: seq<Event>)
    ensures LastTakes(events, c, AwaitingCustomerInput, AwaitingCustomerConfirmation, reader)
  {
    hide Reached;
    var waiting := WaitingCase(c, reader);
    var more := AnswerLeadsToProposal(waiting, c, p, reader);
    events := more + [Moves(0, WriteProposal(p, 0))];
    assert events[..|more|] == more;
  }

  /**
   The Case table is not all the service writes: each of the four further edges is taken by some run,
   in one event, and the table has none of them.
   */
  lemma EveryFurtherEdgeIsTaken(x: CaseState, y: CaseState, reader: Reader)
    requires ExtraEdge(x, y)
    ensures !CaseMayBecome(x, y)
    ensures exists run: seq<State>, events: seq<Event>, c: CaseId ::
      && IsRun(run, events, reader) && events != []
      && c in run[|events| - 1].cases && run[|events| - 1].cases[c].state == x
      && c in run[|events|].cases && run[|events|].cases[c].state == y
  {
    hide Reached, IsRun, LastTakes;
    var c, p := "case", "proposal";
    var events;
    if x == AwaitingCustomerConfirmation {
      events := LapseTakesTheEdge(c, p, reader);
    } else if x == ExecutingAction {
      events := FaultTakesTheEdge(c, p, reader);
    } else if x == AwaitingRetry {
      events := RetryTakesTheEdge(c, p, reader);
    } else {
      events := AnswerTakesTheEdge(c, p, reader);
    }
    TakenInARun(events, c, x, y, reader);
  }

  lemma TakenInARun(events: seq<Event>, c: CaseId, x: CaseState, y: CaseState, reader: Reader)
    requires LastTakes(events, c, x, y, reader)
    ensures exists run: seq<State>, steps: seq<Event>, d: CaseId ::
      && IsRun(run, steps, reader) && steps != []
      && d in run[|steps| - 1].cases && run[|steps| - 1].cases[d].state == x
      && d in run[|steps|].cases && run[|steps|].cases[d].state == y
  {
    hide Reached, IsRun;
    var run := RunOf(events, reader);
    RunOfIsRun(events, reader);
    assert run[|events| - 1] == Reached(events[..|events| - 1], reader);
    assert IsRun(run, events, reader) && c in run[|events| - 1].cases;
  }
}
