/** Passes that show the bounds are met and a retry's recorded revision can differ from its origin's. */
module InvestigationWitness {
  import opened Options
  import opened EvidenceProgress
  import opened EvidenceProperties
  import opened ObservationPolicy
  import opened Investigation
  import opened InvestigationBounds
  import opened InvestigationRetry
  import opened WorkflowSelector

  const QUIET := PayloadFacts(false, false, false, false)

  function FreshPass(config: Config): Pass {
    NewPass(Start(config, [], [], Budget(0, 0, 0)))
  }

  /** A turn whose candidate is the workflow selector's own for the pass it meets. */
  function Selecting(config: Config, p: Pass, turn: Turn): Turn {
    turn.(candidate := Some(Select(ContextOf(config, p.session))))
  }

  lemma RunSnoc(config: Config, p: Pass, turns: seq<Turn>, turn: Turn)
    ensures Run(config, p, turns + [turn]) == Advance(config, Run(config, p, turns), turn)
  {
    hide Advance;
    assert (turns + [turn])[..|turns|] == turns;
  }

  // ---------- A retry recorded at another revision ----------

  /** On track, a visit with the selector's own candidate executes the next read under this session. */
  lemma SelectsAndExecutes(config: Config, p: Pass, k: nat, turn: Turn) returns (chosen: Session)
    requires config.stopAfter == None && p.ending == None && OnTrack(config, p.session, k)
        && k < ReadsNeeded(config.trusted.issue)
    requires p.session.budget.caseTurns < MAX_CASE_TURNS - 1 && p.session.budget.runTurns < MAX_RUN_TURNS - 1
    requires p.planningTurns + 1 < MAX_RUN_TURNS && Decided(config, p.session.priorFingerprints, k)
    ensures chosen == Counted(p.session).(priorFingerprints := chosen.priorFingerprints)
    ensures OnTrack(config, chosen, k) && Decided(config, chosen.priorFingerprints, k + 1)
    ensures var read := PlannedRead(config, k);
      Advance(config, p, Selecting(config, p, turn))
      == p.(session := Execute(config, chosen, turn.callId, read.tool, read.arguments, turn.report, turn.at),
            selectorTurns := p.selectorTurns + 1, planningTurns := p.planningTurns + 1,
            executed := p.executed + [Executed(read.tool, read.arguments, AttemptsIn(chosen.attempts, read.tool) + 1,
                false)])
  {
    hide Coherent, HasRead, Advance, SelectObservation, Select, Execute, ContextOf, Decided, IsRead, OnTrack;
    var counted := Counted(p.session);
    SameSelection(config, p.session, counted);
    OnTrackIgnores(config, p.session, counted, k);
    NoReasonToStop(config, p.session, k);
    hide MustStop;
    VisitSelects(config, p, Selecting(config, p, turn));
    ReadAccepted(config, counted, k);
    chosen := SelectObservation(config, counted, Selecting(config, p, turn).candidate).0;
    OnTrackIgnores(config, counted, chosen, k);
  }

  /** The revision stop is only ever given while a directive names another revision than the report does. */
  lemma RevisionStopNeedsDirective(config: Config, s: Session, callId: string, tool: ToolName, arguments: Arguments,
      offered: Report, at: int)
    ensures var s' := Execute(config, s, callId, tool, arguments, offered, at);
      s'.terminalReason == Some(SourceRevisionChangedDuringRetry)
          && s.terminalReason != Some(SourceRevisionChangedDuringRetry) ==>
        s'.pending.Some? && s'.pending.value.sourceVersion != offered.sourceVersion
  {
    hide Rebuilt, RefsFrom, IssueExactRetry;
  }

  /** A first attempt that fails transiently against a named revision leaves its exact retry due. */
  lemma TransientFailureIsDue(config: Config, s: Session, turn: Turn, tool: ToolName, arguments: Arguments)
    requires config.enforceExactRetry && s.budget.readCount < MAX_READS && AttemptsIn(s.attempts, tool) == 0
    requires turn.report.result.Failed? && turn.report.result.retryable && !tool.UnregisteredTool?
    requires turn.report.sourceVersion != "" && s.terminalReason == None
    ensures var s' := Execute(config, s, turn.callId, tool, arguments, turn.report, turn.at);
      && s'.pending.Some? && s'.pending.value.tool == tool
           && s'.pending.value.sourceVersion == turn.report.sourceVersion
      && s'.budget.readCount == s.budget.readCount + 1
      && s'.records == s.records + [s'.records[|s.records|]]
      && s'.records[|s.records|].sourceVersion == Some(turn.report.sourceVersion)
      && s'.terminalReason != Some(SourceRevisionChangedDuringRetry)
  {
    hide Execute, Rebuilt, RefsFrom;
    ExecuteShape(config, s, turn.callId, tool, arguments, turn.report, turn.at);
    RevisionStopNeedsDirective(config, s, turn.callId, tool, arguments, turn.report, turn.at);
  }

  /**
   A due retry whose source still shows its revision runs, and is recorded under the revision its own
   report names.
   */
  lemma DueRetryRuns(config: Config, p: Pass, turn: Turn)
    requires p.ending == None && p.session.pending.Some? && p.session.budget.readCount < MAX_READS
    requires p.planningTurns < MAX_RUN_TURNS && p.session.terminalReason != Some(SourceRevisionChangedDuringRetry)
    requires turn.currentSource(p.session.pending.value.tool) == p.session.pending.value.sourceVersion
    requires SessionInv(config, p.session)
    ensures var p' := Advance(config, p, turn);
      && p'.ending == None && Retries(p, p')
      && |p'.session.records| == |p.session.records| + 1
           && p'.session.records[..|p.session.records|] == p.session.records
      && p'.session.records[|p.session.records|].sourceVersion == Some(turn.report.sourceVersion)
      && p'.session.terminalReason != Some(SourceRevisionChangedDuringRetry)
  {
    hide Execute, Rebuilt, SessionInv;
    var d := p.session.pending.value;
    var s := p.session.(selectorInput := p.session.progress);
    assert SessionInv(config, s) by { SameHistory(config, p.session, s); }
    ExecuteShape(config, s, turn.callId, d.tool, d.arguments, turn.report, turn.at);
    ExecuteEffect(config, s, turn.callId, d.tool, d.arguments, turn.report, turn.at);
    RevisionStopNeedsDirective(config, s, turn.callId, d.tool, d.arguments, turn.report, turn.at);
  }

  lemma SameHistory(config: Config, s: Session, s': Session)
    requires SessionInv(config, s) && s' == s.(selectorInput := s'.selectorInput)
    ensures SessionInv(config, s')
  {
    hide Rebuilt;
  }

  /** A transient failure, at a time when the source shows one revision and its report names another. */
  function Failing(shown: string, named: string, callId: string, at: int): Turn {
    Turn(None, _ => shown, ToolReport(Failed(true, "hash"), true, named, QUIET), callId, at)
  }

  /** The last visit retried a call recorded at one revision, and its own record names another. */
  ghost predicate RetriesAcross(q: Pass, p: Pass, before: string, after: string) {
    && p.ending == None && Retries(q, p) && |p.session.records| == 2
    && p.session.records[0].sourceVersion == Some(before) && p.session.records[1].sourceVersion == Some(after)
    && p.session.terminalReason != Some(SourceRevisionChangedDuringRetry)
  }

  lemma FirstVisitFails(config: Config, before: string) returns (turn: Turn)
    requires config.enforceExactRetry && config.stopAfter == None && before != ""
    ensures var q := Advance(config, FreshPass(config), turn);
      && q.ending == None && SessionInv(config, q.session) && q.planningTurns == 1
      && q.session.pending.Some? && q.session.pending.value.sourceVersion == before && q.session.budget.readCount == 1
      && |q.session.records| == 1 && q.session.records[0].sourceVersion == Some(before)
      && q.session.terminalReason != Some(SourceRevisionChangedDuringRetry)
  {
    hide Advance, Execute, OnTrack, Decided, Select, Start, SessionInv;
    StartIsOnTrack(config);
    RequiredComeFirst(config.trusted.issue, OrderStatus);
    NothingYet(config);
    var first := Failing(before, before, "call", 0);
    var chosen := SelectsAndExecutes(config, FreshPass(config), 0, first);
    turn := Selecting(config, FreshPass(config), first);
    var read := PlannedRead(config, 0);
    FirstAttempt(config, chosen);
    TransientFailureIsDue(config, chosen, first, read.tool, read.arguments);
    TracksHistory(config, chosen, first);
  }

  /**
   The two recorded revisions can differ: the source is at the origin's revision when the retry is
   issued and at another one when the retry's own record is written, and the pass goes on without
   reporting the change.
   */
  lemma RevisionMayMoveDuringRetry(config: Config, before: string, after: string)
    requires config.enforceExactRetry && config.stopAfter == None && before != "" && before != after
    ensures exists first: Turn, second: Turn ::
      RetriesAcross(Run(config, FreshPass(config), [first]), Run(config, FreshPass(config), [first, second]), before,
          after)
  {
    hide Advance, Start, SessionInv, Run;
    var first := FirstVisitFails(config, before);
    var second := Failing(before, after, "retry", 1);
    var q := Advance(config, FreshPass(config), first);
    DueRetryRuns(config, q, second);
    assert Advance(config, q, second).session.records[0] == q.session.records[..1][0];
    RunOfTwo(config, FreshPass(config), first, second);
    assert RetriesAcross(Run(config, FreshPass(config), [first]), Run(config, FreshPass(config), [first, second]),
        before, after);
  }

  lemma NothingYet(config: Config)
    ensures Start(config, [], [], Budget(0, 0, 0)).records == []
        && Start(config, [], [], Budget(0, 0, 0)).attempts == map[]
  {
    hide Rebuilt;
  }

  lemma FirstAttempt(config: Config, s: Session)
    requires OnTrack(config, s, 0)
    ensures s.terminalReason == None && s.budget.readCount == 0
    ensures AttemptsIn(s.attempts, PlannedRead(config, 0).tool) == 0
  {
    hide HasRead, Coherent;
    RequiredComeFirst(config.trusted.issue, OrderStatus);
  }

  lemma TracksHistory(config: Config, s: Session, turn: Turn)
    requires OnTrack(config, s, 0) && s.attempts == map[]
    ensures SessionInv(config, Execute(config, s, turn.callId, PlannedRead(config, 0).tool,
        PlannedRead(config, 0).arguments, turn.report, turn.at))
  {
    hide Execute, HasRead, Coherent;
    ExecuteEffect(config, s, turn.callId, PlannedRead(config, 0).tool, PlannedRead(config, 0).arguments, turn.report,
        turn.at);
  }

  lemma RunOfTwo(config: Config, p: Pass, first: Turn, second: Turn)
    ensures Run(config, p, [first]) == Advance(config, p, first)
    ensures Run(config, p, [first, second]) == Advance(config, Advance(config, p, first), second)
  {
    hide Advance;
    RunSnoc(config, p, [], first);
    RunSnoc(config, p, [first], second);
    assert [first] == [] + [first] && [first] + [second] == [first, second];
  }

  // ---------- Seven selector turns ----------

  /** What the selector proposes can be written into the turns themselves. */
  lemma {:induction false} DriveIsARun(config: Config, p: Pass, turns: seq<Turn>) returns (chosen: seq<Turn>)
    ensures Run(config, p, chosen) == Drive(config, p, turns)
    decreases |turns|
  {
    hide Advance, Select;
    if turns == [] {
      chosen := [];
    } else {
      var n := |turns| - 1;
      var earlier := DriveIsARun(config, p, turns[..n]);
      var turn := turns[n].(candidate := Some(Select(ContextOf(config, Drive(config, p, turns[..n]).session))));
      chosen := earlier + [turn];
      RunSnoc(config, p, earlier, turn);
    }
  }

  function Answering(callId: string, at: int): Turn {
    Turn(None, _ => "v", ToolReport(Answered(true, "hash", "query", []), true, "v", QUIET), callId, at)
  }

  const FOUR_ANSWERS := [Answering("a", 0), Answering("b", 1), Answering("c", 2), Answering("d", 3)]

  lemma FourAnswersAnswer(config: Config)
    ensures Answers(FOUR_ANSWERS) && NoEarlyStop(config, FOUR_ANSWERS)
  {
    hide PlannedRead;
  }

  /** A read that fails for good is settled as unavailable, adds no terminal code and changes progress. */
  lemma FailedStep(scope: Scope, st: Fold, record: ToolCall, own: Requirement)
    requires scope.pending == None && Concerns(scope, record, own) && st.states.Get(own).status == Missing
    requires ReportsFailure(record)
    ensures Step(scope, st, record).terminal == st.terminal
    ensures Step(scope, st, record).states.Get(own).status == UnavailableFinal
  {
  }

  lemma FailedRead(config: Config, s: Session, k: nat, turn: Turn)
    requires OnTrack(config, s, k) && k < ReadsNeeded(config.trusted.issue) && FreshFor(s.records, turn)
    requires turn.report.result.Failed? && !turn.report.result.retryable
    ensures var call := PlannedRead(config, k);
      var s' := Execute(config, s, turn.callId, call.tool, call.arguments, turn.report, turn.at);
      && s'.pending == None && s'.progress.terminal == [] && s'.progress != s.progress
           && s'.progress.readiness != Evaluable
  {
    hide Execute, Ordered, FoldCalls, HasRead, Registry, IsRead, Step;
    var call := PlannedRead(config, k);
    var own := ReadingOrder(config.trusted.issue)[k];
    ExecuteShape(config, s, turn.callId, call.tool, call.arguments, turn.report, turn.at);
    var record := ExecutedRecord(s, turn.callId, call.tool, call.arguments, turn.report, turn.at);
    var scope := ScopeOf(config, s.refs, None);
    NextIsUnread(config.trusted.issue, k, own);
    UnreadIsMissing(config, s, k, own);
    FoldAfterRead(scope, s.records, [], record);
    assert scope.(refs := s.refs + []) == scope;
    FailedStep(scope, FoldCalls(scope, Ordered(s.records)), record, own);
    NotReady(config, s, Execute(config, s, turn.callId, call.tool, call.arguments, turn.report, turn.at), own);
  }

  lemma UnreadIsMissing(config: Config, s: Session, k: nat, code: Requirement)
    requires OnTrack(config, s, k) && !IsRead(config.trusted.issue, k, code)
    ensures var st := FoldCalls(ScopeOf(config, s.refs, None), Ordered(s.records));
      st.states.Get(code).status == Missing && st.terminal == []
  {
    hide FoldCalls, Ordered, IsRead, Coherent;
  }

  lemma NotReady(config: Config, s: Session, s': Session, own: Requirement)
    requires Coherent(config, s) && s.pending == None && Coherent(config, s') && s'.pending == None
    requires Registry(config.trusted.issue, own) == Required
    requires FoldCalls(ScopeOf(config, s.refs, None), Ordered(s.records)).states.Get(own).status == Missing
    requires var st := FoldCalls(ScopeOf(config, s'.refs, None), Ordered(s'.records));
      st.states.Get(own).status == UnavailableFinal && st.terminal == []
    ensures s'.progress.terminal == [] && s'.progress != s.progress && s'.progress.readiness != Evaluable
  {
    hide FoldCalls, Ordered;
    EvaluableExactly(ScopeOf(config, s'.refs, None), s'.records);
    assert s.progress.requirements.Get(own).status == Missing;
    assert s'.progress.requirements.Get(own).status == UnavailableFinal;
  }

  /** A read that fails for good leaves no reason to stop while evidence is incomplete. */
  lemma ReasonAfterFailure(config: Config, s: Session, record: ToolCall, report: Report, refs: seq<EvidenceRef>)
    requires s.pending == None && s.terminalReason == None && report.result.Failed? && !report.result.retryable
    requires s.budget.caseTurns < MAX_CASE_TURNS && s.budget.runTurns < MAX_RUN_TURNS && s.budget.readCount < MAX_READS
    requires config.enforceEarlyStop ==> s.earlyStop == None
    requires var s' := OnToolResult(config, s, record, report, refs);
      s'.progress.terminal == [] && s'.progress != s.selectorInput && s'.progress.readiness != Evaluable
    ensures var s' := OnToolResult(config, s, record, report, refs);
      s'.terminalReason == None && s'.earlyStop == s.earlyStop && s'.unchangedTurns == 0
  {
    hide FoldCalls, Ordered;
    OnToolResultShape(config, s, record, report, refs);
    var absorbed := CountUnchanged(Absorbed(config, s, record, report, refs));
    assert absorbed.terminalReason == None && absorbed.unchangedTurns == 0;
  }

  lemma GoesOnAfterFailure(config: Config, s: Session, turn: Turn, tool: ToolName, arguments: Arguments)
    requires s.pending == None && s.terminalReason == None
    requires turn.report.result.Failed? && !turn.report.result.retryable
    requires s.budget.caseTurns < MAX_CASE_TURNS && s.budget.runTurns < MAX_RUN_TURNS
        && s.budget.readCount + 1 < MAX_READS
    requires config.enforceEarlyStop ==> s.earlyStop == None
    requires var s' := Execute(config, s, turn.callId, tool, arguments, turn.report, turn.at);
      s'.progress.terminal == [] && s'.progress != s.selectorInput && s'.progress.readiness != Evaluable
    ensures var s' := Execute(config, s, turn.callId, tool, arguments, turn.report, turn.at);
      s'.terminalReason == None && s'.earlyStop == s.earlyStop && s'.unchangedTurns == 0
  {
    hide OnToolResult, RefsFrom;
    var attempt := AttemptsIn(s.attempts, tool) + 1;
    var counted := s.(
      budget := if turn.report.actual then s.budget.(readCount := s.budget.readCount + 1) else s.budget,
      attempts := s.attempts[tool := attempt]);
    ReasonAfterFailure(config, counted, RecordOf(turn.callId, tool, arguments, attempt, turn.report, turn.at),
        turn.report,
                       RefsFrom(turn.callId, turn.report.result));
  }

  /** A pass in which nothing is due, nothing ends it and n selector turns were taken, each on its own budget unit. */
  ghost predicate StillOpen(config: Config, p: Pass, n: nat) {
    && p.ending == None && p.session.pending == None && !MustStop(config, p.session)
    && p.selectorTurns == p.planningTurns == p.session.budget.caseTurns == p.session.budget.runTurns == n
    && |p.session.priorFingerprints| <= MAX_FINGERPRINTS
  }

  function Unreadable(): Turn {
    Turn(None, _ => "v", ToolReport(Failed(false, "hash"), false, "v", QUIET), "", 0)
  }

  /** The first candidate outside the schema is corrected, the second one ends the pass. */
  lemma UnreadableCandidate(config: Config, p: Pass, n: nat)
    requires StillOpen(config, p, n) && n < MAX_RUN_TURNS && p.session.unchangedTurns == 0
    ensures var p' := Advance(config, p, Unreadable());
      && p'.selectorTurns == n + 1
      && (!p.session.corrected ==> StillOpen(config, p', n + 1) && p'.session.corrected)
  {
    hide Execute;
  }

  lemma LastCandidate(config: Config, p: Pass, n: nat)
    requires StillOpen(config, p, n) && n < MAX_RUN_TURNS
    ensures Advance(config, p, Unreadable()).selectorTurns == n + 1
  {
    hide Execute;
  }

  const REFUSED := Turn(None, _ => "v", ToolReport(Failed(false, "hash"), true, "v", QUIET), "e", 4)

  lemma FourReads(config: Config)
    requires config.stopAfter == None && config.trusted.issue == SignedNotReceived
    ensures Underway(config, Drive(config, FreshPass(config), FOUR_ANSWERS), FOUR_ANSWERS)
  {
    hide Drive, Start, Underway, NoEarlyStop, Answers;
    FourAnswersAnswer(config);
    RequiredComeFirst(config.trusted.issue, OrderStatus);
    DriveReads(config, FOUR_ANSWERS);
  }

  lemma FifthReadFails(config: Config, p: Pass)
    requires config.stopAfter == None && config.trusted.issue == SignedNotReceived && Underway(config, p, FOUR_ANSWERS)
    ensures var q := Advance(config, p, Selecting(config, p, REFUSED));
      StillOpen(config, q, 5) && q.session.unchangedTurns == 0 && !q.session.corrected
  {
    hide Advance, Execute, OnTrack, Decided, Select;
    RequiredComeFirst(config.trusted.issue, OrderStatus);
    var chosen := SelectsAndExecutes(config, p, 4, REFUSED);
    var read := PlannedRead(config, 4);
    assert FreshFor(p.session.records, REFUSED);
    OnTrackFacts(config, chosen, 4);
    FailedRead(config, chosen, 4, REFUSED);
    GoesOnAfterFailure(config, chosen, REFUSED, read.tool, read.arguments);
    ExecuteShape(config, chosen, REFUSED.callId, read.tool, read.arguments, REFUSED.report, REFUSED.at);
    FewFingerprints(config, chosen, 5);
  }

  lemma OnTrackFacts(config: Config, s: Session, k: nat)
    requires OnTrack(config, s, k) && k < ReadsNeeded(config.trusted.issue)
    ensures s.pending == None && s.terminalReason == None && s.budget.readCount <= k
    ensures config.enforceEarlyStop ==> s.earlyStop == None
  {
    hide HasRead, Coherent;
  }

  lemma FewFingerprints(config: Config, s: Session, k: nat)
    requires Decided(config, s.priorFingerprints, k)
    ensures |s.priorFingerprints| <= MAX_FINGERPRINTS
  {
  }

  /**
   Seven selector turns are taken: four reads that answer, one that fails for good, one candidate that
   is corrected and one that ends the pass, whether early stopping is on or off.
   */
  lemma SevenTurnsAreTaken(config: Config)
    requires config.stopAfter == None && config.trusted.issue == SignedNotReceived
    ensures exists turns: seq<Turn> :: Run(config, FreshPass(config), turns).selectorTurns == 7
  {
    hide Drive, Run, Advance, Underway, StillOpen, Start;
    FourReads(config);
    var p := Drive(config, FreshPass(config), FOUR_ANSWERS);
    var turns := DriveIsARun(config, FreshPass(config), FOUR_ANSWERS);
    FifthReadFails(config, p);
    var fifth := Selecting(config, p, REFUSED);
    var q := Advance(config, p, fifth);
    UnreadableCandidate(config, q, 5);
    LastCandidate(config, Advance(config, q, Unreadable()), 6);
    RunSnoc(config, FreshPass(config), turns, fifth);
    RunSnoc(config, FreshPass(config), turns + [fifth], Unreadable());
    RunSnoc(config, FreshPass(config), turns + [fifth] + [Unreadable()], Unreadable());
  }
}
