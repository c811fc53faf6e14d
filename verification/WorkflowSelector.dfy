/** The deterministic workflow selector, and the progress it makes through a pass whose reads all answer. */
module WorkflowSelector {
  import opened Options
  import opened EvidenceProgress
  import opened EvidenceProperties
  import opened ObservationPolicy
  import opened Investigation
  import opened InvestigationBounds

  /** The fixed order in which the selector looks for something still missing. */
  function ReadingOrder(issue: Issue): seq<Requirement> {
    match issue
    case SignedNotReceived =>
      [OrderStatus, ActiveTicketStatus, TrackingTimeline, PolicyApplicability, DeliveryProof, CarrierAlertContext]
    case StalledTracking =>
      [OrderStatus, TrackingTimeline, PolicyApplicability, ActiveTicketStatus, CarrierAlertContext, DeliveryProof]
  }

  const FINISH := RawCandidate(Finish, None, [], FinalizationRequested)

  function FirstMissing(progress: Snapshot, ordered: seq<Requirement>): RawCandidate {
    if ordered == [] then FINISH
    else
      var code := ordered[0];
      var state := progress.requirements.Get(code);
      if state.status == Missing && state.applicability != NotRequired then
        RawCandidate(CallTool, Some(ToolFor(code)), [code],
                     if progress.revision == 0 then FirstRequiredObservation else MissingRequiredEvidence)
      else FirstMissing(progress, ordered[1..])
  }

  function Select(context: DecisionContext): RawCandidate {
    if context.progress.readiness == Evaluable then FINISH
    else FirstMissing(context.progress, ReadingOrder(context.issue))
  }

  /** A pass in which every candidate is the workflow selector's own. */
  function Drive(config: Config, p: Pass, turns: seq<Turn>): Pass
    decreases |turns|
  {
    if turns == [] then p
    else
      var n := |turns| - 1;
      var q := Drive(config, p, turns[..n]);
      Advance(config, q, turns[n].(candidate := Some(Select(ContextOf(config, q.session)))))
  }

  /** How many reads a complete pass takes: one for each required code. */
  function ReadsNeeded(issue: Issue): nat {
    |RequiredByIssue(issue)|
  }

  function PlannedRead(config: Config, i: nat): Executed
    requires i < 6
  {
    var tool := ToolFor(ReadingOrder(config.trusted.issue)[i]);
    Executed(tool, CanonicalArguments(config.trusted.orderId, config.trusted.issue, tool), 1, false)
  }

  ghost predicate IsRead(issue: Issue, k: nat, code: Requirement)
    requires k <= 6
  {
    code in ReadingOrder(issue)[..k]
  }

  /** After k answered reads: the first k codes are satisfied, the others untouched, nothing is wrong. */
  ghost predicate HasRead(issue: Issue, st: Fold, k: nat)
    requires k <= 6
  {
    && st.terminal == []
    && forall code :: st.states.Get(code).applicability == Registry(issue, code)
         && if IsRead(issue, k, code) then IsSatisfied(st.states.Get(code).status)
              else st.states.Get(code).status == Missing
  }

  ghost predicate DecidedRead(issue: Issue, f: Fingerprint, k: nat)
    requires k <= 6
  {
    f.action == CallTool && exists code :: IsRead(issue, k, code) && f.tool == Some(ToolFor(code))
  }

  /** Every earlier decision was to read one of the first k codes. */
  ghost predicate Decided(config: Config, fingerprints: seq<Fingerprint>, k: nat) {
    |fingerprints| == k <= 6 && forall f :: f in fingerprints ==> DecidedRead(config.trusted.issue, f, k)
  }

  /** On evaluable evidence the session ends the pass itself, unless it still wants the carrier alert. */
  predicate EndsItself(config: Config, s: Session) {
    config.enforceEarlyStop && !NeedsCarrierContext(config, s)
  }

  ghost predicate OnTrack(config: Config, s: Session, k: nat) {
    && k <= ReadsNeeded(config.trusted.issue)
    && Coherent(config, s) && s.pending == None
    && s.terminalReason == (if k == ReadsNeeded(config.trusted.issue) && EndsItself(config, s) then Some(GateReady)
         else None)
    && (config.enforceEarlyStop ==> s.earlyStop == None)
    && HasRead(config.trusted.issue, FoldCalls(ScopeOf(config, s.refs, None), Ordered(s.records)), k)
    && s.budget.readCount <= k
    && (forall code :: !IsRead(config.trusted.issue, k, code) ==> AttemptsIn(s.attempts, ToolFor(code)) == 0)
  }

  /** The answers of a pass: every read answers, under a fresh call id and no earlier than the ones before. */
  ghost predicate Answers(turns: seq<Turn>) {
    && (forall i :: 0 <= i < |turns| ==> turns[i].report.result.Answered?)
    && (forall i, j :: 0 <= i < j < |turns| ==> turns[i].callId != turns[j].callId && turns[i].at < turns[j].at)
  }

  /** No read reports a fact that would stop the investigation early; without early stopping the facts do not matter. */
  ghost predicate NoEarlyStop(config: Config, turns: seq<Turn>) {
    config.enforceEarlyStop ==>
      forall i :: 0 <= i < |turns| && i < 6 ==> QuietRead(config, i, turns[i].report)
  }

  predicate QuietRead(config: Config, k: nat, report: Report)
    requires k < 6
  {
    EarlyStopAfter(config.trusted.issue, None, PlannedRead(config, k).tool, report) == None
  }

  /** The next code in the order is the one the selector names, and nothing else is. */
  lemma {:induction false} SelectsNext(progress: Snapshot, ordered: seq<Requirement>, k: nat)
    requires k < |ordered|
    requires forall i :: 0 <= i < k ==> progress.requirements.Get(ordered[i]).status != Missing
    requires progress.requirements.Get(ordered[k]).status == Missing
    requires progress.requirements.Get(ordered[k]).applicability != NotRequired
    ensures var c := FirstMissing(progress, ordered);
      c.action == CallTool && c.tool == Some(ToolFor(ordered[k])) && c.addresses == [ordered[k]]
          && c.reason != FinalizationRequested
  {
    if k > 0 {
      SelectsNext(progress, ordered[1..], k - 1);
    }
  }

  /** The first entries of the order are exactly the required codes. */
  lemma RequiredComeFirst(issue: Issue, code: Requirement)
    ensures ReadsNeeded(issue) == if issue == SignedNotReceived then 5 else 4
    ensures code in RequiredByIssue(issue) <==> IsRead(issue, ReadsNeeded(issue), code)
  {
    assert ReadingOrder(SignedNotReceived)[..5] == [OrderStatus, ActiveTicketStatus, TrackingTimeline,
        PolicyApplicability, DeliveryProof];
    assert ReadingOrder(StalledTracking)[..4] == [OrderStatus, TrackingTimeline, PolicyApplicability,
        ActiveTicketStatus];
  }

  lemma NextIsUnread(issue: Issue, k: nat, code: Requirement)
    requires k < ReadsNeeded(issue)
    ensures !IsRead(issue, k, ReadingOrder(issue)[k]) && Registry(issue, ReadingOrder(issue)[k]) == Required
    ensures IsRead(issue, k + 1, code) <==> IsRead(issue, k, code) || code == ReadingOrder(issue)[k]
  {
    var order := ReadingOrder(issue);
    assert order[..k + 1] == order[..k] + [order[k]];
    RequiredComeFirst(issue, order[k]);
    assert order[k] == order[..ReadsNeeded(issue)][k];
  }

  lemma EvaluableAtTheEnd(config: Config, s: Session, k: nat)
    requires k <= ReadsNeeded(config.trusted.issue) && Coherent(config, s) && s.pending == None
    requires HasRead(config.trusted.issue, FoldCalls(ScopeOf(config, s.refs, None), Ordered(s.records)), k)
    ensures s.progress.readiness == Evaluable <==> k == ReadsNeeded(config.trusted.issue)
    ensures s.progress.terminal == []
  {
    hide FoldCalls, Ordered;
    var issue := config.trusted.issue;
    EvaluableExactly(ScopeOf(config, s.refs, None), s.records);
    forall code ensures Registry(issue, code) == Required <==> IsRead(issue, ReadsNeeded(issue), code) {
      RequiredComeFirst(issue, code);
    }
    if k < ReadsNeeded(issue) {
      NextIsUnread(issue, k, ReadingOrder(issue)[k]);
    }
  }

  lemma ProgressOf(config: Config, s: Session, k: nat, code: Requirement)
    requires OnTrack(config, s, k)
    ensures var state := s.progress.requirements.Get(code);
      && state.applicability == Registry(config.trusted.issue, code)
      && (IsRead(config.trusted.issue, k, code) ==> IsSatisfied(state.status))
      && (!IsRead(config.trusted.issue, k, code) ==> state.status == Missing)
  {
    hide FoldCalls, Ordered, IsRead;
  }

  lemma SelectedRead(config: Config, s: Session, k: nat)
    requires OnTrack(config, s, k) && k < ReadsNeeded(config.trusted.issue)
    ensures var c := Select(ContextOf(config, s));
      var code := ReadingOrder(config.trusted.issue)[k];
      c.action == CallTool && c.tool == Some(ToolFor(code)) && c.addresses == [code] && WellShaped(c)
      && s.progress.requirements.Get(code).status == Missing
  {
    hide FirstMissing, Coherent, HasRead;
    var issue := config.trusted.issue;
    var order := ReadingOrder(issue);
    EvaluableAtTheEnd(config, s, k);
    assert |order| == 6;
    NextIsUnread(issue, k, order[k]);
    hide OnTrack, ReadingOrder;
    ProgressOf(config, s, k, order[k]);
    forall i | 0 <= i < k ensures s.progress.requirements.Get(order[i]).status != Missing {
      assert order[i] == order[..k][i];
      ProgressOf(config, s, k, order[i]);
    }
    SelectsNext(s.progress, order, k);
  }

  lemma NewDecision(config: Config, fingerprints: seq<Fingerprint>, k: nat)
    requires k < ReadsNeeded(config.trusted.issue) && Decided(config, fingerprints, k)
    ensures forall f :: f in fingerprints ==> f.tool != Some(PlannedRead(config, k).tool)
  {
    hide IsRead;
    NextIsUnread(config.trusted.issue, k, ReadingOrder(config.trusted.issue)[k]);
    forall f | f in fingerprints ensures f.tool != Some(PlannedRead(config, k).tool) {
      assert DecidedRead(config.trusted.issue, f, k);
    }
  }

  /** The read the selector proposes is valid, and its decision has not been made before. */
  lemma SelectedReadIsValid(config: Config, s: Session, k: nat)
    requires OnTrack(config, s, k) && k < ReadsNeeded(config.trusted.issue)
    requires s.budget.caseTurns < MAX_CASE_TURNS && s.budget.runTurns < MAX_RUN_TURNS
    requires Decided(config, s.priorFingerprints, k)
    ensures var verdict := Validate(Some(Select(ContextOf(config, s))), ContextOf(config, s), config.trusted, None,
        None);
      && verdict.Accepted? && verdict.observation.action == CallTool
      && verdict.observation.tool == Some(PlannedRead(config, k).tool)
      && verdict.observation.arguments == PlannedRead(config, k).arguments
      && verdict.observation.fingerprint.action == CallTool
      && verdict.observation.fingerprint.tool == verdict.observation.tool
  {
    SelectedRead(config, s, k);
    NewDecision(config, s.priorFingerprints, k);
    hide OnTrack, Select, Decided, ToolFor;
    NextIsRelevant(config.trusted.issue, k);
    ReadableExactly(Select(ContextOf(config, s)), ContextOf(config, s));
  }

  lemma NextIsRelevant(issue: Issue, k: nat)
    requires k < ReadsNeeded(issue)
    ensures Registry(issue, ReadingOrder(issue)[k]) != NotRequired
  {
    NextIsUnread(issue, k, ReadingOrder(issue)[k]);
  }

  lemma ReadAccepted(config: Config, s: Session, k: nat)
    requires OnTrack(config, s, k) && k < ReadsNeeded(config.trusted.issue)
    requires s.budget.caseTurns < MAX_CASE_TURNS && s.budget.runTurns < MAX_RUN_TURNS
    requires Decided(config, s.priorFingerprints, k)
    ensures var (s', choice) := SelectObservation(config, s, Some(Select(ContextOf(config, s))));
      && choice.RunTool?
      && choice.observation.tool == Some(PlannedRead(config, k).tool)
      && choice.observation.arguments == PlannedRead(config, k).arguments
      && s' == s.(priorFingerprints := s'.priorFingerprints)
      && Decided(config, s'.priorFingerprints, k + 1)
  {
    hide Coherent, HasRead, Select, Validate, IsRead, ContextOf, DecidedRead;
    SelectedRead(config, s, k);
    SelectedReadIsValid(config, s, k);
    var (s', choice) := SelectObservation(config, s, Some(Select(ContextOf(config, s))));
    DecidedOnceMore(config, s.priorFingerprints, choice.observation.fingerprint, k);
  }

  lemma DecidedOnceMore(config: Config, fingerprints: seq<Fingerprint>, f: Fingerprint, k: nat)
    requires k < ReadsNeeded(config.trusted.issue) && Decided(config, fingerprints, k)
    requires f.action == CallTool && f.tool == Some(PlannedRead(config, k).tool)
    ensures Decided(config, fingerprints + [f], k + 1)
  {
    hide IsRead;
    var issue := config.trusted.issue;
    forall code ensures IsRead(issue, k + 1, code) <==> IsRead(issue, k, code) || code == ReadingOrder(issue)[k] {
      NextIsUnread(issue, k, code);
    }
    forall g | g in fingerprints + [f] ensures DecidedRead(issue, g, k + 1) {
      if g in fingerprints {
        assert DecidedRead(issue, g, k);
        var code :| IsRead(issue, k, code) && g.tool == Some(ToolFor(code));
        assert IsRead(issue, k + 1, code);
      } else {
        NextIsUnread(issue, k, ReadingOrder(issue)[k]);
        assert IsRead(issue, k + 1, ReadingOrder(issue)[k]);
      }
    }
  }

  // ---------- One answered read ----------

  ghost predicate FreshFor(records: seq<ToolCall>, turn: Turn) {
    forall r :: r in records ==> r.callId != turn.callId && r.requestedAt.Some? && r.requestedAt.value < turn.at
  }

  lemma {:induction false} MatchIsFound(refs: seq<EvidenceRef>, ref: EvidenceRef, callId: string, hash: Option<string>)
    requires ref in refs && Matches(ref, callId, hash)
    ensures MatchingRefs(refs, callId, hash) != []
  {
    if !Matches(refs[0], callId, hash) {
      MatchIsFound(refs[1..], ref, callId, hash);
    }
  }

  lemma FoldAfterRead(scope: Scope, records: seq<ToolCall>, refs: seq<EvidenceRef>, record: ToolCall)
    requires scope.pending == None
    requires forall r :: r in records ==>
      && r.callId != record.callId
      && r.requestedAt.Some? && r.requestedAt.value < record.requestedAt.GetOr(0)
    requires record.requestedAt.Some? && forall ref :: ref in refs ==> ref.callId == record.callId
    ensures var scope' := scope.(refs := scope.refs + refs);
      FoldCalls(scope', Ordered(records + [record])) == Step(scope', FoldCalls(scope, Ordered(records)), record)
  {
    hide FoldCalls, Ordered, Step;
    RebuildIsFold(scope.(refs := scope.refs + refs), records, record);
    LaterCallLeavesFold(scope, records, record, None, refs);
  }

  lemma AnsweredStep(scope: Scope, st: Fold, k: nat, record: ToolCall)
    requires scope.pending == None && k < ReadsNeeded(scope.issue) && HasRead(scope.issue, st, k)
    requires record.tool == ToolFor(ReadingOrder(scope.issue)[k]) && InScope(scope, record) && ReportsSuccess(record)
    requires record.resultHash.Some? && record.envelopeHash == record.resultHash
    requires MatchingRefs(scope.refs, record.callId, record.resultHash) != []
    ensures HasRead(scope.issue, Step(scope, st, record), k + 1)
  {
    hide MatchingRefs, Step, IsRead, Registry;
    var own := ReadingOrder(scope.issue)[k];
    NextIsUnread(scope.issue, k, own);
    NothingWrong(scope, st, record, own);
    forall code
      ensures var p := Step(scope, st, record).states.Get(code);
        p.applicability == Registry(scope.issue, code)
        && if IsRead(scope.issue, k + 1, code) then IsSatisfied(p.status) else p.status == Missing
    {
      NextIsUnread(scope.issue, k, code);
      StepChangesOneRequirement(scope, st, record, code);
    }
  }

  lemma NothingWrong(scope: Scope, st: Fold, record: ToolCall, own: Requirement)
    requires scope.pending == None && Concerns(scope, record, own) && st.states.Get(own).status == Missing
    requires ReportsSuccess(record) && record.resultHash.Some? && record.envelopeHash == record.resultHash
    requires MatchingRefs(scope.refs, record.callId, record.resultHash) != []
    ensures Step(scope, st, record).terminal == st.terminal
    ensures IsSatisfied(Examine(scope, st, record, st.states.Get(own)).progress.status)
  {
    hide MatchingRefs;
  }

  lemma AnswerHasRef(refs: seq<EvidenceRef>, callId: string, result: ToolResult)
    requires result.Answered?
    ensures MatchingRefs(refs + RefsFrom(callId, result), callId, Some(result.resultHash)) != []
    ensures forall ref :: ref in RefsFrom(callId, result) ==> ref.callId == callId
  {
    var more := RefsFrom(callId, result);
    assert more[0] in refs + more;
    MatchIsFound(refs + more, more[0], callId, Some(result.resultHash));
  }

  lemma FoldAfterAnswer(config: Config, s: Session, k: nat, turn: Turn)
    requires OnTrack(config, s, k) && k < ReadsNeeded(config.trusted.issue) && turn.report.result.Answered?
        && FreshFor(s.records, turn)
    ensures var call := PlannedRead(config, k);
      var s' := Execute(config, s, turn.callId, call.tool, call.arguments, turn.report, turn.at);
      && Coherent(config, s') && s'.pending == None
      && HasRead(config.trusted.issue, FoldCalls(ScopeOf(config, s'.refs, None), Ordered(s'.records)), k + 1)
  {
    hide Execute, Rebuilt, Ordered, FoldCalls, RefsFrom, HasRead, Registry;
    var call := PlannedRead(config, k);
    ExecuteShape(config, s, turn.callId, call.tool, call.arguments, turn.report, turn.at);
    var record := ExecutedRecord(s, turn.callId, call.tool, call.arguments, turn.report, turn.at);
    AnswerHasRef(s.refs, turn.callId, turn.report.result);
    var scope := ScopeOf(config, s.refs, None);
    var more := RefsFrom(turn.callId, turn.report.result);
    FoldAfterRead(scope, s.records, more, record);
    AnsweredStep(scope.(refs := s.refs + more), FoldCalls(scope, Ordered(s.records)), k, record);
  }

  /** An answered read that reports no early stop leaves a reason to end exactly when the session ends itself. */
  lemma ReasonAfterAnswer(config: Config, s: Session, record: ToolCall, report: Report, refs: seq<EvidenceRef>)
    requires s.pending == None && s.terminalReason == None && report.result.Answered?
    requires s.budget.caseTurns < MAX_CASE_TURNS && s.budget.runTurns < MAX_RUN_TURNS && s.budget.readCount < MAX_READS
    requires config.enforceEarlyStop ==>
      s.earlyStop == None && EarlyStopAfter(config.trusted.issue, None, record.tool, report) == None
    requires var s' := OnToolResult(config, s, record, report, refs);
      s'.progress.terminal == [] && s'.progress != s.selectorInput
    ensures var s' := OnToolResult(config, s, record, report, refs);
      && (config.enforceEarlyStop ==> s'.earlyStop == None)
      && s'.terminalReason == (if s'.progress.readiness == Evaluable && EndsItself(config, s') then Some(GateReady)
           else None)
      && s'.carrierOverdue == (if record.tool in {GetLogisticsTimeline, SearchAfterSalesPolicy} then
           report.facts.carrierOverdue
                               else s.carrierOverdue)
  {
    hide FoldCalls, Ordered;
    OnToolResultShape(config, s, record, report, refs);
    var absorbed := CountUnchanged(Absorbed(config, s, record, report, refs));
    assert absorbed.terminalReason == None && absorbed.unchangedTurns == 0;
  }

  lemma AnsweredRead(config: Config, s: Session, k: nat, turn: Turn)
    requires OnTrack(config, s, k) && k < ReadsNeeded(config.trusted.issue) && turn.report.result.Answered?
        && FreshFor(s.records, turn)
    requires config.enforceEarlyStop ==> QuietRead(config, k, turn.report)
    requires s.selectorInput == s.progress && s.budget.caseTurns == s.budget.runTurns == k + 1
    ensures var call := PlannedRead(config, k);
      var s' := Execute(config, s, turn.callId, call.tool, call.arguments, turn.report, turn.at);
      && OnTrack(config, s', k + 1) && AttemptsIn(s.attempts, call.tool) == 0
      && s'.budget.caseTurns == s'.budget.runTurns == k + 1
      && s'.priorFingerprints == s.priorFingerprints && s'.corrected == s.corrected
      && s'.carrierOverdue == (if call.tool in {GetLogisticsTimeline, SearchAfterSalesPolicy} then
           turn.report.facts.carrierOverdue
                               else s.carrierOverdue)
      && |s'.records| == |s.records| + 1 && s'.records[..|s.records|] == s.records
      && s'.records[|s.records|].callId == turn.callId && s'.records[|s.records|].requestedAt == Some(turn.at)
  {
    hide Rebuilt, Ordered, FoldCalls, RefsFrom, HasRead, IsRead, OnToolResult;
    var issue := config.trusted.issue;
    var call := PlannedRead(config, k);
    ExecuteShape(config, s, turn.callId, call.tool, call.arguments, turn.report, turn.at);
    FoldAfterAnswer(config, s, k, turn);
    RequiredComeFirst(issue, ReadingOrder(issue)[k]);
    NextIsUnread(issue, k, ReadingOrder(issue)[k]);
    var s' := Execute(config, s, turn.callId, call.tool, call.arguments, turn.report, turn.at);
    forall code | !IsRead(issue, k + 1, code) ensures AttemptsIn(s'.attempts, ToolFor(code)) == 0 {
      NextIsUnread(issue, k, code);
    }
    OneMoreSatisfied(config, s, s', k);
    KeepsGoing(config, s, turn, call.tool, call.arguments);
    EvaluableAtTheEnd(config, s', k + 1);
  }

  lemma OneMoreSatisfied(config: Config, s: Session, s': Session, k: nat)
    requires k < ReadsNeeded(config.trusted.issue) && s.pending == None && s'.pending == None
    requires Coherent(config, s) && Coherent(config, s')
    requires HasRead(config.trusted.issue, FoldCalls(ScopeOf(config, s.refs, None), Ordered(s.records)), k)
    requires HasRead(config.trusted.issue, FoldCalls(ScopeOf(config, s'.refs, None), Ordered(s'.records)), k + 1)
    ensures s'.progress != s.progress && s'.progress.terminal == []
  {
    hide FoldCalls, Ordered, IsRead;
    var own := ReadingOrder(config.trusted.issue)[k];
    NextIsUnread(config.trusted.issue, k, own);
    assert s.progress.requirements.Get(own).status == Missing;
    assert IsSatisfied(s'.progress.requirements.Get(own).status);
  }

  lemma KeepsGoing(config: Config, s: Session, turn: Turn, tool: ToolName, arguments: Arguments)
    requires s.pending == None && s.terminalReason == None && turn.report.result.Answered?
    requires config.enforceEarlyStop ==>
      s.earlyStop == None && EarlyStopAfter(config.trusted.issue, None, tool, turn.report) == None
    requires s.budget.caseTurns < MAX_CASE_TURNS && s.budget.runTurns < MAX_RUN_TURNS
        && s.budget.readCount + 1 < MAX_READS
    requires var s' := Execute(config, s, turn.callId, tool, arguments, turn.report, turn.at);
      s'.progress.terminal == [] && s'.progress != s.selectorInput
    ensures var s' := Execute(config, s, turn.callId, tool, arguments, turn.report, turn.at);
      && (config.enforceEarlyStop ==> s'.earlyStop == None)
      && s'.terminalReason == (if s'.progress.readiness == Evaluable && EndsItself(config, s') then Some(GateReady)
           else None)
      && s'.carrierOverdue == (if tool in {GetLogisticsTimeline, SearchAfterSalesPolicy} then
           turn.report.facts.carrierOverdue
                               else s.carrierOverdue)
  {
    hide OnToolResult, RefsFrom;
    var attempt := AttemptsIn(s.attempts, tool) + 1;
    var counted := s.(
      budget := if turn.report.actual then s.budget.(readCount := s.budget.readCount + 1) else s.budget,
      attempts := s.attempts[tool := attempt]);
    ReasonAfterAnswer(config, counted, RecordOf(turn.callId, tool, arguments, attempt, turn.report, turn.at),
        turn.report,
                      RefsFrom(turn.callId, turn.report.result));
  }

  // ---------- The pass ----------

  ghost predicate Recorded(records: seq<ToolCall>, turns: seq<Turn>) {
    && |records| == |turns|
    && forall i :: 0 <= i < |records| ==>
         records[i].callId == turns[i].callId && records[i].requestedAt == Some(turns[i].at)
  }

  ghost predicate Underway(config: Config, p: Pass, turns: seq<Turn>) {
    var k := |turns|;
    && p.ending == None && p.planningTurns == k && p.selectorTurns == k && !p.session.corrected
    && OnTrack(config, p.session, k) && Decided(config, p.session.priorFingerprints, k)
    && p.session.budget.caseTurns == p.session.budget.runTurns == k
    && Recorded(p.session.records, turns)
    && (config.trusted.issue == StalledTracking && k >= 3 ==>
         p.session.carrierOverdue == turns[2].report.facts.carrierOverdue)
    && |p.executed| == k
    && forall i :: 0 <= i < k ==> p.executed[i] == PlannedRead(config, i)
  }

  function Counted(s: Session): Session {
    s.(selectorInput := s.progress, budget := s.budget.(caseTurns := s.budget.caseTurns + 1,
        runTurns := s.budget.runTurns + 1))
  }

  /** A visit that finds nothing to repeat and nothing to stop for takes a selector turn. */
  lemma VisitSelects(config: Config, p: Pass, turn: Turn)
    requires p.ending == None && p.session.pending == None && !MustStop(config, p.session)
    requires p.session.budget.caseTurns < MAX_CASE_TURNS && p.session.budget.runTurns < MAX_RUN_TURNS
    ensures var (chosen, choice) := SelectObservation(config, Counted(p.session), turn.candidate);
      Advance(config, p, turn) == Act(config, p.(session := chosen, selectorTurns := p.selectorTurns + 1), choice, turn)
  {
    hide SelectObservation, Act;
  }

  lemma NextVisitReads(config: Config, p: Pass, turns: seq<Turn>)
    requires config.stopAfter == None && Answers(turns) && NoEarlyStop(config, turns) && turns != []
    requires var n := |turns| - 1; Underway(config, p, turns[..n]) && n < ReadsNeeded(config.trusted.issue)
    ensures var turn := turns[|turns| - 1].(candidate := Some(Select(ContextOf(config, p.session))));
      Underway(config, Advance(config, p, turn), turns)
  {
    hide Coherent, HasRead, Advance, SelectObservation, Select, Execute, ContextOf, Decided, IsRead, OnTrack, Answers;
    var k := |turns| - 1;
    var turn := turns[k].(candidate := Some(Select(ContextOf(config, p.session))));
    RequiredComeFirst(config.trusted.issue, OrderStatus);
    var counted := Counted(p.session);
    SameSelection(config, p.session, counted);
    OnTrackIgnores(config, p.session, counted, k);
    NoReasonToStop(config, p.session, k);
    hide MustStop, QuietRead;
    VisitSelects(config, p, turn);
    ReadAccepted(config, counted, k);
    var (chosen, choice) := SelectObservation(config, counted, turn.candidate);
    OnTrackIgnores(config, counted, chosen, k);
    StillFresh(chosen.records, turns);
    AnsweredRead(config, chosen, k, turn);
    var read := PlannedRead(config, k);
    var executed := Execute(config, chosen, turn.callId, read.tool, read.arguments, turn.report, turn.at);
    RecordedOnceMore(chosen.records, executed.records, turns);
    hide Recorded;
    var q := p.(session := chosen, selectorTurns := k + 1);
    var call := PlannedRead(config, k);
    assert Act(config, q, choice, turn) == q.(planningTurns := k + 1, executed := p.executed + [call],
      session := Execute(config, chosen, turn.callId, call.tool, call.arguments, turn.report, turn.at));
  }

  lemma RecordedOnceMore(records: seq<ToolCall>, records': seq<ToolCall>, turns: seq<Turn>)
    requires turns != [] && Recorded(records, turns[..|turns| - 1])
    requires |records'| == |turns| && records'[..|records|] == records
    requires var last := |turns| - 1;
      records'[last].callId == turns[last].callId && records'[last].requestedAt == Some(turns[last].at)
    ensures Recorded(records', turns)
  {
    var k := |turns| - 1;
    forall i | 0 <= i < |turns| ensures records'[i].callId == turns[i].callId
        && records'[i].requestedAt == Some(turns[i].at) {
      if i < k {
        assert records'[i] == records'[..|records|][i] && turns[..k][i] == turns[i];
      }
    }
  }

  lemma StillFresh(records: seq<ToolCall>, turns: seq<Turn>)
    requires Answers(turns) && turns != [] && Recorded(records, turns[..|turns| - 1])
    ensures FreshFor(records, turns[|turns| - 1]) && turns[|turns| - 1].report.result.Answered?
  {
    var k := |turns| - 1;
    forall r | r in records ensures r.callId != turns[k].callId && r.requestedAt.Some?
        && r.requestedAt.value < turns[k].at {
      var i :| 0 <= i < |records| && records[i] == r;
      assert turns[..k][i] == turns[i];
    }
  }

  lemma OnTrackIgnores(config: Config, s: Session, s': Session, k: nat)
    requires OnTrack(config, s, k)
    requires s' == s.(selectorInput := s'.selectorInput, priorFingerprints := s'.priorFingerprints, budget := s'.budget)
    requires s'.budget.readCount == s.budget.readCount
    ensures OnTrack(config, s', k) && s'.pending == None
  {
    hide Rebuilt, HasRead, IsRead, FoldCalls, Ordered;
  }

  lemma SameSelection(config: Config, s: Session, s': Session)
    requires s'.progress == s.progress
    ensures Select(ContextOf(config, s')) == Select(ContextOf(config, s))
  {
  }

  lemma StartIsOnTrack(config: Config)
    ensures var s := Start(config, [], [], Budget(0, 0, 0));
      OnTrack(config, s, 0) && Underway(config, NewPass(s), [])
  {
    assert Ordered([]) == [];
  }

  lemma {:induction false} DriveReads(config: Config, turns: seq<Turn>)
    requires config.stopAfter == None && Answers(turns) && NoEarlyStop(config, turns)
    requires |turns| <= ReadsNeeded(config.trusted.issue)
    ensures Underway(config, Drive(config, NewPass(Start(config, [], [], Budget(0, 0, 0))), turns), turns)
    decreases |turns|
  {
    hide Underway, Advance, Select, Start, OnTrack;
    if turns == [] {
      StartIsOnTrack(config);
    } else {
      var n := |turns| - 1;
      DriveReads(config, turns[..n]);
      NextVisitReads(config, Drive(config, NewPass(Start(config, [], [], Budget(0, 0, 0))), turns[..n]), turns);
    }
  }

  /** On complete progress the selector finishes, and the validator lets it. */
  lemma FinishAccepted(config: Config, s: Session)
    requires OnTrack(config, s, ReadsNeeded(config.trusted.issue))
    requires s.budget.caseTurns < MAX_CASE_TURNS && s.budget.runTurns < MAX_RUN_TURNS
    requires Decided(config, s.priorFingerprints, ReadsNeeded(config.trusted.issue))
    ensures CanFinish(config, s)
    ensures SelectObservation(config, s, Some(Select(ContextOf(config, s)))).1 == Finished
  {
    hide HasRead, IsRead, FoldCalls, Ordered, NeedsCarrierContext;
    RequiredComeFirst(config.trusted.issue, OrderStatus);
    EvaluableAtTheEnd(config, s, ReadsNeeded(config.trusted.issue));
    NeverFinished(config, s.priorFingerprints);
    assert Select(ContextOf(config, s)) == FINISH;
    assert s.pending == None && |s.priorFingerprints| <= MAX_FINGERPRINTS;
    hide OnTrack, Decided, Validate, Select, ContextOf;
    FinishIsValid(config, s, if s.issueRevisionTerminal then Some(true) else None);
  }

  lemma NeverFinished(config: Config, fingerprints: seq<Fingerprint>)
    requires Decided(config, fingerprints, ReadsNeeded(config.trusted.issue))
    ensures forall f :: f in fingerprints ==> f.action == CallTool
  {
    hide IsRead;
    forall f | f in fingerprints ensures f.action == CallTool {
      assert DecidedRead(config.trusted.issue, f, ReadsNeeded(config.trusted.issue));
    }
  }

  lemma FinishIsValid(config: Config, s: Session, gateReady: Option<bool>)
    requires s.progress.readiness == Evaluable && gateReady != Some(false) && s.budget.caseTurns < MAX_CASE_TURNS
        && s.budget.runTurns < MAX_RUN_TURNS
    requires forall f :: f in s.priorFingerprints ==> f.action == CallTool
    ensures Validate(Some(FINISH), ContextOf(config, s), config.trusted, None, gateReady).Accepted?
    ensures Validate(Some(FINISH), ContextOf(config, s), config.trusted, None, gateReady).observation.action == Finish
  {
    AcceptedExactly(Some(FINISH), ContextOf(config, s), config.trusted, None, gateReady);
  }

  /**
   The workflow selector makes progress. With fresh budgets, every read answered and, where early
   stopping is on, none of them reporting a fact that stops early: each candidate is accepted and reads
   the next required code, the evidence becomes evaluable after exactly 5 reads for a signed parcel and
   4 for a stalled one, and the candidate the selector would give then is an acceptable finish. The next
   visit ends the pass: by the session itself where early stopping is on and no carrier alert is
   wanted, by that finish otherwise.
   */
  lemma {:induction false} WorkflowMakesProgress(config: Config, turns: seq<Turn>, last: Turn)
    requires config.stopAfter == None && Answers(turns) && NoEarlyStop(config, turns)
    requires |turns| == if config.trusted.issue == SignedNotReceived then 5 else 4
    ensures var start := NewPass(Start(config, [], [], Budget(0, 0, 0)));
      forall k {:trigger turns[..k]} :: 0 <= k <= |turns| ==>
        var p := Drive(config, start, turns[..k]);
        && p.ending == None && p.planningTurns == k && p.session.progress.terminal == []
        && |p.executed| == k && (forall i :: 0 <= i < k ==> p.executed[i] == PlannedRead(config, i))
        && (p.session.progress.readiness == Evaluable <==> k == |turns|)
    ensures var start := NewPass(Start(config, [], [], Budget(0, 0, 0)));
      var p, q := Drive(config, start, turns), Drive(config, start, turns + [last]);
      && CanFinish(config, p.session)
      && q.ending == Some(if EndsItself(config, p.session) then StoppedBySession else SelectorFinished)
      && q.executed == p.executed
      && (NeedsCarrierContext(config, p.session) <==>
            config.businessDemo && config.trusted.issue == StalledTracking && turns[2].report.facts.carrierOverdue)
  {
    hide Advance, Start, OnTrack, Decided, Recorded, Answers, Select, EndsItself, NeedsCarrierContext, NoEarlyStop;
    RequiredComeFirst(config.trusted.issue, OrderStatus);
    var start := NewPass(Start(config, [], [], Budget(0, 0, 0)));
    forall k {:trigger turns[..k]} | 0 <= k <= |turns| ensures
      var p := Drive(config, start, turns[..k]);
      Underway(config, p, turns[..k]) && p.session.progress.terminal == []
          && (p.session.progress.readiness == Evaluable <==> k == |turns|)
    {
      PrefixAnswers(config, turns, k);
      DriveReads(config, turns[..k]);
      ReadyAtTheEnd(config, Drive(config, start, turns[..k]).session, k);
    }
    assert turns[..|turns|] == turns;
    var p := Drive(config, start, turns);
    assert (turns + [last])[..|turns|] == turns;
    LastVisitEnds(config, p, turns, last.(candidate := Some(Select(ContextOf(config, p.session)))));
    CarrierWanted(config, p, turns);
  }

  lemma ReadyAtTheEnd(config: Config, s: Session, k: nat)
    requires OnTrack(config, s, k)
    ensures s.progress.readiness == Evaluable <==> k == ReadsNeeded(config.trusted.issue)
    ensures s.progress.terminal == []
  {
    hide HasRead, Coherent;
    EvaluableAtTheEnd(config, s, k);
  }

  lemma PrefixAnswers(config: Config, turns: seq<Turn>, k: nat)
    requires Answers(turns) && NoEarlyStop(config, turns) && k <= |turns|
    ensures Answers(turns[..k]) && NoEarlyStop(config, turns[..k])
  {
    hide QuietRead;
  }

  /** The candidate the selector gives is one the validator accepts as a finish. */
  predicate CanFinish(config: Config, s: Session) {
    var verdict := Validate(Some(Select(ContextOf(config, s))), ContextOf(config, s), config.trusted, s.pending,
                            if s.issueRevisionTerminal then Some(true) else None);
    verdict.Accepted? && verdict.observation.action == Finish
  }

  lemma LastVisitEnds(config: Config, p: Pass, turns: seq<Turn>, turn: Turn)
    requires config.stopAfter == None && Underway(config, p, turns) && |turns| == ReadsNeeded(config.trusted.issue)
    requires turn.candidate == Some(Select(ContextOf(config, p.session)))
    ensures CanFinish(config, p.session)
    ensures Advance(config, p, turn).ending == Some(if EndsItself(config, p.session) then StoppedBySession
        else SelectorFinished)
    ensures Advance(config, p, turn).executed == p.executed
  {
    RequiredComeFirst(config.trusted.issue, OrderStatus);
    FinishAccepted(config, p.session);
    if EndsItself(config, p.session) {
      hide Select, Decided, Recorded, HasRead, Coherent;
    } else {
      var counted := Counted(p.session);
      SameSelection(config, p.session, counted);
      OnTrackIgnores(config, p.session, counted, |turns|);
      NoReasonToStop(config, p.session, |turns|);
      hide Advance, SelectObservation, Select, ContextOf, Decided, OnTrack, Recorded, EndsItself, MustStop;
      VisitSelects(config, p, turn);
      FinishAccepted(config, counted);
    }
  }

  lemma NoReasonToStop(config: Config, s: Session, k: nat)
    requires OnTrack(config, s, k) && config.stopAfter == None
    requires k == ReadsNeeded(config.trusted.issue) ==> !EndsItself(config, s)
    ensures !MustStop(config, s)
  {
    hide HasRead, Coherent, NeedsCarrierContext;
    EvaluableAtTheEnd(config, s, k);
  }

  lemma CarrierWanted(config: Config, p: Pass, turns: seq<Turn>)
    requires Underway(config, p, turns) && |turns| == ReadsNeeded(config.trusted.issue)
    ensures NeedsCarrierContext(config, p.session) <==>
      config.businessDemo && config.trusted.issue == StalledTracking && turns[2].report.facts.carrierOverdue
  {
    hide Decided, Recorded;
    RequiredComeFirst(config.trusted.issue, CarrierAlertContext);
    ProgressOf(config, p.session, |turns|, CarrierAlertContext);
  }

  /**
   An overdue carrier makes the coordinator go on for the carrier alert, but the workflow selector
   finishes on evaluable evidence: so it never reads the alert, and the pass ends still wanting it.
   */
  lemma {:induction false} OverdueCarrierAlertIsNeverRead(config: Config, turns: seq<Turn>, last: Turn)
    requires config.stopAfter == None && Answers(turns) && NoEarlyStop(config, turns)
    requires config.businessDemo && config.trusted.issue == StalledTracking && |turns| == 4
    requires turns[2].report.facts.carrierOverdue
    ensures var q := Drive(config, NewPass(Start(config, [], [], Budget(0, 0, 0))), turns + [last]);
      && q.ending == Some(SelectorFinished)
      && (forall e :: e in q.executed ==> e.tool != GetCarrierServiceAlerts)
      && NeedsCarrierContext(config, Drive(config, NewPass(Start(config, [], [], Budget(0, 0, 0))), turns).session)
  {
    hide Drive, Start, Answers, NoEarlyStop, CanFinish;
    WorkflowMakesProgress(config, turns, last);
    assert turns[..4] == turns;
  }
}
