/** What a finished pass rests on, whatever the selector proposed and the sources returned. */
module InvestigationOutcome {
  import opened Options
  import opened EvidenceProgress
  import opened EvidenceProperties
  import opened ObservationPolicy
  import opened Investigation
  import opened InvestigationBounds
  import opened InvestigationRetry

  /** Every required code has its evidence in the pass's own history. */
  ghost predicate Complete(config: Config, s: Session) {
    forall code :: Registry(config.trusted.issue, code) == Required ==>
      exists call :: call in s.records
        && Supports(ScopeOf(config, s.refs, s.pending), call, code, s.progress.requirements.Get(code))
  }

  lemma EvaluableIsComplete(config: Config, s: Session)
    requires Coherent(config, s) && s.progress.readiness == Evaluable
    ensures Complete(config, s)
  {
    hide Rebuilt, Supports;
    var scope := ScopeOf(config, s.refs, s.pending);
    EvaluableExactly(scope, s.records);
    forall code | Registry(config.trusted.issue, code) == Required
      ensures exists call :: call in s.records && Supports(scope, call, code, s.progress.requirements.Get(code))
    {
      ReadinessIsSound(scope, s.records, code);
    }
  }

  lemma KeptCoherent(config: Config, s: Session)
    requires SessionInv(config, s)
    ensures Coherent(config, s)
  {
  }

  /** The tool whose answer a signal comes from. */
  function SourceOf(stop: EarlyStop): ToolName {
    match stop
    case IssueRevisionReady => GetOrderContext
    case ActiveTicketExists => GetExistingLogisticsTickets
    case WithinTrackingSla => SearchAfterSalesPolicy
  }

  ghost predicate Answered(records: seq<ToolCall>, tool: ToolName) {
    exists r :: r in records && r.tool == tool && r.execution == Some(Success)
  }

  /** Each signal that may end a pass early was reported by an answered call of its own tool. */
  ghost predicate SignalsAnswered(s: Session) {
    && (s.earlyStop.Some? ==> Answered(s.records, SourceOf(s.earlyStop.value)))
    && (s.issueRevisionTerminal ==> Answered(s.records, GetOrderContext))
  }

  /** The coordinator says "gate ready" only with nothing outstanding, on a signal or on evaluable evidence. */
  ghost predicate ReasonKept(config: Config, s: Session) {
    s.terminalReason == Some(GateReady) ==>
      config.enforceEarlyStop && s.pending == None && (s.earlyStop.Some? || s.progress.readiness == Evaluable)
  }

  ghost predicate OutcomeKept(config: Config, s: Session) {
    SessionInv(config, s) && SignalsAnswered(s) && ReasonKept(config, s)
  }

  /** What the coordinator may be executing: a due retry, or a read while nothing asks it to stop. */
  predicate MayExecute(config: Config, s: Session, tool: ToolName) {
    if s.pending.Some? then tool == s.pending.value.tool else config.enforceEarlyStop ==> s.earlyStop == None
  }

  lemma ResultKeepsReason(config: Config, s: Session, record: ToolCall, report: Report, refs: seq<EvidenceRef>)
    requires s.terminalReason != Some(GateReady) && record.attempt >= 1
    requires record.execution == Some(ExecutionOf(report.result))
    requires s.pending.Some? ==> record.attempt >= NEXT_ATTEMPT
    requires s.pending == None && config.enforceEarlyStop ==> s.earlyStop == None
    requires SignalsAnswered(s)
    ensures var s' := OnToolResult(config, s, record, report, refs); ReasonKept(config, s') && SignalsAnswered(s')
  {
    hide Rebuilt, RouteAfter, IssueExactRetry;
    var absorbed := CountUnchanged(Absorbed(config, s, record, report, refs));
    var before := Rebuilt(ScopeOf(config, s.refs, s.pending), s.records);
    var trigger := Trigger(record.callId, record.tool, record.arguments.GetOr(map[]), record.attempt,
                           ExecutionOf(report.result), AvailabilityOf(report.result),
                           report.result.Failed? && report.result.retryable);
    RouteIsJustified(config.trusted.caseId, config.trusted.runId, before, absorbed.progress, absorbed.budget,
        Some(trigger),
                     absorbed.pending, Some(report.sourceVersion), absorbed.unchangedTurns);
    RouteReasons(config.trusted.caseId, config.trusted.runId, before, absorbed.progress, absorbed.budget, Some(trigger),
                 absorbed.pending, Some(report.sourceVersion), absorbed.unchangedTurns);
    assert record in s.records + [record];
    assert forall r :: r in s.records ==> r in s.records + [record];
  }

  lemma RouteReasons(caseId: string, runId: string, before: Snapshot, after: Snapshot, budget: Budget,
      trigger: Option<Trigger>, pending: Option<RetryDirective>, sourceVersion: Option<string>, unchangedTurns: nat)
    ensures var r := RouteAfter(caseId, runId, before, after, budget, trigger, pending, sourceVersion, unchangedTurns);
      r.reason == GateReady <==> r.route == Finalize
  {
  }

  lemma ExecuteKeepsOutcome(config: Config, s: Session, callId: string, tool: ToolName, arguments: Arguments,
      offered: Report, at: int)
    requires OutcomeKept(config, s) && s.terminalReason != Some(GateReady) && MayExecute(config, s, tool)
    ensures OutcomeKept(config, Execute(config, s, callId, tool, arguments, offered, at))
  {
    hide OnToolResult, Rebuilt, RefsFrom, Govern, ReasonKept;
    ExecuteEffect(config, s, callId, tool, arguments, offered, at);
    var report := Govern(offered, s.budget.readCount);
    var attempt := AttemptsIn(s.attempts, tool) + 1;
    var counted := s.(
      budget := if report.actual then s.budget.(readCount := s.budget.readCount + 1) else s.budget,
      attempts := s.attempts[tool := attempt]);
    ResultKeepsReason(config, counted, RecordOf(callId, tool, arguments, attempt, report, at), report,
                      RefsFrom(callId, report.result));
  }

  /** The selector's turn changes neither history nor signals, and finishes only when it may. */
  lemma SelectionKeepsOutcome(config: Config, s: Session, candidate: Option<RawCandidate>)
    requires OutcomeKept(config, s) && s.terminalReason == None
    ensures var (s', choice) := SelectObservation(config, s, candidate);
      && OutcomeKept(config, s') && s'.terminalReason != Some(GateReady)
      && s'.pending == s.pending && s'.earlyStop == s.earlyStop
      && (choice == Finished ==> s'.issueRevisionTerminal || s'.progress.readiness == Evaluable)
      && (choice.RunTool? ==> choice.observation.action == CallTool)
  {
    hide Rebuilt, Validate;
    var namesTool := candidate.Some? && WellShaped(candidate.value) && candidate.value.tool.Some?;
    var gateReady := if !namesTool && s.issueRevisionTerminal then Some(true) else None;
    var lock := if config.enforceExactRetry then s.pending else None;
    AcceptedExactly(candidate, ContextOf(config, s), config.trusted, lock, gateReady);
    SameAction(candidate, ContextOf(config, s), config.trusted, lock, gateReady);
  }

  lemma SameAction(candidate: Option<RawCandidate>, context: DecisionContext, trusted: Trusted,
      pending: Option<RetryDirective>, gateReady: Option<bool>)
    ensures var verdict := Validate(candidate, context, trusted, pending, gateReady);
      verdict.Accepted? ==> candidate.Some? && verdict.observation.action == candidate.value.action
  {
  }

  // ---------- The pass ----------

  /** How a pass may have ended, and on what. */
  ghost predicate EndsRightly(config: Config, p: Pass) {
    match p.ending
    case None => OutcomeKept(config, p.session)
    case Some(SelectorFinished) =>
      SignalsAnswered(p.session) && (p.session.issueRevisionTerminal || Complete(config, p.session))
    case Some(StoppedBySession) =>
      && SignalsAnswered(p.session)
      && (config.stopAfter == None && p.session.terminalReason in {None, Some(GateReady)} ==>
            config.enforceEarlyStop && (p.session.earlyStop.Some? || Complete(config, p.session)))
    case _ => true
  }

  lemma SameOutcome(config: Config, s: Session, s': Session)
    requires OutcomeKept(config, s)
    requires s' == s.(selectorInput := s'.selectorInput, budget := s'.budget)
    ensures OutcomeKept(config, s')
  {
    hide Rebuilt;
  }

  lemma StopsRightly(config: Config, p: Pass, turn: Turn)
    requires p.ending == None && OutcomeKept(config, p.session)
    requires BeforeSelector(config, p.session, turn.currentSource).1.Stop?
    ensures EndsRightly(config, Advance(config, p, turn))
  {
    hide Rebuilt, Complete;
    var s := Advance(config, p, turn).session;
    if s.pending == p.session.pending && s.progress.readiness == Evaluable {
      EvaluableIsComplete(config, s);
    }
  }

  lemma RetriesRightly(config: Config, p: Pass, turn: Turn)
    requires p.ending == None && OutcomeKept(config, p.session) && p.planningTurns < MAX_RUN_TURNS
    requires BeforeSelector(config, p.session, turn.currentSource).1.RepeatExactly?
    ensures EndsRightly(config, Advance(config, p, turn))
  {
    hide Rebuilt, Execute, SessionInv, SignalsAnswered;
    var s := p.session.(selectorInput := p.session.progress);
    var d := p.session.pending.value;
    SameOutcome(config, p.session, s);
    ExecuteKeepsOutcome(config, s, turn.callId, d.tool, d.arguments, turn.report, turn.at);
  }

  lemma SelectsRightly(config: Config, p: Pass, turn: Turn)
    requires config.enforceExactRetry && p.ending == None && OutcomeKept(config, p.session)
    requires p.planningTurns < MAX_RUN_TURNS && |p.session.priorFingerprints| <= MAX_FINGERPRINTS
    requires BeforeSelector(config, p.session, turn.currentSource).1 == Proceed
    ensures EndsRightly(config, Advance(config, p, turn))
  {
    hide Rebuilt, Execute, SelectObservation, SessionInv, SignalsAnswered, Complete;
    var budget := p.session.budget;
    if budget.caseTurns < MAX_CASE_TURNS && budget.runTurns < MAX_RUN_TURNS {
      var counted := p.session.(selectorInput := p.session.progress,
                                budget := budget.(caseTurns := budget.caseTurns + 1, runTurns := budget.runTurns + 1));
      SameOutcome(config, p.session, counted);
      SelectionKeepsOutcome(config, counted, turn.candidate);
      SelectEffect(config, counted, turn.candidate);
      var (chosen, choice) := SelectObservation(config, counted, turn.candidate);
      if choice.RunTool? {
        var tool := choice.observation.tool.GetOr(UnregisteredTool(""));
        ExecuteKeepsOutcome(config, chosen, turn.callId, tool, choice.observation.arguments, turn.report, turn.at);
      }
      if chosen.progress.readiness == Evaluable {
        KeptCoherent(config, chosen);
        EvaluableIsComplete(config, chosen);
      }
    }
  }

  lemma {:induction false} RunEndsRightly(config: Config, session: Session, turns: seq<Turn>)
    requires config.enforceExactRetry && OutcomeKept(config, session) && session.priorFingerprints == []
    ensures EndsRightly(config, Run(config, NewPass(session), turns))
    decreases |turns|
  {
    hide OutcomeKept, Advance, BeforeSelector, EndsRightly;
    if turns == [] {
      assert EndsRightly(config, NewPass(session)) by { GoingOnRightly(config, NewPass(session)); }
    } else {
      var n := |turns| - 1;
      RunEndsRightly(config, session, turns[..n]);
      var p := Run(config, NewPass(session), turns[..n]);
      if p.ending.Some? {
        EndedStays(config, p, turns[n]);
      } else {
        GoingOnRightly(config, p);
        KeptSession(config, session);
        WithinLimits(config, session, turns[..n]);
        match BeforeSelector(config, p.session, turns[n].currentSource).1
        case RepeatExactly(_) => RetriesRightly(config, p, turns[n]);
        case Stop => StopsRightly(config, p, turns[n]);
        case Proceed => SelectsRightly(config, p, turns[n]);
      }
    }
  }

  lemma GoingOnRightly(config: Config, p: Pass)
    requires p.ending == None
    ensures EndsRightly(config, p) <==> OutcomeKept(config, p.session)
  {
    hide OutcomeKept;
  }

  lemma KeptSession(config: Config, s: Session)
    requires OutcomeKept(config, s)
    ensures SessionInv(config, s)
  {
  }

  /**
   A pass that finishes, finishes on evidence. Over any history, any selector and any sources: if the
   selector's finish ended it, every required code has its in-scope successful call with matching
   availability, hash and bound reference in the pass's history, or the order record contradicted the
   reported issue; if the session ended it without a guard's reason, every required code has its
   evidence or an answered call reported a signal that ends the investigation early.
   */
  lemma {:induction false} PassFinishesOnEvidence(config: Config, records: seq<ToolCall>, refs: seq<EvidenceRef>,
      budget: Budget,
      turns: seq<Turn>)
    requires config.enforceExactRetry
    ensures var p := Run(config, NewPass(Start(config, records, refs, budget)), turns);
      && SignalsWhenEnded(p)
      && (p.ending == Some(SelectorFinished) ==> p.session.issueRevisionTerminal || Complete(config, p.session))
      && (p.ending == Some(StoppedBySession) && config.stopAfter == None
          && p.session.terminalReason in {None, Some(GateReady)} ==>
            config.enforceEarlyStop && (p.session.earlyStop.Some? || Complete(config, p.session)))
  {
    hide Run, SessionInv, Rebuilt, Complete;
    var session := Start(config, records, refs, budget);
    StartIsSound(config, records, refs, budget);
    RunEndsRightly(config, session, turns);
  }

  /** The signals a finished pass may rest on are answers in its history. */
  ghost predicate SignalsWhenEnded(p: Pass) {
    p.ending in {Some(SelectorFinished), Some(StoppedBySession)} ==> SignalsAnswered(p.session)
  }
}
