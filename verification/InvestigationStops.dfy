/** When a pass stops: stated on its snapshot, budget, counter and signals. */
module InvestigationStops {
  import opened Options
  import opened EvidenceProgress
  import opened ObservationPolicy
  import opened Investigation
  import opened InvestigationBounds
  import opened InvestigationRetry
  import opened Coordinator

  predicate Spent(budget: Budget) {
    budget.caseTurns >= 16 || budget.runTurns >= 8 || budget.readCount >= 6
  }

  /** What progress, budget and counter leave no way on from. */
  predicate Hopeless(s: Session) {
    s.progress.terminal != [] || Spent(s.budget) || s.unchangedTurns >= 2
  }

  predicate Stuck(s: Session) {
    s.unchangedTurns >= 2 && s.progress.readiness != Evaluable
  }

  /** The visit ends the pass and does nothing else. */
  ghost predicate StopsHere(config: Config, p: Pass, turn: Turn) {
    var p' := Advance(config, p, turn);
    && p'.ending == Some(StoppedBySession)
    && p'.executed == p.executed && p'.session.records == p.session.records
    && p'.selectorTurns == p.selectorTurns && p'.session.budget == p.session.budget
  }

  // ---------- Signals ----------

  /** The call that just ran reached its source and was answered. */
  predicate WasAnswered(p: Pass, turn: Turn) {
    turn.report.result.Answered? && (turn.report.actual ==> p.session.budget.readCount < MAX_READS)
  }

  /** An order record against the reported issue, a ticket found, a stalled parcel still within its time. */
  predicate Signals(issue: Issue, tool: ToolName, facts: PayloadFacts, stop: EarlyStop) {
    match stop
    case IssueRevisionReady => tool == GetOrderContext && facts.orderContradictsIssue
    case ActiveTicketExists => tool == GetExistingLogisticsTickets && facts.ticketFound
    case WithinTrackingSla => tool == SearchAfterSalesPolicy && issue == StalledTracking && facts.withinSla
  }

  // ---------- A visit that executes ----------

  /** The session a result arrives in: the visit's own, its selector input taken and its turn charged. */
  ghost predicate Prepared(p: Pass, s: Session) {
    && s.records == p.session.records && s.refs == p.session.refs && s.pending == p.session.pending
    && s.selectorInput == p.session.progress && s.unchangedTurns == p.session.unchangedTurns
    && s.earlyStop == p.session.earlyStop && s.terminalReason == p.session.terminalReason
    && s.issueRevisionTerminal == p.session.issueRevisionTerminal && s.carrierOverdue == p.session.carrierOverdue
    && s.budget.readCount == p.session.budget.readCount
  }

  lemma ExecutingVisit(config: Config, p: Pass, turn: Turn) returns (s: Session, arguments: Arguments)
    requires p.ending == None && ExecutesMore(p, Advance(config, p, turn))
    ensures var p' := Advance(config, p, turn);
      && Prepared(p, s) && p'.ending == None && |p'.executed| == |p.executed| + 1
      && p'.session == Execute(config, s, turn.callId, p'.executed[|p.executed|].tool, arguments, turn.report, turn.at)
  {
    hide Execute, Rebuilt, SelectObservation, MustStop;
    var (before, pre) := BeforeSelector(config, p.session, turn.currentSource);
    s := before;
    if pre.RepeatExactly? {
      arguments := pre.directive.arguments;
    } else {
      var counted := before.(budget := before.budget.(
        caseTurns := before.budget.caseTurns + 1, runTurns := before.budget.runTurns + 1));
      ChosenToolKeepsSession(config, counted, turn.candidate);
      var (chosen, choice) := SelectObservation(config, counted, turn.candidate);
      s, arguments := chosen, choice.observation.arguments;
    }
  }

  lemma ChosenToolKeepsSession(config: Config, s: Session, candidate: Option<RawCandidate>)
    ensures var (s', choice) := SelectObservation(config, s, candidate);
      choice.RunTool? ==> s' == s.(priorFingerprints := s'.priorFingerprints)
  {
    hide Validate, ContextOf;
  }

  /** The record of an execution names its own tool and carries an answer exactly when the source gave one. */
  lemma ExecuteIsResult(config: Config, s: Session, callId: string, tool: ToolName, arguments: Arguments,
      offered: Report, at: int) returns (counted: Session, record: ToolCall, report: Report, refs: seq<EvidenceRef>)
    ensures Execute(config, s, callId, tool, arguments, offered, at)
        == OnToolResult(config, counted, record, report, refs)
    ensures counted == s.(budget := counted.budget, attempts := counted.attempts)
    ensures record.tool == tool && report.facts == offered.facts
    ensures report.result.Answered?
        <==> offered.result.Answered? && (offered.actual ==> s.budget.readCount < MAX_READS)
  {
    hide OnToolResult;
    report := Govern(offered, s.budget.readCount);
    var attempt := AttemptsIn(s.attempts, tool) + 1;
    counted := s.(
      budget := if report.actual then s.budget.(readCount := s.budget.readCount + 1) else s.budget,
      attempts := s.attempts[tool := attempt]);
    record, refs := RecordOf(callId, tool, arguments, attempt, report, at), RefsFrom(callId, report.result);
  }

  lemma RebuiltIsOfScope(scope: Scope, calls: seq<ToolCall>)
    ensures var s := Rebuilt(scope, calls);
      s.caseId == scope.caseId && s.runId == scope.runId && s.issue == scope.issue
  {
  }

  /** Why the pass is to stop after a result, apart from the reason it had before. */
  predicate HasCause(config: Config, s: Session) {
    || Hopeless(s)
    || (config.enforceEarlyStop && s.earlyStop.Some?)
    || (config.enforceEarlyStop && s.progress.readiness == Evaluable && !NeedsCarrierContext(config, s))
  }

  /** Absorbing a result, and the counter after it. */
  lemma ResultIsCounted(config: Config, s: Session, record: ToolCall, report: Report, refs: seq<EvidenceRef>)
    ensures var s' := OnToolResult(config, s, record, report, refs);
      && s'.unchangedTurns == (if s.selectorInput == s'.progress then s.unchangedTurns + 1 else 0)
      && s'.earlyStop == EarlyStopAfter(config.trusted.issue, s.earlyStop, record.tool, report)
      && s'.carrierOverdue == (if record.tool in {GetLogisticsTimeline, SearchAfterSalesPolicy}
                               then report.facts.carrierOverdue else s.carrierOverdue)
      && s'.issueRevisionTerminal == (s.issueRevisionTerminal
           || (report.result.Answered? && record.tool == GetOrderContext && report.facts.orderContradictsIssue))
  {
    hide Rebuilt, RouteAfter, AdjustedRoute, ReasonAfter, PendingAfter, EarlyStopAfter;
  }

  /** With no retry due after a result, a reason to stop is there exactly for a cause, or from before. */
  lemma ResultLeavesReason(config: Config, s: Session, record: ToolCall, report: Report, refs: seq<EvidenceRef>)
    requires config.enforceExactRetry && OnToolResult(config, s, record, report, refs).pending == None
    ensures var s' := OnToolResult(config, s, record, report, refs);
      && (Hopeless(s') ==> s'.terminalReason.Some?)
      && (s.terminalReason.Some? ==> s'.terminalReason.Some?)
      && (s'.terminalReason.Some? ==> s.terminalReason.Some? || HasCause(config, s'))
      && (!(config.enforceEarlyStop && s'.earlyStop.Some?) ==>
            && (s'.progress.terminal != [] ==> s'.terminalReason == Some(IntegrityConflict))
            && (s'.progress.terminal == [] && Spent(s'.budget) ==> s'.terminalReason == Some(BudgetExhausted))
            && (s'.progress.terminal == [] && !Spent(s'.budget) && Stuck(s') ==>
                  s'.terminalReason == Some(StuckNoEvidenceProgress)))
  {
    hide Rebuilt, PendingAfter, EarlyStopAfter;
    RebuiltIsOfScope(ScopeOf(config, s.refs, s.pending), s.records);
    var s' := OnToolResult(config, s, record, report, refs);
    RebuiltIsOfScope(ScopeOf(config, s'.refs, s'.pending), s'.records);
  }

  /** What a visit that executed leaves of counter, signals and reason, told from the visit alone. */
  lemma VisitIsCounted(config: Config, p: Pass, turn: Turn)
    requires p.ending == None && ExecutesMore(p, Advance(config, p, turn))
    ensures var p' := Advance(config, p, turn);
      var tool := p'.executed[|p.executed|].tool;
      && p'.ending == None && p'.planningTurns <= p.planningTurns + 1
      && p'.session.unchangedTurns
          == (if p'.session.progress == p.session.progress then p.session.unchangedTurns + 1 else 0)
      && (forall stop :: p'.session.earlyStop == Some(stop) <==>
            if WasAnswered(p, turn) && exists other :: Signals(config.trusted.issue, tool, turn.report.facts, other)
            then Signals(config.trusted.issue, tool, turn.report.facts, stop)
            else p.session.earlyStop == Some(stop))
      && (p'.session.issueRevisionTerminal <==>
            || p.session.issueRevisionTerminal
            || (WasAnswered(p, turn) && Signals(config.trusted.issue, tool, turn.report.facts, IssueRevisionReady)))
      && p'.session.carrierOverdue == (if tool == GetLogisticsTimeline || tool == SearchAfterSalesPolicy
                                       then turn.report.facts.carrierOverdue else p.session.carrierOverdue)
  {
    hide Advance, Execute, OnToolResult, Rebuilt;
    var p' := Advance(config, p, turn);
    var s, arguments := ExecutingVisit(config, p, turn);
    var tool := p'.executed[|p.executed|].tool;
    var counted, record, report, refs := ExecuteIsResult(config, s, turn.callId, tool, arguments, turn.report, turn.at);
    ResultIsCounted(config, counted, record, report, refs);
    SignalTaken(config.trusted.issue, s.earlyStop, tool, report);
    PlanningGrowsByOne(config, p, turn);
  }

  lemma PlanningGrowsByOne(config: Config, p: Pass, turn: Turn)
    ensures Advance(config, p, turn).planningTurns <= p.planningTurns + 1
  {
    hide Execute, SelectObservation, BeforeSelector;
  }

  lemma SignalTaken(issue: Issue, current: Option<EarlyStop>, tool: ToolName, report: Report)
    ensures forall stop :: EarlyStopAfter(issue, current, tool, report) == Some(stop) <==>
      if report.result.Answered? && exists other :: Signals(issue, tool, report.facts, other)
      then Signals(issue, tool, report.facts, stop)
      else current == Some(stop)
  {
    if tool == GetOrderContext && report.facts.orderContradictsIssue {
      assert Signals(issue, tool, report.facts, IssueRevisionReady);
    } else if tool == GetExistingLogisticsTickets && report.facts.ticketFound {
      assert Signals(issue, tool, report.facts, ActiveTicketExists);
    } else if tool == SearchAfterSalesPolicy && issue == StalledTracking && report.facts.withinSla {
      assert Signals(issue, tool, report.facts, WithinTrackingSla);
    }
  }

  lemma VisitLeavesReason(config: Config, p: Pass, turn: Turn)
    requires config.enforceExactRetry && p.ending == None && ExecutesMore(p, Advance(config, p, turn))
    requires Advance(config, p, turn).session.pending == None
    ensures var s' := Advance(config, p, turn).session;
      && (Hopeless(s') ==> s'.terminalReason.Some?)
      && (p.session.terminalReason.Some? ==> s'.terminalReason.Some?)
      && (s'.terminalReason.Some? ==> p.session.terminalReason.Some? || HasCause(config, s'))
      && (!(config.enforceEarlyStop && s'.earlyStop.Some?) ==>
            && (s'.progress.terminal != [] ==> s'.terminalReason == Some(IntegrityConflict))
            && (s'.progress.terminal == [] && Spent(s'.budget) ==> s'.terminalReason == Some(BudgetExhausted))
            && (s'.progress.terminal == [] && !Spent(s'.budget) && Stuck(s') ==>
                  s'.terminalReason == Some(StuckNoEvidenceProgress)))
  {
    hide Advance, Execute, OnToolResult, Rebuilt, HasCause, Hopeless;
    var p' := Advance(config, p, turn);
    var s, arguments := ExecutingVisit(config, p, turn);
    var counted, record, report, refs := ExecuteIsResult(
      config, s, turn.callId, p'.executed[|p.executed|].tool, arguments, turn.report, turn.at);
    ResultLeavesReason(config, counted, record, report, refs);
  }

  /** With no retry due, a visit stops exactly for a reason, a signal, evaluable evidence or a set number of reads. */
  lemma StopsExactly(config: Config, p: Pass, turn: Turn)
    requires p.ending == None && p.session.pending == None
    ensures Advance(config, p, turn).ending == Some(StoppedBySession) <==> StopsHere(config, p, turn)
    ensures StopsHere(config, p, turn) <==> MustStop(config, p.session)
  {
    hide Execute, SelectObservation, MustStop;
    var s := p.session.(selectorInput := p.session.progress);
    assert MustStop(config, s) == MustStop(config, p.session) by { MustStopIgnoresInput(config, p.session, s); }
    assert BeforeSelector(config, p.session, turn.currentSource) == (s, if MustStop(config, s) then Stop else Proceed);
    if !MustStop(config, s) {
      assert Advance(config, p, turn) == SelectorTurn(config, p.(session := s), turn);
      SelectorTurnIsNoStop(config, p.(session := s), turn);
    }
  }

  lemma MustStopIgnoresInput(config: Config, s: Session, s': Session)
    requires s' == s.(selectorInput := s'.selectorInput)
    ensures MustStop(config, s) == MustStop(config, s')
  {
  }

  lemma SelectorTurnIsNoStop(config: Config, p: Pass, turn: Turn)
    requires p.ending == None
    ensures SelectorTurn(config, p, turn).ending != Some(StoppedBySession)
  {
    hide Execute, SelectObservation;
  }

  // ---------- The theorems ----------

  /**
   A result that leaves nothing to hope for ends the pass. After a visit that executed a tool and left
   no retry due, if the snapshot has a terminal code, or a planning or read budget is spent, or progress
   stayed as it was for a second turn, the next visit ends the pass: no execution, no selector turn, no
   charge. With an early stop on, so does a signal or evaluable evidence that needs no further context.
   */
  lemma HopelessPassStops(config: Config, p: Pass, turn: Turn, next: Turn)
    requires config.enforceExactRetry && p.ending == None && ExecutesMore(p, Advance(config, p, turn))
    requires var s := Advance(config, p, turn).session; s.pending == None && HasCause(config, s)
    ensures StopsHere(config, Advance(config, p, turn), next)
  {
    hide Advance, StopsHere;
    VisitIsCounted(config, p, turn);
    VisitLeavesReason(config, p, turn);
    StopsExactly(config, Advance(config, p, turn), next);
  }

  /** And nothing else ends it there: the next visit stops exactly for these causes or at a set number of reads. */
  lemma NextVisitStopsExactly(config: Config, p: Pass, turn: Turn, next: Turn)
    requires config.enforceExactRetry
    requires p.ending == None && p.session.terminalReason == None && ExecutesMore(p, Advance(config, p, turn))
    requires Advance(config, p, turn).session.pending == None
    ensures var p' := Advance(config, p, turn);
      Advance(config, p', next).ending == Some(StoppedBySession) <==>
        || p'.session.progress.terminal != [] || Spent(p'.session.budget) || p'.session.unchangedTurns >= 2
        || (config.stopAfter.Some? && ActualExecutions(p'.session.records) >= config.stopAfter.value)
        || (config.enforceEarlyStop
            && (p'.session.earlyStop.Some?
                || (p'.session.progress.readiness == Evaluable && !NeedsCarrierContext(config, p'.session))))
  {
    hide Advance, StopsHere;
    VisitIsCounted(config, p, turn);
    VisitLeavesReason(config, p, turn);
    StopsExactly(config, Advance(config, p, turn), next);
  }

  /** The reason recorded: integrity before a spent budget before lack of progress, unless a signal has ended it. */
  lemma ReasonIsTheFirstCause(config: Config, p: Pass, turn: Turn, next: Turn)
    requires config.enforceExactRetry && p.ending == None && ExecutesMore(p, Advance(config, p, turn))
    requires var s := Advance(config, p, turn).session;
      s.pending == None && !(config.enforceEarlyStop && s.earlyStop.Some?)
    ensures var p' := Advance(config, p, turn);
      var reason := Advance(config, p', next).session.terminalReason;
      && (p'.session.progress.terminal != [] ==> reason == Some(IntegrityConflict))
      && (p'.session.progress.terminal == [] && Spent(p'.session.budget) ==> reason == Some(BudgetExhausted))
      && (p'.session.progress.terminal == [] && !Spent(p'.session.budget) && Stuck(p'.session) ==>
            reason == Some(StuckNoEvidenceProgress))
  {
    hide Advance, StopsHere;
    VisitIsCounted(config, p, turn);
    VisitLeavesReason(config, p, turn);
    var p' := Advance(config, p, turn);
    if Hopeless(p'.session) {
      StoppingKeepsReason(config, p', next);
    }
  }

  lemma StoppingKeepsReason(config: Config, p: Pass, turn: Turn)
    requires p.ending == None && p.session.pending == None && MustStop(config, p.session)
    ensures Advance(config, p, turn).session.terminalReason == p.session.terminalReason
  {
  }

  /**
   With an early stop on, an answered order record against the issue, an answered ticket read that finds
   one, or an answered policy read within the tracking time ends the pass at the next visit, and the
   session names that signal.
   */
  lemma SignalEndsThePass(config: Config, p: Pass, turn: Turn, next: Turn, stop: EarlyStop)
    requires config.enforceExactRetry && config.enforceEarlyStop
    requires p.ending == None && ExecutesMore(p, Advance(config, p, turn)) && WasAnswered(p, turn)
    requires var tool := Advance(config, p, turn).executed[|p.executed|].tool;
      Signals(config.trusted.issue, tool, turn.report.facts, stop)
    ensures Advance(config, p, turn).session.earlyStop == Some(stop)
    ensures StopsHere(config, Advance(config, p, turn), next)
  {
    hide Advance, StopsHere;
    VisitIsCounted(config, p, turn);
    AnswerLeavesNothingDue(config, p, turn);
    HopelessPassStops(config, p, turn, next);
  }

  lemma AnswerLeavesNothingDue(config: Config, p: Pass, turn: Turn)
    requires p.ending == None && ExecutesMore(p, Advance(config, p, turn)) && WasAnswered(p, turn)
    ensures Advance(config, p, turn).session.pending == None
  {
    hide Advance, Execute, OnToolResult, Rebuilt;
    var p' := Advance(config, p, turn);
    var s, arguments := ExecutingVisit(config, p, turn);
    var counted, record, report, refs := ExecuteIsResult(
      config, s, turn.callId, p'.executed[|p.executed|].tool, arguments, turn.report, turn.at);
    OnToolResultShape(config, counted, record, report, refs);
  }

  /** Over a whole pass: once a visit leaves a cause and no retry due, the next is the last and nothing more runs. */
  lemma NothingFollowsACause(config: Config, start: Session, turns: seq<Turn>, i: nat)
    requires config.enforceExactRetry && i + 1 < |turns|
    requires var p, p' := Run(config, NewPass(start), turns[..i]), Run(config, NewPass(start), turns[..i + 1]);
      p.ending == None && ExecutesMore(p, p') && p'.session.pending == None && HasCause(config, p'.session)
    ensures var p', last := Run(config, NewPass(start), turns[..i + 1]), Run(config, NewPass(start), turns);
      && last.ending == Some(StoppedBySession)
      && last.executed == p'.executed && last.session.records == p'.session.records
      && last.selectorTurns == p'.selectorTurns && last.session.budget == p'.session.budget
  {
    hide Advance, Run, HasCause;
    VisitOf(config, NewPass(start), turns, i);
    VisitOf(config, NewPass(start), turns, i + 1);
    HopelessPassStops(config, Run(config, NewPass(start), turns[..i]), turns[i], turns[i + 1]);
    EndedPassStays(config, NewPass(start), turns, i + 2);
  }

  // ---------- A retry that is due ----------

  /**
   What a visit makes of a due retry. If its source shows another revision, the visit ends the pass for
   that reason and the retry is dropped; otherwise, while a read is left, it executes the retry itself
   and nothing else; and once the reads are spent it executes nothing.
   */
  lemma DueRetryIsSettled(config: Config, p: Pass, turn: Turn)
    requires config.enforceExactRetry && p.ending == None && p.session.pending.Some?
    requires p.planningTurns < MAX_RUN_TURNS
    ensures var d, p' := p.session.pending.value, Advance(config, p, turn);
      && (turn.currentSource(d.tool) != d.sourceVersion <==> StopsHere(config, p, turn) && p'.session.pending == None)
      && (turn.currentSource(d.tool) != d.sourceVersion ==>
            p'.session.terminalReason == Some(SourceRevisionChangedDuringRetry))
      && (ExecutesMore(p, p') <==>
            turn.currentSource(d.tool) == d.sourceVersion && p.session.budget.readCount < 6)
      && (ExecutesMore(p, p') ==>
            && p'.selectorTurns == p.selectorTurns && |p'.executed| == |p.executed| + 1
            && p'.executed[|p.executed|].isRetry && p'.executed[|p.executed|].tool == d.tool
            && p'.executed[|p.executed|].arguments == d.arguments)
  {
    hide Execute, SelectObservation, MustStop;
    var (s, pre) := BeforeSelector(config, p.session, turn.currentSource);
    if pre == Proceed {
      LockedTurn(config, p.(session := s), turn);
    }
  }

  lemma LockedTurn(config: Config, p: Pass, turn: Turn)
    requires config.enforceExactRetry && p.ending == None && p.session.pending.Some?
    ensures var p' := SelectorTurn(config, p, turn);
      p'.executed == p.executed && p'.ending != Some(StoppedBySession)
  {
    hide Execute, SelectObservation;
    var budget := p.session.budget;
    LockedSelection(config, p.session.(budget :=
      budget.(caseTurns := budget.caseTurns + 1, runTurns := budget.runTurns + 1)), turn.candidate);
  }

  // ---------- Standing still ----------

  /** A visit that does not end the pass, whether it executed a call or drew a correction, is counted. */
  lemma EveryVisitIsCounted(config: Config, p: Pass, turn: Turn)
    requires config.enforceExactRetry && p.ending == None && Advance(config, p, turn).ending == None
    ensures var s' := Advance(config, p, turn).session;
      && s'.unchangedTurns == (if s'.progress == p.session.progress then p.session.unchangedTurns + 1 else 0)
      && (s'.pending == None && s'.unchangedTurns >= 2 ==> s'.terminalReason.Some?)
  {
    hide Execute, SelectObservation, MustStop, Rebuilt;
    var p' := Advance(config, p, turn);
    if ExecutesMore(p, p') {
      VisitIsCounted(config, p, turn);
      if p'.session.pending == None {
        VisitLeavesReason(config, p, turn);
      }
    } else {
      var (s, pre) := BeforeSelector(config, p.session, turn.currentSource);
      var counted := s.(budget := s.budget.(caseTurns := s.budget.caseTurns + 1, runTurns := s.budget.runTurns + 1));
      CorrectionIsCounted(config, counted, turn.candidate);
    }
  }

  lemma CorrectionIsCounted(config: Config, s: Session, candidate: Option<RawCandidate>)
    requires s.selectorInput == s.progress
    ensures var (s', choice) := SelectObservation(config, s, candidate);
      choice == Correct ==>
        && s'.unchangedTurns == s.unchangedTurns + 1 && s'.progress == s.progress
        && (s'.unchangedTurns >= 2 ==> s'.terminalReason.Some?)
  {
    hide Validate, ContextOf;
  }

  /** Two visits in a row that leave the snapshot as it was, by a call or by a correction, end the pass. */
  lemma TwoIdleVisitsStop(config: Config, p: Pass, first: Turn, second: Turn, next: Turn)
    requires config.enforceExactRetry && p.ending == None
    requires var p1 := Advance(config, p, first);
      var p2 := Advance(config, p1, second);
      && p1.ending == None && p2.ending == None && p2.session.pending == None
      && p1.session.progress == p.session.progress && p2.session.progress == p.session.progress
    ensures StopsHere(config, Advance(config, Advance(config, p, first), second), next)
  {
    hide Advance, StopsHere;
    var p1 := Advance(config, p, first);
    EveryVisitIsCounted(config, p, first);
    EveryVisitIsCounted(config, p1, second);
    StopsExactly(config, Advance(config, p1, second), next);
  }
}
