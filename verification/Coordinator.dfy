/**
 The investigation pass as the program runs it: a guard object, a coordinator whose callbacks update
 its fields in place, and the graph loop. Each method is proved against its function in Investigation.
 */
module Coordinator {
  import opened Options
  import opened EvidenceProgress
  import opened ObservationPolicy
  import opened Investigation
  import opened InvestigationBounds

  class GuardController {
    var unchangedTurns: nat
    var corrected: bool

    constructor ()
      ensures unchangedTurns == 0 && !corrected
    {
      unchangedTurns, corrected := 0, false;
    }

    /** Reports a stuck selector at the second turn in a row that leaves progress as it was. */
    method ObserveSelectorTurn(before: Snapshot, after: Snapshot) returns (stuck: bool)
      modifies this`unchangedTurns
      ensures unchangedTurns == if before == after then old(unchangedTurns) + 1 else 0
      ensures stuck <==> before == after && old(unchangedTurns) >= 1
    {
      unchangedTurns := if before == after then unchangedTurns + 1 else 0;
      stuck := unchangedTurns >= 2;
    }

    /** Grants one correction for the life of the guard. */
    method AllowCorrection() returns (granted: bool)
      modifies this`corrected
      ensures granted == !old(corrected) && corrected
    {
      granted := !corrected;
      corrected := true;
    }
  }

  class TraceCoordinator {
    const config: Config
    const guard: GuardController
    var records: seq<ToolCall>
    var refs: seq<EvidenceRef>
    var progress: Snapshot
    var pending: Option<RetryDirective>
    var priorFingerprints: seq<Fingerprint>
    var terminalReason: Option<RouteReason>
    var earlyStop: Option<EarlyStop>
    var issueRevisionTerminal: bool
    var carrierOverdue: bool
    var selectorInput: Snapshot
    var budget: Budget
    var attempts: map<ToolName, int>

    ghost function State(): Session
      reads this, guard
    {
      Session(records, refs, progress, pending, priorFingerprints, terminalReason, earlyStop, issueRevisionTerminal,
              carrierOverdue, guard.unchangedTurns, guard.corrected, selectorInput, budget, attempts)
    }

    /** Restores the run from its persisted rows. */
    constructor (config: Config, records: seq<ToolCall>, refs: seq<EvidenceRef>, budget: Budget)
      ensures this.config == config && fresh(guard)
      ensures State() == Start(config, records, refs, budget)
    {
      hide Rebuilt;
      var restored := Rebuild(ScopeOf(config, refs, None), records);
      var due: Option<RetryDirective> := None;
      if records != [] {
        var last := records[|records| - 1];
        if last.actual && last.attempt == 1 && last.execution == Some(RetryableError)
            && last.availability == Some(Unavailable)
           && last.sourceVersion.Some? && last.arguments.Some? {
          due := IssueExactRetry(last.callId, last.tool, last.arguments.value, last.sourceVersion.value,
              RetryableError, Unavailable, true, 1, restored);
        }
      }
      if due.Some? {
        restored := Rebuild(ScopeOf(config, refs, due), records);
      }
      var counts: map<ToolName, int> := map[];
      for i := 0 to |records|
        invariant counts == AttemptsOf(records[..i])
      {
        assert records[..i + 1][..i] == records[..i];
        var tool := records[i].tool;
        var seen := AttemptsIn(counts, tool);
        counts := counts[tool := if seen < records[i].attempt then records[i].attempt else seen];
      }
      assert records[..|records|] == records;
      this.config, this.records, this.refs, this.budget := config, records, refs, budget;
      progress, selectorInput, pending, attempts := restored, restored, due, counts;
      priorFingerprints, terminalReason, earlyStop := [], None, None;
      issueRevisionTerminal, carrierOverdue := false, false;
      guard := new GuardController();
    }

    /** The overdue stalled branch still lacks its optional carrier context. */
    predicate CarrierContextNeeded()
      reads this, guard
      ensures CarrierContextNeeded() == NeedsCarrierContext(config, State())
    {
      && config.businessDemo && config.trusted.issue == StalledTracking
      && progress.requirements.Get(CarrierAlertContext).status == Missing
      && carrierOverdue
    }

    /** What the agent node does before any selector turn: repeat an outstanding retry, stop, or go on. */
    method BeforeSelector(currentSource: ToolName -> string) returns (pre: Pre)
      modifies this`selectorInput, this`pending, this`terminalReason
      ensures (State(), pre) == Investigation.BeforeSelector(config, old(State()), currentSource)
    {
      selectorInput := progress;
      if pending.Some? {
        var directive := pending.value;
        if currentSource(directive.tool) != directive.sourceVersion {
          pending := None;
          terminalReason := Some(SourceRevisionChangedDuringRetry);
        } else if budget.readCount < MAX_READS {
          return RepeatExactly(directive);
        }
      }
      var executions := 0;
      for i := |records| downto 0
        invariant executions == ActualExecutions(records[i..])
      {
        executions := executions + if records[i].actual then 1 else 0;
      }
      assert records[0..] == records;
      if config.stopAfter.Some? && executions >= config.stopAfter.value {
        return Stop;
      }
      if terminalReason.Some? || (config.enforceEarlyStop && earlyStop.Some?) {
        return Stop;
      }
      if config.enforceEarlyStop && progress.readiness == Evaluable && !CarrierContextNeeded() {
        return Stop;
      }
      return Proceed;
    }

    /** The sole boundary between the selector's candidate and a tool call. */
    method SelectObservation(candidate: Option<RawCandidate>) returns (choice: Choice)
      modifies this`priorFingerprints, this`terminalReason, guard
      ensures (State(), choice) == Investigation.SelectObservation(config, old(State()), candidate)
    {
      hide Validate, WellShaped, Correctable;
      if |priorFingerprints| > MAX_FINGERPRINTS {
        return Crash;
      }
      var namesTool := candidate.Some? && WellShaped(candidate.value) && candidate.value.tool.Some?;
      var context := DecisionContext(config.trusted.caseId, config.trusted.runId, config.trusted.issue,
          config.trusted.orderId,
                                     progress, budget, priorFingerprints);
      var verdict := Validate(candidate, context, config.trusted, if config.enforceExactRetry then pending else None,
                              if !namesTool && issueRevisionTerminal then Some(true) else None);
      match verdict
      case Accepted(observation) =>
        priorFingerprints := priorFingerprints + [observation.fingerprint];
        return if observation.action == Finish then Choice.Finished else Choice.RunTool(observation);
      case Rejected(code) =>
        var stuck := guard.ObserveSelectorTurn(selectorInput, progress);
        if stuck {
          terminalReason := Some(StuckNoEvidenceProgress);
        }
        if Correctable(code) {
          var granted := guard.AllowCorrection();
          if granted {
            return Correct;
          }
        }
        return Refuse;
    }

    /** Takes in one result: history, retry lock, rebuilt progress, early stops and the route. */
    method OnToolResult(record: ToolCall, report: Report, newRefs: seq<EvidenceRef>)
      modifies this`records, this`refs, this`pending, this`progress, this`earlyStop, this`issueRevisionTerminal,
               this`carrierOverdue, this`terminalReason, guard`unchangedTurns
      ensures State() == Investigation.OnToolResult(config, old(State()), record, report, newRefs)
    {
      hide Rebuilt, Routed, Absorbed;
      var before := Rebuild(ScopeOf(config, refs, pending), records);
      Absorb(record, report, newRefs);
      var stuck := guard.ObserveSelectorTurn(selectorInput, progress);
      if stuck {
        terminalReason := Some(StuckNoEvidenceProgress);
      }
      Reroute(before, record, report);
    }

    /** Opens, keeps or releases the retry lock for a result. */
    method TakeRetryLock(record: ToolCall, report: Report)
      modifies this`pending
      ensures pending == PendingAfter(config, old(State()), record, report)
    {
      var transient := report.result.Failed? && report.result.retryable;
      if config.enforceExactRetry && transient && record.attempt == 1 {
        pending := IssueExactRetry(record.callId, record.tool, record.arguments.GetOr(map[]), report.sourceVersion,
                                   RetryableError, Unavailable, true, record.attempt, progress);
      } else if pending.Some? && record.attempt >= NEXT_ATTEMPT {
        pending := None;
      } else if !transient {
        pending := None;
      }
    }

    method Absorb(record: ToolCall, report: Report, newRefs: seq<EvidenceRef>)
      modifies this`records, this`refs, this`pending, this`progress, this`earlyStop, this`issueRevisionTerminal,
          this`carrierOverdue
      ensures State() == Absorbed(config, old(State()), record, report, newRefs)
    {
      hide Rebuilt, EarlyStopAfter, PendingAfter;
      TakeRetryLock(record, report);
      records, refs := records + [record], refs + newRefs;
      progress := Rebuild(ScopeOf(config, refs, pending), records);
      TakeSignals(record.tool, report);
    }

    /** The deterministic branches that an answered result may open. */
    method TakeSignals(tool: ToolName, report: Report)
      modifies this`earlyStop, this`issueRevisionTerminal, this`carrierOverdue
      ensures earlyStop == EarlyStopAfter(config.trusted.issue, old(earlyStop), tool, report)
      ensures issueRevisionTerminal == (old(issueRevisionTerminal)
        || (report.result.Answered? && tool == GetOrderContext && report.facts.orderContradictsIssue))
      ensures carrierOverdue == if tool in {GetLogisticsTimeline, SearchAfterSalesPolicy} then
          report.facts.carrierOverdue
                                else old(carrierOverdue)
    {
      if tool == GetLogisticsTimeline || tool == SearchAfterSalesPolicy {
        carrierOverdue := report.facts.carrierOverdue;
      }
      if !report.result.Answered? {
        return;
      }
      if tool == GetOrderContext && report.facts.orderContradictsIssue {
        issueRevisionTerminal := true;
        earlyStop := Some(IssueRevisionReady);
      }
      if tool == GetExistingLogisticsTickets && report.facts.ticketFound {
        earlyStop := Some(ActiveTicketExists);
      }
      if tool == SearchAfterSalesPolicy && config.trusted.issue == StalledTracking && report.facts.withinSla {
        earlyStop := Some(WithinTrackingSla);
      }
    }

    /** Routes the pass and turns the decision into the reason the next agent node stops for. */
    method Reroute(before: Snapshot, record: ToolCall, report: Report)
      modifies this`terminalReason
      ensures State() == Routed(config, before, old(State()), record, report)
    {
      hide RouteAfter;
      var trigger := Trigger(record.callId, record.tool, record.arguments.GetOr(map[]), record.attempt,
                             ExecutionOf(report.result), AvailabilityOf(report.result),
                           report.result.Failed? && report.result.retryable);
      var taken := RouteAfter(config.trusted.caseId, config.trusted.runId, before, progress, budget, Some(trigger),
                              pending, Some(report.sourceVersion), guard.unchangedTurns);
      if config.enforceEarlyStop && earlyStop.Some? {
        taken := Recovery(Finalize, GateReady, None);
      } else if CarrierContextNeeded() && taken.route == Finalize {
        taken := Recovery(Replan, ReplanRequired, None);
      }
      if taken.route == SafeStop && (taken.reason != BudgetExhausted || config.enforceExactRetry) {
        terminalReason := Some(taken.reason);
      } else if taken.route == Finalize && config.enforceEarlyStop {
        terminalReason := Some(taken.reason);
      }
    }

    /** The governed, counted execution of one read. */
    method Execute(callId: string, tool: ToolName, arguments: Arguments, offered: Report, at: int)
      modifies this, guard`unchangedTurns
      ensures State() == Investigation.Execute(config, old(State()), callId, tool, arguments, offered, at)
    {
      hide Investigation.OnToolResult, Govern, RefsFrom;
      var report := Govern(offered, budget.readCount);
      if report.actual {
        budget := budget.(readCount := budget.readCount + 1);
      }
      var attempt := AttemptsIn(attempts, tool) + 1;
      attempts := attempts[tool := attempt];
      OnToolResult(RecordOf(callId, tool, arguments, attempt, report, at), report, RefsFrom(callId, report.result));
    }
  }

  /** The graph's own state, driving a coordinator through its callbacks. */
  class InvestigationGraph {
    const coordinator: TraceCoordinator
    var planningTurns: nat
    var selectorTurns: nat
    var executed: seq<Executed>
    var ending: Option<Ending>

    ghost function State(): Pass
      reads this, coordinator, coordinator.guard
    {
      Pass(coordinator.State(), planningTurns, selectorTurns, executed, ending)
    }

    constructor (coordinator: TraceCoordinator)
      ensures this.coordinator == coordinator && State() == NewPass(coordinator.State())
    {
      this.coordinator := coordinator;
      planningTurns, selectorTurns, executed, ending := 0, 0, [], None;
    }

    /** The tools node, behind the edge that bounds planning turns. */
    method RunTool(tool: ToolName, arguments: Arguments, isRetry: bool, turn: Turn)
      modifies this`executed, this`ending, coordinator, coordinator.guard
      ensures State() == RunInGraph(coordinator.config, old(State()), tool, arguments, isRetry, turn)
    {
      hide Investigation.Execute;
      if planningTurns >= MAX_RUN_TURNS {
        ending := Some(GraphTurnLimit);
        return;
      }
      executed := executed + [Executed(tool, arguments, AttemptsIn(coordinator.attempts, tool) + 1, isRetry)];
      coordinator.Execute(turn.callId, tool, arguments, turn.report, turn.at);
    }

    method TakeSelectorTurn(turn: Turn)
      modifies this, coordinator, coordinator.guard
      ensures State() == SelectorTurn(coordinator.config, old(State()), turn)
    {
      hide Investigation.Act, Investigation.SelectObservation;
      var budget := coordinator.budget;
      if budget.caseTurns >= MAX_CASE_TURNS || budget.runTurns >= MAX_RUN_TURNS {
        ending := Some(PlanningBudgetSpent);
        return;
      }
      coordinator.budget := budget.(caseTurns := budget.caseTurns + 1, runTurns := budget.runTurns + 1);
      var choice := coordinator.SelectObservation(turn.candidate);
      selectorTurns := selectorTurns + 1;
      Act(choice, turn);
    }

    method Act(choice: Choice, turn: Turn)
      modifies this, coordinator, coordinator.guard
      ensures State() == Investigation.Act(coordinator.config, old(State()), choice, turn)
    {
      hide RunInGraph;
      if choice == Crash {
        ending := Some(ContextOverflow);
        return;
      }
      planningTurns := planningTurns + 1;
      match choice
      case Refuse => ending := Some(SelectorRefused);
      case Finished => ending := Some(SelectorFinished);
      case RunTool(observation) =>
        RunTool(observation.tool.GetOr(UnregisteredTool("")), observation.arguments, false, turn);
      case _ =>
    }

    /** One visit of the agent node and, when it leads there, of the tools node. */
    method Visit(turn: Turn)
      requires ending == None
      modifies this, coordinator, coordinator.guard
      ensures State() == Advance(coordinator.config, old(State()), turn)
    {
      hide Investigation.BeforeSelector, SelectorTurn, RunInGraph;
      var pre := coordinator.BeforeSelector(turn.currentSource);
      match pre
      case Stop => ending := Some(StoppedBySession);
      case RepeatExactly(directive) => RunTool(directive.tool, directive.arguments, true, turn);
      case Proceed => TakeSelectorTurn(turn);
    }

    /** The graph loop: visits the agent node until the pass ends or the outside has nothing more to offer. */
    method Investigate(turns: seq<Turn>)
      requires ending == None
      modifies this, coordinator, coordinator.guard
      ensures State() == Run(coordinator.config, old(State()), turns)
    {
      hide Advance;
      var i := 0;
      while i < |turns| && ending == None
        invariant 0 <= i <= |turns|
        invariant State() == Run(coordinator.config, old(State()), turns[..i])
      {
        assert turns[..i + 1][..i] == turns[..i];
        Visit(turns[i]);
        i := i + 1;
      }
      if ending.Some? {
        EndedPassStays(coordinator.config, old(State()), turns, i);
      } else {
        assert turns[..i] == turns;
      }
    }
  }

  lemma {:induction false} EndedPassStays(config: Config, p: Pass, turns: seq<Turn>, i: nat)
    requires i <= |turns| && Run(config, p, turns[..i]).ending.Some?
    ensures Run(config, p, turns) == Run(config, p, turns[..i])
    decreases |turns|
  {
    if i == |turns| {
      assert turns[..i] == turns;
    } else {
      var n := |turns| - 1;
      assert turns[..n][..i] == turns[..i];
      EndedPassStays(config, p, turns[..n], i);
    }
  }
}
