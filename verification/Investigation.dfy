/**
 One bounded investigation pass: the coordinator's callbacks, the tool executor's attempt counting
 and the graph loop that drives them, as functions on the pass's state.

 Everything outside the deterministic shell is an input of the pass, chosen freely at each graph
 node: what the selector proposes, what the source returns, and the source revision it sees.
 */
module Investigation {
  import opened Options
  import opened EvidenceProgress
  import opened EvidenceProperties
  import opened ObservationPolicy

  datatype Config = Config(
    trusted: Trusted,
    enforceEarlyStop: bool,
    enforceExactRetry: bool,
    stopAfter: Option<nat>,
    businessDemo: bool)

  datatype EarlyStop = IssueRevisionReady | ActiveTicketExists | WithinTrackingSla

  /** A normalized query result: an answer always names its source, an error never poses as absence. */
  datatype ToolResult =
    | Answered(present: bool, resultHash: string, queryId: string, recordIds: seq<string>)
    | Failed(retryable: bool, resultHash: string)

  /** Payload facts the coordinator looks at; they matter only for an answered call. */
  datatype PayloadFacts = PayloadFacts(orderContradictsIssue: bool, ticketFound: bool, withinSla: bool,
      carrierOverdue: bool)

  datatype AnyReport = ToolReport(result: ToolResult, actual: bool, sourceVersion: string, facts: PayloadFacts)

  /** The governed executor: a transient error is never served from cache nor invented by a refusal. */
  predicate Governed(report: AnyReport) {
    report.result.Failed? && report.result.retryable ==> report.actual
  }

  type Report = report: AnyReport | Governed(report)
    witness ToolReport(Failed(false, ""), false, "", PayloadFacts(false, false, false, false))

  datatype Session = Session(
    records: seq<ToolCall>,
    refs: seq<EvidenceRef>,
    progress: Snapshot,
    pending: Option<RetryDirective>,
    priorFingerprints: seq<Fingerprint>,
    terminalReason: Option<RouteReason>,
    earlyStop: Option<EarlyStop>,
    issueRevisionTerminal: bool,
    carrierOverdue: bool,
    unchangedTurns: nat,
    corrected: bool,
    selectorInput: Snapshot,
    budget: Budget,
    attempts: map<ToolName, int>)

  function ScopeOf(config: Config, refs: seq<EvidenceRef>, pending: Option<RetryDirective>): Scope {
    Scope(config.trusted.caseId, config.trusted.runId, config.trusted.issue, refs, pending)
  }

  // ---------- Starting, and starting again from persisted rows ----------

  /** The directive that the last record of a history calls for. */
  function DirectiveFor(records: seq<ToolCall>, progress: Snapshot): Option<RetryDirective> {
    if records == [] then None
    else
      var last := records[|records| - 1];
      if last.actual && last.attempt == 1 && last.execution == Some(RetryableError)
          && last.availability == Some(Unavailable)
         && last.sourceVersion.Some? && last.arguments.Some? then
        IssueExactRetry(last.callId, last.tool, last.arguments.value, last.sourceVersion.value, RetryableError,
            Unavailable, true, 1, progress)
      else None
  }

  function AttemptsIn(attempts: map<ToolName, int>, tool: ToolName): int {
    if tool in attempts then attempts[tool] else 0
  }

  function AttemptsOf(records: seq<ToolCall>): map<ToolName, int>
    decreases |records|
  {
    if records == [] then map[]
    else
      var earlier := AttemptsOf(records[..|records| - 1]);
      var last := records[|records| - 1];
      var seen := AttemptsIn(earlier, last.tool);
      earlier[last.tool := if seen < last.attempt then last.attempt else seen]
  }

  /** The coordinator built over whatever history the run already has. */
  function Start(config: Config, records: seq<ToolCall>, refs: seq<EvidenceRef>, budget: Budget): Session {
    var first := Rebuilt(ScopeOf(config, refs, None), records);
    var pending := DirectiveFor(records, first);
    var progress := if pending.Some? then Rebuilt(ScopeOf(config, refs, pending), records) else first;
    Session(records, refs, progress, pending, [], None, None, false, false, 0, false, progress, budget,
        AttemptsOf(records))
  }

  // ---------- Before the selector ----------

  datatype Pre = RepeatExactly(directive: RetryDirective) | Stop | Proceed

  function ActualExecutions(records: seq<ToolCall>): nat {
    if records == [] then 0
    else (if records[0].actual then 1 else 0) + ActualExecutions(records[1..])
  }

  predicate NeedsCarrierContext(config: Config, s: Session) {
    && config.businessDemo
    && config.trusted.issue == StalledTracking
    && s.progress.requirements.Get(CarrierAlertContext).status == Missing
    && s.carrierOverdue
  }

  predicate MustStop(config: Config, s: Session) {
    || (config.stopAfter.Some? && ActualExecutions(s.records) >= config.stopAfter.value)
    || s.terminalReason.Some?
    || (config.enforceEarlyStop && s.earlyStop.Some?)
    || (config.enforceEarlyStop && s.progress.readiness == Evaluable && !NeedsCarrierContext(config, s))
  }

  function BeforeSelector(config: Config, s: Session, currentSource: ToolName -> string): (Session, Pre) {
    var s := s.(selectorInput := s.progress);
    if s.pending.Some? && currentSource(s.pending.value.tool) != s.pending.value.sourceVersion then
      (s.(pending := None, terminalReason := Some(SourceRevisionChangedDuringRetry)), Stop)
    else if s.pending.Some? && s.budget.readCount < MAX_READS then (s, RepeatExactly(s.pending.value))
    else (s, if MustStop(config, s) then Stop else Proceed)
  }

  // ---------- The selector turn ----------

  datatype Choice = RunTool(observation: Observation) | Finished | Correct | Refuse | Crash

  function ContextOf(config: Config, s: Session): DecisionContext {
    DecisionContext(config.trusted.caseId, config.trusted.runId, config.trusted.issue, config.trusted.orderId,
                    s.progress, s.budget, s.priorFingerprints)
  }

  predicate Correctable(code: Rejection) {
    code == PrematureFinish || code == StuckRepeatedDecision || code == InvalidCandidateSchema
  }

  function CountUnchanged(s: Session): Session {
    var n := if s.selectorInput == s.progress then s.unchangedTurns + 1 else 0;
    s.(unchangedTurns := n, terminalReason := if n >= 2 then Some(StuckNoEvidenceProgress) else s.terminalReason)
  }

  /** A candidate the schema refuses arrives as None. The context contract admits at most 8 prior fingerprints. */
  function SelectObservation(config: Config, s: Session, candidate: Option<RawCandidate>): (Session, Choice) {
    if |s.priorFingerprints| > MAX_FINGERPRINTS then (s, Crash)
    else
      var namesTool := candidate.Some? && WellShaped(candidate.value) && candidate.value.tool.Some?;
      var gateReady := if !namesTool && s.issueRevisionTerminal then Some(true) else None;
      var lock := if config.enforceExactRetry then s.pending else None;
      match Validate(candidate, ContextOf(config, s), config.trusted, lock, gateReady)
      case Accepted(observation) =>
        (s.(priorFingerprints := s.priorFingerprints + [observation.fingerprint]),
         if observation.action == Finish then Finished else RunTool(observation))
      case Rejected(code) =>
        var s := CountUnchanged(s);
        if Correctable(code) && !s.corrected then (s.(corrected := true), Correct) else (s, Refuse)
  }

  // ---------- Executing a tool ----------

  function Refused(report: Report): Report {
    ToolReport(Failed(false, report.result.resultHash), false, report.sourceVersion, report.facts)
  }

  /** The read budget: a call that would exceed it is refused without reaching the source. */
  function Govern(report: Report, readCount: nat): Report {
    if report.actual && readCount >= MAX_READS then Refused(report) else report
  }

  function RefsFrom(callId: string, result: ToolResult): seq<EvidenceRef> {
    match result
    case Failed(_, _) => []
    case Answered(_, hash, queryId, recordIds) =>
      if recordIds == [] then [EvidenceRef(callId, queryId, None, hash)]
      else seq(|recordIds|, i requires 0 <= i < |recordIds| => EvidenceRef(callId, queryId, Some(recordIds[i]), hash))
  }

  function ExecutionOf(result: ToolResult): Execution {
    match result
    case Answered(_, _, _, _) => Success
    case Failed(retryable, _) => if retryable then RetryableError else NonRetryableError
  }

  function AvailabilityOf(result: ToolResult): Availability {
    match result
    case Answered(present, _, _, _) => if present then Present else Absent
    case Failed(_, _) => Unavailable
  }

  function RecordOf(callId: string, tool: ToolName, arguments: Arguments, attempt: int, report: Report,
      at: int): ToolCall {
    ToolCall(callId, None, None, tool, Some(arguments), attempt, report.actual,
             Some(ExecutionOf(report.result)), Some(AvailabilityOf(report.result)),
             Some(report.result.resultHash), Some(report.result.resultHash), Some(report.sourceVersion), Some(at))
  }

  function PendingAfter(config: Config, s: Session, record: ToolCall, report: Report): Option<RetryDirective> {
    var transient := report.result.Failed? && report.result.retryable;
    if config.enforceExactRetry && transient && record.attempt == 1 then
      IssueExactRetry(record.callId, record.tool, record.arguments.GetOr(map[]), report.sourceVersion,
                      RetryableError, Unavailable, true, record.attempt, s.progress)
    else if s.pending.Some? && record.attempt >= NEXT_ATTEMPT then None
    else if !transient then None
    else s.pending
  }

  function EarlyStopAfter(issue: Issue, current: Option<EarlyStop>, tool: ToolName, report: Report): Option<EarlyStop> {
    if !report.result.Answered? then current
    else if tool == GetOrderContext && report.facts.orderContradictsIssue then Some(IssueRevisionReady)
    else if tool == GetExistingLogisticsTickets && report.facts.ticketFound then Some(ActiveTicketExists)
    else if tool == SearchAfterSalesPolicy && issue == StalledTracking
        && report.facts.withinSla then Some(WithinTrackingSla)
    else current
  }

  /** The router's decision, adjusted by the deterministic early stop and the optional carrier branch. */
  function AdjustedRoute(config: Config, s: Session, recovery: Recovery): Recovery {
    if config.enforceEarlyStop && s.earlyStop.Some? then Recovery(Finalize, GateReady, None)
    else if NeedsCarrierContext(config, s) && recovery.route == Finalize then Recovery(Replan, ReplanRequired, None)
    else recovery
  }

  function ReasonAfter(config: Config, s: Session, recovery: Recovery): Option<RouteReason> {
    if recovery.route == SafeStop && (recovery.reason != BudgetExhausted || config.enforceExactRetry) then
        Some(recovery.reason)
    else if recovery.route == Finalize && config.enforceEarlyStop then Some(recovery.reason)
    else s.terminalReason
  }

  /** The session once a result is in its history: the retry lock, the rebuilt progress and the early-stop signals. */
  function Absorbed(config: Config, s: Session, record: ToolCall, report: Report, refs: seq<EvidenceRef>): Session {
    var pending := PendingAfter(config, s, record, report);
    var records, allRefs := s.records + [record], s.refs + refs;
    var compared := record.tool in {GetLogisticsTimeline, SearchAfterSalesPolicy};
    s.(records := records, refs := allRefs, pending := pending,
       progress := Rebuilt(ScopeOf(config, allRefs, pending), records),
       earlyStop := EarlyStopAfter(config.trusted.issue, s.earlyStop, record.tool, report),
       issueRevisionTerminal := s.issueRevisionTerminal
         || (report.result.Answered? && record.tool == GetOrderContext && report.facts.orderContradictsIssue),
       carrierOverdue := if compared then report.facts.carrierOverdue else s.carrierOverdue)
  }

  /** The router's decision over progress before and after a result, and what it leaves as the reason to stop. */
  function Routed(config: Config, before: Snapshot, s: Session, record: ToolCall, report: Report): Session {
    var trigger := Trigger(record.callId, record.tool, record.arguments.GetOr(map[]), record.attempt,
                           ExecutionOf(report.result), AvailabilityOf(report.result),
                           report.result.Failed? && report.result.retryable);
    var recovery := RouteAfter(config.trusted.caseId, config.trusted.runId, before, s.progress, s.budget, Some(trigger),
                               s.pending, Some(report.sourceVersion), s.unchangedTurns);
    s.(terminalReason := ReasonAfter(config, s, AdjustedRoute(config, s, recovery)))
  }

  function OnToolResult(config: Config, s: Session, record: ToolCall, report: Report, refs: seq<EvidenceRef>): Session {
    var before := Rebuilt(ScopeOf(config, s.refs, s.pending), s.records);
    Routed(config, before, CountUnchanged(Absorbed(config, s, record, report, refs)), record, report)
  }

  /** Execute through the governed executor, count the attempt, then hand the result to the coordinator. */
  function Execute(config: Config, s: Session, callId: string, tool: ToolName, arguments: Arguments,
      offered: Report, at: int): Session {
    var report := Govern(offered, s.budget.readCount);
    var attempt := AttemptsIn(s.attempts, tool) + 1;
    var s := s.(
      budget := if report.actual then s.budget.(readCount := s.budget.readCount + 1) else s.budget,
      attempts := s.attempts[tool := attempt]);
    OnToolResult(config, s, RecordOf(callId, tool, arguments, attempt, report, at), report,
        RefsFrom(callId, report.result))
  }

  // ---------- The graph ----------

  /** Everything the outside contributes to one visit of the agent node and the tools node after it. */
  datatype Turn = Turn(
    candidate: Option<RawCandidate>,
    currentSource: ToolName -> string,
    report: Report,
    callId: string,
    at: int)

  datatype Ending =
    | StoppedBySession
    | PlanningBudgetSpent
    | GraphTurnLimit
    | SelectorFinished
    | SelectorRefused
    | ContextOverflow

  datatype Executed = Executed(tool: ToolName, arguments: Arguments, attempt: int, isRetry: bool)

  datatype Pass = Pass(
    session: Session,
    planningTurns: nat,
    selectorTurns: nat,
    executed: seq<Executed>,
    ending: Option<Ending>)

  function NewPass(session: Session): Pass {
    Pass(session, 0, 0, [], None)
  }

  /** The conditional edge after the agent node, for a message that carries a tool call. */
  function RunInGraph(config: Config, p: Pass, tool: ToolName, arguments: Arguments, isRetry: bool, turn: Turn): Pass {
    if p.planningTurns >= MAX_RUN_TURNS then p.(ending := Some(GraphTurnLimit))
    else p.(
      session := Execute(config, p.session, turn.callId, tool, arguments, turn.report, turn.at),
      executed := p.executed + [Executed(tool, arguments, AttemptsIn(p.session.attempts, tool) + 1, isRetry)])
  }

  /** What the graph does with the outcome of a selector turn. */
  function Act(config: Config, p: Pass, choice: Choice, turn: Turn): Pass {
    if choice == Crash then p.(ending := Some(ContextOverflow))
    else
      var p := p.(planningTurns := p.planningTurns + 1);
      match choice
      case Refuse => p.(ending := Some(SelectorRefused))
      case Finished => p.(ending := Some(SelectorFinished))
      case RunTool(observation) =>
        RunInGraph(config, p, observation.tool.GetOr(UnregisteredTool("")), observation.arguments, false, turn)
      case _ => p
  }

  /** A planning turn, charged to its budgets, and the tool call it may lead to. */
  function SelectorTurn(config: Config, p: Pass, turn: Turn): Pass {
    var budget := p.session.budget;
    if budget.caseTurns >= MAX_CASE_TURNS || budget.runTurns >= MAX_RUN_TURNS then
      p.(ending := Some(PlanningBudgetSpent))
    else
      var counted := p.session.(budget := budget.(caseTurns := budget.caseTurns + 1, runTurns := budget.runTurns + 1));
      var (chosen, choice) := SelectObservation(config, counted, turn.candidate);
      Act(config, p.(session := chosen, selectorTurns := p.selectorTurns + 1), choice, turn)
  }

  function Advance(config: Config, p: Pass, turn: Turn): Pass {
    if p.ending.Some? then p
    else
      var (s, pre) := BeforeSelector(config, p.session, turn.currentSource);
      match pre
      case RepeatExactly(directive) =>
        RunInGraph(config, p.(session := s), directive.tool, directive.arguments, true, turn)
      case Stop => p.(session := s, ending := Some(StoppedBySession))
      case Proceed => SelectorTurn(config, p.(session := s), turn)
  }

  function Run(config: Config, p: Pass, turns: seq<Turn>): Pass
    decreases |turns|
  {
    if turns == [] then p else Advance(config, Run(config, p, turns[..|turns| - 1]), turns[|turns| - 1])
  }
}
