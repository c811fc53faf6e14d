/**
 The deterministic boundary around the selector: validating an untrusted candidate, routing after
 an observation, and issuing and checking exact retries.
 */
module ObservationPolicy {
  import opened Options
  import opened EvidenceProgress
  import opened EvidenceProperties

  datatype ReasonCode =
    | FirstRequiredObservation
    | MissingRequiredEvidence
    | ObservationConditionalBranch
    | OptionalExplanatoryContext
    | FinalizationRequested

  datatype Action = CallTool | Finish

  /** Untrusted selector output, before any check. */
  datatype RawCandidate = RawCandidate(
    action: Action,
    tool: Option<ToolName>,
    addresses: seq<Requirement>,
    reason: ReasonCode)

  /** The candidate contract: a finish carries nothing, a tool call names a registered tool. */
  predicate WellShaped(c: RawCandidate) {
    && (forall i, j :: 0 <= i < j < |c.addresses| ==> c.addresses[i] != c.addresses[j])
    && match c.action
       case Finish => c.tool == None && c.addresses == [] && c.reason == FinalizationRequested
       case CallTool => c.tool.Some? && !c.tool.value.UnregisteredTool? && c.reason != FinalizationRequested
  }

  datatype Budget = Budget(caseTurns: nat, runTurns: nat, readCount: nat)

  const MAX_CASE_TURNS := 16
  const MAX_RUN_TURNS := 8
  const MAX_READS := 6
  const MAX_FINGERPRINTS := 8

  /** A decision fingerprint is the digest of exactly these five values. */
  datatype Fingerprint = Fingerprint(
    action: Action,
    tool: Option<ToolName>,
    arguments: Arguments,
    addresses: seq<Requirement>,
    progress: Snapshot)

  datatype DecisionContext = DecisionContext(
    caseId: string,
    runId: string,
    issue: Issue,
    orderId: string,
    progress: Snapshot,
    budget: Budget,
    priorFingerprints: seq<Fingerprint>)

  datatype Trusted = Trusted(caseId: string, runId: string, orderId: string, issue: Issue)

  datatype Observation = Observation(
    action: Action,
    tool: Option<ToolName>,
    arguments: Arguments,
    addresses: seq<Requirement>,
    planningTurn: nat,
    fingerprint: Fingerprint)

  datatype Rejection =
    | InvalidCandidateSchema
    | ActiveCaseRunMismatch
    | PendingExactRetry
    | PlanningBudgetExceeded
    | PrematureFinish
    | ToolNotAllowed
    | ToolNotRelevantToIssue
    | MissingEvidenceAddress
    | InvalidEvidenceRequirement
    | DuplicateCompletedRead
    | RetryExhausted
    | EvidenceProgressConflict
    | StuckRepeatedDecision

  datatype Verdict = Accepted(observation: Observation) | Rejected(code: Rejection)

  function IssueText(issue: Issue): string {
    match issue
    case SignedNotReceived => "signed_not_received"
    case StalledTracking => "stalled_tracking"
  }

  /** Tool arguments are rebuilt from the trusted scope alone. */
  function CanonicalArguments(orderId: string, issue: Issue, tool: ToolName): Arguments {
    if tool == SearchAfterSalesPolicy || tool == GetExistingLogisticsTickets
    then map["order_id" := orderId, "issue_type" := IssueText(issue)]
    else map["order_id" := orderId]
  }

  function ScopeMatches(context: DecisionContext, trusted: Trusted): bool {
    && context.caseId == trusted.caseId
    && context.runId == trusted.runId
    && context.orderId == trusted.orderId
    && context.issue == trusted.issue
  }

  /** Why a tool may not be read now, if so; `addresses` must be exactly the tool's own requirement. */
  function ToolRejection(context: DecisionContext, tool: ToolName, addresses: seq<Requirement>): Option<Rejection> {
    match RequirementOf(tool)
    case None => Some(ToolNotAllowed)
    case Some(code) =>
      if tool == GetDeliveryProof && context.issue != SignedNotReceived then Some(ToolNotRelevantToIssue)
      else if tool == GetCarrierServiceAlerts && context.issue != StalledTracking then Some(ToolNotRelevantToIssue)
      else if addresses == [] then Some(MissingEvidenceAddress)
      else if addresses != [code] then Some(InvalidEvidenceRequirement)
      else
        var status := context.progress.requirements.Get(code).status;
        if IsSatisfied(status) then Some(DuplicateCompletedRead)
        else if status == UnavailableFinal then Some(RetryExhausted)
        else if status == Conflict then Some(EvidenceProgressConflict)
        else None
  }

  function Identify(c: RawCandidate, context: DecisionContext, arguments: Arguments): Verdict {
    var fingerprint := Fingerprint(c.action, c.tool, arguments, c.addresses, context.progress);
    if fingerprint in context.priorFingerprints then Rejected(StuckRepeatedDecision)
    else Accepted(Observation(c.action, c.tool, arguments, c.addresses, context.budget.runTurns + 1, fingerprint))
  }

  function Validate(candidate: Option<RawCandidate>, context: DecisionContext, trusted: Trusted,
                    pending: Option<RetryDirective>, gateReady: Option<bool>): Verdict {
    if candidate == None || !WellShaped(candidate.value) then Rejected(InvalidCandidateSchema)
    else if !ScopeMatches(context, trusted) then Rejected(ActiveCaseRunMismatch)
    else if pending.Some? then Rejected(PendingExactRetry)
    else if context.budget.caseTurns >= MAX_CASE_TURNS || context.budget.runTurns >= MAX_RUN_TURNS then
      Rejected(PlanningBudgetExceeded)
    else
      var c := candidate.value;
      match c.action
      case Finish =>
        if !gateReady.GetOr(context.progress.readiness == Evaluable) then Rejected(PrematureFinish)
        else Identify(c, context, map[])
      case CallTool =>
        match ToolRejection(context, c.tool.value, c.addresses)
        case Some(code) => Rejected(code)
        case None => Identify(c, context, CanonicalArguments(context.orderId, context.issue, c.tool.value))
  }

  // ---------- What acceptance means ----------

  /** The candidate's tool is relevant to the issue, addressed as its own requirement, and still open. */
  predicate OpenRead(c: RawCandidate, context: DecisionContext) {
    c.tool.Some? && RequirementOf(c.tool.value).Some? &&
    (var code := RequirementOf(c.tool.value).value;
     && Registry(context.issue, code) != NotRequired
     && c.addresses == [code]
     && context.progress.requirements.Get(code).status in {Missing, RetryPending})
  }

  /** Exactly which candidates pass the validator. */
  lemma AcceptedExactly(candidate: Option<RawCandidate>, context: DecisionContext, trusted: Trusted,
                        pending: Option<RetryDirective>, gateReady: Option<bool>)
    ensures Validate(candidate, context, trusted, pending, gateReady).Accepted? <==>
      && candidate.Some? && WellShaped(candidate.value)
      && ScopeMatches(context, trusted) && pending == None
      && context.budget.caseTurns < MAX_CASE_TURNS && context.budget.runTurns < MAX_RUN_TURNS
      && (if candidate.value.action == Finish
          then gateReady.GetOr(context.progress.readiness == Evaluable)
          else OpenRead(candidate.value, context))
      && (forall f :: f in context.priorFingerprints ==>
            !(f.action == candidate.value.action && f.tool == candidate.value.tool
              && f.addresses == candidate.value.addresses && f.progress == context.progress
              && f.arguments == (if candidate.value.action == Finish then map[]
                                 else CanonicalArguments(context.orderId, context.issue, candidate.value.tool.value))))
  {
    if candidate.Some? && WellShaped(candidate.value) {
      var c := candidate.value;
      if c.action == CallTool {
        ReadableExactly(c, context);
      }
    }
  }

  lemma ReadableExactly(c: RawCandidate, context: DecisionContext)
    requires WellShaped(c) && c.action == CallTool
    ensures ToolRejection(context, c.tool.value, c.addresses) == None <==> OpenRead(c, context)
  {
  }

  /**
   An accepted observation takes nothing from the candidate but the tool name: a tool call carries the
   trusted order and, for the policy and ticket reads alone, the trusted issue; a finish carries nothing.
   */
  lemma ArgumentsAreTrusted(c: RawCandidate, c': RawCandidate, context: DecisionContext, context': DecisionContext,
                            trusted: Trusted, gateReady: Option<bool>, gateReady': Option<bool>)
    requires Validate(Some(c), context, trusted, None, gateReady).Accepted?
    requires Validate(Some(c'), context', trusted, None, gateReady').Accepted?
    requires c.tool == c'.tool
    ensures Validate(Some(c), context, trusted, None, gateReady).observation.arguments
         == Validate(Some(c'), context', trusted, None, gateReady').observation.arguments
    ensures var arguments := Validate(Some(c), context, trusted, None, gateReady).observation.arguments;
      && ("order_id" in arguments <==> c.tool.Some?)
      && ("order_id" in arguments ==> arguments["order_id"] == trusted.orderId)
      && ("issue_type" in arguments <==> c.tool in {Some(SearchAfterSalesPolicy), Some(GetExistingLogisticsTickets)})
      && ("issue_type" in arguments ==> trusted.issue == SignedNotReceived ==>
            arguments["issue_type"] == "signed_not_received")
      && ("issue_type" in arguments ==> trusted.issue == StalledTracking ==>
            arguments["issue_type"] == "stalled_tracking")
      && (forall key :: key in arguments ==> key == "order_id" || key == "issue_type")
  {
  }

  /**
   A validated observation cannot poison the history: against progress rebuilt without a pending
   directive, whatever an accepted call returns, and whether or not it opens a directive of its own,
   recording it adds none of these four terminal codes.
   */
  lemma AcceptedCallCannotPoison(
      scope: Scope, calls: seq<ToolCall>, c: RawCandidate, context: DecisionContext, trusted: Trusted,
      gateReady: Option<bool>, call: ToolCall, pending: Option<RetryDirective>, refs: seq<EvidenceRef>,
          code: TerminalCode)
    requires scope.pending == None && context.progress == Rebuilt(scope, calls) && context.issue == scope.issue
    requires c.action == CallTool && Validate(Some(c), context, trusted, None, gateReady).Accepted?
    requires InScope(scope, call) && Some(call.tool) == c.tool && Later(calls, call)
    requires RefsAreNew(calls, refs)
    requires pending.Some? ==> pending.value.retryOf == call.callId && forall k :: k in calls ==>
        k.callId != call.callId
    requires code in Rebuilt(scope.(refs := scope.refs + refs, pending := pending), calls + [call]).terminal
    requires code !in Rebuilt(scope, calls).terminal
    ensures code != UnknownTool && !code.IrrelevantTool?
    ensures code != ContradictorySuccess && code != SourceRevisionConflict
  {
    hide Rebuilt, FoldCalls, Ordered, Validate, Examine, Later, RefsAreNew;
    var scope' := scope.(refs := scope.refs + refs, pending := pending);
    var own := AcceptedRequirementIsMissing(scope, calls, c, context, trusted, gateReady);
    LaterCallLeavesFold(scope, calls, call, pending, refs);
    NewTerminalCode(scope, scope', calls, call, own, code);
    var st := FoldCalls(scope, Ordered(calls));
    JudgedWhileMissing(scope', st, call, st.states.Get(own));
  }

  /** What arrives with a later call, its references and its own directive, leaves the fold over earlier calls alone. */
  lemma LaterCallLeavesFold(scope: Scope, calls: seq<ToolCall>, call: ToolCall, pending: Option<RetryDirective>,
      refs: seq<EvidenceRef>)
    requires scope.pending == None && RefsAreNew(calls, refs)
    requires pending.Some? ==> pending.value.retryOf == call.callId && forall k :: k in calls ==>
        k.callId != call.callId
    ensures FoldCalls(scope.(refs := scope.refs + refs, pending := pending), Ordered(calls))
        == FoldCalls(scope, Ordered(calls))
  {
    hide FoldCalls, Ordered;
    var ordered := Ordered(calls);
    forall k ensures k in calls <==> k in ordered {
      assert k in multiset(calls) <==> k in multiset(ordered);
    }
    FoldIgnoresNewRefs(scope, ordered, refs);
    DirectiveOfLaterCallIsInert(scope.(refs := scope.refs + refs), ordered, pending, call.callId);
  }

  lemma AcceptedRequirementIsMissing(scope: Scope, calls: seq<ToolCall>, c: RawCandidate, context: DecisionContext,
      trusted: Trusted,
                                     gateReady: Option<bool>) returns (own: Requirement)
    requires scope.pending == None && context.progress == Rebuilt(scope, calls) && context.issue == scope.issue
    requires c.action == CallTool && Validate(Some(c), context, trusted, None, gateReady).Accepted?
    ensures c.tool == Some(ToolFor(own)) && Registry(scope.issue, own) != NotRequired
    ensures FoldCalls(scope, Ordered(calls)).states.Get(own).status == Missing
  {
    hide Ordered, FoldCalls;
    ReadableExactly(c, context);
    own := RequirementOf(c.tool.value).value;
    NoDirectiveNoRetryPending(scope, Ordered(calls), own);
  }

  /** A terminal code that one more relevant call brings is a reason found while judging that call. */
  lemma NewTerminalCode(scope: Scope, scope': Scope, calls: seq<ToolCall>, call: ToolCall, own: Requirement,
      code: TerminalCode)
    requires Later(calls, call) && scope.pending == None
    requires FoldCalls(scope', Ordered(calls)) == FoldCalls(scope, Ordered(calls))
    requires Concerns(scope', call, own)
    requires code in Rebuilt(scope', calls + [call]).terminal && code !in Rebuilt(scope, calls).terminal
    ensures var st := FoldCalls(scope, Ordered(calls));
      code == RetryOriginMissing || code in Examine(scope', st, call, st.states.Get(own)).reasons
  {
    hide FoldCalls, Ordered, Examine, Later;
    RebuildIsFold(scope', calls, call);
    var st := FoldCalls(scope, Ordered(calls));
    var after := Step(scope', st, call);
    assert after.terminal == st.terminal + Examine(scope', st, call, st.states.Get(own)).reasons;
    assert code in after.terminal + OriginCheck(scope', after);
    assert st.terminal == st.terminal + OriginCheck(scope, st);
  }

  lemma JudgedWhileMissing(scope: Scope, st: Fold, call: ToolCall, current: RequirementProgress)
    requires current.status == Missing
    ensures var reasons := Examine(scope, st, call, current).reasons;
      forall r :: r in reasons ==> r in {ResultHashMismatch, MissingEvidenceRef, RetryIdentityConflict,
          MalformedToolResult}
  {
  }

  /** A directive for a call that is not in the history changes nothing in the fold. */
  lemma {:induction false} DirectiveOfLaterCallIsInert(scope: Scope, calls: seq<ToolCall>,
      pending: Option<RetryDirective>, callId: string)
    requires scope.pending == None
    requires pending.Some? ==> pending.value.retryOf == callId && forall k :: k in calls ==> k.callId != callId
    ensures FoldCalls(scope.(pending := pending), calls) == FoldCalls(scope, calls)
    ensures !FoldCalls(scope, calls).originSeen
    decreases |calls|
  {
    if calls != [] {
      var n := |calls| - 1;
      DirectiveOfLaterCallIsInert(scope, calls[..n], pending, callId);
      var st := FoldCalls(scope, calls[..n]);
      assert calls[n] in calls;
      hide Settle;
      forall current ensures Examine(scope.(pending := pending), st, calls[n], current)
          == Examine(scope, st, calls[n], current) {
      }
    }
  }

  // ---------- Routing ----------

  datatype Route = Replan | RetryExact | Finalize | SafeStop

  datatype RouteReason =
    | ReplanRequired
    | RetryableToolFailure
    | GateReady
    | BudgetExhausted
    | IntegrityConflict
    | SourceRevisionChangedDuringRetry
    | StuckNoEvidenceProgress

  datatype Recovery = Recovery(route: Route, reason: RouteReason, directive: Option<RetryDirective>)

  /** The observation that triggers routing. */
  datatype Trigger = Trigger(
    callId: string,
    tool: ToolName,
    arguments: Arguments,
    attempt: int,
    execution: Execution,
    availability: Availability,
    retryable: bool)

  predicate IsTransientFirstFailure(t: Trigger) {
    t.execution == RetryableError && t.availability == Unavailable && t.retryable && t.attempt <= 1
  }

  function RouteAfter(caseId: string, runId: string, before: Snapshot, after: Snapshot, budget: Budget,
                      trigger: Option<Trigger>, pending: Option<RetryDirective>, sourceVersion: Option<string>,
                      unchangedTurns: nat): Recovery {
    if before.caseId != caseId || after.caseId != caseId || before.runId != runId || after.runId != runId
       || before.issue != after.issue then
      Recovery(SafeStop, IntegrityConflict, None)
    else if after.terminal != [] then Recovery(SafeStop, IntegrityConflict, None)
    else if budget.caseTurns >= MAX_CASE_TURNS || budget.runTurns >= MAX_RUN_TURNS || budget.readCount >= MAX_READS then
      Recovery(SafeStop, BudgetExhausted, None)
    else if pending.Some? && sourceVersion != Some(pending.value.sourceVersion) then
      Recovery(SafeStop, SourceRevisionChangedDuringRetry, None)
    else if pending.Some? then Recovery(RetryExact, RetryableToolFailure, pending)
    else if trigger.Some? && IsTransientFirstFailure(trigger.value) && sourceVersion.Some? then
      var t := trigger.value;
      Recovery(RetryExact, RetryableToolFailure, Some(RetryDirective(t.callId, t.tool, t.arguments,
          sourceVersion.value, after)))
    else if after.readiness == Evaluable then Recovery(Finalize, GateReady, None)
    else if unchangedTurns >= 2 then Recovery(SafeStop, StuckNoEvidenceProgress, None)
    else Recovery(Replan, ReplanRequired, None)
  }

  lemma {:induction false} NothingUnsatisfied(states: States, codes: seq<Requirement>)
    ensures Unsatisfied(states, codes) == [] <==> forall code :: code in codes ==> IsSatisfied(states.Get(code).status)
  {
    if codes != [] {
      NothingUnsatisfied(states, codes[1..]);
    }
  }

  /** The gate is evaluable exactly when every required code is satisfied and nothing conflicts. */
  lemma EvaluableExactly(scope: Scope, calls: seq<ToolCall>)
    ensures var s := Rebuilt(scope, calls);
      s.readiness == Evaluable <==>
        && (forall code :: Registry(scope.issue, code) == Required ==> IsSatisfied(s.requirements.Get(code).status))
        && (forall code :: s.requirements.Get(code).status != Conflict)
  {
    var s := Rebuilt(scope, calls);
    NothingUnsatisfied(s.requirements, RequiredByIssue(scope.issue));
    forall code ensures Registry(scope.issue, code) == Required <==> code in RequiredByIssue(scope.issue) {
    }
  }

  /**
   The router finalizes a rebuilt run only on complete, conflict-free, terminal-free progress with no
   retry outstanding and budget left; and each required code then has its evidence in the history.
   */
  lemma FinalizeIsSound(scope: Scope, calls: seq<ToolCall>, caseId: string, runId: string, before: Snapshot,
      budget: Budget,
                        trigger: Option<Trigger>, sourceVersion: Option<string>, unchangedTurns: nat)
    requires RouteAfter(caseId, runId, before, Rebuilt(scope, calls), budget, trigger, scope.pending, sourceVersion,
        unchangedTurns).route == Finalize
    ensures Rebuilt(scope, calls).terminal == [] && scope.pending == None
    ensures budget.caseTurns < MAX_CASE_TURNS && budget.runTurns < MAX_RUN_TURNS && budget.readCount < MAX_READS
    ensures forall code :: Rebuilt(scope, calls).requirements.Get(code).status != Conflict
    ensures forall code :: Registry(scope.issue, code) == Required ==>
      exists call :: call in calls && Supports(scope, call, code, Rebuilt(scope, calls).requirements.Get(code))
  {
    EvaluableExactly(scope, calls);
    forall code | Registry(scope.issue, code) == Required
      ensures exists call :: call in calls && Supports(scope, call, code, Rebuilt(scope, calls).requirements.Get(code))
    {
      ReadinessIsSound(scope, calls, code);
    }
  }

  /** The router's preconditions for going on at all: one scope, no terminal code, budget left. */
  predicate MayGoOn(caseId: string, runId: string, before: Snapshot, after: Snapshot, budget: Budget) {
    && before.caseId == after.caseId == caseId && before.runId == after.runId == runId && before.issue == after.issue
    && after.terminal == []
    && budget.caseTurns < MAX_CASE_TURNS && budget.runTurns < MAX_RUN_TURNS && budget.readCount < MAX_READS
  }

  /**
   What each route is justified by. A retry repeats the outstanding directive at its own revision, or
   the very call that just failed transiently; replanning means there is nothing to retry, evidence is
   incomplete and progress is not stuck; a budget stop means a budget is spent.
   */
  lemma RouteIsJustified(caseId: string, runId: string, before: Snapshot, after: Snapshot, budget: Budget,
      trigger: Option<Trigger>,
                         pending: Option<RetryDirective>, sourceVersion: Option<string>, unchangedTurns: nat)
    ensures var r := RouteAfter(caseId, runId, before, after, budget, trigger, pending, sourceVersion, unchangedTurns);
      && (r.route != SafeStop ==> MayGoOn(caseId, runId, before, after, budget))
      && (r.route == RetryExact <==> r.directive.Some?)
      && (r.route == RetryExact ==> Some(r.directive.value.sourceVersion) == sourceVersion)
      && (r.route == RetryExact && pending.Some? ==> r.directive == pending)
      && (r.route == RetryExact && pending == None ==>
            && trigger.Some? && IsTransientFirstFailure(trigger.value)
                 && r.directive.value.retryOf == trigger.value.callId
            && r.directive.value.tool == trigger.value.tool && r.directive.value.arguments == trigger.value.arguments)
      && (r.route in {Replan, Finalize} ==> pending == None && (after.readiness == Evaluable <==> r.route == Finalize))
      && (r.route == Replan ==> unchangedTurns < 2)
      && (r.reason == StuckNoEvidenceProgress ==> unchangedTurns >= 2 && after.readiness != Evaluable)
      && (r.reason == BudgetExhausted ==>
            budget.caseTurns >= MAX_CASE_TURNS || budget.runTurns >= MAX_RUN_TURNS || budget.readCount >= MAX_READS)
      && (r.reason == SourceRevisionChangedDuringRetry ==>
           pending.Some? && sourceVersion != Some(pending.value.sourceVersion))
  {
  }

  /** The trigger is a transient failure of a first attempt, at a known revision: it is to be repeated. */
  predicate IsRepeatable(trigger: Option<Trigger>, sourceVersion: Option<string>) {
    trigger.Some? && IsTransientFirstFailure(trigger.value) && sourceVersion.Some?
  }

  /** Exactly when the router takes each route, and exactly why it stops. */
  lemma RoutedExactly(caseId: string, runId: string, before: Snapshot, after: Snapshot, budget: Budget,
      trigger: Option<Trigger>, pending: Option<RetryDirective>, sourceVersion: Option<string>, unchangedTurns: nat)
    ensures var r := RouteAfter(caseId, runId, before, after, budget, trigger, pending, sourceVersion, unchangedTurns);
      var goesOn := MayGoOn(caseId, runId, before, after, budget);
      var settled := goesOn && pending == None && !IsRepeatable(trigger, sourceVersion);
      && (r.route == RetryExact <==>
            && goesOn
            && if pending.Some? then sourceVersion == Some(pending.value.sourceVersion)
               else IsRepeatable(trigger, sourceVersion))
      && (r.route == Finalize <==> settled && after.readiness == Evaluable)
      && (r.route == Replan <==> settled && after.readiness != Evaluable && unchangedTurns < 2)
      && (r.reason == StuckNoEvidenceProgress <==>
            settled && after.readiness != Evaluable && unchangedTurns >= 2)
      && (r.reason == SourceRevisionChangedDuringRetry <==>
            goesOn && pending.Some? && sourceVersion != Some(pending.value.sourceVersion))
      && (r.reason == BudgetExhausted <==>
            && !goesOn && after.terminal == []
            && before.caseId == after.caseId == caseId && before.runId == after.runId == runId
            && before.issue == after.issue)
      && (r.reason == IntegrityConflict <==>
            || after.terminal != []
            || !(before.caseId == after.caseId == caseId && before.runId == after.runId == runId
                 && before.issue == after.issue))
  {
  }

  /**
   A safe stop for an integrity conflict is permanent: whatever further calls and references arrive,
   whatever budget, trigger and source version the router is given, it stops again for the same reason.
   */
  lemma SafeStopIsPermanent(scope: Scope, calls: seq<ToolCall>, more: seq<ToolCall>, refs: seq<EvidenceRef>,
      code: TerminalCode,
                            before: Snapshot, budget: Budget, trigger: Option<Trigger>, sourceVersion: Option<string>,
                                unchangedTurns: nat)
    requires Arrives(calls, more) && RefsAreNew(calls, refs)
    requires code in Rebuilt(scope, calls).terminal && code != RetryOriginMissing
    ensures var after := Rebuilt(scope.(refs := scope.refs + refs), calls + more);
      RouteAfter(scope.caseId, scope.runId, before, after, budget, trigger, scope.pending, sourceVersion,
          unchangedTurns)
      == Recovery(SafeStop, IntegrityConflict, None)
  {
    TerminalCodesOnlyGrow(scope, calls, more, refs, code);
  }

  // ---------- Exact retry ----------

  function IssueExactRetry(callId: string, tool: ToolName, arguments: Arguments, sourceVersion: string,
      execution: Execution,
                           availability: Availability, retryable: bool, attempt: int,
                               progress: Snapshot): Option<RetryDirective> {
    if tool.UnregisteredTool? || sourceVersion == "" || execution != RetryableError || availability != Unavailable
       || !retryable || attempt != 1 then None
    else Some(RetryDirective(callId, tool, arguments, sourceVersion, progress))
  }

  datatype RetryRejection =
    | RetryAttemptNumberMismatch
    | RetryToolMismatch
    | RetryArgumentsMismatch
    | RetrySourceRevisionChanged
    | ToolRetryExhausted

  function CheckExactRetry(directive: RetryDirective, tool: ToolName, arguments: Arguments, sourceVersion: string,
      attempt: int): Option<RetryRejection> {
    if attempt != NEXT_ATTEMPT then Some(RetryAttemptNumberMismatch)
    else if tool != directive.tool then Some(RetryToolMismatch)
    else if arguments != directive.arguments then Some(RetryArgumentsMismatch)
    else if sourceVersion != directive.sourceVersion then Some(RetrySourceRevisionChanged)
    else None
  }

  /** The issuer, the checker and the reducer agree on what the one exact retry of a call is. */
  lemma IssuedRetryIsTheReducersRetry(origin: ToolCall, retry: ToolCall, progress: Snapshot)
    requires origin.actual && origin.arguments.Some? && origin.sourceVersion.Some? && origin.execution.Some?
        && origin.availability.Some?
    requires retry.arguments.Some? && retry.sourceVersion.Some?
    ensures var issued := IssueExactRetry(origin.callId, origin.tool, origin.arguments.value,
        origin.sourceVersion.value,
                                          origin.execution.value, origin.availability.value, true, origin.Attempt(),
                                              progress);
      issued.Some? ==>
        && IsRetryOrigin(issued.value, origin)
        && (CheckExactRetry(issued.value, retry.tool, retry.arguments.value, retry.sourceVersion.value,
             retry.Attempt()) == None
            <==> IsExactRetry(issued.value, retry))
  {
  }

  class ExactRetryController {
    const directive: RetryDirective
    var executed: bool

    constructor (directive: RetryDirective)
      ensures this.directive == directive && !executed
    {
      this.directive := directive;
      executed := false;
    }

    /** Permits one matching execution and refuses every other, including every later one. */
    method ValidateNext(tool: ToolName, arguments: Arguments, sourceVersion: string,
        attempt: int) returns (rejection: Option<RetryRejection>)
      modifies this
      ensures rejection == None <==>
        (!old(executed) && tool == directive.tool && arguments == directive.arguments
         && sourceVersion == directive.sourceVersion && attempt == NEXT_ATTEMPT)
      ensures executed == (old(executed) || rejection == None)
      ensures old(executed) ==> rejection == Some(ToolRetryExhausted)
    {
      if executed {
        return Some(ToolRetryExhausted);
      }
      rejection := CheckExactRetry(directive, tool, arguments, sourceVersion, attempt);
      if rejection == None {
        executed := true;
      }
    }
  }
}
