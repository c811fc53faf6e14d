/**
 Evidence progress: the requirement registry and the reducer that rebuilds a run's progress
 from its complete tool-call history.

 A SHA-256 digest over canonical JSON is modelled as the digested value itself: digests are
 compared only for equality, and distinct values are taken to have distinct digests.
 */
module EvidenceProgress {
  import opened Options
  import opened StableSort
  import opened TextOrder

  datatype Issue = SignedNotReceived | StalledTracking

  datatype Requirement =
    | OrderStatus
    | TrackingTimeline
    | DeliveryProof
    | PolicyApplicability
    | ActiveTicketStatus
    | CarrierAlertContext

  datatype ToolName =
    | GetOrderContext
    | GetLogisticsTimeline
    | GetDeliveryProof
    | SearchAfterSalesPolicy
    | GetExistingLogisticsTickets
    | GetCarrierServiceAlerts
    | UnregisteredTool(name: string)

  datatype Applicability = Required | Optional | NotRequired

  datatype Status =
    | Missing
    | SatisfiedPresent
    | SatisfiedAbsent
    | RetryPending
    | UnavailableFinal
    | Conflict

  datatype Execution = Success | RetryableError | NonRetryableError

  datatype Availability = Present | Absent | Unavailable

  datatype TerminalCode =
    | ToolCallScopeMismatch
    | UnknownTool
    | IrrelevantTool(tool: ToolName)
    | RetryIdentityConflict
    | ResultHashMismatch
    | MissingEvidenceRef
    | ContradictorySuccess
    | SourceRevisionConflict
    | MalformedToolResult
    | RetryOriginMissing

  type Arguments = map<string, string>

  /**
   One recorded tool call. Fields a record may lack are optional; `envelopeHash` is the hash inside
   the result envelope, absent when the envelope is missing or does not parse.
   */
  datatype ToolCall = ToolCall(
    callId: string,
    caseId: Option<string>,
    runId: Option<string>,
    tool: ToolName,
    arguments: Option<Arguments>,
    attempt: int,
    actual: bool,
    execution: Option<Execution>,
    availability: Option<Availability>,
    resultHash: Option<string>,
    envelopeHash: Option<string>,
    sourceVersion: Option<string>,
    requestedAt: Option<int>)
  {
    /** A missing or zero attempt number counts as the first attempt. */
    function Attempt(): int {
      if attempt == 0 then 1 else attempt
    }
  }

  datatype EvidenceRef = EvidenceRef(callId: string, queryId: string, recordId: Option<string>, resultHash: string)

  datatype RequirementProgress = RequirementProgress(
    applicability: Applicability,
    status: Status,
    callIds: seq<string>,
    refIds: seq<string>,
    resultHashes: seq<string>,
    sourceVersions: seq<string>)

  /** The requirements dictionary; it always holds exactly the six registered codes. */
  datatype States = States(
    order: RequirementProgress,
    tracking: RequirementProgress,
    proof: RequirementProgress,
    policy: RequirementProgress,
    ticket: RequirementProgress,
    carrier: RequirementProgress)
  {
    function Get(code: Requirement): RequirementProgress {
      match code
      case OrderStatus => order
      case TrackingTimeline => tracking
      case DeliveryProof => proof
      case PolicyApplicability => policy
      case ActiveTicketStatus => ticket
      case CarrierAlertContext => carrier
    }

    function Set(code: Requirement, progress: RequirementProgress): (r: States)
      ensures forall c {:trigger r.Get(c)} :: r.Get(c) == if c == code then progress else Get(c)
    {
      match code
      case OrderStatus => this.(order := progress)
      case TrackingTimeline => this.(tracking := progress)
      case DeliveryProof => this.(proof := progress)
      case PolicyApplicability => this.(policy := progress)
      case ActiveTicketStatus => this.(ticket := progress)
      case CarrierAlertContext => this.(carrier := progress)
    }
  }

  datatype GateReadiness = NotEvaluable | Evaluable

  datatype Snapshot = Snapshot(
    caseId: string,
    runId: string,
    issue: Issue,
    revision: nat,
    requirements: States,
    readiness: GateReadiness,
    missing: seq<Requirement>,
    terminal: seq<TerminalCode>,
    lastActual: Option<string>)

  /** The one permitted repetition of a first attempt that failed transiently. */
  datatype RetryDirective = RetryDirective(
    retryOf: string,
    tool: ToolName,
    arguments: Arguments,
    sourceVersion: string,
    issuedFrom: Snapshot)

  const NEXT_ATTEMPT := 2

  // ---------- Registry ----------

  function RequirementOf(tool: ToolName): Option<Requirement> {
    match tool
    case GetOrderContext => Some(OrderStatus)
    case GetLogisticsTimeline => Some(TrackingTimeline)
    case GetDeliveryProof => Some(DeliveryProof)
    case SearchAfterSalesPolicy => Some(PolicyApplicability)
    case GetExistingLogisticsTickets => Some(ActiveTicketStatus)
    case GetCarrierServiceAlerts => Some(CarrierAlertContext)
    case UnregisteredTool(_) => None
  }

  function ToolFor(code: Requirement): (tool: ToolName)
    ensures forall t :: RequirementOf(t) == Some(code) <==> t == tool
  {
    match code
    case OrderStatus => GetOrderContext
    case TrackingTimeline => GetLogisticsTimeline
    case DeliveryProof => GetDeliveryProof
    case PolicyApplicability => SearchAfterSalesPolicy
    case ActiveTicketStatus => GetExistingLogisticsTickets
    case CarrierAlertContext => GetCarrierServiceAlerts
  }

  function RequiredByIssue(issue: Issue): seq<Requirement> {
    match issue
    case SignedNotReceived => [OrderStatus, TrackingTimeline, DeliveryProof, PolicyApplicability, ActiveTicketStatus]
    case StalledTracking => [OrderStatus, TrackingTimeline, PolicyApplicability, ActiveTicketStatus]
  }

  function Registry(issue: Issue, code: Requirement): Applicability {
    if code in RequiredByIssue(issue) then Required
    else if issue == StalledTracking && code == CarrierAlertContext then Optional
    else NotRequired
  }

  predicate IsSatisfied(status: Status) {
    status == SatisfiedPresent || status == SatisfiedAbsent
  }

  // ---------- The fold ----------

  /** Everything a rebuild depends on besides the calls. */
  datatype Scope = Scope(
    caseId: string,
    runId: string,
    issue: Issue,
    refs: seq<EvidenceRef>,
    pending: Option<RetryDirective>)

  datatype Fold = Fold(
    states: States,
    terminal: seq<TerminalCode>,
    lastActual: Option<string>,
    originSeen: bool,
    attemptSeen: bool)

  function EmptyRequirement(issue: Issue, code: Requirement): RequirementProgress {
    RequirementProgress(Registry(issue, code), Missing, [], [], [], [])
  }

  function InitialStates(issue: Issue): (states: States)
    ensures forall code {:trigger states.Get(code)} :: states.Get(code) == EmptyRequirement(issue, code)
  {
    States(
      EmptyRequirement(issue, OrderStatus),
      EmptyRequirement(issue, TrackingTimeline),
      EmptyRequirement(issue, DeliveryProof),
      EmptyRequirement(issue, PolicyApplicability),
      EmptyRequirement(issue, ActiveTicketStatus),
      EmptyRequirement(issue, CarrierAlertContext))
  }

  function InitialFold(scope: Scope): Fold {
    Fold(InitialStates(scope.issue), [], None, false, false)
  }

  predicate Matches(ref: EvidenceRef, callId: string, resultHash: Option<string>) {
    ref.callId == callId && (resultHash == None || Some(ref.resultHash) == resultHash)
  }

  function MatchingRefs(refs: seq<EvidenceRef>, callId: string, resultHash: Option<string>): seq<EvidenceRef> {
    if refs == [] then []
    else (if Matches(refs[0], callId, resultHash) then [refs[0]] else []) + MatchingRefs(refs[1..], callId, resultHash)
  }

  function RefId(ref: EvidenceRef): string {
    ref.callId + ":" + ref.queryId + ":" + ref.recordId.GetOr("")
  }

  function RefIds(refs: seq<EvidenceRef>): seq<string> {
    seq(|refs|, i requires 0 <= i < |refs| => RefId(refs[i]))
  }

  function Add(values: seq<string>, item: Option<string>): seq<string> {
    if item == None || item.value in values then values else values + [item.value]
  }

  function AddAll(values: seq<string>, items: seq<string>): seq<string>
    decreases |items|
  {
    if items == [] then values else AddAll(Add(values, Some(items[0])), items[1..])
  }

  function Merge(current: RequirementProgress, status: Status, callId: string, resultHash: Option<string>,
                 sourceVersion: Option<string>, refIds: seq<string>): RequirementProgress {
    current.(
      status := status,
      callIds := Add(current.callIds, Some(callId)),
      refIds := AddAll(AddAll([], current.refIds), refIds),
      resultHashes := Add(current.resultHashes, resultHash),
      sourceVersions := Add(current.sourceVersions, sourceVersion))
  }

  predicate InScope(scope: Scope, call: ToolCall) {
    && (call.caseId == None || call.caseId == Some(scope.caseId))
    && (call.runId == None || call.runId == Some(scope.runId))
  }

  /** The call reports an answer, present or absent, rather than an error. */
  predicate ReportsSuccess(call: ToolCall) {
    call.execution == Some(Success) && (call.availability == Some(Present) || call.availability == Some(Absent))
  }

  predicate ReportsFailure(call: ToolCall) {
    && call.availability == Some(Unavailable)
    && (call.execution == Some(RetryableError) || call.execution == Some(NonRetryableError))
  }

  predicate IsRetryOrigin(directive: RetryDirective, call: ToolCall) {
    && call.actual
    && call.Attempt() == 1
    && call.tool == directive.tool
    && call.arguments == Some(directive.arguments)
    && call.sourceVersion == Some(directive.sourceVersion)
  }

  predicate IsExactRetry(directive: RetryDirective, call: ToolCall) {
    && call.Attempt() == NEXT_ATTEMPT
    && call.tool == directive.tool
    && call.arguments == Some(directive.arguments)
    && call.sourceVersion == Some(directive.sourceVersion)
  }

  /** What one call does to its own requirement, and the terminal codes it records. */
  datatype Judged = Judged(progress: RequirementProgress, reasons: seq<TerminalCode>)

  function InConflict(current: RequirementProgress, reason: TerminalCode): Judged {
    Judged(current.(status := Conflict), [reason])
  }

  function NonEmpty(hash: Option<string>): Option<string> {
    if hash == Some("") then None else hash
  }

  /** Read the result, once scope, relevance and retry identity have been checked. */
  function Settle(scope: Scope, call: ToolCall, current: RequirementProgress): (j: Judged)
    ensures j.progress.status != Missing
    ensures j.progress.applicability == current.applicability
  {
    if ReportsSuccess(call) then
      var refs := MatchingRefs(scope.refs, call.callId, call.resultHash);
      if call.envelopeHash == None || call.envelopeHash != call.resultHash then
        InConflict(current, ResultHashMismatch)
      else if refs == [] then
        InConflict(current, MissingEvidenceRef)
      else if IsSatisfied(current.status) && current.resultHashes != []
          && call.resultHash.value !in current.resultHashes then
        InConflict(current, ContradictorySuccess)
      else if IsSatisfied(current.status) && current.sourceVersions != []
              && (call.sourceVersion == None || call.sourceVersion.value !in current.sourceVersions) then
        InConflict(current, SourceRevisionConflict)
      else
        var status := if call.availability == Some(Present) then SatisfiedPresent else SatisfiedAbsent;
        Judged(Merge(current, status, call.callId, call.resultHash, call.sourceVersion, RefIds(refs)), [])
    else if ReportsFailure(call) then
      var status :=
        if scope.pending.Some? && scope.pending.value.retryOf == call.callId && call.Attempt() == 1
        then RetryPending else UnavailableFinal;
      Judged(Merge(current, status, call.callId, NonEmpty(call.resultHash), call.sourceVersion, []), [])
    else
      InConflict(current, MalformedToolResult)
  }

  predicate NamesOrigin(scope: Scope, call: ToolCall) {
    scope.pending.Some? && scope.pending.value.retryOf == call.callId
  }

  /** The first actual execution after a pending origin, which must be its exact repetition. */
  predicate FollowsOrigin(scope: Scope, st: Fold, call: ToolCall) {
    scope.pending.Some? && !NamesOrigin(scope, call) && st.originSeen && !st.attemptSeen && call.actual
  }

  /** The retry-identity checks, then the result itself. */
  function Examine(scope: Scope, st: Fold, call: ToolCall, current: RequirementProgress): (j: Judged)
    ensures j.progress.status != Missing
    ensures j.progress.applicability == current.applicability
  {
    if NamesOrigin(scope, call) && !IsRetryOrigin(scope.pending.value, call) then
      InConflict(current, RetryIdentityConflict)
    else if FollowsOrigin(scope, st, call) && !IsExactRetry(scope.pending.value, call) then
      InConflict(current, RetryIdentityConflict)
    else Settle(scope, call, current)
  }

  /** One tool call, in the order in which the reducer applies its checks. */
  function Step(scope: Scope, st: Fold, call: ToolCall): Fold {
    if !InScope(scope, call) then st.(terminal := st.terminal + [ToolCallScopeMismatch])
    else match RequirementOf(call.tool)
      case None => st.(terminal := st.terminal + [UnknownTool])
      case Some(code) =>
        var lastActual := if call.actual && call.callId != "" then Some(call.callId) else st.lastActual;
        if Registry(scope.issue, code) == NotRequired then
          st.(lastActual := lastActual, terminal := st.terminal + [IrrelevantTool(call.tool)])
        else
          var judged := Examine(scope, st, call, st.states.Get(code));
          Fold(
            st.states.Set(code, judged.progress),
            st.terminal + judged.reasons,
            lastActual,
            st.originSeen || NamesOrigin(scope, call),
            st.attemptSeen || (FollowsOrigin(scope, st, call) && IsExactRetry(scope.pending.value, call)))
  }

  function FoldCalls(scope: Scope, calls: seq<ToolCall>): Fold
    decreases |calls|
  {
    if calls == [] then InitialFold(scope)
    else
      var n := |calls| - 1;
      Step(scope, FoldCalls(scope, calls[..n]), calls[n])
  }

  // ---------- Ordering ----------

  /** The order of the sort key (requested_at, tool_call_id); only time-stamped calls are ever compared. */
  predicate KeyLeq(a: ToolCall, b: ToolCall) {
    var s, t := a.requestedAt.GetOr(0), b.requestedAt.GetOr(0);
    s < t || (s == t && TextLeq(a.callId, b.callId))
  }

  predicate AllTimed(calls: seq<ToolCall>) {
    forall i :: 0 <= i < |calls| ==> calls[i].requestedAt.Some?
  }

  /** Histories with time stamps are sorted by them; a history lacking one is taken as already ordered. */
  function Ordered(calls: seq<ToolCall>): (r: seq<ToolCall>)
    ensures multiset(r) == multiset(calls)
  {
    if AllTimed(calls) then Sort(calls, KeyLeq) else calls
  }

  // ---------- The snapshot ----------

  function Unsatisfied(states: States, codes: seq<Requirement>): seq<Requirement>
  {
    if codes == [] then []
    else (if IsSatisfied(states.Get(codes[0]).status) then [] else [codes[0]]) + Unsatisfied(states, codes[1..])
  }

  predicate HasConflict(states: States) {
    exists code: Requirement :: states.Get(code).status == Conflict
  }

  function Dedupe(codes: seq<TerminalCode>): (r: seq<TerminalCode>)
    ensures forall c :: c in r <==> c in codes
    decreases |codes|
  {
    if codes == [] then []
    else
      var n := |codes| - 1;
      var init := Dedupe(codes[..n]);
      assert codes == codes[..n] + [codes[n]];
      if codes[n] in init then init else init + [codes[n]]
  }

  function Revision(calls: seq<ToolCall>): nat {
    if calls == [] then 0
    else
      var n := |calls| - 1;
      (if calls[n].actual && calls[n].execution.Some? then 1 else 0) + Revision(calls[..n])
  }

  function Build(scope: Scope, revision: nat, states: States,
                 terminal: seq<TerminalCode>, lastActual: Option<string>): Snapshot
  {
    var missing := Unsatisfied(states, RequiredByIssue(scope.issue));
    Snapshot(scope.caseId, scope.runId, scope.issue, revision, states,
             if missing == [] && !HasConflict(states) then Evaluable else NotEvaluable,
             missing, Dedupe(terminal), lastActual)
  }

  function OriginCheck(scope: Scope, st: Fold): seq<TerminalCode> {
    if scope.pending.Some? && !st.originSeen then [RetryOriginMissing] else []
  }

  function Rebuilt(scope: Scope, calls: seq<ToolCall>): Snapshot {
    var ordered := Ordered(calls);
    var st := FoldCalls(scope, ordered);
    Build(scope, Revision(ordered), st.states, st.terminal + OriginCheck(scope, st), st.lastActual)
  }

  lemma FoldPrefix(scope: Scope, calls: seq<ToolCall>, i: nat)
    requires i < |calls|
    ensures FoldCalls(scope, calls[..i + 1]) == Step(scope, FoldCalls(scope, calls[..i]), calls[i])
    ensures Revision(calls[..i + 1]) ==
            (if calls[i].actual && calls[i].execution.Some? then 1 else 0) + Revision(calls[..i])
  {
    assert calls[..i + 1][..i] == calls[..i];
  }

  /** The body of the reducer's loop: what one call does to the loop's variables. */
  method ReduceCall(scope: Scope, call: ToolCall, st: Fold)
    returns (states: States, terminal: seq<TerminalCode>, lastActual: Option<string>, originSeen: bool,
        attemptSeen: bool)
    ensures Fold(states, terminal, lastActual, originSeen, attemptSeen) == Step(scope, st, call)
  {
    states, terminal, lastActual := st.states, st.terminal, st.lastActual;
    originSeen, attemptSeen := st.originSeen, st.attemptSeen;
    if !InScope(scope, call) {
      terminal := terminal + [ToolCallScopeMismatch];
      return;
    }
    var found := RequirementOf(call.tool);
    if found == None {
      terminal := terminal + [UnknownTool];
      return;
    }
    var code := found.value;
    if call.actual && call.callId != "" {
      lastActual := Some(call.callId);
    }
    if Registry(scope.issue, code) == NotRequired {
      terminal := terminal + [IrrelevantTool(call.tool)];
      return;
    }
    var current := states.Get(code);
    if scope.pending.Some? && scope.pending.value.retryOf == call.callId {
      originSeen := true;
      if !IsRetryOrigin(scope.pending.value, call) {
        states := states.Set(code, current.(status := Conflict));
        terminal := terminal + [RetryIdentityConflict];
        return;
      }
    } else if scope.pending.Some? && originSeen && !attemptSeen {
      if call.actual {
        if !IsExactRetry(scope.pending.value, call) {
          states := states.Set(code, current.(status := Conflict));
          terminal := terminal + [RetryIdentityConflict];
          return;
        }
        attemptSeen := true;
      }
    }
    var settled := Settle(scope, call, current);
    states, terminal := states.Set(code, settled.progress), terminal + settled.reasons;
  }

  /** The reducer's own loop, proved to compute `Rebuilt`. */
  method Rebuild(scope: Scope, calls: seq<ToolCall>) returns (snapshot: Snapshot)
    ensures snapshot == Rebuilt(scope, calls)
  {
    var states := InitialStates(scope.issue);
    var terminal: seq<TerminalCode> := [];
    var lastActual: Option<string> := None;
    var originSeen, attemptSeen := false, false;
    var revision := 0;
    var ordered := Ordered(calls);
    for i := 0 to |ordered|
      invariant Fold(states, terminal, lastActual, originSeen, attemptSeen) == FoldCalls(scope, ordered[..i])
      invariant revision == Revision(ordered[..i])
    {
      FoldPrefix(scope, ordered, i);
      states, terminal, lastActual, originSeen, attemptSeen :=
        ReduceCall(scope, ordered[i], Fold(states, terminal, lastActual, originSeen, attemptSeen));
      if ordered[i].actual && ordered[i].execution.Some? {
        revision := revision + 1;
      }
    }
    assert ordered[..|ordered|] == ordered;
    ghost var st := FoldCalls(scope, ordered);
    if scope.pending.Some? && !originSeen {
      terminal := terminal + [RetryOriginMissing];
    }
    assert terminal == st.terminal + OriginCheck(scope, st);
    snapshot := Build(scope, revision, states, terminal, lastActual);
  }
}
