/** Termination of an investigation pass, with its bounds, whatever the selector and the sources do. */
module InvestigationBounds {
  import opened Options
  import opened EvidenceProgress
  import opened EvidenceProperties
  import opened ObservationPolicy
  import opened Investigation

  // ---------- What is still open ----------

  predicate IsOpen(issue: Issue, states: States, code: Requirement) {
    Registry(issue, code) != NotRequired && states.Get(code).status == Missing
  }

  function One(b: bool): nat {
    if b then 1 else 0
  }

  /** Relevant requirements that nothing has read yet. */
  function OpenCount(issue: Issue, states: States): nat {
    One(IsOpen(issue, states, OrderStatus)) + One(IsOpen(issue, states, TrackingTimeline))
    + One(IsOpen(issue, states, DeliveryProof)) + One(IsOpen(issue, states, PolicyApplicability))
    + One(IsOpen(issue, states, ActiveTicketStatus)) + One(IsOpen(issue, states, CarrierAlertContext))
  }

  function Open(config: Config, s: Session): nat {
    OpenCount(config.trusted.issue, s.progress.requirements)
  }

  /** Each issue leaves one of the six requirements out. */
  lemma OpenAtMostFive(issue: Issue, states: States)
    ensures OpenCount(issue, states) <= 5
  {
    assert Registry(SignedNotReceived, CarrierAlertContext) == NotRequired;
    assert Registry(StalledTracking, DeliveryProof) == NotRequired;
  }

  lemma OpenCountDrops(issue: Issue, before: States, after: States, code: Requirement)
    requires forall c :: c != code ==> IsOpen(issue, after, c) == IsOpen(issue, before, c)
    requires IsOpen(issue, before, code) && !IsOpen(issue, after, code)
    ensures OpenCount(issue, after) + 1 == OpenCount(issue, before)
  {
    hide IsOpen;
  }

  lemma OpenCountNeverGrows(issue: Issue, before: States, after: States)
    requires forall c :: IsOpen(issue, after, c) ==> IsOpen(issue, before, c)
    ensures OpenCount(issue, after) <= OpenCount(issue, before)
  {
    hide IsOpen;
  }

  // ---------- Session invariant ----------

  /** The session's progress is the one its own history rebuilds to. */
  ghost predicate Coherent(config: Config, s: Session) {
    s.progress == Rebuilt(ScopeOf(config, s.refs, s.pending), s.records)
  }

  ghost predicate SessionInv(config: Config, s: Session) {
    && Coherent(config, s)
    && (forall tool :: AttemptsIn(s.attempts, tool) >= 0)
    && (s.pending.Some? ==> AttemptsIn(s.attempts, s.pending.value.tool) >= 1)
  }

  lemma {:induction false} AttemptsCover(records: seq<ToolCall>, tool: ToolName)
    ensures AttemptsIn(AttemptsOf(records), tool) >= 0
    ensures forall r :: r in records && r.tool == tool ==> AttemptsIn(AttemptsOf(records), tool) >= r.attempt
    decreases |records|
  {
    if records != [] {
      var n := |records| - 1;
      AttemptsCover(records[..n], tool);
      assert forall r :: r in records ==> r in records[..n] || r == records[n];
    }
  }

  lemma StartIsSound(config: Config, records: seq<ToolCall>, refs: seq<EvidenceRef>, budget: Budget)
    ensures SessionInv(config, Start(config, records, refs, budget))
  {
    forall tool ensures AttemptsIn(AttemptsOf(records), tool) >= 0 {
      AttemptsCover(records, tool);
    }
    if records != [] {
      AttemptsCover(records, records[|records| - 1].tool);
      assert records[|records| - 1] in records;
    }
  }

  // ---------- One execution ----------

  lemma WasReadOnceMore(scope: Scope, scope': Scope, records: seq<ToolCall>, record: ToolCall, code: Requirement)
    requires scope'.caseId == scope.caseId && scope'.runId == scope.runId && InScope(scope, record)
    ensures WasRead(scope', records + [record], code) <==> WasRead(scope, records, code) || record.tool == ToolFor(code)
  {
    assert forall c :: c in records + [record] <==> c in records || c == record;
    if record.tool == ToolFor(code) {
      assert record in records + [record];
    }
  }

  lemma ReadOnceMore(scope: Scope, scope': Scope, records: seq<ToolCall>, record: ToolCall, code: Requirement)
    requires scope'.caseId == scope.caseId && scope'.runId == scope.runId && scope'.issue == scope.issue
    requires InScope(scope, record)
    ensures IsOpen(scope.issue, Rebuilt(scope', records + [record]).requirements, code) <==>
      (IsOpen(scope.issue, Rebuilt(scope, records).requirements, code) && record.tool != ToolFor(code))
  {
    assert Rebuilt(scope, records).requirements.Get(code).status == Missing <==>
      Registry(scope.issue, code) == NotRequired || !WasRead(scope, records, code) by {
      MissingInSnapshot(scope, records, code);
    }
    assert Rebuilt(scope', records + [record]).requirements.Get(code).status == Missing <==>
      Registry(scope.issue, code) == NotRequired || !WasRead(scope', records + [record], code) by {
      MissingInSnapshot(scope', records + [record], code);
    }
    WasReadOnceMore(scope, scope', records, record, code);
  }

  /** What a result changes of the coordinator's state, apart from the flags that end a pass. */
  lemma OnToolResultShape(config: Config, s: Session, record: ToolCall, report: Report, refs: seq<EvidenceRef>)
    ensures var s' := OnToolResult(config, s, record, report, refs);
      && s'.records == s.records + [record]
      && s'.refs == s.refs + refs
      && s'.pending == PendingAfter(config, s, record, report)
      && s'.progress == Rebuilt(ScopeOf(config, s'.refs, s'.pending), s'.records)
      && s'.attempts == s.attempts && s'.budget == s.budget
      && s'.priorFingerprints == s.priorFingerprints && s'.corrected == s.corrected
  {
    hide Rebuilt, RouteAfter, AdjustedRoute, ReasonAfter, PendingAfter, EarlyStopAfter;
  }

  function ExecutedRecord(s: Session, callId: string, tool: ToolName, arguments: Arguments, offered: Report,
      at: int): ToolCall {
    RecordOf(callId, tool, arguments, AttemptsIn(s.attempts, tool) + 1, Govern(offered, s.budget.readCount), at)
  }

  lemma ExecuteShape(config: Config, s: Session, callId: string, tool: ToolName, arguments: Arguments,
      offered: Report, at: int)
    ensures var s' := Execute(config, s, callId, tool, arguments, offered, at);
      var record := ExecutedRecord(s, callId, tool, arguments, offered, at);
      var report := Govern(offered, s.budget.readCount);
      && s'.records == s.records + [record]
      && s'.refs == s.refs + RefsFrom(callId, report.result)
      && s'.pending == PendingAfter(config, s, record, report)
      && s'.progress == Rebuilt(ScopeOf(config, s'.refs, s'.pending), s'.records)
      && s'.attempts == s.attempts[tool := AttemptsIn(s.attempts, tool) + 1]
      && s'.budget.caseTurns == s.budget.caseTurns && s'.budget.runTurns == s.budget.runTurns
      && s'.budget.readCount == s.budget.readCount + One(report.actual)
      && s'.priorFingerprints == s.priorFingerprints && s'.corrected == s.corrected
  {
    hide OnToolResult, Rebuilt, RefsFrom, Govern, IssueExactRetry;
    var report := Govern(offered, s.budget.readCount);
    var attempt := AttemptsIn(s.attempts, tool) + 1;
    var counted := s.(
      budget := if report.actual then s.budget.(readCount := s.budget.readCount + 1) else s.budget,
      attempts := s.attempts[tool := attempt]);
    assert Execute(config, s, callId, tool, arguments, offered, at)
        == OnToolResult(config, counted, ExecutedRecord(s, callId, tool, arguments, offered, at), report,
            RefsFrom(callId, report.result));
    OnToolResultShape(config, counted, ExecutedRecord(s, callId, tool, arguments, offered, at), report,
        RefsFrom(callId, report.result));
  }

  /** The parts of an execution's effect that the bounds rest on. */
  lemma ExecuteEffect(config: Config, s: Session, callId: string, tool: ToolName, arguments: Arguments,
      offered: Report, at: int)
    requires SessionInv(config, s)
    ensures var s' := Execute(config, s, callId, tool, arguments, offered, at);
      && SessionInv(config, s')
      && s'.priorFingerprints == s.priorFingerprints && s'.corrected == s.corrected
      && (s.pending.Some? && s.pending.value.tool == tool ==> s'.pending == None)
  {
    hide Execute, Rebuilt, RefsFrom, Govern;
    ExecuteShape(config, s, callId, tool, arguments, offered, at);
    var s' := Execute(config, s, callId, tool, arguments, offered, at);
    forall t ensures AttemptsIn(s'.attempts, t) == AttemptsIn(s.attempts, t) + One(t == tool) {
    }
    assert s'.pending.Some? ==> s'.pending == s.pending || s'.pending.value.tool == tool;
  }

  /** An execution reads exactly its own tool's requirement. */
  lemma ExecuteReads(config: Config, s: Session, callId: string, tool: ToolName, arguments: Arguments,
      offered: Report, at: int)
    requires SessionInv(config, s)
    ensures var s' := Execute(config, s, callId, tool, arguments, offered, at);
      forall code :: IsOpen(config.trusted.issue, s'.progress.requirements, code) <==>
        (IsOpen(config.trusted.issue, s.progress.requirements, code) && tool != ToolFor(code))
  {
    hide Execute, Rebuilt, RefsFrom, Govern, PendingAfter, IsOpen;
    ExecuteShape(config, s, callId, tool, arguments, offered, at);
    var s' := Execute(config, s, callId, tool, arguments, offered, at);
    var record := ExecutedRecord(s, callId, tool, arguments, offered, at);
    forall code ensures IsOpen(config.trusted.issue, s'.progress.requirements, code) <==>
      (IsOpen(config.trusted.issue, s.progress.requirements, code) && tool != ToolFor(code))
    {
      ReadOnceMore(ScopeOf(config, s.refs, s.pending), ScopeOf(config, s'.refs, s'.pending), s.records, record, code);
    }
  }

  // ---------- The selector turn ----------

  /** An accepted observation is the candidate's own; a tool call among them reads an unread requirement. */
  lemma AcceptedReadsOpen(config: Config, s: Session, candidate: Option<RawCandidate>, gateReady: Option<bool>)
    requires SessionInv(config, s)
    requires Validate(candidate, ContextOf(config, s), config.trusted, s.pending, gateReady).Accepted?
    ensures var observation := Validate(candidate, ContextOf(config, s), config.trusted, s.pending,
        gateReady).observation;
      && s.pending == None
      && observation.tool.Some? == (observation.action == CallTool)
      && (observation.action == CallTool ==>
            exists code :: observation.tool == Some(ToolFor(code))
                && IsOpen(config.trusted.issue, s.progress.requirements, code))
  {
    hide Rebuilt;
    var c := candidate.value;
    if c.action == CallTool {
      ReadableExactly(c, ContextOf(config, s));
      var code := RequirementOf(c.tool.value).value;
      assert Rebuilt(ScopeOf(config, s.refs, None), s.records).requirements.Get(code).status != RetryPending by {
        NothingAwaitsRetry(config, s, code);
      }
      assert c.tool == Some(ToolFor(code));
    }
  }

  lemma NothingAwaitsRetry(config: Config, s: Session, code: Requirement)
    ensures Rebuilt(ScopeOf(config, s.refs, None), s.records).requirements.Get(code).status != RetryPending
  {
    NoDirectiveNoRetryPending(ScopeOf(config, s.refs, None), Ordered(s.records), code);
  }

  lemma SelectEffect(config: Config, s: Session, candidate: Option<RawCandidate>)
    requires SessionInv(config, s) && config.enforceExactRetry && |s.priorFingerprints| <= MAX_FINGERPRINTS
    ensures var (s', choice) := SelectObservation(config, s, candidate);
      && choice != Crash
      && SessionInv(config, s')
      && s'.progress == s.progress && s'.pending == s.pending
      && (choice.RunTool? ==>
            && choice.observation.tool.Some? && s.pending == None && s'.corrected == s.corrected
            && (exists code :: choice.observation.tool == Some(ToolFor(code))
                 && IsOpen(config.trusted.issue, s.progress.requirements, code)))
      && (choice == Correct ==> !s.corrected && s'.corrected)
      && |s'.priorFingerprints| == |s.priorFingerprints| + (if choice.RunTool? || choice == Finished then 1 else 0)
  {
    hide Rebuilt, Validate, IsOpen, ContextOf;
    var namesTool := candidate.Some? && WellShaped(candidate.value) && candidate.value.tool.Some?;
    var gateReady := if !namesTool && s.issueRevisionTerminal then Some(true) else None;
    if Validate(candidate, ContextOf(config, s), config.trusted, s.pending, gateReady).Accepted? {
      AcceptedReadsOpen(config, s, candidate, gateReady);
    }
  }

  // ---------- The pass ----------

  /**
   Accounting of a pass that began with `open` unread requirements: every selector turn that did not
   end the pass either read one of them or was the one correction.
   */
  ghost predicate PassInv(config: Config, p: Pass, open: nat) {
    if p.ending == None then
      && SessionInv(config, p.session)
      && p.planningTurns == p.selectorTurns
      && p.selectorTurns + Open(config, p.session) <= open + One(p.session.corrected)
      && |p.session.priorFingerprints| + Open(config, p.session) <= open
    else
      && p.selectorTurns <= open + 2
      && p.planningTurns <= p.selectorTurns
      && |p.session.priorFingerprints| <= open + 1
      && p.ending != Some(GraphTurnLimit) && p.ending != Some(ContextOverflow)
  }

  /**
   Graph visits left: two for each unread requirement (its read and its retry), one for a retry or
   correction outstanding.
   */
  function Fuel(config: Config, p: Pass): nat {
    if p.ending.Some? then 0
    else 1 + 2 * Open(config, p.session) + One(p.session.pending.Some?) + One(!p.session.corrected)
  }

  lemma AdvanceRepeats(config: Config, p: Pass, turn: Turn, open: nat)
    requires PassInv(config, p, open) && p.ending == None && open <= 5
    requires BeforeSelector(config, p.session, turn.currentSource).1.RepeatExactly?
    ensures PassInv(config, Advance(config, p, turn), open)
    ensures Fuel(config, Advance(config, p, turn)) < Fuel(config, p)
  {
    hide Execute, Rebuilt, MustStop, IsOpen;
    var (s, pre) := BeforeSelector(config, p.session, turn.currentSource);
    ExecuteEffect(config, s, turn.callId, pre.directive.tool, pre.directive.arguments, turn.report, turn.at);
    ExecuteReads(config, s, turn.callId, pre.directive.tool, pre.directive.arguments, turn.report, turn.at);
    var s' := Execute(config, s, turn.callId, pre.directive.tool, pre.directive.arguments, turn.report, turn.at);
    assert Open(config, s') <= Open(config, s) by {
      OpenCountNeverGrows(config.trusted.issue, s.progress.requirements, s'.progress.requirements);
    }
  }

  lemma ReadLowersOpen(config: Config, s: Session, turn: Turn, tool: ToolName, arguments: Arguments, code: Requirement)
    requires SessionInv(config, s) && tool == ToolFor(code)
        && IsOpen(config.trusted.issue, s.progress.requirements, code)
    ensures var s' := Execute(config, s, turn.callId, tool, arguments, turn.report, turn.at);
      && SessionInv(config, s') && Open(config, s') + 1 == Open(config, s)
      && s'.priorFingerprints == s.priorFingerprints && s'.corrected == s.corrected
  {
    hide Execute, Rebuilt, IsOpen, OpenCount;
    ExecuteEffect(config, s, turn.callId, tool, arguments, turn.report, turn.at);
    ExecuteReads(config, s, turn.callId, tool, arguments, turn.report, turn.at);
    var s' := Execute(config, s, turn.callId, tool, arguments, turn.report, turn.at);
    OpenCountDrops(config.trusted.issue, s.progress.requirements, s'.progress.requirements, code);
  }

  lemma AdvanceSelects(config: Config, p: Pass, turn: Turn, open: nat)
    requires PassInv(config, p, open) && p.ending == None && open <= 5 && config.enforceExactRetry
    requires BeforeSelector(config, p.session, turn.currentSource).1 == Proceed
    ensures PassInv(config, Advance(config, p, turn), open)
    ensures Fuel(config, Advance(config, p, turn)) < Fuel(config, p)
  {
    hide Execute, SelectObservation, Rebuilt, IsOpen, OpenCount, MustStop;
    var (s, _) := BeforeSelector(config, p.session, turn.currentSource);
    if s.budget.caseTurns < MAX_CASE_TURNS && s.budget.runTurns < MAX_RUN_TURNS {
      var counted := s.(budget := s.budget.(caseTurns := s.budget.caseTurns + 1, runTurns := s.budget.runTurns + 1));
      SelectEffect(config, counted, turn.candidate);
      var (chosen, choice) := SelectObservation(config, counted, turn.candidate);
      if choice.RunTool? {
        var tool := choice.observation.tool.value;
        var code :| tool == ToolFor(code) && IsOpen(config.trusted.issue, s.progress.requirements, code);
        ReadLowersOpen(config, chosen, turn, tool, choice.observation.arguments, code);
      }
    }
  }

  lemma AdvanceKeeps(config: Config, p: Pass, turn: Turn, open: nat)
    requires PassInv(config, p, open) && open <= 5 && config.enforceExactRetry
    ensures PassInv(config, Advance(config, p, turn), open)
    ensures p.ending == None ==> Fuel(config, Advance(config, p, turn)) < Fuel(config, p)
  {
    if p.ending == None {
      var (_, pre) := BeforeSelector(config, p.session, turn.currentSource);
      match pre
      case RepeatExactly(_) => AdvanceRepeats(config, p, turn, open);
      case Stop =>
      case Proceed => AdvanceSelects(config, p, turn, open);
    }
  }

  lemma {:induction false} RunKeeps(config: Config, session: Session, turns: seq<Turn>)
    requires SessionInv(config, session) && session.priorFingerprints == [] && config.enforceExactRetry
    ensures PassInv(config, Run(config, NewPass(session), turns), Open(config, session))
    ensures Run(config, NewPass(session), turns).ending == None ==>
      Fuel(config, Run(config, NewPass(session), turns)) + |turns| <= Fuel(config, NewPass(session))
    decreases |turns|
  {
    hide SessionInv, OpenCount;
    OpenAtMostFive(config.trusted.issue, session.progress.requirements);
    if turns != [] {
      var n := |turns| - 1;
      RunKeeps(config, session, turns[..n]);
      AdvanceKeeps(config, Run(config, NewPass(session), turns[..n]), turns[n], Open(config, session));
    }
  }

  /**
   Termination. A pass started over any persisted history, with any budget, ends
   within 13 graph visits and 7 selector turns whatever the selector proposes and the sources answer;
   the graph's own turn-8 edge is never taken and the eight fingerprints of the context contract are
   never exceeded.
   */
  lemma {:induction false} PassTerminates(config: Config, records: seq<ToolCall>, refs: seq<EvidenceRef>,
      budget: Budget, turns: seq<Turn>)
    requires config.enforceExactRetry
    ensures var p := Run(config, NewPass(Start(config, records, refs, budget)), turns);
      && (|turns| >= 13 ==> p.ending.Some?)
      && p.selectorTurns <= 7 && p.planningTurns <= 7
      && |p.session.priorFingerprints| <= 6
      && p.ending != Some(GraphTurnLimit) && p.ending != Some(ContextOverflow)
  {
    hide Advance, Rebuilt, OpenCount;
    var session := Start(config, records, refs, budget);
    StartIsSound(config, records, refs, budget);
    OpenAtMostFive(config.trusted.issue, session.progress.requirements);
    RunKeeps(config, session, turns);
  }
}
