/** What a pass charges, runs and records, and what becomes of each candidate. */
module InvestigationAccounts {
  import opened Options
  import opened EvidenceProgress
  import opened ObservationPolicy
  import opened Investigation
  import opened InvestigationBounds
  import opened InvestigationRetry
  import opened InvestigationStops

  // ---------- What a pass charges ----------

  function Larger(a: nat, b: nat): nat {
    if a < b then b else a
  }

  /** Everything a pass that began with `start` has charged to its budget. */
  ghost predicate Charged(start: Session, p: Pass) {
    var b := p.session.budget;
    && b.caseTurns == start.budget.caseTurns + p.selectorTurns && b.caseTurns <= Larger(16, start.budget.caseTurns)
    && b.runTurns == start.budget.runTurns + p.selectorTurns && b.runTurns <= Larger(8, start.budget.runTurns)
    && |start.records| <= |p.session.records|
    && p.session.records[..|start.records|] == start.records
    && b.readCount == start.budget.readCount + ActualExecutions(p.session.records[|start.records|..])
    && b.readCount <= Larger(6, start.budget.readCount)
  }

  lemma {:induction false} ActualExecutionsSnoc(records: seq<ToolCall>, record: ToolCall)
    ensures ActualExecutions(records + [record]) == ActualExecutions(records) + One(record.actual)
  {
    if records != [] {
      ActualExecutionsSnoc(records[1..], record);
      assert (records + [record])[1..] == records[1..] + [record];
    }
  }

  lemma ExecuteIsCharged(config: Config, s: Session, callId: string, tool: ToolName, arguments: Arguments,
      offered: Report, at: int)
    ensures var s' := Execute(config, s, callId, tool, arguments, offered, at);
      && |s'.records| == |s.records| + 1 && s'.records[..|s.records|] == s.records
      && s'.budget.caseTurns == s.budget.caseTurns && s'.budget.runTurns == s.budget.runTurns
      && s'.budget.readCount == s.budget.readCount + One(s'.records[|s.records|].actual)
      && (s'.records[|s.records|].actual ==> s.budget.readCount < MAX_READS)
  {
    hide Execute, Rebuilt, RefsFrom;
    ExecuteShape(config, s, callId, tool, arguments, offered, at);
  }

  /** What a visit leaves alone or charges. */
  ghost predicate ChargedOnce(p: Pass, p': Pass) {
    var s, s', turns := p.session, p'.session, p'.selectorTurns - p.selectorTurns;
    && 0 <= turns <= 1
    && s'.budget.caseTurns == s.budget.caseTurns + turns && s'.budget.runTurns == s.budget.runTurns + turns
    && (turns == 1 ==> s.budget.caseTurns < MAX_CASE_TURNS && s.budget.runTurns < MAX_RUN_TURNS)
    && (|| (s'.records == s.records && s'.budget.readCount == s.budget.readCount)
        || (&& |s'.records| == |s.records| + 1 && s'.records[..|s.records|] == s.records
            && s'.budget.readCount == s.budget.readCount + One(s'.records[|s.records|].actual)
            && (s'.records[|s.records|].actual ==> s.budget.readCount < MAX_READS)))
  }

  lemma VisitIsCharged(config: Config, p: Pass, turn: Turn)
    ensures ChargedOnce(p, Advance(config, p, turn))
  {
    hide Execute, SelectObservation, MustStop;
    if p.ending == None {
      var (s, pre) := BeforeSelector(config, p.session, turn.currentSource);
      match pre
      case RepeatExactly(d) => ExecuteIsCharged(config, s, turn.callId, d.tool, d.arguments, turn.report, turn.at);
      case Stop =>
      case Proceed =>
        var counted := s.(budget := s.budget.(caseTurns := s.budget.caseTurns + 1, runTurns := s.budget.runTurns + 1));
        var (chosen, choice) := SelectObservation(config, counted, turn.candidate);
        SelectionChargesNothing(config, counted, turn.candidate);
        if choice.RunTool? {
          ExecuteIsCharged(config, chosen, turn.callId, choice.observation.tool.GetOr(UnregisteredTool("")),
            choice.observation.arguments, turn.report, turn.at);
        }
    }
  }

  lemma SelectionChargesNothing(config: Config, s: Session, candidate: Option<RawCandidate>)
    ensures var (s', _) := SelectObservation(config, s, candidate); s'.budget == s.budget && s'.records == s.records
  {
    hide Validate, ContextOf;
  }

  /**
   Conservation of the budgets: over every pass the planning turns charged are exactly its selector
   turns and the reads charged are exactly the actual calls it added to the history; no limit is passed
   that was not passed already, and the history it began with is kept.
   */
  lemma {:induction false} BudgetsAreCharged(config: Config, start: Session, turns: seq<Turn>)
    ensures Charged(start, Run(config, NewPass(start), turns))
    decreases |turns|
  {
    hide Advance;
    if turns != [] {
      var n := |turns| - 1;
      BudgetsAreCharged(config, start, turns[..n]);
      var p := Run(config, NewPass(start), turns[..n]);
      VisitIsCharged(config, p, turns[n]);
      ChargedOnceMore(start, p, Advance(config, p, turns[n]));
    }
  }

  lemma ChargedOnceMore(start: Session, p: Pass, p': Pass)
    requires Charged(start, p) && ChargedOnce(p, p')
    ensures Charged(start, p')
  {
    var k, records := |start.records|, p.session.records;
    if |p'.session.records| > |records| {
      var record := p'.session.records[|records|];
      assert p'.session.records[k..] == records[k..] + [record];
      ActualExecutionsSnoc(records[k..], record);
    }
  }

  // ---------- Decisions ----------

  ghost predicate DistinctDecisions(s: Session) {
    forall i, j :: 0 <= i < j < |s.priorFingerprints| ==> s.priorFingerprints[i] != s.priorFingerprints[j]
  }

  /** No decision (same action, tool, arguments and addresses on the same progress) is accepted twice in a pass. */
  lemma {:induction false} NoDecisionTwice(config: Config, start: Session, turns: seq<Turn>)
    requires start.priorFingerprints == []
    ensures DistinctDecisions(Run(config, NewPass(start), turns).session)
    decreases |turns|
  {
    hide Advance;
    if turns != [] {
      var n := |turns| - 1;
      NoDecisionTwice(config, start, turns[..n]);
      DecisionIsNew(config, Run(config, NewPass(start), turns[..n]), turns[n]);
    }
  }

  lemma DecisionIsNew(config: Config, p: Pass, turn: Turn)
    requires DistinctDecisions(p.session)
    ensures DistinctDecisions(Advance(config, p, turn).session)
  {
    hide Execute, SelectObservation, MustStop, Rebuilt;
    if p.ending == None {
      var (s, pre) := BeforeSelector(config, p.session, turn.currentSource);
      match pre
      case RepeatExactly(d) => ExecuteShape(config, s, turn.callId, d.tool, d.arguments, turn.report, turn.at);
      case Stop =>
      case Proceed =>
        var counted := s.(budget := s.budget.(caseTurns := s.budget.caseTurns + 1, runTurns := s.budget.runTurns + 1));
        var (chosen, choice) := SelectObservation(config, counted, turn.candidate);
        SelectedIsNew(config, counted, turn.candidate);
        if choice.RunTool? {
          ExecuteShape(config, chosen, turn.callId, choice.observation.tool.GetOr(UnregisteredTool("")),
            choice.observation.arguments, turn.report, turn.at);
        }
    }
  }

  lemma SelectedIsNew(config: Config, s: Session, candidate: Option<RawCandidate>)
    requires DistinctDecisions(s)
    ensures DistinctDecisions(SelectObservation(config, s, candidate).0)
  {
  }

  // ---------- What a visit runs and records ----------

  /** The read the budget still admits: the source was not asked, or was asked within the limit. */
  predicate Admitted(p: Pass, turn: Turn) {
    turn.report.actual ==> p.session.budget.readCount < 6
  }

  /** The call on record for a report: as the source answered, or a refusal that never reached it. */
  ghost predicate RecordsReport(call: ToolCall, turn: Turn, admitted: bool) {
    && call.callId == turn.callId && call.caseId == None && call.runId == None
    && call.requestedAt == Some(turn.at) && call.sourceVersion == Some(turn.report.sourceVersion)
    && call.resultHash == call.envelopeHash == Some(turn.report.result.resultHash)
    && (call.actual <==> turn.report.actual && admitted)
    && (call.execution == Some(Success) <==> turn.report.result.Answered? && admitted)
    && (call.execution == Some(RetryableError) <==>
          turn.report.result.Failed? && turn.report.result.retryable && admitted)
    && call.execution.Some?
    && (call.availability == Some(Unavailable) <==> call.execution != Some(Success))
    && (call.execution == Some(Success) ==>
          call.availability == Some(if turn.report.result.present then Present else Absent))
  }

  /** The references an answer binds: one for each record it names, or one for the query as a whole. */
  ghost predicate BindsAnswer(refs: seq<EvidenceRef>, turn: Turn, admitted: bool) {
    var result := turn.report.result;
    if !result.Answered? || !admitted then refs == []
    else
      && (forall ref :: ref in refs ==>
            ref.callId == turn.callId && ref.queryId == result.queryId && ref.resultHash == result.resultHash)
      && (result.recordIds == [] ==> |refs| == 1 && refs[0].recordId == None)
      && (result.recordIds != [] ==>
            && |refs| == |result.recordIds|
            && forall i :: 0 <= i < |refs| ==> refs[i].recordId == Some(result.recordIds[i]))
  }

  lemma ExecuteRecordsReport(config: Config, p: Pass, s: Session, tool: ToolName, arguments: Arguments, turn: Turn)
    requires s.budget.readCount == p.session.budget.readCount
    ensures var s' := Execute(config, s, turn.callId, tool, arguments, turn.report, turn.at);
      && s'.records[..|s.records|] == s.records && |s'.records| == |s.records| + 1
      && |s'.refs| >= |s.refs| && s'.refs[..|s.refs|] == s.refs
      && (var call := s'.records[|s.records|];
          && RecordsReport(call, turn, Admitted(p, turn))
          && call.tool == tool && call.arguments == Some(arguments)
          && call.attempt == AttemptsIn(s.attempts, tool) + 1)
      && BindsAnswer(s'.refs[|s.refs|..], turn, Admitted(p, turn))
  {
    hide Execute, Rebuilt;
    ExecuteShape(config, s, turn.callId, tool, arguments, turn.report, turn.at);
    var s' := Execute(config, s, turn.callId, tool, arguments, turn.report, turn.at);
    assert s'.refs[|s.refs|..] == RefsFrom(turn.callId, Govern(turn.report, s.budget.readCount).result);
  }

  /**
   A visit that executes adds one record and its references: the call as it was made and numbered, and
   what its source reported of it, unless the read would have exceeded its budget and was refused.
   */
  lemma VisitRecordsTheReport(config: Config, p: Pass, turn: Turn)
    requires p.ending == None && ExecutesMore(p, Advance(config, p, turn))
    ensures var p', n, k := Advance(config, p, turn), |p.session.records|, |p.session.refs|;
      && |p'.session.records| == n + 1 && p'.session.records[..n] == p.session.records
      && |p'.session.refs| >= k && p'.session.refs[..k] == p.session.refs
      && RecordsReport(p'.session.records[n], turn, Admitted(p, turn))
      && BindsAnswer(p'.session.refs[k..], turn, Admitted(p, turn))
      && p'.session.records[n].tool == p'.executed[|p.executed|].tool
      && p'.session.records[n].arguments == Some(p'.executed[|p.executed|].arguments)
      && p'.session.records[n].attempt == p'.executed[|p.executed|].attempt
  {
    hide Execute, Rebuilt, SelectObservation, MustStop, RecordsReport, BindsAnswer, Admitted;
    var (before, pre) := BeforeSelector(config, p.session, turn.currentSource);
    if pre.RepeatExactly? {
      var d := pre.directive;
      ExecuteRecordsReport(config, p, before, d.tool, d.arguments, turn);
    } else {
      var counted := before.(budget := before.budget.(
        caseTurns := before.budget.caseTurns + 1, runTurns := before.budget.runTurns + 1));
      ChosenToolKeepsSession(config, counted, turn.candidate);
      var (chosen, choice) := SelectObservation(config, counted, turn.candidate);
      ExecuteRecordsReport(config, p, chosen, choice.observation.tool.GetOr(UnregisteredTool("")),
                           choice.observation.arguments, turn);
    }
  }

  /**
   What a selector turn runs is the tool its candidate named, if the candidate is well shaped and the
   tool's requirement is relevant, addressed and open; the arguments are those of the trusted scope.
   */
  lemma VisitRunsTheCandidate(config: Config, p: Pass, turn: Turn)
    requires config.enforceExactRetry && p.ending == None && ExecutesMore(p, Advance(config, p, turn))
    requires !Advance(config, p, turn).executed[|p.executed|].isRetry
    ensures turn.candidate.Some? && WellShaped(turn.candidate.value) && turn.candidate.value.action == CallTool
    ensures OpenRead(turn.candidate.value, ContextOf(config, p.session)) && p.session.pending == None
    ensures var call := Advance(config, p, turn).executed[|p.executed|];
      && Some(call.tool) == turn.candidate.value.tool
      && call.arguments == CanonicalArguments(config.trusted.orderId, config.trusted.issue, call.tool)
  {
    hide Execute, Rebuilt, SelectObservation, MustStop;
    var (before, pre) := BeforeSelector(config, p.session, turn.currentSource);
    var counted := before.(budget := before.budget.(
      caseTurns := before.budget.caseTurns + 1, runTurns := before.budget.runTurns + 1));
    var (chosen, choice) := SelectObservation(config, counted, turn.candidate);
    ChosenIsTheCandidate(config, counted, turn.candidate);
  }

  lemma ChosenIsTheCandidate(config: Config, s: Session, candidate: Option<RawCandidate>)
    requires config.enforceExactRetry
    ensures var (s', choice) := SelectObservation(config, s, candidate);
      choice.RunTool? ==>
        && candidate.Some? && WellShaped(candidate.value) && candidate.value.action == CallTool
        && OpenRead(candidate.value, ContextOf(config, s)) && s.pending == None
        && choice.observation.tool == candidate.value.tool
        && choice.observation.arguments
            == CanonicalArguments(config.trusted.orderId, config.trusted.issue, candidate.value.tool.value)
  {
    hide OpenRead, ToolRejection;
    var namesTool := candidate.Some? && WellShaped(candidate.value) && candidate.value.tool.Some?;
    var gateReady := if !namesTool && s.issueRevisionTerminal then Some(true) else None;
    if candidate.Some? && WellShaped(candidate.value) && candidate.value.action == CallTool {
      ReadableExactly(candidate.value, ContextOf(config, s));
    }
  }

  // ---------- What becomes of a candidate ----------

  /** The decision was accepted before, on the same progress. */
  predicate Repeats(config: Config, s: Session, c: RawCandidate) {
    exists f :: f in s.priorFingerprints && f.action == c.action && f.tool == c.tool && f.addresses == c.addresses
      && f.progress == s.progress
      && f.arguments == if c.tool == None then map[]
                        else CanonicalArguments(config.trusted.orderId, config.trusted.issue, c.tool.value)
  }

  /** The candidate asks for what progress allows: an open read, or to finish when the gate is open. */
  predicate Allowed(config: Config, s: Session, c: RawCandidate) {
    if c.action == Finish then s.issueRevisionTerminal || s.progress.readiness == Evaluable
    else OpenRead(c, ContextOf(config, s))
  }

  predicate MayTry(config: Config, s: Session) {
    (config.enforceExactRetry ==> s.pending == None) && s.budget.caseTurns < 16 && s.budget.runTurns < 8
  }

  /**
   Exactly what becomes of a candidate. It runs or finishes if the turn may be taken, it asks for what
   progress allows and it is no repetition; a malformed candidate, a premature finish and a repetition
   draw the pass's one correction, if it is left; everything else ends the pass.
   */
  lemma SelectionExactly(config: Config, s: Session, candidate: Option<RawCandidate>)
    requires |s.priorFingerprints| <= 8
    ensures var choice := SelectObservation(config, s, candidate).1;
      var shaped := candidate.Some? && WellShaped(candidate.value);
      && (choice.RunTool? <==>
            && shaped && MayTry(config, s) && Allowed(config, s, candidate.value)
            && !Repeats(config, s, candidate.value) && candidate.value.action == CallTool)
      && (choice == Finished <==>
            && shaped && MayTry(config, s) && Allowed(config, s, candidate.value)
            && !Repeats(config, s, candidate.value) && candidate.value.action == Finish)
      && (choice == Correct <==>
            && !s.corrected
            && (!shaped
                || (&& MayTry(config, s)
                    && if candidate.value.action == Finish && !Allowed(config, s, candidate.value) then true
                       else Allowed(config, s, candidate.value) && Repeats(config, s, candidate.value))))
      && choice != Crash
  {
    hide OpenRead, ToolRejection, CanonicalArguments;
    if candidate.Some? && WellShaped(candidate.value) && candidate.value.action == CallTool {
      ReadableExactly(candidate.value, ContextOf(config, s));
      NotCorrectable(ContextOf(config, s), candidate.value.tool.value, candidate.value.addresses);
    }
  }

  lemma NotCorrectable(context: DecisionContext, tool: ToolName, addresses: seq<Requirement>)
    ensures var code := ToolRejection(context, tool, addresses); code.Some? ==> !Correctable(code.value)
  {
  }
}
