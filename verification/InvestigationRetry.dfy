/** Exact retry: at most one per call, adjacent to the failure it repeats, and stable under a restart. */
module InvestigationRetry {
  import opened Options
  import opened EvidenceProgress
  import opened EvidenceProperties
  import opened ObservationPolicy
  import opened Investigation
  import opened InvestigationBounds

  /** The recorded call is a first attempt that failed transiently against a named source revision. */
  predicate CallsForRetry(call: ToolCall) {
    && call.actual && call.attempt == 1
    && call.execution == Some(RetryableError) && call.availability == Some(Unavailable)
    && call.sourceVersion.Some? && call.sourceVersion.value != ""
    && call.arguments.Some? && !call.tool.UnregisteredTool?
  }

  /** A directive without the digest of the progress it was issued from. */
  datatype RetryIdentity = RetryIdentity(retryOf: string, tool: ToolName, arguments: Arguments, sourceVersion: string)

  function IdentityOf(pending: Option<RetryDirective>): Option<RetryIdentity> {
    match pending
    case None => None
    case Some(d) => Some(RetryIdentity(d.retryOf, d.tool, d.arguments, d.sourceVersion))
  }

  /** The retry identity a history calls for: that of its last record, if the record failed transiently. */
  function DueRetry(records: seq<ToolCall>): Option<RetryIdentity> {
    if records == [] || !CallsForRetry(records[|records| - 1]) then None
    else
      var last := records[|records| - 1];
      Some(RetryIdentity(last.callId, last.tool, last.arguments.value, last.sourceVersion.value))
  }

  /**
   How a record stands to the one before it: the exact second attempt of a transient failure, or
   else a first attempt.
   */
  ghost predicate Linked(records: seq<ToolCall>, j: nat)
    requires j < |records|
  {
    if j > 0 && CallsForRetry(records[j - 1]) then
      records[j].attempt == NEXT_ATTEMPT && records[j].tool == records[j - 1].tool
          && records[j].arguments == records[j - 1].arguments
    else records[j].attempt == 1
  }

  ghost predicate LinkedFrom(records: seq<ToolCall>, start: nat) {
    forall j :: start <= j < |records| ==> Linked(records, j)
  }

  /** Rows as the executor numbers them: each call is one past the highest earlier attempt of its tool. */
  ghost predicate Numbered(records: seq<ToolCall>) {
    forall j :: 0 <= j < |records| ==>
      records[j].attempt == AttemptsIn(AttemptsOf(records[..j]), records[j].tool) + 1
  }

  /** The coordinator's own records carry no case or run id: they are in scope by construction. */
  ghost predicate OwnRecords(records: seq<ToolCall>) {
    forall r :: r in records ==> r.caseId == None && r.runId == None
  }

  ghost predicate RetryInv(config: Config, s: Session) {
    && SessionInv(config, s)
    && OwnRecords(s.records)
    && s.attempts == AttemptsOf(s.records)
    && IdentityOf(s.pending) == DueRetry(s.records)
    && (s.pending.Some? ==> AttemptsIn(s.attempts, s.pending.value.tool) == 1)
  }

  lemma {:induction false} UnreadMeansNoAttempts(records: seq<ToolCall>, tool: ToolName)
    requires forall r :: r in records ==> r.tool != tool
    ensures AttemptsIn(AttemptsOf(records), tool) == 0
    decreases |records|
  {
    if records != [] {
      var n := |records| - 1;
      assert records[n] in records;
      UnreadMeansNoAttempts(records[..n], tool);
    }
  }

  lemma AttemptsSnoc(records: seq<ToolCall>, record: ToolCall)
    requires record.attempt == AttemptsIn(AttemptsOf(records), record.tool) + 1
    ensures AttemptsOf(records + [record]) == AttemptsOf(records)[record.tool := record.attempt]
  {
    assert (records + [record])[..|records|] == records;
  }

  lemma StartRetryInv(config: Config, records: seq<ToolCall>, refs: seq<EvidenceRef>, budget: Budget)
    requires OwnRecords(records) && Numbered(records)
    ensures RetryInv(config, Start(config, records, refs, budget))
  {
    hide Rebuilt, SessionInv, AttemptsOf;
    StartIsSound(config, records, refs, budget);
    if records != [] {
      LastAttempt(records);
    }
  }

  lemma LastAttempt(records: seq<ToolCall>)
    requires records != [] && Numbered(records)
    ensures var last := records[|records| - 1]; AttemptsIn(AttemptsOf(records), last.tool) == last.attempt
  {
    var n := |records| - 1;
    assert records[..n] + [records[n]] == records;
    AttemptsSnoc(records[..n], records[n]);
  }

  /** The directive after a result is exactly the one the new record calls for. */
  lemma PendingIsDue(config: Config, s: Session, callId: string, tool: ToolName, arguments: Arguments,
      offered: Report, at: int)
    requires RetryInv(config, s) && config.enforceExactRetry
    requires AttemptsIn(s.attempts, tool) >= 1 ==> s.pending.Some?
    ensures var record := ExecutedRecord(s, callId, tool, arguments, offered, at);
      IdentityOf(PendingAfter(config, s, record, Govern(offered, s.budget.readCount))) == DueRetry(s.records + [record])
  {
    hide Rebuilt, AttemptsOf;
    var record := ExecutedRecord(s, callId, tool, arguments, offered, at);
    assert (s.records + [record])[|s.records + [record]| - 1] == record;
  }

  lemma ExecuteKeepsRetryInv(config: Config, s: Session, callId: string, tool: ToolName, arguments: Arguments,
      offered: Report, at: int)
    requires RetryInv(config, s) && config.enforceExactRetry
    requires AttemptsIn(s.attempts, tool) >= 1 ==> s.pending.Some?
    ensures RetryInv(config, Execute(config, s, callId, tool, arguments, offered, at))
  {
    hide Execute, Rebuilt, Govern, RefsFrom, AttemptsOf, DueRetry;
    ExecuteShape(config, s, callId, tool, arguments, offered, at);
    ExecuteEffect(config, s, callId, tool, arguments, offered, at);
    PendingIsDue(config, s, callId, tool, arguments, offered, at);
    var record := ExecutedRecord(s, callId, tool, arguments, offered, at);
    AttemptsSnoc(s.records, record);
  }

  lemma LinkedSnoc(records: seq<ToolCall>, record: ToolCall, start: nat)
    requires LinkedFrom(records, start) && start <= |records|
    requires Linked(records + [record], |records|)
    ensures LinkedFrom(records + [record], start)
  {
    forall j | start <= j < |records + [record]| ensures Linked(records + [record], j) {
      if j < |records| {
        assert Linked(records, j);
      }
    }
  }

  /** An agent node that executes nothing. */
  ghost predicate Silent(config: Config, p: Pass, p': Pass) {
    && p'.executed == p.executed && p'.session.records == p.session.records
    && (p'.ending == None ==> RetryInv(config, p'.session))
  }

  /** An agent node that leads to one execution, recorded as the link the history called for. */
  ghost predicate Executes(config: Config, p: Pass, p': Pass, call: Executed) {
    && p'.executed == p.executed + [call]
    && RetryInv(config, p'.session)
    && |p'.session.records| == |p.session.records| + 1
    && p'.session.records[..|p.session.records|] == p.session.records
    && Linked(p'.session.records, |p.session.records|)
  }

  lemma RunInGraphLinks(config: Config, p: Pass, tool: ToolName, arguments: Arguments, isRetry: bool, turn: Turn)
    requires config.enforceExactRetry && RetryInv(config, p.session) && p.planningTurns < MAX_RUN_TURNS
    requires match p.session.pending
      case None => AttemptsIn(p.session.attempts, tool) == 0
      case Some(d) => tool == d.tool && arguments == d.arguments
    ensures Executes(config, p, RunInGraph(config, p, tool, arguments, isRetry, turn),
                     Executed(tool, arguments, AttemptsIn(p.session.attempts, tool) + 1, isRetry))
  {
    var s := p.session;
    hide Execute, Rebuilt, AttemptsOf, Govern, SessionInv;
    ExecuteKeepsRetryInv(config, s, turn.callId, tool, arguments, turn.report, turn.at);
    ExecuteShape(config, s, turn.callId, tool, arguments, turn.report, turn.at);
  }

  lemma ExecutesFrom(config: Config, q: Pass, p: Pass, p': Pass, call: Executed)
    requires Executes(config, q, p', call) && q.executed == p.executed && q.session.records == p.session.records
    ensures Executes(config, p, p', call)
  {
  }

  lemma RetryUsesUpItsDirective(config: Config, s: Session, turn: Turn)
    requires RetryInv(config, s) && s.pending.Some?
    ensures Execute(config, s, turn.callId, s.pending.value.tool, s.pending.value.arguments, turn.report,
        turn.at).pending == None
  {
    hide Execute, Rebuilt, AttemptsOf, Govern;
    ExecuteEffect(config, s, turn.callId, s.pending.value.tool, s.pending.value.arguments, turn.report, turn.at);
  }

  /** An execution is recorded under the revision its report read after it. */
  lemma RecordedRevision(config: Config, s: Session, callId: string, tool: ToolName, arguments: Arguments,
      offered: Report, at: int)
    ensures var s' := Execute(config, s, callId, tool, arguments, offered, at);
      |s'.records| == |s.records| + 1 && s'.records[|s.records|].sourceVersion == Some(offered.sourceVersion)
  {
    hide Execute, Rebuilt, AttemptsOf, RefsFrom;
    ExecuteShape(config, s, callId, tool, arguments, offered, at);
  }

  /** RetryInv does not speak of the budget, the selector's bookkeeping or the flags that end a pass. */
  lemma RetryInvIsAboutHistory(config: Config, s: Session, s': Session)
    requires RetryInv(config, s)
    requires s'.records == s.records && s'.refs == s.refs && s'.pending == s.pending
    requires s'.progress == s.progress && s'.attempts == s.attempts
    ensures RetryInv(config, s')
  {
    hide Rebuilt, AttemptsOf, DueRetry;
  }

  /** While a retry is due, the only execution an agent node can lead to is that exact retry. */
  lemma OnlyTheDueRetryRuns(config: Config, p: Pass, turn: Turn)
    requires config.enforceExactRetry && p.ending == None && RetryInv(config, p.session) && p.session.pending.Some?
    requires p.planningTurns < MAX_RUN_TURNS
    ensures var p' := Advance(config, p, turn);
      var d := p.session.pending.value;
      || Silent(config, p, p')
      || (&& Executes(config, p, p', Executed(d.tool, d.arguments, NEXT_ATTEMPT, true))
          && p'.selectorTurns == p.selectorTurns && p'.session.pending == None
          && turn.currentSource(d.tool) == d.sourceVersion && p.session.budget.readCount < MAX_READS
          && p'.session.records[|p.session.records|].sourceVersion == Some(turn.report.sourceVersion))
  {
    hide Executes, SessionInv, MustStop, SelectObservation, Execute, Rebuilt, DueRetry, AttemptsOf;
    var (s, pre) := BeforeSelector(config, p.session, turn.currentSource);
    match pre
    case RepeatExactly(d) =>
      RetryInvIsAboutHistory(config, p.session, s);
      RunInGraphLinks(config, p.(session := s), d.tool, d.arguments, true, turn);
      ExecutesFrom(config, p.(session := s), p, Advance(config, p, turn),
          Executed(d.tool, d.arguments, NEXT_ATTEMPT, true));
      RetryUsesUpItsDirective(config, s, turn);
      RecordedRevision(config, s, turn.callId, d.tool, d.arguments, turn.report, turn.at);
    case Stop =>
    case Proceed =>
      if s.budget.caseTurns < MAX_CASE_TURNS && s.budget.runTurns < MAX_RUN_TURNS {
        var counted := s.(budget := s.budget.(caseTurns := s.budget.caseTurns + 1, runTurns := s.budget.runTurns + 1));
        LockedSelection(config, counted, turn.candidate);
        SelectKeepsRecords(config, counted, turn.candidate);
        RetryInvIsAboutHistory(config, p.session, SelectObservation(config, counted, turn.candidate).0);
      }
  }

  /** Under a pending directive the selector can start no tool. */
  lemma LockedSelection(config: Config, s: Session, candidate: Option<RawCandidate>)
    requires config.enforceExactRetry && s.pending.Some?
    ensures !SelectObservation(config, s, candidate).1.RunTool?
  {
    hide Validate, ContextOf, Correctable, CountUnchanged;
    var namesTool := candidate.Some? && WellShaped(candidate.value) && candidate.value.tool.Some?;
    NoToolUnderLock(config, s, candidate, if !namesTool && s.issueRevisionTerminal then Some(true) else None);
  }

  lemma NoToolUnderLock(config: Config, s: Session, candidate: Option<RawCandidate>, gateReady: Option<bool>)
    requires s.pending.Some?
    ensures Validate(candidate, ContextOf(config, s), config.trusted, s.pending, gateReady).Accepted? ==>
      Validate(candidate, ContextOf(config, s), config.trusted, s.pending, gateReady).observation.action == Finish
  {
  }

  /** With no retry due, an agent node leads to at most a first attempt. */
  lemma WithoutDueRetryFirstAttempts(config: Config, p: Pass, turn: Turn)
    requires config.enforceExactRetry && p.ending == None && RetryInv(config, p.session) && p.session.pending == None
    requires p.planningTurns < MAX_RUN_TURNS && |p.session.priorFingerprints| <= MAX_FINGERPRINTS
    ensures var p' := Advance(config, p, turn);
      || Silent(config, p, p')
      || exists call :: Executes(config, p, p', call) && call.attempt == 1 && !call.isRetry
  {
    hide Executes, SessionInv, MustStop, SelectObservation, Execute, Rebuilt, DueRetry, AttemptsOf, IsOpen;
    var (s, pre) := BeforeSelector(config, p.session, turn.currentSource);
    RetryInvIsAboutHistory(config, p.session, s);
    if pre == Proceed && s.budget.caseTurns < MAX_CASE_TURNS && s.budget.runTurns < MAX_RUN_TURNS {
      var counted := s.(budget := s.budget.(caseTurns := s.budget.caseTurns + 1, runTurns := s.budget.runTurns + 1));
      RetryInvIsAboutHistory(config, s, counted);
      SelectEffect(config, counted, turn.candidate);
      SelectKeepsRecords(config, counted, turn.candidate);
      var (chosen, choice) := SelectObservation(config, counted, turn.candidate);
      RetryInvIsAboutHistory(config, counted, chosen);
      if choice.RunTool? {
        var tool := choice.observation.tool.value;
        var code :| tool == ToolFor(code) && IsOpen(config.trusted.issue, counted.progress.requirements, code);
        OpenMeansNoAttempts(config, counted, code);
        if p.planningTurns + 1 < MAX_RUN_TURNS {
          var q := p.(session := chosen, selectorTurns := p.selectorTurns + 1, planningTurns := p.planningTurns + 1);
          RunInGraphLinks(config, q, tool, choice.observation.arguments, false, turn);
          var call := Executed(tool, choice.observation.arguments, 1, false);
          assert Executes(config, q, Advance(config, p, turn), call);
          assert Executes(config, p, Advance(config, p, turn), call) by {
            ExecutesFrom(config, q, p, Advance(config, p, turn), call);
          }
        }
      }
    }
  }

  lemma SelectKeepsRecords(config: Config, s: Session, candidate: Option<RawCandidate>)
    ensures var (s', _) := SelectObservation(config, s, candidate);
      && s'.records == s.records && s'.refs == s.refs && s'.attempts == s.attempts
      && s'.pending == s.pending && s'.progress == s.progress && s'.budget == s.budget
  {
    hide Validate, ContextOf, Correctable, CountUnchanged;
    CountKeepsHistory(s);
  }

  lemma CountKeepsHistory(s: Session)
    ensures var s' := CountUnchanged(s);
      && s'.records == s.records && s'.refs == s.refs && s'.attempts == s.attempts
      && s'.pending == s.pending && s'.progress == s.progress && s'.budget == s.budget
  {
  }

  lemma OpenMeansNoAttempts(config: Config, s: Session, code: Requirement)
    requires RetryInv(config, s) && IsOpen(config.trusted.issue, s.progress.requirements, code)
    ensures AttemptsIn(s.attempts, ToolFor(code)) == 0
  {
    hide Rebuilt, AttemptsOf;
    var scope := ScopeOf(config, s.refs, s.pending);
    MissingInSnapshot(scope, s.records, code);
    forall r | r in s.records ensures r.tool != ToolFor(code) {
      assert InScope(scope, r);
    }
    UnreadMeansNoAttempts(s.records, ToolFor(code));
  }

  /** What one agent node may add to the history, whatever the state of the retry lock. */
  ghost predicate AdvancesLinked(config: Config, p: Pass, p': Pass) {
    || Silent(config, p, p')
    || exists call :: Executes(config, p, p', call) && call.attempt == (if call.isRetry then NEXT_ATTEMPT else 1)
  }

  lemma AdvanceKeepsLinks(config: Config, p: Pass, turn: Turn)
    requires config.enforceExactRetry && p.ending == None && RetryInv(config, p.session)
    requires p.planningTurns < MAX_RUN_TURNS && |p.session.priorFingerprints| <= MAX_FINGERPRINTS
    ensures AdvancesLinked(config, p, Advance(config, p, turn))
  {
    hide Advance, RetryInv, Executes, Silent;
    if p.session.pending.Some? {
      OnlyTheDueRetryRuns(config, p, turn);
    } else {
      WithoutDueRetryFirstAttempts(config, p, turn);
    }
  }

  ghost predicate PassLinked(config: Config, p: Pass, start: nat) {
    && start + |p.executed| == |p.session.records|
    && LinkedFrom(p.session.records, start)
    && (forall e :: e in p.executed ==> e.attempt in {1, NEXT_ATTEMPT} && e.isRetry == (e.attempt == NEXT_ATTEMPT))
    && (p.ending == None ==> RetryInv(config, p.session))
  }

  lemma PassLinkedStep(config: Config, p: Pass, p': Pass, start: nat)
    requires PassLinked(config, p, start) && AdvancesLinked(config, p, p')
    ensures PassLinked(config, p', start)
  {
    hide RetryInv, Linked;
    if !Silent(config, p, p') {
      var n := |p.session.records|;
      assert p'.session.records == p.session.records + [p'.session.records[n]];
      LinkedSnoc(p.session.records, p'.session.records[n], start);
      assert p'.executed == p.executed + [p'.executed[|p.executed|]];
    }
  }

  lemma {:induction false} RunKeepsLinks(config: Config, session: Session, turns: seq<Turn>)
    requires config.enforceExactRetry && RetryInv(config, session) && session.priorFingerprints == []
    ensures PassLinked(config, Run(config, NewPass(session), turns), |session.records|)
    decreases |turns|
  {
    hide RetryInv, Advance, PassInv;
    assert SessionInv(config, session) by { SessionPart(config, session); }
    if turns != [] {
      var n := |turns| - 1;
      RunKeepsLinks(config, session, turns[..n]);
      var p := Run(config, NewPass(session), turns[..n]);
      if p.ending == None {
        WithinLimits(config, session, turns[..n]);
        AdvanceKeepsLinks(config, p, turns[n]);
        PassLinkedStep(config, p, Advance(config, p, turns[n]), |session.records|);
      } else {
        assert Advance(config, p, turns[n]) == p by { EndedStays(config, p, turns[n]); }
      }
    }
  }

  lemma SessionPart(config: Config, session: Session)
    requires RetryInv(config, session)
    ensures SessionInv(config, session)
  {
  }

  lemma EndedStays(config: Config, p: Pass, turn: Turn)
    requires p.ending.Some?
    ensures Advance(config, p, turn) == p
  {
  }

  lemma WithinLimits(config: Config, session: Session, turns: seq<Turn>)
    requires config.enforceExactRetry && SessionInv(config, session) && session.priorFingerprints == []
    requires Run(config, NewPass(session), turns).ending == None
    ensures var p := Run(config, NewPass(session), turns);
      p.planningTurns < MAX_RUN_TURNS && |p.session.priorFingerprints| <= MAX_FINGERPRINTS
  {
    hide Run, Advance, SessionInv;
    RunKeeps(config, session, turns);
    OpenAtMostFive(config.trusted.issue, session.progress.requirements);
  }

  // ---------- The visit that retries ----------

  /** A visit that executes nothing and goes on leaves a due retry only once the read budget is spent. */
  lemma NothingRunsWhileDue(config: Config, p: Pass, turn: Turn)
    requires p.ending == None && p.planningTurns < MAX_RUN_TURNS
    ensures var p' := Advance(config, p, turn);
      p'.ending == None && |p'.executed| == |p.executed| && p'.session.pending.Some? ==>
        p'.session.budget.readCount >= MAX_READS
  {
    hide MustStop, SelectObservation, Execute;
    var (s, pre) := BeforeSelector(config, p.session, turn.currentSource);
    if pre == Proceed && s.budget.caseTurns < MAX_CASE_TURNS && s.budget.runTurns < MAX_RUN_TURNS {
      var counted := s.(budget := s.budget.(caseTurns := s.budget.caseTurns + 1, runTurns := s.budget.runTurns + 1));
      SelectKeepsRecords(config, counted, turn.candidate);
    }
  }

  predicate ExecutesMore(p: Pass, p': Pass) {
    |p'.executed| > |p.executed|
  }

  /** The visit from p to p' executes a retry. */
  predicate Retries(p: Pass, p': Pass) {
    ExecutesMore(p, p') && p'.executed[|p.executed|].isRetry
  }

  /**
   A retry in full: it repeats the record before it, without a selector turn of its own visit, while
   the source still shows the revision that record names. The two recorded revisions agree exactly
   when the source shows after the retry what it showed before it.
   */
  ghost predicate RepeatsLastRecord(p: Pass, turn: Turn, p': Pass) {
    var n := |p.session.records|;
    && n > 0 && |p'.session.records| == n + 1 && p'.session.records[..n] == p.session.records
    && (var origin, retry := p.session.records[n - 1], p'.session.records[n];
        && CallsForRetry(origin)
        && p'.executed == p.executed + [Executed(origin.tool, origin.arguments.value, NEXT_ATTEMPT, true)]
        && p'.selectorTurns == p.selectorTurns
        && origin.sourceVersion == Some(turn.currentSource(origin.tool))
        && (retry.sourceVersion == origin.sourceVersion <==>
              turn.report.sourceVersion == turn.currentSource(origin.tool)))
  }

  lemma RetryVisit(config: Config, p: Pass, turn: Turn)
    requires config.enforceExactRetry && p.ending == None && RetryInv(config, p.session)
    requires p.planningTurns < MAX_RUN_TURNS && |p.session.priorFingerprints| <= MAX_FINGERPRINTS
    requires Retries(p, Advance(config, p, turn))
    ensures RepeatsLastRecord(p, turn, Advance(config, p, turn))
    ensures p.session.pending.Some? && p.session.budget.readCount < MAX_READS
  {
    hide Advance, RetryInv, Linked, Silent;
    if p.session.pending.Some? {
      OnlyTheDueRetryRuns(config, p, turn);
      assert !Silent(config, p, Advance(config, p, turn)) by {
        SilentExecutesNothing(config, p, Advance(config, p, turn));
      }
      DueIsLastRecord(config, p.session);
    } else {
      WithoutDueRetryFirstAttempts(config, p, turn);
      SilentExecutesNothing(config, p, Advance(config, p, turn));
    }
  }

  lemma SilentExecutesNothing(config: Config, p: Pass, p': Pass)
    ensures Silent(config, p, p') ==> p'.executed == p.executed
  {
  }

  lemma DueIsLastRecord(config: Config, s: Session)
    requires RetryInv(config, s) && s.pending.Some?
    ensures s.records != [] && CallsForRetry(s.records[|s.records| - 1])
    ensures var last, d := s.records[|s.records| - 1], s.pending.value;
      d.tool == last.tool && Some(d.arguments) == last.arguments && Some(d.sourceVersion) == last.sourceVersion
  {
  }

  lemma VisitOf(config: Config, start: Pass, turns: seq<Turn>, i: nat)
    requires i < |turns|
    ensures Run(config, start, turns[..i + 1]) == Advance(config, Run(config, start, turns[..i]), turns[i])
  {
    hide Advance;
    assert turns[..i + 1][..i] == turns[..i];
  }

  lemma RetryInPass(config: Config, session: Session, turns: seq<Turn>, i: nat)
    requires config.enforceExactRetry && RetryInv(config, session) && session.priorFingerprints == [] && i < |turns|
    requires Retries(Run(config, NewPass(session), turns[..i]), Run(config, NewPass(session), turns[..i + 1]))
    ensures RepeatsLastRecord(Run(config, NewPass(session), turns[..i]), turns[i],
        Run(config, NewPass(session), turns[..i + 1]))
    ensures i > 0 ==> ExecutesMore(Run(config, NewPass(session), turns[..i - 1]),
        Run(config, NewPass(session), turns[..i]))
  {
    hide RetryInv, Run, Advance, RepeatsLastRecord, LinkedFrom;
    var start := NewPass(session);
    var p := Run(config, start, turns[..i]);
    VisitOf(config, start, turns, i);
    RunKeepsLinks(config, session, turns[..i]);
    SessionPart(config, session);
    if p.ending.Some? {
      EndedStays(config, p, turns[i]);
    } else {
      WithinLimits(config, session, turns[..i]);
      RetryVisit(config, p, turns[i]);
      if i > 0 {
        DueIsFresh(config, session, turns, i);
      }
    }
  }

  lemma DueIsFresh(config: Config, session: Session, turns: seq<Turn>, i: nat)
    requires config.enforceExactRetry && RetryInv(config, session) && session.priorFingerprints == []
        && 0 < i <= |turns|
    requires var p := Run(config, NewPass(session), turns[..i]);
      p.ending == None && p.session.pending.Some? && p.session.budget.readCount < MAX_READS
    ensures ExecutesMore(Run(config, NewPass(session), turns[..i - 1]), Run(config, NewPass(session), turns[..i]))
  {
    hide RetryInv, SessionInv, Run, Advance;
    var q := Run(config, NewPass(session), turns[..i - 1]);
    VisitOf(config, NewPass(session), turns, i - 1);
    SessionPart(config, session);
    if q.ending.Some? {
      EndedStays(config, q, turns[i - 1]);
    } else {
      WithinLimits(config, session, turns[..i - 1]);
      NothingRunsWhileDue(config, q, turns[i - 1]);
      ExecutedNeverShrinks(config, q, turns[i - 1]);
    }
  }

  lemma ExecutedNeverShrinks(config: Config, p: Pass, turn: Turn)
    ensures |Advance(config, p, turn).executed| >= |p.executed|
  {
    hide SelectObservation, Execute, BeforeSelector;
  }

  /**
   Exact retry is adjacent and happens once. In every pass, each executed call is the second attempt
   of the call right before it (same tool, same arguments) exactly when that call was a first attempt
   that failed transiently; every other executed call is a first attempt, and no call is a third
   attempt. A retry is executed by the visit right after the one that executed its origin (or by the
   first visit, for an origin in the history the pass began with), with no selector turn in between,
   while the source still shows the origin's revision.
   */
  lemma {:induction false} ExactRetryIsAdjacentAndSingle(config: Config, records: seq<ToolCall>, refs: seq<EvidenceRef>,
      budget: Budget, turns: seq<Turn>)
    requires config.enforceExactRetry && OwnRecords(records) && Numbered(records)
    ensures var p := Run(config, NewPass(Start(config, records, refs, budget)), turns);
      && |p.session.records| == |records| + |p.executed|
      && LinkedFrom(p.session.records, |records|)
      && (forall e :: e in p.executed ==> e.attempt in {1, NEXT_ATTEMPT} && e.isRetry == (e.attempt == NEXT_ATTEMPT))
    ensures var start := NewPass(Start(config, records, refs, budget));
      forall i {:trigger turns[i]} :: 0 <= i < |turns| ==>
        var p, p' := Run(config, start, turns[..i]), Run(config, start, turns[..i + 1]);
        Retries(p, p') ==>
          && RepeatsLastRecord(p, turns[i], p')
          && (i > 0 ==> ExecutesMore(Run(config, start, turns[..i - 1]), p))
  {
    hide RetryInv, Run, RepeatsLastRecord;
    var session := Start(config, records, refs, budget);
    StartRetryInv(config, records, refs, budget);
    RunKeepsLinks(config, session, turns);
    forall i {:trigger turns[i]} | 0 <= i < |turns|
      ensures var p, p' := Run(config, NewPass(session), turns[..i]), Run(config, NewPass(session), turns[..i + 1]);
        Retries(p, p') ==>
          && RepeatsLastRecord(p, turns[i], p')
          && (i > 0 ==> ExecutesMore(Run(config, NewPass(session), turns[..i - 1]), p))
    {
      if Retries(Run(config, NewPass(session), turns[..i]), Run(config, NewPass(session), turns[..i + 1])) {
        RetryInPass(config, session, turns, i);
      }
    }
  }

  // ---------- Restart ----------

  lemma {:induction false} FoldIgnoresIssuedFrom(scope: Scope, pending: Option<RetryDirective>, calls: seq<ToolCall>)
    requires IdentityOf(pending) == IdentityOf(scope.pending)
    ensures FoldCalls(scope.(pending := pending), calls) == FoldCalls(scope, calls)
    decreases |calls|
  {
    if calls != [] {
      var n := |calls| - 1;
      FoldIgnoresIssuedFrom(scope, pending, calls[..n]);
      StepIgnoresIssuedFrom(scope, pending, FoldCalls(scope, calls[..n]), calls[n]);
    }
  }

  lemma StepIgnoresIssuedFrom(scope: Scope, pending: Option<RetryDirective>, st: Fold, call: ToolCall)
    requires IdentityOf(pending) == IdentityOf(scope.pending)
    ensures Step(scope.(pending := pending), st, call) == Step(scope, st, call)
  {
    forall current ensures Settle(scope.(pending := pending), call, current) == Settle(scope, call, current) {
    }
  }

  lemma {:induction false} ArrivedInOrder(records: seq<ToolCall>)
    requires Arrives([], records)
    ensures Ordered(records) == records
    decreases |records|
  {
    hide Ordered, Later, Arrives;
    if records == [] {
      assert multiset(Ordered(records)) == multiset(records);
    } else {
      var n := |records| - 1;
      ArrivedFront(records, n);
      ArrivedInOrder(records[..n]);
      OrderedSnoc(records[..n], records[n]);
      assert records == records[..n] + [records[n]];
    }
  }

  lemma ArrivedFront(records: seq<ToolCall>, n: nat)
    requires Arrives([], records) && n < |records|
    ensures Arrives([], records[..n]) && Later(records[..n], records[n])
  {
    hide Later;
    assert [] + records[..n] == records[..n];
    assert Later([] + records[..n], records[n]);
    forall i | 0 <= i < n ensures Later([] + records[..n][..i], records[..n][i]) {
      assert records[..n][..i] == records[..i];
      assert Later([] + records[..i], records[i]);
    }
  }

  /**
   The retry lock survives a restart: rebuilding the coordinator from the persisted rows, listed by
   (requested_at, id), restores the same progress, the same attempt counts and the same due retry.
   */
  lemma RestartKeepsTheRetry(config: Config, s: Session, budget: Budget)
    requires RetryInv(config, s) && Arrives([], s.records)
    ensures var again := Start(config, Ordered(s.records), s.refs, budget);
      && IdentityOf(again.pending) == IdentityOf(s.pending)
      && again.progress == s.progress
      && again.attempts == s.attempts
      && RetryInv(config, again)
  {
    hide AttemptsOf, Ordered, Start, Rebuilt, FoldCalls, DueRetry;
    ArrivedInOrder(s.records);
    StartShape(config, s.records, s.refs, budget);
    var again := Start(config, s.records, s.refs, budget);
    RebuildIgnoresIssuedFrom(ScopeOf(config, s.refs, s.pending), again.pending, s.records);
    StartIsSound(config, s.records, s.refs, budget);
  }

  lemma StartShape(config: Config, records: seq<ToolCall>, refs: seq<EvidenceRef>, budget: Budget)
    ensures var s := Start(config, records, refs, budget);
      && s.records == records && s.refs == refs && s.attempts == AttemptsOf(records)
      && s.progress == Rebuilt(ScopeOf(config, refs, s.pending), records)
      && IdentityOf(s.pending) == DueRetry(records)
  {
    hide Rebuilt, AttemptsOf;
  }

  lemma RebuildIgnoresIssuedFrom(scope: Scope, pending: Option<RetryDirective>, calls: seq<ToolCall>)
    requires IdentityOf(pending) == IdentityOf(scope.pending)
    ensures Rebuilt(scope.(pending := pending), calls) == Rebuilt(scope, calls)
  {
    hide FoldCalls, Ordered;
    FoldIgnoresIssuedFrom(scope, pending, Ordered(calls));
  }
}
