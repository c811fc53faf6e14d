/** What a rebuilt snapshot means, and why neither call order nor replay changes it. */
module EvidenceProperties {
  import opened Options
  import opened StableSort
  import opened TextOrder
  import opened EvidenceProgress

  // ---------- Order independence ----------

  predicate SameKey(a: ToolCall, b: ToolCall) {
    a.requestedAt == b.requestedAt && a.callId == b.callId
  }

  /** No two different records carry the same (requested_at, tool_call_id). */
  ghost predicate DistinctKeys(calls: seq<ToolCall>) {
    forall a, b :: a in calls && b in calls && SameKey(a, b) ==> a == b
  }

  lemma KeyIsPreorder()
    ensures Preorder(KeyLeq)
  {
    forall a, b ensures KeyLeq(a, b) || KeyLeq(b, a) {
      TextLeqTotal(a.callId, b.callId);
    }
    forall a, b, c | KeyLeq(a, b) && KeyLeq(b, c) ensures KeyLeq(a, c) {
      if a.requestedAt.GetOr(0) == b.requestedAt.GetOr(0) == c.requestedAt.GetOr(0) {
        TextLeqTransitive(a.callId, b.callId, c.callId);
      }
    }
  }

  /**
   Order independence: when every record is time-stamped and (requested_at, tool_call_id) tells
   records apart, every permutation of a history rebuilds to the same snapshot.
   */
  lemma {:induction false} RebuildIgnoresOrder(scope: Scope, a: seq<ToolCall>, b: seq<ToolCall>)
    requires AllTimed(a) && DistinctKeys(a) && multiset(a) == multiset(b)
    ensures Rebuilt(scope, a) == Rebuilt(scope, b)
  {
    hide FoldCalls;
    forall i | 0 <= i < |b| ensures b[i].requestedAt.Some? {
      assert b[i] in multiset(a);
    }
    KeyIsPreorder();
    forall x, y | x in a && y in a && KeyLeq(x, y) && KeyLeq(y, x) ensures x == y {
      TextLeqTotal(x.callId, y.callId);
      assert SameKey(x, y);
    }
    SortIgnoresOrder(a, b, KeyLeq);
  }

  // ---------- Rebuilding is a fold ----------

  /** `call` sorts after everything recorded so far. */
  ghost predicate Later(calls: seq<ToolCall>, call: ToolCall) {
    AllTimed(calls) ==> call.requestedAt.Some? && forall c :: c in calls ==> KeyLeq(c, call)
  }

  /** `more` arrives after `calls`, one record at a time. */
  ghost predicate Arrives(calls: seq<ToolCall>, more: seq<ToolCall>) {
    forall i :: 0 <= i < |more| ==> Later(calls + more[..i], more[i])
  }

  lemma OrderedSnoc(calls: seq<ToolCall>, call: ToolCall)
    requires Later(calls, call)
    ensures Ordered(calls + [call]) == Ordered(calls) + [call]
  {
    if AllTimed(calls) {
      SortSnoc(calls, call, KeyLeq);
    } else {
      var i :| 0 <= i < |calls| && calls[i].requestedAt == None;
      assert (calls + [call])[i] == calls[i];
    }
  }

  /** Rebuilding an extended history is one step from the shorter one. */
  lemma RebuildIsFold(scope: Scope, calls: seq<ToolCall>, call: ToolCall)
    requires Later(calls, call)
    ensures FoldCalls(scope, Ordered(calls + [call])) == Step(scope, FoldCalls(scope, Ordered(calls)), call)
  {
    OrderedSnoc(calls, call);
    var longer := Ordered(calls) + [call];
    assert longer[..|longer| - 1] == Ordered(calls);
  }

  /** Evidence references of later calls leave the fold over earlier calls untouched. */
  ghost predicate RefsAreNew(calls: seq<ToolCall>, refs: seq<EvidenceRef>) {
    forall c, r :: c in calls && r in refs ==> r.callId != c.callId
  }

  lemma {:induction false} NewRefsDoNotMatch(refs: seq<EvidenceRef>, more: seq<EvidenceRef>, callId: string,
      hash: Option<string>)
    requires forall r :: r in more ==> r.callId != callId
    ensures MatchingRefs(refs + more, callId, hash) == MatchingRefs(refs, callId, hash)
  {
    if refs != [] {
      assert (refs + more)[1..] == refs[1..] + more;
      NewRefsDoNotMatch(refs[1..], more, callId, hash);
    } else {
      assert refs + more == more;
      if more != [] {
        assert more[1..] == [] + more[1..];
        NewRefsDoNotMatch([], more[1..], callId, hash);
      }
    }
  }

  lemma StepIgnoresNewRefs(scope: Scope, st: Fold, call: ToolCall, more: seq<EvidenceRef>)
    requires forall r :: r in more ==> r.callId != call.callId
    ensures Step(scope.(refs := scope.refs + more), st, call) == Step(scope, st, call)
  {
    NewRefsDoNotMatch(scope.refs, more, call.callId, call.resultHash);
    var scope' := scope.(refs := scope.refs + more);
    forall current ensures Settle(scope', call, current) == Settle(scope, call, current) {
    }
  }

  lemma {:induction false} FoldIgnoresNewRefs(scope: Scope, calls: seq<ToolCall>, more: seq<EvidenceRef>)
    requires RefsAreNew(calls, more)
    ensures FoldCalls(scope.(refs := scope.refs + more), calls) == FoldCalls(scope, calls)
    decreases |calls|
  {
    if calls != [] {
      var n := |calls| - 1;
      FoldIgnoresNewRefs(scope, calls[..n], more);
      StepIgnoresNewRefs(scope, FoldCalls(scope, calls[..n]), calls[n], more);
    }
  }

  /** The call is judged against this requirement. */
  predicate Concerns(scope: Scope, call: ToolCall, code: Requirement) {
    InScope(scope, call) && call.tool == ToolFor(code) && Registry(scope.issue, code) != NotRequired
  }

  /** A step changes exactly the progress of the requirement its call concerns. */
  lemma StepChangesOneRequirement(scope: Scope, st: Fold, call: ToolCall, code: Requirement)
    ensures Step(scope, st, call).states.Get(code) ==
            (if Concerns(scope, call, code) then Examine(scope, st, call, st.states.Get(code)).progress
             else st.states.Get(code))
  {
  }

  lemma StepAppendsTerminal(scope: Scope, st: Fold, call: ToolCall)
    ensures st.terminal <= Step(scope, st, call).terminal
  {
  }

  /** Terminal codes recorded for a history are still recorded, in place, for every longer one. */
  lemma {:induction false} FoldTerminalGrows(scope: Scope, calls: seq<ToolCall>, more: seq<ToolCall>,
      refs: seq<EvidenceRef>)
    requires Arrives(calls, more) && RefsAreNew(calls, refs)
    ensures FoldCalls(scope, Ordered(calls)).terminal
         <= FoldCalls(scope.(refs := scope.refs + refs), Ordered(calls + more)).terminal
    decreases |more|
  {
    var scope' := scope.(refs := scope.refs + refs);
    if more == [] {
      assert calls + more == calls;
      forall c | c in Ordered(calls) ensures c in calls {
        assert c in multiset(calls);
      }
      FoldIgnoresNewRefs(scope, Ordered(calls), refs);
    } else {
      var n := |more| - 1;
      forall i | 0 <= i < n ensures Later(calls + more[..n][..i], more[..n][i]) {
        assert more[..n][..i] == more[..i];
      }
      FoldTerminalGrows(scope, calls, more[..n], refs);
      TerminalGrowsByOne(scope', calls + more[..n], more[n]);
      SplitLast(calls, more);
    }
  }

  lemma TerminalGrowsByOne(scope: Scope, calls: seq<ToolCall>, call: ToolCall)
    requires Later(calls, call)
    ensures FoldCalls(scope, Ordered(calls)).terminal <= FoldCalls(scope, Ordered(calls + [call])).terminal
  {
    RebuildIsFold(scope, calls, call);
    StepAppendsTerminal(scope, FoldCalls(scope, Ordered(calls)), call);
  }

  lemma SplitLast<T>(a: seq<T>, b: seq<T>)
    requires b != []
    ensures a + b == (a + b[..|b| - 1]) + [b[|b| - 1]]
  {
  }

  /**
   With a fixed pending directive no terminal code ever goes away as calls and their references
   arrive, except that a missing retry origin may still turn up.
   */
  lemma TerminalCodesOnlyGrow(scope: Scope, calls: seq<ToolCall>, more: seq<ToolCall>, refs: seq<EvidenceRef>,
      code: TerminalCode)
    requires Arrives(calls, more) && RefsAreNew(calls, refs)
    requires code in Rebuilt(scope, calls).terminal && code != RetryOriginMissing
    ensures code in Rebuilt(scope.(refs := scope.refs + refs), calls + more).terminal
  {
    FoldTerminalGrows(scope, calls, more, refs);
    var st := FoldCalls(scope, Ordered(calls));
    assert code in st.terminal + OriginCheck(scope, st);
  }

  // ---------- Readiness is sound ----------

  /** `call` is the evidence a satisfied requirement claims to have. */
  ghost predicate Supports(scope: Scope, call: ToolCall, code: Requirement, progress: RequirementProgress) {
    && InScope(scope, call)
    && call.tool == ToolFor(code)
    && call.execution == Some(Success)
    && call.availability == Some(if progress.status == SatisfiedPresent then Present else Absent)
    && call.resultHash.Some? && call.envelopeHash == call.resultHash
    && call.callId in progress.callIds
    && call.resultHash.value in progress.resultHashes
    && exists ref :: ref in scope.refs && ref.callId == call.callId && ref.resultHash == call.resultHash.value
  }

  lemma {:induction false} MatchingRefsFound(refs: seq<EvidenceRef>, callId: string, hash: Option<string>)
    ensures forall r :: r in MatchingRefs(refs, callId, hash) ==> r in refs && Matches(r, callId, hash)
  {
    if refs != [] {
      MatchingRefsFound(refs[1..], callId, hash);
    }
  }

  lemma SatisfiedJudgement(scope: Scope, st: Fold, call: ToolCall, code: Requirement, current: RequirementProgress)
    requires InScope(scope, call) && call.tool == ToolFor(code)
    ensures var after := Examine(scope, st, call, current).progress;
      IsSatisfied(after.status) ==> Supports(scope, call, code, after)
  {
    MatchingRefsFound(scope.refs, call.callId, call.resultHash);
    var refs := MatchingRefs(scope.refs, call.callId, call.resultHash);
    assert refs != [] ==> refs[0] in refs;
  }

  /** A step that leaves a requirement satisfied either is its evidence or leaves its progress alone. */
  lemma SatisfiedStep(scope: Scope, st: Fold, call: ToolCall, code: Requirement)
    ensures var after := Step(scope, st, call).states.Get(code);
      IsSatisfied(after.status) ==> after == st.states.Get(code) || Supports(scope, call, code, after)
    ensures Step(scope, st, call).states.Get(code).applicability == st.states.Get(code).applicability
  {
    StepChangesOneRequirement(scope, st, call, code);
    if Concerns(scope, call, code) {
      SatisfiedJudgement(scope, st, call, code, st.states.Get(code));
    }
  }

  lemma {:induction false} SatisfiedHasEvidence(scope: Scope, calls: seq<ToolCall>, code: Requirement)
    ensures var progress := FoldCalls(scope, calls).states.Get(code);
      IsSatisfied(progress.status) ==> exists call :: call in calls && Supports(scope, call, code, progress)
    ensures FoldCalls(scope, calls).states.Get(code).applicability == Registry(scope.issue, code)
    decreases |calls|
  {
    if calls != [] {
      var n := |calls| - 1;
      SatisfiedHasEvidence(scope, calls[..n], code);
      SatisfiedStep(scope, FoldCalls(scope, calls[..n]), calls[n], code);
      assert calls[n] in calls;
      assert forall c :: c in calls[..n] ==> c in calls;
    }
  }

  /** Every satisfied requirement of a rebuilt snapshot has its evidence in the history. */
  lemma {:induction false} ReadinessIsSound(scope: Scope, calls: seq<ToolCall>, code: Requirement)
    requires IsSatisfied(Rebuilt(scope, calls).requirements.Get(code).status)
    ensures exists call :: call in calls && Supports(scope, call, code, Rebuilt(scope, calls).requirements.Get(code))
    ensures Registry(scope.issue, code) != NotRequired
  {
    SatisfiedHasEvidence(scope, Ordered(calls), code);
    IrrelevantStaysMissing(scope, Ordered(calls), code);
    var progress := Rebuilt(scope, calls).requirements.Get(code);
    var call :| call in Ordered(calls) && Supports(scope, call, code, progress);
    assert call in multiset(calls);
  }

  // ---------- Missing means never read ----------

  /** Some in-scope call of the requirement's own tool has been recorded. */
  ghost predicate WasRead(scope: Scope, calls: seq<ToolCall>, code: Requirement) {
    exists call :: call in calls && InScope(scope, call) && call.tool == ToolFor(code)
  }

  lemma MissingStep(scope: Scope, st: Fold, call: ToolCall, code: Requirement)
    ensures Step(scope, st, call).states.Get(code).status == Missing <==>
      st.states.Get(code).status == Missing
      && (Registry(scope.issue, code) == NotRequired || !(InScope(scope, call) && call.tool == ToolFor(code)))
    ensures Registry(scope.issue, code) == NotRequired ==> Step(scope, st, call).states.Get(code) == st.states.Get(code)
  {
    StepChangesOneRequirement(scope, st, call, code);
  }

  /** A requirement is missing exactly when it does not apply or nothing has read it yet. */
  lemma {:induction false} MissingMeansUnread(scope: Scope, calls: seq<ToolCall>, code: Requirement)
    ensures FoldCalls(scope, calls).states.Get(code).status == Missing <==>
      Registry(scope.issue, code) == NotRequired || !WasRead(scope, calls, code)
    decreases |calls|
  {
    hide Step;
    if calls != [] {
      var n := |calls| - 1;
      MissingMeansUnread(scope, calls[..n], code);
      MissingStep(scope, FoldCalls(scope, calls[..n]), calls[n], code);
      assert calls[n] in calls;
      assert forall c :: c in calls <==> c in calls[..n] || c == calls[n];
    }
  }

  lemma IrrelevantStaysMissing(scope: Scope, calls: seq<ToolCall>, code: Requirement)
    ensures Registry(scope.issue, code) == NotRequired ==> FoldCalls(scope, calls).states.Get(code).status == Missing
  {
    MissingMeansUnread(scope, calls, code);
  }

  lemma MissingInSnapshot(scope: Scope, calls: seq<ToolCall>, code: Requirement)
    ensures Rebuilt(scope, calls).requirements.Get(code).status == Missing <==>
      Registry(scope.issue, code) == NotRequired || !WasRead(scope, calls, code)
  {
    MissingMeansUnread(scope, Ordered(calls), code);
    forall c ensures c in calls <==> c in Ordered(calls) {
      assert c in multiset(calls) <==> c in multiset(Ordered(calls));
    }
  }

  lemma RetryPendingStep(scope: Scope, st: Fold, call: ToolCall, code: Requirement)
    requires scope.pending == None && st.states.Get(code).status != RetryPending
    ensures Step(scope, st, call).states.Get(code).status != RetryPending
  {
    StepChangesOneRequirement(scope, st, call, code);
  }

  /** Without a pending directive nothing is marked as awaiting a retry. */
  lemma {:induction false} NoDirectiveNoRetryPending(scope: Scope, calls: seq<ToolCall>, code: Requirement)
    requires scope.pending == None
    ensures FoldCalls(scope, calls).states.Get(code).status != RetryPending
    decreases |calls|
  {
    if calls != [] {
      var n := |calls| - 1;
      NoDirectiveNoRetryPending(scope, calls[..n], code);
      RetryPendingStep(scope, FoldCalls(scope, calls[..n]), calls[n], code);
    }
  }
}
