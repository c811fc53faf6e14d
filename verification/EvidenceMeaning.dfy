/**
 What a rebuilt snapshot says, stated on the history's own calls: which calls are taken as evidence,
 which terminal codes they give rise to, and what the last call of a requirement leaves it as.
 */
module EvidenceMeaning {
  import opened Options
  import opened EvidenceProgress
  import opened EvidenceProperties

  // ---------- Calls on their own ----------

  ghost predicate Relevant(scope: Scope, call: ToolCall) {
    InScope(scope, call) && exists code :: call.tool == ToolFor(code) && Registry(scope.issue, code) != NotRequired
  }

  /** An answer whose envelope carries the recorded hash, with an evidence reference bound to both. */
  ghost predicate Sound(scope: Scope, call: ToolCall) {
    && ReportsSuccess(call)
    && call.resultHash.Some? && call.envelopeHash == call.resultHash
    && exists ref :: ref in scope.refs && Binds(ref, call)
  }

  /** What a call that is taken leaves in its requirement's lists. */
  datatype Kind = ResultHash | SourceVersion | CallId | ReferenceId

  ghost predicate Carries(scope: Scope, call: ToolCall, kind: Kind, mark: string) {
    match kind
    case ResultHash => call.resultHash == Some(mark) && (ReportsSuccess(call) || mark != "")
    case SourceVersion => call.sourceVersion == Some(mark)
    case CallId => call.callId == mark
    case ReferenceId =>
      ReportsSuccess(call) && exists ref :: ref in scope.refs && Binds(ref, call) && RefId(ref) == mark
  }

  predicate Binds(ref: EvidenceRef, call: ToolCall) {
    ref.callId == call.callId && Some(ref.resultHash) == call.resultHash
  }

  function Marks(progress: RequirementProgress, kind: Kind): seq<string> {
    match kind
    case ResultHash => progress.resultHashes
    case SourceVersion => progress.sourceVersions
    case CallId => progress.callIds
    case ReferenceId => progress.refIds
  }

  // ---------- Calls in their history ----------

  ghost predicate OriginBefore(scope: Scope, cs: seq<ToolCall>, n: nat)
    requires n <= |cs|
  {
    exists j: nat :: j < n && Relevant(scope, cs[j]) && NamesOrigin(scope, cs[j])
  }

  /** An actual call that repeats the pending origin exactly, after it. */
  ghost predicate RepeatsOrigin(scope: Scope, cs: seq<ToolCall>, i: nat)
    requires i < |cs|
  {
    && scope.pending.Some? && Relevant(scope, cs[i]) && !NamesOrigin(scope, cs[i])
    && cs[i].actual && OriginBefore(scope, cs, i) && IsExactRetry(scope.pending.value, cs[i])
  }

  ghost predicate RepeatedBefore(scope: Scope, cs: seq<ToolCall>, n: nat)
    requires n <= |cs|
  {
    exists j: nat :: j < n && RepeatsOrigin(scope, cs, j)
  }

  /**
   A call under the origin's id that is not the origin, or the first actual call after it that is not
   its repetition.
   */
  ghost predicate BreaksRetry(scope: Scope, cs: seq<ToolCall>, i: nat)
    requires i < |cs|
  {
    && scope.pending.Some? && Relevant(scope, cs[i])
    && if NamesOrigin(scope, cs[i]) then !IsRetryOrigin(scope.pending.value, cs[i])
       else cs[i].actual && OriginBefore(scope, cs, i) && !RepeatedBefore(scope, cs, i)
            && !IsExactRetry(scope.pending.value, cs[i])
  }

  /** Call j is the last before n that concerns the requirement. */
  ghost predicate LastFor(scope: Scope, cs: seq<ToolCall>, n: nat, code: Requirement, j: nat)
    requires n <= |cs|
  {
    j < n && Concerns(scope, cs[j], code) && forall k: nat :: j < k < n ==> !Concerns(scope, cs[k], code)
  }

  /** The requirement stands satisfied before n: its last call was taken, and was an answer. */
  ghost predicate Stands(scope: Scope, cs: seq<ToolCall>, n: nat, code: Requirement)
    requires n <= |cs|
    decreases n, 0
  {
    exists j: nat :: LastFor(scope, cs, n, code, j) && ReportsSuccess(cs[j]) && Taken(scope, cs, j, code)
  }

  /** Some taken call of the requirement carries the mark. */
  ghost predicate Recorded(scope: Scope, cs: seq<ToolCall>, n: nat, code: Requirement, kind: Kind, mark: string)
    requires n <= |cs|
    decreases n, 0
  {
    exists j: nat :: j < n && Taken(scope, cs, j, code) && Carries(scope, cs[j], kind, mark)
  }

  ghost predicate RecordsAny(scope: Scope, cs: seq<ToolCall>, n: nat, code: Requirement, kind: Kind)
    requires n <= |cs|
    decreases n, 1
  {
    exists j: nat, mark :: j < n && Taken(scope, cs, j, code) && Carries(scope, cs[j], kind, mark)
  }

  /** An answer to a requirement that stands satisfied, with a hash none of its taken calls had. */
  ghost predicate Contradicts(scope: Scope, cs: seq<ToolCall>, i: nat, code: Requirement)
    requires i < |cs|
    decreases i, 2
  {
    && Stands(scope, cs, i, code)
    && cs[i].resultHash.Some? && !Recorded(scope, cs, i, code, ResultHash, cs[i].resultHash.value)
  }

  /** An answer to a requirement that stands satisfied from known revisions, and not from this one. */
  ghost predicate ChangesRevision(scope: Scope, cs: seq<ToolCall>, i: nat, code: Requirement)
    requires i < |cs|
    decreases i, 2
  {
    && Stands(scope, cs, i, code)
    && RecordsAny(scope, cs, i, code, SourceVersion)
    && (cs[i].sourceVersion.Some? ==> !Recorded(scope, cs, i, code, SourceVersion, cs[i].sourceVersion.value))
  }

  /** The call is taken: an error as reported, or a sound answer that agrees with what the requirement stands on. */
  ghost predicate Taken(scope: Scope, cs: seq<ToolCall>, i: nat, code: Requirement)
    requires i < |cs|
    decreases i, 3
  {
    && Concerns(scope, cs[i], code) && !BreaksRetry(scope, cs, i)
    && (ReportsFailure(cs[i])
        || (Sound(scope, cs[i]) && !Contradicts(scope, cs, i, code) && !ChangesRevision(scope, cs, i, code)))
  }

  /** The terminal codes call i gives rise to. */
  ghost predicate Raises(scope: Scope, cs: seq<ToolCall>, i: nat, reason: TerminalCode)
    requires i < |cs|
  {
    var call := cs[i];
    var kept := Relevant(scope, call) && !BreaksRetry(scope, cs, i);
    match reason
    case ToolCallScopeMismatch => !InScope(scope, call)
    case UnknownTool => InScope(scope, call) && call.tool.UnregisteredTool?
    case IrrelevantTool(tool) =>
      InScope(scope, call) && call.tool == tool && !tool.UnregisteredTool? && !Relevant(scope, call)
    case RetryIdentityConflict => BreaksRetry(scope, cs, i)
    case MalformedToolResult => kept && !ReportsSuccess(call) && !ReportsFailure(call)
    case ResultHashMismatch =>
      kept && ReportsSuccess(call) && (call.envelopeHash == None || call.envelopeHash != call.resultHash)
    case MissingEvidenceRef =>
      && kept && ReportsSuccess(call) && call.envelopeHash.Some? && call.envelopeHash == call.resultHash
      && !Sound(scope, call)
    case ContradictorySuccess =>
      kept && Sound(scope, call) && exists code :: Concerns(scope, call, code) && Contradicts(scope, cs, i, code)
    case SourceRevisionConflict =>
      && kept && Sound(scope, call)
      && exists code :: Concerns(scope, call, code) && !Contradicts(scope, cs, i, code)
           && ChangesRevision(scope, cs, i, code)
    case RetryOriginMissing => false
  }

  /** What its last call leaves a requirement as. */
  ghost predicate LeftAs(scope: Scope, cs: seq<ToolCall>, j: nat, code: Requirement, status: Status)
    requires j < |cs|
  {
    match status
    case Missing => false
    case Conflict => !Taken(scope, cs, j, code)
    case SatisfiedPresent => Taken(scope, cs, j, code) && ReportsSuccess(cs[j]) && cs[j].availability == Some(Present)
    case SatisfiedAbsent => Taken(scope, cs, j, code) && ReportsSuccess(cs[j]) && cs[j].availability == Some(Absent)
    case RetryPending =>
      && Taken(scope, cs, j, code) && ReportsFailure(cs[j])
      && NamesOrigin(scope, cs[j]) && cs[j].Attempt() == 1
    case UnavailableFinal =>
      && Taken(scope, cs, j, code) && ReportsFailure(cs[j])
      && !(NamesOrigin(scope, cs[j]) && cs[j].Attempt() == 1)
  }

  // ---------- The fold says just that ----------

  ghost predicate MarksMean(scope: Scope, cs: seq<ToolCall>, n: nat, code: Requirement, p: RequirementProgress)
    requires n <= |cs|
  {
    forall kind, mark :: mark in Marks(p, kind) <==> Recorded(scope, cs, n, code, kind, mark)
  }

  ghost predicate StatusMeans(scope: Scope, cs: seq<ToolCall>, n: nat, code: Requirement, p: RequirementProgress)
    requires n <= |cs|
  {
    && ((forall j: nat :: !LastFor(scope, cs, n, code, j)) ==> p.status == Missing)
    && (forall j: nat :: LastFor(scope, cs, n, code, j) ==> LeftAs(scope, cs, j, code, p.status))
  }

  ghost predicate RetryMeans(scope: Scope, cs: seq<ToolCall>, n: nat, st: Fold)
    requires n <= |cs|
  {
    && (st.originSeen <==> OriginBefore(scope, cs, n))
    && (st.attemptSeen <==> RepeatedBefore(scope, cs, n))
  }

  ghost predicate CodesMean(scope: Scope, cs: seq<ToolCall>, n: nat, st: Fold)
    requires n <= |cs|
  {
    forall reason :: reason in st.terminal <==> exists i: nat :: i < n && Raises(scope, cs, i, reason)
  }

  lemma RelevantExactly(scope: Scope, call: ToolCall)
    ensures Relevant(scope, call) <==>
      && InScope(scope, call) && RequirementOf(call.tool).Some?
      && Registry(scope.issue, RequirementOf(call.tool).value) != NotRequired
    ensures forall code :: Concerns(scope, call, code) <==>
      Relevant(scope, call) && RequirementOf(call.tool) == Some(code)
  {
    if RequirementOf(call.tool).Some? {
      assert call.tool == ToolFor(RequirementOf(call.tool).value);
    }
  }

  lemma {:induction false} MatchingRefsComplete(refs: seq<EvidenceRef>, callId: string, hash: Option<string>)
    ensures forall r :: r in refs && Matches(r, callId, hash) ==> r in MatchingRefs(refs, callId, hash)
  {
    if refs != [] {
      MatchingRefsComplete(refs[1..], callId, hash);
    }
  }

  lemma SoundExactly(scope: Scope, call: ToolCall)
    requires ReportsSuccess(call) && call.envelopeHash.Some? && call.envelopeHash == call.resultHash
    ensures Sound(scope, call) <==> MatchingRefs(scope.refs, call.callId, call.resultHash) != []
  {
    MatchingRefsComplete(scope.refs, call.callId, call.resultHash);
    MatchingRefsFound(scope.refs, call.callId, call.resultHash);
    var found := MatchingRefs(scope.refs, call.callId, call.resultHash);
    if found != [] {
      assert found[0] in found;
    }
  }

  lemma BreaksExactly(scope: Scope, cs: seq<ToolCall>, n: nat, st: Fold)
    requires n < |cs| && Relevant(scope, cs[n]) && RetryMeans(scope, cs, n, st)
    ensures BreaksRetry(scope, cs, n) <==>
      || (NamesOrigin(scope, cs[n]) && !IsRetryOrigin(scope.pending.value, cs[n]))
      || (FollowsOrigin(scope, st, cs[n]) && !IsExactRetry(scope.pending.value, cs[n]))
  {
    hide Relevant, OriginBefore, RepeatedBefore;
  }

  lemma RetryOnceMore(scope: Scope, cs: seq<ToolCall>, n: nat, st: Fold)
    requires n < |cs| && RetryMeans(scope, cs, n, st)
    ensures RetryMeans(scope, cs, n + 1, Step(scope, st, cs[n]))
  {
    hide Examine, IsExactRetry, InScope, Registry;
    RelevantExactly(scope, cs[n]);
    assert OriginBefore(scope, cs, n + 1) <==>
      OriginBefore(scope, cs, n) || (Relevant(scope, cs[n]) && NamesOrigin(scope, cs[n]));
    assert RepeatedBefore(scope, cs, n + 1) <==> RepeatedBefore(scope, cs, n) || RepeatsOrigin(scope, cs, n);
  }

  lemma SatisfiedIsStanding(scope: Scope, cs: seq<ToolCall>, n: nat, code: Requirement, p: RequirementProgress)
    requires n <= |cs| && StatusMeans(scope, cs, n, code, p)
    ensures IsSatisfied(p.status) <==> Stands(scope, cs, n, code)
  {
    hide Taken;
    if IsSatisfied(p.status) {
      var j: nat :| LastFor(scope, cs, n, code, j);
      assert LeftAs(scope, cs, j, code, p.status);
    }
    if Stands(scope, cs, n, code) {
      var j: nat :| LastFor(scope, cs, n, code, j) && ReportsSuccess(cs[j]) && Taken(scope, cs, j, code);
      assert LeftAs(scope, cs, j, code, p.status);
    }
  }

  /** A standing requirement has recorded the hash of the answer it stands on. */
  lemma StandingHasHash(scope: Scope, cs: seq<ToolCall>, n: nat, code: Requirement)
    requires n <= |cs| && Stands(scope, cs, n, code)
    ensures RecordsAny(scope, cs, n, code, ResultHash)
  {
    var j: nat :| LastFor(scope, cs, n, code, j) && ReportsSuccess(cs[j]) && Taken(scope, cs, j, code);
    assert Carries(scope, cs[j], ResultHash, cs[j].resultHash.value);
  }

  lemma EmptyExactly(scope: Scope, cs: seq<ToolCall>, n: nat, code: Requirement, p: RequirementProgress, kind: Kind)
    requires n <= |cs| && MarksMean(scope, cs, n, code, p)
    ensures Marks(p, kind) != [] <==> RecordsAny(scope, cs, n, code, kind)
  {
    hide Taken;
    if Marks(p, kind) != [] {
      MarkFound(scope, cs, n, code, p, kind, Marks(p, kind)[0]);
    }
    if RecordsAny(scope, cs, n, code, kind) {
      var j: nat, mark :| j < n && Taken(scope, cs, j, code) && Carries(scope, cs[j], kind, mark);
      MarkFound(scope, cs, n, code, p, kind, mark);
    }
  }

  /** A sound answer is settled by what its requirement stands on. */
  lemma SoundIsSettled(scope: Scope, cs: seq<ToolCall>, n: nat, code: Requirement, p: RequirementProgress)
    requires n < |cs| && Sound(scope, cs[n])
    requires MarksMean(scope, cs, n, code, p) && StatusMeans(scope, cs, n, code, p)
    ensures Contradicts(scope, cs, n, code) <==>
      IsSatisfied(p.status) && p.resultHashes != [] && cs[n].resultHash.value !in p.resultHashes
    ensures ChangesRevision(scope, cs, n, code) <==>
      && IsSatisfied(p.status) && p.sourceVersions != []
      && (cs[n].sourceVersion == None || cs[n].sourceVersion.value !in p.sourceVersions)
  {
    hide Stands, Recorded, RecordsAny, StatusMeans, MarksMean;
    SatisfiedIsStanding(scope, cs, n, code, p);
    EmptyExactly(scope, cs, n, code, p, ResultHash);
    EmptyExactly(scope, cs, n, code, p, SourceVersion);
    if Stands(scope, cs, n, code) {
      StandingHasHash(scope, cs, n, code);
    }
    if cs[n].sourceVersion.Some? {
      MarkFound(scope, cs, n, code, p, SourceVersion, cs[n].sourceVersion.value);
    }
    MarkFound(scope, cs, n, code, p, ResultHash, cs[n].resultHash.value);
  }

  lemma MarkFound(scope: Scope, cs: seq<ToolCall>, n: nat, code: Requirement, p: RequirementProgress, kind: Kind,
      mark: string)
    requires n <= |cs| && MarksMean(scope, cs, n, code, p)
    ensures mark in Marks(p, kind) <==> Recorded(scope, cs, n, code, kind, mark)
  {
    hide Recorded;
  }

  /** What judging call n leaves: its status, its marks if it is taken, and its terminal code if not. */
  ghost predicate JudgedSo(scope: Scope, cs: seq<ToolCall>, n: nat, code: Requirement, p: RequirementProgress,
      j: Judged)
    requires n < |cs|
  {
    && LeftAs(scope, cs, n, code, j.progress.status)
    && (forall kind, mark :: mark in Marks(j.progress, kind) <==>
          mark in Marks(p, kind) || (Taken(scope, cs, n, code) && Carries(scope, cs[n], kind, mark)))
    && (forall reason :: reason in j.reasons <==> Raises(scope, cs, n, reason))
  }

  lemma SettledSo(scope: Scope, cs: seq<ToolCall>, n: nat, code: Requirement, p: RequirementProgress)
    requires n < |cs| && Concerns(scope, cs[n], code) && !BreaksRetry(scope, cs, n)
    requires MarksMean(scope, cs, n, code, p) && StatusMeans(scope, cs, n, code, p)
    ensures JudgedSo(scope, cs, n, code, p, Settle(scope, cs[n], p))
  {
    hide MarksMean, StatusMeans, JudgedSo, Settle, Sound, InScope, Registry, BreaksRetry;
    if Sound(scope, cs[n]) {
      SoundSo(scope, cs, n, code, p);
    } else {
      UnsoundSo(scope, cs, n, code, p);
    }
  }

  lemma SoundSo(scope: Scope, cs: seq<ToolCall>, n: nat, code: Requirement, p: RequirementProgress)
    requires n < |cs| && Concerns(scope, cs[n], code) && !BreaksRetry(scope, cs, n) && Sound(scope, cs[n])
    requires MarksMean(scope, cs, n, code, p) && StatusMeans(scope, cs, n, code, p)
    ensures JudgedSo(scope, cs, n, code, p, Settle(scope, cs[n], p))
  {
    hide Contradicts, ChangesRevision, MarksMean, StatusMeans, BreaksRetry, Relevant, Sound, InScope, Registry, Settle;
    hide Carries, LeftAs, Raises, JudgedSo, Taken;
    SoundSettles(scope, cs, n, code, p);
    SoundRaises(scope, cs, n, code);
    SoundParts(scope, cs[n]);
    if Contradicts(scope, cs, n, code) {
      ConflictSo(scope, cs, n, code, p, ContradictorySuccess);
    } else if ChangesRevision(scope, cs, n, code) {
      ConflictSo(scope, cs, n, code, p, SourceRevisionConflict);
    } else {
      TakenAnswerSo(scope, cs, n, code, p, Settle(scope, cs[n], p));
    }
  }

  lemma ConflictSo(scope: Scope, cs: seq<ToolCall>, n: nat, code: Requirement, p: RequirementProgress,
      reason: TerminalCode)
    requires n < |cs| && !Taken(scope, cs, n, code)
    requires forall r :: Raises(scope, cs, n, r) <==> r == reason
    ensures JudgedSo(scope, cs, n, code, p, InConflict(p, reason))
  {
    hide Taken, Carries, Raises;
  }

  lemma TakenAnswerSo(scope: Scope, cs: seq<ToolCall>, n: nat, code: Requirement, p: RequirementProgress, j: Judged)
    requires n < |cs| && Taken(scope, cs, n, code) && ReportsSuccess(cs[n])
    requires forall r :: !Raises(scope, cs, n, r)
    requires j.progress.status == (if cs[n].availability == Some(Present) then SatisfiedPresent else SatisfiedAbsent)
    requires j.progress.resultHashes == Add(p.resultHashes, cs[n].resultHash)
    requires j.progress.sourceVersions == Add(p.sourceVersions, cs[n].sourceVersion)
    requires j.progress.callIds == Add(p.callIds, Some(cs[n].callId)) && j.reasons == []
    requires forall id :: id in j.progress.refIds <==> id in p.refIds || Carries(scope, cs[n], ReferenceId, id)
    ensures JudgedSo(scope, cs, n, code, p, j)
  {
    hide Taken, Raises;
    forall kind, mark ensures mark in Marks(j.progress, kind) <==>
      mark in Marks(p, kind) || Carries(scope, cs[n], kind, mark)
    {
    }
  }

  lemma SoundRaises(scope: Scope, cs: seq<ToolCall>, n: nat, code: Requirement)
    requires n < |cs| && Concerns(scope, cs[n], code) && !BreaksRetry(scope, cs, n) && Sound(scope, cs[n])
    ensures Contradicts(scope, cs, n, code) ==>
      !Taken(scope, cs, n, code) && forall r :: Raises(scope, cs, n, r) <==> r == ContradictorySuccess
    ensures !Contradicts(scope, cs, n, code) && ChangesRevision(scope, cs, n, code) ==>
      !Taken(scope, cs, n, code) && forall r :: Raises(scope, cs, n, r) <==> r == SourceRevisionConflict
    ensures !Contradicts(scope, cs, n, code) && !ChangesRevision(scope, cs, n, code) ==>
      Taken(scope, cs, n, code) && forall r :: !Raises(scope, cs, n, r)
  {
    RelevantExactly(scope, cs[n]);
    SoundParts(scope, cs[n]);
    hide Contradicts, ChangesRevision, BreaksRetry, Relevant, Sound, InScope, Registry, MatchingRefs;
  }

  lemma SoundSettles(scope: Scope, cs: seq<ToolCall>, n: nat, code: Requirement, p: RequirementProgress)
    requires n < |cs| && Sound(scope, cs[n])
    requires MarksMean(scope, cs, n, code, p) && StatusMeans(scope, cs, n, code, p)
    ensures var j := Settle(scope, cs[n], p);
      if Contradicts(scope, cs, n, code) then j == InConflict(p, ContradictorySuccess)
      else if ChangesRevision(scope, cs, n, code) then j == InConflict(p, SourceRevisionConflict)
      else
        && j.progress.status == (if cs[n].availability == Some(Present) then SatisfiedPresent else SatisfiedAbsent)
        && j.progress.resultHashes == Add(p.resultHashes, cs[n].resultHash)
        && j.progress.sourceVersions == Add(p.sourceVersions, cs[n].sourceVersion)
        && j.progress.callIds == Add(p.callIds, Some(cs[n].callId)) && j.reasons == []
        && (forall id :: id in j.progress.refIds <==> id in p.refIds || Carries(scope, cs[n], ReferenceId, id))
  {
    var found := MatchingRefs(scope.refs, cs[n].callId, cs[n].resultHash);
    AddedAll([], p.refIds);
    AddedAll(AddAll([], p.refIds), RefIds(found));
    forall id ensures id in RefIds(found) <==> Carries(scope, cs[n], ReferenceId, id) {
      FoundRefs(scope, cs[n], id);
    }
    SoundIsSettled(scope, cs, n, code, p);
    SoundParts(scope, cs[n]);
    hide Contradicts, ChangesRevision, MarksMean, StatusMeans, RefIds, Sound, MatchingRefs, Add, AddAll;
  }

  lemma {:induction false} AddedAll(values: seq<string>, items: seq<string>)
    ensures forall x :: x in AddAll(values, items) <==> x in values || x in items
    decreases |items|
  {
    if items != [] {
      AddedAll(Add(values, Some(items[0])), items[1..]);
      assert items == [items[0]] + items[1..];
    }
  }

  lemma FoundRefs(scope: Scope, call: ToolCall, id: string)
    requires Sound(scope, call)
    ensures id in RefIds(MatchingRefs(scope.refs, call.callId, call.resultHash)) <==>
      Carries(scope, call, ReferenceId, id)
  {
    MatchingRefsComplete(scope.refs, call.callId, call.resultHash);
    MatchingRefsFound(scope.refs, call.callId, call.resultHash);
    var found := MatchingRefs(scope.refs, call.callId, call.resultHash);
    hide MatchingRefs, InScope;
    if id in RefIds(found) {
      var i :| 0 <= i < |found| && RefIds(found)[i] == id;
      assert found[i] in found && Binds(found[i], call);
    }
    if Carries(scope, call, ReferenceId, id) {
      var ref :| ref in scope.refs && Binds(ref, call) && RefId(ref) == id;
      var i :| 0 <= i < |found| && found[i] == ref;
      assert RefIds(found)[i] == id;
    }
  }

  lemma SoundParts(scope: Scope, call: ToolCall)
    requires Sound(scope, call)
    ensures ReportsSuccess(call) && call.resultHash.Some? && call.envelopeHash == call.resultHash
    ensures MatchingRefs(scope.refs, call.callId, call.resultHash) != []
  {
    SoundExactly(scope, call);
  }

  lemma UnsoundSo(scope: Scope, cs: seq<ToolCall>, n: nat, code: Requirement, p: RequirementProgress)
    requires n < |cs| && Concerns(scope, cs[n], code) && !BreaksRetry(scope, cs, n) && !Sound(scope, cs[n])
    ensures JudgedSo(scope, cs, n, code, p, Settle(scope, cs[n], p))
  {
    UnsoundSettles(scope, cs[n], p);
    UnsoundRaises(scope, cs, n, code);
    hide BreaksRetry, Relevant, Sound, InScope, Registry, Settle, Raises, Taken, JudgedSo, Carries;
    if ReportsFailure(cs[n]) {
      TakenFailureSo(scope, cs, n, code, p, Settle(scope, cs[n], p));
    } else {
      ConflictSo(scope, cs, n, code, p, UnsoundReason(cs[n]));
    }
  }

  function UnsoundReason(call: ToolCall): TerminalCode {
    if !ReportsSuccess(call) then MalformedToolResult
    else if call.envelopeHash == None || call.envelopeHash != call.resultHash then ResultHashMismatch
    else MissingEvidenceRef
  }

  lemma UnsoundSettles(scope: Scope, call: ToolCall, p: RequirementProgress)
    requires !Sound(scope, call)
    ensures var j := Settle(scope, call, p);
      if ReportsFailure(call) then
        && j.progress.status == (if NamesOrigin(scope, call) && call.Attempt() == 1 then RetryPending
                                 else UnavailableFinal)
        && j.progress.resultHashes == Add(p.resultHashes, NonEmpty(call.resultHash))
        && j.progress.sourceVersions == Add(p.sourceVersions, call.sourceVersion)
        && j.progress.callIds == Add(p.callIds, Some(call.callId)) && j.reasons == []
        && (forall id :: id in j.progress.refIds <==> id in p.refIds)
      else j == InConflict(p, UnsoundReason(call))
  {
    AddedAll([], p.refIds);
    assert AddAll(AddAll([], p.refIds), []) == AddAll([], p.refIds);
    if ReportsSuccess(call) && call.envelopeHash.Some? && call.envelopeHash == call.resultHash {
      SoundExactly(scope, call);
    }
    hide Sound, MatchingRefs, AddAll, RefIds;
  }

  lemma UnsoundRaises(scope: Scope, cs: seq<ToolCall>, n: nat, code: Requirement)
    requires n < |cs| && Concerns(scope, cs[n], code) && !BreaksRetry(scope, cs, n) && !Sound(scope, cs[n])
    ensures Taken(scope, cs, n, code) <==> ReportsFailure(cs[n])
    ensures forall r :: Raises(scope, cs, n, r) <==> !ReportsFailure(cs[n]) && r == UnsoundReason(cs[n])
  {
    RelevantExactly(scope, cs[n]);
    hide Contradicts, ChangesRevision, BreaksRetry, Relevant, Sound, InScope, Registry;
  }

  lemma TakenFailureSo(scope: Scope, cs: seq<ToolCall>, n: nat, code: Requirement, p: RequirementProgress, j: Judged)
    requires n < |cs| && Taken(scope, cs, n, code) && ReportsFailure(cs[n])
    requires forall r :: !Raises(scope, cs, n, r)
    requires j.progress.status
      == (if NamesOrigin(scope, cs[n]) && cs[n].Attempt() == 1 then RetryPending else UnavailableFinal)
    requires j.progress.resultHashes == Add(p.resultHashes, NonEmpty(cs[n].resultHash))
    requires j.progress.sourceVersions == Add(p.sourceVersions, cs[n].sourceVersion)
    requires j.progress.callIds == Add(p.callIds, Some(cs[n].callId)) && j.reasons == []
    requires forall id :: id in j.progress.refIds <==> id in p.refIds
    ensures JudgedSo(scope, cs, n, code, p, j)
  {
    hide Taken, Raises;
    forall kind, mark ensures mark in Marks(j.progress, kind) <==>
      mark in Marks(p, kind) || Carries(scope, cs[n], kind, mark)
    {
    }
  }

  lemma ExaminedSo(scope: Scope, cs: seq<ToolCall>, n: nat, code: Requirement, st: Fold)
    requires n < |cs| && Concerns(scope, cs[n], code) && RetryMeans(scope, cs, n, st)
    requires MarksMean(scope, cs, n, code, st.states.Get(code)) && StatusMeans(scope, cs, n, code, st.states.Get(code))
    ensures JudgedSo(scope, cs, n, code, st.states.Get(code), Examine(scope, st, cs[n], st.states.Get(code)))
  {
    hide MarksMean, StatusMeans, Settle, RetryMeans, Relevant, JudgedSo;
    RelevantExactly(scope, cs[n]);
    BreaksExactly(scope, cs, n, st);
    if BreaksRetry(scope, cs, n) {
      assert Examine(scope, st, cs[n], st.states.Get(code)) == InConflict(st.states.Get(code), RetryIdentityConflict);
      BrokenSo(scope, cs, n, code, st.states.Get(code));
    } else {
      SettledSo(scope, cs, n, code, st.states.Get(code));
    }
  }

  lemma BrokenSo(scope: Scope, cs: seq<ToolCall>, n: nat, code: Requirement, p: RequirementProgress)
    requires n < |cs| && Concerns(scope, cs[n], code) && BreaksRetry(scope, cs, n)
    ensures JudgedSo(scope, cs, n, code, p, InConflict(p, RetryIdentityConflict))
  {
    RelevantExactly(scope, cs[n]);
    hide BreaksRetry, Relevant;
  }

  // ---------- The whole history ----------

  ghost predicate FoldMeans(scope: Scope, cs: seq<ToolCall>, n: nat, st: Fold)
    requires n <= |cs|
  {
    && RetryMeans(scope, cs, n, st) && CodesMean(scope, cs, n, st)
    && forall code ::
      MarksMean(scope, cs, n, code, st.states.Get(code)) && StatusMeans(scope, cs, n, code, st.states.Get(code))
  }

  lemma StepCodes(scope: Scope, cs: seq<ToolCall>, n: nat, st: Fold)
    requires n < |cs| && FoldMeans(scope, cs, n, st)
    ensures forall reason :: reason in Step(scope, st, cs[n]).terminal <==>
      reason in st.terminal || Raises(scope, cs, n, reason)
  {
    hide MarksMean, StatusMeans, RetryMeans, CodesMean, Examine, BreaksRetry, Contradicts, ChangesRevision, Sound;
    hide Relevant, InScope, Registry;
    RelevantExactly(scope, cs[n]);
    if Relevant(scope, cs[n]) {
      var code := RequirementOf(cs[n].tool).value;
      ExaminedSo(scope, cs, n, code, st);
    } else {
      IrrelevantRaises(scope, cs, n);
    }
  }

  lemma IrrelevantRaises(scope: Scope, cs: seq<ToolCall>, n: nat)
    requires n < |cs| && !Relevant(scope, cs[n])
    ensures forall reason :: Raises(scope, cs, n, reason) <==>
      reason == if !InScope(scope, cs[n]) then ToolCallScopeMismatch
                else if RequirementOf(cs[n].tool) == None then UnknownTool else IrrelevantTool(cs[n].tool)
  {
    hide Relevant, Sound, InScope;
  }

  lemma StepProgress(scope: Scope, cs: seq<ToolCall>, n: nat, st: Fold, code: Requirement)
    requires n < |cs| && FoldMeans(scope, cs, n, st)
    ensures var p := Step(scope, st, cs[n]).states.Get(code);
      MarksMean(scope, cs, n + 1, code, p) && StatusMeans(scope, cs, n + 1, code, p)
  {
    hide MarksMean, StatusMeans, RetryMeans, CodesMean, Step, Examine;
    StepChangesOneRequirement(scope, st, cs[n], code);
    var p := st.states.Get(code);
    if Concerns(scope, cs[n], code) {
      ExaminedSo(scope, cs, n, code, st);
      MarkedOnceMore(scope, cs, n, code, p, Examine(scope, st, cs[n], p));
      StatusOnceMore(scope, cs, n, code, p, Examine(scope, st, cs[n], p));
    } else {
      Unconcerned(scope, cs, n, code, p);
    }
  }

  lemma RecordedOnceMore(scope: Scope, cs: seq<ToolCall>, n: nat, code: Requirement, kind: Kind, mark: string)
    requires n < |cs|
    ensures Recorded(scope, cs, n + 1, code, kind, mark) <==>
      Recorded(scope, cs, n, code, kind, mark) || (Taken(scope, cs, n, code) && Carries(scope, cs[n], kind, mark))
  {
    hide Taken, Carries;
  }

  lemma MarkedOnceMore(scope: Scope, cs: seq<ToolCall>, n: nat, code: Requirement, p: RequirementProgress, j: Judged)
    requires n < |cs| && MarksMean(scope, cs, n, code, p) && JudgedSo(scope, cs, n, code, p, j)
    ensures MarksMean(scope, cs, n + 1, code, j.progress)
  {
    hide Taken, Recorded, Marks, Carries, LeftAs, Raises;
    forall kind, mark ensures mark in Marks(j.progress, kind) <==> Recorded(scope, cs, n + 1, code, kind, mark) {
      RecordedOnceMore(scope, cs, n, code, kind, mark);
    }
  }

  lemma StatusOnceMore(scope: Scope, cs: seq<ToolCall>, n: nat, code: Requirement, p: RequirementProgress, j: Judged)
    requires n < |cs| && Concerns(scope, cs[n], code) && JudgedSo(scope, cs, n, code, p, j)
    ensures StatusMeans(scope, cs, n + 1, code, j.progress)
  {
    hide Taken, Recorded, Marks, Carries, LeftAs, Raises, Concerns;
    var m := n + 1;
    assert LastFor(scope, cs, m, code, n);
    assert forall k: nat :: LastFor(scope, cs, m, code, k) ==> k == n;
  }

  lemma Unconcerned(scope: Scope, cs: seq<ToolCall>, n: nat, code: Requirement, p: RequirementProgress)
    requires n < |cs| && !Concerns(scope, cs[n], code)
    requires MarksMean(scope, cs, n, code, p) && StatusMeans(scope, cs, n, code, p)
    ensures MarksMean(scope, cs, n + 1, code, p) && StatusMeans(scope, cs, n + 1, code, p)
  {
    assert !Taken(scope, cs, n, code);
    hide Taken, Recorded, Marks, Carries, LeftAs, Concerns;
    forall kind, mark ensures mark in Marks(p, kind) <==> Recorded(scope, cs, n + 1, code, kind, mark) {
      RecordedOnceMore(scope, cs, n, code, kind, mark);
    }
    forall k: nat ensures LastFor(scope, cs, n + 1, code, k) <==> LastFor(scope, cs, n, code, k) {
    }
  }

  lemma {:induction false} FoldIsMeant(scope: Scope, cs: seq<ToolCall>, n: nat)
    requires n <= |cs|
    ensures FoldMeans(scope, cs, n, FoldCalls(scope, cs[..n]))
    decreases n
  {
    hide RetryMeans, CodesMean, MarksMean, StatusMeans, Step;
    if n == 0 {
      NothingMeant(scope, cs);
    } else {
      FoldIsMeant(scope, cs, n - 1);
      FoldPrefix(scope, cs, n - 1);
      var st := FoldCalls(scope, cs[..n - 1]);
      RetryOnceMore(scope, cs, n - 1, st);
      CodesOnceMore(scope, cs, n - 1, st);
      var after := Step(scope, st, cs[n - 1]).states;
      forall code ensures
        && MarksMean(scope, cs, n, code, after.Get(code)) && StatusMeans(scope, cs, n, code, after.Get(code))
      {
        StepProgress(scope, cs, n - 1, st, code);
      }
    }
  }

  lemma CodesOnceMore(scope: Scope, cs: seq<ToolCall>, n: nat, st: Fold)
    requires n < |cs| && FoldMeans(scope, cs, n, st)
    ensures CodesMean(scope, cs, n + 1, Step(scope, st, cs[n]))
  {
    hide MarksMean, StatusMeans, RetryMeans, Raises, Step;
    StepCodes(scope, cs, n, st);
  }

  lemma NothingMeant(scope: Scope, cs: seq<ToolCall>)
    ensures FoldMeans(scope, cs, 0, InitialFold(scope))
  {
    hide Taken;
  }

  /**
   What a rebuilt snapshot means. Its terminal codes are exactly those that some call of the ordered
   history raises, and a missing origin while a directive is pending; each requirement is as its last
   call leaves it, or missing; and its lists hold exactly what its taken calls carried.
   */
  lemma SnapshotMeans(scope: Scope, calls: seq<ToolCall>, code: Requirement, kind: Kind, mark: string,
      reason: TerminalCode)
    ensures var cs, s := Ordered(calls), Rebuilt(scope, calls);
      && (reason in s.terminal <==>
            || (exists i: nat :: i < |cs| && Raises(scope, cs, i, reason))
            || (reason == RetryOriginMissing && scope.pending.Some? && !OriginBefore(scope, cs, |cs|)))
      && StatusMeans(scope, cs, |cs|, code, s.requirements.Get(code))
      && (mark in Marks(s.requirements.Get(code), kind) <==> Recorded(scope, cs, |cs|, code, kind, mark))
  {
    hide FoldCalls, Ordered, Raises, Recorded, StatusMeans, Marks, OriginBefore;
    var cs := Ordered(calls);
    FoldIsMeant(scope, cs, |cs|);
    assert cs[..|cs|] == cs;
    var st := FoldCalls(scope, cs);
    assert reason in Rebuilt(scope, calls).terminal <==> reason in st.terminal + OriginCheck(scope, st);
  }

  // ---------- The snapshot's own fields ----------

  /** An actual call of this run by a registered tool, under an id. */
  ghost predicate IsActual(scope: Scope, call: ToolCall) {
    InScope(scope, call) && !call.tool.UnregisteredTool? && call.actual && call.callId != ""
  }

  ghost predicate LastActualAt(scope: Scope, cs: seq<ToolCall>, i: nat) {
    i < |cs| && IsActual(scope, cs[i]) && forall k: nat :: i < k < |cs| ==> !IsActual(scope, cs[k])
  }

  predicate IsExecution(call: ToolCall) {
    call.actual && call.execution.Some?
  }

  ghost function Executions(cs: seq<ToolCall>): set<nat> {
    set i: nat | i < |cs| && IsExecution(cs[i])
  }

  lemma {:induction false} LastActualMeans(scope: Scope, cs: seq<ToolCall>)
    ensures var last := FoldCalls(scope, cs).lastActual;
      && (last == None <==> forall i: nat :: i < |cs| ==> !IsActual(scope, cs[i]))
      && (forall i: nat :: LastActualAt(scope, cs, i) ==> last == Some(cs[i].callId))
    decreases |cs|
  {
    hide Step, IsActual;
    if cs != [] {
      var n := |cs| - 1;
      LastActualMeans(scope, cs[..n]);
      StepActual(scope, FoldCalls(scope, cs[..n]), cs[n]);
      forall i: nat | LastActualAt(scope, cs, i) && i < n ensures LastActualAt(scope, cs[..n], i) {
        assert !IsActual(scope, cs[n]);
      }
    }
  }

  lemma StepActual(scope: Scope, st: Fold, call: ToolCall)
    ensures Step(scope, st, call).lastActual
        == if IsActual(scope, call) then Some(call.callId) else st.lastActual
  {
    hide Examine, InScope, Registry;
  }

  lemma {:induction false} RevisionCounts(cs: seq<ToolCall>)
    ensures Revision(cs) == |Executions(cs)|
    decreases |cs|
  {
    if cs != [] {
      var n := |cs| - 1;
      RevisionCounts(cs[..n]);
      assert Executions(cs) == Executions(cs[..n]) + (if IsExecution(cs[n]) then {n} else {});
    }
  }

  lemma {:induction false} UnsatisfiedMeans(states: States, codes: seq<Requirement>)
    ensures forall code :: code in Unsatisfied(states, codes) <==>
      code in codes && !IsSatisfied(states.Get(code).status)
  {
    if codes != [] {
      UnsatisfiedMeans(states, codes[1..]);
    }
  }

  /**
   The rest of a snapshot: its revision counts the actual executions, its missing codes are the required
   ones that are not satisfied, and its last actual call is the last of the run by a registered tool.
   */
  lemma SnapshotFieldsMean(scope: Scope, calls: seq<ToolCall>, code: Requirement, i: nat)
    ensures var cs, s := Ordered(calls), Rebuilt(scope, calls);
      && s.revision == |Executions(cs)|
      && (code in s.missing <==>
            Registry(scope.issue, code) == Required && !IsSatisfied(s.requirements.Get(code).status))
      && (s.lastActual == None <==> forall k: nat :: k < |cs| ==> !IsActual(scope, cs[k]))
      && (LastActualAt(scope, cs, i) ==> s.lastActual == Some(cs[i].callId))
  {
    hide FoldCalls, Ordered, Revision, Executions, IsActual;
    var cs := Ordered(calls);
    LastActualMeans(scope, cs);
    RevisionCounts(cs);
    UnsatisfiedMeans(FoldCalls(scope, cs).states, RequiredByIssue(scope.issue));
    assert Registry(scope.issue, code) == Required <==> code in RequiredByIssue(scope.issue);
  }
}
