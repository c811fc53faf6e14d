/** Every status a rebuilt snapshot can show, told from the rows; and where a question still open leaves its fact. */
module CaseFactStatuses {
  import opened Options
  import opened CaseFacts
  import opened Lookup
  import opened CaseFactMeaning
  import opened CaseFactLedger
  import opened CaseFactHistory
  import opened CaseFactDecisions

  // ---------- Statuses of facts ----------

  /** The active assertions of a fact disagree: in value, in what they supersede, or in the proof they speak of. */
  ghost predicate Disagree(ordered: seq<Assertion>, code: FactCode, proof: Option<ProofContext>) {
    var active := Surviving(OfFact(ordered, code), OfFact(ordered, code));
    var clash :=
      || InvalidSupersession(ordered, code) || CompetingSupersession(ordered, code)
      || ((exists a :: a in active && a.value == HoldsTrue) && exists a :: a in active && a.value == HoldsFalse);
    if code == LocationChecked && active != [] then
      || (exists a, b :: a in active && b in active && a.context != b.context)
      || (clash && proof.Some? && forall a :: a in active ==> a.context == proof)
    else clash
  }

  /**
   A fact is in conflict exactly when its active assertions disagree; where it is neither known nor in
   conflict it is unknown.
   */
  lemma ConflictExactly(caseId: string, assertions: seq<Assertion>, questions: seq<Question>,
      proof: Option<ProofContext>, code: FactCode)
    requires Rebuilt(caseId, assertions, questions, proof).Some?
    ensures Rebuilt(caseId, assertions, questions, proof).value.Fact(code).status == Conflict <==>
      Disagree(BySequence(assertions), code, proof)
  {
    hide Intact, BySequence, InvalidSupersession, CompetingSupersession, Surviving, Retired, OfFact, Sources;
    var own := OfFact(BySequence(assertions), code);
    var active := Surviving(own, own);
    forall v ensures AssertsValue(active, v) <==> exists a :: a in active && a.value == v {
      if AssertsValue(active, v) {
        var i :| 0 <= i < |active| && active[i].value == v;
        assert active[i] in active;
      }
    }
    MixedExactly(active);
    assert active != [] ==> active[0] in active;
  }

  lemma MixedExactly(active: seq<Assertion>)
    ensures active != [] ==>
      (MixedContexts(active) <==> exists a, b :: a in active && b in active && a.context != b.context)
    ensures active != [] && !MixedContexts(active) ==> forall a :: a in active ==> a.context == active[0].context
  {
    if active != [] {
      assert active[0] in active;
      if MixedContexts(active) {
        var i :| 0 <= i < |active| && active[i].context != active[0].context;
        assert active[i] in active;
      }
    }
  }

  // ---------- Statuses of questions ----------

  predicate IsAsked(caseId: string, questions: seq<Question>, code: FactCode) {
    exists q :: q in questions && q.caseId == caseId && q.fact == code
  }

  predicate IsAskedAgain(caseId: string, questions: seq<Question>, code: FactCode) {
    exists q :: q in questions && q.caseId == caseId && q.fact == code && q.targeted
  }

  function AskedAt(caseId: string, questions: seq<Question>, code: FactCode, targetedOnly: bool): set<nat> {
    set i: nat | i < |questions| && CountsAs(caseId, questions[i], code, targetedOnly)
  }

  lemma AskedAtSnoc(caseId: string, questions: seq<Question>, code: FactCode, targetedOnly: bool)
    requires questions != []
    ensures var n := |questions| - 1;
      && n !in AskedAt(caseId, questions[..n], code, targetedOnly)
      && AskedAt(caseId, questions, code, targetedOnly)
         == AskedAt(caseId, questions[..n], code, targetedOnly)
            + if CountsAs(caseId, questions[n], code, targetedOnly) then {n} else {}
  {
    hide CountsAs;
    var n := |questions| - 1;
    assert forall i: nat :: i < n ==> questions[..n][i] == questions[i];
  }

  lemma {:induction false} CountIsSize(caseId: string, questions: seq<Question>, code: FactCode, targetedOnly: bool)
    ensures CountAsks(caseId, questions, code, targetedOnly) == |AskedAt(caseId, questions, code, targetedOnly)|
    decreases |questions|
  {
    hide CountsAs;
    if questions == [] {
      assert AskedAt(caseId, questions, code, targetedOnly) == {};
    } else {
      CountIsSize(caseId, questions[..|questions| - 1], code, targetedOnly);
      AskedAtSnoc(caseId, questions, code, targetedOnly);
      hide AskedAt;
    }
  }

  lemma CountPositive(caseId: string, questions: seq<Question>, code: FactCode, targetedOnly: bool)
    ensures CountAsks(caseId, questions, code, targetedOnly) > 0 <==>
      exists q :: q in questions && CountsAs(caseId, q, code, targetedOnly)
  {
    hide CountsAs, CountAsks;
    CountIsSize(caseId, questions, code, targetedOnly);
    var asked := AskedAt(caseId, questions, code, targetedOnly);
    if asked != {} {
      var i :| i in asked;
      assert questions[i] in questions;
    }
    if q :| q in questions && CountsAs(caseId, q, code, targetedOnly) {
      var i :| 0 <= i < |questions| && questions[i] == q;
      assert i in asked;
    }
  }

  predicate IsKnown(status: FactStatus) {
    status == KnownTrue || status == KnownFalse
  }

  /**
   What the question state of a fact says, status by status. A fact applies unless it is the location
   fact without a delivery proof. An applicable fact is answered when known; unanswered when unknown
   and never asked, exhausted when unknown and asked; in conflict it waits for a clarification until a
   targeted question of it has been asked. The count is that of the questions asked.
   */
  lemma QuestionStatusExactly(caseId: string, assertions: seq<Assertion>, questions: seq<Question>,
      proof: Option<ProofContext>, code: FactCode)
    requires Rebuilt(caseId, assertions, questions, proof).Some?
    ensures var snapshot := Rebuilt(caseId, assertions, questions, proof).value;
      var fact, asked := snapshot.Fact(code).status, snapshot.Asked(code);
      var applies := code == LocationChecked ==> proof.Some?;
      && asked.asks == |set i: nat | i < |questions| && questions[i].caseId == caseId && questions[i].fact == code|
      && (asked.asks > 0 <==> IsAsked(caseId, questions, code))
      && (asked.status == Inapplicable <==> !applies)
      && (asked.status == Answered <==> applies && IsKnown(fact))
      && (asked.status == Unanswered <==> applies && fact == UnknownFact && !IsAsked(caseId, questions, code))
      && (asked.status == UnknownExhausted <==> applies && fact == UnknownFact && IsAsked(caseId, questions, code))
      && (asked.status == ConflictRequiresClarification <==>
            applies && fact == Conflict && !IsAskedAgain(caseId, questions, code))
      && (asked.status == ConflictExhausted <==> applies && fact == Conflict && IsAskedAgain(caseId, questions, code))
  {
    hide FactOf, BySequence, Intact;
    CountPositive(caseId, questions, code, false);
    CountPositive(caseId, questions, code, true);
    CountIsSize(caseId, questions, code, false);
    assert AskedAt(caseId, questions, code, false)
        == (set i: nat | i < |questions| && questions[i].caseId == caseId && questions[i].fact == code);
    assert IsAsked(caseId, questions, code) <==> exists q :: q in questions && CountsAs(caseId, q, code, false);
    assert IsAskedAgain(caseId, questions, code) <==> exists q :: q in questions && CountsAs(caseId, q, code, true);
  }

  // ---------- The rest of the snapshot ----------

  lemma {:induction false} SourcesExactly(assertions: seq<Assertion>)
    ensures forall m :: m in Sources(assertions) <==> exists a :: a in assertions && a.message == m
    ensures forall i, j :: 0 <= i < j < |Sources(assertions)| ==> Sources(assertions)[i] != Sources(assertions)[j]
    decreases |assertions|
  {
    if assertions != [] {
      var n := |assertions| - 1;
      SourcesExactly(assertions[..n]);
      assert assertions == assertions[..n] + [assertions[n]];
    }
  }

  lemma NoCommonPosition(caseId: string, questions: seq<Question>)
    ensures OwnQuestions(caseId, questions) == |set i: nat | i < |questions| && questions[i].caseId == caseId|
  {
    CountIsSize(caseId, questions, StillReportsMissing, false);
    CountIsSize(caseId, questions, LocationChecked, false);
    var missing := AskedAt(caseId, questions, StillReportsMissing, false);
    var location := AskedAt(caseId, questions, LocationChecked, false);
    assert (set i: nat | i < |questions| && questions[i].caseId == caseId) == missing + location;
    assert missing !! location;
  }

  /**
   The revision counts the assertions and the Case's questions; a fact's sources are the messages of its
   active assertions, each once; and the location fact names a proof exactly when it has active
   assertions and all of them speak of that proof.
   */
  lemma SnapshotListsExactly(caseId: string, assertions: seq<Assertion>, questions: seq<Question>,
      proof: Option<ProofContext>, code: FactCode, context: ProofContext)
    requires Rebuilt(caseId, assertions, questions, proof).Some?
    ensures var snapshot := Rebuilt(caseId, assertions, questions, proof).value;
      var active := Surviving(OfFact(BySequence(assertions), code), OfFact(BySequence(assertions), code));
      var entry := snapshot.Fact(code);
      && snapshot.revision == |assertions| + |set i: nat | i < |questions| && questions[i].caseId == caseId|
      && (forall m :: m in entry.sources <==> exists a :: a in active && a.message == m)
      && (forall i, j :: 0 <= i < j < |entry.sources| ==> entry.sources[i] != entry.sources[j])
      && (entry.context == Some(context) <==>
            code == LocationChecked && active != [] && forall a :: a in active ==> a.context == Some(context))
  {
    hide Surviving, Retired, OfFact, Sources, Intact, BySequence, InvalidSupersession, CompetingSupersession, StatusOf;
    hide OwnQuestions, Ids;
    var own := OfFact(BySequence(assertions), code);
    var active := Surviving(own, own);
    SourcesExactly(active);
    NoCommonPosition(caseId, questions);
    MixedExactly(active);
    assert active != [] ==> active[0] in active;
    assert |multiset(BySequence(assertions))| == |multiset(assertions)|;
  }

  // ---------- When a question is asked ----------

  /** The identity of the question about a fact: its current proof, and whether it is to settle a conflict. */
  function IdentityNow(l: Ledger, code: FactCode, conflict: bool): QuestionId {
    QuestionId(code, if code == LocationChecked && l.proof.Some? then Some(l.proof.value.resultHash)
        else None, conflict)
  }

  /**
   When a question is recorded. Not yet recorded for the same fact, proof and purpose, and within the
   Case's two clarifications, a question is asked exactly of an applicable fact that is unknown and was
   never asked about, or that is in conflict and was asked about at most once and never to settle it.
   Otherwise the question recorded before is returned, or the request is refused.
   */
  lemma QuestionIsAskedExactly(l: Ledger, code: FactCode, globalAsks: nat, now: int)
    requires Kept(l)
    ensures Recomputed(l).Some?
    ensures var (l', r) := RecordQuestion(l, code, globalAsks, now);
      var snapshot := Recomputed(l).value;
      var fact := snapshot.Fact(code).status;
      var id := IdentityNow(l, code, fact == Conflict);
      var open :=
        && (code == LocationChecked ==> l.proof.Some?)
        && (|| (fact == UnknownFact && !IsAsked(l.caseId, l.questions, code))
            || (fact == Conflict && !IsAskedAgain(l.caseId, l.questions, code) && snapshot.Asked(code).asks < 2));
      if HasQuestion(l.questions, id) then
        l' == l && r.Ok? && !r.value.created && r.value.question in l.questions && r.value.question.id == id
      else if globalAsks < 2 && open then
        && r == Ok(Asked(Question(id, l.caseId, code, fact == Conflict, now), true))
        && l' == l.(questions := l.questions + [r.value.question], stored := l'.stored)
      else l' == l && r == Refused(QuestionNotAllowed)
  {
    hide Kept, Rebuilt, RowsVerified, Recomputed;
    KeptRebuilds(l);
    RecomputedIsRebuilt(l);
    QuestionStatusExactly(l.caseId, l.assertions, l.questions, l.proof, code);
    AskEffect(l, code, globalAsks, now);
  }

  // ---------- A question still open ----------

  predicate IsOpen(l: Ledger) {
    l.questions != [] && !IsConsumed(l.consumptions, l.questions[|l.questions| - 1].id)
  }

  /** Whatever the delivery proof, the assertions do not make the fact known. */
  ghost predicate Unknowable(assertions: seq<Assertion>, code: FactCode) {
    var active := Surviving(OfFact(assertions, code), OfFact(assertions, code));
    || (forall a :: a !in active)
    || (exists a, b :: a in active && b in active && a.value == HoldsTrue && b.value == HoldsFalse)
    || (code == LocationChecked && exists a, b :: a in active && b in active && a.context != b.context)
  }

  predicate AnswersOneOf(questions: seq<Question>, a: Assertion) {
    exists q :: q in questions && q.id == a.id.question && q.fact == a.fact
  }

  /** Every assertion answers a recorded question of its own fact. */
  ghost predicate Answering(l: Ledger) {
    forall i :: 0 <= i < |l.assertions| ==> AnswersOneOf(l.questions, l.assertions[i])
  }

  ghost predicate OpenKept(l: Ledger) {
    && Answering(l)
    && (IsOpen(l) ==>
          var q := l.questions[|l.questions| - 1];
          && (q.fact == LocationChecked ==> l.proof.Some?) && Unknowable(l.assertions, q.fact)
          && (!q.targeted ==> NoneAsserted(l.assertions, q.fact)))
  }

  ghost predicate NoneAsserted(assertions: seq<Assertion>, code: FactCode) {
    forall a :: a in assertions ==> a.fact != code
  }

  lemma UnknowableIsUnknown(caseId: string, assertions: seq<Assertion>, questions: seq<Question>,
      proof: Option<ProofContext>, code: FactCode)
    requires Rebuilt(caseId, assertions, questions, proof).Some? && Unknowable(BySequence(assertions), code)
    ensures !IsKnown(Rebuilt(caseId, assertions, questions, proof).value.Fact(code).status)
  {
    hide BySequence, Rebuilt, Surviving, OfFact, InvalidSupersession, CompetingSupersession;
    KnownExactly(caseId, assertions, questions, proof, code, HoldsTrue);
    KnownExactly(caseId, assertions, questions, proof, code, HoldsFalse);
  }

  lemma AnswersAppended(l: Ledger, l': Ledger, q: Question, m: Message, c: Candidate, reading: Reading)
    requires Answering(l) && Asserts(l, l', q, m, c, reading) && q in l.questions && l'.questions == l.questions
    ensures Answering(l')
  {
    forall i | 0 <= i < |l'.assertions| ensures AnswersOneOf(l'.questions, l'.assertions[i]) {
      if i < |l.assertions| {
        assert l'.assertions[..|l.assertions|][i] == l'.assertions[i];
      }
    }
  }

  lemma ReplyKeepsOpen(l: Ledger, awaitingInput: bool, messageId: string, batch: seq<RawItem>, reader: Reader)
    requires Kept(l) && OpenKept(l)
    ensures OpenKept(AcceptMessage(l, awaitingInput, messageId, batch, reader).0)
  {
    hide Kept, AcceptMessage, Asserts, Unknowable, NoneAsserted, Answers, ReasonFor, IsInTime, Answering;
    var l' := AcceptMessage(l, awaitingInput, messageId, batch, reader).0;
    var found := FindMessage(l.messages, messageId);
    if found == None || l.questions == [] {
      assert l' == l by { NothingToAnswer(l, awaitingInput, messageId, batch, reader); }
    } else if ConsumptionOfMessage(l.consumptions, messageId).Some? {
      LaterDeliveryRepeats(l, awaitingInput, found.value, ConsumptionOfMessage(l.consumptions, messageId).value,
          batch, reader);
      SameRows(l, l');
    } else {
      var m, q := found.value, l.questions[|l.questions| - 1];
      FirstDeliveryIsDecidedByTheReply(l, awaitingInput, m, q, batch, reader);
      if AcceptMessage(l, awaitingInput, messageId, batch, reader).1.Ok? {
        var d := AcceptMessage(l, awaitingInput, messageId, batch, reader).1.value;
        DeliveryAsksNothing(l, awaitingInput, messageId, batch, reader);
        assert l'.consumptions[|l.consumptions|].question == q.id;
        if d.accepted {
          AnsweredAsserts(l, q, m, batch, reader);
          AnswersAppended(l, l', q, m, batch[0].candidate, reader(m.content, q.fact));
        } else {
          SameAnswering(l, l');
        }
      }
    }
  }

  lemma NothingToAnswer(l: Ledger, awaitingInput: bool, messageId: string, batch: seq<RawItem>, reader: Reader)
    requires FindMessage(l.messages, messageId) == None || l.questions == []
    ensures AcceptMessage(l, awaitingInput, messageId, batch, reader).0 == l
  {
  }

  lemma DeliveryAsksNothing(l: Ledger, awaitingInput: bool, messageId: string, batch: seq<RawItem>, reader: Reader)
    ensures AcceptMessage(l, awaitingInput, messageId, batch, reader).0.questions == l.questions
  {
    hide Decide, Recomputed, CurrentReply, Bound;
  }

  lemma SameRows(l: Ledger, l': Ledger)
    requires l'.assertions == l.assertions && l'.questions == l.questions && l'.consumptions == l.consumptions
    requires (l.proof.Some? ==> l'.proof.Some?) && OpenKept(l)
    ensures OpenKept(l')
  {
    hide Unknowable, NoneAsserted;
  }

  lemma SameAnswering(l: Ledger, l': Ledger)
    requires l'.assertions == l.assertions && l.questions <= l'.questions && Answering(l)
    ensures Answering(l')
  {
    forall i | 0 <= i < |l'.assertions| ensures AnswersOneOf(l'.questions, l'.assertions[i]) {
      assert AnswersOneOf(l.questions, l.assertions[i]);
    }
  }

  /** A question may be asked only of a fact that nothing makes known. */
  lemma AskedIsUnknowable(l: Ledger, code: FactCode, globalAsks: nat)
    requires Kept(l) && Answering(l) && Recomputed(l).Some? && QuestionAllowed(Recomputed(l).value, code, globalAsks)
    ensures Unknowable(l.assertions, code) && (code == LocationChecked ==> l.proof.Some?)
    ensures Recomputed(l).value.Fact(code).status != Conflict ==> NoneAsserted(l.assertions, code)
  {
    hide Kept, Rebuilt, RowsVerified, BySequence, Surviving, OfFact, InvalidSupersession, CompetingSupersession;
    KeptRebuilds(l);
    RecomputedIsRebuilt(l);
    KeptOrder(l);
    QuestionStatusExactly(l.caseId, l.assertions, l.questions, l.proof, code);
    ConflictExactly(l.caseId, l.assertions, l.questions, l.proof, code);
    if Recomputed(l).value.Asked(code).status == Unanswered {
      NeverAskedNeverAsserted(l, code);
      NoneOfFact(l, code);
    }
  }

  lemma RecomputedIsRebuilt(l: Ledger)
    requires Recomputed(l).Some?
    ensures Recomputed(l) == Rebuilt(l.caseId, l.assertions, l.questions, l.proof)
  {
    hide Rebuilt;
  }

  lemma KeptOrder(l: Ledger)
    requires Kept(l)
    ensures BySequence(l.assertions) == l.assertions
  {
    InOrder(l.assertions);
  }

  lemma NeverAskedNeverAsserted(l: Ledger, code: FactCode)
    requires Kept(l) && Answering(l) && !IsAsked(l.caseId, l.questions, code)
    ensures forall a :: a !in Surviving(OfFact(l.assertions, code), OfFact(l.assertions, code))
  {
    var own := OfFact(l.assertions, code);
    NoneOfFact(l, code);
    hide Kept, Answering, IsAsked, Surviving, OfFact;
    OfFactMembers(l.assertions, code);
    SurvivingMembers(own, own);
  }

  lemma NoneOfFact(l: Ledger, code: FactCode)
    requires Kept(l) && Answering(l) && !IsAsked(l.caseId, l.questions, code)
    ensures NoneAsserted(l.assertions, code)
  {
    hide Kept;
    forall a | a in l.assertions ensures a.fact != code {
      var i :| 0 <= i < |l.assertions| && l.assertions[i] == a;
      assert AnswersOneOf(l.questions, l.assertions[i]);
      var q :| q in l.questions && q.id == a.id.question && q.fact == a.fact;
      OwnQuestion(l, q);
    }
  }

  lemma OwnQuestion(l: Ledger, q: Question)
    requires Kept(l) && q in l.questions
    ensures q.caseId == l.caseId
  {
    hide Recomputed, AssertionsKept, ConsumptionsKept;
    var j :| 0 <= j < |l.questions| && l.questions[j] == q;
  }

  lemma AskKeepsOpen(l: Ledger, code: FactCode, globalAsks: nat, now: int)
    requires Kept(l) && OpenKept(l)
    ensures OpenKept(RecordQuestion(l, code, globalAsks, now).0)
  {
    hide Kept, Recomputed, Unknowable, QuestionAllowed, NoneAsserted;
    AskEffect(l, code, globalAsks, now);
    var (l', r) := RecordQuestion(l, code, globalAsks, now);
    if r.Ok? && r.value.created {
      AskedIsUnknowable(l, code, globalAsks);
      SameAnswering(l, l');
    } else {
      SameRows(l, l');
    }
  }

  lemma ApplyKeepsOpen(l: Ledger, op: Op, reader: Reader)
    requires Kept(l) && OpenKept(l)
    ensures OpenKept(Apply(l, op, reader))
  {
    hide Kept, OpenKept, AcceptMessage, RecordQuestion, Recomputed;
    match op
    case Posts(m) => SameRows(l, Post(l, m));
    case Replies(awaitingInput, messageId, batch) => ReplyKeepsOpen(l, awaitingInput, messageId, batch, reader);
    case Enquires(code, globalAsks, now) => AskKeepsOpen(l, code, globalAsks, now);
    case Refreshes => SameRows(l, Refresh(l).0);
    case ProofArrives(proof) => SameRows(l, l.(proof := Some(proof)));
  }

  lemma {:induction false} HistoryKeepsOpen(caseId: string, ledgers: seq<Ledger>, ops: seq<Op>, reader: Reader, k: nat)
    requires IsHistory(ledgers, ops, reader) && ledgers[0] == NewLedger(caseId) && k < |ledgers|
    ensures Kept(ledgers[k]) && OpenKept(ledgers[k])
    decreases k
  {
    hide Kept, OpenKept, Apply;
    NewLedgerKept(caseId);
    HistoryKeeps(ledgers, ops, reader, 0, k);
    if k == 0 {
      NothingOpen(caseId);
    } else {
      HistoryKeepsOpen(caseId, ledgers, ops, reader, k - 1);
      ApplyKeepsOpen(ledgers[k - 1], ops[k - 1], reader);
    }
  }

  lemma NothingOpen(caseId: string)
    ensures OpenKept(NewLedger(caseId))
  {
  }

  lemma NothingAssertedNoConflict(caseId: string, assertions: seq<Assertion>, questions: seq<Question>,
      proof: Option<ProofContext>, code: FactCode)
    requires Rebuilt(caseId, assertions, questions, proof).Some? && NoneAsserted(BySequence(assertions), code)
    ensures Rebuilt(caseId, assertions, questions, proof).value.Fact(code).status != Conflict
  {
    hide BySequence, Rebuilt, Surviving, OfFact;
    var ordered := BySequence(assertions);
    var own := OfFact(ordered, code);
    OfFactMembers(ordered, code);
    SurvivingMembers(own, own);
    assert forall i :: 0 <= i < |ordered| ==> ordered[i].fact != code by {
      assert forall i :: 0 <= i < |ordered| ==> ordered[i] in ordered;
    }
    ConflictExactly(caseId, assertions, questions, proof, code);
  }

  /**
   Where a question that is still open leaves its fact, whatever proof arrives: asked, and unknown and
   exhausted or in conflict and exhausted; in conflict only if the question was asked to settle one. The
   intake of a reply takes the question to be outstanding exactly when the fact is not in conflict.
   */
  lemma OpenQuestionLeaves(l: Ledger)
    requires Kept(l) && OpenKept(l) && IsOpen(l)
    ensures Recomputed(l).Some?
    ensures var q := l.questions[|l.questions| - 1];
      var fact, asked := Recomputed(l).value.Fact(q.fact).status, Recomputed(l).value.Asked(q.fact);
      && asked.asks > 0
      && asked.status == (if fact == Conflict then ConflictExhausted else UnknownExhausted)
      && (fact == Conflict ==> q.targeted)
      && (IsLookedFor(asked) <==> fact != Conflict)
  {
    hide Kept, Recomputed, Unknowable, Rebuilt, IsConsumed, NoneAsserted;
    var q := l.questions[|l.questions| - 1];
    KeptRebuilds(l);
    RecomputedIsRebuilt(l);
    KeptOrder(l);
    QuestionStatusExactly(l.caseId, l.assertions, l.questions, l.proof, q.fact);
    UnknowableIsUnknown(l.caseId, l.assertions, l.questions, l.proof, q.fact);
    if !q.targeted {
      NothingAssertedNoConflict(l.caseId, l.assertions, l.questions, l.proof, q.fact);
    }
    NewestCounts(l);
  }

  /** The states in which the intake of a reply takes a fact's question to be outstanding. */
  predicate IsLookedFor(asked: QuestionState) {
    asked.asks > 0 && asked.status in {Unanswered, ConflictRequiresClarification, UnknownExhausted}
  }

  lemma NewestCounts(l: Ledger)
    requires Kept(l) && l.questions != []
    ensures IsAsked(l.caseId, l.questions, l.questions[|l.questions| - 1].fact)
    ensures var q := l.questions[|l.questions| - 1]; q.targeted ==> IsAskedAgain(l.caseId, l.questions, q.fact)
  {
    assert l.questions[|l.questions| - 1] in l.questions;
  }
}
