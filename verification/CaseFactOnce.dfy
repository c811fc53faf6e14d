/** What a ledger that starts without rows can come to hold: one question and one assertion of each fact. */
module CaseFactOnce {
  import opened Options
  import opened CaseFacts
  import opened CaseFactMeaning
  import opened CaseFactLedger
  import opened CaseFactHistory
  import opened CaseFactGuarantees
  import opened CaseFactDecisions
  import opened CaseFactStatuses

  ghost predicate OneQuestionEach(questions: seq<Question>) {
    && (forall i :: 0 <= i < |questions| ==> !questions[i].targeted)
    && (forall i, j :: 0 <= i < j < |questions| ==> questions[i].fact != questions[j].fact)
  }

  ghost predicate OneAssertionEach(assertions: seq<Assertion>) {
    && (forall i :: 0 <= i < |assertions| ==> assertions[i].relation == New && assertions[i].supersedes == None)
    && (forall i, j :: 0 <= i < j < |assertions| ==> assertions[i].fact != assertions[j].fact)
  }

  ghost predicate Single(l: Ledger) {
    OneQuestionEach(l.questions) && OneAssertionEach(l.assertions)
  }

  /** With one assertion of each fact nothing disagrees. */
  lemma SingleNeverConflicts(l: Ledger, code: FactCode)
    requires Kept(l) && OneAssertionEach(l.assertions)
    ensures Recomputed(l).Some? && Recomputed(l).value.Fact(code).status != Conflict
  {
    hide Kept, Rebuilt, Recomputed, Surviving, OfFact, InvalidSupersession, CompetingSupersession;
    KeptRebuilds(l);
    RecomputedIsRebuilt(l);
    KeptOrder(l);
    ConflictExactly(l.caseId, l.assertions, l.questions, l.proof, code);
    var own := OfFact(l.assertions, code);
    OfFactMembers(l.assertions, code);
    SurvivingMembers(own, own);
    forall a, b | a in Surviving(own, own) && b in Surviving(own, own) ensures a == b {
      var i :| 0 <= i < |l.assertions| && l.assertions[i] == a;
      var j :| 0 <= j < |l.assertions| && l.assertions[j] == b;
    }
  }

  lemma AskKeepsSingle(l: Ledger, code: FactCode, globalAsks: nat, now: int)
    requires Kept(l) && Single(l)
    ensures Single(RecordQuestion(l, code, globalAsks, now).0)
  {
    hide Kept, Recomputed, RecordQuestion;
    SingleNeverConflicts(l, code);
    QuestionIsAskedExactly(l, code, globalAsks, now);
    if !IsAsked(l.caseId, l.questions, code) {
      NotAskedBefore(l, code);
    }
  }

  lemma NotAskedBefore(l: Ledger, code: FactCode)
    requires Kept(l) && !IsAsked(l.caseId, l.questions, code)
    ensures forall i :: 0 <= i < |l.questions| ==> l.questions[i].fact != code
  {
    forall i | 0 <= i < |l.questions| ensures l.questions[i].fact != code {
      assert l.questions[i] in l.questions;
    }
  }

  lemma ReplyKeepsSingle(l: Ledger, awaitingInput: bool, messageId: string, batch: seq<RawItem>, reader: Reader)
    requires Kept(l) && OpenKept(l) && Single(l)
    ensures Single(AcceptMessage(l, awaitingInput, messageId, batch, reader).0)
  {
    hide Kept, AcceptMessage, OpenKept, Answers, ReasonFor, IsConsumed, Asserts;
    DeliveryAsksNothing(l, awaitingInput, messageId, batch, reader);
    var found := FindMessage(l.messages, messageId);
    if found == None || l.questions == [] {
      NothingToAnswer(l, awaitingInput, messageId, batch, reader);
    } else if ConsumptionOfMessage(l.consumptions, messageId).Some? {
      LaterDeliveryRepeats(l, awaitingInput, found.value, ConsumptionOfMessage(l.consumptions, messageId).value,
          batch, reader);
    } else {
      var m, q := found.value, l.questions[|l.questions| - 1];
      FirstDeliveryIsDecidedByTheReply(l, awaitingInput, m, q, batch, reader);
      var (l', r) := AcceptMessage(l, awaitingInput, messageId, batch, reader);
      if r.Ok? && r.value.accepted {
        AssertsTheFirst(l, l', q, m, batch, reader);
      }
    }
  }

  lemma AssertsTheFirst(l: Ledger, l': Ledger, q: Question, m: Message, batch: seq<RawItem>, reader: Reader)
    requires OpenKept(l) && Single(l) && IsOpen(l) && q == l.questions[|l.questions| - 1]
    requires Answers(l, q, m, batch, reader)
    requires Asserts(l, l', q, m, batch[0].candidate, reader(m.content, q.fact))
    ensures OneAssertionEach(l'.assertions)
  {
    hide Unknowable, Answering, IsConsumed;
    var n := |l.assertions|;
    assert NoneAsserted(l.assertions, q.fact);
    assert forall i :: 0 <= i < n ==> l'.assertions[i] == l'.assertions[..n][i];
    forall i | 0 <= i < n ensures l.assertions[i].fact != q.fact {
      assert l.assertions[i] in l.assertions;
    }
  }

  lemma ApplyKeepsSingle(l: Ledger, op: Op, reader: Reader)
    requires Kept(l) && OpenKept(l) && Single(l)
    ensures Single(Apply(l, op, reader))
  {
    hide Kept, OpenKept, AcceptMessage, RecordQuestion, Recomputed;
    match op
    case Replies(awaitingInput, messageId, batch) => ReplyKeepsSingle(l, awaitingInput, messageId, batch, reader);
    case Enquires(code, globalAsks, now) => AskKeepsSingle(l, code, globalAsks, now);
    case _ =>
  }

  lemma {:induction false} HistoryKeepsSingle(caseId: string, ledgers: seq<Ledger>, ops: seq<Op>, reader: Reader,
      k: nat)
    requires IsHistory(ledgers, ops, reader) && ledgers[0] == NewLedger(caseId) && k < |ledgers|
    ensures Single(ledgers[k])
    decreases k
  {
    hide Kept, OpenKept, Apply, Single;
    if k == 0 {
      assert Single(NewLedger(caseId)) by { NothingYet(caseId); }
    } else {
      HistoryKeepsSingle(caseId, ledgers, ops, reader, k - 1);
      HistoryKeepsOpen(caseId, ledgers, ops, reader, k - 1);
      ApplyKeepsSingle(ledgers[k - 1], ops[k - 1], reader);
    }
  }

  lemma NothingYet(caseId: string)
    ensures Single(NewLedger(caseId))
  {
  }

  lemma OneAskEach(l: Ledger)
    requires Kept(l) && OneQuestionEach(l.questions) && l.questions != []
    ensures (set i: nat | i < |l.questions| && l.questions[i].caseId == l.caseId
                          && l.questions[i].fact == l.questions[|l.questions| - 1].fact) == {|l.questions| - 1}
  {
  }

  /**
   A Case that starts without rows is asked each fact at most once and asserts each fact at most once:
   no fact ever comes into conflict, no question is asked to settle a conflict, and no accepted reply
   corrects, repeats or withdraws anything, since a fact that was asked is never asked again and the
   only reply to its question comes before any assertion of it.
   */
  lemma EachFactIsAskedAndAssertedOnce(caseId: string, ledgers: seq<Ledger>, ops: seq<Op>, reader: Reader, k: nat,
      code: FactCode)
    requires IsHistory(ledgers, ops, reader) && ledgers[0] == NewLedger(caseId) && k < |ledgers|
    ensures Single(ledgers[k]) && Recomputed(ledgers[k]).Some?
    ensures Recomputed(ledgers[k]).value.Fact(code).status != Conflict && !Withdrawn(ledgers[k], code)
  {
    hide Kept, OpenKept, IsHistory, Recomputed;
    HistoryKeepsSingle(caseId, ledgers, ops, reader, k);
    HistoryKeepsOpen(caseId, ledgers, ops, reader, k);
    SingleNeverConflicts(ledgers[k], code);
  }

  /**
   The question a customer is still to answer is always found. In every ledger grown from empty, as long
   as the newest question has not been consumed, its fact shows it as the intake of a reply looks for it:
   asked once, unknown and exhausted, whatever proof arrives.
   */
  lemma OpenQuestionShows(caseId: string, ledgers: seq<Ledger>, ops: seq<Op>, reader: Reader, k: nat)
    requires IsHistory(ledgers, ops, reader) && ledgers[0] == NewLedger(caseId) && k < |ledgers|
    requires IsOpen(ledgers[k])
    ensures Recomputed(ledgers[k]).Some?
    ensures var l := ledgers[k];
      var fact := l.questions[|l.questions| - 1].fact;
      && Recomputed(l).value.Fact(fact).status == UnknownFact
      && Recomputed(l).value.Asked(fact) == QuestionState(1, UnknownExhausted)
      && IsLookedFor(Recomputed(l).value.Asked(fact))
  {
    hide Kept, OpenKept, IsHistory, IsConsumed, Recomputed, Rebuilt;
    var l := ledgers[k];
    var fact := l.questions[|l.questions| - 1].fact;
    HistoryKeepsSingle(caseId, ledgers, ops, reader, k);
    HistoryKeepsOpen(caseId, ledgers, ops, reader, k);
    OpenQuestionLeaves(l);
    SingleNeverConflicts(l, fact);
    RecomputedIsRebuilt(l);
    QuestionStatusExactly(l.caseId, l.assertions, l.questions, l.proof, fact);
    OneAskEach(l);
  }

  // ---------- Ledgers with rows of their own ----------

  const MISSING_ID := QuestionId(StillReportsMissing, None, false)
  const SETTLING_ID := QuestionId(StillReportsMissing, None, true)
  const FIRST_CANDIDATE := Candidate(StillReportsMissing, HoldsTrue, New, None, 0, 1)
  const FIRST_ID := AssertionId(MISSING_ID, "m1", FIRST_CANDIDATE, None)
  const WITHDRAWING := Candidate(StillReportsMissing, Unknown, Withdrawal, Some(FIRST_ID), 0, 1)

  /** A ledger whose fact was asserted once and is asked about again. */
  function AskedAgain(caseId: string): Ledger {
    Ledger(caseId,
      [Message("m1", Some(caseId), true, "y", 1), Message("m2", Some(caseId), true, "w", 3)],
      [Assertion(FIRST_ID, caseId, StillReportsMissing, HoldsTrue, "m1", "y", 0, 1, New, None, None, 1)],
      [Question(MISSING_ID, caseId, StillReportsMissing, false, 0),
       Question(SETTLING_ID, caseId, StillReportsMissing, true, 2)],
      [Consumption(MISSING_ID, "m1", "y", [Parsed(FIRST_CANDIDATE)], AcceptedReply, AcceptedInterpretation,
                   Some(FIRST_ID),
                   Decision(true, AcceptedInterpretation, Some(FIRST_ID), [Parsed(FIRST_CANDIDATE)]))],
      None, None)
  }

  lemma AskedAgainIsKept(caseId: string)
    ensures Kept(AskedAgain(caseId))
  {
    var l := AskedAgain(caseId);
    assert FindMessage(l.messages, "m1") == Some(l.messages[0]);
    assert l.assertions[0].id == FIRST_ID;
    assert HasAssertion(l.assertions, Some(FIRST_ID));
    assert l.questions[0].id == MISSING_ID;
    assert HasQuestion(l.questions, MISSING_ID);
    TwoAsks(caseId, l.questions);
  }

  lemma TwoAsks(caseId: string, questions: seq<Question>)
    requires questions == AskedAgain(caseId).questions
    ensures forall code :: AskedOnce(caseId, questions, code)
  {
    forall code ensures AskedOnce(caseId, questions, code) {
      assert questions[..1][..0] == [];
      assert CountAsks(caseId, questions[..1], code, false) == if code == StillReportsMissing then 1 else 0;
      assert CountAsks(caseId, questions[..1], code, true) == 0;
    }
  }

  /** So what is said of withdrawals is said of something: in a kept ledger of two questions a reply withdraws. */
  lemma WithdrawalIsAccepted(caseId: string) returns (l: Ledger, batch: seq<RawItem>, reader: Reader)
    ensures Kept(l) && l.caseId == caseId
    ensures var (l', r) := AcceptMessage(l, true, "m2", batch, reader);
      r.Ok? && r.value.accepted && Kept(l') && Withdrawn(l', StillReportsMissing)
  {
    l, batch := AskedAgain(caseId), [Parsed(WITHDRAWING)];
    reader := (content, fact) => Reading(Some(Unknown), false, true);
    AskedAgainIsKept(caseId);
    var m, q := l.messages[1], l.questions[1];
    assert FindMessage(l.messages, "m2") == Some(m);
    assert FirstDelivery(l, m, q);
    assert IsLastReply(caseId, l.messages, 1, m);
    assert IsInTime(l, m, q);
    assert ActiveAt(l.assertions, 0, StillReportsMissing);
    assert NewestAt(l.assertions, 0, StillReportsMissing);
    assert Answers(l, q, m, batch, reader);
    FirstDeliveryIsDecidedByTheReply(l, true, m, q, batch, reader);
    AcceptedWithdrawal(l, true, "m2", batch, reader);
    AcceptKeeps(l, true, "m2", batch, reader);
  }
}
