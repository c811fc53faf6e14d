/** What every history of service calls keeps true of a case-fact ledger. */
module CaseFactHistory {
  import opened Options
  import opened CaseFacts
  import opened Lookup
  import opened CaseFactMeaning
  import opened CaseFactLedger

  // ---------- The invariant ----------

  ghost predicate UniqueMessages(messages: seq<Message>) {
    forall i, j :: 0 <= i < j < |messages| ==> messages[i].id != messages[j].id
  }

  /** Every supersession is of an earlier assertion of the same fact, and no two are of the same one. */
  ghost predicate WellSuperseded(assertions: seq<Assertion>) {
    && (forall i :: 0 <= i < |assertions| && assertions[i].supersedes.Some? ==> ProperTarget(assertions, i))
    && (forall i, k :: 0 <= i < k < |assertions| && assertions[i].supersedes.Some? ==>
         assertions[i].supersedes != assertions[k].supersedes)
  }

  /** An assertion is bound, its source message is intact, and a consumption accounts for it. */
  ghost predicate Accounted(l: Ledger, a: Assertion) {
    && Bound(a) && SourceIntact(l, a) && a.id.message == a.message
    && ConsumptionOfMessage(l.consumptions, a.message).Some?
  }

  ghost predicate AssertionsKept(l: Ledger) {
    && Intact(l.caseId, l.assertions) && WellSuperseded(l.assertions)
    && forall i :: 0 <= i < |l.assertions| ==> Accounted(l, l.assertions[i])
  }

  /** At most one ordinary and one targeted question of each fact. */
  ghost predicate AskedOnce(caseId: string, questions: seq<Question>, code: FactCode) {
    && TargetedAsks(caseId, questions, code) <= 1
    && Asks(caseId, questions, code) <= TargetedAsks(caseId, questions, code) + 1
  }

  ghost predicate QuestionsKept(l: Ledger) {
    && (forall i :: 0 <= i < |l.questions| ==>
          l.questions[i].caseId == l.caseId && l.questions[i].id.fact == l.questions[i].fact
              && l.questions[i].id.targeted == l.questions[i].targeted)
    && (forall i, j :: 0 <= i < j < |l.questions| ==> l.questions[i].id != l.questions[j].id)
    && forall code :: AskedOnce(l.caseId, l.questions, code)
  }

  /** Consumptions are intact and pair questions and messages one to one. */
  ghost predicate ConsumptionsKept(l: Ledger) {
    && (forall i :: 0 <= i < |l.consumptions| ==>
          ConsumptionIntact(l, l.consumptions[i])
              && l.consumptions[i].assertion.Some? == l.consumptions[i].decision.accepted)
    && (forall i, j :: 0 <= i < j < |l.consumptions| ==>
          l.consumptions[i].question != l.consumptions[j].question
              && l.consumptions[i].message != l.consumptions[j].message)
  }

  function Revision(l: Ledger): nat {
    |l.assertions| + OwnQuestions(l.caseId, l.questions)
  }

  ghost predicate Kept(l: Ledger) {
    && UniqueMessages(l.messages) && AssertionsKept(l) && QuestionsKept(l) && ConsumptionsKept(l)
    && (l.stored.Some? ==> l.stored.value.revision <= Revision(l))
  }

  // ---------- A kept ledger rebuilds ----------

  lemma InOrder(assertions: seq<Assertion>)
    requires Contiguous(assertions)
    ensures BySequence(assertions) == assertions
  {
    ContiguousSorts(assertions, assertions);
  }

  /** No integrity error, no invalid and no competing supersession. */
  lemma KeptRebuilds(l: Ledger)
    requires Kept(l)
    ensures Recomputed(l) == Some(SnapshotOf(l.caseId, l.assertions, l.questions, l.proof))
    ensures RowsVerified(l) && Recomputed(l).value.revision == Revision(l)
    ensures forall code :: !InvalidSupersession(l.assertions, code) && !CompetingSupersession(l.assertions, code)
  {
    hide FactOf, QuestionStateFor, BySequence, SourceIntact, ConsumptionIntact, Bound;
    InOrder(l.assertions);
    assert AskedOnce(l.caseId, l.questions, StillReportsMissing) && AskedOnce(l.caseId, l.questions, LocationChecked);
    assert forall i :: 0 <= i < |l.assertions| ==> Accounted(l, l.assertions[i]);
  }

  // ---------- Messages ----------

  lemma FoundStays(messages: seq<Message>, m: Message, id: string)
    requires FindMessage(messages, id).Some?
    ensures FindMessage(messages + [m], id) == FindMessage(messages, id)
  {
    FoundInPrefix(messages, messages + [m], MessageId, id);
  }

  function Post(l: Ledger, m: Message): Ledger {
    if FindMessage(l.messages, m.id).Some? then l else l.(messages := l.messages + [m])
  }

  lemma PostKeeps(l: Ledger, m: Message)
    requires Kept(l)
    ensures Kept(Post(l, m))
  {
    hide Bound, WellSuperseded, Intact, AskedOnce;
    var l' := Post(l, m);
    if l' != l {
      forall i | 0 <= i < |l.assertions| ensures Accounted(l', l.assertions[i]) {
        assert Accounted(l, l.assertions[i]);
        FoundStays(l.messages, m, l.assertions[i].message);
      }
      forall i | 0 <= i < |l.consumptions| ensures ConsumptionIntact(l', l.consumptions[i]) {
        assert ConsumptionIntact(l, l.consumptions[i]);
        FoundStays(l.messages, m, l.consumptions[i].message);
      }
    }
  }

  // ---------- Refreshing ----------

  /** Refreshing a kept ledger always succeeds, changes only the projection, and makes it current. */
  lemma RefreshKeeps(l: Ledger)
    requires Kept(l)
    ensures Refresh(l).1.Ok? && Refresh(l).0 == l.(stored := Recomputed(l)) && Kept(Refresh(l).0)
    ensures Recomputed(Refresh(l).0) == Recomputed(l)
  {
    KeptRebuilds(l);
    ProjectionIsDerived(l, Recomputed(l));
  }

  /** The rows and their recomputation do not depend on what is stored. */
  lemma ProjectionIsDerived(l: Ledger, stored: Option<Snapshot>)
    ensures Recomputed(l.(stored := stored)) == Recomputed(l)
    ensures AssertionsKept(l.(stored := stored)) == AssertionsKept(l)
    ensures QuestionsKept(l.(stored := stored)) == QuestionsKept(l)
    ensures ConsumptionsKept(l.(stored := stored)) == ConsumptionsKept(l)
  {
    var l' := l.(stored := stored);
    hide Bound, WellSuperseded, Intact, AskedOnce, Rebuilt;
    assert forall a :: SourceIntact(l', a) == SourceIntact(l, a);
    assert forall c :: ConsumptionIntact(l', c) == ConsumptionIntact(l, c);
    assert forall a :: Accounted(l', a) == Accounted(l, a);
  }

  // ---------- Accepting a reply ----------

  /**
   What an interpretation rests on. It spans the reply and has the value the reply supports; a targeted
   one names the newest active assertion of its fact, and only a withdrawal can name a withdrawal; a
   correction changes one known value into the other; a repeat has its like among the active assertions
   and a new one has none.
   */
  lemma InterpretTarget(content: string, fact: FactCode, reading: Reading, active: seq<Assertion>,
      proof: Option<ProofContext>)
    requires Interpret(content, fact, reading, active, proof).Some?
    ensures var c := Interpret(content, fact, reading, active, proof).value;
      && c.fact == fact && c.spanStart == 0 && c.spanEnd == |content| > 0 && Some(c.value) == reading.value
      && Targeted(c.relation) == c.target.Some?
      && (c.relation == Withdrawal ==> c.value == Unknown && reading.withdrawal)
      && (fact == LocationChecked && c.value != Unknown ==> proof.Some?)
      && (c.target.Some? ==>
            exists a ::
              && a in active && a.fact == fact && c.target == Some(a.id) && IsNewestOf(active, a)
              && (a.value == Unknown ==> c.relation == Withdrawal)
              && (c.relation == Correction ==>
                    reading.correction && Unknown !in {c.value, a.value} && c.value != a.value))
      && (c.relation == Repeat ==> exists a :: a in active && a.fact == fact && a.value == c.value)
      && (c.relation == New ==> forall a :: a in active && a.fact == fact ==> a.value != c.value)
  {
    var same := OfFact(active, fact);
    OfFactMembers(active, fact);
    assert AssertsValue(same, reading.value.value) <==> exists a :: a in same && a.value == reading.value.value;
    if same != [] {
      assert same[|same| - 1] in same;
      LastOfFactIsNewest(active, fact);
    }
  }

  /** No later assertion in the list is of the same fact. */
  ghost predicate IsNewestOf(assertions: seq<Assertion>, a: Assertion) {
    exists i :: 0 <= i < |assertions| && assertions[i] == a && forall j :: i < j < |assertions| ==>
        assertions[j].fact != a.fact
  }

  lemma {:induction false} LastOfFactIsNewest(assertions: seq<Assertion>, fact: FactCode)
    requires OfFact(assertions, fact) != []
    ensures var same := OfFact(assertions, fact);
      same[|same| - 1].fact == fact && IsNewestOf(assertions, same[|same| - 1])
    decreases |assertions|
  {
    var n := |assertions| - 1;
    var same := OfFact(assertions, fact);
    if assertions[n].fact == fact {
      assert same[|same| - 1] == assertions[n];
    } else {
      assert same == OfFact(assertions[..n], fact);
      LastOfFactIsNewest(assertions[..n], fact);
      var a := same[|same| - 1];
      var i :| 0 <= i < n && assertions[..n][i] == a && forall j :: i < j < n ==> assertions[..n][j].fact != a.fact;
      assert assertions[i] == a;
      assert forall j :: i < j < |assertions| ==> assertions[j].fact != a.fact by {
        assert forall j :: i < j < n ==> assertions[..n][j] == assertions[j];
      }
    }
  }

  lemma ActiveMembers(assertions: seq<Assertion>, a: Assertion)
    ensures a in Surviving(assertions, assertions) <==> a in assertions && !IsSuperseded(assertions, a.id)
  {
    SurvivingMembers(assertions, assertions);
  }

  /** What Decide yields, in terms of the rows it was given. */
  lemma DecidedAssertion(l: Ledger, q: Question, m: Message, batch: seq<RawItem>, reader: Reader)
    ensures var (d, a) := Decide(l, q, m, batch, reader);
      && d.accepted == a.Some? && d.batch == batch && d.accepted == d.assertion.Some?
      && (a.Some? ==>
            && d.assertion == Some(a.value.id) && a.value.id.message == m.id && a.value.message == m.id
            && a.value.caseId == l.caseId && a.value.sequence == |l.assertions| + 1
            && a.value.sourceContent == m.content && a.value.spanEnd == |m.content| && a.value.fact == q.fact
            && (a.value.relation == Withdrawal ==> a.value.value == Unknown)
            && (a.value.supersedes.Some? ==>
                  exists b :: b in l.assertions && !IsSuperseded(l.assertions, b.id) && b.fact == q.fact
                    && a.value.supersedes == Some(b.id) && (b.value == Unknown ==> a.value.relation == Withdrawal)))
  {
    hide Interpret, Surviving;
    var (d, a) := Decide(l, q, m, batch, reader);
    if a.Some? {
      var active := Surviving(l.assertions, l.assertions);
      InterpretTarget(m.content, q.fact, reader(m.content, q.fact), active, l.proof);
      var c := batch[0].candidate;
      if c.target.Some? {
        var b :| b in active && b.fact == q.fact && c.target == Some(b.id)
            && (b.value == Unknown ==> c.relation == Withdrawal);
        ActiveMembers(l.assertions, b);
      }
    }
  }

  /** Appending an assertion that supersedes an unsuperseded earlier one of its fact, or none. */
  lemma WellSupersededSnoc(assertions: seq<Assertion>, a: Assertion)
    requires WellSuperseded(assertions)
    requires a.supersedes.Some? ==>
      exists b :: b in assertions && !IsSuperseded(assertions, b.id) && b.fact == a.fact && a.supersedes == Some(b.id)
    ensures WellSuperseded(assertions + [a])
  {
    var longer := assertions + [a];
    var n := |assertions|;
    forall i | 0 <= i <= n && longer[i].supersedes.Some? ensures ProperTarget(longer, i) {
      if i < n {
        assert ProperTarget(assertions, i);
        var j :| 0 <= j < i && Some(assertions[j].id) == assertions[i].supersedes
            && assertions[j].fact == assertions[i].fact;
        assert longer[j] == assertions[j];
      } else {
        var b :| b in assertions && !IsSuperseded(assertions, b.id) && b.fact == a.fact && a.supersedes == Some(b.id);
        var j :| 0 <= j < n && assertions[j] == b;
        assert longer[j] == b;
      }
    }
    forall i, k | 0 <= i < k <= n && longer[i].supersedes.Some? ensures longer[i].supersedes != longer[k].supersedes {
      assert longer[i] == assertions[i];
      if k < n {
        assert longer[k] == assertions[k];
      } else if a.supersedes.Some? {
        var b :| b in assertions && !IsSuperseded(assertions, b.id) && b.fact == a.fact && a.supersedes == Some(b.id);
        assert assertions[i].supersedes != Some(b.id);
      }
    }
  }

  /** The new assertion's id is its own: no earlier assertion came from this message. */
  lemma IntactSnoc(l: Ledger, a: Assertion)
    requires AssertionsKept(l) && ConsumptionOfMessage(l.consumptions, a.message) == None
    requires a.id.message == a.message && a.caseId == l.caseId && a.sequence == |l.assertions| + 1
    ensures Intact(l.caseId, l.assertions + [a])
  {
    hide Bound, SourceIntact;
    forall i | 0 <= i < |l.assertions| ensures l.assertions[i].id != a.id {
      assert Accounted(l, l.assertions[i]);
    }
  }

  lemma ConsumptionStays(consumptions: seq<Consumption>, c: Consumption, message: string)
    ensures ConsumptionOfMessage(consumptions, message).Some? ==>
      ConsumptionOfMessage(consumptions + [c], message) == ConsumptionOfMessage(consumptions, message)
    ensures ConsumptionOfMessage(consumptions, message) == None && c.message == message ==>
      ConsumptionOfMessage(consumptions + [c], message) == Some(c)
  {
    if ConsumptionOfMessage(consumptions, message).Some? {
      FoundInPrefix(consumptions, consumptions + [c], SourceOf, message);
    } else if c.message == message {
      NewIsFound(consumptions, c, SourceOf);
    }
  }

  /** The rows after a first delivery: at most one more assertion, exactly one more consumption. */
  function Consumed(l: Ledger, q: Question, m: Message, batch: seq<RawItem>, reader: Reader): Ledger {
    var (d, a) := Decide(l, q, m, batch, reader);
    l.(assertions := l.assertions + (if a.Some? then [a.value] else []),
       consumptions := l.consumptions + [ConsumptionOf(q, m, batch, d)])
  }

  /** When a first delivery is let through to a decision. */
  ghost predicate Deliverable(l: Ledger, q: Question, m: Message) {
    && l.questions != [] && q == l.questions[|l.questions| - 1]
    && FindMessage(l.messages, m.id) == Some(m) && IsReply(l.caseId, m)
    && ConsumptionOfMessage(l.consumptions, m.id) == None && !IsConsumed(l.consumptions, q.id)
  }

  lemma ConsumedAssertionsKept(l: Ledger, q: Question, m: Message, batch: seq<RawItem>, reader: Reader)
    requires AssertionsKept(l) && Deliverable(l, q, m)
    requires var a := Decide(l, q, m, batch, reader).1; a.Some? ==> Bound(a.value)
    ensures AssertionsKept(Consumed(l, q, m, batch, reader))
  {
    hide Decide, Bound, Intact, WellSuperseded;
    DecidedAssertion(l, q, m, batch, reader);
    var (d, a) := Decide(l, q, m, batch, reader);
    var l' := Consumed(l, q, m, batch, reader);
    forall i | 0 <= i < |l.assertions| ensures Accounted(l', l.assertions[i]) {
      assert Accounted(l, l.assertions[i]);
      ConsumptionStays(l.consumptions, ConsumptionOf(q, m, batch, d), l.assertions[i].message);
    }
    if a.Some? {
      IntactSnoc(l, a.value);
      WellSupersededSnoc(l.assertions, a.value);
      ConsumptionStays(l.consumptions, ConsumptionOf(q, m, batch, d), m.id);
      assert Accounted(l', a.value);
    } else {
      assert l'.assertions == l.assertions;
    }
  }

  lemma ConsumedConsumptionsKept(l: Ledger, q: Question, m: Message, batch: seq<RawItem>, reader: Reader)
    requires ConsumptionsKept(l) && Deliverable(l, q, m)
    ensures ConsumptionsKept(Consumed(l, q, m, batch, reader))
  {
    hide Decide;
    DecidedAssertion(l, q, m, batch, reader);
    var (d, a) := Decide(l, q, m, batch, reader);
    var l' := Consumed(l, q, m, batch, reader);
    forall i | 0 <= i < |l.consumptions| ensures ConsumptionIntact(l', l.consumptions[i]) {
      AssertionStillFound(l.assertions, a, l.consumptions[i].assertion);
    }
    var c := ConsumptionOf(q, m, batch, d);
    assert ConsumptionIntact(l', c) by {
      assert l.questions[|l.questions| - 1].id == q.id;
      AssertionStillFound(l.assertions, a, c.assertion);
      assert a.Some? ==> l'.assertions[|l.assertions|] == a.value;
    }
    forall i | 0 <= i < |l.consumptions| ensures l.consumptions[i].question != c.question
        && l.consumptions[i].message != c.message {
      assert l.consumptions[i] in l.consumptions;
    }
  }

  lemma AssertionStillFound(assertions: seq<Assertion>, a: Option<Assertion>, id: Option<AssertionId>)
    ensures HasAssertion(assertions, id) ==> HasAssertion(assertions + (if a.Some? then [a.value] else []), id)
    ensures id == None ==> !HasAssertion(assertions + (if a.Some? then [a.value] else []), id)
  {
    if HasAssertion(assertions, id) {
      var i :| 0 <= i < |assertions| && Some(assertions[i].id) == id;
      assert (assertions + (if a.Some? then [a.value] else []))[i] == assertions[i];
    }
  }

  /** The rows verified before a consumption is appended are among those verified after. */
  lemma WithoutNewConsumption(l: Ledger, c: Consumption)
    requires RowsVerified(l.(consumptions := l.consumptions + [c]))
    ensures RowsVerified(l) && Recomputed(l) == Recomputed(l.(consumptions := l.consumptions + [c]))
  {
    hide Rebuilt;
    var l' := l.(consumptions := l.consumptions + [c]);
    forall i | 0 <= i < |l.assertions| ensures SourceIntact(l, l.assertions[i]) {
      assert SourceIntact(l', l'.assertions[i]);
    }
    forall i | 0 <= i < |l.consumptions| ensures ConsumptionIntact(l, l.consumptions[i]) {
      assert ConsumptionIntact(l', l'.consumptions[i]);
    }
  }

  /** A first delivery either breaks the assertion contract and changes nothing, or leaves a kept, current ledger. */
  lemma ConsumeEffect(l: Ledger, q: Question, m: Message, batch: seq<RawItem>, reader: Reader)
    requires Kept(l) && Deliverable(l, q, m)
    ensures var (l', r) := Consume(l, q, m, batch, reader);
      && (r.Refused? ==> l' == l && r.reason == AssertionContractViolated)
      && (r.Refused? <==> Decide(l, q, m, batch, reader).1.Some? && !Bound(Decide(l, q, m, batch, reader).1.value))
      && (r.Ok? ==> Kept(l') && r.value == Decide(l, q, m, batch, reader).0
                    && l' == Consumed(l, q, m, batch, reader).(stored := Recomputed(l')))
  {
    hide AssertionsKept, QuestionsKept, ConsumptionsKept, UniqueMessages, Decide, Bound, Recomputed, RowsVerified;
    var (d, a) := Decide(l, q, m, batch, reader);
    if a.Some? && !Bound(a.value) {
      assert Consume(l, q, m, batch, reader).1.Refused?;
    } else {
      var l1 := Consumed(l, q, m, batch, reader);
      ConsumedAssertionsKept(l, q, m, batch, reader);
      ConsumedConsumptionsKept(l, q, m, batch, reader);
      assert QuestionsKept(l1) by { SameQuestions(l, l1); }
      KeptRebuilds(l1);
      var appended := l.(assertions := l1.assertions);
      WithoutNewConsumption(appended, ConsumptionOf(q, m, batch, d));
      ProjectionIsDerived(l1, Recomputed(l1));
    }
  }

  lemma SameQuestions(l: Ledger, l': Ledger)
    requires l'.caseId == l.caseId && l'.questions == l.questions
    ensures QuestionsKept(l') == QuestionsKept(l)
  {
    hide AskedOnce;
  }

  lemma AcceptKeeps(l: Ledger, awaitingInput: bool, messageId: string, batch: seq<RawItem>, reader: Reader)
    requires Kept(l)
    ensures Kept(AcceptMessage(l, awaitingInput, messageId, batch, reader).0)
  {
    hide Kept, Consume, Refresh, CurrentReply, FindMessage, ConsumptionOfMessage, IsConsumed, IsReply;
    RefreshKeeps(l);
    var found := FindMessage(l.messages, messageId);
    if found.Some? && l.questions != [] {
      var m, q := found.value, l.questions[|l.questions| - 1];
      if ConsumptionOfMessage(l.consumptions, messageId) == None && !IsConsumed(l.consumptions, q.id)
          && IsReply(l.caseId, m) {
        ConsumeEffect(l, q, m, batch, reader);
      }
    }
  }

  // ---------- Asking ----------

  lemma CountSnoc(caseId: string, questions: seq<Question>, q: Question, code: FactCode, targetedOnly: bool)
    ensures CountAsks(caseId, questions + [q], code, targetedOnly)
         == CountAsks(caseId, questions, code, targetedOnly) + if CountsAs(caseId, q, code, targetedOnly) then 1 else 0
  {
    assert (questions + [q])[..|questions|] == questions;
  }

  /** An allowed question is the first of its kind for its fact. */
  lemma AllowedIsFirst(l: Ledger, code: FactCode, globalAsks: nat, now: int)
    requires Kept(l)
    requires QuestionAllowed(SnapshotOf(l.caseId, l.assertions, l.questions, l.proof), code, globalAsks)
    ensures var q := QuestionOn(l, SnapshotOf(l.caseId, l.assertions, l.questions, l.proof), code, now);
      forall c :: AskedOnce(l.caseId, l.questions + [q], c)
  {
    hide FactOf, CountAsks;
    var q := QuestionOn(l, SnapshotOf(l.caseId, l.assertions, l.questions, l.proof), code, now);
    forall c ensures AskedOnce(l.caseId, l.questions + [q], c) {
      assert AskedOnce(l.caseId, l.questions, c);
      CountSnoc(l.caseId, l.questions, q, c, false);
      CountSnoc(l.caseId, l.questions, q, c, true);
    }
  }

  lemma AskedQuestionsKept(l: Ledger, q: Question)
    requires QuestionsKept(l) && q.caseId == l.caseId && q.id.fact == q.fact && q.id.targeted == q.targeted
    requires !HasQuestion(l.questions, q.id) && forall c :: AskedOnce(l.caseId, l.questions + [q], c)
    ensures QuestionsKept(l.(questions := l.questions + [q]))
  {
    hide AskedOnce;
  }

  lemma MoreQuestions(l: Ledger, q: Question)
    requires AssertionsKept(l) && ConsumptionsKept(l)
    ensures AssertionsKept(l.(questions := l.questions + [q])) && ConsumptionsKept(l.(questions := l.questions + [q]))
  {
    hide Bound, Intact, WellSuperseded;
    var l' := l.(questions := l.questions + [q]);
    assert forall a :: SourceIntact(l', a) == SourceIntact(l, a);
    assert forall a :: Accounted(l', a) == Accounted(l, a);
    forall i | 0 <= i < |l.consumptions| ensures ConsumptionIntact(l', l.consumptions[i]) {
      assert ConsumptionIntact(l, l.consumptions[i]);
      var j :| 0 <= j < |l.questions| && l.questions[j].id == l.consumptions[i].question;
      assert l'.questions[j] == l.questions[j];
    }
  }

  lemma AskEffect(l: Ledger, code: FactCode, globalAsks: nat, now: int)
    requires Kept(l)
    ensures var (l', r) := RecordQuestion(l, code, globalAsks, now);
      && Kept(l')
      && (r.Refused? ==> l' == l && r.reason == QuestionNotAllowed)
      && (r.Ok? && !r.value.created ==> l' == l)
      && (r.Ok? && r.value.created ==>
            l' == l.(questions := l.questions + [r.value.question], stored := l'.stored) && l'.stored == Recomputed(l'))
  {
    hide AssertionsKept, QuestionsKept, ConsumptionsKept, UniqueMessages, QuestionAllowed, SnapshotOf;
    KeptRebuilds(l);
    hide Recomputed;
    var snapshot := SnapshotOf(l.caseId, l.assertions, l.questions, l.proof);
    var q := QuestionOn(l, snapshot, code, now);
    if !HasQuestion(l.questions, q.id) && QuestionAllowed(snapshot, code, globalAsks) {
      var asked := l.(questions := l.questions + [q]);
      AllowedIsFirst(l, code, globalAsks, now);
      AskedQuestionsKept(l, q);
      MoreQuestions(l, q);
      RevisionGrows(l, q);
      RefreshKeeps(asked);
    }
  }

  lemma RevisionGrows(l: Ledger, q: Question)
    ensures Revision(l) <= Revision(l.(questions := l.questions + [q]))
  {
    CountSnoc(l.caseId, l.questions, q, StillReportsMissing, false);
    CountSnoc(l.caseId, l.questions, q, LocationChecked, false);
  }

  /**
   A question found already recorded is never still open: so asking it again can never be the step
   that leaves a fact waiting for a first answer.
   */
  lemma RecordedQuestionIsNotOpen(l: Ledger, code: FactCode, globalAsks: nat, now: int)
    requires Kept(l)
    requires var (_, r) := RecordQuestion(l, code, globalAsks, now); r.Ok? && !r.value.created
    ensures Recomputed(l).value.Asked(code).status !in {Unanswered, ConflictRequiresClarification}
  {
    hide FactOf;
    KeptRebuilds(l);
    var snapshot := Recomputed(l).value;
    var id := QuestionOn(l, snapshot, code, now).id;
    var i :| 0 <= i < |l.questions| && l.questions[i].id == id;
    CountedOnce(l.caseId, l.questions, i, code, false);
    CountedOnce(l.caseId, l.questions, i, code, true);
  }

  lemma {:induction false} CountedOnce(caseId: string, questions: seq<Question>, i: nat, code: FactCode,
      targetedOnly: bool)
    requires i < |questions|
    ensures CountsAs(caseId, questions[i], code, targetedOnly) ==> CountAsks(caseId, questions, code, targetedOnly) >= 1
    decreases |questions|
  {
    if i < |questions| - 1 {
      CountedOnce(caseId, questions[..|questions| - 1], i, code, targetedOnly);
    }
  }

  // ---------- Histories ----------

  datatype Op =
    | Posts(message: Message)
    | Replies(awaitingInput: bool, messageId: string, batch: seq<RawItem>)
    | Enquires(code: FactCode, globalAsks: nat, now: int)
    | Refreshes
    | ProofArrives(proof: ProofContext)

  function Apply(l: Ledger, op: Op, reader: Reader): Ledger {
    match op
    case Posts(m) => Post(l, m)
    case Replies(awaitingInput, messageId, batch) => AcceptMessage(l, awaitingInput, messageId, batch, reader).0
    case Enquires(code, globalAsks, now) => RecordQuestion(l, code, globalAsks, now).0
    case Refreshes => Refresh(l).0
    case ProofArrives(p) => l.(proof := Some(p))
  }

  /** A history: each ledger follows from the one before by one operation. */
  ghost predicate IsHistory(ledgers: seq<Ledger>, ops: seq<Op>, reader: Reader) {
    && |ledgers| == |ops| + 1
    && forall i {:trigger ops[i]} :: 0 <= i < |ops| ==> ledgers[i + 1] == Apply(ledgers[i], ops[i], reader)
  }

  lemma ProofKeeps(l: Ledger, p: ProofContext)
    requires Kept(l)
    ensures Kept(l.(proof := Some(p)))
  {
    var l' := l.(proof := Some(p));
    hide Bound, WellSuperseded, Intact, AskedOnce;
    assert forall a :: SourceIntact(l', a) == SourceIntact(l, a);
    assert forall c :: ConsumptionIntact(l', c) == ConsumptionIntact(l, c);
    assert forall a :: Accounted(l', a) == Accounted(l, a);
  }

  lemma ApplyKeeps(l: Ledger, op: Op, reader: Reader)
    requires Kept(l)
    ensures Kept(Apply(l, op, reader))
  {
    hide Kept, AcceptMessage, RecordQuestion, Refresh, Post;
    match op
    case Posts(m) => PostKeeps(l, m);
    case Replies(awaitingInput, messageId, batch) => AcceptKeeps(l, awaitingInput, messageId, batch, reader);
    case Enquires(code, globalAsks, now) => AskEffect(l, code, globalAsks, now);
    case Refreshes => RefreshKeeps(l);
    case ProofArrives(p) => ProofKeeps(l, p);
  }

  lemma {:induction false} HistoryKeeps(ledgers: seq<Ledger>, ops: seq<Op>, reader: Reader, j: nat, k: nat)
    requires IsHistory(ledgers, ops, reader) && j <= k < |ledgers| && Kept(ledgers[j])
    ensures Kept(ledgers[k])
    decreases k
  {
    hide Kept, Apply;
    if j < k {
      HistoryKeeps(ledgers, ops, reader, j, k - 1);
      ApplyKeeps(ledgers[k - 1], ops[k - 1], reader);
    }
  }

  function NewLedger(caseId: string): Ledger {
    Ledger(caseId, [], [], [], [], None, None)
  }

  /**
   The ledger invariant: every ledger grown from empty verifies its rows and rebuilds without an
   integrity error, with no invalid and no competing supersession.
   */
  lemma LedgerInvariant(caseId: string, ledgers: seq<Ledger>, ops: seq<Op>, reader: Reader, k: nat)
    requires IsHistory(ledgers, ops, reader) && ledgers[0] == NewLedger(caseId) && k < |ledgers|
    ensures Recomputed(ledgers[k]).Some?
    ensures forall code ::
      !InvalidSupersession(ledgers[k].assertions, code) && !CompetingSupersession(ledgers[k].assertions, code)
  {
    hide IsHistory, Kept, Recomputed, InvalidSupersession, CompetingSupersession;
    NewLedgerKept(caseId);
    HistoryKeeps(ledgers, ops, reader, 0, k);
    KeptRebuilds(ledgers[k]);
  }

  /**
   However a kept ledger began, it never asks a fact more than one ordinary and one targeted question, and
   pairs questions with replies one to one.
   */
  lemma LedgerAsksAndAnswersOnce(caseId: string, ledgers: seq<Ledger>, ops: seq<Op>, reader: Reader, k: nat)
    requires IsHistory(ledgers, ops, reader) && Kept(ledgers[0]) && ledgers[0].caseId == caseId && k < |ledgers|
    ensures var l := ledgers[k];
      && (forall code :: TargetedAsks(caseId, l.questions, code) <= 1
           && Asks(caseId, l.questions, code) <= TargetedAsks(caseId, l.questions, code) + 1)
      && (forall i, j :: 0 <= i < j < |l.consumptions| ==>
            l.consumptions[i].question != l.consumptions[j].question
                && l.consumptions[i].message != l.consumptions[j].message)
  {
    hide IsHistory, AssertionsKept, ConsumptionIntact, CountAsks;
    var l := ledgers[k];
    HistoryKeeps(ledgers, ops, reader, 0, k);
    SameCase(ledgers, ops, reader, k);
    forall code ensures TargetedAsks(caseId, l.questions, code) <= 1
        && Asks(caseId, l.questions, code) <= TargetedAsks(caseId, l.questions, code) + 1 {
      assert AskedOnce(caseId, l.questions, code);
    }
  }

  lemma NewLedgerKept(caseId: string)
    ensures Kept(NewLedger(caseId))
  {
    forall code ensures AskedOnce(caseId, [], code) {
    }
  }

  lemma {:induction false} SameCase(ledgers: seq<Ledger>, ops: seq<Op>, reader: Reader, k: nat)
    requires IsHistory(ledgers, ops, reader) && k < |ledgers|
    ensures ledgers[k].caseId == ledgers[0].caseId
    decreases k
  {
    hide Apply;
    if k > 0 {
      SameCase(ledgers, ops, reader, k - 1);
      ApplySameCase(ledgers[k - 1], ops[k - 1], reader);
    }
  }

  lemma ApplySameCase(l: Ledger, op: Op, reader: Reader)
    ensures Apply(l, op, reader).caseId == l.caseId
  {
    hide Decide, Recomputed, Bound, CurrentReply, QuestionAllowed, QuestionOn, ConsumptionOf, IsConsumed, IsReply;
  }
}
