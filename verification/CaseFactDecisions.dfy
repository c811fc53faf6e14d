/** When a customer's reply is taken for an answer: stated on the rows, the reply and its cues alone. */
module CaseFactDecisions {
  import opened Options
  import opened CaseFacts
  import opened Lookup
  import opened CaseFactMeaning
  import opened CaseFactLedger
  import opened CaseFactHistory

  // ---------- The newest active assertion of a fact ----------

  predicate ActiveAt(assertions: seq<Assertion>, i: nat, fact: FactCode) {
    i < |assertions| && assertions[i].fact == fact && !IsSuperseded(assertions, assertions[i].id)
  }

  ghost predicate NewestAt(assertions: seq<Assertion>, i: nat, fact: FactCode) {
    ActiveAt(assertions, i, fact) && forall j :: i < j < |assertions| ==> !ActiveAt(assertions, j, fact)
  }

  lemma {:induction false} SurvivingSnoc(some: seq<Assertion>, a: Assertion, all: seq<Assertion>)
    ensures Surviving(some + [a], all) == Surviving(some, all) + if IsSuperseded(all, a.id) then [] else [a]
    decreases |some|
  {
    hide IsSuperseded;
    if some == [] {
      assert [] + [a] == [a] && [a][1..] == [];
    } else {
      assert (some + [a])[1..] == some[1..] + [a];
      SurvivingSnoc(some[1..], a, all);
    }
  }

  lemma OfFactSnoc(assertions: seq<Assertion>, a: Assertion, fact: FactCode)
    ensures OfFact(assertions + [a], fact) == OfFact(assertions, fact) + if a.fact == fact then [a] else []
  {
    assert (assertions + [a])[..|assertions|] == assertions;
  }

  /** `same` ends with the last active one of the first n assertions, or is empty if none is. */
  ghost predicate EndsWithLast(all: seq<Assertion>, n: nat, fact: FactCode, same: seq<Assertion>)
    requires n <= |all|
  {
    if same == [] then forall i :: 0 <= i < n ==> !ActiveAt(all, i, fact)
    else exists i :: 0 <= i < n && ActiveAt(all, i, fact) && same[|same| - 1] == all[i]
                     && forall j :: i < j < n ==> !ActiveAt(all, j, fact)
  }

  lemma EndsOnceMore(all: seq<Assertion>, n: nat, fact: FactCode, same: seq<Assertion>)
    requires n < |all| && EndsWithLast(all, n, fact, same)
    ensures EndsWithLast(all, n + 1, fact, same + if ActiveAt(all, n, fact) then [all[n]] else [])
  {
    hide ActiveAt;
    if ActiveAt(all, n, fact) {
      assert (same + [all[n]])[|same|] == all[n];
    } else {
      assert same + [] == same;
      if same != [] {
        var i :| 0 <= i < n && ActiveAt(all, i, fact) && same[|same| - 1] == all[i]
          && forall j :: i < j < n ==> !ActiveAt(all, j, fact);
        assert 0 <= i < n + 1 && ActiveAt(all, i, fact);
      }
    }
  }

  lemma {:induction false} LastActive(all: seq<Assertion>, n: nat, fact: FactCode)
    requires n <= |all|
    ensures EndsWithLast(all, n, fact, OfFact(Surviving(all[..n], all), fact))
  {
    hide IsSuperseded, ActiveAt;
    if n > 0 {
      hide Surviving, OfFact, EndsWithLast;
      LastActive(all, n - 1, fact);
      LastActiveSnoc(all, n, fact);
      EndsOnceMore(all, n - 1, fact, OfFact(Surviving(all[..n - 1], all), fact));
    }
  }

  lemma LastActiveSnoc(all: seq<Assertion>, n: nat, fact: FactCode)
    requires 0 < n <= |all|
    ensures OfFact(Surviving(all[..n], all), fact)
         == OfFact(Surviving(all[..n - 1], all), fact) + if ActiveAt(all, n - 1, fact) then [all[n - 1]] else []
  {
    hide IsSuperseded;
    assert all[..n] == all[..n - 1] + [all[n - 1]];
    SurvivingSnoc(all[..n - 1], all[n - 1], all);
    var before := Surviving(all[..n - 1], all);
    if IsSuperseded(all, all[n - 1].id) {
      assert before + [] == before && OfFact(before, fact) + [] == OfFact(before, fact);
    } else {
      OfFactSnoc(before, all[n - 1], fact);
    }
  }

  lemma ActiveInRange(all: seq<Assertion>, fact: FactCode)
    ensures forall i: nat :: ActiveAt(all, i, fact) ==> i < |all|
  {
  }

  /** The last of the surviving assertions of a fact is its newest active one. */
  lemma NewestIsLast(all: seq<Assertion>, fact: FactCode)
    ensures var same := OfFact(Surviving(all, all), fact);
      && (same == [] <==> forall i: nat :: !ActiveAt(all, i, fact))
      && (forall i: nat :: NewestAt(all, i, fact) ==> same != [] && same[|same| - 1] == all[i])
      && (same != [] ==> exists i: nat :: NewestAt(all, i, fact))
  {
    hide ActiveAt, Surviving, OfFact;
    LastActive(all, |all|, fact);
    ActiveInRange(all, fact);
    assert all[..|all|] == all;
    var same := OfFact(Surviving(all, all), fact);
    if same != [] {
      var i :| 0 <= i < |all| && ActiveAt(all, i, fact) && same[|same| - 1] == all[i]
        && forall j :: i < j < |all| ==> !ActiveAt(all, j, fact);
      assert NewestAt(all, i, fact);
      forall k: nat | NewestAt(all, k, fact) ensures k == i {
        assert ActiveAt(all, k, fact);
      }
    }
  }

  // ---------- What a reply supports ----------

  ghost predicate SomeActive(assertions: seq<Assertion>, fact: FactCode, value: FactValue) {
    exists i: nat :: ActiveAt(assertions, i, fact) && assertions[i].value == value
  }

  /**
   The relation and target that a supported value must have. Where the fact has an active assertion, a
   withdrawal cue with an unknown value withdraws the newest one, and otherwise a correction cue changes
   its known value into the other; where there is no such cue, or no active assertion, the value repeats
   an active one or is new.
   */
  ghost predicate Relates(assertions: seq<Assertion>, fact: FactCode, reading: Reading, c: Candidate) {
    if exists i: nat :: ActiveAt(assertions, i, fact) then
      exists i: nat :: NewestAt(assertions, i, fact) &&
        var newest := assertions[i];
        if c.value == Unknown && reading.withdrawal then c.relation == Withdrawal && c.target == Some(newest.id)
        else if reading.correction then
          && c.relation == Correction && c.target == Some(newest.id)
          && Unknown !in {c.value, newest.value} && c.value != newest.value
        else c.target == None && c.relation == if SomeActive(assertions, fact, c.value) then Repeat else New
    else c.target == None && c.relation == New
  }

  /**
   The candidate says what the reply says about the fact, all of it, and relates it to the assertions
   as its cues do.
   */
  ghost predicate SaysWhatTheReplySays(l: Ledger, fact: FactCode, content: string, reading: Reading, c: Candidate) {
    && c.fact == fact && reading.value == Some(c.value)
    && c.spanStart == 0 && c.spanEnd == |content| > 0
    && (fact == LocationChecked && c.value != Unknown ==> l.proof.Some?)
    && Relates(l.assertions, fact, reading, c)
  }

  lemma RelatesExactly(all: seq<Assertion>, fact: FactCode, reading: Reading, c: Candidate)
    ensures RelationTo(OfFact(Surviving(all, all), fact), c.value, reading) == Some((c.relation, c.target)) <==>
      Relates(all, fact, reading, c)
  {
    hide Surviving, OfFact;
    NewestIsLast(all, fact);
    var same := OfFact(Surviving(all, all), fact);
    assert AssertsValue(same, c.value) <==> SomeActive(all, fact, c.value) by { ActiveValues(all, fact, c.value); }
    hide ActiveAt, SomeActive, AssertsValue;
    if same != [] {
      var i: nat :| NewestAt(all, i, fact);
      assert ActiveAt(all, i, fact);
      assert same[|same| - 1] == all[i];
      forall k: nat | NewestAt(all, k, fact) ensures all[k] == all[i] {
      }
    }
  }

  lemma ActiveValues(all: seq<Assertion>, fact: FactCode, value: FactValue)
    ensures AssertsValue(OfFact(Surviving(all, all), fact), value) <==> SomeActive(all, fact, value)
  {
    hide IsSuperseded;
    var active := Surviving(all, all);
    var same := OfFact(active, fact);
    SurvivingMembers(all, all);
    OfFactMembers(active, fact);
    if AssertsValue(same, value) {
      var k :| 0 <= k < |same| && same[k].value == value;
      assert same[k] in same;
      var i :| 0 <= i < |all| && all[i] == same[k];
      assert ActiveAt(all, i, fact);
    }
    if SomeActive(all, fact, value) {
      var i: nat :| ActiveAt(all, i, fact) && all[i].value == value;
      assert all[i] in same;
      var k :| 0 <= k < |same| && same[k] == all[i];
    }
  }

  lemma InterpretExactly(l: Ledger, fact: FactCode, content: string, reading: Reading, c: Candidate)
    ensures Interpret(content, fact, reading, Surviving(l.assertions, l.assertions), l.proof) == Some(c) <==>
      SaysWhatTheReplySays(l, fact, content, reading, c)
  {
    hide RelationTo, Relates, Surviving, OfFact;
    RelatesExactly(l.assertions, fact, reading, c);
  }

  // ---------- The first delivery of a reply ----------

  ghost predicate IsLastReply(caseId: string, messages: seq<Message>, i: nat, m: Message) {
    && i < |messages| && messages[i] == m && IsReply(caseId, m)
    && forall j :: i < j < |messages| ==> !IsReply(caseId, messages[j])
  }

  /** The message is the newest customer message of the Case. */
  ghost predicate IsCurrentReply(l: Ledger, m: Message) {
    exists i: nat :: IsLastReply(l.caseId, l.messages, i, m)
  }

  lemma {:induction false} CurrentReplyExactly(caseId: string, messages: seq<Message>, m: Message)
    ensures CurrentReply(caseId, messages) == Some(m) <==> exists i: nat :: IsLastReply(caseId, messages, i, m)
    decreases |messages|
  {
    hide IsReply;
    if messages != [] {
      var n := |messages| - 1;
      if IsReply(caseId, messages[n]) {
        assert IsLastReply(caseId, messages, n, messages[n]);
      } else {
        CurrentReplyExactly(caseId, messages[..n], m);
        if CurrentReply(caseId, messages) == Some(m) {
          var i: nat :| IsLastReply(caseId, messages[..n], i, m);
          assert messages[i] == m;
          forall j | i < j < |messages| ensures !IsReply(caseId, messages[j]) {
            assert j < n ==> messages[..n][j] == messages[j];
          }
          assert IsLastReply(caseId, messages, i, m);
        }
        if exists i: nat :: IsLastReply(caseId, messages, i, m) {
          var i: nat :| IsLastReply(caseId, messages, i, m);
          assert i < n && messages[..n][i] == m;
          forall j | i < j < n ensures !IsReply(caseId, messages[..n][j]) {
            assert messages[..n][j] == messages[j];
          }
          assert IsLastReply(caseId, messages[..n], i, m);
        }
      }
    }
  }

  /** A reply that has not been consumed, to the newest question, while that one is open. */
  ghost predicate FirstDelivery(l: Ledger, m: Message, q: Question) {
    && FindMessage(l.messages, m.id) == Some(m)
    && ConsumptionOfMessage(l.consumptions, m.id) == None
    && l.questions != [] && q == l.questions[|l.questions| - 1]
  }

  ghost predicate IsInTime(l: Ledger, m: Message, q: Question) {
    !IsConsumed(l.consumptions, q.id) && q.askedAt < m.createdAt && IsCurrentReply(l, m)
  }

  /** The batch is one well-shaped candidate, and it says what the reply says. */
  ghost predicate Answers(l: Ledger, q: Question, m: Message, batch: seq<RawItem>, reader: Reader) {
    && |batch| == 1 && batch[0].Parsed? && WellShaped(batch[0].candidate)
    && SaysWhatTheReplySays(l, q.fact, m.content, reader(m.content, q.fact), batch[0].candidate)
  }

  /** At most two items, each one a well-shaped candidate. */
  predicate ReadableBatch(batch: seq<RawItem>) {
    |batch| <= 2 && forall i :: 0 <= i < |batch| ==> batch[i].Parsed? && WellShaped(batch[i].candidate)
  }

  /** What an accepted reply leaves behind: one assertion of what the reply itself says. */
  ghost predicate Asserts(l: Ledger, l': Ledger, q: Question, m: Message, c: Candidate, reading: Reading) {
    && |l'.assertions| == |l.assertions| + 1 && l'.assertions[..|l.assertions|] == l.assertions
    && var a := l'.assertions[|l.assertions|];
      && a.caseId == l.caseId && a.fact == q.fact && Some(a.value) == reading.value
      && a.message == m.id && a.sourceContent == m.content && a.spanStart == 0 && a.spanEnd == |m.content|
      && a.relation == c.relation && a.supersedes == c.target
      && a.context == (if q.fact == LocationChecked then l.proof else None)
      && a.id.question == q.id && a.id.message == m.id
  }

  lemma DecideExactly(l: Ledger, q: Question, m: Message, batch: seq<RawItem>, reader: Reader)
    ensures var (d, a) := Decide(l, q, m, batch, reader);
      && (d.accepted <==> Answers(l, q, m, batch, reader)) && (d.accepted <==> a.Some?)
      && (d.reason == AcceptedInterpretation <==> d.accepted)
      && (d.reason == CandidateSchemaInvalid <==> !ReadableBatch(batch))
      && (d.reason == NoCandidates <==> batch == [])
      && (d.reason == CandidateCountRejected <==> ReadableBatch(batch) && |batch| == 2)
      && (a.Some? ==>
            && a.value == AssertionFrom(l, q, m, batch[0].candidate) && d.assertion == Some(a.value.id)
            && (Bound(a.value) <==> (q.fact == LocationChecked ==> l.proof.Some?)))
  {
    hide Interpret, SaysWhatTheReplySays, Surviving;
    if |batch| == 1 && batch[0].Parsed? {
      assert Parses(batch) <==> WellShaped(batch[0].candidate);
      InterpretExactly(l, q.fact, m.content, reader(m.content, q.fact), batch[0].candidate);
      if Answers(l, q, m, batch, reader) {
        SaysItAll(l, q.fact, m.content, reader(m.content, q.fact), batch[0].candidate);
      }
    }
  }

  lemma SaysItAll(l: Ledger, fact: FactCode, content: string, reading: Reading, c: Candidate)
    requires SaysWhatTheReplySays(l, fact, content, reading, c)
    ensures c.fact == fact && reading.value == Some(c.value) && c.spanStart == 0 && c.spanEnd == |content| > 0
  {
  }

  /** What a delivery that is let through to its decision leaves behind. */
  ghost predicate Outcome(l: Ledger, q: Question, m: Message, batch: seq<RawItem>, reader: Reader, l': Ledger,
      d: Decision) {
    && (d.accepted <==> Answers(l, q, m, batch, reader))
    && (if d.accepted then Asserts(l, l', q, m, batch[0].candidate, reader(m.content, q.fact))
        else l'.assertions == l.assertions)
    && d.reason == ReasonFor(l, q, m, batch, reader)
    && l'.consumptions == l.consumptions + [ConsumptionOf(q, m, batch, d)]
  }

  /** Why a batch is accepted or not. */
  ghost function ReasonFor(l: Ledger, q: Question, m: Message, batch: seq<RawItem>, reader: Reader): Reason {
    if Answers(l, q, m, batch, reader) then AcceptedInterpretation
    else if !ReadableBatch(batch) then CandidateSchemaInvalid
    else if batch == [] then NoCandidates
    else if |batch| == 2 then CandidateCountRejected
    else DisagreesWithPersistedContext
  }

  /**
   When a first delivery gets through, and what is decided then. It gets through exactly when input is
   awaited, the newest question is open, the message is a customer message of the Case from after the
   question and the newest such, and it does not answer the location question without a proof. It is
   then accepted exactly when the batch is one candidate that says what the reply says; the assertion
   appended has the reply's own value; and a rejected one appends none and names its reason.
   */
  lemma FirstDeliveryIsDecidedByTheReply(l: Ledger, awaitingInput: bool, m: Message, q: Question, batch: seq<RawItem>,
      reader: Reader)
    requires Kept(l) && FirstDelivery(l, m, q)
    ensures var (l', r) := AcceptMessage(l, awaitingInput, m.id, batch, reader);
      && (r.Ok? <==> awaitingInput && IsInTime(l, m, q)
                     && !(Answers(l, q, m, batch, reader) && q.fact == LocationChecked && l.proof == None))
      && (r.Refused? ==> l' == l)
      && (r.Ok? ==> Outcome(l, q, m, batch, reader, l', r.value))
  {
    hide Kept, Recomputed, Consume, CurrentReply, Outcome;
    CurrentReplyExactly(l.caseId, l.messages, m);
    if IsReply(l.caseId, m) && !IsConsumed(l.consumptions, q.id) {
      ConsumeExactly(l, q, m, batch, reader);
    }
  }

  lemma ConsumeExactly(l: Ledger, q: Question, m: Message, batch: seq<RawItem>, reader: Reader)
    requires Kept(l) && Deliverable(l, q, m)
    ensures var (l', r) := Consume(l, q, m, batch, reader);
      && (r.Ok? <==> !(Answers(l, q, m, batch, reader) && q.fact == LocationChecked && l.proof == None))
      && (r.Refused? ==> l' == l)
      && (r.Ok? ==> Outcome(l, q, m, batch, reader, l', r.value))
  {
    hide Kept, Recomputed, Decide, Consume, Answers, Bound, ReadableBatch;
    ConsumeEffect(l, q, m, batch, reader);
    DecideExactly(l, q, m, batch, reader);
    var (d, a) := Decide(l, q, m, batch, reader);
    assert Consume(l, q, m, batch, reader).1.Refused? <==> a.Some? && !Bound(a.value);
    assert Consume(l, q, m, batch, reader).1.Ok? || Consume(l, q, m, batch, reader).1.Refused?;
    if Answers(l, q, m, batch, reader) {
      AnsweredAsserts(l, q, m, batch, reader);
    }
  }

  lemma AnsweredAsserts(l: Ledger, q: Question, m: Message, batch: seq<RawItem>, reader: Reader)
    requires Answers(l, q, m, batch, reader)
    ensures |batch| == 1 && batch[0].Parsed?
    ensures forall l': Ledger :: l'.assertions == l.assertions + [AssertionFrom(l, q, m, batch[0].candidate)] ==>
      Asserts(l, l', q, m, batch[0].candidate, reader(m.content, q.fact))
  {
    hide Relates;
  }

  // ---------- A later delivery of the same reply ----------

  /**
   A consumed reply is only ever answered again: delivered once more it gets through exactly when the
   newest question is still the one it was consumed for and the batch is the same, and then the decision
   is the recorded one, whatever a reader would now make of it, and no row is appended.
   */
  lemma LaterDeliveryRepeats(l: Ledger, awaitingInput: bool, m: Message, c: Consumption, batch: seq<RawItem>,
      reader: Reader)
    requires Kept(l) && FindMessage(l.messages, m.id) == Some(m)
        && ConsumptionOfMessage(l.consumptions, m.id) == Some(c)
    ensures var (l', r) := AcceptMessage(l, awaitingInput, m.id, batch, reader);
      && (r.Ok? <==>
            && awaitingInput && l.questions != [] && c.question == l.questions[|l.questions| - 1].id
            && c.batch == batch)
      && (r.Ok? ==> r.value == c.decision)
      && l' == l.(stored := l'.stored)
  {
    hide Kept, Recomputed, Consume, CurrentReply;
    RefreshKeeps(l);
    ConsumedContent(l, m, c);
  }

  lemma ConsumedContent(l: Ledger, m: Message, c: Consumption)
    requires Kept(l) && FindMessage(l.messages, m.id) == Some(m)
        && ConsumptionOfMessage(l.consumptions, m.id) == Some(c)
    ensures c.content == m.content
  {
    var i :| 0 <= i < |l.consumptions| && l.consumptions[i] == c;
    assert ConsumptionIntact(l, l.consumptions[i]);
  }
}
