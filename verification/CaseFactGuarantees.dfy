/** What a customer can rely on across a history of a case-fact ledger. */
module CaseFactGuarantees {
  import opened Options
  import opened CaseFacts
  import opened Lookup
  import opened CaseFactMeaning
  import opened CaseFactLedger
  import opened CaseFactHistory

  // ---------- A withdrawal is never revived ----------

  predicate IsActiveWithdrawal(assertions: seq<Assertion>, i: nat, code: FactCode)
    requires i < |assertions|
  {
    assertions[i].fact == code && assertions[i].relation == Withdrawal && !IsSuperseded(assertions, assertions[i].id)
  }

  ghost predicate Withdrawn(l: Ledger, code: FactCode) {
    exists i :: 0 <= i < |l.assertions| && IsActiveWithdrawal(l.assertions, i, code)
  }

  /** A withdrawn fact is not known, whatever else its assertions say. */
  lemma WithdrawnIsUnknown(l: Ledger, code: FactCode)
    requires Kept(l) && Withdrawn(l, code)
    ensures Recomputed(l).Some? && Recomputed(l).value.Fact(code).status in {UnknownFact, Conflict}
  {
    hide BySequence, InvalidSupersession, CompetingSupersession, Kept, RowsVerified, Rebuilt, Surviving, OfFact,
        SnapshotOf;
    KeptRebuilds(l);
    assert BySequence(l.assertions) == l.assertions by { KeptInOrder(l); }
    var i :| 0 <= i < |l.assertions| && IsActiveWithdrawal(l.assertions, i, code);
    var w := l.assertions[i];
    var own := OfFact(l.assertions, code);
    OfFactMembers(l.assertions, code);
    SurvivingMembers(own, own);
    forall k | 0 <= k < |own| ensures own[k].supersedes != Some(w.id) {
      assert own[k] in own;
      var j :| 0 <= j < |l.assertions| && l.assertions[j] == own[k];
    }
    assert w in Surviving(own, own);
    KnownExactly(l.caseId, l.assertions, l.questions, l.proof, code, HoldsTrue);
    KnownExactly(l.caseId, l.assertions, l.questions, l.proof, code, HoldsFalse);
  }

  lemma KeptInOrder(l: Ledger)
    requires Kept(l)
    ensures BySequence(l.assertions) == l.assertions
  {
    InOrder(l.assertions);
  }

  /** Only a withdrawal supersedes a withdrawal, and a superseding withdrawal is itself active. */
  lemma WithdrawalSurvivesReply(l: Ledger, q: Question, m: Message, batch: seq<RawItem>, reader: Reader, code: FactCode)
    requires Kept(l) && Deliverable(l, q, m) && Withdrawn(l, code)
    requires AssertionsKept(Consumed(l, q, m, batch, reader))
    ensures Withdrawn(Consumed(l, q, m, batch, reader), code)
  {
    hide Decide, Bound, SourceIntact, ConsumptionIntact, AskedOnce;
    DecidedAssertion(l, q, m, batch, reader);
    var (_, a) := Decide(l, q, m, batch, reader);
    var l' := Consumed(l, q, m, batch, reader);
    var i :| 0 <= i < |l.assertions| && IsActiveWithdrawal(l.assertions, i, code);
    var w, n := l.assertions[i], |l.assertions|;
    if a.Some? && a.value.supersedes == Some(w.id) {
      var b :| b in l.assertions && b.fact == q.fact && a.value.supersedes == Some(b.id)
          && (b.value == Unknown ==> a.value.relation == Withdrawal);
      SameIdSameAssertion(l, b, w);
      assert Accounted(l, w);
      WithdrawalIsUnknown(w);
      NewestUnsuperseded(l', n);
      assert IsActiveWithdrawal(l'.assertions, n, code);
    } else {
      forall k | 0 <= k < |l'.assertions| ensures l'.assertions[k].supersedes != Some(w.id) {
        assert k < n ==> l'.assertions[k] == l.assertions[k];
      }
      assert l'.assertions[i] == w;
      assert IsActiveWithdrawal(l'.assertions, i, code);
    }
  }

  lemma WithdrawalIsUnknown(a: Assertion)
    requires Bound(a) && a.relation == Withdrawal
    ensures a.value == Unknown
  {
  }

  lemma SameIdSameAssertion(l: Ledger, a: Assertion, b: Assertion)
    requires AssertionsKept(l) && a in l.assertions && b in l.assertions && a.id == b.id
    ensures a == b
  {
    var i :| 0 <= i < |l.assertions| && l.assertions[i] == a;
    var j :| 0 <= j < |l.assertions| && l.assertions[j] == b;
  }

  /** Supersession looks back, so nothing supersedes the newest assertion. */
  lemma NewestUnsuperseded(l: Ledger, n: nat)
    requires AssertionsKept(l) && n < |l.assertions| && n + 1 == |l.assertions|
    ensures !IsSuperseded(l.assertions, l.assertions[n].id)
  {
    hide Bound, SourceIntact;
    forall k | 0 <= k <= n ensures l.assertions[k].supersedes != Some(l.assertions[n].id) {
      if l.assertions[k].supersedes.Some? {
        assert ProperTarget(l.assertions, k);
        var j :| 0 <= j < k && Some(l.assertions[j].id) == l.assertions[k].supersedes
            && l.assertions[j].fact == l.assertions[k].fact;
      }
    }
  }

  lemma ApplyKeepsAssertions(l: Ledger, op: Op, reader: Reader)
    requires Kept(l)
    ensures var l' := Apply(l, op, reader);
      || l'.assertions == l.assertions
      || exists q, m, batch :: Deliverable(l, q, m) && l'.assertions == Consumed(l, q, m, batch, reader).assertions
                               && AssertionsKept(Consumed(l, q, m, batch, reader))
  {
    hide Kept, AssertionsKept, Consume, Recomputed, Decide, Consumed;
    if op.Replies? {
      var found := FindMessage(l.messages, op.messageId);
      if found.Some? && l.questions != [] {
        var m, q := found.value, l.questions[|l.questions| - 1];
        if ConsumptionOfMessage(l.consumptions, op.messageId) == None && !IsConsumed(l.consumptions, q.id)
            && IsReply(l.caseId, m) {
          ConsumeEffect(l, q, m, op.batch, reader);
          if Consume(l, q, m, op.batch, reader).1.Ok? {
            ConsumedWhenOk(l, q, m, op.batch, reader);
          }
        }
      }
    }
  }

  lemma ConsumedWhenOk(l: Ledger, q: Question, m: Message, batch: seq<RawItem>, reader: Reader)
    requires Kept(l) && Deliverable(l, q, m) && Consume(l, q, m, batch, reader).1.Ok?
    ensures AssertionsKept(Consumed(l, q, m, batch, reader))
    ensures Consume(l, q, m, batch, reader).0.assertions == Consumed(l, q, m, batch, reader).assertions
  {
    hide Decide, AssertionsKept, Recomputed, Bound;
    ConsumeEffect(l, q, m, batch, reader);
    ConsumedAssertionsKept(l, q, m, batch, reader);
  }

  lemma WithdrawalSurvives(l: Ledger, op: Op, reader: Reader, code: FactCode)
    requires Kept(l) && Withdrawn(l, code)
    ensures Withdrawn(Apply(l, op, reader), code)
  {
    hide Kept, Apply, Consumed, AssertionsKept;
    ApplyKeepsAssertions(l, op, reader);
    if Apply(l, op, reader).assertions != l.assertions {
      var q, m, batch :| Deliverable(l, q, m) && Apply(l, op, reader).assertions
          == Consumed(l, q, m, batch, reader).assertions
                         && AssertionsKept(Consumed(l, q, m, batch, reader));
      WithdrawalSurvivesReply(l, q, m, batch, reader, code);
    }
  }

  /** The reply that withdraws a fact leaves an active withdrawal. */
  lemma AcceptedWithdrawal(l: Ledger, awaitingInput: bool, messageId: string, batch: seq<RawItem>, reader: Reader)
    requires Kept(l) && ConsumptionOfMessage(l.consumptions, messageId) == None
    requires var (l', r) := AcceptMessage(l, awaitingInput, messageId, batch, reader);
      r.Ok? && r.value.accepted && batch[0].candidate.relation == Withdrawal
    ensures Withdrawn(AcceptMessage(l, awaitingInput, messageId, batch, reader).0, batch[0].candidate.fact)
  {
    hide Kept, Recomputed, Interpret, Surviving, Bound, AssertionsKept, CurrentReply;
    var q, m := l.questions[|l.questions| - 1], FindMessage(l.messages, messageId).value;
    var l' := AcceptMessage(l, awaitingInput, messageId, batch, reader).0;
    ConsumeEffect(l, q, m, batch, reader);
    ConsumedWhenOk(l, q, m, batch, reader);
    NewestUnsuperseded(Consumed(l, q, m, batch, reader), |l.assertions|);
    assert IsActiveWithdrawal(l'.assertions, |l.assertions|, batch[0].candidate.fact);
  }

  lemma {:induction false} WithdrawalStays(ledgers: seq<Ledger>, ops: seq<Op>, reader: Reader, j: nat, k: nat,
      code: FactCode)
    requires IsHistory(ledgers, ops, reader) && j <= k < |ledgers| && Kept(ledgers[j]) && Withdrawn(ledgers[j], code)
    ensures Withdrawn(ledgers[k], code)
    decreases k
  {
    hide Kept, Apply, Withdrawn;
    if j < k {
      WithdrawalStays(ledgers, ops, reader, j, k - 1, code);
      HistoryKeeps(ledgers, ops, reader, j, k - 1);
      WithdrawalSurvives(ledgers[k - 1], ops[k - 1], reader, code);
    }
  }

  /**
   Withdrawal is never revived: once a fact of a kept ledger has an active withdrawal, no further history
   of posts, replies, questions, refreshes and delivery proofs makes it known again.
   */
  lemma WithdrawalIsNeverRevived(ledgers: seq<Ledger>, ops: seq<Op>, reader: Reader, j: nat, k: nat, code: FactCode)
    requires IsHistory(ledgers, ops, reader) && j <= k < |ledgers|
    requires Kept(ledgers[j]) && Withdrawn(ledgers[j], code)
    ensures Withdrawn(ledgers[k], code)
    ensures Recomputed(ledgers[k]).Some? && Recomputed(ledgers[k]).value.Fact(code).status in {UnknownFact, Conflict}
  {
    hide Kept, IsHistory, Withdrawn, Recomputed;
    HistoryKeeps(ledgers, ops, reader, j, k);
    WithdrawalStays(ledgers, ops, reader, j, k, code);
    WithdrawnIsUnknown(ledgers[k], code);
  }

  // ---------- Replay ----------

  /** The reply's consumption, with this batch and decision, answers the newest question. */
  ghost predicate Delivered(l: Ledger, messageId: string, batch: seq<RawItem>, d: Decision) {
    var c := ConsumptionOfMessage(l.consumptions, messageId);
    var m := FindMessage(l.messages, messageId);
    && l.questions != [] && c.Some? && m.Some?
    && c.value.question == l.questions[|l.questions| - 1].id && c.value.content == m.value.content
    && c.value.batch == batch && c.value.decision == d
  }

  lemma AcceptedIsDelivered(l: Ledger, messageId: string, batch: seq<RawItem>, reader: Reader)
    requires Kept(l) && AcceptMessage(l, true, messageId, batch, reader).1.Ok?
    ensures var (l', r) := AcceptMessage(l, true, messageId, batch, reader); Delivered(l', messageId, batch, r.value)
  {
    hide Kept, Recomputed, CurrentReply, Consume;
    RefreshKeeps(l);
    var m, q := FindMessage(l.messages, messageId).value, l.questions[|l.questions| - 1];
    if ConsumptionOfMessage(l.consumptions, messageId) == None {
      ConsumeEffect(l, q, m, batch, reader);
      var d := Decide(l, q, m, batch, reader).0;
      ConsumptionStays(l.consumptions, ConsumptionOf(q, m, batch, d), messageId);
    }
  }

  /** Rows are only ever appended. */
  lemma ApplyAppends(l: Ledger, op: Op, reader: Reader)
    requires Kept(l)
    ensures var l' := Apply(l, op, reader);
      && l.messages <= l'.messages && l.assertions <= l'.assertions && l.questions <= l'.questions
           && l.consumptions <= l'.consumptions
      && |l'.messages| <= |l.messages| + 1 && |l'.consumptions| <= |l.consumptions| + 1
  {
    hide Kept, Recomputed, Decide, CurrentReply, QuestionAllowed, QuestionOn, Bound, ConsumptionOf;
  }

  lemma {:induction false} HistoryAppends(ledgers: seq<Ledger>, ops: seq<Op>, reader: Reader, j: nat, k: nat)
    requires IsHistory(ledgers, ops, reader) && j <= k < |ledgers| && Kept(ledgers[j])
    ensures var l, l' := ledgers[j], ledgers[k];
      l.messages <= l'.messages && l.assertions <= l'.assertions && l.questions <= l'.questions
          && l.consumptions <= l'.consumptions
    decreases k
  {
    hide Kept, Apply;
    if j < k {
      HistoryAppends(ledgers, ops, reader, j, k - 1);
      HistoryKeeps(ledgers, ops, reader, j, k - 1);
      ApplyAppends(ledgers[k - 1], ops[k - 1], reader);
    }
  }

  /**
   Replay is idempotent: delivering an accepted or rejected reply again with the same batch, after
   any history that records no newer question, returns the same decision and appends no row.
   */
  lemma ReplayReturnsTheSameDecision(caseId: string, ledgers: seq<Ledger>, ops: seq<Op>, reader: Reader, j: nat, k: nat,
                                     messageId: string, batch: seq<RawItem>)
    requires IsHistory(ledgers, ops, reader) && ledgers[0] == NewLedger(caseId) && j < k < |ledgers|
    requires ops[j] == Replies(true, messageId, batch)
        && AcceptMessage(ledgers[j], true, messageId, batch, reader).1.Ok?
    requires ledgers[k].questions == ledgers[j].questions
    ensures AcceptMessage(ledgers[k], true, messageId, batch, reader)
         == (ledgers[k].(stored := Recomputed(ledgers[k])), AcceptMessage(ledgers[j], true, messageId, batch, reader).1)
  {
    hide Kept, Recomputed, AcceptMessage;
    var d := AcceptMessage(ledgers[j], true, messageId, batch, reader).1.value;
    NewLedgerKept(caseId);
    HistoryKeeps(ledgers, ops, reader, 0, j);
    AcceptedIsDelivered(ledgers[j], messageId, batch, reader);
    assert Delivered(ledgers[j + 1], messageId, batch, d);
    HistoryKeeps(ledgers, ops, reader, j, j + 1);
    HistoryKeeps(ledgers, ops, reader, j + 1, k);
    ApplyAppends(ledgers[j], ops[j], reader);
    HistoryAppends(ledgers, ops, reader, j + 1, k);
    FoundInPrefix(ledgers[j + 1].messages, ledgers[k].messages, MessageId, messageId);
    FoundInPrefix(ledgers[j + 1].consumptions, ledgers[k].consumptions, SourceOf, messageId);
    DeliveredIsReplayed(ledgers[k], messageId, batch, d, reader);
  }

  lemma DeliveredIsReplayed(l: Ledger, messageId: string, batch: seq<RawItem>, d: Decision, reader: Reader)
    requires Kept(l) && Delivered(l, messageId, batch, d)
    ensures AcceptMessage(l, true, messageId, batch, reader) == (l.(stored := Recomputed(l)), Ok(d))
  {
    hide Kept, Recomputed, Consume;
    RefreshKeeps(l);
  }

  // ---------- The stored projection ----------

  /** What is stored, if anything, is what the rows recompute to now. */
  ghost predicate StoredCurrent(l: Ledger) {
    l.stored.Some? ==> l.stored == Recomputed(l)
  }

  /** Loading a kept ledger succeeds exactly when the stored projection is current. */
  lemma LoadsExactly(l: Ledger)
    requires Kept(l)
    ensures Load(l).Ok? <==> StoredCurrent(l)
    ensures Load(l).Ok? ==> Some(Load(l).value) == Recomputed(l)
  {
    hide Recomputed;
    KeptRebuilds(l);
  }

  /** Everything but a delivery proof keeps a current projection current. */
  lemma ApplyKeepsCurrent(l: Ledger, op: Op, reader: Reader)
    requires Kept(l) && StoredCurrent(l) && !op.ProofArrives?
    ensures StoredCurrent(Apply(l, op, reader))
  {
    hide Kept, Recomputed, Consume, CurrentReply, RecordQuestion;
    RefreshKeeps(l);
    match op
    case Posts(m) => PostKeepsCurrent(l, m);
    case Enquires(code, globalAsks, now) => AskEffect(l, code, globalAsks, now);
    case Refreshes =>
    case Replies(_, messageId, batch) =>
      var found := FindMessage(l.messages, messageId);
      if found.Some? && l.questions != [] {
        var m, q := found.value, l.questions[|l.questions| - 1];
        if ConsumptionOfMessage(l.consumptions, messageId) == None && !IsConsumed(l.consumptions, q.id)
            && IsReply(l.caseId, m) {
          ConsumeEffect(l, q, m, batch, reader);
        }
      }
  }

  lemma PostKeepsCurrent(l: Ledger, m: Message)
    requires Kept(l) && StoredCurrent(l)
    ensures StoredCurrent(Post(l, m))
  {
    hide Kept, RowsVerified;
    PostKeeps(l, m);
    KeptRebuilds(l);
    KeptRebuilds(Post(l, m));
  }

  /** A write that stores makes the projection current, even after a delivery proof had moved it. */
  predicate Stores(l: Ledger, op: Op, reader: Reader) {
    match op
    case Refreshes => true
    case Replies(awaitingInput, messageId, batch) => AcceptMessage(l, awaitingInput, messageId, batch, reader).1.Ok?
    case Enquires(code, globalAsks, now) =>
      var r := RecordQuestion(l, code, globalAsks, now).1; r.Ok? && r.value.created
    case _ => false
  }

  lemma StoringMakesCurrent(l: Ledger, op: Op, reader: Reader)
    requires Kept(l) && Stores(l, op, reader)
    ensures StoredCurrent(Apply(l, op, reader))
  {
    hide Kept, Recomputed, Consume, CurrentReply, RecordQuestion;
    RefreshKeeps(l);
    match op
    case Enquires(code, globalAsks, now) => AskEffect(l, code, globalAsks, now);
    case Refreshes =>
    case Replies(_, messageId, batch) =>
      var m, q := FindMessage(l.messages, messageId).value, l.questions[|l.questions| - 1];
      if ConsumptionOfMessage(l.consumptions, messageId) == None {
        ConsumeEffect(l, q, m, batch, reader);
      }
    case _ =>
  }

  lemma {:induction false} HistoryKeepsCurrent(ledgers: seq<Ledger>, ops: seq<Op>, reader: Reader, j: nat, k: nat)
    requires IsHistory(ledgers, ops, reader) && j <= k < |ledgers| && Kept(ledgers[j]) && StoredCurrent(ledgers[j])
    requires forall i :: j <= i < k ==> !ops[i].ProofArrives?
    ensures StoredCurrent(ledgers[k])
    decreases k
  {
    hide Kept, StoredCurrent, Apply;
    if j < k {
      HistoryKeepsCurrent(ledgers, ops, reader, j, k - 1);
      HistoryKeeps(ledgers, ops, reader, j, k - 1);
      ApplyKeepsCurrent(ledgers[k - 1], ops[k - 1], reader);
    }
  }

  /**
   The stored projection agrees with recomputation: in any history from an empty ledger, once a write
   has stored and as long as no delivery proof arrives after it, loading succeeds.
   */
  lemma StoredProjectionAgrees(caseId: string, ledgers: seq<Ledger>, ops: seq<Op>, reader: Reader, j: nat, k: nat)
    requires IsHistory(ledgers, ops, reader) && ledgers[0] == NewLedger(caseId) && j < k < |ledgers|
    requires Stores(ledgers[j], ops[j], reader) && forall i :: j < i < k ==> !ops[i].ProofArrives?
    ensures Load(ledgers[k]).Ok? && Some(Load(ledgers[k]).value) == Recomputed(ledgers[k])
  {
    hide Kept, StoredCurrent, Apply, Stores, Load, Recomputed;
    NewLedgerKept(caseId);
    HistoryKeeps(ledgers, ops, reader, 0, j);
    StoringMakesCurrent(ledgers[j], ops[j], reader);
    assert StoredCurrent(ledgers[j + 1]);
    HistoryKeeps(ledgers, ops, reader, j, j + 1);
    HistoryKeepsCurrent(ledgers, ops, reader, j + 1, k);
    HistoryKeeps(ledgers, ops, reader, j + 1, k);
    LoadsExactly(ledgers[k]);
  }
}
