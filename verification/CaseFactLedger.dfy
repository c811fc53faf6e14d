/**
 The case-fact ledger of one Case: messages, assertions, questions, reply consumptions and the stored
 projection, and what each service call does to them. A refused call leaves the ledger as it was.
 */
module CaseFactLedger {
  import opened Options
  import opened CaseFacts
  import opened Lookup

  datatype Message = Message(id: string, caseId: Option<string>, customer: bool, content: string, createdAt: int)

  /** An item of an untrusted batch: parsed by the candidate contract or not. */
  datatype RawItem = Parsed(candidate: Candidate) | Malformed(text: string)

  datatype Reason =
    | NoCandidates
    | CandidateSchemaInvalid
    | CandidateCountRejected
    | DisagreesWithPersistedContext
    | AcceptedInterpretation

  datatype Decision = Decision(accepted: bool, reason: Reason, assertion: Option<AssertionId>, batch: seq<RawItem>)

  datatype ReplyOutcome = AcceptedReply | RejectedReply | EmptyReply

  datatype Consumption = Consumption(
    question: QuestionId,
    message: string,
    content: string,
    batch: seq<RawItem>,
    outcome: ReplyOutcome,
    reason: Reason,
    assertion: Option<AssertionId>,
    decision: Decision)

  datatype Ledger = Ledger(
    caseId: string,
    messages: seq<Message>,
    assertions: seq<Assertion>,
    questions: seq<Question>,
    consumptions: seq<Consumption>,
    stored: Option<Snapshot>,
    proof: Option<ProofContext>)

  datatype Refusal =
    | NotAwaitingInput
    | MessageNotFound
    | NoOutstandingQuestion
    | ReplayDiffers
    | QuestionAlreadyConsumed
    | NotACustomerMessage
    | MessagePredatesQuestion
    | NotTheCurrentReply
    | AssertionContractViolated
    | QuestionNotAllowed
    | IntegrityError
    | SnapshotMovedBackwards

  datatype Result<T> = Ok(value: T) | Refused(reason: Refusal)

  // ---------- Reading the rows ----------

  function MessageId(m: Message): string {
    m.id
  }

  function FindMessage(messages: seq<Message>, id: string): (m: Option<Message>)
    ensures m.Some? ==> m.value in messages && m.value.id == id
    ensures m == None ==> forall k :: k in messages ==> k.id != id
  {
    FindBy(messages, MessageId, id)
  }

  function SourceOf(c: Consumption): string {
    c.message
  }

  function ConsumptionOfMessage(consumptions: seq<Consumption>, message: string): (c: Option<Consumption>)
    ensures c.Some? ==> c.value in consumptions && c.value.message == message
    ensures c == None ==> forall k :: k in consumptions ==> k.message != message
  {
    FindBy(consumptions, SourceOf, message)
  }

  predicate IsConsumed(consumptions: seq<Consumption>, question: QuestionId) {
    exists i :: 0 <= i < |consumptions| && consumptions[i].question == question
  }

  predicate IsReply(caseId: string, m: Message) {
    m.caseId == Some(caseId) && m.customer
  }

  /** The newest customer message of the Case. */
  function CurrentReply(caseId: string, messages: seq<Message>): Option<Message>
    decreases |messages|
  {
    if messages == [] then None
    else
      var n := |messages| - 1;
      if IsReply(caseId, messages[n]) then Some(messages[n]) else CurrentReply(caseId, messages[..n])
  }

  /** An assertion's source is still a customer message of this Case with the same content. */
  predicate SourceIntact(l: Ledger, a: Assertion) {
    var m := FindMessage(l.messages, a.message);
    m.Some? && IsReply(a.caseId, m.value) && m.value.content == a.sourceContent && a.spanEnd <= |m.value.content|
  }

  function OutcomeOf(d: Decision): ReplyOutcome {
    if d.accepted then AcceptedReply else if d.reason == NoCandidates then EmptyReply else RejectedReply
  }

  predicate HasAssertion(assertions: seq<Assertion>, id: Option<AssertionId>) {
    exists i :: 0 <= i < |assertions| && Some(assertions[i].id) == id
  }

  predicate HasQuestion(questions: seq<Question>, id: QuestionId) {
    exists i :: 0 <= i < |questions| && questions[i].id == id
  }

  /** One row of the consumption ledger agrees with the rows it names. */
  predicate ConsumptionIntact(l: Ledger, c: Consumption) {
    var m := FindMessage(l.messages, c.message);
    && HasQuestion(l.questions, c.question)
    && m.Some? && IsReply(l.caseId, m.value) && m.value.content == c.content
    && c.decision.batch == c.batch && c.decision.reason == c.reason && c.decision.assertion == c.assertion
    && c.outcome == OutcomeOf(c.decision)
    && c.decision.accepted == HasAssertion(l.assertions, c.assertion)
  }

  predicate RowsVerified(l: Ledger) {
    && (forall i :: 0 <= i < |l.assertions| ==> SourceIntact(l, l.assertions[i]))
    && (forall i :: 0 <= i < |l.consumptions| ==> ConsumptionIntact(l, l.consumptions[i]))
  }

  /** Verify the rows, then rebuild; None stands for an integrity error. */
  function Recomputed(l: Ledger): Option<Snapshot> {
    if RowsVerified(l) then Rebuilt(l.caseId, l.assertions, l.questions, l.proof) else None
  }

  // ---------- Writing the projection ----------

  /** Rebuild and store. The stored revision may not move backwards. */
  function Refresh(l: Ledger): (Ledger, Result<Snapshot>) {
    match Recomputed(l)
    case None => (l, Refused(IntegrityError))
    case Some(snapshot) =>
      if l.stored.Some? && snapshot.revision < l.stored.value.revision then (l, Refused(SnapshotMovedBackwards))
      else (l.(stored := Some(snapshot)), Ok(snapshot))
  }

  /** Rebuild and compare with what is stored, if anything is. */
  function Load(l: Ledger): Result<Snapshot> {
    match Recomputed(l)
    case None => Refused(IntegrityError)
    case Some(snapshot) =>
      if l.stored.Some? && l.stored.value != snapshot then Refused(IntegrityError) else Ok(snapshot)
  }

  // ---------- Accepting a reply ----------

  type Reader = (string, FactCode) -> Reading

  predicate Parses(batch: seq<RawItem>) {
    |batch| <= 2 && forall i :: 0 <= i < |batch| ==> batch[i].Parsed? && WellShaped(batch[i].candidate)
  }

  function Rejection(reason: Reason, batch: seq<RawItem>): Decision {
    Decision(false, reason, None, batch)
  }

  function AssertionFrom(l: Ledger, q: Question, m: Message, c: Candidate): Assertion {
    var context := if c.fact == LocationChecked then l.proof else None;
    var hash := match context case None => None case Some(p) => Some(p.resultHash);
    Assertion(AssertionId(q.id, m.id, c, hash), l.caseId, c.fact, c.value, m.id, m.content, c.spanStart, c.spanEnd,
              c.relation, c.target, context, |l.assertions| + 1)
  }

  function Decide(l: Ledger, q: Question, m: Message, batch: seq<RawItem>, reader: Reader): (Decision,
      Option<Assertion>) {
    if !Parses(batch) then (Rejection(CandidateSchemaInvalid, batch), None)
    else if batch == [] then (Rejection(NoCandidates, batch), None)
    else if |batch| != 1 then (Rejection(CandidateCountRejected, batch), None)
    else
      var c := batch[0].candidate;
      var active := Surviving(l.assertions, l.assertions);
      if c.fact != q.fact || Interpret(m.content, q.fact, reader(m.content, q.fact), active, l.proof) != Some(c) then
        (Rejection(DisagreesWithPersistedContext, batch), None)
      else
        var a := AssertionFrom(l, q, m, c);
        (Decision(true, AcceptedInterpretation, Some(a.id), batch), Some(a))
  }

  function ConsumptionOf(q: Question, m: Message, batch: seq<RawItem>, d: Decision): Consumption {
    Consumption(q.id, m.id, m.content, batch, OutcomeOf(d), d.reason, d.assertion, d)
  }

  /** A first delivery of the current reply. */
  function Consume(l: Ledger, q: Question, m: Message, batch: seq<RawItem>, reader: Reader): (Ledger,
      Result<Decision>) {
    var (decision, assertion) := Decide(l, q, m, batch, reader);
    if assertion.Some? && !Bound(assertion.value) then (l, Refused(AssertionContractViolated))
    else
      var appended := l.(assertions := l.assertions + if assertion.Some? then [assertion.value] else []);
      var (stored, result) := Refresh(appended);
      if result.Refused? then (l, Refused(result.reason))
      else (stored.(consumptions := l.consumptions + [ConsumptionOf(q, m, batch, decision)]), Ok(decision))
  }

  function AcceptMessage(l: Ledger, awaitingInput: bool, messageId: string, batch: seq<RawItem>,
      reader: Reader): (Ledger, Result<Decision>) {
    var found := FindMessage(l.messages, messageId);
    if !awaitingInput then (l, Refused(NotAwaitingInput))
    else if found == None then (l, Refused(MessageNotFound))
    else if l.questions == [] then (l, Refused(NoOutstandingQuestion))
    else
      var m, q := found.value, l.questions[|l.questions| - 1];
      match ConsumptionOfMessage(l.consumptions, messageId)
      case Some(c) =>
        if c.question != q.id || c.content != m.content || c.batch != batch then (l, Refused(ReplayDiffers))
        else
          var (stored, result) := Refresh(l);
          if result.Refused? then (l, Refused(result.reason)) else (stored, Ok(c.decision))
      case None =>
        if IsConsumed(l.consumptions, q.id) then (l, Refused(QuestionAlreadyConsumed))
        else if !IsReply(l.caseId, m) then (l, Refused(NotACustomerMessage))
        else if m.createdAt <= q.askedAt then (l, Refused(MessagePredatesQuestion))
        else if CurrentReply(l.caseId, l.messages) != Some(m) then (l, Refused(NotTheCurrentReply))
        else Consume(l, q, m, batch, reader)
  }

  // ---------- Asking a question ----------

  /** At most one ordinary and one targeted question of a fact, within two clarifications of the Case. */
  predicate QuestionAllowed(snapshot: Snapshot, code: FactCode, globalAsks: nat) {
    var state := snapshot.Asked(code);
    && globalAsks < 2
    && match state.status
       case Inapplicable => false
       case Answered => false
       case UnknownExhausted => false
       case ConflictExhausted => false
       case ConflictRequiresClarification => state.asks < 2
       case Unanswered => state.asks == 0
  }

  function QuestionOn(l: Ledger, snapshot: Snapshot, code: FactCode, now: int): Question {
    var targeted := snapshot.Fact(code).status == Conflict;
    var context := if code == LocationChecked && l.proof.Some? then Some(l.proof.value.resultHash) else None;
    Question(QuestionId(code, context, targeted), l.caseId, code, targeted, now)
  }

  function IdOf(q: Question): QuestionId {
    q.id
  }

  function ExistingQuestion(questions: seq<Question>, id: QuestionId): (q: Option<Question>)
    ensures q.Some? <==> HasQuestion(questions, id)
    ensures q.Some? ==> q.value in questions && q.value.id == id
  {
    var found := FindBy(questions, IdOf, id);
    assert found == None ==> forall i :: 0 <= i < |questions| ==> IdOf(questions[i]) != id;
    found
  }

  datatype Asked = Asked(question: Question, created: bool)

  /** Asking again for the same fact, context and purpose answers with the question already recorded. */
  function RecordQuestion(l: Ledger, code: FactCode, globalAsks: nat, now: int): (Ledger, Result<Asked>) {
    match Recomputed(l)
    case None => (l, Refused(IntegrityError))
    case Some(snapshot) =>
      var question := QuestionOn(l, snapshot, code, now);
      match ExistingQuestion(l.questions, question.id)
      case Some(existing) => (l, Ok(Asked(existing, false)))
      case None =>
        if !QuestionAllowed(snapshot, code, globalAsks) then (l, Refused(QuestionNotAllowed))
        else
          var (stored, result) := Refresh(l.(questions := l.questions + [question]));
          if result.Refused? then (l, Refused(result.reason)) else (stored, Ok(Asked(question, true)))
  }

  // ---------- The service object ----------

  class CaseFactService {
    const caseId: string
    var messages: seq<Message>
    var assertions: seq<Assertion>
    var questions: seq<Question>
    var consumptions: seq<Consumption>
    var stored: Option<Snapshot>
    var proof: Option<ProofContext>

    ghost function State(): Ledger
      reads this
    {
      Ledger(caseId, messages, assertions, questions, consumptions, stored, proof)
    }

    constructor (caseId: string)
      ensures State() == Ledger(caseId, [], [], [], [], None, None)
    {
      this.caseId := caseId;
      messages, assertions, questions, consumptions, stored, proof := [], [], [], [], None, None;
    }

    method CheckRows() returns (verified: bool)
      ensures verified == RowsVerified(State())
    {
      for i := 0 to |assertions|
        invariant forall j :: 0 <= j < i ==> SourceIntact(State(), assertions[j])
      {
        var m := FindMessage(messages, assertions[i].message);
        if m == None || !IsReply(assertions[i].caseId, m.value) || m.value.content != assertions[i].sourceContent
           || assertions[i].spanEnd > |m.value.content| {
          return false;
        }
      }
      for i := 0 to |consumptions|
        invariant forall j :: 0 <= j < i ==> ConsumptionIntact(State(), consumptions[j])
      {
        var c := consumptions[i];
        var m := FindMessage(messages, c.message);
        if !HasQuestion(questions, c.question) || m == None || !IsReply(caseId, m.value)
            || m.value.content != c.content {
          return false;
        }
        if c.decision.batch != c.batch || c.decision.reason != c.reason || c.decision.assertion != c.assertion {
          return false;
        }
        if c.outcome != OutcomeOf(c.decision) || c.decision.accepted != HasAssertion(assertions, c.assertion) {
          return false;
        }
      }
      return true;
    }

    method Recompute() returns (snapshot: Option<Snapshot>)
      ensures snapshot == Recomputed(State())
    {
      var verified := CheckRows();
      if !verified {
        return None;
      }
      snapshot := Rebuild(caseId, assertions, questions, proof);
    }

    method RefreshSnapshot() returns (result: Result<Snapshot>)
      modifies this`stored
      ensures (State(), result) == Refresh(old(State()))
    {
      hide Recomputed;
      var snapshot := Recompute();
      if snapshot == None {
        return Refused(IntegrityError);
      }
      if stored.Some? && snapshot.value.revision < stored.value.revision {
        return Refused(SnapshotMovedBackwards);
      }
      stored := snapshot;
      return Ok(snapshot.value);
    }

    method LoadSnapshot() returns (result: Result<Snapshot>)
      ensures result == Load(State())
    {
      hide Recomputed;
      var snapshot := Recompute();
      if snapshot == None || (stored.Some? && stored != snapshot) {
        return Refused(IntegrityError);
      }
      return Ok(snapshot.value);
    }

    method Accept(awaitingInput: bool, messageId: string, batch: seq<RawItem>,
        reader: Reader) returns (result: Result<Decision>)
      modifies this`assertions, this`consumptions, this`stored
      ensures (State(), result) == AcceptMessage(old(State()), awaitingInput, messageId, batch, reader)
    {
      hide Refresh, Decide, CurrentReply, Bound;
      var found := FindMessage(messages, messageId);
      if !awaitingInput {
        return Refused(NotAwaitingInput);
      }
      if found == None {
        return Refused(MessageNotFound);
      }
      if questions == [] {
        return Refused(NoOutstandingQuestion);
      }
      var m, q := found.value, questions[|questions| - 1];
      var earlier := ConsumptionOfMessage(consumptions, messageId);
      if earlier.Some? {
        if earlier.value.question != q.id || earlier.value.content != m.content || earlier.value.batch != batch {
          return Refused(ReplayDiffers);
        }
        var was := stored;
        var refreshed := RefreshSnapshot();
        if refreshed.Refused? {
          stored := was;
          return Refused(refreshed.reason);
        }
        return Ok(earlier.value.decision);
      }
      if IsConsumed(consumptions, q.id) {
        return Refused(QuestionAlreadyConsumed);
      }
      if !IsReply(caseId, m) {
        return Refused(NotACustomerMessage);
      }
      if m.createdAt <= q.askedAt {
        return Refused(MessagePredatesQuestion);
      }
      if CurrentReply(caseId, messages) != Some(m) {
        return Refused(NotTheCurrentReply);
      }
      result := ConsumeReply(q, m, batch, reader);
    }

    /** One transaction: a refusal after the append rolls it back. */
    method ConsumeReply(q: Question, m: Message, batch: seq<RawItem>, reader: Reader) returns (result: Result<Decision>)
      modifies this`assertions, this`consumptions, this`stored
      ensures (State(), result) == Consume(old(State()), q, m, batch, reader)
    {
      hide Refresh, Decide, Bound;
      var ledger := Ledger(caseId, messages, assertions, questions, consumptions, stored, proof);
      var (decision, assertion) := Decide(ledger, q, m, batch, reader);
      if assertion.Some? && !Bound(assertion.value) {
        return Refused(AssertionContractViolated);
      }
      assertions := assertions + if assertion.Some? then [assertion.value] else [];
      var refreshed := RefreshSnapshot();
      if refreshed.Refused? {
        assertions, stored := ledger.assertions, ledger.stored;
        return Refused(refreshed.reason);
      }
      consumptions := consumptions + [ConsumptionOf(q, m, batch, decision)];
      return Ok(decision);
    }

    method Record(code: FactCode, globalAsks: nat, now: int) returns (result: Result<Asked>)
      modifies this`questions, this`stored
      ensures (State(), result) == RecordQuestion(old(State()), code, globalAsks, now)
    {
      hide Refresh, Recomputed, QuestionAllowed;
      var ledger := Ledger(caseId, messages, assertions, questions, consumptions, stored, proof);
      var snapshot := Recompute();
      if snapshot == None {
        return Refused(IntegrityError);
      }
      var question := QuestionOn(ledger, snapshot.value, code, now);
      var existing := ExistingQuestion(questions, question.id);
      if existing.Some? {
        return Ok(Asked(existing.value, false));
      }
      if !QuestionAllowed(snapshot.value, code, globalAsks) {
        return Refused(QuestionNotAllowed);
      }
      questions := questions + [question];
      var refreshed := RefreshSnapshot();
      if refreshed.Refused? {
        questions, stored := ledger.questions, ledger.stored;
        return Refused(refreshed.reason);
      }
      return Ok(Asked(question, true));
    }
  }
}
