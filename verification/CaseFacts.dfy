/**
 Case facts: what a customer's replies assert about a parcel. An append-only log of assertions is
 rebuilt into one entry per fact; a reply's meaning is interpreted from its text cues, never taken
 from the proposed candidate.
 */
module CaseFacts {
  import opened Options
  import opened StableSort

  datatype FactCode = StillReportsMissing | LocationChecked

  datatype FactValue = HoldsTrue | HoldsFalse | Unknown

  datatype Relation = New | Repeat | Correction | Withdrawal

  predicate Targeted(relation: Relation) {
    relation == Correction || relation == Withdrawal
  }

  datatype ProofContext = ProofContext(toolCallId: string, resultHash: string)

  /** Identities are digests of exactly these values within one Case; a digest is taken as injective. */
  datatype QuestionId = QuestionId(fact: FactCode, contextHash: Option<string>, targeted: bool)

  datatype AssertionId = AssertionId(question: QuestionId, message: string, candidate: Candidate,
      contextHash: Option<string>)

  /** The untrusted extraction boundary. */
  datatype Candidate = Candidate(
    fact: FactCode,
    value: FactValue,
    relation: Relation,
    target: Option<AssertionId>,
    spanStart: nat,
    spanEnd: nat)

  predicate WellShaped(c: Candidate) {
    && c.spanStart < c.spanEnd
    && Targeted(c.relation) == c.target.Some?
    && (c.relation == Withdrawal ==> c.value == Unknown)
  }

  /** A stored assertion. A content hash stands for the content itself. */
  datatype Assertion = Assertion(
    id: AssertionId,
    caseId: string,
    fact: FactCode,
    value: FactValue,
    message: string,
    sourceContent: string,
    spanStart: nat,
    spanEnd: nat,
    relation: Relation,
    supersedes: Option<AssertionId>,
    context: Option<ProofContext>,
    sequence: int)

  /** The assertion contract: supersession matches the relation, proof context matches the fact. */
  predicate Bound(a: Assertion) {
    && a.spanStart < a.spanEnd && a.sequence >= 1
    && Targeted(a.relation) == a.supersedes.Some?
    && (a.fact == LocationChecked) == a.context.Some?
    && (a.relation == Withdrawal ==> a.value == Unknown)
  }

  datatype Question = Question(id: QuestionId, caseId: string, fact: FactCode, targeted: bool, askedAt: int)

  datatype FactStatus = KnownTrue | KnownFalse | UnknownFact | Conflict

  datatype Entry = Entry(
    status: FactStatus,
    active: seq<AssertionId>,
    superseded: seq<AssertionId>,
    sources: seq<string>,
    context: Option<ProofContext>)

  datatype QuestionStatus =
    | Inapplicable
    | Unanswered
    | Answered
    | UnknownExhausted
    | ConflictRequiresClarification
    | ConflictExhausted

  datatype QuestionState = QuestionState(asks: nat, status: QuestionStatus)

  datatype Snapshot = Snapshot(
    revision: nat,
    missing: Entry,
    location: Entry,
    missingQuestion: QuestionState,
    locationQuestion: QuestionState)
  {
    function Fact(code: FactCode): Entry {
      match code
      case StillReportsMissing => missing
      case LocationChecked => location
    }

    function Asked(code: FactCode): QuestionState {
      match code
      case StillReportsMissing => missingQuestion
      case LocationChecked => locationQuestion
    }
  }

  // ---------- Interpretation ----------

  /** What the cues in a message say about one fact: the value they support, and the two relation cues. */
  datatype Reading = Reading(value: Option<FactValue>, correction: bool, withdrawal: bool)

  predicate IsSuperseded(assertions: seq<Assertion>, id: AssertionId) {
    exists i :: 0 <= i < |assertions| && assertions[i].supersedes == Some(id)
  }

  /** Those of `some` that nothing in `all` supersedes, in order. */
  function Surviving(some: seq<Assertion>, all: seq<Assertion>): seq<Assertion>
    decreases |some|
  {
    if some == [] then []
    else (if IsSuperseded(all, some[0].id) then [] else [some[0]]) + Surviving(some[1..], all)
  }

  function Retired(some: seq<Assertion>, all: seq<Assertion>): seq<Assertion>
    decreases |some|
  {
    if some == [] then []
    else (if IsSuperseded(all, some[0].id) then [some[0]] else []) + Retired(some[1..], all)
  }

  function OfFact(assertions: seq<Assertion>, code: FactCode): seq<Assertion>
    decreases |assertions|
  {
    if assertions == [] then []
    else
      var n := |assertions| - 1;
      OfFact(assertions[..n], code) + if assertions[n].fact == code then [assertions[n]] else []
  }

  function AssertsValue(assertions: seq<Assertion>, value: FactValue): bool {
    exists i :: 0 <= i < |assertions| && assertions[i].value == value
  }

  /**
   The relation a supported value stands in to the active assertions of its fact; None when a
   correction is unsupported.
   */
  function RelationTo(sameFact: seq<Assertion>, value: FactValue,
      reading: Reading): Option<(Relation, Option<AssertionId>)> {
    if sameFact != [] && value == Unknown && reading.withdrawal then
      Some((Withdrawal, Some(sameFact[|sameFact| - 1].id)))
    else if sameFact != [] && reading.correction then
      var latest := sameFact[|sameFact| - 1];
      if value == Unknown || latest.value == Unknown || latest.value == value then None
      else Some((Correction, Some(latest.id)))
    else if AssertsValue(sameFact, value) then Some((Repeat, None))
    else Some((New, None))
  }

  /** The only candidate a persisted reply can support. */
  function Interpret(content: string, fact: FactCode, reading: Reading, active: seq<Assertion>,
      proof: Option<ProofContext>): Option<Candidate> {
    if content == "" || reading.value == None then None
    else if fact == LocationChecked && reading.value != Some(Unknown) && proof == None then None
    else
      match RelationTo(OfFact(active, fact), reading.value.value, reading)
      case None => None
      case Some((relation, target)) => Some(Candidate(fact, reading.value.value, relation, target, 0, |content|))
  }

  // ---------- Rebuilding ----------

  predicate SequenceLeq(a: Assertion, b: Assertion) {
    a.sequence <= b.sequence
  }

  function BySequence(assertions: seq<Assertion>): (r: seq<Assertion>)
    ensures multiset(r) == multiset(assertions)
  {
    Sort(assertions, SequenceLeq)
  }

  predicate Contiguous(ordered: seq<Assertion>) {
    forall i :: 0 <= i < |ordered| ==> ordered[i].sequence == i + 1
  }

  predicate OwnCase(caseId: string, ordered: seq<Assertion>) {
    forall i :: 0 <= i < |ordered| ==> ordered[i].caseId == caseId
  }

  predicate DistinctIds(ordered: seq<Assertion>) {
    forall i, j :: 0 <= i < j < |ordered| ==> ordered[i].id != ordered[j].id
  }

  /** The i-th assertion supersedes an earlier assertion of its own fact. */
  predicate ProperTarget(ordered: seq<Assertion>, i: nat)
    requires i < |ordered|
  {
    exists j :: 0 <= j < i && Some(ordered[j].id) == ordered[i].supersedes && ordered[j].fact == ordered[i].fact
  }

  predicate InvalidSupersession(ordered: seq<Assertion>, code: FactCode) {
    exists i :: 0 <= i < |ordered| && ordered[i].fact == code && ordered[i].supersedes.Some?
        && !ProperTarget(ordered, i)
  }

  predicate CompetingSupersession(ordered: seq<Assertion>, code: FactCode) {
    exists i, k :: 0 <= i < k < |ordered| && ordered[i].supersedes == ordered[k].supersedes
        && ordered[i].supersedes.Some?
      && ordered[i].fact == code && ProperTarget(ordered, i) && ProperTarget(ordered, k)
  }

  function Ids(assertions: seq<Assertion>): seq<AssertionId> {
    seq(|assertions|, i requires 0 <= i < |assertions| => assertions[i].id)
  }

  /** Source messages in order of first use. */
  function Sources(assertions: seq<Assertion>): seq<string>
    decreases |assertions|
  {
    if assertions == [] then []
    else
      var n := |assertions| - 1;
      var earlier := Sources(assertions[..n]);
      if assertions[n].message in earlier then earlier else earlier + [assertions[n].message]
  }

  predicate HasWithdrawal(assertions: seq<Assertion>) {
    exists i :: 0 <= i < |assertions| && assertions[i].relation == Withdrawal
  }

  predicate MixedContexts(assertions: seq<Assertion>) {
    exists i :: 0 <= i < |assertions| && assertions[i].context != assertions[0].context
  }

  function StatusOf(active: seq<Assertion>, invalid: bool, competing: bool): FactStatus {
    if invalid || competing || (AssertsValue(active, HoldsTrue) && AssertsValue(active, HoldsFalse)) then Conflict
    else if HasWithdrawal(active) then UnknownFact
    else if AssertsValue(active, HoldsTrue) then KnownTrue
    else if AssertsValue(active, HoldsFalse) then KnownFalse
    else UnknownFact
  }

  function EntryFor(code: FactCode, own: seq<Assertion>, proof: Option<ProofContext>, invalid: bool,
      competing: bool): Entry {
    var active := Surviving(own, own);
    var status := StatusOf(active, invalid, competing);
    var located := code == LocationChecked && active != [];
    var context := if located && !MixedContexts(active) then active[0].context else None;
    var bound :=
      if !located then status
      else if MixedContexts(active) then Conflict
      else if proof == None || context != proof then UnknownFact
      else status;
    Entry(bound, Ids(active), Ids(Retired(own, own)), Sources(active), context)
  }

  predicate CountsAs(caseId: string, question: Question, code: FactCode, targetedOnly: bool) {
    question.caseId == caseId && question.fact == code && (targetedOnly ==> question.targeted)
  }

  function CountAsks(caseId: string, questions: seq<Question>, code: FactCode, targetedOnly: bool): nat
    decreases |questions|
  {
    if questions == [] then 0
    else
      var n := |questions| - 1;
      CountAsks(caseId, questions[..n], code, targetedOnly)
          + if CountsAs(caseId, questions[n], code, targetedOnly) then 1 else 0
  }

  function Asks(caseId: string, questions: seq<Question>, code: FactCode): nat {
    CountAsks(caseId, questions, code, false)
  }

  function TargetedAsks(caseId: string, questions: seq<Question>, code: FactCode): nat {
    CountAsks(caseId, questions, code, true)
  }

  function OwnQuestions(caseId: string, questions: seq<Question>): nat {
    Asks(caseId, questions, StillReportsMissing) + Asks(caseId, questions, LocationChecked)
  }

  function QuestionStateFor(caseId: string, code: FactCode, entry: Entry, questions: seq<Question>,
      proof: Option<ProofContext>): QuestionState {
    var asks := Asks(caseId, questions, code);
    QuestionState(asks,
      if code == LocationChecked && proof == None then Inapplicable
      else if entry.status == KnownTrue || entry.status == KnownFalse then Answered
      else if entry.status == Conflict then
        if TargetedAsks(caseId, questions, code) >= 1 then ConflictExhausted else ConflictRequiresClarification
      else if asks > 0 then UnknownExhausted
      else Unanswered)
  }

  function FactOf(ordered: seq<Assertion>, proof: Option<ProofContext>, code: FactCode): Entry {
    EntryFor(code, OfFact(ordered, code), proof, InvalidSupersession(ordered, code),
        CompetingSupersession(ordered, code))
  }

  function SnapshotOf(caseId: string, ordered: seq<Assertion>, questions: seq<Question>,
      proof: Option<ProofContext>): Snapshot {
    var missing := FactOf(ordered, proof, StillReportsMissing);
    var location := FactOf(ordered, proof, LocationChecked);
    Snapshot(|ordered| + OwnQuestions(caseId, questions), missing, location,
             QuestionStateFor(caseId, StillReportsMissing, missing, questions, proof),
             QuestionStateFor(caseId, LocationChecked, location, questions, proof))
  }

  predicate Intact(caseId: string, ordered: seq<Assertion>) {
    Contiguous(ordered) && OwnCase(caseId, ordered) && DistinctIds(ordered)
  }

  /** The snapshot contract admits at most two asks of each fact. */
  predicate WithinAsks(caseId: string, questions: seq<Question>) {
    Asks(caseId, questions, StillReportsMissing) <= 2 && Asks(caseId, questions, LocationChecked) <= 2
  }

  /** None stands for an integrity error. */
  function Rebuilt(caseId: string, assertions: seq<Assertion>, questions: seq<Question>,
      proof: Option<ProofContext>): Option<Snapshot> {
    var ordered := BySequence(assertions);
    if Intact(caseId, ordered) && WithinAsks(caseId, questions) then
        Some(SnapshotOf(caseId, ordered, questions, proof)) else None
  }

  // ---------- The rebuild as the program runs it ----------

  /** The i-th assertion properly supersedes `id`. */
  predicate Replaces(ordered: seq<Assertion>, i: nat, id: AssertionId)
    requires i < |ordered|
  {
    ordered[i].supersedes == Some(id) && ProperTarget(ordered, i)
  }

  /** How many of the first n assertions do. */
  function Superseders(ordered: seq<Assertion>, n: nat, id: AssertionId): nat
    requires n <= |ordered|
  {
    if n == 0 then 0 else Superseders(ordered, n - 1, id) + if Replaces(ordered, n - 1, id) then 1 else 0
  }

  lemma {:induction false} SupersedersCount(ordered: seq<Assertion>, n: nat, id: AssertionId)
    requires n <= |ordered|
    ensures Superseders(ordered, n, id) >= 1 <==> exists i :: 0 <= i < n && Replaces(ordered, i, id)
    ensures Superseders(ordered, n, id) >= 2 <==>
        exists i, k :: 0 <= i < k < n && Replaces(ordered, i, id) && Replaces(ordered, k, id)
  {
    if n > 0 {
      SupersedersCount(ordered, n - 1, id);
      if Replaces(ordered, n - 1, id) && Superseders(ordered, n - 1, id) >= 1 {
        var i :| 0 <= i < n - 1 && Replaces(ordered, i, id);
        assert Replaces(ordered, i, id) && Replaces(ordered, n - 1, id);
      }
    }
  }

  /** What the first loop of the rebuild has collected after i assertions. */
  ghost predicate Collected(ordered: seq<Assertion>, i: nat, ids: map<AssertionId, Assertion>, invalid: set<FactCode>,
                            superseders: map<AssertionId, nat>)
    requires i <= |ordered|
  {
    && (forall j :: 0 <= j < i ==> ordered[j].id in ids && ids[ordered[j].id] == ordered[j])
    && (forall id :: id in ids ==> exists j :: 0 <= j < i && ordered[j].id == id)
    && (forall code :: code in invalid <==>
          exists j :: 0 <= j < i && ordered[j].fact == code && ordered[j].supersedes.Some? && !ProperTarget(ordered, j))
    && (forall id :: id in superseders <==> Superseders(ordered, i, id) >= 1)
    && (forall id :: id in superseders ==> superseders[id] == Superseders(ordered, i, id))
  }

  lemma TargetLookup(ordered: seq<Assertion>, i: nat, ids: map<AssertionId, Assertion>, invalid: set<FactCode>,
      superseders: map<AssertionId, nat>)
    requires i < |ordered| && Collected(ordered, i, ids, invalid, superseders) && ordered[i].supersedes.Some?
    ensures ProperTarget(ordered, i) <==>
      ordered[i].supersedes.value in ids && ids[ordered[i].supersedes.value].fact == ordered[i].fact
  {
    var target := ordered[i].supersedes.value;
    if target in ids {
      var j :| 0 <= j < i && ordered[j].id == target;
    }
  }

  function InvalidAfter(ordered: seq<Assertion>, i: nat, invalid: set<FactCode>): set<FactCode>
    requires i < |ordered|
  {
    if ordered[i].supersedes.Some? && !ProperTarget(ordered, i) then invalid + {ordered[i].fact} else invalid
  }

  function SupersedersAfter(ordered: seq<Assertion>, i: nat, superseders: map<AssertionId, nat>): map<AssertionId, nat>
    requires i < |ordered|
  {
    if ordered[i].supersedes.Some? && ProperTarget(ordered, i) then
      var target := ordered[i].supersedes.value;
      superseders[target := (if target in superseders then superseders[target] else 0) + 1]
    else superseders
  }

  lemma CollectedOnce(ordered: seq<Assertion>, i: nat, ids: map<AssertionId, Assertion>, invalid: set<FactCode>,
      superseders: map<AssertionId, nat>)
    requires i < |ordered| && Collected(ordered, i, ids, invalid, superseders) && ordered[i].id !in ids
    ensures Collected(ordered, i + 1, ids[ordered[i].id := ordered[i]], InvalidAfter(ordered, i, invalid),
        SupersedersAfter(ordered, i, superseders))
  {
    hide ProperTarget;
    var ids', invalid' := ids[ordered[i].id := ordered[i]], InvalidAfter(ordered, i, invalid);
    forall id | id in ids' ensures exists j :: 0 <= j < i + 1 && ordered[j].id == id {
      if id in ids {
        var j :| 0 <= j < i && ordered[j].id == id;
      } else {
        assert ordered[i].id == id;
      }
    }
    forall code ensures code in invalid' <==>
      exists j :: 0 <= j < i + 1 && ordered[j].fact == code && ordered[j].supersedes.Some? && !ProperTarget(ordered, j)
    {
      if code in invalid {
        var j :| 0 <= j < i && ordered[j].fact == code && ordered[j].supersedes.Some? && !ProperTarget(ordered, j);
      }
    }
  }

  lemma IdsSoFar(ordered: seq<Assertion>, i: nat, ids: map<AssertionId, Assertion>, invalid: set<FactCode>,
      superseders: map<AssertionId, nat>)
    requires i < |ordered| && Collected(ordered, i, ids, invalid, superseders) && DistinctIds(ordered[..i])
    ensures ordered[i].id !in ids <==> DistinctIds(ordered[..i + 1])
    ensures DistinctIds(ordered) ==> ordered[i].id !in ids
  {
    hide Superseders, ProperTarget;
    if ordered[i].id in ids {
      var j :| 0 <= j < i && ordered[j].id == ordered[i].id;
      assert ordered[..i + 1][j].id == ordered[..i + 1][i].id;
    }
  }

  method CollectSupersession(caseId: string, ordered: seq<Assertion>)
    returns (intact: bool, ids: map<AssertionId, Assertion>, invalid: set<FactCode>, superseders: map<AssertionId, nat>)
    ensures intact <==> OwnCase(caseId, ordered) && DistinctIds(ordered)
    ensures intact ==> Collected(ordered, |ordered|, ids, invalid, superseders)
  {
    ids, invalid, superseders := map[], {}, map[];
    for i := 0 to |ordered|
      invariant OwnCase(caseId, ordered[..i]) && DistinctIds(ordered[..i])
      invariant Collected(ordered, i, ids, invalid, superseders)
    {
      hide ProperTarget, Superseders, Collected, DistinctIds;
      var item := ordered[i];
      IdsSoFar(ordered, i, ids, invalid, superseders);
      if item.caseId != caseId || item.id in ids {
        return false, ids, invalid, superseders;
      }
      CollectedOnce(ordered, i, ids, invalid, superseders);
      if item.supersedes.Some? {
        TargetLookup(ordered, i, ids, invalid, superseders);
        var target := item.supersedes.value;
        if target !in ids || ids[target].fact != item.fact {
          invalid := invalid + {item.fact};
        } else {
          superseders := superseders[target := (if target in superseders then superseders[target] else 0) + 1];
        }
      }
      ids := ids[item.id := item];
    }
    assert ordered[..|ordered|] == ordered;
    return true, ids, invalid, superseders;
  }

  lemma CompetingFound(ordered: seq<Assertion>, ids: map<AssertionId, Assertion>, invalid: set<FactCode>,
      superseders: map<AssertionId, nat>, code: FactCode)
    requires Collected(ordered, |ordered|, ids, invalid, superseders) && DistinctIds(ordered)
    ensures CompetingSupersession(ordered, code) <==>
      exists id :: id in superseders && superseders[id] > 1 && id in ids && ids[id].fact == code
  {
    hide ProperTarget;
    if CompetingSupersession(ordered, code) {
      var i, k :| 0 <= i < k < |ordered| && ordered[i].supersedes == ordered[k].supersedes
          && ordered[i].supersedes.Some?
        && ordered[i].fact == code && ProperTarget(ordered, i) && ProperTarget(ordered, k);
      var id := ordered[i].supersedes.value;
      assert Replaces(ordered, i, id) && Replaces(ordered, k, id);
      SupersedersCount(ordered, |ordered|, id);
      ReplacedIsKept(ordered, i, ids, invalid, superseders);
    }
    forall id | id in superseders && superseders[id] > 1 && id in ids
        && ids[id].fact == code ensures CompetingSupersession(ordered, code) {
      SupersedersCount(ordered, |ordered|, id);
      var i, k :| 0 <= i < k < |ordered| && Replaces(ordered, i, id) && Replaces(ordered, k, id);
      ReplacedIsKept(ordered, i, ids, invalid, superseders);
    }
  }

  lemma ReplacedIsKept(ordered: seq<Assertion>, i: nat, ids: map<AssertionId, Assertion>, invalid: set<FactCode>,
      superseders: map<AssertionId, nat>)
    requires Collected(ordered, |ordered|, ids, invalid, superseders)
    requires i < |ordered| && ordered[i].supersedes.Some? && ProperTarget(ordered, i)
    ensures ordered[i].supersedes.value in ids && ids[ordered[i].supersedes.value].fact == ordered[i].fact
  {
    hide Superseders;
    var j :| 0 <= j < i && Some(ordered[j].id) == ordered[i].supersedes && ordered[j].fact == ordered[i].fact;
  }

  method FindCompeting(ids: map<AssertionId, Assertion>,
      superseders: map<AssertionId, nat>) returns (competing: set<FactCode>)
    ensures forall code :: code in competing <==>
        exists id :: id in superseders && superseders[id] > 1 && id in ids && ids[id].fact == code
  {
    competing := {};
    var left := superseders.Keys;
    while left != {}
      invariant left <= superseders.Keys
      invariant forall code :: code in competing <==>
        exists id :: id in superseders && id !in left && superseders[id] > 1 && id in ids && ids[id].fact == code
      decreases |left|
    {
      var id :| id in left;
      left := left - {id};
      if superseders[id] > 1 && id in ids {
        competing := competing + {ids[id].fact};
      }
    }
  }

  lemma FlagsFound(ordered: seq<Assertion>, ids: map<AssertionId, Assertion>, invalid: set<FactCode>,
      superseders: map<AssertionId, nat>, competing: set<FactCode>)
    requires Collected(ordered, |ordered|, ids, invalid, superseders) && DistinctIds(ordered)
    requires forall code :: code in competing <==>
        exists id :: id in superseders && superseders[id] > 1 && id in ids && ids[id].fact == code
    ensures forall code :: code in invalid <==> InvalidSupersession(ordered, code)
    ensures forall code :: code in competing <==> CompetingSupersession(ordered, code)
  {
    hide CompetingSupersession, Superseders, DistinctIds;
    forall code ensures code in competing <==> CompetingSupersession(ordered, code) {
      CompetingFound(ordered, ids, invalid, superseders, code);
    }
  }

  lemma OfFactSnoc(assertions: seq<Assertion>, a: Assertion, code: FactCode)
    ensures OfFact(assertions + [a], code) == OfFact(assertions, code) + if a.fact == code then [a] else []
  {
    assert (assertions + [a])[..|assertions|] == assertions;
  }

  method Group(ordered: seq<Assertion>) returns (missing: seq<Assertion>, location: seq<Assertion>)
    ensures missing == OfFact(ordered, StillReportsMissing) && location == OfFact(ordered, LocationChecked)
  {
    missing, location := [], [];
    for i := 0 to |ordered|
      invariant missing == OfFact(ordered[..i], StillReportsMissing)
          && location == OfFact(ordered[..i], LocationChecked)
    {
      assert ordered[..i + 1] == ordered[..i] + [ordered[i]];
      OfFactSnoc(ordered[..i], ordered[i], StillReportsMissing);
      OfFactSnoc(ordered[..i], ordered[i], LocationChecked);
      match ordered[i].fact
      case StillReportsMissing => missing := missing + [ordered[i]];
      case LocationChecked => location := location + [ordered[i]];
    }
    assert ordered[..|ordered|] == ordered;
  }

  /** The program's rebuild, loop by loop, proved to compute `Rebuilt`. */
  method Rebuild(caseId: string, assertions: seq<Assertion>, questions: seq<Question>, proof: Option<ProofContext>)
    returns (snapshot: Option<Snapshot>)
    ensures snapshot == Rebuilt(caseId, assertions, questions, proof)
  {
    hide BySequence, EntryFor, QuestionStateFor, WithinAsks, OwnQuestions, CompetingSupersession, Collected,
        InvalidSupersession, OwnCase, DistinctIds;
    var ordered := BySequence(assertions);
    for i := 0 to |ordered|
      invariant Contiguous(ordered[..i])
    {
      if ordered[i].sequence != i + 1 {
        return None;
      }
    }
    assert Contiguous(ordered) by { assert ordered[..|ordered|] == ordered; }
    var intact, ids, invalid, superseders := CollectSupersession(caseId, ordered);
    if !intact || !WithinAsks(caseId, questions) {
      return None;
    }
    var competing := FindCompeting(ids, superseders);
    assert forall code ::
      && (code in invalid <==> InvalidSupersession(ordered, code))
      && (code in competing <==> CompetingSupersession(ordered, code)) by {
      FlagsFound(ordered, ids, invalid, superseders, competing);
    }
    var missing, location := Group(ordered);
    var missingEntry := EntryFor(StillReportsMissing, missing, proof, StillReportsMissing in invalid,
        StillReportsMissing in competing);
    var locationEntry := EntryFor(LocationChecked, location, proof, LocationChecked in invalid,
        LocationChecked in competing);
    return Some(Snapshot(|ordered| + OwnQuestions(caseId, questions), missingEntry, locationEntry,
                         QuestionStateFor(caseId, StillReportsMissing, missingEntry, questions, proof),
                         QuestionStateFor(caseId, LocationChecked, locationEntry, questions, proof)));
  }
}
