/** What a rebuilt snapshot of case facts means, for every log of assertions and questions. */
module CaseFactMeaning {
  import opened Options
  import opened StableSort
  import opened CaseFacts

  // ---------- Order independence ----------

  /** Where the last element of one arrangement sits in another, and what is left of each. */
  lemma TakeOut<T>(a: seq<T>, b: seq<T>) returns (j: nat)
    requires multiset(a) == multiset(b) && a != []
    ensures j < |b| && b[j] == a[|a| - 1] && b == (b[..j] + [b[j]]) + b[j + 1..]
    ensures multiset(a[..|a| - 1]) == multiset(b[..j] + b[j + 1..])
  {
    var last := a[|a| - 1];
    assert last in multiset(b);
    j :| 0 <= j < |b| && b[j] == last;
    WithoutLast(a);
    assert b == (b[..j] + [b[j]]) + b[j + 1..];
    assert multiset(b) == multiset(b[..j]) + multiset{b[j]} + multiset(b[j + 1..]);
    assert multiset(b[..j] + b[j + 1..]) == multiset(b) - multiset{b[j]};
  }

  lemma SequenceIsPreorder()
    ensures Preorder(SequenceLeq)
  {
  }

  lemma ContiguousIdentifies(assertions: seq<Assertion>)
    requires Contiguous(assertions)
    ensures KeyIdentifies(assertions, SequenceLeq) && Ascending(assertions, SequenceLeq)
  {
  }

  /** A contiguous log is the one every permutation of it sorts to. */
  lemma ContiguousSorts(ordered: seq<Assertion>, assertions: seq<Assertion>)
    requires Contiguous(ordered) && multiset(ordered) == multiset(assertions)
    ensures BySequence(assertions) == ordered
  {
    SequenceIsPreorder();
    ContiguousIdentifies(ordered);
    SortAscending(assertions, SequenceLeq);
    AscendingIsUnique(ordered, BySequence(assertions), SequenceLeq);
  }

  lemma {:induction false} CountConcat(caseId: string, a: seq<Question>, b: seq<Question>, code: FactCode,
      targetedOnly: bool)
    ensures CountAsks(caseId, a + b, code, targetedOnly) == CountAsks(caseId, a, code, targetedOnly)
        + CountAsks(caseId, b, code, targetedOnly)
    decreases |b|
  {
    if b == [] {
      assert a + b == a;
    } else {
      var n := |b| - 1;
      assert (a + b)[..|a| + n] == a + b[..n];
      CountConcat(caseId, a, b[..n], code, targetedOnly);
    }
  }

  lemma CountOne(caseId: string, q: Question, code: FactCode, targetedOnly: bool)
    ensures CountAsks(caseId, [q], code, targetedOnly) == if CountsAs(caseId, q, code, targetedOnly) then 1 else 0
  {
    assert [q][..0] == [];
  }

  lemma {:induction false} CountIgnoresOrder(caseId: string, a: seq<Question>, b: seq<Question>, code: FactCode,
      targetedOnly: bool)
    requires multiset(a) == multiset(b)
    ensures CountAsks(caseId, a, code, targetedOnly) == CountAsks(caseId, b, code, targetedOnly)
    decreases |a|
  {
    SameLength(a, b);
    if a != [] {
      var j := TakeOut(a, b);
      CountIgnoresOrder(caseId, a[..|a| - 1], b[..j] + b[j + 1..], code, targetedOnly);
      CountConcat(caseId, b[..j], b[j + 1..], code, targetedOnly);
      CountConcat(caseId, b[..j] + [b[j]], b[j + 1..], code, targetedOnly);
      CountConcat(caseId, b[..j], [b[j]], code, targetedOnly);
      CountOne(caseId, b[j], code, targetedOnly);
    }
  }

  lemma SnapshotIgnoresQuestionOrder(caseId: string, ordered: seq<Assertion>, p: seq<Question>, q: seq<Question>,
      proof: Option<ProofContext>)
    requires forall code ::
      Asks(caseId, p, code) == Asks(caseId, q, code) && TargetedAsks(caseId, p, code) == TargetedAsks(caseId, q, code)
    ensures SnapshotOf(caseId, ordered, p, proof) == SnapshotOf(caseId, ordered, q, proof)
    ensures WithinAsks(caseId, p) == WithinAsks(caseId, q)
  {
    hide FactOf, Asks, TargetedAsks;
  }

  /** Order independence: any permutation of the assertions and of the questions rebuilds alike, errors included. */
  lemma {:induction false} RebuildIgnoresOrder(caseId: string, a: seq<Assertion>, b: seq<Assertion>, p: seq<Question>,
      q: seq<Question>, proof: Option<ProofContext>)
    requires multiset(a) == multiset(b) && multiset(p) == multiset(q)
    ensures Rebuilt(caseId, a, p, proof) == Rebuilt(caseId, b, q, proof)
  {
    hide SnapshotOf, CountAsks, WithinAsks, OwnCase, DistinctIds, BySequence;
    if Contiguous(BySequence(a)) {
      ContiguousSorts(BySequence(a), b);
    } else if Contiguous(BySequence(b)) {
      ContiguousSorts(BySequence(b), a);
    }
    forall code ensures Asks(caseId, p, code) == Asks(caseId, q, code)
        && TargetedAsks(caseId, p, code) == TargetedAsks(caseId, q, code) {
      CountIgnoresOrder(caseId, p, q, code, false);
      CountIgnoresOrder(caseId, p, q, code, true);
    }
    SnapshotIgnoresQuestionOrder(caseId, BySequence(a), p, q, proof);
  }

  // ---------- Active and superseded ----------

  lemma {:induction false} SurvivingMembers(some: seq<Assertion>, all: seq<Assertion>)
    ensures forall a :: a in Surviving(some, all) <==> a in some && !IsSuperseded(all, a.id)
    ensures forall a :: a in Retired(some, all) <==> a in some && IsSuperseded(all, a.id)
    decreases |some|
  {
    if some != [] {
      SurvivingMembers(some[1..], all);
    }
  }

  lemma {:induction false} OfFactMembers(assertions: seq<Assertion>, code: FactCode)
    ensures forall a :: a in OfFact(assertions, code) <==> a in assertions && a.fact == code
    decreases |assertions|
  {
    if assertions != [] {
      var n := |assertions| - 1;
      OfFactMembers(assertions[..n], code);
      assert assertions == assertions[..n] + [assertions[n]];
    }
  }

  lemma IdsCons(a: Assertion, rest: seq<Assertion>)
    ensures multiset(Ids([a] + rest)) == multiset{a.id} + multiset(Ids(rest))
  {
    assert Ids([a] + rest) == [a.id] + Ids(rest);
  }

  lemma {:induction false} SplitIds(some: seq<Assertion>, all: seq<Assertion>)
    ensures multiset(Ids(Surviving(some, all))) + multiset(Ids(Retired(some, all))) == multiset(Ids(some))
    decreases |some|
  {
    hide IsSuperseded, Ids;
    if some != [] {
      var rest := some[1..];
      SplitIds(rest, all);
      assert some == [some[0]] + rest;
      IdsCons(some[0], rest);
      IdsCons(some[0], Surviving(rest, all));
      IdsCons(some[0], Retired(rest, all));
      assert [] + Surviving(rest, all) == Surviving(rest, all);
      assert [] + Retired(rest, all) == Retired(rest, all);
    } else {
      assert multiset(Ids([])) == multiset{} by { EmptyIds(); }
    }
  }

  lemma EmptyIds()
    ensures Ids([]) == []
  {
  }

  lemma IdsFound(assertions: seq<Assertion>, id: AssertionId)
    ensures id in Ids(assertions) <==> exists a :: a in assertions && a.id == id
  {
    if id in Ids(assertions) {
      var i :| 0 <= i < |assertions| && Ids(assertions)[i] == id;
      assert assertions[i] in assertions;
    }
    forall a | a in assertions && a.id == id ensures id in Ids(assertions) {
      var i :| 0 <= i < |assertions| && assertions[i] == a;
      assert Ids(assertions)[i] == id;
    }
  }

  /** Active and superseded ids partition the ids of a fact's assertions, by whether one of them is superseded. */
  lemma {:induction false} ActiveAndSupersededPartition(caseId: string, assertions: seq<Assertion>,
      questions: seq<Question>,
      proof: Option<ProofContext>, code: FactCode)
    requires Rebuilt(caseId, assertions, questions, proof).Some?
    ensures var own := OfFact(BySequence(assertions), code);
      var entry := Rebuilt(caseId, assertions, questions, proof).value.Fact(code);
      && multiset(entry.active) + multiset(entry.superseded) == multiset(Ids(own))
      && (forall id :: id in entry.active ==> !IsSuperseded(own, id))
      && (forall id :: id in entry.superseded ==> IsSuperseded(own, id))
  {
    hide Intact, BySequence, InvalidSupersession, CompetingSupersession;
    var own := OfFact(BySequence(assertions), code);
    SplitIds(own, own);
    SurvivingMembers(own, own);
    forall id ensures id in Ids(Surviving(own, own)) ==> !IsSuperseded(own, id) {
      IdsFound(Surviving(own, own), id);
    }
    forall id ensures id in Ids(Retired(own, own)) ==> IsSuperseded(own, id) {
      IdsFound(Retired(own, own), id);
    }
  }

  /** With well-formed supersession the newest assertion of a fact is active. */
  lemma NewestIsActive(caseId: string, ordered: seq<Assertion>, code: FactCode, newest: nat)
    requires Intact(caseId, ordered) && !InvalidSupersession(ordered, code)
    requires newest < |ordered| && ordered[newest].fact == code
    requires forall i :: newest < i < |ordered| ==> ordered[i].fact != code
    ensures var own := OfFact(ordered, code); ordered[newest] in Surviving(own, own)
  {
    var own := OfFact(ordered, code);
    var a := ordered[newest];
    OfFactMembers(ordered, code);
    SurvivingMembers(own, own);
    forall i | 0 <= i < |ordered| && ordered[i].fact == code ensures ordered[i].supersedes != Some(a.id) {
      if ordered[i].supersedes.Some? {
        assert ProperTarget(ordered, i);
        var j :| 0 <= j < i && Some(ordered[j].id) == ordered[i].supersedes && ordered[j].fact == ordered[i].fact;
        assert j < newest;
      }
    }
    forall k | 0 <= k < |own| ensures own[k].supersedes != Some(a.id) {
      assert own[k] in own;
      var i :| 0 <= i < |ordered| && ordered[i] == own[k];
    }
  }

  // ---------- When a fact is known ----------

  function Opposite(value: FactValue): FactValue
    requires value != Unknown
  {
    if value == HoldsTrue then HoldsFalse else HoldsTrue
  }

  /**
   A fact is known with a value exactly when supersession is well formed, some active assertion has
   the value, none has the opposite, none is a withdrawal, and, for the location fact, every active
   assertion speaks of the delivery proof that is current now.
   */
  lemma KnownExactly(caseId: string, assertions: seq<Assertion>, questions: seq<Question>,
      proof: Option<ProofContext>, code: FactCode, value: FactValue)
    requires Rebuilt(caseId, assertions, questions, proof).Some? && value != Unknown
    ensures var ordered := BySequence(assertions);
      var active := Surviving(OfFact(ordered, code), OfFact(ordered, code));
      Rebuilt(caseId, assertions, questions, proof).value.Fact(code).status
          == (if value == HoldsTrue then KnownTrue else KnownFalse) <==>
        && !InvalidSupersession(ordered, code) && !CompetingSupersession(ordered, code)
        && (exists a :: a in active && a.value == value)
        && (forall a :: a in active ==> a.value != Opposite(value) && a.relation != Withdrawal)
        && (code == LocationChecked ==> proof.Some? && forall a :: a in active ==> a.context == proof)
  {
    hide Intact, BySequence, InvalidSupersession, CompetingSupersession, Surviving, Retired, OfFact, Sources;
    var own := OfFact(BySequence(assertions), code);
    var active := Surviving(own, own);
    forall v ensures AssertsValue(active, v) <==> exists a :: a in active && a.value == v {
      if AssertsValue(active, v) {
        var i :| 0 <= i < |active| && active[i].value == v;
        assert active[i] in active;
      }
    }
    assert HasWithdrawal(active) <==> exists a :: a in active && a.relation == Withdrawal;
    assert active != [] && !MixedContexts(active) ==> forall a :: a in active ==> a.context == active[0].context;
    assert active != [] ==> active[0] in active;
    assert active != [] && MixedContexts(active) ==> exists a :: a in active && a.context != active[0].context;
  }
}
