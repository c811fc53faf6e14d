/** The report tells the truth: each run is passed in it exactly if it passed when it was first executed. */
module EvalTruth {
  import opened Options
  import opened EvalMatrix
  import opened EvalRuns
  import opened EvalStability

  // ---------- One execution ----------

  /** The record of a planned run that turned out so. */
  ghost predicate Tells(r: Record, item: PlannedRun, revision: string, passed: bool) {
    && r.key.scenario == item.scenario.id && r.key.layer == item.layer
    && r.key.architecture == item.architecture && r.key.repetition == item.repetition
    && r.partition == item.scenario.partition && r.revision == revision && (r.complete <==> passed)
  }

  /** A run the execution gets to and the store does not hold. */
  ghost predicate IsDue(runs: seq<Record>, planned: seq<PlannedRun>, e: Execution, i: nat)
    requires InRange(e, planned) && i < |e.order|
  {
    planned[e.order[i]].Identity() !in RecordKeys(runs)
  }

  /** Which of the first n scheduled runs were due. */
  ghost function Due(runs: seq<Record>, planned: seq<PlannedRun>, e: Execution, n: nat): set<nat>
    requires InRange(e, planned) && n <= |e.order|
  {
    set i: nat | i < n && IsDue(runs, planned, e, i)
  }

  lemma DueOnceMore(runs: seq<Record>, planned: seq<PlannedRun>, e: Execution, n: nat)
    requires InRange(e, planned) && n < |e.order|
    ensures |Due(runs, planned, e, n + 1)| == |Due(runs, planned, e, n)| + if IsDue(runs, planned, e, n) then 1 else 0
  {
    hide IsDue;
    assert Due(runs, planned, e, n + 1)
        == Due(runs, planned, e, n) + (if IsDue(runs, planned, e, n) then {n} else {});
  }

  /** The record is the one saved for the i-th scheduled item, which was due. */
  ghost predicate SavedFor(r: Record, runs: seq<Record>, planned: seq<PlannedRun>, e: Execution, revision: string,
      i: nat)
    requires InRange(e, planned) && i < |e.order|
  {
    IsDue(runs, planned, e, i) && Tells(r, planned[e.order[i]], revision, e.outcome(e.order[i]))
  }

  /** The new records of the first n scheduled items, one for each run that was due. */
  ghost predicate SavedBy(added: seq<Record>, runs: seq<Record>, planned: seq<PlannedRun>, e: Execution,
      revision: string, n: nat)
    requires InRange(e, planned) && n <= |e.order|
  {
    && |added| == |Due(runs, planned, e, n)|
    && (forall i: nat :: i < n && IsDue(runs, planned, e, i) ==> IsSaved(added, runs, planned, e, revision, i))
    && (forall r :: r in added ==> WasDue(r, runs, planned, e, revision, n))
  }

  ghost predicate IsSaved(added: seq<Record>, runs: seq<Record>, planned: seq<PlannedRun>, e: Execution,
      revision: string, i: nat)
    requires InRange(e, planned) && i < |e.order|
  {
    exists r :: r in added && SavedFor(r, runs, planned, e, revision, i)
  }

  ghost predicate WasDue(r: Record, runs: seq<Record>, planned: seq<PlannedRun>, e: Execution, revision: string,
      n: nat)
    requires InRange(e, planned) && n <= |e.order|
  {
    exists i: nat :: i < n && SavedFor(r, runs, planned, e, revision, i)
  }

  lemma {:induction false} AddedSaves(runs: seq<Record>, planned: seq<PlannedRun>, e: Execution, revision: string,
      n: nat)
    requires InRange(e, planned) && n <= |e.order|
    ensures SavedBy(Added(planned, RecordKeys(runs), e, revision, n), runs, planned, e, revision, n)
    decreases n
  {
    hide RecordKeys, SavedBy, IsDue;
    if n == 0 {
      NothingSaved(runs, planned, e, revision);
    } else {
      var before := Added(planned, RecordKeys(runs), e, revision, n - 1);
      AddedSaves(runs, planned, e, revision, n - 1);
      DueByKey(runs, planned, e, n - 1);
      if IsDue(runs, planned, e, n - 1) {
        OneMoreSaved(before, runs, planned, e, revision, n - 1,
                     RecordFor(planned[e.order[n - 1]], revision, e.outcome(e.order[n - 1])));
      } else {
        OneMoreSkipped(before, runs, planned, e, revision, n - 1);
        assert before + [] == before;
      }
    }
  }

  lemma NothingSaved(runs: seq<Record>, planned: seq<PlannedRun>, e: Execution, revision: string)
    requires InRange(e, planned)
    ensures SavedBy([], runs, planned, e, revision, 0)
  {
    assert Due(runs, planned, e, 0) == {};
  }

  lemma DueByKey(runs: seq<Record>, planned: seq<PlannedRun>, e: Execution, i: nat)
    requires InRange(e, planned) && i < |e.order|
    ensures IsDue(runs, planned, e, i) <==> planned[e.order[i]].Identity() !in RecordKeys(runs)
  {
  }

  lemma OneMoreSaved(before: seq<Record>, runs: seq<Record>, planned: seq<PlannedRun>, e: Execution,
      revision: string, n: nat, r: Record)
    requires InRange(e, planned) && n < |e.order| && IsDue(runs, planned, e, n)
    requires SavedBy(before, runs, planned, e, revision, n)
    requires Tells(r, planned[e.order[n]], revision, e.outcome(e.order[n]))
    ensures SavedBy(before + [r], runs, planned, e, revision, n + 1)
  {
    assert SavedFor(r, runs, planned, e, revision, n);
    hide IsDue, Tells, Due, SavedFor, IsSaved, WasDue;
    DueOnceMore(runs, planned, e, n);
    DueStaySaved(before, r, runs, planned, e, revision, n);
    SavedStayDue(before, r, runs, planned, e, revision, n);
  }

  lemma DueStaySaved(before: seq<Record>, r: Record, runs: seq<Record>, planned: seq<PlannedRun>, e: Execution,
      revision: string, n: nat)
    requires InRange(e, planned) && n < |e.order| && SavedFor(r, runs, planned, e, revision, n)
    requires forall i: nat :: i < n && IsDue(runs, planned, e, i) ==> IsSaved(before, runs, planned, e, revision, i)
    ensures forall i: nat :: i < n + 1 && IsDue(runs, planned, e, i) ==>
      IsSaved(before + [r], runs, planned, e, revision, i)
  {
    hide IsDue, SavedFor, IsSaved;
    forall i: nat | i < n + 1 && IsDue(runs, planned, e, i)
      ensures IsSaved(before + [r], runs, planned, e, revision, i)
    {
      StillSaved(before, r, runs, planned, e, revision, i);
    }
  }

  lemma SavedStayDue(before: seq<Record>, r: Record, runs: seq<Record>, planned: seq<PlannedRun>, e: Execution,
      revision: string, n: nat)
    requires InRange(e, planned) && n < |e.order| && SavedFor(r, runs, planned, e, revision, n)
    requires forall k :: k in before ==> WasDue(k, runs, planned, e, revision, n)
    ensures forall k :: k in before + [r] ==> WasDue(k, runs, planned, e, revision, n + 1)
  {
    hide IsDue, SavedFor, WasDue;
    forall k | k in before + [r] ensures WasDue(k, runs, planned, e, revision, n + 1) {
      StillDue(k, runs, planned, e, revision, n);
    }
  }

  lemma StillSaved(before: seq<Record>, r: Record, runs: seq<Record>, planned: seq<PlannedRun>, e: Execution,
      revision: string, i: nat)
    requires InRange(e, planned) && i < |e.order|
    ensures IsSaved(before, runs, planned, e, revision, i) || SavedFor(r, runs, planned, e, revision, i) ==>
      IsSaved(before + [r], runs, planned, e, revision, i)
  {
    hide SavedFor;
    assert r in before + [r] && forall k :: k in before ==> k in before + [r];
  }

  lemma StillDue(r: Record, runs: seq<Record>, planned: seq<PlannedRun>, e: Execution, revision: string, n: nat)
    requires InRange(e, planned) && n < |e.order|
    ensures WasDue(r, runs, planned, e, revision, n) || SavedFor(r, runs, planned, e, revision, n) ==>
      WasDue(r, runs, planned, e, revision, n + 1)
  {
    hide SavedFor;
  }

  lemma OneMoreSkipped(before: seq<Record>, runs: seq<Record>, planned: seq<PlannedRun>, e: Execution,
      revision: string, n: nat)
    requires InRange(e, planned) && n < |e.order| && !IsDue(runs, planned, e, n)
    requires SavedBy(before, runs, planned, e, revision, n)
    ensures SavedBy(before, runs, planned, e, revision, n + 1)
  {
    hide IsDue, Tells, Due, SavedFor, IsSaved, WasDue;
    DueOnceMore(runs, planned, e, n);
    forall k | k in before ensures WasDue(k, runs, planned, e, revision, n + 1) {
      StillDue(k, runs, planned, e, revision, n);
    }
  }

  /**
   An execution that passes the store checks leaves every record that was there, and saves exactly one
   for each run it got to that was not: with the run's key and partition, the revision, and the
   outcome the run turned out to have.
   */
  lemma ExecutionSavesOutcomes(runs: seq<Record>, planned: seq<PlannedRun>, e: Execution, revision: string)
    requires InRange(e, planned) && CheckStore(runs, planned) == None
    ensures var after := Executed(runs, planned, e, revision);
      && |runs| <= |after| && after[..|runs|] == runs
      && SavedBy(after[|runs|..], runs, planned, e, revision, |e.order|)
  {
    AddedSaves(runs, planned, e, revision, |e.order|);
    assert Executed(runs, planned, e, revision)[|runs|..]
        == Added(planned, RecordKeys(runs), e, revision, |e.order|);
  }

  // ---------- Any number of executions ----------

  /** The i-th execution is the first that gets to planned run k. */
  ghost predicate FirstTo(executions: seq<Execution>, i: nat, k: nat) {
    && i < |executions| && k in executions[i].order
    && forall j :: 0 <= j < i ==> k !in executions[j].order
  }

  /** Planned run k passed when it was first executed. */
  ghost predicate Passes(executions: seq<Execution>, k: nat) {
    exists i: nat :: FirstTo(executions, i, k) && executions[i].outcome(k)
  }

  ghost predicate Reached(executions: seq<Execution>, k: nat) {
    exists i: nat :: FirstTo(executions, i, k)
  }

  /** The store tells of exactly the planned runs that were reached, as they first turned out. */
  ghost predicate Truthful(runs: seq<Record>, planned: seq<PlannedRun>, executions: seq<Execution>, revision: string) {
    && (forall r :: r in runs ==>
          exists k: nat :: k < |planned| && Reached(executions, k)
              && Tells(r, planned[k], revision, Passes(executions, k)))
    && (forall k: nat :: k < |planned| && Reached(executions, k) ==> planned[k].Identity() in RecordKeys(runs))
  }

  ghost predicate AllSchedule(executions: seq<Execution>, planned: seq<PlannedRun>) {
    forall k :: 0 <= k < |executions| ==> Schedules(executions[k], planned)
  }

  lemma FirstOnceMore(executions: seq<Execution>, e: Execution, k: nat)
    ensures Reached(executions, k) ==>
      Reached(executions + [e], k) && (Passes(executions + [e], k) <==> Passes(executions, k))
    ensures !Reached(executions, k) ==>
      && (Reached(executions + [e], k) <==> k in e.order)
      && (Passes(executions + [e], k) <==> k in e.order && e.outcome(k))
  {
    var more, n := executions + [e], |executions|;
    assert forall i: nat :: i < n ==> more[i] == executions[i];
    assert forall i: nat :: i < n ==> (FirstTo(more, i, k) <==> FirstTo(executions, i, k));
    assert forall i: nat :: FirstTo(more, i, k) ==> i <= n;
    if !Reached(executions, k) {
      forall j | 0 <= j < n ensures k !in executions[j].order {
        NeverReached(executions, k, j);
      }
      assert FirstTo(more, n, k) <==> k in e.order;
    } else {
      var i: nat :| FirstTo(executions, i, k);
      assert FirstTo(more, i, k);
      forall j: nat | FirstTo(more, j, k) ensures j == i {
      }
    }
  }

  lemma {:induction false} NeverReached(executions: seq<Execution>, k: nat, j: nat)
    requires !Reached(executions, k) && j < |executions|
    ensures k !in executions[j].order
  {
    forall i | 0 <= i < j ensures k !in executions[i].order {
      NeverReached(executions, k, i);
    }
    assert !FirstTo(executions, j, k);
  }

  lemma KeyOfOneRun(planned: seq<PlannedRun>, j: nat, k: nat)
    requires DistinctRuns(planned) && j < |planned| && k < |planned| && planned[j].Identity() == planned[k].Identity()
    ensures j == k
  {
  }

  /** In a truthful store a planned run is present exactly if it was reached. */
  lemma PresentExactly(runs: seq<Record>, planned: seq<PlannedRun>, executions: seq<Execution>, revision: string,
      k: nat)
    requires Truthful(runs, planned, executions, revision) && DistinctRuns(planned) && k < |planned|
    ensures planned[k].Identity() in RecordKeys(runs) <==> Reached(executions, k)
  {
    hide DistinctRuns, Reached, Passes;
    if planned[k].Identity() in RecordKeys(runs) {
      var r :| r in runs && r.key == planned[k].Identity();
      var j: nat :| j < |planned| && Reached(executions, j)
        && Tells(r, planned[j], revision, Passes(executions, j));
      KeyOfOneRun(planned, j, k);
    }
  }

  lemma OneMoreExecution(runs: seq<Record>, planned: seq<PlannedRun>, executions: seq<Execution>, e: Execution,
      revision: string)
    requires Truthful(runs, planned, executions, revision) && DistinctRuns(planned)
    requires Schedules(e, planned) && CheckStore(runs, planned) == None
    ensures Truthful(Executed(runs, planned, e, revision), planned, executions + [e], revision)
  {
    hide DistinctRuns, Truthful, Executed, CheckStore, SavedBy;
    var after := Executed(runs, planned, e, revision);
    ExecutionSavesOutcomes(runs, planned, e, revision);
    assert after == runs + after[|runs|..];
    NewRecordsAreTrue(runs, after[|runs|..], planned, executions, e, revision);
    ReachedIsPresent(runs, after[|runs|..], planned, executions, e, revision);
    TruthfulParts(after, planned, executions + [e], revision);
  }

  ghost predicate ToldOf(r: Record, planned: seq<PlannedRun>, executions: seq<Execution>, revision: string) {
    exists k: nat :: k < |planned| && Reached(executions, k) && Tells(r, planned[k], revision, Passes(executions, k))
  }

  lemma TruthfulParts(runs: seq<Record>, planned: seq<PlannedRun>, executions: seq<Execution>, revision: string)
    ensures Truthful(runs, planned, executions, revision) <==>
      && (forall r :: r in runs ==> ToldOf(r, planned, executions, revision))
      && (forall k: nat :: k < |planned| && Reached(executions, k) ==> planned[k].Identity() in RecordKeys(runs))
  {
    hide Reached, Passes, RecordKeys, Tells;
  }

  lemma NewRecordsAreTrue(runs: seq<Record>, added: seq<Record>, planned: seq<PlannedRun>,
      executions: seq<Execution>, e: Execution, revision: string)
    requires Truthful(runs, planned, executions, revision) && DistinctRuns(planned)
    requires Schedules(e, planned) && SavedBy(added, runs, planned, e, revision, |e.order|)
    ensures forall r :: r in runs + added ==> ToldOf(r, planned, executions + [e], revision)
  {
    hide DistinctRuns, Reached, Passes, RecordKeys, Tells, Truthful, ToldOf, IsDue;
    TruthfulParts(runs, planned, executions, revision);
    forall r | r in runs + added ensures ToldOf(r, planned, executions + [e], revision) {
      if r in runs {
        StillTold(r, planned, executions, e, revision);
      } else {
        assert r in added;
        var i: nat :| i < |e.order| && SavedFor(r, runs, planned, e, revision, i);
        NewlyTold(r, runs, planned, executions, e, revision, i);
      }
    }
  }

  lemma StillTold(r: Record, planned: seq<PlannedRun>, executions: seq<Execution>, e: Execution, revision: string)
    requires ToldOf(r, planned, executions, revision)
    ensures ToldOf(r, planned, executions + [e], revision)
  {
    hide Reached, Passes, Tells;
    var k: nat :| k < |planned| && Reached(executions, k) && Tells(r, planned[k], revision, Passes(executions, k));
    FirstOnceMore(executions, e, k);
  }

  lemma NewlyTold(r: Record, runs: seq<Record>, planned: seq<PlannedRun>, executions: seq<Execution>, e: Execution,
      revision: string, i: nat)
    requires Truthful(runs, planned, executions, revision) && DistinctRuns(planned) && Schedules(e, planned)
    requires i < |e.order| && IsDue(runs, planned, e, i)
    requires Tells(r, planned[e.order[i]], revision, e.outcome(e.order[i]))
    ensures ToldOf(r, planned, executions + [e], revision)
  {
    hide Reached, Passes, Tells, Truthful, DistinctRuns, RecordKeys;
    PresentExactly(runs, planned, executions, revision, e.order[i]);
    FirstOnceMore(executions, e, e.order[i]);
  }

  lemma ReachedIsPresent(runs: seq<Record>, added: seq<Record>, planned: seq<PlannedRun>,
      executions: seq<Execution>, e: Execution, revision: string)
    requires Truthful(runs, planned, executions, revision) && DistinctRuns(planned)
    requires Schedules(e, planned) && SavedBy(added, runs, planned, e, revision, |e.order|)
    ensures forall k: nat :: k < |planned| && Reached(executions + [e], k) ==>
      planned[k].Identity() in RecordKeys(runs + added)
  {
    hide DistinctRuns, Reached, Passes, RecordKeys, Tells, Truthful;
    TruthfulParts(runs, planned, executions, revision);
    forall k: nat | k < |planned| && Reached(executions + [e], k)
      ensures planned[k].Identity() in RecordKeys(runs + added)
    {
      FirstOnceMore(executions, e, k);
      KeysKept(runs, runs + added, planned[k].Identity());
      if !Reached(executions, k) {
        PresentExactly(runs, planned, executions, revision, k);
        var i: nat :| i < |e.order| && e.order[i] == k;
        assert IsDue(runs, planned, e, i);
        var r :| r in added && SavedFor(r, runs, planned, e, revision, i);
        ToldKey(runs + added, r, planned[k], revision, e.outcome(k));
      }
    }
  }

  lemma ToldKey(runs: seq<Record>, r: Record, item: PlannedRun, revision: string, passed: bool)
    requires r in runs && Tells(r, item, revision, passed)
    ensures item.Identity() in RecordKeys(runs)
  {
    assert r.key == item.Identity();
  }

  lemma KeysKept(runs: seq<Record>, after: seq<Record>, key: Key)
    requires |runs| <= |after| && after[..|runs|] == runs
    ensures key in RecordKeys(runs) ==> key in RecordKeys(after)
  {
    assert forall r :: r in runs ==> r in after;
  }

  /** Over any number of executions from an empty store, the records tell how each run first turned out. */
  lemma {:induction false} StoreIsTruthful(planned: seq<PlannedRun>, executions: seq<Execution>, partition: Partition,
      revision: string)
    requires DistinctRuns(planned) && AllOfPartition(planned, partition) && AllSchedule(executions, planned)
    ensures Truthful(AfterAll([], planned, executions, revision), planned, executions, revision)
    decreases |executions|
  {
    hide DistinctRuns, AllOfPartition, Reached, Passes, Executed, CheckStore, PartOf, Schedules, RecordKeys;
    if executions == [] {
      forall k: nat ensures !Reached(executions, k) {
        NothingReached(k);
      }
    } else {
      var n := |executions| - 1;
      var front := executions[..n];
      StoreIsTruthful(planned, front, partition, revision);
      InterruptedIsPart(planned, front, partition, revision);
      var runs := AfterAll([], planned, front, revision);
      PartPasses(runs, planned, partition, revision);
      OneMoreExecution(runs, planned, front, executions[n], revision);
      assert front + [executions[n]] == executions;
    }
  }

  lemma NothingReached(k: nat)
    ensures !Reached([], k)
  {
  }

  // ---------- Counting ----------

  function CompleteKeys(runs: seq<Record>): set<Key> {
    set r | r in runs && r.complete :: r.key
  }

  lemma {:induction false} PassedCountsKeys(runs: seq<Record>)
    requires DistinctRecords(runs)
    ensures Passed(runs) == |CompleteKeys(runs)|
    decreases |runs|
  {
    if runs != [] {
      var n := |runs| - 1;
      PassedCountsKeys(runs[..n]);
      assert runs == runs[..n] + [runs[n]];
      forall r | r in runs[..n] ensures r.key != runs[n].key {
      }
      assert CompleteKeys(runs) == CompleteKeys(runs[..n]) + if runs[n].complete then {runs[n].key} else {};
    }
  }

  lemma {:induction false} AsManyKeysAsRuns(planned: seq<PlannedRun>, chosen: set<nat>)
    requires DistinctRuns(planned) && forall k :: k in chosen ==> k < |planned|
    ensures |set k | k in chosen :: planned[k].Identity()| == |chosen|
    decreases |chosen|
  {
    var keys := set k | k in chosen :: planned[k].Identity();
    if chosen == {} {
      assert keys == {};
    } else {
      var j :| j in chosen;
      var rest := chosen - {j};
      AsManyKeysAsRuns(planned, rest);
      var others := set k | k in rest :: planned[k].Identity();
      forall k | k in rest ensures planned[k].Identity() != planned[j].Identity() {
        if planned[k].Identity() == planned[j].Identity() {
          KeyOfOneRun(planned, k, j);
        }
      }
      assert keys == others + {planned[j].Identity()};
    }
  }

  /** The planned runs of a group. */
  predicate InGroup(item: PlannedRun, g: GroupKey) {
    item.layer == g.layer && item.architecture == g.architecture && item.scenario.id == g.scenario
  }

  lemma GroupKeysPassed(runs: seq<Record>, planned: seq<PlannedRun>, executions: seq<Execution>, revision: string,
      g: GroupKey)
    requires Truthful(runs, planned, executions, revision) && DistinctRuns(planned) && DistinctRecords(runs)
    ensures CompleteKeys(Members(runs, g))
         == set k: nat | k < |planned| && InGroup(planned[k], g) && Passes(executions, k) :: planned[k].Identity()
  {
    hide DistinctRuns, Members, Passes, Reached;
    MembersFound(runs, g);
    var keys := set k: nat | k < |planned| && InGroup(planned[k], g) && Passes(executions, k) :: planned[k].Identity();
    forall r | r in Members(runs, g) && r.complete ensures r.key in keys {
      var k: nat :| k < |planned| && Reached(executions, k) && Tells(r, planned[k], revision, Passes(executions, k));
      assert r.key == planned[k].Identity();
    }
    forall k: nat | k < |planned| && InGroup(planned[k], g) && Passes(executions, k)
      ensures planned[k].Identity() in CompleteKeys(Members(runs, g))
    {
      PassingIsReaching(executions, k);
      var r :| r in runs && r.key == planned[k].Identity();
      var j: nat :| j < |planned| && Reached(executions, j) && Tells(r, planned[j], revision, Passes(executions, j));
      KeyOfOneRun(planned, j, k);
      assert r in Members(runs, g) && r.complete;
    }
  }

  lemma PassingIsReaching(executions: seq<Execution>, k: nat)
    requires Passes(executions, k)
    ensures Reached(executions, k)
  {
  }

  lemma GroupTellsTheTruth(runs: seq<Record>, planned: seq<PlannedRun>, executions: seq<Execution>, revision: string,
      g: GroupKey, repetitions: nat)
    requires Truthful(runs, planned, executions, revision) && DistinctRuns(planned) && DistinctRecords(runs)
    ensures RowFor(runs, g, repetitions).passed
         == |set k: nat | k < |planned| && InGroup(planned[k], g) && Passes(executions, k)|
  {
    hide DistinctRuns, Members, Passes, Truthful, DistinctRecords, Passed;
    MembersFound(runs, g);
    PassedCountsKeys(Members(runs, g));
    GroupKeysPassed(runs, planned, executions, revision, g);
    var chosen := set k: nat | k < |planned| && InGroup(planned[k], g) && Passes(executions, k);
    AsManyKeysAsRuns(planned, chosen);
    assert (set k | k in chosen :: planned[k].Identity())
        == set k: nat | k < |planned| && InGroup(planned[k], g) && Passes(executions, k) :: planned[k].Identity();
  }

  lemma AllPassed(runs: seq<Record>, planned: seq<PlannedRun>, executions: seq<Execution>, revision: string)
    requires Truthful(runs, planned, executions, revision) && DistinctRuns(planned) && DistinctRecords(runs)
    ensures Passed(runs) == |set k: nat | k < |planned| && Passes(executions, k)|
  {
    hide DistinctRuns, Passes, Reached, Passed;
    PassedCountsKeys(runs);
    var chosen := set k: nat | k < |planned| && Passes(executions, k);
    AsManyKeysAsRuns(planned, chosen);
    var keys := set k | k in chosen :: planned[k].Identity();
    forall r | r in runs && r.complete ensures r.key in keys {
      var k: nat :| k < |planned| && Reached(executions, k) && Tells(r, planned[k], revision, Passes(executions, k));
      assert r.key == planned[k].Identity() && k in chosen;
    }
    forall k | k in chosen ensures planned[k].Identity() in CompleteKeys(runs) {
      PassingIsReaching(executions, k);
      var r :| r in runs && r.key == planned[k].Identity();
      var j: nat :| j < |planned| && Reached(executions, j) && Tells(r, planned[j], revision, Passes(executions, j));
      KeyOfOneRun(planned, j, k);
    }
    assert keys == CompleteKeys(runs);
  }

  /**
   The report counts what happened. With distinct scenario ids and layers, after any executions from an
   empty store, however each was interrupted, every row's passes number the planned runs of its group
   that passed when they were first executed, and the passes of all rows number all such runs.
   */
  lemma ReportTellsTheTruth(manifests: seq<Scenario>, partition: Partition, repetitions: nat,
      executions: seq<Execution>, revision: string)
    requires DistinctScenarios(manifests) && forall s :: s in manifests && s.partition == partition ==>
        DistinctLayers(s.layers)
    requires AllSchedule(executions, PlanOf(manifests, partition, repetitions))
    ensures var planned := PlanOf(manifests, partition, repetitions);
      var records := AfterAll([], planned, executions, revision);
      var rows := Rows(records, GroupKeys(records), repetitions);
      && TotalPassed(rows) == |set k: nat | k < |planned| && Passes(executions, k)|
      && (forall i :: 0 <= i < |rows| ==>
            rows[i].passed == |set k: nat | k < |planned| && InGroup(planned[k], rows[i].group)
                                           && Passes(executions, k)|)
  {
    hide PlanOf, DistinctRuns, Truthful, PartOf, Passed, GroupKeys, Passes, AllOfPartition, TotalPassed, Members,
        InGroup;
    var planned := PlanOf(manifests, partition, repetitions);
    PlanIsDuplicateFreeExactly(manifests, partition, repetitions);
    PlanIsOfPartition(manifests, partition, repetitions);
    StoreIsTruthful(planned, executions, partition, revision);
    InterruptedIsPart(planned, executions, partition, revision);
    var records := AfterAll([], planned, executions, revision);
    PartIsDistinct(records, planned, partition, revision);
    SumsOverGroups(records, repetitions);
    AllPassed(records, planned, executions, revision);
    var keys := GroupKeys(records);
    forall i | 0 <= i < |keys|
      ensures Rows(records, keys, repetitions)[i].passed
           == |set k: nat | k < |planned| && InGroup(planned[k], keys[i]) && Passes(executions, k)|
    {
      GroupTellsTheTruth(records, planned, executions, revision, keys[i], repetitions);
    }
  }

  lemma PartIsDistinct(runs: seq<Record>, planned: seq<PlannedRun>, partition: Partition, revision: string)
    requires PartOf(runs, planned, partition, revision)
    ensures DistinctRecords(runs)
  {
  }
}
