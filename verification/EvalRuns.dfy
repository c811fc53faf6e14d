/** Filling the run matrix over interrupted executions, and the stability summary over the result. */
module EvalRuns {
  import opened Options
  import opened EvalMatrix

  datatype Record = Record(key: Key, partition: Partition, revision: string, complete: bool)

  function RecordKeys(records: seq<Record>): set<Key> {
    set r | r in records :: r.key
  }

  ghost predicate DistinctRecords(records: seq<Record>) {
    forall i, j :: 0 <= i < j < |records| ==> records[i].key != records[j].key
  }

  // ---------- Executing a plan ----------

  /**
   One execution: the order in which planned items got through before it ended, and how each run
   turned out. An interrupted execution stops short of some items; runs are concurrent, so the order
   is arbitrary.
   */
  datatype Execution = Execution(order: seq<nat>, outcome: nat -> bool)

  ghost predicate InRange(e: Execution, planned: seq<PlannedRun>) {
    forall i :: 0 <= i < |e.order| ==> e.order[i] < |planned|
  }

  ghost predicate Schedules(e: Execution, planned: seq<PlannedRun>) {
    && InRange(e, planned)
    && (forall i, j :: 0 <= i < j < |e.order| ==> e.order[i] != e.order[j])
  }

  ghost predicate Completes(e: Execution, planned: seq<PlannedRun>) {
    Schedules(e, planned) && forall k :: 0 <= k < |planned| ==> k in e.order
  }

  datatype PlanError = DuplicateIdentities | RunsOutsideThePlan

  function CheckStore(runs: seq<Record>, planned: seq<PlannedRun>): Option<PlanError> {
    if |RecordKeys(runs)| != |runs| then Some(DuplicateIdentities)
    else if RecordKeys(runs) - KeysOf(planned) != {} then Some(RunsOutsideThePlan)
    else None
  }

  function RecordFor(item: PlannedRun, revision: string, complete: bool): Record {
    Record(item.Identity(), item.scenario.partition, revision, complete)
  }

  /** What the first n scheduled items add to a store that held `existing`. */
  function Added(planned: seq<PlannedRun>, existing: set<Key>, e: Execution, revision: string, n: nat): seq<Record>
    requires n <= |e.order| && InRange(e, planned)
  {
    if n == 0 then []
    else
      var item := planned[e.order[n - 1]];
      Added(planned, existing, e, revision, n - 1)
      + if item.Identity() in existing then [] else [RecordFor(item, revision, e.outcome(e.order[n - 1]))]
  }

  /** The store after one execution; a store that fails the checks is left alone. */
  function Executed(runs: seq<Record>, planned: seq<PlannedRun>, e: Execution, revision: string): seq<Record>
    requires InRange(e, planned)
  {
    if CheckStore(runs, planned).Some? then runs
    else runs + Added(planned, RecordKeys(runs), e, revision, |e.order|)
  }

  /** The records of one evaluation revision, on disk. */
  class RunStore {
    var runs: seq<Record>

    constructor ()
      ensures runs == []
    {
      runs := [];
    }

    method ExecutePlan(planned: seq<PlannedRun>, e: Execution, revision: string) returns (error: Option<PlanError>)
      requires InRange(e, planned)
      modifies this
      ensures error == CheckStore(old(runs), planned)
      ensures runs == Executed(old(runs), planned, e, revision)
    {
      error := CheckStore(runs, planned);
      if error.Some? {
        return;
      }
      var existing := RecordKeys(runs);
      for i := 0 to |e.order|
        invariant runs == old(runs) + Added(planned, existing, e, revision, i)
      {
        var item := planned[e.order[i]];
        if item.Identity() !in existing {
          runs := runs + [RecordFor(item, revision, e.outcome(e.order[i]))];
        }
      }
    }
  }

  // ---------- Any number of interruptions, then one complete execution ----------

  /** A store whose records are distinct runs of the plan, under one revision. */
  ghost predicate PartOf(runs: seq<Record>, planned: seq<PlannedRun>, partition: Partition, revision: string) {
    && DistinctRecords(runs)
    && RecordKeys(runs) <= KeysOf(planned)
    && forall r :: r in runs ==> r.partition == partition && r.revision == revision
  }

  ghost predicate AllOfPartition(planned: seq<PlannedRun>, partition: Partition) {
    forall item :: item in planned ==> item.scenario.partition == partition
  }

  /** Counting distinct keys tells exactly whether a key is repeated. */
  lemma {:induction false} DistinctExactly(runs: seq<Record>)
    ensures |RecordKeys(runs)| <= |runs|
    ensures |RecordKeys(runs)| == |runs| <==> DistinctRecords(runs)
    decreases |runs|
  {
    if runs != [] {
      var n := |runs| - 1;
      DistinctExactly(runs[..n]);
      assert runs == runs[..n] + [runs[n]];
      assert RecordKeys(runs) == RecordKeys(runs[..n]) + {runs[n].key};
      if runs[n].key in RecordKeys(runs[..n]) {
        var r :| r in runs[..n] && r.key == runs[n].key;
        var i :| 0 <= i < n && runs[i] == r;
      } else {
        forall r | r in runs[..n] ensures r.key != runs[n].key {
        }
      }
    }
  }

  /** A store is refused exactly for a repeated key, or for a run the plan does not have. */
  lemma StoreIsRefusedExactly(runs: seq<Record>, planned: seq<PlannedRun>)
    ensures CheckStore(runs, planned) == Some(DuplicateIdentities) <==> !DistinctRecords(runs)
    ensures CheckStore(runs, planned) == Some(RunsOutsideThePlan) <==>
      && DistinctRecords(runs)
      && exists r :: r in runs && forall item :: item in planned ==> item.Identity() != r.key
  {
    DistinctExactly(runs);
    var outside := RecordKeys(runs) - KeysOf(planned);
    if outside != {} {
      var key :| key in outside;
      var r :| r in runs && r.key == key;
    }
    forall r | r in runs && (forall item :: item in planned ==> item.Identity() != r.key) ensures r.key in outside {
    }
  }

  lemma PartPasses(runs: seq<Record>, planned: seq<PlannedRun>, partition: Partition, revision: string)
    requires PartOf(runs, planned, partition, revision)
    ensures CheckStore(runs, planned) == None
  {
    DistinctExactly(runs);
  }

  /** The keys present once the first n scheduled items are through. */
  ghost predicate FilledBy(keys: set<Key>, existing: set<Key>, planned: seq<PlannedRun>, e: Execution, n: nat)
    requires n <= |e.order| && InRange(e, planned)
  {
    forall key :: key in keys <==> key in existing || exists i :: 0 <= i < n && planned[e.order[i]].Identity() == key
  }

  lemma FilledByOneMore(keys: set<Key>, existing: set<Key>, planned: seq<PlannedRun>, e: Execution, n: nat)
    requires n < |e.order| && Schedules(e, planned) && DistinctRuns(planned) && FilledBy(keys, existing, planned, e, n)
    ensures FilledBy(keys + {planned[e.order[n]].Identity()}, existing, planned, e, n + 1)
    ensures planned[e.order[n]].Identity() in keys <==> planned[e.order[n]].Identity() in existing
  {
    forall i | 0 <= i < n ensures planned[e.order[i]].Identity() != planned[e.order[n]].Identity() {
      assert e.order[i] != e.order[n];
    }
  }

  lemma AddedOnce(runs: seq<Record>, planned: seq<PlannedRun>, existing: set<Key>, e: Execution, revision: string,
      n: nat)
    requires 0 < n <= |e.order| && InRange(e, planned)
    ensures var item := planned[e.order[n - 1]];
      var before := runs + Added(planned, existing, e, revision, n - 1);
      runs + Added(planned, existing, e, revision, n)
      == if item.Identity() in existing then before else before + [RecordFor(item, revision, e.outcome(e.order[n - 1]))]
  {
  }

  lemma {:induction false} AddedKeeps(runs: seq<Record>, planned: seq<PlannedRun>, e: Execution,
      partition: Partition, revision: string, n: nat)
    requires PartOf(runs, planned, partition, revision) && AllOfPartition(planned, partition)
    requires DistinctRuns(planned) && Schedules(e, planned) && n <= |e.order|
    ensures PartOf(runs + Added(planned, RecordKeys(runs), e, revision, n), planned, partition, revision)
    ensures FilledBy(RecordKeys(runs + Added(planned, RecordKeys(runs), e, revision, n)), RecordKeys(runs), planned,
        e, n)
    decreases n
  {
    hide RecordKeys, KeysOf, DistinctRuns, PartOf, FilledBy, Added, AllOfPartition;
    var existing := RecordKeys(runs);
    if n == 0 {
      NothingAdded(runs, planned, existing, e, revision);
    } else {
      var before := runs + Added(planned, existing, e, revision, n - 1);
      var item := planned[e.order[n - 1]];
      AddedOnce(runs, planned, existing, e, revision, n);
      AddedKeeps(runs, planned, e, partition, revision, n - 1);
      FilledByOneMore(RecordKeys(before), existing, planned, e, n - 1);
      if item.Identity() in existing {
        assert RecordKeys(before) + {item.Identity()} == RecordKeys(before);
      } else {
        PlannedItem(planned, item, partition);
        OneMoreRecord(before, RecordFor(item, revision, e.outcome(e.order[n - 1])), planned, partition, revision);
      }
    }
  }

  lemma NothingAdded(runs: seq<Record>, planned: seq<PlannedRun>, existing: set<Key>, e: Execution, revision: string)
    requires InRange(e, planned)
    ensures runs + Added(planned, existing, e, revision, 0) == runs
    ensures FilledBy(existing, existing, planned, e, 0)
  {
  }

  lemma PlannedItem(planned: seq<PlannedRun>, item: PlannedRun, partition: Partition)
    requires item in planned && AllOfPartition(planned, partition)
    ensures item.Identity() in KeysOf(planned) && item.scenario.partition == partition
  {
  }

  lemma OneMoreRecord(runs: seq<Record>, r: Record, planned: seq<PlannedRun>, partition: Partition, revision: string)
    requires PartOf(runs, planned, partition, revision) && r.key !in RecordKeys(runs) && r.key in KeysOf(planned)
    requires r.partition == partition && r.revision == revision
    ensures PartOf(runs + [r], planned, partition, revision)
    ensures RecordKeys(runs + [r]) == RecordKeys(runs) + {r.key}
  {
    forall i | 0 <= i < |runs| ensures runs[i].key != r.key {
      assert runs[i] in runs;
    }
  }

  function AfterAll(runs: seq<Record>, planned: seq<PlannedRun>, executions: seq<Execution>,
      revision: string): seq<Record>
    requires forall k :: 0 <= k < |executions| ==> Schedules(executions[k], planned)
    decreases |executions|
  {
    if executions == [] then runs
    else
      var n := |executions| - 1;
      assert Schedules(executions[n], planned);
      Executed(AfterAll(runs, planned, executions[..n], revision), planned, executions[n], revision)
  }

  lemma {:induction false} InterruptedIsPart(planned: seq<PlannedRun>, executions: seq<Execution>,
      partition: Partition, revision: string)
    requires DistinctRuns(planned) && AllOfPartition(planned, partition)
    requires forall k :: 0 <= k < |executions| ==> Schedules(executions[k], planned)
    ensures PartOf(AfterAll([], planned, executions, revision), planned, partition, revision)
    decreases |executions|
  {
    if executions != [] {
      var n := |executions| - 1;
      InterruptedIsPart(planned, executions[..n], partition, revision);
      var runs := AfterAll([], planned, executions[..n], revision);
      PartPasses(runs, planned, partition, revision);
      AddedKeeps(runs, planned, executions[n], partition, revision, |executions[n].order|);
    }
  }

  // ---------- Validating the matrix ----------

  datatype MatrixError = DuplicateRuns | IncompleteMatrix | ForeignRevision | ForeignPartition

  ghost predicate IsMatrix(keys: set<Key>, manifests: seq<Scenario>, partition: Partition, repetitions: nat) {
    forall key :: key in keys <==> InMatrix(manifests, partition, repetitions, key)
  }

  method ValidateRunMatrix(records: seq<Record>, manifests: seq<Scenario>, partition: Partition, repetitions: nat,
      revision: string)
    returns (error: Option<MatrixError>)
    ensures error == Some(DuplicateRuns) <==> !DistinctRecords(records)
    ensures error == Some(IncompleteMatrix) <==>
      DistinctRecords(records) && !IsMatrix(RecordKeys(records), manifests, partition, repetitions)
    ensures error == Some(ForeignRevision) <==>
      && DistinctRecords(records) && IsMatrix(RecordKeys(records), manifests, partition, repetitions)
      && exists r :: r in records && r.revision != revision
    ensures error == None <==>
      && |RecordKeys(records)| == |records| && IsMatrix(RecordKeys(records), manifests, partition, repetitions)
      && (forall r :: r in records ==> r.revision == revision && r.partition == partition)
  {
    DistinctExactly(records);
    if |RecordKeys(records)| != |records| {
      return Some(DuplicateRuns);
    }
    var expected := ExpectedKeys(manifests, partition, repetitions);
    if RecordKeys(records) != expected {
      MatrixIsUnique(RecordKeys(records), expected, manifests, partition, repetitions);
      return Some(IncompleteMatrix);
    }
    if exists r :: r in records && r.revision != revision {
      return Some(ForeignRevision);
    }
    if exists r :: r in records && r.partition != partition {
      return Some(ForeignPartition);
    }
    return None;
  }

  lemma MatrixIsUnique(keys: set<Key>, expected: set<Key>, manifests: seq<Scenario>, partition: Partition,
      repetitions: nat)
    requires IsMatrix(expected, manifests, partition, repetitions)
    ensures IsMatrix(keys, manifests, partition, repetitions) <==> keys == expected
  {
    if IsMatrix(keys, manifests, partition, repetitions) {
      forall key ensures key in keys <==> key in expected {
      }
    }
  }

  /**
   The matrix is filled exactly once: with distinct scenario ids and layers, after any number of
   interrupted executions and one that completes, the store holds exactly one record for each key of
   the matrix, and validates.
   */
  lemma MatrixIsFilledOnce(manifests: seq<Scenario>, partition: Partition, repetitions: nat,
      interrupted: seq<Execution>, last: Execution, revision: string)
    requires DistinctScenarios(manifests) && forall s :: s in manifests && s.partition == partition ==>
        DistinctLayers(s.layers)
    requires forall k :: 0 <= k < |interrupted| ==> Schedules(interrupted[k], PlanOf(manifests, partition, repetitions))
    requires Completes(last, PlanOf(manifests, partition, repetitions))
    ensures var records := AfterAll([], PlanOf(manifests, partition, repetitions), interrupted + [last], revision);
      && DistinctRecords(records) && |RecordKeys(records)| == |records|
      && IsMatrix(RecordKeys(records), manifests, partition, repetitions)
      && (forall r :: r in records ==> r.revision == revision && r.partition == partition)
  {
    hide PlanOf, DistinctRuns, KeysOf, RecordKeys, IsMatrix, InMatrix;
    var planned := PlanOf(manifests, partition, repetitions);
    PlanIsDuplicateFreeExactly(manifests, partition, repetitions);
    PlanIsOfPartition(manifests, partition, repetitions);
    InterruptedIsPart(planned, interrupted, partition, revision);
    var before := AfterAll([], planned, interrupted, revision);
    PartPasses(before, planned, partition, revision);
    AddedKeeps(before, planned, last, partition, revision, |last.order|);
    assert (interrupted + [last])[..|interrupted|] == interrupted;
    var records := AfterAll([], planned, interrupted + [last], revision);
    assert records == before + Added(planned, RecordKeys(before), last, revision, |last.order|);
    DistinctExactly(records);
    forall key ensures key in KeysOf(planned) <==> key in RecordKeys(records) {
      if key in KeysOf(planned) {
        CompleteCovers(planned, last, key);
      }
    }
    MatrixReached(manifests, partition, repetitions, RecordKeys(records));
  }

  lemma CompleteCovers(planned: seq<PlannedRun>, e: Execution, key: Key)
    requires Completes(e, planned) && key in KeysOf(planned)
    ensures exists i :: 0 <= i < |e.order| && planned[e.order[i]].Identity() == key
  {
    var item :| item in planned && item.Identity() == key;
    var k :| 0 <= k < |planned| && planned[k] == item;
    assert k in e.order;
    var i :| 0 <= i < |e.order| && e.order[i] == k;
  }

  lemma MatrixReached(manifests: seq<Scenario>, partition: Partition, repetitions: nat, keys: set<Key>)
    requires forall key :: key in KeysOf(PlanOf(manifests, partition, repetitions)) <==> key in keys
    ensures IsMatrix(keys, manifests, partition, repetitions)
  {
    hide KeysOf, PlanOf, InMatrix;
    forall key ensures key in keys <==> InMatrix(manifests, partition, repetitions, key) {
      PlanCoversTheMatrix(manifests, partition, repetitions, key);
    }
  }

  lemma PlanIsOfPartition(manifests: seq<Scenario>, partition: Partition, repetitions: nat)
    ensures AllOfPartition(PlanOf(manifests, partition, repetitions), partition)
  {
    var slots := Slots(ById(manifests), partition);
    forall slot | slot in slots ensures slot.scenario.partition == partition {
      SlotsMembers(ById(manifests), partition, slot);
    }
    RunsFromSlots(slots, repetitions, partition);
  }

  lemma {:induction false} RunsFromSlots(slots: seq<Slot>, repetitions: nat, partition: Partition)
    requires forall slot :: slot in slots ==> slot.scenario.partition == partition
    ensures AllOfPartition(AllRuns(slots, repetitions), partition)
    decreases |slots|
  {
    if slots != [] {
      var n := |slots| - 1;
      RunsFromSlots(slots[..n], repetitions, partition);
      RunsOfSlot(slots[n], Architectures(slots[n].layer), repetitions);
      assert slots[n] in slots;
    }
  }

  lemma {:induction false} RunsOfSlot(slot: Slot, architectures: seq<Architecture>, repetitions: nat)
    ensures forall item :: item in SlotRuns(slot, architectures, repetitions) ==> item.scenario == slot.scenario
    decreases |architectures|
  {
    if architectures != [] {
      RunsOfSlot(slot, architectures[..|architectures| - 1], repetitions);
    }
  }
}
