/** The stability summary: every run is counted once, and a complete matrix classifies each group exactly. */
module EvalStability {
  import opened EvalMatrix
  import opened EvalRuns

  datatype Stability = StablePass | Flaky | Fail

  datatype GroupKey = GroupKey(layer: Layer, architecture: Architecture, scenario: string)

  datatype Row = Row(group: GroupKey, classification: Stability, passed: nat, total: nat)

  datatype Tally = Tally(stable: nat, flaky: nat, fail: nat)

  function GroupOf(r: Record): GroupKey {
    GroupKey(r.key.layer, r.key.architecture, r.key.scenario)
  }

  /** Group keys in order of first appearance. */
  function GroupKeys(records: seq<Record>): seq<GroupKey>
    decreases |records|
  {
    if records == [] then []
    else
      var n := |records| - 1;
      var earlier := GroupKeys(records[..n]);
      if GroupOf(records[n]) in earlier then earlier else earlier + [GroupOf(records[n])]
  }

  function Members(records: seq<Record>, g: GroupKey): seq<Record>
    decreases |records|
  {
    if records == [] then []
    else
      var n := |records| - 1;
      Members(records[..n], g) + if GroupOf(records[n]) == g then [records[n]] else []
  }

  function Passed(records: seq<Record>): nat
    decreases |records|
  {
    if records == [] then 0
    else
      var n := |records| - 1;
      Passed(records[..n]) + if records[n].complete then 1 else 0
  }

  function Classify(group: seq<Record>, repetitions: nat): Stability {
    var passed := Passed(group);
    if |group| == repetitions && passed == repetitions then StablePass
    else if passed > 0 then Flaky
    else Fail
  }

  function RowFor(records: seq<Record>, g: GroupKey, repetitions: nat): Row {
    var group := Members(records, g);
    Row(g, Classify(group, repetitions), Passed(group), |group|)
  }

  function Rows(records: seq<Record>, keys: seq<GroupKey>, repetitions: nat): seq<Row> {
    seq(|keys|, i requires 0 <= i < |keys| => RowFor(records, keys[i], repetitions))
  }

  function Count(rows: seq<Row>, layer: Layer, architecture: Architecture, classification: Stability): nat
    decreases |rows|
  {
    if rows == [] then 0
    else
      var n := |rows| - 1;
      Count(rows[..n], layer, architecture, classification)
      + if rows[n].group.layer == layer && rows[n].group.architecture == architecture
          && rows[n].classification == classification then 1 else 0
  }

  function RowsOf(rows: seq<Row>, layer: Layer, architecture: Architecture): nat
    decreases |rows|
  {
    if rows == [] then 0
    else
      var n := |rows| - 1;
      RowsOf(rows[..n], layer, architecture)
      + if rows[n].group.layer == layer && rows[n].group.architecture == architecture then 1 else 0
  }

  function TotalPassed(rows: seq<Row>): nat
    decreases |rows|
  {
    if rows == [] then 0 else TotalPassed(rows[..|rows| - 1]) + rows[|rows| - 1].passed
  }

  function TotalRuns(rows: seq<Row>): nat
    decreases |rows|
  {
    if rows == [] then 0 else TotalRuns(rows[..|rows| - 1]) + rows[|rows| - 1].total
  }

  // ---------- The loops ----------

  method GroupRecords(records: seq<Record>) returns (keys: seq<GroupKey>, grouped: map<GroupKey, seq<Record>>)
    ensures keys == GroupKeys(records)
    ensures forall g :: g in grouped <==> g in keys
    ensures forall g :: g in grouped ==> grouped[g] == Members(records, g)
  {
    keys, grouped := [], map[];
    for i := 0 to |records|
      invariant keys == GroupKeys(records[..i])
      invariant forall g :: g in grouped <==> g in keys
      invariant forall g :: Members(records[..i], g) == if g in grouped then grouped[g] else []
    {
      assert records[..i + 1][..i] == records[..i];
      var g := GroupOf(records[i]);
      if g !in grouped {
        keys := keys + [g];
        grouped := grouped[g := [records[i]]];
      } else {
        grouped := grouped[g := grouped[g] + [records[i]]];
      }
    }
    assert records[..|records|] == records;
  }

  function TallyOf(rows: seq<Row>, layer: Layer, architecture: Architecture): Tally {
    Tally(Count(rows, layer, architecture, StablePass), Count(rows, layer, architecture, Flaky),
        Count(rows, layer, architecture, Fail))
  }

  function Bump(tally: Tally, classification: Stability): Tally {
    match classification
    case StablePass => tally.(stable := tally.stable + 1)
    case Flaky => tally.(flaky := tally.flaky + 1)
    case Fail => tally.(fail := tally.fail + 1)
  }

  lemma TallySnoc(rows: seq<Row>, row: Row, layer: Layer, architecture: Architecture)
    ensures var own := row.group.layer == layer && row.group.architecture == architecture;
      && TallyOf(rows + [row], layer, architecture)
           == (if own then Bump(TallyOf(rows, layer, architecture), row.classification)
                                                        else TallyOf(rows, layer, architecture))
      && RowsOf(rows + [row], layer, architecture) == RowsOf(rows, layer, architecture) + (if own then 1 else 0)
  {
    assert (rows + [row])[..|rows|] == rows;
  }

  ghost predicate Counted(counts: map<(Layer, Architecture), Tally>, rows: seq<Row>) {
    forall layer, architecture {:trigger TallyOf(rows, layer, architecture)} ::
      && ((layer, architecture) in counts <==> RowsOf(rows, layer, architecture) > 0)
      && TallyOf(rows, layer, architecture) == if (layer, architecture) in counts then counts[(layer, architecture)]
           else Tally(0, 0, 0)
  }

  method StabilitySection(records: seq<Record>, repetitions: nat)
    returns (counts: map<(Layer, Architecture), Tally>, rows: seq<Row>)
    ensures rows == Rows(records, GroupKeys(records), repetitions)
    ensures Counted(counts, rows)
  {
    hide GroupKeys, Members, Classify, Count, RowsOf, Passed;
    var keys, grouped := GroupRecords(records);
    counts, rows := map[], [];
    assert Counted(counts, rows) by { NothingCounted(); }
    for i := 0 to |keys|
      invariant rows == Rows(records, keys[..i], repetitions)
      invariant Counted(counts, rows)
    {
      var g := keys[i];
      var row := Row(g, Classify(grouped[g], repetitions), Passed(grouped[g]), |grouped[g]|);
      var bucket := (g.layer, g.architecture);
      forall layer, architecture ensures
        var own := g.layer == layer && g.architecture == architecture;
        && TallyOf(rows + [row], layer, architecture)
             == (if own then Bump(TallyOf(rows, layer, architecture), row.classification)
                                                          else TallyOf(rows, layer, architecture))
        && RowsOf(rows + [row], layer, architecture) == RowsOf(rows, layer, architecture) + (if own then 1 else 0)
      {
        TallySnoc(rows, row, layer, architecture);
      }
      assert TallyOf(rows, g.layer, g.architecture) == if bucket in counts then counts[bucket] else Tally(0, 0, 0);
      counts := counts[bucket := Bump(if bucket in counts then counts[bucket] else Tally(0, 0, 0), row.classification)];
      rows := rows + [row];
      assert keys[..i + 1] == keys[..i] + [g];
    }
    assert keys[..|keys|] == keys;
  }

  lemma NothingCounted()
    ensures Counted(map[], [])
  {
  }

  // ---------- The sums ----------

  lemma {:induction false} ClassesPartitionRows(rows: seq<Row>, layer: Layer, architecture: Architecture)
    ensures Count(rows, layer, architecture, StablePass) + Count(rows, layer, architecture, Flaky)
        + Count(rows, layer, architecture, Fail)
         == RowsOf(rows, layer, architecture)
    decreases |rows|
  {
    if rows != [] {
      ClassesPartitionRows(rows[..|rows| - 1], layer, architecture);
    }
  }

  ghost predicate DistinctGroups(keys: seq<GroupKey>) {
    forall i, j :: 0 <= i < j < |keys| ==> keys[i] != keys[j]
  }

  lemma {:induction false} GroupsFound(records: seq<Record>)
    ensures DistinctGroups(GroupKeys(records))
    ensures forall r :: r in records ==> GroupOf(r) in GroupKeys(records)
    ensures forall g :: g in GroupKeys(records) ==> exists r :: r in records && GroupOf(r) == g
    decreases |records|
  {
    if records != [] {
      var n := |records| - 1;
      GroupsFound(records[..n]);
      assert records == records[..n] + [records[n]];
    }
  }

  /** One more record raises the sums by its own share when its group is among the keys, and not otherwise. */
  lemma {:induction false} SumsGrow(records: seq<Record>, r: Record, keys: seq<GroupKey>, repetitions: nat)
    requires DistinctGroups(keys)
    ensures var before, after := Rows(records, keys, repetitions), Rows(records + [r], keys, repetitions);
      && TotalPassed(after) == TotalPassed(before) + (if GroupOf(r) in keys && r.complete then 1 else 0)
      && TotalRuns(after) == TotalRuns(before) + (if GroupOf(r) in keys then 1 else 0)
    decreases |keys|
  {
    if keys != [] {
      var n := |keys| - 1;
      SumsGrow(records, r, keys[..n], repetitions);
      RowsFront(records, keys, repetitions);
      RowsFront(records + [r], keys, repetitions);
      MembersSnoc(records, r, keys[n]);
      assert GroupOf(r) in keys <==> GroupOf(r) in keys[..n] || GroupOf(r) == keys[n];
      assert GroupOf(r) == keys[n] ==> GroupOf(r) !in keys[..n];
    }
  }

  lemma RowsFront(records: seq<Record>, keys: seq<GroupKey>, repetitions: nat)
    requires keys != []
    ensures Rows(records, keys, repetitions)[..|keys| - 1] == Rows(records, keys[..|keys| - 1], repetitions)
  {
  }

  lemma MembersSnoc(records: seq<Record>, r: Record, g: GroupKey)
    ensures Members(records + [r], g) == Members(records, g) + if GroupOf(r) == g then [r] else []
    ensures Passed(Members(records + [r], g))
         == Passed(Members(records, g)) + if GroupOf(r) == g && r.complete then 1 else 0
  {
    assert (records + [r])[..|records|] == records;
    var group := Members(records, g);
    assert (group + [r])[..|group|] == group && group + [] == group;
  }

  lemma {:induction false} NoMembers(records: seq<Record>, g: GroupKey)
    requires forall r :: r in records ==> GroupOf(r) != g
    ensures Members(records, g) == []
    decreases |records|
  {
    if records != [] {
      NoMembers(records[..|records| - 1], g);
    }
  }

  /** The row of a record whose group is new. */
  lemma NewGroupRow(records: seq<Record>, r: Record, keys: seq<GroupKey>, repetitions: nat)
    requires forall k :: k in records ==> GroupOf(k) != GroupOf(r)
    ensures var g := GroupOf(r);
      && Rows(records + [r], keys + [g], repetitions) == Rows(records + [r], keys, repetitions)
           + [RowFor(records + [r], g, repetitions)]
      && RowFor(records + [r], g, repetitions).passed == (if r.complete then 1 else 0)
      && RowFor(records + [r], g, repetitions).total == 1
  {
    NoMembers(records, GroupOf(r));
    MembersSnoc(records, r, GroupOf(r));
  }

  lemma TotalsSnoc(rows: seq<Row>, row: Row)
    ensures TotalPassed(rows + [row]) == TotalPassed(rows) + row.passed
    ensures TotalRuns(rows + [row]) == TotalRuns(rows) + row.total
  {
    assert (rows + [row])[..|rows|] == rows;
  }

  lemma RecordSnoc(records: seq<Record>, r: Record)
    ensures Passed(records + [r]) == Passed(records) + (if r.complete then 1 else 0)
    ensures GroupKeys(records + [r]) == (if GroupOf(r) in GroupKeys(records) then GroupKeys(records)
        else GroupKeys(records) + [GroupOf(r)])
  {
    assert (records + [r])[..|records|] == records;
  }

  lemma {:induction false} SumsOverGroups(records: seq<Record>, repetitions: nat)
    ensures TotalPassed(Rows(records, GroupKeys(records), repetitions)) == Passed(records)
    ensures TotalRuns(Rows(records, GroupKeys(records), repetitions)) == |records|
    decreases |records|
  {
    if records != [] {
      var n := |records| - 1;
      var front, r := records[..n], records[n];
      hide GroupKeys, Passed, Rows, RowFor, TotalPassed, TotalRuns;
      assert front + [r] == records;
      RecordSnoc(front, r);
      SumsOverGroups(front, repetitions);
      GroupsFound(front);
      var keys := GroupKeys(front);
      SumsGrow(front, r, keys, repetitions);
      if GroupOf(r) !in keys {
        NewGroupRow(front, r, keys, repetitions);
        TotalsSnoc(Rows(records, keys, repetitions), RowFor(records, GroupOf(r), repetitions));
      }
    }
  }

  /** All the classes of one layer, over the architectures. */
  function TalliedIn(rows: seq<Row>, layer: Layer): nat {
    Sum(TallyOf(rows, layer, Triage)) + Sum(TallyOf(rows, layer, Agent)) + Sum(TallyOf(rows, layer, Workflow))
  }

  function Sum(tally: Tally): nat {
    tally.stable + tally.flaky + tally.fail
  }

  /** All the counts of the summary. */
  function Tallied(rows: seq<Row>): nat {
    TalliedIn(rows, TriageLayer) + TalliedIn(rows, InvestigationLayer) + TalliedIn(rows, FullEndToEnd)
  }

  lemma {:induction false} EachRowIsTalliedOnce(rows: seq<Row>)
    ensures Tallied(rows) == |rows|
    decreases |rows|
  {
    hide TallyOf;
    if rows == [] {
      NothingTallied();
    } else {
      var n := |rows| - 1;
      EachRowIsTalliedOnce(rows[..n]);
      assert rows == rows[..n] + [rows[n]];
      forall layer, architecture ensures
        Sum(TallyOf(rows, layer, architecture)) == Sum(TallyOf(rows[..n], layer, architecture))
          + if rows[n].group.layer == layer && rows[n].group.architecture == architecture then 1 else 0
      {
        TallySnoc(rows[..n], rows[n], layer, architecture);
      }
    }
  }

  lemma NothingTallied()
    ensures Tallied([]) == 0
  {
  }

  /**
   The summary adds up: in every layer and architecture the three classes count each group once, all
   the counts together are the number of groups, and over all groups the passed runs are exactly the
   complete passes and the totals all the records.
   */
  lemma {:induction false} StabilityAddsUp(records: seq<Record>, repetitions: nat)
    ensures var rows := Rows(records, GroupKeys(records), repetitions);
      && TotalPassed(rows) == Passed(records) && TotalRuns(rows) == |records|
      && (forall layer, architecture ::
            Count(rows, layer, architecture, StablePass) + Count(rows, layer, architecture, Flaky)
                + Count(rows, layer, architecture, Fail)
            == RowsOf(rows, layer, architecture))
      && Tallied(rows) == |GroupKeys(records)| && DistinctGroups(GroupKeys(records))
  {
    var rows := Rows(records, GroupKeys(records), repetitions);
    SumsOverGroups(records, repetitions);
    GroupsFound(records);
    EachRowIsTalliedOnce(rows);
    forall layer, architecture ensures
      Count(rows, layer, architecture, StablePass) + Count(rows, layer, architecture, Flaky)
          + Count(rows, layer, architecture, Fail)
      == RowsOf(rows, layer, architecture)
    {
      ClassesPartitionRows(rows, layer, architecture);
    }
  }

  // ---------- Classification over a complete matrix ----------

  function GroupMatrix(g: GroupKey, repetitions: nat): set<Key> {
    if repetitions == 0 then {}
    else GroupMatrix(g, repetitions - 1) + {Key(g.scenario, g.layer, g.architecture, repetitions)}
  }

  lemma {:induction false} GroupMatrixSize(g: GroupKey, repetitions: nat)
    ensures |GroupMatrix(g, repetitions)| == repetitions
    ensures forall key :: key in GroupMatrix(g, repetitions) <==>
      key.scenario == g.scenario && key.layer == g.layer && key.architecture == g.architecture
          && 1 <= key.repetition <= repetitions
  {
    if repetitions > 0 {
      GroupMatrixSize(g, repetitions - 1);
    }
  }

  lemma {:induction false} MembersFound(records: seq<Record>, g: GroupKey)
    ensures forall r :: r in Members(records, g) <==> r in records && GroupOf(r) == g
    ensures DistinctRecords(records) ==> DistinctRecords(Members(records, g))
    decreases |records|
  {
    if records != [] {
      var n := |records| - 1;
      MembersFound(records[..n], g);
      assert records == records[..n] + [records[n]];
      if DistinctRecords(records) {
        assert DistinctRecords(records[..n]);
        forall r | r in records[..n] ensures r.key != records[n].key {
        }
      }
    }
  }

  lemma {:induction false} PassedExactly(group: seq<Record>)
    ensures Passed(group) <= |group|
    ensures Passed(group) == |group| <==> forall r :: r in group ==> r.complete
    ensures Passed(group) == 0 <==> forall r :: r in group ==> !r.complete
    decreases |group|
  {
    if group != [] {
      var n := |group| - 1;
      PassedExactly(group[..n]);
      assert forall r :: r in group <==> r in group[..n] || r == group[n];
    }
  }

  /** In a complete matrix every group holds each repetition once. */
  lemma GroupIsComplete(records: seq<Record>, manifests: seq<Scenario>, partition: Partition, repetitions: nat,
      g: GroupKey)
    requires DistinctRecords(records) && IsMatrix(RecordKeys(records), manifests, partition, repetitions)
    requires g in GroupKeys(records)
    ensures |Members(records, g)| == repetitions
  {
    hide GroupKeys, Members, GroupMatrix, InMatrix;
    GroupsFound(records);
    MembersFound(records, g);
    GroupMatrixSize(g, repetitions);
    var group := Members(records, g);
    DistinctExactly(group);
    var r :| r in records && GroupOf(r) == g;
    assert r.key in RecordKeys(records);
    forall key ensures key in RecordKeys(group) <==> key in GroupMatrix(g, repetitions) {
      SameGroupInMatrix(manifests, partition, repetitions, r.key, key);
      assert key in RecordKeys(records) <==> InMatrix(manifests, partition, repetitions, key);
      if key in RecordKeys(records) {
        var k :| k in records && k.key == key;
      }
    }
    assert RecordKeys(group) == GroupMatrix(g, repetitions);
  }

  lemma SameGroupInMatrix(manifests: seq<Scenario>, partition: Partition, repetitions: nat, a: Key, b: Key)
    requires InMatrix(manifests, partition, repetitions, a)
    ensures
      && b.scenario == a.scenario && b.layer == a.layer && b.architecture == a.architecture
      && 1 <= b.repetition <= repetitions
      ==> InMatrix(manifests, partition, repetitions, b)
    ensures InMatrix(manifests, partition, repetitions, b) ==> 1 <= b.repetition <= repetitions
  {
  }

  /** Over any records: stable means every repetition is there and passed, fail that none passed. */
  lemma RowIsExact(records: seq<Record>, g: GroupKey, repetitions: nat)
    requires g in GroupKeys(records)
    ensures var row := RowFor(records, g, repetitions);
      && (row.classification == StablePass <==>
            row.total == repetitions && forall r :: r in records && GroupOf(r) == g ==> r.complete)
      && (row.classification == Fail <==> forall r :: r in records && GroupOf(r) == g ==> !r.complete)
  {
    hide GroupKeys, Members, Passed;
    GroupsFound(records);
    MembersFound(records, g);
    PassedExactly(Members(records, g));
    var r :| r in records && GroupOf(r) == g;
    assert r in Members(records, g);
  }

  /** Over a complete matrix a group is stable, failing or flaky exactly as all, none or some of its runs passed. */
  lemma ClassifiedExactly(records: seq<Record>, manifests: seq<Scenario>, partition: Partition, repetitions: nat,
      g: GroupKey)
    requires DistinctRecords(records) && IsMatrix(RecordKeys(records), manifests, partition, repetitions)
    requires g in GroupKeys(records)
    ensures var verdict := RowFor(records, g, repetitions).classification;
      && (verdict == StablePass <==> forall r :: r in records && GroupOf(r) == g ==> r.complete)
      && (verdict == Fail <==> forall r :: r in records && GroupOf(r) == g ==> !r.complete)
  {
    hide GroupKeys, Members, Passed, InMatrix;
    GroupIsComplete(records, manifests, partition, repetitions, g);
    RowIsExact(records, g, repetitions);
  }
}
