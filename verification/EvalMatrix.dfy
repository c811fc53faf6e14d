/** The evaluation run matrix: planning it, filling it over interrupted runs, and summing it up. */
module EvalMatrix {
  import opened StableSort
  import opened TextOrder

  datatype Layer = TriageLayer | InvestigationLayer | FullEndToEnd

  datatype Architecture = Triage | Agent | Workflow

  datatype Partition = Development | Locked

  datatype Scenario = Scenario(id: string, partition: Partition, layers: seq<Layer>)

  datatype Key = Key(scenario: string, layer: Layer, architecture: Architecture, repetition: nat)

  datatype PlannedRun = PlannedRun(scenario: Scenario, layer: Layer, architecture: Architecture, repetition: nat) {
    function Identity(): Key {
      Key(scenario.id, layer, architecture, repetition)
    }
  }

  function Architectures(layer: Layer): seq<Architecture> {
    if layer == TriageLayer then [Triage] else [Agent, Workflow]
  }

  /** The matrix, stated without any enumeration. */
  ghost predicate InMatrix(manifests: seq<Scenario>, partition: Partition, repetitions: nat, key: Key) {
    && (key.architecture == Triage <==> key.layer == TriageLayer)
    && 1 <= key.repetition <= repetitions
    && exists s :: s in manifests && s.partition == partition && s.id == key.scenario && key.layer in s.layers
  }

  // ---------- The enumeration ----------

  /** One applicable layer of one scenario. */
  datatype Slot = Slot(scenario: Scenario, layer: Layer)

  function LayerSlots(s: Scenario, layers: seq<Layer>): seq<Slot> {
    seq(|layers|, i requires 0 <= i < |layers| => Slot(s, layers[i]))
  }

  function Slots(scenarios: seq<Scenario>, partition: Partition): seq<Slot>
    decreases |scenarios|
  {
    if scenarios == [] then []
    else
      var n := |scenarios| - 1;
      Slots(scenarios[..n], partition)
      + if scenarios[n].partition == partition then LayerSlots(scenarios[n], scenarios[n].layers) else []
  }

  function Repeated(slot: Slot, architecture: Architecture, repetitions: nat): seq<PlannedRun> {
    seq(repetitions, i requires 0 <= i < repetitions => PlannedRun(slot.scenario, slot.layer, architecture, i + 1))
  }

  function SlotRuns(slot: Slot, architectures: seq<Architecture>, repetitions: nat): seq<PlannedRun>
    decreases |architectures|
  {
    if architectures == [] then []
    else
      var n := |architectures| - 1;
      SlotRuns(slot, architectures[..n], repetitions) + Repeated(slot, architectures[n], repetitions)
  }

  function AllRuns(slots: seq<Slot>, repetitions: nat): seq<PlannedRun>
    decreases |slots|
  {
    if slots == [] then []
    else
      var n := |slots| - 1;
      AllRuns(slots[..n], repetitions) + SlotRuns(slots[n], Architectures(slots[n].layer), repetitions)
  }

  predicate IdLeq(a: Scenario, b: Scenario) {
    TextLeq(a.id, b.id)
  }

  function ById(scenarios: seq<Scenario>): (r: seq<Scenario>)
    ensures multiset(r) == multiset(scenarios)
  {
    Sort(scenarios, IdLeq)
  }

  function PlanOf(manifests: seq<Scenario>, partition: Partition, repetitions: nat): seq<PlannedRun> {
    AllRuns(Slots(ById(manifests), partition), repetitions)
  }

  function KeysOf(runs: seq<PlannedRun>): set<Key> {
    set r | r in runs :: r.Identity()
  }

  lemma KeysConcat(a: seq<PlannedRun>, b: seq<PlannedRun>)
    ensures KeysOf(a + b) == KeysOf(a) + KeysOf(b)
  {
  }

  lemma SlotsSnoc(scenarios: seq<Scenario>, s: Scenario, partition: Partition)
    ensures Slots(scenarios + [s], partition)
         == Slots(scenarios, partition) + if s.partition == partition then LayerSlots(s, s.layers) else []
  {
    assert (scenarios + [s])[..|scenarios|] == scenarios;
  }

  lemma AllRunsSnoc(slots: seq<Slot>, slot: Slot, repetitions: nat)
    ensures AllRuns(slots + [slot], repetitions) == AllRuns(slots, repetitions)
        + SlotRuns(slot, Architectures(slot.layer), repetitions)
  {
    assert (slots + [slot])[..|slots|] == slots;
  }

  /** One slot's runs, in the order of the two inner loops. */
  method PlanSlot(slot: Slot, repetitions: nat) returns (planned: seq<PlannedRun>)
    ensures planned == SlotRuns(slot, Architectures(slot.layer), repetitions)
  {
    planned := [];
    var architectures := Architectures(slot.layer);
    for a := 0 to |architectures|
      invariant planned == SlotRuns(slot, architectures[..a], repetitions)
    {
      ghost var before := planned;
      for r := 0 to repetitions
        invariant planned == before + Repeated(slot, architectures[a], r)
      {
        planned := planned + [PlannedRun(slot.scenario, slot.layer, architectures[a], r + 1)];
      }
      assert architectures[..a + 1][..a] == architectures[..a];
    }
    assert architectures[..|architectures|] == architectures;
  }

  method PlanScenario(scenario: Scenario, repetitions: nat) returns (planned: seq<PlannedRun>)
    ensures planned == AllRuns(LayerSlots(scenario, scenario.layers), repetitions)
  {
    planned := [];
    ghost var slots := LayerSlots(scenario, scenario.layers);
    for j := 0 to |scenario.layers|
      invariant planned == AllRuns(slots[..j], repetitions)
    {
      assert slots[..j + 1] == slots[..j] + [slots[j]];
      AllRunsSnoc(slots[..j], slots[j], repetitions);
      var runs := PlanSlot(Slot(scenario, scenario.layers[j]), repetitions);
      planned := planned + runs;
    }
    assert slots[..|scenario.layers|] == slots;
  }

  lemma {:induction false} AllRunsConcat(a: seq<Slot>, b: seq<Slot>, repetitions: nat)
    ensures AllRuns(a + b, repetitions) == AllRuns(a, repetitions) + AllRuns(b, repetitions)
    decreases |b|
  {
    hide SlotRuns;
    if b == [] {
      assert a + b == a;
    } else {
      var n := |b| - 1;
      assert a + b == (a + b[..n]) + [b[n]];
      AllRunsConcat(a, b[..n], repetitions);
      AllRunsSnoc(a + b[..n], b[n], repetitions);
    }
  }

  method Plan(manifests: seq<Scenario>, partition: Partition, repetitions: nat) returns (planned: seq<PlannedRun>)
    ensures planned == PlanOf(manifests, partition, repetitions)
  {
    hide AllRuns, Slots, LayerSlots;
    planned := [];
    var ordered := ById(manifests);
    assert AllRuns(Slots([], partition), repetitions) == [] by { NothingPlanned(partition, repetitions); }
    assert ordered[..0] == [];
    for i := 0 to |ordered|
      invariant planned == AllRuns(Slots(ordered[..i], partition), repetitions)
    {
      var scenario := ordered[i];
      assert ordered[..i + 1] == ordered[..i] + [scenario];
      SlotsSnoc(ordered[..i], scenario, partition);
      if scenario.partition == partition {
        var runs := PlanScenario(scenario, repetitions);
        AllRunsConcat(Slots(ordered[..i], partition), LayerSlots(scenario, scenario.layers), repetitions);
        planned := planned + runs;
      } else {
        assert Slots(ordered[..i], partition) + [] == Slots(ordered[..i], partition);
      }
    }
    assert ordered[..|ordered|] == ordered;
  }

  lemma NothingPlanned(partition: Partition, repetitions: nat)
    ensures AllRuns(Slots([], partition), repetitions) == []
  {
  }

  /** The report's own enumeration, into a set. */
  method ExpectedKeys(manifests: seq<Scenario>, partition: Partition, repetitions: nat) returns (expected: set<Key>)
    ensures forall key :: key in expected <==> InMatrix(manifests, partition, repetitions, key)
  {
    expected := {};
    for i := 0 to |manifests|
      invariant forall key :: key in expected <==> InMatrix(manifests[..i], partition, repetitions, key)
    {
      var scenario := manifests[i];
      ghost var before := expected;
      assert manifests[..i + 1] == manifests[..i] + [scenario];
      if scenario.partition == partition {
        for j := 0 to |scenario.layers|
          invariant forall key :: key in expected <==>
            key in before || (key.scenario == scenario.id && key.layer in scenario.layers[..j]
                              && key.architecture in Architectures(key.layer) && 1 <= key.repetition <= repetitions)
        {
          var layer := scenario.layers[j];
          assert scenario.layers[..j + 1] == scenario.layers[..j] + [layer];
          var cells := Cells(scenario.id, layer, repetitions);
          expected := expected + cells;
        }
        assert scenario.layers[..|scenario.layers|] == scenario.layers;
      }
    }
    assert manifests[..|manifests|] == manifests;
  }

  method Cells(id: string, layer: Layer, repetitions: nat) returns (cells: set<Key>)
    ensures forall key :: key in cells <==>
      key.scenario == id && key.layer == layer && key.architecture in Architectures(layer)
          && 1 <= key.repetition <= repetitions
  {
    cells := {};
    var architectures := Architectures(layer);
    for a := 0 to |architectures|
      invariant forall key :: key in cells <==>
        key.scenario == id && key.layer == layer && key.architecture in architectures[..a]
            && 1 <= key.repetition <= repetitions
    {
      ghost var before := cells;
      for r := 0 to repetitions
        invariant forall key :: key in cells <==>
          key in before || (key.scenario == id && key.layer == layer && key.architecture == architectures[a]
              && 1 <= key.repetition <= r)
      {
        cells := cells + {Key(id, layer, architectures[a], r + 1)};
      }
      assert architectures[..a + 1] == architectures[..a] + [architectures[a]];
    }
    assert architectures[..|architectures|] == architectures;
  }

  // ---------- The two enumerations agree ----------

  lemma {:induction false} SlotRunsKeys(slot: Slot, architectures: seq<Architecture>, repetitions: nat, key: Key)
    ensures key in KeysOf(SlotRuns(slot, architectures, repetitions)) <==>
      key.scenario == slot.scenario.id && key.layer == slot.layer && key.architecture in architectures
          && 1 <= key.repetition <= repetitions
    decreases |architectures|
  {
    if architectures != [] {
      var n := |architectures| - 1;
      var last := Repeated(slot, architectures[n], repetitions);
      SlotRunsKeys(slot, architectures[..n], repetitions, key);
      KeysConcat(SlotRuns(slot, architectures[..n], repetitions), last);
      assert architectures == architectures[..n] + [architectures[n]];
      if key.scenario == slot.scenario.id && key.layer == slot.layer && key.architecture == architectures[n]
          && 1 <= key.repetition <= repetitions {
        assert last[key.repetition - 1].Identity() == key;
      }
    }
  }

  lemma {:induction false} AllRunsKeys(slots: seq<Slot>, repetitions: nat, key: Key)
    ensures key in KeysOf(AllRuns(slots, repetitions)) <==>
      && key.architecture in Architectures(key.layer) && 1 <= key.repetition <= repetitions
      && exists slot :: slot in slots && slot.scenario.id == key.scenario && slot.layer == key.layer
    decreases |slots|
  {
    hide KeysOf;
    if slots == [] {
      assert KeysOf([]) == {} by { NoKeys(); }
    } else {
      var n := |slots| - 1;
      AllRunsKeys(slots[..n], repetitions, key);
      SlotRunsKeys(slots[n], Architectures(slots[n].layer), repetitions, key);
      KeysConcat(AllRuns(slots[..n], repetitions), SlotRuns(slots[n], Architectures(slots[n].layer), repetitions));
      assert slots == slots[..n] + [slots[n]];
    }
  }

  lemma NoKeys()
    ensures KeysOf([]) == {}
  {
  }

  lemma {:induction false} SlotsMembers(scenarios: seq<Scenario>, partition: Partition, slot: Slot)
    ensures slot in Slots(scenarios, partition) <==>
      slot.scenario in scenarios && slot.scenario.partition == partition && slot.layer in slot.scenario.layers
    decreases |scenarios|
  {
    if scenarios != [] {
      var n := |scenarios| - 1;
      SlotsMembers(scenarios[..n], partition, slot);
      assert scenarios == scenarios[..n] + [scenarios[n]];
      var own := LayerSlots(scenarios[n], scenarios[n].layers);
      if slot.scenario == scenarios[n] && slot.layer in scenarios[n].layers {
        var i :| 0 <= i < |scenarios[n].layers| && scenarios[n].layers[i] == slot.layer;
        assert own[i] == slot;
      }
    }
  }

  /** The plan covers exactly the matrix, whatever ids and layers the manifests repeat. */
  lemma PlanCoversTheMatrix(manifests: seq<Scenario>, partition: Partition, repetitions: nat, key: Key)
    ensures key in KeysOf(PlanOf(manifests, partition, repetitions)) <==>
        InMatrix(manifests, partition, repetitions, key)
  {
    hide KeysOf, AllRuns, Slots, ById;
    var slots := Slots(ById(manifests), partition);
    AllRunsKeys(slots, repetitions, key);
    forall s ensures s in manifests <==> s in ById(manifests) {
      assert s in multiset(manifests) <==> s in multiset(ById(manifests));
    }
    forall slot
      ensures slot in slots <==>
        && slot.scenario in ById(manifests) && slot.scenario.partition == partition
        && slot.layer in slot.scenario.layers
    {
      SlotsMembers(ById(manifests), partition, slot);
    }
    if InMatrix(manifests, partition, repetitions, key) {
      var s :| s in manifests && s.partition == partition && s.id == key.scenario && key.layer in s.layers;
      assert Slot(s, key.layer) in slots;
    }
  }

  // ---------- When the plan has no duplicate ----------

  ghost predicate DistinctRuns(runs: seq<PlannedRun>) {
    forall i, j :: 0 <= i < j < |runs| ==> runs[i].Identity() != runs[j].Identity()
  }

  ghost predicate SameSlot(a: Slot, b: Slot) {
    a.scenario.id == b.scenario.id && a.layer == b.layer
  }

  ghost predicate DistinctSlots(slots: seq<Slot>) {
    forall i, j :: 0 <= i < j < |slots| ==> !SameSlot(slots[i], slots[j])
  }

  ghost predicate DistinctLayers(layers: seq<Layer>) {
    forall i, j :: 0 <= i < j < |layers| ==> layers[i] != layers[j]
  }

  lemma DistinctConcat(a: seq<PlannedRun>, b: seq<PlannedRun>)
    ensures DistinctRuns(a + b) <==> DistinctRuns(a) && DistinctRuns(b) && KeysOf(a) !! KeysOf(b)
  {
    var ab := a + b;
    if DistinctRuns(ab) {
      forall i, j | 0 <= i < j < |a| ensures a[i].Identity() != a[j].Identity() {
        assert ab[i] == a[i] && ab[j] == a[j];
      }
      forall i, j | 0 <= i < j < |b| ensures b[i].Identity() != b[j].Identity() {
        assert ab[|a| + i] == b[i] && ab[|a| + j] == b[j];
      }
      forall x, y | x in a && y in b ensures x.Identity() != y.Identity() {
        var i :| 0 <= i < |a| && a[i] == x;
        var j :| 0 <= j < |b| && b[j] == y;
        assert ab[i] == x && ab[|a| + j] == y;
      }
    }
    if DistinctRuns(a) && DistinctRuns(b) && KeysOf(a) !! KeysOf(b) {
      forall i, j | 0 <= i < j < |ab| ensures ab[i].Identity() != ab[j].Identity() {
        if i < |a| <= j {
          assert ab[i] in a && ab[j] in b;
          assert ab[i].Identity() in KeysOf(a) && ab[j].Identity() in KeysOf(b);
        }
      }
    }
  }

  lemma {:induction false} SlotRunsDistinct(slot: Slot, architectures: seq<Architecture>, repetitions: nat)
    requires forall i, j :: 0 <= i < j < |architectures| ==> architectures[i] != architectures[j]
    ensures DistinctRuns(SlotRuns(slot, architectures, repetitions))
    decreases |architectures|
  {
    if architectures != [] {
      var n := |architectures| - 1;
      var front, last := SlotRuns(slot, architectures[..n], repetitions), Repeated(slot, architectures[n], repetitions);
      SlotRunsDistinct(slot, architectures[..n], repetitions);
      forall key | key in KeysOf(front) ensures key !in KeysOf(last) {
        SlotRunsKeys(slot, architectures[..n], repetitions, key);
      }
      DistinctConcat(front, last);
    }
  }

  lemma {:induction false} AllRunsDistinct(slots: seq<Slot>, repetitions: nat)
    ensures DistinctRuns(AllRuns(slots, repetitions)) <==> repetitions == 0 || DistinctSlots(slots)
    decreases |slots|
  {
    if slots != [] {
      var n := |slots| - 1;
      hide KeysOf, DistinctRuns, AllRuns, SlotRuns;
      AllRunsDistinct(slots[..n], repetitions);
      assert slots[..n] + [slots[n]] == slots;
      AllRunsSnoc(slots[..n], slots[n], repetitions);
      var front, last := AllRuns(slots[..n], repetitions),
          SlotRuns(slots[n], Architectures(slots[n].layer), repetitions);
      SlotRunsDistinct(slots[n], Architectures(slots[n].layer), repetitions);
      DistinctConcat(front, last);
      ApartExactly(slots[..n], slots[n], repetitions);
      assert DistinctSlots(slots) <==>
        DistinctSlots(slots[..n]) && forall i :: 0 <= i < n ==> !SameSlot(slots[..n][i], slots[n]);
    } else {
      assert AllRuns(slots, repetitions) == [];
    }
  }

  lemma ApartExactly(slots: seq<Slot>, slot: Slot, repetitions: nat)
    ensures KeysOf(AllRuns(slots, repetitions)) !! KeysOf(SlotRuns(slot, Architectures(slot.layer), repetitions)) <==>
      repetitions == 0 || forall i :: 0 <= i < |slots| ==> !SameSlot(slots[i], slot)
  {
    hide KeysOf, AllRuns, SlotRuns;
    var front, last := KeysOf(AllRuns(slots, repetitions)),
        KeysOf(SlotRuns(slot, Architectures(slot.layer), repetitions));
    forall key ensures (key in front && key in last) ==>
      repetitions > 0 && exists i :: 0 <= i < |slots| && SameSlot(slots[i], slot)
    {
      AllRunsKeys(slots, repetitions, key);
      SlotRunsKeys(slot, Architectures(slot.layer), repetitions, key);
    }
    forall i | 0 <= i < |slots| && SameSlot(slots[i], slot) && repetitions > 0 ensures !(front !! last) {
      var key := Key(slot.scenario.id, slot.layer, Architectures(slot.layer)[0], 1);
      AllRunsKeys(slots, repetitions, key);
      SlotRunsKeys(slot, Architectures(slot.layer), repetitions, key);
      assert slots[i] in slots;
      assert key in front && key in last;
    }
  }

  ghost predicate DistinctScenarios(scenarios: seq<Scenario>) {
    forall i, j :: 0 <= i < j < |scenarios| ==> scenarios[i].id != scenarios[j].id
  }

  lemma {:induction false} SlotsDistinct(scenarios: seq<Scenario>, partition: Partition)
    requires DistinctScenarios(scenarios)
    ensures DistinctSlots(Slots(scenarios, partition)) <==>
      forall i :: 0 <= i < |scenarios| && scenarios[i].partition == partition ==> DistinctLayers(scenarios[i].layers)
    decreases |scenarios|
  {
    if scenarios != [] {
      var n := |scenarios| - 1;
      var s := scenarios[n];
      hide DistinctSlots, DistinctLayers, SameSlot, LayerSlots;
      SlotsDistinct(scenarios[..n], partition);
      var front, own := Slots(scenarios[..n], partition), LayerSlots(s, s.layers);
      assert DistinctSlots(own) <==> DistinctLayers(s.layers) by { LayerSlotsDistinct(s, s.layers); }
      forall slot | slot in front ensures slot.scenario.id != s.id {
        SlotsMembers(scenarios[..n], partition, slot);
      }
      assert forall i :: 0 <= i < |scenarios| ==> scenarios[i] == if i < n then scenarios[..n][i] else s;
      if s.partition == partition {
        forall x, y | x in front && y in own ensures !SameSlot(x, y) {
          OtherScenario(s, x, y);
        }
        ApartSlots(front, own);
      } else {
        assert front + [] == front;
      }
    }
  }

  lemma OtherScenario(s: Scenario, x: Slot, y: Slot)
    requires x.scenario.id != s.id && y in LayerSlots(s, s.layers)
    ensures !SameSlot(x, y)
  {
  }

  lemma LayerSlotsDistinct(s: Scenario, layers: seq<Layer>)
    ensures DistinctSlots(LayerSlots(s, layers)) <==> DistinctLayers(layers)
  {
    var slots := LayerSlots(s, layers);
    forall i, j | 0 <= i < j < |layers| ensures layers[i] != layers[j] <==> !SameSlot(slots[i], slots[j]) {
    }
  }

  lemma ApartSlots(a: seq<Slot>, b: seq<Slot>)
    requires forall x, y :: x in a && y in b ==> !SameSlot(x, y)
    ensures DistinctSlots(a + b) <==> DistinctSlots(a) && DistinctSlots(b)
  {
    var ab := a + b;
    if DistinctSlots(ab) {
      forall i, j | 0 <= i < j < |a| ensures !SameSlot(a[i], a[j]) {
        assert ab[i] == a[i] && ab[j] == a[j];
      }
      forall i, j | 0 <= i < j < |b| ensures !SameSlot(b[i], b[j]) {
        assert ab[|a| + i] == b[i] && ab[|a| + j] == b[j];
      }
    }
    if DistinctSlots(a) && DistinctSlots(b) {
      forall i, j | 0 <= i < j < |ab| ensures !SameSlot(ab[i], ab[j]) {
        if i < |a| <= j {
          assert ab[i] in a && ab[j] in b;
        }
      }
    }
  }

  lemma SortKeepsDistinct(scenarios: seq<Scenario>)
    requires DistinctScenarios(scenarios)
    ensures DistinctScenarios(ById(scenarios))
  {
    forall i, j | 0 <= i < j < |ById(scenarios)| ensures ById(scenarios)[i].id != ById(scenarios)[j].id {
      PairPersists(scenarios, ById(scenarios), i, j);
    }
  }

  lemma TwicePresent<T>(s: seq<T>, i: nat, j: nat)
    requires i < j < |s|
    ensures s[i] == s[j] ==> multiset(s)[s[i]] >= 2
  {
    assert s == s[..j] + [s[j]] + s[j + 1..];
    assert s[i] in s[..j];
  }

  lemma OncePresent(s: seq<Scenario>, k: nat)
    requires DistinctScenarios(s) && k < |s|
    ensures multiset(s)[s[k]] == 1
  {
    assert s == s[..k] + [s[k]] + s[k + 1..];
    assert s[k] !in s[..k] && s[k] !in s[k + 1..];
  }

  /** Two positions of one arrangement are two positions of any other. */
  lemma PairPersists(a: seq<Scenario>, b: seq<Scenario>, i: nat, j: nat)
    requires multiset(a) == multiset(b) && i < j < |b| && DistinctScenarios(a)
    ensures b[i].id != b[j].id
  {
    assert b[i] in multiset(a) && b[j] in multiset(a);
    var k :| 0 <= k < |a| && a[k] == b[i];
    var m :| 0 <= m < |a| && a[m] == b[j];
    TwicePresent(b, i, j);
    OncePresent(a, k);
    assert k != m;
  }

  /**
   Exactly when a plan has no duplicate key: with distinct scenario ids, when no selected scenario
   lists a layer twice (or nothing is to be repeated at all).
   */
  lemma PlanIsDuplicateFreeExactly(manifests: seq<Scenario>, partition: Partition, repetitions: nat)
    requires DistinctScenarios(manifests)
    ensures DistinctRuns(PlanOf(manifests, partition, repetitions)) <==>
      repetitions == 0 || forall s :: s in manifests && s.partition == partition ==> DistinctLayers(s.layers)
  {
    hide AllRuns, Slots, DistinctRuns;
    var ordered := ById(manifests);
    SortKeepsDistinct(manifests);
    AllRunsDistinct(Slots(ordered, partition), repetitions);
    SlotsDistinct(ordered, partition);
    forall s ensures s in manifests <==> s in ordered {
      assert s in multiset(manifests) <==> s in multiset(ordered);
    }
  }

  /** A manifest may list a layer twice, and its plan then repeats a key. */
  lemma RepeatedLayerRepeatsAKey(partition: Partition, layer: Layer)
    ensures !DistinctRuns(PlanOf([Scenario("scenario", partition, [layer, layer])], partition, 1))
  {
    hide DistinctRuns, PlanOf;
    var s := Scenario("scenario", partition, [layer, layer]);
    assert s.layers[0] == s.layers[1];
    PlanIsDuplicateFreeExactly([s], partition, 1);
    assert s in [s];
  }
}
