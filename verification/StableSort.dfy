/** Stable insertion sort by a preorder, as the service's sorts behave, and the order it yields. */
module StableSort {
  /** Insert after every entry that is not larger. */
  function Insert<T>(sorted: seq<T>, x: T, leq: (T, T) -> bool): (r: seq<T>)
    ensures multiset(r) == multiset(sorted) + multiset{x}
    decreases |sorted|
  {
    if sorted == [] then [x]
    else
      var n := |sorted| - 1;
      assert sorted == sorted[..n] + [sorted[n]];
      if leq(sorted[n], x) then sorted + [x] else Insert(sorted[..n], x, leq) + [sorted[n]]
  }

  function Sort<T>(s: seq<T>, leq: (T, T) -> bool): (r: seq<T>)
    ensures multiset(r) == multiset(s)
    decreases |s|
  {
    if s == [] then []
    else
      var n := |s| - 1;
      assert s == s[..n] + [s[n]];
      Insert(Sort(s[..n], leq), s[n], leq)
  }

  ghost predicate Preorder<T(!new)>(leq: (T, T) -> bool) {
    && (forall a, b :: leq(a, b) || leq(b, a))
    && (forall a, b, c :: leq(a, b) && leq(b, c) ==> leq(a, c))
  }

  ghost predicate Ascending<T(!new)>(s: seq<T>, leq: (T, T) -> bool) {
    forall i, j :: 0 <= i < j < |s| ==> leq(s[i], s[j])
  }

  lemma {:induction false} InsertAscending<T(!new)>(sorted: seq<T>, x: T, leq: (T, T) -> bool)
    requires Preorder(leq) && Ascending(sorted, leq)
    ensures Ascending(Insert(sorted, x, leq), leq)
    decreases |sorted|
  {
    if sorted != [] {
      var n := |sorted| - 1;
      var last := sorted[n];
      if !leq(last, x) {
        InsertAscending(sorted[..n], x, leq);
        var front := Insert(sorted[..n], x, leq);
        forall i | 0 <= i < |front| ensures leq(front[i], last) {
          assert front[i] in multiset(front);
          assert front[i] in sorted[..n] || front[i] == x;
        }
      }
    }
  }

  lemma {:induction false} SortAscending<T(!new)>(s: seq<T>, leq: (T, T) -> bool)
    requires Preorder(leq)
    ensures Ascending(Sort(s, leq), leq)
    decreases |s|
  {
    if s != [] {
      var n := |s| - 1;
      SortAscending(s[..n], leq);
      InsertAscending(Sort(s[..n], leq), s[n], leq);
    }
  }

  lemma SameLength<T>(a: seq<T>, b: seq<T>)
    requires multiset(a) == multiset(b)
    ensures |a| == |b|
  {
    assert |multiset(a)| == |a| && |multiset(b)| == |b|;
  }

  lemma WithoutLast<T>(s: seq<T>)
    requires s != []
    ensures multiset(s[..|s| - 1]) == multiset(s) - multiset{s[|s| - 1]}
    ensures s == s[..|s| - 1] + [s[|s| - 1]]
  {
    assert s == s[..|s| - 1] + [s[|s| - 1]];
  }

  /** Two entries that neither precede each other strictly are the same entry. */
  ghost predicate KeyIdentifies<T(!new)>(s: seq<T>, leq: (T, T) -> bool) {
    forall a, b :: a in s && b in s && leq(a, b) && leq(b, a) ==> a == b
  }

  lemma SameLast<T(!new)>(a: seq<T>, b: seq<T>, leq: (T, T) -> bool)
    requires Preorder(leq) && Ascending(a, leq) && Ascending(b, leq) && multiset(a) == multiset(b)
        && KeyIdentifies(a, leq) && a != []
    ensures b != [] && a[|a| - 1] == b[|b| - 1]
  {
    SameLength(a, b);
    var x, y := a[|a| - 1], b[|b| - 1];
    assert x in multiset(b) && y in multiset(a);
    var i :| 0 <= i < |a| && a[i] == y;
    var j :| 0 <= j < |b| && b[j] == x;
    assert leq(y, x) && leq(x, y);
  }

  /** When the key tells entries apart, only one arrangement of them is ascending. */
  lemma {:induction false} AscendingIsUnique<T(!new)>(a: seq<T>, b: seq<T>, leq: (T, T) -> bool)
    requires Preorder(leq) && Ascending(a, leq) && Ascending(b, leq) && multiset(a) == multiset(b)
        && KeyIdentifies(a, leq)
    ensures a == b
    decreases |a|
  {
    SameLength(a, b);
    if a != [] {
      SameLast(a, b, leq);
      WithoutLast(a);
      WithoutLast(b);
      AscendingIsUnique(a[..|a| - 1], b[..|b| - 1], leq);
    }
  }

  /** Sorting forgets the original order, when the key tells entries apart. */
  lemma SortIgnoresOrder<T(!new)>(a: seq<T>, b: seq<T>, leq: (T, T) -> bool)
    requires Preorder(leq) && multiset(a) == multiset(b) && KeyIdentifies(a, leq)
    ensures Sort(a, leq) == Sort(b, leq)
  {
    SortAscending(a, leq);
    SortAscending(b, leq);
    forall x, y | x in Sort(a, leq) && y in Sort(a, leq) && leq(x, y) && leq(y, x) ensures x == y {
      assert x in multiset(a) && y in multiset(a);
    }
    AscendingIsUnique(Sort(a, leq), Sort(b, leq), leq);
  }

  /** A later entry goes last. */
  lemma SortSnoc<T(!new)>(s: seq<T>, x: T, leq: (T, T) -> bool)
    requires forall y :: y in s ==> leq(y, x)
    ensures Sort(s + [x], leq) == Sort(s, leq) + [x]
  {
    assert (s + [x])[..|s|] == s;
    var sorted := Sort(s, leq);
    if sorted != [] {
      assert sorted[|sorted| - 1] in multiset(s);
    }
  }
}
