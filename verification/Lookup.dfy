/** Finding the row with a given key. */
module Lookup {
  import opened Options

  function FindBy<T, K(==)>(rows: seq<T>, key: T -> K, k: K): (r: Option<T>)
    ensures r.Some? ==> r.value in rows && key(r.value) == k
    ensures r == None ==> forall x :: x in rows ==> key(x) != k
    decreases |rows|
  {
    if rows == [] then None
    else if key(rows[0]) == k then Some(rows[0])
    else FindBy(rows[1..], key, k)
  }

  /** A row that is found stays the one that is found as rows are appended. */
  lemma {:induction false} FoundInPrefix<T, K>(rows: seq<T>, longer: seq<T>, key: T -> K, k: K)
    requires rows <= longer && FindBy(rows, key, k).Some?
    ensures FindBy(longer, key, k) == FindBy(rows, key, k)
    decreases |longer|
  {
    if key(rows[0]) != k {
      FoundInPrefix(rows[1..], longer[1..], key, k);
    }
  }

  /** A row whose key is new is found once it is appended. */
  lemma {:induction false} NewIsFound<T, K>(rows: seq<T>, x: T, key: T -> K)
    requires FindBy(rows, key, key(x)) == None
    ensures FindBy(rows + [x], key, key(x)) == Some(x)
    decreases |rows|
  {
    if rows == [] {
      assert [] + [x] == [x];
    } else {
      assert rows[0] in rows;
      assert (rows + [x])[1..] == rows[1..] + [x];
      NewIsFound(rows[1..], x, key);
    }
  }
}
