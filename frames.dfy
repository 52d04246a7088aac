/** The two DataFrame operations the fetch functions rely on, on sequences
    of rows: `pd.concat` of the per-window frames and
    `drop_duplicates(key)`, which keeps the first row of each key. */
module Frames {

  /** `pd.concat(dfs)` on non-empty `dfs`: the rows of each frame, frame after
      frame. (On an empty list pandas raises instead; the callers model that.) */
  function Concat<T>(dfs: seq<seq<T>>): seq<T> {
    if dfs == [] then [] else Concat(dfs[..|dfs| - 1]) + dfs[|dfs| - 1]
  }

  /** The key of every row, in row order. */
  function Keys<T, K>(rows: seq<T>, key: T -> K): (ks: seq<K>)
    ensures |ks| == |rows|
    ensures forall i :: 0 <= i < |rows| ==> ks[i] == key(rows[i])
  {
    if rows == [] then [] else Keys(rows[..|rows| - 1], key) + [key(rows[|rows| - 1])]
  }

  /** The set of keys occurring in `rows`. */
  function KeySet<T, K>(rows: seq<T>, key: T -> K): set<K> {
    set i | 0 <= i < |rows| :: key(rows[i])
  }

  /** Row `i` is the first row with its key. */
  predicate FirstOfKey<T, K(==)>(rows: seq<T>, key: T -> K, i: int)
    requires 0 <= i < |rows|
  {
    forall j :: 0 <= j < i ==> key(rows[j]) != key(rows[i])
  }

  /** No two rows share a key. */
  predicate UniqueKeys<T, K(==)>(rows: seq<T>, key: T -> K) {
    forall i, j :: 0 <= i < j < |rows| ==> key(rows[i]) != key(rows[j])
  }

  /** `df.drop_duplicates(key)`: every row whose key already occurred earlier
      is dropped, the others keep their order. */
  function DropDuplicates<T, K(==)>(rows: seq<T>, key: T -> K): seq<T> {
    if rows == [] then []
    else
      var init, last := rows[..|rows| - 1], rows[|rows| - 1];
      if key(last) in Keys(init, key) then DropDuplicates(init, key)
      else DropDuplicates(init, key) + [last]
  }

  /** Independent description of what `drop_duplicates` keeps: the positions
      of the first row of each key, in increasing order. */
  ghost function FirstPositions<T, K>(rows: seq<T>, key: T -> K): (ps: seq<nat>)
    ensures forall j :: 0 <= j < |ps| ==> ps[j] < |rows|
    ensures forall j, k :: 0 <= j < k < |ps| ==> ps[j] < ps[k]
    ensures forall i :: 0 <= i < |rows| ==> (i in ps <==> FirstOfKey(rows, key, i))
  {
    if rows == [] then []
    else
      var init := rows[..|rows| - 1];
      var ps := FirstPositions(init, key);
      assert forall i :: 0 <= i < |init| ==> (FirstOfKey(rows, key, i) <==> FirstOfKey(init, key, i));
      if FirstOfKey(rows, key, |rows| - 1) then ps + [|rows| - 1] else ps
  }

  // ---------------------------------------------------------------------
  // Concatenation

  lemma {:induction false} ConcatAppend<T>(a: seq<seq<T>>, b: seq<seq<T>>)
    ensures Concat(a + b) == Concat(a) + Concat(b)
    decreases |b|
  {
    if b != [] {
      assert (a + b)[..|a + b| - 1] == a + b[..|b| - 1];
      ConcatAppend(a, b[..|b| - 1]);
    } else {
      assert a + b == a;
    }
  }

  /** Every row of the concatenation comes from one of the frames, and every
      row of every frame is in the concatenation. */
  lemma {:induction false} ConcatMembers<T>(dfs: seq<seq<T>>, x: T)
    ensures x in Concat(dfs) <==> exists i :: 0 <= i < |dfs| && x in dfs[i]
  {
    if dfs != [] {
      var init := dfs[..|dfs| - 1];
      ConcatMembers(init, x);
      if x in dfs[|dfs| - 1] {
        assert x in Concat(dfs);
      }
      if x in Concat(init) {
        var i :| 0 <= i < |init| && x in init[i];
        assert x in dfs[i];
      }
    }
  }

  /** The concatenation is empty exactly when every frame is. */
  lemma {:induction false} ConcatEmpty<T>(dfs: seq<seq<T>>)
    ensures Concat(dfs) == [] <==> forall i :: 0 <= i < |dfs| ==> dfs[i] == []
  {
    if dfs != [] {
      var init := dfs[..|dfs| - 1];
      ConcatEmpty(init);
      assert forall i :: 0 <= i < |init| ==> init[i] == dfs[i];
    }
  }

  // ---------------------------------------------------------------------
  // Deduplication

  lemma KeyInPrefix<T, K>(rows: seq<T>, key: T -> K)
    requires rows != []
    ensures var init := rows[..|rows| - 1];
            key(rows[|rows| - 1]) in Keys(init, key) <==> !FirstOfKey(rows, key, |rows| - 1)
  {
    var init := rows[..|rows| - 1];
    var n := |rows| - 1;
    if key(rows[n]) in Keys(init, key) {
      var j :| 0 <= j < |init| && Keys(init, key)[j] == key(rows[n]);
      assert key(rows[j]) == key(rows[n]);
    }
    if !FirstOfKey(rows, key, n) {
      var j :| 0 <= j < n && key(rows[j]) == key(rows[n]);
      assert Keys(init, key)[j] == key(rows[n]);
    }
  }

  /** Whether a row is the first of its key does not depend on later rows. */
  lemma FirstOfKeyInPrefix<T, K>(rows: seq<T>, key: T -> K, i: int)
    requires 0 <= i < |rows| - 1
    ensures FirstOfKey(rows, key, i) <==> FirstOfKey(rows[..|rows| - 1], key, i)
  {
    var init := rows[..|rows| - 1];
    assert forall j :: 0 <= j <= i ==> rows[j] == init[j];
  }

  /** `drop_duplicates` keeps exactly the first row of each key, in the order
      of the input. */
  lemma {:induction false} DropDuplicatesKeepsFirstRows<T, K>(rows: seq<T>, key: T -> K)
    ensures var d, ps := DropDuplicates(rows, key), FirstPositions(rows, key);
            |d| == |ps| && forall j :: 0 <= j < |d| ==> d[j] == rows[ps[j]]
  {
    if rows != [] {
      var init := rows[..|rows| - 1];
      DropDuplicatesKeepsFirstRows(init, key);
      KeyInPrefix(rows, key);
      var d0, ps0 := DropDuplicates(init, key), FirstPositions(init, key);
      forall i | 0 <= i < |init| ensures FirstOfKey(rows, key, i) <==> FirstOfKey(init, key, i) {
        FirstOfKeyInPrefix(rows, key, i);
      }
      if FirstOfKey(rows, key, |rows| - 1) {
        assert DropDuplicates(rows, key) == d0 + [rows[|rows| - 1]];
        assert FirstPositions(rows, key) == ps0 + [|rows| - 1];
      } else {
        assert DropDuplicates(rows, key) == d0;
        assert FirstPositions(rows, key) == ps0;
      }
    }
  }

  /** No two rows of the result share a key. */
  lemma DropDuplicatesUnique<T, K>(rows: seq<T>, key: T -> K)
    ensures UniqueKeys(DropDuplicates(rows, key), key)
  {
    var d, ps := DropDuplicates(rows, key), FirstPositions(rows, key);
    DropDuplicatesKeepsFirstRows(rows, key);
    forall i, j | 0 <= i < j < |d| ensures key(d[i]) != key(d[j]) {
      assert ps[i] < ps[j];
      assert ps[j] in ps;
      assert FirstOfKey(rows, key, ps[j]);
    }
  }

  /** The result has exactly the keys of the input. */
  lemma DropDuplicatesKeys<T, K>(rows: seq<T>, key: T -> K)
    ensures KeySet(DropDuplicates(rows, key), key) == KeySet(rows, key)
  {
    var d, ps := DropDuplicates(rows, key), FirstPositions(rows, key);
    DropDuplicatesKeepsFirstRows(rows, key);
    forall k | k in KeySet(rows, key) ensures k in KeySet(d, key) {
      var i :| 0 <= i < |rows| && key(rows[i]) == k;
      var f := FirstWithKey(rows, key, i);
      assert f in ps;
      var j :| 0 <= j < |ps| && ps[j] == f;
      assert key(d[j]) == k;
    }
    forall k | k in KeySet(d, key) ensures k in KeySet(rows, key) {
      var j :| 0 <= j < |d| && key(d[j]) == k;
      assert key(rows[ps[j]]) == k;
    }
  }

  /** The position of the first row that has the key of row `i`. */
  lemma {:induction false} FirstWithKey<T, K>(rows: seq<T>, key: T -> K, i: int) returns (f: int)
    requires 0 <= i < |rows|
    ensures 0 <= f <= i && key(rows[f]) == key(rows[i]) && FirstOfKey(rows, key, f)
  {
    if FirstOfKey(rows, key, i) {
      f := i;
    } else {
      var j :| 0 <= j < i && key(rows[j]) == key(rows[i]);
      f := FirstWithKey(rows, key, j);
    }
  }

  /** Rows whose keys are already unique come through unchanged. */
  lemma {:induction false} DropDuplicatesOfUnique<T, K>(rows: seq<T>, key: T -> K)
    requires UniqueKeys(rows, key)
    ensures DropDuplicates(rows, key) == rows
  {
    if rows != [] {
      var init := rows[..|rows| - 1];
      assert UniqueKeys(init, key) by {
        forall i, j | 0 <= i < j < |init| ensures key(init[i]) != key(init[j]) {
          assert init[i] == rows[i] && init[j] == rows[j];
        }
      }
      DropDuplicatesOfUnique(init, key);
      KeyInPrefix(rows, key);
    }
  }

  /** Deduplicating twice is deduplicating once. */
  lemma DropDuplicatesIdempotent<T, K>(rows: seq<T>, key: T -> K)
    ensures DropDuplicates(DropDuplicates(rows, key), key) == DropDuplicates(rows, key)
  {
    DropDuplicatesUnique(rows, key);
    DropDuplicatesOfUnique(DropDuplicates(rows, key), key);
  }

  /** When the rows arrive in non-decreasing key order, the result is in
      strictly increasing key order. */
  lemma DropDuplicatesOfSorted<T>(rows: seq<T>, key: T -> int)
    requires forall i, j :: 0 <= i <= j < |rows| ==> key(rows[i]) <= key(rows[j])
    ensures var d := DropDuplicates(rows, key);
            forall i, j :: 0 <= i < j < |d| ==> key(d[i]) < key(d[j])
  {
    var d, ps := DropDuplicates(rows, key), FirstPositions(rows, key);
    DropDuplicatesKeepsFirstRows(rows, key);
    DropDuplicatesUnique(rows, key);
    forall i, j | 0 <= i < j < |d| ensures key(d[i]) < key(d[j]) {
      assert ps[i] < ps[j];
      assert key(d[i]) != key(d[j]);
    }
  }
}
