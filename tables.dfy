/**
  The relational store as each service sees one table: a sequence of rows
  in insertion order.  A query filtered on one column and asked for
  .first() is the first row whose key matches; deletion removes that row.
  The key column is given by a function from a row to its key.
 */
module Tables {

  import opened Wrappers

  /** The position of the first row whose key is k, if any. */
  function IndexOfKey<K(==), R>(rows: seq<R>, keyOf: R -> K, k: K): (r: Option<nat>)
    ensures r.Some? ==> r.value < |rows| && keyOf(rows[r.value]) == k
    ensures r.Some? ==> forall j | 0 <= j < r.value :: keyOf(rows[j]) != k
    ensures r.None? ==> forall j | 0 <= j < |rows| :: keyOf(rows[j]) != k
  {
    if rows == [] then None
    else if keyOf(rows[0]) == k then Some(0)
    else match IndexOfKey(rows[1..], keyOf, k)
      case None => None
      case Some(i) => Some(i + 1)
  }

  /** select ... filter(key == k) ... first(). */
  function Lookup<K(==), R>(rows: seq<R>, keyOf: R -> K, k: K): (r: Option<R>)
    ensures r.Some? ==> r.value in rows && keyOf(r.value) == k
    ensures r.None? <==> forall j | 0 <= j < |rows| :: keyOf(rows[j]) != k
  {
    match IndexOfKey(rows, keyOf, k)
    case None => None
    case Some(i) => Some(rows[i])
  }

  /** Deletes the row that Lookup finds; with no such row the table is unchanged. */
  function DeleteFirst<K(==), R>(rows: seq<R>, keyOf: R -> K, k: K): (r: seq<R>)
    ensures IndexOfKey(rows, keyOf, k).None? ==> r == rows
    ensures IndexOfKey(rows, keyOf, k).Some? ==>
      var i := IndexOfKey(rows, keyOf, k).value;
      |r| == |rows| - 1 && r == rows[..i] + rows[i + 1..]
  {
    match IndexOfKey(rows, keyOf, k)
    case None => rows
    case Some(i) => rows[..i] + rows[i + 1..]
  }

  /** The rows whose key is k, in table order: an independent description of what a filtered query sees. */
  function Matching<K(==), R>(rows: seq<R>, keyOf: R -> K, k: K): seq<R> {
    if rows == [] then []
    else if keyOf(rows[0]) == k then [rows[0]] + Matching(rows[1..], keyOf, k)
    else Matching(rows[1..], keyOf, k)
  }

  /** Lookup answers the first of the matching rows, and None when none match. */
  lemma {:induction false} LookupIsFirstMatching<K, R>(rows: seq<R>, keyOf: R -> K, k: K)
    ensures Lookup(rows, keyOf, k) == if Matching(rows, keyOf, k) == [] then None else Some(Matching(rows, keyOf, k)[0])
  {
    if rows != [] && keyOf(rows[0]) != k {
      LookupIsFirstMatching(rows[1..], keyOf, k);
    }
  }

  lemma {:induction false} MatchingAppend<K, R>(a: seq<R>, b: seq<R>, keyOf: R -> K, k: K)
    ensures Matching(a + b, keyOf, k) == Matching(a, keyOf, k) + Matching(b, keyOf, k)
  {
    if a == [] {
      assert a + b == b;
    } else {
      assert (a + b)[1..] == a[1..] + b;
      MatchingAppend(a[1..], b, keyOf, k);
    }
  }

  lemma {:induction false} MatchingNone<K, R>(rows: seq<R>, keyOf: R -> K, k: K)
    requires forall j | 0 <= j < |rows| :: keyOf(rows[j]) != k
    ensures Matching(rows, keyOf, k) == []
  {
    if rows != [] {
      MatchingNone(rows[1..], keyOf, k);
    }
  }

  /**
    Deleting by key k removes the first row with key k and no other: the
    rows with key k lose their head, and for every other key the matching
    rows, in order, are exactly as before.
   */
  lemma {:induction false} DeleteFirstMatching<K, R>(rows: seq<R>, keyOf: R -> K, k: K, k': K)
    ensures Matching(rows, keyOf, k) == [] ==> DeleteFirst(rows, keyOf, k) == rows
    ensures Matching(rows, keyOf, k) != [] && k' == k ==>
      Matching(DeleteFirst(rows, keyOf, k), keyOf, k') == Matching(rows, keyOf, k)[1..]
    ensures k' != k ==> Matching(DeleteFirst(rows, keyOf, k), keyOf, k') == Matching(rows, keyOf, k')
  {
    LookupIsFirstMatching(rows, keyOf, k);
    match IndexOfKey(rows, keyOf, k)
    case None =>
    case Some(i) =>
      MatchingSplit(rows, i, keyOf, k');
      MatchingAppend(rows[..i], rows[i + 1..], keyOf, k');
      MatchingSingle(rows[i], keyOf, k');
      MatchingNone(rows[..i], keyOf, k);
  }

  /** The matching rows of a table, split around position i. */
  lemma {:induction false} MatchingSplit<K, R>(rows: seq<R>, i: nat, keyOf: R -> K, k: K)
    requires i < |rows|
    ensures Matching(rows, keyOf, k)
        == Matching(rows[..i], keyOf, k) + Matching([rows[i]], keyOf, k) + Matching(rows[i + 1..], keyOf, k)
  {
    var front, x, back := rows[..i], [rows[i]], rows[i + 1..];
    calc {
      Matching(rows, keyOf, k);
      { assert rows == (front + x) + back; }
      Matching((front + x) + back, keyOf, k);
      { MatchingAppend(front + x, back, keyOf, k); }
      Matching(front + x, keyOf, k) + Matching(back, keyOf, k);
      { MatchingAppend(front, x, keyOf, k); }
      Matching(front, keyOf, k) + Matching(x, keyOf, k) + Matching(back, keyOf, k);
    }
  }

  lemma MatchingSingle<K, R>(r: R, keyOf: R -> K, k: K)
    ensures Matching([r], keyOf, k) == if keyOf(r) == k then [r] else []
  {
    assert [r][1..] == [];
  }

  /**
    Appending a row never changes an answer the table already gives: the
    new row is found only by a key no earlier row has.
   */
  lemma {:induction false} LookupAfterAppend<K, R>(rows: seq<R>, keyOf: R -> K, r: R, k: K)
    ensures Lookup(rows + [r], keyOf, k)
        == if Lookup(rows, keyOf, k).Some? then Lookup(rows, keyOf, k)
           else if keyOf(r) == k then Some(r) else None
  {
    LookupIsFirstMatching(rows, keyOf, k);
    LookupIsFirstMatching(rows + [r], keyOf, k);
    MatchingAppend(rows, [r], keyOf, k);
    assert Matching([r], keyOf, k) == if keyOf(r) == k then [r] else [];
  }

  /** What a test does: create under a key nobody has, then look it up. */
  lemma {:induction false} CreateThenLookup<K, R>(rows: seq<R>, keyOf: R -> K, r: R)
    requires Lookup(rows, keyOf, keyOf(r)).None?
    ensures Lookup(rows + [r], keyOf, keyOf(r)) == Some(r)
  {
    LookupAfterAppend(rows, keyOf, r, keyOf(r));
  }

  /**
    After a delete by k, a lookup of k finds the next row with that key;
    so with a single such row it finds none.
   */
  lemma {:induction false} LookupAfterDelete<K, R>(rows: seq<R>, keyOf: R -> K, k: K)
    ensures |Matching(rows, keyOf, k)| <= 1 ==> Lookup(DeleteFirst(rows, keyOf, k), keyOf, k).None?
    ensures |Matching(rows, keyOf, k)| >= 2 ==> Lookup(DeleteFirst(rows, keyOf, k), keyOf, k) == Some(Matching(rows, keyOf, k)[1])
  {
    DeleteFirstMatching(rows, keyOf, k, k);
    LookupIsFirstMatching(rows, keyOf, k);
    LookupIsFirstMatching(DeleteFirst(rows, keyOf, k), keyOf, k);
  }

  /** A delete by one key leaves the answer for every other key as it was. */
  lemma {:induction false} LookupOtherKeyAfterDelete<K, R>(rows: seq<R>, keyOf: R -> K, k: K, k': K)
    requires k' != k
    ensures Lookup(DeleteFirst(rows, keyOf, k), keyOf, k') == Lookup(rows, keyOf, k')
  {
    DeleteFirstMatching(rows, keyOf, k, k');
    LookupIsFirstMatching(rows, keyOf, k');
    LookupIsFirstMatching(DeleteFirst(rows, keyOf, k), keyOf, k');
  }

  /** Deleting an absent key changes nothing, so a second delete of a key that had one row is harmless. */
  lemma {:induction false} DeleteTwice<K, R>(rows: seq<R>, keyOf: R -> K, k: K)
    requires |Matching(rows, keyOf, k)| <= 1
    ensures DeleteFirst(DeleteFirst(rows, keyOf, k), keyOf, k) == DeleteFirst(rows, keyOf, k)
  {
    LookupAfterDelete(rows, keyOf, k);
  }

  /** No two rows share a key: what a primary-key column guarantees. */
  predicate KeysUnique<K(==), R>(rows: seq<R>, keyOf: R -> K) {
    forall i, j | 0 <= i < j < |rows| :: keyOf(rows[i]) != keyOf(rows[j])
  }

  /** Under a unique key at most one row matches. */
  lemma {:induction false} UniqueKeyMatchesAtMostOne<K, R>(rows: seq<R>, keyOf: R -> K, k: K)
    requires KeysUnique(rows, keyOf)
    ensures |Matching(rows, keyOf, k)| <= 1
  {
    if rows != [] {
      assert KeysUnique(rows[1..], keyOf) by {
        forall i, j | 0 <= i < j < |rows[1..]| ensures keyOf(rows[1..][i]) != keyOf(rows[1..][j]) {
          assert rows[1..][i] == rows[i + 1] && rows[1..][j] == rows[j + 1];
        }
      }
      if keyOf(rows[0]) == k {
        forall j | 0 <= j < |rows[1..]| ensures keyOf(rows[1..][j]) != k {
          assert rows[1..][j] == rows[j + 1];
        }
        MatchingNone(rows[1..], keyOf, k);
      } else {
        UniqueKeyMatchesAtMostOne(rows[1..], keyOf, k);
      }
    }
  }

  /**
    A delete keeps only rows that were there, and keeps any column unique
    that was unique before (the key it deletes by may be another column).
   */
  lemma {:induction false} DeleteFirstKeepsUnique<K, J, R>(rows: seq<R>, keyOf: R -> K, k: K, idOf: R -> J)
    requires KeysUnique(rows, idOf)
    ensures KeysUnique(DeleteFirst(rows, keyOf, k), idOf)
    ensures forall r | r in DeleteFirst(rows, keyOf, k) :: r in rows
  {
    match IndexOfKey(rows, keyOf, k)
    case None =>
    case Some(i) =>
      var d := DeleteFirst(rows, keyOf, k);
      forall a, b | 0 <= a < b < |d| ensures idOf(d[a]) != idOf(d[b]) {
        var a' := if a < i then a else a + 1;
        var b' := if b < i then b else b + 1;
        assert d[a] == rows[a'] && d[b] == rows[b'];
      }
      forall r | r in d ensures r in rows {
        var t :| 0 <= t < |d| && d[t] == r;
        assert d[t] == rows[if t < i then t else t + 1];
      }
  }

  /** One table of the store, shared by every request, with commit taken as immediate. */
  class Table<R> {
    var rows: seq<R>

    constructor ()
      ensures rows == []
    {
      rows := [];
    }

    /** db.add(row) followed by commit. */
    method Add(row: R)
      modifies this
      ensures rows == old(rows) + [row]
    {
      rows := rows + [row];
    }

    method First<K(==)>(keyOf: R -> K, k: K) returns (r: Option<R>)
      ensures r == Lookup(rows, keyOf, k)
    {
      r := Lookup(rows, keyOf, k);
    }

    /** The first matching row, then db.delete of it and commit, only if found. */
    method DeleteFirstMatch<K(==)>(keyOf: R -> K, k: K)
      modifies this
      ensures rows == DeleteFirst(old(rows), keyOf, k)
    {
      var found := Lookup(rows, keyOf, k);
      if found.Some? {
        rows := DeleteFirst(rows, keyOf, k);
      }
    }

    method All() returns (rs: seq<R>)
      ensures rs == rows
    {
      rs := rows;
    }
  }
}
