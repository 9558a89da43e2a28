/** A JavaScript `Map<number, T>` as the sequence of its entries in
    insertion order. `Map.set` on a present key overwrites that entry in
    place, on an absent key appends; `Map.delete` removes the entry;
    `Array.from(map.values())` lists values in entry order. */
module Tables {
  import opened Options
  import Seqs

  datatype Row<T> = Row(key: int, val: T)

  type Table<T> = seq<Row<T>>

  /** The keys that have an entry. */
  function Keys<T>(t: Table<T>): (ks: set<int>)
    ensures forall i :: 0 <= i < |t| ==> t[i].key in ks
    ensures forall k :: k in ks ==> exists i :: 0 <= i < |t| && t[i].key == k
  {
    set i | 0 <= i < |t| :: t[i].key
  }

  /** The position of the first entry for `k`, if any. */
  function Index<T>(t: Table<T>, k: int): (r: Option<nat>)
    ensures r.None? <==> k !in Keys(t)
    ensures r.Some? ==> r.value < |t| && t[r.value].key == k
    ensures r.Some? ==> forall i :: 0 <= i < r.value ==> t[i].key != k
  {
    if |t| == 0 then None
    else if t[0].key == k then Some(0)
    else
      match Index(t[1..], k)
      case None => None
      case Some(j) => Some(j + 1)
  }

  /** Entry order is strictly increasing key order. */
  predicate Ascending<T>(t: Table<T>) {
    forall i, j :: 0 <= i < j < |t| ==> t[i].key < t[j].key
  }

  /** Every key is smaller than `bound`. */
  predicate KeysBelow<T>(t: Table<T>, bound: int) {
    forall i :: 0 <= i < |t| ==> t[i].key < bound
  }

  /** A bound above every key is not itself a key. */
  lemma BoundNotKey<T>(t: Table<T>, bound: int)
    requires KeysBelow(t, bound)
    ensures bound !in Keys(t)
  {
  }

  /** The values in entry order (`Array.from(map.values())`). */
  function Values<T>(t: Table<T>): (vs: seq<T>)
    ensures |vs| == |t|
    ensures forall i :: 0 <= i < |t| ==> vs[i] == t[i].val
  {
    seq(|t|, i requires 0 <= i < |t| => t[i].val)
  }

  /** Appending an entry appends its value. */
  lemma ValuesAppend<T>(t: Table<T>, row: Row<T>)
    ensures Values(t + [row]) == Values(t) + [row.val]
  {
  }

  /** `map.get(k)`: the value of the first entry for `k`. */
  function Get<T>(t: Table<T>, k: int): (r: Option<T>)
    ensures r.Some? <==> k in Keys(t)
    ensures r.Some? ==> Row(k, r.value) in t
  {
    match Index(t, k)
    case None => None
    case Some(i) => Some(t[i].val)
  }

  /** What `Get` finds is the value of the first entry for `k`. */
  lemma GetFirstEntry<T>(t: Table<T>, k: int)
    requires k in Keys(t)
    ensures exists i :: 0 <= i < |t| && t[i] == Row(k, Get(t, k).value) && forall j :: 0 <= j < i ==> t[j].key != k
  {
    var i := Index(t, k).value;
    assert t[i] == Row(k, Get(t, k).value);
  }

  /** In an ascending table every key has one entry, and `Get` finds it. */
  lemma GetAscending<T>(t: Table<T>, i: int)
    requires Ascending(t)
    requires 0 <= i < |t|
    ensures Get(t, t[i].key) == Some(t[i].val)
  {
    var j := Index(t, t[i].key).value;
  }

  /** Two tables with the same key at every position find every key at
      the same position. */
  lemma {:induction false} IndexSameKeys<T>(t: Table<T>, u: Table<T>, k: int)
    requires |t| == |u|
    requires forall i :: 0 <= i < |t| ==> t[i].key == u[i].key
    ensures Index(t, k) == Index(u, k)
    decreases |t|
  {
    if |t| > 0 && t[0].key != k {
      IndexSameKeys(t[1..], u[1..], k);
    }
  }

  /** `map.set(k, v)`: overwrite in place, or append a new entry. */
  function Set<T>(t: Table<T>, k: int, v: T): (r: Table<T>)
    ensures Keys(r) == Keys(t) + {k}
    ensures Get(r, k) == Some(v)
    ensures forall k' :: k' != k ==> Get(r, k') == Get(t, k')
    ensures k !in Keys(t) ==> r == t + [Row(k, v)]
    ensures k in Keys(t) ==> |r| == |t| && forall i :: 0 <= i < |t| ==> r[i].key == t[i].key
  {
    match Index(t, k)
    case None =>
      var r := t + [Row(k, v)];
      assert forall i :: 0 <= i < |t| ==> r[i] == t[i];
      assert forall k' :: k' != k ==> Index(r, k') == Index(t, k') by {
        forall k' | k' != k ensures Index(r, k') == Index(t, k') {
          AppendIndex(t, Row(k, v), k');
        }
      }
      KeysAppend(t, Row(k, v));
      r
    case Some(i) =>
      var r := t[i := Row(k, v)];
      assert forall k' :: Index(r, k') == Index(t, k') by {
        forall k' ensures Index(r, k') == Index(t, k') {
          IndexSameKeys(r, t, k');
        }
      }
      KeysSameKeys(r, t);
      r
  }

  /** Appending an entry for another key does not move the first entry
      for `k`. */
  lemma AppendIndex<T>(t: Table<T>, row: Row<T>, k: int)
    requires row.key != k
    ensures Index(t + [row], k) == Index(t, k)
  {
    var u := t + [row];
    assert forall i :: 0 <= i < |t| ==> u[i] == t[i];
    assert u[|t|] == row;
  }

  /** Appending an entry adds its key. */
  lemma KeysAppend<T>(t: Table<T>, row: Row<T>)
    ensures Keys(t + [row]) == Keys(t) + {row.key}
  {
    var u := t + [row];
    assert forall i :: 0 <= i < |t| ==> u[i] == t[i];
    assert u[|t|] == row;
  }

  /** Tables with the same key at every position have the same keys. */
  lemma KeysSameKeys<T>(t: Table<T>, u: Table<T>)
    requires |t| == |u|
    requires forall i :: 0 <= i < |t| ==> t[i].key == u[i].key
    ensures Keys(t) == Keys(u)
  {
  }

  /** In an ascending table, setting a present key replaces its entry in
      place. */
  lemma SetAt<T>(t: Table<T>, i: int, v: T)
    requires Ascending(t) && 0 <= i < |t|
    ensures Set(t, t[i].key, v) == t[i := Row(t[i].key, v)]
  {
    GetAscending(t, i);
  }

  /** `map.delete(k)` on the table: every entry for `k` goes, nothing else
      moves. */
  function Delete<T>(t: Table<T>, k: int): (r: Table<T>)
    ensures Keys(r) == Keys(t) - {k}
    ensures forall k' :: k' != k ==> Get(r, k') == Get(t, k')
    ensures Seqs.IsSubseq(r, t)
  {
    if |t| == 0 then []
    else if t[0].key == k then
      var r := Delete(t[1..], k);
      DropFirst(r, t);
      TailFacts(t);
      r
    else
      var rest := Delete(t[1..], k);
      var r := [t[0]] + rest;
      assert r[1..] == rest;
      DropFirst(rest, t);
      TailFacts(t);
      TailFacts(r);
      r
  }

  /** The keys and lookups of a non-empty table, in terms of its head and
      its tail. */
  lemma TailFacts<T>(t: Table<T>)
    requires |t| > 0
    ensures Keys(t) == {t[0].key} + Keys(t[1..])
    ensures forall k :: Get(t, k) == if t[0].key == k then Some(t[0].val) else Get(t[1..], k)
  {
    forall k ensures Index(t, k) == if t[0].key == k then Some(0) else
        match Index(t[1..], k) case None => None case Some(j) => Some(j + 1)
    {
    }
  }

  /** Skipping the head of `b` keeps a subsequence a subsequence. */
  lemma DropFirst<T>(a: Table<T>, b: Table<T>)
    requires |b| > 0
    requires Seqs.IsSubseq(a, b[1..])
    ensures Seqs.IsSubseq(a, b)
  {
  }

  /** Deleting keeps the entries in ascending key order. */
  lemma DeleteAscending<T>(t: Table<T>, k: int)
    requires Ascending(t)
    ensures Ascending(Delete(t, k))
  {
    SubseqAscending(Delete(t, k), t);
  }

  function KeyOf<T>(row: Row<T>): int {
    row.key
  }

  /** A subsequence of an ascending table is ascending. */
  lemma SubseqAscending<T>(a: Table<T>, b: Table<T>)
    requires Seqs.IsSubseq(a, b)
    requires Ascending(b)
    ensures Ascending(a)
  {
    assert Seqs.IncreasingBy(b, KeyOf);
    Seqs.SubseqIncreasing(a, b, KeyOf);
    assert forall i :: 0 <= i < |a| ==> KeyOf(a[i]) == a[i].key;
  }

  // ---------------------------------------------------------------------
  // Tables keyed by a counter

  /** Entries in ascending key order, every key below the next id to hand
      out. */
  predicate WellKeyed<T>(t: Table<T>, counter: int) {
    Ascending(t) && KeysBelow(t, counter)
  }

  /** Every value carries the key it is stored under as its id. */
  predicate KeysAre<T>(t: Table<T>, idOf: T -> int) {
    forall i :: 0 <= i < |t| ==> idOf(t[i].val) == t[i].key
  }

  /** Storing under a fresh counter value appends, keeps the table well
      keyed for the incremented counter, and keeps ids equal to keys when
      the new value carries the counter as its id. */
  lemma AppendFresh<T>(t: Table<T>, counter: int, v: T, idOf: T -> int)
    ensures WellKeyed(t, counter) ==>
      && Set(t, counter, v) == t + [Row(counter, v)]
      && WellKeyed(Set(t, counter, v), counter + 1)
    ensures WellKeyed(t, counter) && KeysAre(t, idOf) && idOf(v) == counter ==>
      KeysAre(Set(t, counter, v), idOf)
  {
    if WellKeyed(t, counter) {
      BoundNotKey(t, counter);
      AppendWellKeyed(t, counter, v);
      if KeysAre(t, idOf) && idOf(v) == counter {
        AppendKeys(t, Row(counter, v), idOf);
      }
    }
  }

  /** Appending under the counter keeps a table well keyed for the next
      counter. */
  lemma AppendWellKeyed<T>(t: Table<T>, counter: int, v: T)
    requires WellKeyed(t, counter)
    ensures WellKeyed(t + [Row(counter, v)], counter + 1)
  {
    var r := t + [Row(counter, v)];
    assert forall i :: 0 <= i < |t| ==> r[i] == t[i];
  }

  /** Appending a row whose value carries its key keeps ids equal to keys. */
  lemma AppendKeys<T>(t: Table<T>, row: Row<T>, idOf: T -> int)
    requires KeysAre(t, idOf) && idOf(row.val) == row.key
    ensures KeysAre(t + [row], idOf)
  {
  }

  /** Replacing the value under a present key keeps every key in place,
      and keeps ids equal to keys when the new value carries the key. */
  lemma OverwriteEntry<T>(t: Table<T>, counter: int, k: int, v: T, idOf: T -> int)
    requires WellKeyed(t, counter)
    requires k in Keys(t)
    ensures WellKeyed(Set(t, k, v), counter)
    ensures KeysAre(t, idOf) ==> idOf(Get(t, k).value) == k
    ensures KeysAre(t, idOf) && idOf(v) == k ==> KeysAre(Set(t, k, v), idOf)
  {
    var i :| 0 <= i < |t| && t[i].key == k;
    GetAscending(t, i);
    SetAt(t, i, v);
    ReplaceEntry(t, counter, i, v, idOf);
  }

  lemma ReplaceEntry<T>(t: Table<T>, counter: int, i: int, v: T, idOf: T -> int)
    requires WellKeyed(t, counter)
    requires 0 <= i < |t|
    ensures WellKeyed(t[i := Row(t[i].key, v)], counter)
    ensures KeysAre(t, idOf) && idOf(v) == t[i].key ==> KeysAre(t[i := Row(t[i].key, v)], idOf)
  {
  }

  /** Removing an entry keeps the table well keyed and keeps every
      surviving row as it was: the rows left are exactly the rows of other
      keys. */
  lemma DeleteKeeps<T>(t: Table<T>, k: int, counter: int, idOf: T -> int)
    ensures forall row :: row in Delete(t, k) <==> row in t && row.key != k
    ensures WellKeyed(t, counter) ==> WellKeyed(Delete(t, k), counter)
    ensures KeysAre(t, idOf) ==> KeysAre(Delete(t, k), idOf)
  {
    var r := Delete(t, k);
    DeleteRows(t, k);
    if Ascending(t) {
      DeleteAscending(t, k);
    }
    Seqs.SubseqMembers(r, t);
    forall i | 0 <= i < |r| ensures r[i] in t {
    }
  }

  /** The rows `Delete` leaves are the rows of every other key. */
  lemma {:induction false} DeleteRows<T>(t: Table<T>, k: int)
    ensures forall row :: row in Delete(t, k) <==> row in t && row.key != k
    decreases |t|
  {
    var r := Delete(t, k);
    Seqs.SubseqMembers(r, t);
    forall row | row in r ensures row.key != k {
      var i :| 0 <= i < |r| && r[i] == row;
      assert row.key in Keys(r);
    }
    if |t| > 0 {
      DeleteRows(t[1..], k);
      forall row | row in t && row.key != k ensures row in r {
        if row != t[0] {
          assert row in t[1..];
        } else {
          assert r[0] == t[0];
        }
      }
    }
  }
}
