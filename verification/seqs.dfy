/** Order-preserving filtering and first-match search over sequences: the
    `Array.prototype.filter` and `Array.prototype.find` the repository uses on
    `Array.from(map.values())`. */
module Seqs {
  import opened Options

  /** `a` is an order-preserving subsequence of `b`. */
  predicate IsSubseq<T(==)>(a: seq<T>, b: seq<T>)
    decreases |b|
  {
    if |a| == 0 then true
    else if |b| == 0 then false
    else (a[0] == b[0] && IsSubseq(a[1..], b[1..])) || IsSubseq(a, b[1..])
  }

  /** Every element of a subsequence comes from the original sequence. */
  lemma {:induction false} SubseqMembers<T>(a: seq<T>, b: seq<T>)
    requires IsSubseq(a, b)
    ensures forall x :: x in a ==> x in b
    decreases |b|
  {
    if |a| == 0 {
    } else if a[0] == b[0] && IsSubseq(a[1..], b[1..]) {
      SubseqMembers(a[1..], b[1..]);
      forall x | x in a ensures x in b {
        if x != a[0] {
          assert x in a[1..];
        }
      }
    } else {
      SubseqMembers(a, b[1..]);
    }
  }

  /** The elements of `s` satisfying `p`, in their original order, with
      their original multiplicities. */
  function Filter<T(==,!new)>(s: seq<T>, p: T -> bool): (r: seq<T>)
    ensures forall i :: 0 <= i < |r| ==> p(r[i])
    ensures forall x :: multiset(r)[x] == if p(x) then multiset(s)[x] else 0
    ensures IsSubseq(r, s)
  {
    if |s| == 0 then []
    else
      assert s == [s[0]] + s[1..];
      var rest := Filter(s[1..], p);
      if p(s[0]) then
        assert ([s[0]] + rest)[1..] == rest;
        [s[0]] + rest
      else
        rest
  }

  /** Membership in a filtered sequence, both directions. */
  lemma FilterMembers<T(!new)>(s: seq<T>, p: T -> bool, x: T)
    ensures x in Filter(s, p) <==> x in s && p(x)
  {
    var r := Filter(s, p);
    assert x in r <==> multiset(r)[x] > 0;
    assert x in s <==> multiset(s)[x] > 0;
  }

  /** A filter that keeps everything is the identity. */
  lemma {:induction false} FilterAll<T(!new)>(s: seq<T>, p: T -> bool)
    requires forall i :: 0 <= i < |s| ==> p(s[i])
    ensures Filter(s, p) == s
  {
    if |s| > 0 {
      FilterAll(s[1..], p);
    }
  }

  /** The index of the first element satisfying `p`, if any. */
  function FindIndex<T>(s: seq<T>, p: T -> bool): (r: Option<nat>)
    ensures r.None? <==> forall i :: 0 <= i < |s| ==> !p(s[i])
    ensures r.Some? ==> r.value < |s| && p(s[r.value])
    ensures r.Some? ==> forall i :: 0 <= i < r.value ==> !p(s[i])
  {
    if |s| == 0 then None
    else if p(s[0]) then Some(0)
    else
      match FindIndex(s[1..], p)
      case None => None
      case Some(j) => Some(j + 1)
  }

  /** Appending after a match does not move the first match. */
  lemma {:induction false} FindIndexAppend<T>(s: seq<T>, x: T, p: T -> bool, i: int)
    requires 0 <= i < |s| && p(s[i])
    ensures FindIndex(s + [x], p) == FindIndex(s, p)
    decreases |s|
  {
    if !p(s[0]) {
      assert (s + [x])[1..] == s[1..] + [x];
      FindIndexAppend(s[1..], x, p, i - 1);
    }
  }

  /** `key` strictly increases along `s`. */
  predicate IncreasingBy<T>(s: seq<T>, key: T -> int) {
    forall i, j :: 0 <= i < j < |s| ==> key(s[i]) < key(s[j])
  }

  /** A subsequence of a sequence ordered by `key` is ordered by `key`. */
  lemma {:induction false} SubseqIncreasing<T>(a: seq<T>, b: seq<T>, key: T -> int)
    requires IsSubseq(a, b)
    requires IncreasingBy(b, key)
    ensures IncreasingBy(a, key)
    decreases |b|
  {
    if |a| == 0 {
    } else if a[0] == b[0] && IsSubseq(a[1..], b[1..]) {
      SubseqIncreasing(a[1..], b[1..], key);
      SubseqMembers(a[1..], b[1..]);
      forall i, j | 0 <= i < j < |a| ensures key(a[i]) < key(a[j]) {
        assert a[j] == a[1..][j - 1];
        if i == 0 {
          assert a[j] in b[1..];
        } else {
          assert a[i] == a[1..][i - 1];
        }
      }
    } else {
      SubseqIncreasing(a, b[1..], key);
    }
  }
}
