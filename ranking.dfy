/** Ordering candidates by a score, highest first.

    Python's `list.sort(key=..., reverse=True)` and `sorted(..., reverse=True)` are stable: equal
    scores keep their input order. The sort here works on positions: it returns the positions
    0..n-1 of the scored items, best first, ties in increasing position. */
module Ranking {
  import opened Wrappers

  /** Position `a` precedes position `b`: higher score first, and on equal scores the earlier one. */
  predicate Before(keys: seq<real>, a: nat, b: nat)
    requires a < |keys| && b < |keys|
  {
    keys[a] > keys[b] || (keys[a] == keys[b] && a < b)
  }

  predicate InRange(s: seq<nat>, n: nat) {
    forall i :: 0 <= i < |s| ==> s[i] < n
  }

  predicate SortedBy(keys: seq<real>, s: seq<nat>)
    requires InRange(s, |keys|)
  {
    forall i, j :: 0 <= i < j < |s| ==> Before(keys, s[i], s[j])
  }

  function Range(n: nat): (r: seq<nat>)
    ensures |r| == n && forall i :: 0 <= i < n ==> r[i] == i
  {
    seq(n, i requires 0 <= i < n => i)
  }

  function Insert(keys: seq<real>, x: nat, s: seq<nat>): (r: seq<nat>)
    requires x < |keys| && InRange(s, |keys|)
    ensures InRange(r, |keys|) && multiset(r) == multiset(s) + multiset{x}
    decreases |s|
  {
    if s == [] then [x]
    else if Before(keys, x, s[0]) then [x] + s
    else
      assert s == [s[0]] + s[1..];
      [s[0]] + Insert(keys, x, s[1..])
  }

  lemma {:induction false} InsertSorted(keys: seq<real>, x: nat, s: seq<nat>)
    requires x < |keys| && InRange(s, |keys|) && SortedBy(keys, s) && x !in s
    ensures SortedBy(keys, Insert(keys, x, s))
    decreases |s|
  {
    if s != [] && !Before(keys, x, s[0]) {
      assert s == [s[0]] + s[1..];
      InsertSorted(keys, x, s[1..]);
      var rest := Insert(keys, x, s[1..]);
      forall k | 0 <= k < |rest| ensures Before(keys, s[0], rest[k]) {
        assert rest[k] in multiset(rest);
        if rest[k] != x {
          assert rest[k] in multiset(s[1..]);
          var q :| 0 <= q < |s[1..]| && s[1..][q] == rest[k];
          assert s[q + 1] == rest[k];
        }
      }
      assert Insert(keys, x, s) == [s[0]] + rest;
    }
  }

  /** Insertion sort of the positions 0..n-1. */
  function SortPrefix(keys: seq<real>, n: nat): (r: seq<nat>)
    requires n <= |keys|
    ensures InRange(r, |keys|) && SortedBy(keys, r)
    ensures multiset(r) == multiset(Range(n))
  {
    if n == 0 then []
    else
      var s := SortPrefix(keys, n - 1);
      RangeStep(n - 1);
      assert (n - 1) !in s by {
        assert (n - 1) !in multiset(s);
      }
      InsertSorted(keys, n - 1, s);
      Insert(keys, n - 1, s)
  }

  lemma RangeStep(m: nat)
    ensures m !in multiset(Range(m))
    ensures multiset(Range(m + 1)) == multiset(Range(m)) + multiset{m}
  {
    assert Range(m + 1) == Range(m) + [m];
  }

  /** Every position exactly once, in non-increasing score order, equal scores in input order. */
  function SortIndices(keys: seq<real>): (r: seq<nat>)
    ensures |r| == |keys| && InRange(r, |keys|)
    ensures forall j :: 0 <= j < |keys| ==> j in r
    ensures forall i, j :: 0 <= i < j < |r| ==> r[i] != r[j]
    ensures forall i, j :: 0 <= i < j < |r| ==> keys[r[i]] >= keys[r[j]]
    ensures forall i, j :: 0 <= i < j < |r| && keys[r[i]] == keys[r[j]] ==> r[i] < r[j]
  {
    var r := SortPrefix(keys, |keys|);
    assert |r| == |multiset(r)| == |multiset(Range(|keys|))| == |keys|;
    forall j | 0 <= j < |keys| ensures j in r {
      assert Range(|keys|)[j] == j;
      assert j in multiset(Range(|keys|));
    }
    assert forall i, j :: 0 <= i < j < |r| ==> Before(keys, r[i], r[j]);
    r
  }

  /** The elements of `s` at the positions `order`, in that order. */
  function Select<T>(s: seq<T>, order: seq<nat>): (r: seq<T>)
    requires InRange(order, |s|)
    ensures |r| == |order| && forall i :: 0 <= i < |r| ==> r[i] == s[order[i]]
  {
    seq(|order|, i requires 0 <= i < |order| => s[order[i]])
  }

  /** What a descending `argsort` followed by taking the first `t` positions guarantees, with no
      promise about the order of equal scores: `sel` lists `min(t, n)` distinct positions in
      non-increasing score order, and no position left out scores higher than one taken. */
  ghost predicate IsTopSelection(keys: seq<real>, sel: seq<nat>, t: nat) {
    && |sel| == Min(t, |keys|)
    && InRange(sel, |keys|)
    && (forall i, j :: 0 <= i < j < |sel| ==> sel[i] != sel[j])
    && (forall i, j :: 0 <= i < j < |sel| ==> keys[sel[i]] >= keys[sel[j]])
    && (forall p, i :: 0 <= p < |keys| && p !in sel && 0 <= i < |sel| ==> keys[p] <= keys[sel[i]])
  }

  /** The first `t` positions of the stable sort are such a selection. */
  lemma {:induction false} StablePrefixIsTopSelection(keys: seq<real>, t: nat)
    ensures InRange(SortIndices(keys)[..Min(t, |keys|)], |keys|)
    ensures IsTopSelection(keys, SortIndices(keys)[..Min(t, |keys|)], t)
  {
    var r := SortIndices(keys);
    var sel := r[..Min(t, |keys|)];
    forall p, i | 0 <= p < |keys| && p !in sel && 0 <= i < |sel|
      ensures keys[p] <= keys[sel[i]]
    {
      assert p in r;
      var q :| 0 <= q < |r| && r[q] == p;
      assert q >= |sel|;
    }
  }
}
