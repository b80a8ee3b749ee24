/**
 * Grouping by key in first-appearance order, the behaviour of a JavaScript
 * `Map` that is filled by scanning a list: a key is inserted when it is first
 * met, and `Array.from(map.keys())` lists keys in insertion order.
 */
module Grouping {

  /** Grouping keys are strings: an emoji, or the date part of a timestamp. */
  type Key = string

  predicate NoDuplicates(s: seq<Key>)
  {
    forall i, j :: 0 <= i < j < |s| ==> s[i] != s[j]
  }

  /** The position of the first occurrence of x. */
  function FirstIndex(s: seq<Key>, x: Key): (i: nat)
    requires x in s
    ensures i < |s| && s[i] == x && x !in s[..i]
  {
    if s[0] == x then 0
    else
      assert s == [s[0]] + s[1..];
      var j := FirstIndex(s[1..], x);
      assert s[..j + 1] == [s[0]] + s[1..][..j];
      j + 1
  }

  /** Appending an element does not move the first occurrence of a key already present. */
  lemma FirstIndexSnoc(s: seq<Key>, y: Key, x: Key)
    requires x in s
    ensures FirstIndex(s + [y], x) == FirstIndex(s, x)
  {
    var i, j := FirstIndex(s + [y], x), FirstIndex(s, x);
    assert (s + [y])[j] == x;
  }

  /** The distinct keys of s, each listed where it first occurs. */
  function Distinct(s: seq<Key>): (d: seq<Key>)
    ensures forall x :: x in d <==> x in s
    ensures NoDuplicates(d)
    ensures |d| <= |s|
  {
    if s == [] then []
    else
      var p := s[..|s| - 1];
      var x := s[|s| - 1];
      assert s == p + [x];
      var dp := Distinct(p);
      if x in dp then dp else dp + [x]
  }

  lemma DistinctSnoc(s: seq<Key>, x: Key)
    ensures Distinct(s + [x]) == if x in Distinct(s) then Distinct(s) else Distinct(s) + [x]
  {
    assert (s + [x])[..|s|] == s;
  }

  /** The keys of Distinct(s) come in the order of their first occurrence in s. */
  lemma {:induction false} DistinctInFirstSeenOrder(s: seq<Key>)
    ensures forall i, j :: 0 <= i < j < |Distinct(s)| ==>
      FirstIndex(s, Distinct(s)[i]) < FirstIndex(s, Distinct(s)[j])
  {
    if s != [] {
      var p, x := s[..|s| - 1], s[|s| - 1];
      assert s == p + [x];
      DistinctInFirstSeenOrder(p);
      var d, dp := Distinct(s), Distinct(p);
      forall i, j | 0 <= i < j < |d|
        ensures FirstIndex(s, d[i]) < FirstIndex(s, d[j])
      {
        FirstIndexSnoc(p, x, d[i]);
        if j < |dp| {
          FirstIndexSnoc(p, x, d[j]);
        } else {
          assert d[j] == x && x !in p;
          assert FirstIndex(s, x) == |p|;
        }
      }
    }
  }

  /** The sum, over the keys ks, of how often each occurs in m. */
  function CountSum(ks: seq<Key>, m: multiset<Key>): nat
  {
    if ks == [] then 0 else m[ks[0]] + CountSum(ks[1..], m)
  }

  lemma {:induction false} CountSumAdd(ks: seq<Key>, m: multiset<Key>, x: Key)
    requires NoDuplicates(ks)
    ensures CountSum(ks, m + multiset{x}) == CountSum(ks, m) + (if x in ks then 1 else 0)
  {
    if ks != [] {
      assert ks == [ks[0]] + ks[1..];
      CountSumAdd(ks[1..], m, x);
      assert ks[0] == x ==> x !in ks[1..];
    }
  }

  /** Counting every key of s once, over a duplicate-free list of keys, counts all of s. */
  lemma {:induction false} CountSumCovers(ks: seq<Key>, s: seq<Key>)
    requires NoDuplicates(ks)
    requires forall x :: x in s ==> x in ks
    ensures CountSum(ks, multiset(s)) == |s|
  {
    if s == [] {
      CountSumOfEmpty(ks);
    } else {
      var p, x := s[..|s| - 1], s[|s| - 1];
      assert s == p + [x];
      CountSumCovers(ks, p);
      CountSumAdd(ks, multiset(p), x);
    }
  }

  lemma {:induction false} CountSumOfEmpty(ks: seq<Key>)
    ensures CountSum(ks, multiset{}) == 0
  {
    if ks != [] { CountSumOfEmpty(ks[1..]); }
  }
}
