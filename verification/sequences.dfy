/**
 Small facts about sequences used as ordered column lists and label lists.
 */
module Sequences {

  /** No element occurs twice. */
  predicate Distinct<T(==)>(s: seq<T>) {
    forall i, j :: 0 <= i < j < |s| ==> s[i] != s[j]
  }

  /** Position of the first occurrence of `x` in `s`. */
  function IndexOf<T(==)>(s: seq<T>, x: T): (k: nat)
    requires x in s
    ensures k < |s| && s[k] == x
    ensures forall j :: 0 <= j < k ==> s[j] != x
  {
    if s[0] == x then 0 else 1 + IndexOf(s[1..], x)
  }

  /** In a sequence without repetitions, the element at `i` is found at `i`. */
  lemma IndexOfDistinct<T>(s: seq<T>, i: nat)
    requires Distinct(s) && i < |s|
    ensures IndexOf(s, s[i]) == i
  {
  }

  /** Every element of `w` occurs in `s`, and at strictly increasing positions. */
  ghost predicate InOrderWithin<T>(s: seq<T>, w: seq<T>) {
    && (forall k :: 0 <= k < |w| ==> w[k] in s)
    && (forall i, j :: 0 <= i < j < |w| && w[i] in s && w[j] in s ==>
          IndexOf(s, w[i]) < IndexOf(s, w[j]))
  }

  /** Cutting the slice `s[i..j]` out of a sequence without repetitions leaves
      the remaining elements in their original relative order. */
  lemma CutKeepsOrder<T>(s: seq<T>, i: nat, j: nat)
    requires Distinct(s) && i <= j <= |s|
    ensures InOrderWithin(s, s[..i] + s[j..])
  {
    var w := s[..i] + s[j..];
    // Position in `s` of the element at position `k` of `w`.
    var from := (k: int) => if k < i then k else k + (j - i);
    forall k | 0 <= k < |w| ensures w[k] == s[from(k)] && IndexOf(s, w[k]) == from(k) {
      IndexOfDistinct(s, from(k));
    }
  }

  /** Positions increasing strictly means no element is repeated. */
  lemma InOrderDistinct<T>(s: seq<T>, w: seq<T>)
    requires InOrderWithin(s, w)
    ensures Distinct(w)
  {
    forall i, j | 0 <= i < j < |w| ensures w[i] != w[j] {
      assert IndexOf(s, w[i]) < IndexOf(s, w[j]);
    }
  }
}
