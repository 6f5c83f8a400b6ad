/**
 * The two JavaScript array methods the selectors use, `filter` and `at`,
 * on immutable sequences, with the facts the selectors rely on.
 */
module JsArray {
  import opened Wrappers

  /** `a` is `b` with some elements dropped, the rest kept in order. */
  predicate IsSubsequence<T(==)>(a: seq<T>, b: seq<T>)
    decreases |b|
  {
    if a == [] then true
    else if b == [] then false
    else (a[0] == b[0] && IsSubsequence(a[1..], b[1..])) || IsSubsequence(a, b[1..])
  }

  /** `Array.prototype.filter`: the elements of `s` that `keep` accepts, in order. */
  function Filter<T(!new)>(s: seq<T>, keep: T -> bool): (r: seq<T>)
    ensures |r| <= |s|
    ensures forall x :: x in r <==> x in s && keep(x)
  {
    if s == [] then []
    else
      assert s == [s[0]] + s[1..];
      (if keep(s[0]) then [s[0]] else []) + Filter(s[1..], keep)
  }

  /**
   * `filter` keeps every occurrence of an accepted value and none of a
   * rejected one.
   */
  lemma {:induction false} FilterCounts<T(!new)>(s: seq<T>, keep: T -> bool)
    ensures forall x :: multiset(Filter(s, keep))[x] == (if keep(x) then multiset(s)[x] else 0)
  {
    if s != [] {
      FilterCounts(s[1..], keep);
      assert s == [s[0]] + s[1..];
    }
  }

  /** `filter` keeps the relative order of what it keeps. */
  lemma {:induction false} FilterIsSubsequence<T(!new)>(s: seq<T>, keep: T -> bool)
    ensures IsSubsequence(Filter(s, keep), s)
  {
    if s != [] {
      FilterIsSubsequence(s[1..], keep);
      var rest := Filter(s[1..], keep);
      if keep(s[0]) {
        assert Filter(s, keep) == [s[0]] + rest;
        assert ([s[0]] + rest)[1..] == rest;
      } else {
        assert Filter(s, keep) == rest;
      }
    }
  }

  /** `filter` returns nothing exactly when no element is kept. */
  lemma {:induction false} FilterEmpty<T(!new)>(s: seq<T>, keep: T -> bool)
    ensures Filter(s, keep) == [] <==> forall j :: 0 <= j < |s| ==> !keep(s[j])
  {
    if s != [] {
      FilterEmpty(s[1..], keep);
      assert forall j :: 1 <= j < |s| ==> s[j] == s[1..][j - 1];
    }
  }

  /** The first element `filter` keeps is the first element of `s` that `keep` accepts. */
  lemma {:induction false} FilterFirst<T(!new)>(s: seq<T>, keep: T -> bool) returns (i: nat)
    requires Filter(s, keep) != []
    ensures i < |s| && keep(s[i]) && Filter(s, keep)[0] == s[i]
    ensures forall j :: 0 <= j < i ==> !keep(s[j])
  {
    if keep(s[0]) {
      i := 0;
    } else {
      var k := FilterFirst(s[1..], keep);
      i := k + 1;
      assert forall j :: 1 <= j < i ==> s[j] == s[1..][j - 1];
    }
  }

  /** The last element `filter` keeps is the last element of `s` that `keep` accepts. */
  lemma {:induction false} FilterLast<T(!new)>(s: seq<T>, keep: T -> bool) returns (i: nat)
    requires Filter(s, keep) != []
    ensures i < |s| && keep(s[i]) && Filter(s, keep)[|Filter(s, keep)| - 1] == s[i]
    ensures forall j :: i < j < |s| ==> !keep(s[j])
  {
    var rest := Filter(s[1..], keep);
    if rest != [] {
      var k := FilterLast(s[1..], keep);
      i := k + 1;
      assert forall j :: i < j < |s| ==> s[j] == s[1..][j - 1];
    } else {
      i := 0;
      FilterEmpty(s[1..], keep);
      assert forall j :: 0 < j < |s| ==> s[j] == s[1..][j - 1];
    }
  }

  /**
   * When every element is accepted by exactly one of `a`, `b`, `c`, the
   * three filters together keep every element once.
   */
  lemma {:induction false} FilterPartition<T(!new)>(s: seq<T>, a: T -> bool, b: T -> bool, c: T -> bool)
    requires forall x :: x in s ==>
      (a(x) && !b(x) && !c(x)) || (!a(x) && b(x) && !c(x)) || (!a(x) && !b(x) && c(x))
    ensures |Filter(s, a)| + |Filter(s, b)| + |Filter(s, c)| == |s|
  {
    if s != [] {
      assert s[0] in s;
      assert forall x :: x in s[1..] ==> x in s;
      FilterPartition(s[1..], a, b, c);
    }
  }

  /**
   * `Array.prototype.at`: a non-negative index counts from the front, a
   * negative one from the back; out of range gives `undefined`.
   */
  function At<T>(s: seq<T>, index: int): (r: Option<T>)
    ensures 0 <= index ==> (r.Some? <==> index < |s|)
    ensures 0 <= index < |s| ==> r == Some(s[index])
    ensures index < 0 ==> (r.Some? <==> |s| + index >= 0)
    ensures index < 0 <= |s| + index ==> r == Some(s[|s| + index])
  {
    var k := if index < 0 then |s| + index else index;
    if 0 <= k < |s| then Some(s[k]) else None
  }
}
