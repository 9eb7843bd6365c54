/** The two iterator adaptors the command handler is built from:
    `iter().find_map(f)` and `iter().map(f).sum()`. */
module Iter {
  import opened Wrappers

  /** The first `Some` that `f` yields, scanning `s` from the front; `None` if `f`
      yields `None` for every element. */
  function FindMap<T, U(==)>(s: seq<T>, f: T -> Option<U>): (r: Option<U>)
    ensures r.None? <==> forall i :: 0 <= i < |s| ==> f(s[i]).None?
    ensures r.Some? ==>
      exists i :: 0 <= i < |s| && f(s[i]) == r && forall j :: 0 <= j < i ==> f(s[j]).None?
  {
    if s == [] then None
    else if f(s[0]).Some? then f(s[0])
    else
      var r := FindMap(s[1..], f);
      assert forall i :: 0 < i < |s| ==> s[i] == s[1..][i - 1];
      r
  }

  /** Searching a concatenation finds the match in the front part if there is one,
      and otherwise searches the back part. */
  lemma {:induction false} FindMapAppend<T, U>(a: seq<T>, b: seq<T>, f: T -> Option<U>)
    ensures FindMap(a + b, f) == if FindMap(a, f).Some? then FindMap(a, f) else FindMap(b, f)
  {
    if a != [] {
      assert (a + b)[1..] == a[1..] + b;
      FindMapAppend(a[1..], b, f);
    } else {
      assert a + b == b;
    }
  }

  /** The sum of `f` over the elements of `s`. */
  function MapSum<T>(s: seq<T>, f: T -> nat): (r: nat)
    ensures s == [] ==> r == 0
  {
    if s == [] then 0 else f(s[0]) + MapSum(s[1..], f)
  }

  /** Summing a concatenation sums its two parts. */
  lemma {:induction false} MapSumAppend<T>(a: seq<T>, b: seq<T>, f: T -> nat)
    ensures MapSum(a + b, f) == MapSum(a, f) + MapSum(b, f)
  {
    if a == [] {
      assert a + b == b;
    } else {
      assert (a + b)[1..] == a[1..] + b;
      MapSumAppend(a[1..], b, f);
    }
  }

  /** Taking one element out of a sequence takes its value out of the sum. */
  lemma {:induction false} MapSumRemove<T>(s: seq<T>, i: nat, f: T -> nat)
    requires i < |s|
    ensures MapSum(s, f) == f(s[i]) + MapSum(s[..i] + s[i + 1..], f)
    ensures multiset(s[..i] + s[i + 1..]) == multiset(s) - multiset{s[i]}
  {
    var front, mid, back := s[..i], [s[i]], s[i + 1..];
    assert s == front + (mid + back);
    MapSumAppend(front, mid + back, f);
    MapSumAppend(mid, back, f);
    MapSumAppend(front, back, f);
    assert multiset(s) == multiset(front) + multiset(mid) + multiset(back);
  }

  /** A position where an element of the multiset of `s` occurs in `s`. */
  lemma IndexOf<T>(s: seq<T>, x: T) returns (i: nat)
    requires x in multiset(s)
    ensures i < |s| && s[i] == x
  {
    i :| i < |s| && s[i] == x;
  }

  /** The sum does not depend on the order of the elements. */
  lemma {:induction false} MapSumPermutation<T>(a: seq<T>, b: seq<T>, f: T -> nat)
    requires multiset(a) == multiset(b)
    ensures MapSum(a, f) == MapSum(b, f)
    decreases |a|
  {
    if a == [] {
      assert |multiset(b)| == 0;
    } else {
      var i := IndexOf(b, a[0]);
      var rest := b[..i] + b[i + 1..];
      MapSumRemove(a, 0, f);
      MapSumRemove(b, i, f);
      assert a[..0] + a[1..] == a[1..];
      assert multiset(a[1..]) == multiset(rest);
      MapSumPermutation(a[1..], rest, f);
    }
  }

  /** The positions of `s` where `f` is 1. */
  ghost function OnesOf<T>(s: seq<T>, f: T -> nat): set<int> {
    set i | 0 <= i < |s| && f(s[i]) == 1
  }

  /** When `f` is 0 or 1 everywhere, the sum counts the elements where it is 1. */
  lemma {:induction false} MapSumCounts<T>(s: seq<T>, f: T -> nat)
    requires forall i :: 0 <= i < |s| ==> f(s[i]) <= 1
    ensures MapSum(s, f) == |OnesOf(s, f)|
    decreases |s|
  {
    if s != [] {
      var p, x := s[..|s| - 1], s[|s| - 1];
      assert s == p + [x];
      assert forall i :: 0 <= i < |p| ==> s[i] == p[i];
      MapSumAppend(p, [x], f);
      assert MapSum([x], f) == f(x);
      MapSumCounts(p, f);
      var before := OnesOf(p, f);
      assert |p| !in before;
      if f(x) == 1 {
        assert OnesOf(s, f) == before + {|p|};
      } else {
        assert OnesOf(s, f) == before;
      }
    }
  }
}
