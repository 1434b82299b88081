/** The Kotlin collection operations the state holders use on lists:
    `filter`/`removeAll`, `indexOfFirst`, `find`, `firstOrNull` and `sumOf`. */
module Collections {
  import opened Common

  /** `a` occurs in `b` with its order kept (possibly with gaps). */
  predicate IsSubsequence<T(==)>(a: seq<T>, b: seq<T>)
    decreases |b|
  {
    a == [] || (b != [] && ((a[0] == b[0] && IsSubsequence(a[1..], b[1..])) || IsSubsequence(a, b[1..])))
  }

  /** `s.filter(p)`, and `removeAll { !p(it) }` on a mutable copy of `s`. */
  function Filter<T(==)>(s: seq<T>, p: T -> bool): (r: seq<T>)
    ensures |r| <= |s|
    ensures forall x :: x in r ==> x in s && p(x)
  {
    if s == [] then [] else (if p(s[0]) then [s[0]] else []) + Filter(s[1..], p)
  }

  /** Nothing that satisfies `p` is dropped. */
  lemma {:induction false} FilterComplete<T>(s: seq<T>, p: T -> bool, x: T)
    requires x in s && p(x)
    ensures x in Filter(s, p)
  {
    if s[0] != x {
      FilterComplete(s[1..], p, x);
    }
  }

  /** `Filter` keeps every occurrence of a satisfying element and no
      occurrence of any other. */
  lemma {:induction false} FilterCounts<T>(s: seq<T>, p: T -> bool, x: T)
    ensures multiset(Filter(s, p))[x] == if p(x) then multiset(s)[x] else 0
  {
    if s != [] {
      FilterCounts(s[1..], p, x);
      assert s == [s[0]] + s[1..];
    }
  }

  /** `Filter` keeps the order of what it keeps. */
  lemma {:induction false} FilterIsSubsequence<T>(s: seq<T>, p: T -> bool)
    ensures IsSubsequence(Filter(s, p), s)
  {
    if s != [] {
      FilterIsSubsequence(s[1..], p);
      var rest := Filter(s[1..], p);
      if p(s[0]) {
        assert Filter(s, p) == [s[0]] + rest;
        assert ([s[0]] + rest)[1..] == rest;
      } else {
        assert Filter(s, p) == rest;
      }
    }
  }

  /** When every element satisfies `p`, `Filter` returns its input. */
  lemma {:induction false} FilterKeepsAll<T>(s: seq<T>, p: T -> bool)
    requires forall i :: 0 <= i < |s| ==> p(s[i])
    ensures Filter(s, p) == s
  {
    if s != [] {
      FilterKeepsAll(s[1..], p);
    }
  }

  /** `s.indexOfFirst(p)`: the first index whose element satisfies `p`, or -1. */
  function IndexOfFirst<T>(s: seq<T>, p: T -> bool): (r: int)
    ensures -1 <= r < |s|
    ensures 0 <= r ==> p(s[r]) && forall j :: 0 <= j < r ==> !p(s[j])
    ensures r == -1 ==> forall j :: 0 <= j < |s| ==> !p(s[j])
  {
    if s == [] then -1
    else if p(s[0]) then 0
    else
      var k := IndexOfFirst(s[1..], p);
      if k == -1 then -1 else k + 1
  }

  /** `s.find(p)`: the first element that satisfies `p`, or null. */
  function Find<T>(s: seq<T>, p: T -> bool): (r: Option<T>)
    ensures r.None? <==> forall j :: 0 <= j < |s| ==> !p(s[j])
    ensures r.Some? ==> p(r.value) && exists i :: 0 <= i < |s| && s[i] == r.value && forall j :: 0 <= j < i ==> !p(s[j])
  {
    var k := IndexOfFirst(s, p);
    if k == -1 then None else Some(s[k])
  }

  /** `s.firstOrNull()`. */
  function FirstOrNull<T>(s: seq<T>): (r: Option<T>)
    ensures r.None? <==> s == []
    ensures r.Some? ==> r.value == s[0]
  {
    if s == [] then None else Some(s[0])
  }

  /** `s.sumOf(f)` for a `Double`-valued selector, summed from the front. */
  function SumOfReal<T>(s: seq<T>, f: T -> real): real {
    if s == [] then 0.0 else f(s[0]) + SumOfReal(s[1..], f)
  }

  /** `s.sumOf(f)` for an `Int`-valued selector. */
  function SumOfInt<T>(s: seq<T>, f: T -> int): int {
    if s == [] then 0 else f(s[0]) + SumOfInt(s[1..], f)
  }

  lemma {:induction false} SumOfRealAppend<T>(a: seq<T>, b: seq<T>, f: T -> real)
    ensures SumOfReal(a + b, f) == SumOfReal(a, f) + SumOfReal(b, f)
  {
    if a != [] {
      SumOfRealAppend(a[1..], b, f);
      assert (a + b)[1..] == a[1..] + b;
    } else {
      assert a + b == b;
    }
  }

  lemma {:induction false} SumOfIntAppend<T>(a: seq<T>, b: seq<T>, f: T -> int)
    ensures SumOfInt(a + b, f) == SumOfInt(a, f) + SumOfInt(b, f)
  {
    if a != [] {
      SumOfIntAppend(a[1..], b, f);
      assert (a + b)[1..] == a[1..] + b;
    } else {
      assert a + b == b;
    }
  }

  /** A sum of terms each bounded by another sum's terms is bounded by it. */
  lemma {:induction false} SumOfRealMonotone<T>(s: seq<T>, f: T -> real, g: T -> real)
    requires forall i :: 0 <= i < |s| ==> f(s[i]) <= g(s[i])
    ensures SumOfReal(s, f) <= SumOfReal(s, g)
  {
    if s != [] {
      SumOfRealMonotone(s[1..], f, g);
    }
  }

  /** Two selectors that agree on every element give the same sum. */
  lemma {:induction false} SumOfRealAgree<T>(s: seq<T>, f: T -> real, g: T -> real)
    requires forall i :: 0 <= i < |s| ==> f(s[i]) == g(s[i])
    ensures SumOfReal(s, f) == SumOfReal(s, g)
  {
    if s != [] {
      SumOfRealAgree(s[1..], f, g);
    }
  }

  lemma {:induction false} SumOfIntNonNegative<T>(s: seq<T>, f: T -> int)
    requires forall i :: 0 <= i < |s| ==> 0 <= f(s[i])
    ensures 0 <= SumOfInt(s, f)
  {
    if s != [] {
      SumOfIntNonNegative(s[1..], f);
    }
  }
}
