/** The array methods the application chains: `filter`, `filter(..).length`,
    `map` and `slice(0, n)`, with what they preserve. */
module Seqs {

  /** `s.filter(keep)`: the elements that pass, in their original order. */
  function Filter<T>(s: seq<T>, keep: T -> bool): (r: seq<T>)
    ensures |r| <= |s|
    ensures forall i :: 0 <= i < |r| ==> keep(r[i])
    decreases |s|
  {
    if s == [] then []
    else (if keep(s[0]) then [s[0]] else []) + Filter(s[1..], keep)
  }

  /** `s.filter(keep).length`. */
  function Count<T>(s: seq<T>, keep: T -> bool): nat {
    |Filter(s, keep)|
  }

  /** `s.map(f)`. */
  function Map<T, U>(s: seq<T>, f: T -> U): (r: seq<U>)
    ensures |r| == |s|
    ensures forall i :: 0 <= i < |s| ==> r[i] == f(s[i])
  {
    seq(|s|, i requires 0 <= i < |s| => f(s[i]))
  }

  /** `s.slice(0, n)` for `n >= 0`. */
  function Take<T>(s: seq<T>, n: nat): (r: seq<T>)
    ensures |r| <= n && |r| <= |s|
    ensures |s| <= n ==> r == s
    ensures r == s[..|r|]
  {
    if |s| <= n then s else s[..n]
  }

  /** `a` is `b` with some elements left out, the rest in the same order. */
  predicate IsSubsequence<T(==)>(a: seq<T>, b: seq<T>)
    decreases |b|
  {
    if a == [] then true
    else if b == [] then false
    else if a[0] == b[0] then IsSubsequence(a[1..], b[1..])
    else IsSubsequence(a, b[1..])
  }

  /** An element survives the filter exactly when it was there and passes. */
  lemma {:induction false} FilterMembers<T>(s: seq<T>, keep: T -> bool, x: T)
    ensures x in Filter(s, keep) <==> x in s && keep(x)
    decreases |s|
  {
    if s != [] {
      FilterMembers(s[1..], keep, x);
      assert s == [s[0]] + s[1..];
    }
  }

  /** A filter keeps the order of what it keeps. */
  lemma {:induction false} FilterIsSubsequence<T>(s: seq<T>, keep: T -> bool)
    ensures IsSubsequence(Filter(s, keep), s)
    decreases |s|
  {
    if s != [] {
      FilterIsSubsequence(s[1..], keep);
      var rest := Filter(s[1..], keep);
      if keep(s[0]) {
        assert Filter(s, keep) == [s[0]] + rest;
        assert Filter(s, keep)[1..] == rest;
      } else {
        assert Filter(s, keep) == rest;
        SkipHead(rest, s);
      }
    }
  }

  /** A subsequence of the tail is a subsequence of the whole. */
  lemma {:induction false} SkipHead<T>(a: seq<T>, b: seq<T>)
    requires b != []
    requires IsSubsequence(a, b[1..])
    ensures IsSubsequence(a, b)
    decreases |b|, |a|
  {
    if a != [] && a[0] == b[0] {
      SubsequenceTail(a, b[1..]);
    }
  }

  /** Dropping the first element of a subsequence keeps it a subsequence. */
  lemma {:induction false} SubsequenceTail<T>(a: seq<T>, b: seq<T>)
    requires a != []
    requires IsSubsequence(a, b)
    ensures IsSubsequence(a[1..], b)
    decreases |b|, |a|
  {
    if a[0] != b[0] {
      SubsequenceTail(a, b[1..]);
    }
    SkipHead(a[1..], b);
  }

  /** A filter that keeps everything is the identity. */
  lemma {:induction false} FilterKeepsAll<T>(s: seq<T>, keep: T -> bool)
    requires forall i :: 0 <= i < |s| ==> keep(s[i])
    ensures Filter(s, keep) == s
    decreases |s|
  {
    if s != [] {
      FilterKeepsAll(s[1..], keep);
      assert s == [s[0]] + s[1..];
    }
  }

  /** The filter drops something exactly when some element fails the test. */
  lemma {:induction false} FilterShrinks<T>(s: seq<T>, keep: T -> bool)
    ensures |Filter(s, keep)| < |s| <==> exists i :: 0 <= i < |s| && !keep(s[i])
    decreases |s|
  {
    if s != [] {
      FilterShrinks(s[1..], keep);
      if exists i :: 0 <= i < |s[1..]| && !keep(s[1..][i]) {
        var i :| 0 <= i < |s[1..]| && !keep(s[1..][i]);
        assert !keep(s[i + 1]);
      }
      if exists i :: 0 <= i < |s| && !keep(s[i]) {
        var i :| 0 <= i < |s| && !keep(s[i]);
        if i > 0 {
          assert !keep(s[1..][i - 1]);
        }
      }
    }
  }

  /** Counting under a weaker test never gives less. */
  lemma {:induction false} CountMonotone<T>(s: seq<T>, p: T -> bool, q: T -> bool)
    requires forall x :: p(x) ==> q(x)
    ensures Count(s, p) <= Count(s, q)
    decreases |s|
  {
    if s != [] {
      CountMonotone(s[1..], p, q);
    }
  }

  /** The test that passes when either of two tests passes. */
  function Either<T>(p: T -> bool, q: T -> bool): T -> bool {
    x => p(x) || q(x)
  }

  /** Counts of two tests that never hold together add up to the count of
      their union. */
  lemma {:induction false} CountDisjoint<T>(s: seq<T>, p: T -> bool, q: T -> bool)
    requires forall x :: !(p(x) && q(x))
    ensures Count(s, p) + Count(s, q) == Count(s, Either(p, q))
    decreases |s|
  {
    if s != [] {
      CountDisjoint(s[1..], p, q);
    }
  }

  /** Filtering twice is filtering once by both tests. */
  lemma {:induction false} FilterTwice<T>(s: seq<T>, p: T -> bool, q: T -> bool, both: T -> bool)
    requires forall x :: both(x) == (p(x) && q(x))
    ensures Filter(Filter(s, p), q) == Filter(s, both)
    decreases |s|
  {
    if s != [] {
      FilterTwice(s[1..], p, q, both);
      var once := Filter(s, p);
      if p(s[0]) {
        assert once == [s[0]] + Filter(s[1..], p);
        assert once[1..] == Filter(s[1..], p);
      } else {
        assert once == Filter(s[1..], p);
      }
    }
  }

  /** A prefix holds no element more often than the whole. */
  lemma TakeWithin<T>(s: seq<T>, n: nat)
    ensures multiset(Take(s, n)) <= multiset(s)
  {
    var r := Take(s, n);
    assert s == r + s[|r|..];
  }
}
