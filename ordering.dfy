/** String order and the stable sort behind `Array.prototype.sort`.
    `localeCompare` and `Date` comparisons on the ISO-8601 timestamps the
    application stores are both modelled by the character-code order below,
    which agrees with them on timestamps of one format. It differs in one
    place: a date-only string names UTC midnight, which `Date` finds equal
    to the full timestamp of that midnight, while the character order puts
    the shorter string first. */
module Ordering {
  import opened Seqs

  /** Strict lexicographic order on character codes. */
  predicate LexLess(a: string, b: string)
    decreases |a|
  {
    if b == [] then false
    else if a == [] then true
    else if a[0] != b[0] then a[0] < b[0]
    else LexLess(a[1..], b[1..])
  }

  lemma {:induction false} LexLessIrreflexive(a: string)
    ensures !LexLess(a, a)
    decreases |a|
  {
    if a != [] {
      LexLessIrreflexive(a[1..]);
    }
  }

  lemma {:induction false} LexLessTransitive(a: string, b: string, c: string)
    requires LexLess(a, b) && LexLess(b, c)
    ensures LexLess(a, c)
    decreases |a|
  {
    if a != [] && b != [] && c != [] && a[0] == b[0] && b[0] == c[0] {
      LexLessTransitive(a[1..], b[1..], c[1..]);
    }
  }

  /** Any two different strings are ordered one way or the other. */
  lemma {:induction false} LexLessTotal(a: string, b: string)
    requires a != b
    ensures LexLess(a, b) || LexLess(b, a)
    decreases |a|
  {
    if a != [] && b != [] && a[0] == b[0] {
      assert a == [a[0]] + a[1..] && b == [b[0]] + b[1..];
      LexLessTotal(a[1..], b[1..]);
    }
  }

  lemma LexLessAsymmetric(a: string, b: string)
    requires LexLess(a, b)
    ensures !LexLess(b, a)
  {
    if LexLess(b, a) {
      LexLessTransitive(a, b, a);
      LexLessIrreflexive(a);
    }
  }

  /** A string comes before every longer string it begins. */
  lemma {:induction false} ProperPrefixLess(a: string, b: string)
    requires |a| < |b| && b[..|a|] == a
    ensures LexLess(a, b)
    decreases |a|
  {
    if a != [] {
      assert a[0] == b[0];
      assert b[1..][..|a[1..]|] == a[1..];
      ProperPrefixLess(a[1..], b[1..]);
    }
  }

  /** The direction of a sort. */
  datatype Direction = Ascending | Descending

  /** `a` must come strictly before `b` when sorting by `key` in `dir`. */
  predicate Precedes<T>(key: T -> string, dir: Direction, a: T, b: T) {
    if dir == Ascending then LexLess(key(a), key(b)) else LexLess(key(b), key(a))
  }

  /** Two elements neither of which must precede the other share their key. */
  lemma Tie<T>(key: T -> string, dir: Direction, a: T, b: T)
    requires !Precedes(key, dir, a, b) && !Precedes(key, dir, b, a)
    ensures key(a) == key(b)
  {
    if key(a) != key(b) {
      LexLessTotal(key(a), key(b));
    }
  }

  /** "Not after" is transitive. */
  lemma NotPrecedesTransitive<T>(key: T -> string, dir: Direction, a: T, b: T, c: T)
    requires !Precedes(key, dir, b, a) && !Precedes(key, dir, c, b)
    ensures !Precedes(key, dir, c, a)
  {
    if key(a) != key(b) {
      LexLessTotal(key(a), key(b));
    }
    if key(b) != key(c) {
      LexLessTotal(key(b), key(c));
    }
    if Precedes(key, dir, c, a) {
      if dir == Ascending {
        if key(a) == key(b) {
          LexLessAsymmetric(key(c), key(b));
        } else if key(b) == key(c) {
          LexLessAsymmetric(key(c), key(a));
        } else {
          LexLessTransitive(key(a), key(b), key(c));
          LexLessAsymmetric(key(a), key(c));
        }
      } else {
        if key(a) == key(b) {
          LexLessAsymmetric(key(b), key(c));
        } else if key(b) == key(c) {
          LexLessAsymmetric(key(a), key(c));
        } else {
          LexLessTransitive(key(c), key(b), key(a));
          LexLessAsymmetric(key(c), key(a));
        }
      }
    }
  }

  /** No element is followed by one that must precede it. */
  predicate Sorted<T>(s: seq<T>, key: T -> string, dir: Direction) {
    forall i, j :: 0 <= i < j < |s| ==> !Precedes(key, dir, s[j], s[i])
  }

  /** Places `x` after the leading elements that must precede it and before
      the first one that need not, so that ties keep `x` in front. */
  function Insert<T>(x: T, t: seq<T>, key: T -> string, dir: Direction): (r: seq<T>)
    ensures |r| == |t| + 1
    ensures multiset(r) == multiset(t) + multiset{x}
    decreases |t|
  {
    if t == [] || !Precedes(key, dir, t[0], x) then [x] + t
    else
      assert t == [t[0]] + t[1..];
      [t[0]] + Insert(x, t[1..], key, dir)
  }

  /** Inserting into a sorted sequence keeps it sorted. */
  lemma {:induction false} InsertSorted<T>(x: T, t: seq<T>, key: T -> string, dir: Direction)
    requires Sorted(t, key, dir)
    ensures Sorted(Insert(x, t, key, dir), key, dir)
    decreases |t|
  {
    if t == [] || !Precedes(key, dir, t[0], x) {
      forall j | 0 <= j < |t| ensures !Precedes(key, dir, t[j], x) {
        if j > 0 {
          NotPrecedesTransitive(key, dir, x, t[0], t[j]);
        }
      }
      SortedCons(x, t, key, dir);
    } else {
      var rest := Insert(x, t[1..], key, dir);
      SortedTail(t, key, dir);
      InsertSorted(x, t[1..], key, dir);
      InsertedAfterHead(x, t, key, dir, rest);
      SortedCons(t[0], rest, key, dir);
    }
  }

  /** Dropping the first element keeps a sequence sorted. */
  lemma SortedTail<T>(t: seq<T>, key: T -> string, dir: Direction)
    requires t != [] && Sorted(t, key, dir)
    ensures Sorted(t[1..], key, dir)
  {
    forall i, j | 0 <= i < j < |t[1..]| ensures !Precedes(key, dir, t[1..][j], t[1..][i]) {
      assert t[1..][i] == t[i + 1] && t[1..][j] == t[j + 1];
    }
  }

  /** An element that nothing in a sorted sequence must precede can go in
      front of it. */
  lemma SortedCons<T>(h: T, rest: seq<T>, key: T -> string, dir: Direction)
    requires Sorted(rest, key, dir)
    requires forall j :: 0 <= j < |rest| ==> !Precedes(key, dir, rest[j], h)
    ensures Sorted([h] + rest, key, dir)
  {
    var r := [h] + rest;
    forall i, j | 0 <= i < j < |r| ensures !Precedes(key, dir, r[j], r[i]) {
      if i == 0 {
        assert r[j] == rest[j - 1];
      } else {
        assert r[i] == rest[i - 1] && r[j] == rest[j - 1];
      }
    }
  }

  /** When `t[0]` must precede `x`, nothing in the insertion of `x` into the
      rest of `t` must precede `t[0]`. */
  lemma InsertedAfterHead<T>(x: T, t: seq<T>, key: T -> string, dir: Direction, rest: seq<T>)
    requires t != [] && Sorted(t, key, dir) && Precedes(key, dir, t[0], x)
    requires rest == Insert(x, t[1..], key, dir)
    ensures forall j :: 0 <= j < |rest| ==> !Precedes(key, dir, rest[j], t[0])
  {
    forall j | 0 <= j < |rest| ensures !Precedes(key, dir, rest[j], t[0]) {
      assert rest[j] in multiset(rest);
      if rest[j] == x {
        if dir == Ascending {
          LexLessAsymmetric(key(t[0]), key(x));
        } else {
          LexLessAsymmetric(key(x), key(t[0]));
        }
      } else {
        assert rest[j] in multiset(t[1..]);
        var k :| 0 <= k < |t[1..]| && t[1..][k] == rest[j];
        assert t[k + 1] == rest[j];
      }
    }
  }

  /** `s.sort(compare)` where `compare` orders by `key` in direction `dir`:
      a sorted permutation of `s`. */
  function SortByKey<T>(s: seq<T>, key: T -> string, dir: Direction): (r: seq<T>)
    ensures multiset(r) == multiset(s)
    ensures Sorted(r, key, dir)
    decreases |s|
  {
    if s == [] then []
    else
      var t := SortByKey(s[1..], key, dir);
      InsertSorted(s[0], t, key, dir);
      assert s == [s[0]] + s[1..];
      Insert(s[0], t, key, dir)
  }

  /** The elements that carry key `k`. */
  function HasKey<T>(key: T -> string, k: string): T -> bool {
    x => key(x) == k
  }

  /** Insertion places `x` in front of every element that shares its key. */
  lemma {:induction false} InsertKeepsTies<T>(x: T, t: seq<T>, key: T -> string, dir: Direction, k: string)
    ensures Filter(Insert(x, t, key, dir), HasKey(key, k))
         == (if key(x) == k then [x] else []) + Filter(t, HasKey(key, k))
    decreases |t|
  {
    if t == [] || !Precedes(key, dir, t[0], x) {
      assert ([x] + t)[1..] == t;
    } else {
      InsertKeepsTies(x, t[1..], key, dir, k);
      LexLessIrreflexive(key(x));
      assert key(t[0]) != key(x);
      var r := Insert(x, t, key, dir);
      assert r[1..] == Insert(x, t[1..], key, dir);
    }
  }

  /** The sort is stable: the elements sharing any one key keep their
      original relative order. */
  lemma {:induction false} SortStable<T>(s: seq<T>, key: T -> string, dir: Direction, k: string)
    ensures Filter(SortByKey(s, key, dir), HasKey(key, k)) == Filter(s, HasKey(key, k))
    decreases |s|
  {
    if s != [] {
      SortStable(s[1..], key, dir, k);
      InsertKeepsTies(s[0], SortByKey(s[1..], key, dir), key, dir, k);
    }
  }

  /** Sorting what is already sorted changes nothing. */
  lemma {:induction false} SortSortedIsIdentity<T>(s: seq<T>, key: T -> string, dir: Direction)
    requires Sorted(s, key, dir)
    ensures SortByKey(s, key, dir) == s
    decreases |s|
  {
    if s != [] {
      assert Sorted(s[1..], key, dir) by {
        forall i, j | 0 <= i < j < |s[1..]| ensures !Precedes(key, dir, s[1..][j], s[1..][i]) {
          assert s[1..][i] == s[i + 1] && s[1..][j] == s[j + 1];
        }
      }
      SortSortedIsIdentity(s[1..], key, dir);
      if |s| > 1 {
        assert !Precedes(key, dir, s[1], s[0]);
        assert s[1..][0] == s[1];
      }
      assert [s[0]] + s[1..] == s;
    }
  }

  /** Every prefix of a sorted sequence is sorted. */
  lemma SortedPrefix<T>(s: seq<T>, key: T -> string, dir: Direction, n: nat)
    requires Sorted(s, key, dir) && n <= |s|
    ensures Sorted(s[..n], key, dir)
  {
    forall i, j | 0 <= i < j < n ensures !Precedes(key, dir, s[..n][j], s[..n][i]) {
      assert s[..n][i] == s[i] && s[..n][j] == s[j];
    }
  }
}
