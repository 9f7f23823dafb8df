/** The JavaScript string operations the application relies on:
    `trim`, `toLowerCase`/`toUpperCase`, `includes`, `split` and `slice`. */
module Text {

  /** The characters `String.prototype.trim` removes: ECMAScript WhiteSpace
      (tab, vertical tab, form feed, the byte-order mark and the Unicode
      space separators) and LineTerminator (LF, CR, U+2028, U+2029). */
  predicate IsSpace(c: char) {
    c == ' ' || c == '\t' || c == '\n' || c == '\r' || c == '\U{B}' || c == '\U{C}'
    || c == '\U{A0}' || c == '\U{1680}' || ('\U{2000}' <= c <= '\U{200A}')
    || c == '\U{2028}' || c == '\U{2029}' || c == '\U{202F}' || c == '\U{205F}'
    || c == '\U{3000}' || c == '\U{FEFF}'
  }

  /** `s.length`: the number of UTF-16 code units, two for a character
      outside the Basic Multilingual Plane. */
  function Utf16Length(s: string): (n: nat)
    ensures |s| <= n <= 2 * |s|
    ensures (forall k :: 0 <= k < |s| ==> s[k] as int <= 0xFFFF) ==> n == |s|
  {
    if s == [] then 0 else (if s[0] as int > 0xFFFF then 2 else 1) + Utf16Length(s[1..])
  }

  /** `trimStart`: drops the leading white space and keeps the rest as it is. */
  function TrimStart(s: string): (r: string)
    ensures |r| <= |s| && r == s[|s| - |r|..]
    ensures forall k :: 0 <= k < |s| - |r| ==> IsSpace(s[k])
    ensures r == [] || !IsSpace(r[0])
  {
    if s != [] && IsSpace(s[0]) then TrimStart(s[1..]) else s
  }

  /** `trimEnd`: drops the trailing white space and keeps the rest as it is. */
  function TrimEnd(s: string): (r: string)
    ensures |r| <= |s| && r == s[..|r|]
    ensures forall k :: |r| <= k < |s| ==> IsSpace(s[k])
    ensures r == [] || !IsSpace(r[|r| - 1])
  {
    if s != [] && IsSpace(s[|s| - 1]) then TrimEnd(s[..|s| - 1]) else s
  }

  /** `trim`. */
  function Trim(s: string): string {
    TrimEnd(TrimStart(s))
  }

  /** A trimmed string has no white space at either end, and is empty
      exactly when the input was all white space. */
  lemma TrimEnds(s: string)
    ensures Trim(s) == [] || (!IsSpace(Trim(s)[0]) && !IsSpace(Trim(s)[|Trim(s)| - 1]))
    ensures Trim(s) == [] <==> forall k :: 0 <= k < |s| ==> IsSpace(s[k])
  {
    var t := TrimStart(s);
    if Trim(s) != [] {
      assert Trim(s)[0] == t[0];
    }
  }

  /** Trimming only removes characters. */
  lemma TrimWithin(s: string)
    ensures forall c :: c in Trim(s) ==> c in s
  {
    var t := TrimStart(s);
    assert forall c :: c in Trim(s) ==> c in t;
  }

  /** Trimming twice is trimming once. */
  lemma TrimIdempotent(s: string)
    ensures Trim(Trim(s)) == Trim(s)
  {
    var r := Trim(s);
    TrimEnds(s);
    if r != [] {
      assert TrimStart(r) == r;
      assert TrimEnd(r) == r;
    }
  }

  /** `toLowerCase` on one character; ASCII letters only. */
  function LowerChar(c: char): char {
    if 'A' <= c <= 'Z' then (c as int + 32) as char else c
  }

  /** `toUpperCase` on one character; ASCII letters only. */
  function UpperChar(c: char): char {
    if 'a' <= c <= 'z' then (c as int - 32) as char else c
  }

  /** `toLowerCase`. */
  function Lower(s: string): (r: string)
    ensures |r| == |s|
    ensures forall k :: 0 <= k < |s| ==> r[k] == LowerChar(s[k])
  {
    seq(|s|, k requires 0 <= k < |s| => LowerChar(s[k]))
  }

  /** `toUpperCase`. */
  function Upper(s: string): (r: string)
    ensures |r| == |s|
    ensures forall k :: 0 <= k < |s| ==> r[k] == UpperChar(s[k])
  {
    seq(|s|, k requires 0 <= k < |s| => UpperChar(s[k]))
  }

  /** Lower-casing is idempotent, and leaves no upper-case ASCII letter. */
  lemma LowerIdempotent(s: string)
    ensures Lower(Lower(s)) == Lower(s)
    ensures forall k :: 0 <= k < |s| ==> !('A' <= Lower(s)[k] <= 'Z')
  {
  }

  /** `s.startsWith(p)`. */
  predicate StartsWith(s: string, p: string) {
    |p| <= |s| && s[..|p|] == p
  }

  /** `s.includes(q)`: some window of `s` equals `q`. */
  predicate Includes(s: string, q: string)
    decreases |s|
  {
    StartsWith(s, q) || (s != [] && Includes(s[1..], q))
  }

  /** `q` occurs in `s` starting at index `i`. */
  predicate OccursAt(s: string, q: string, i: int) {
    0 <= i <= |s| - |q| && s[i..i + |q|] == q
  }

  /** `includes` holds exactly when `q` occurs in `s` at some position. */
  lemma {:induction false} IncludesAt(s: string, q: string)
    ensures Includes(s, q) <==> exists i :: OccursAt(s, q, i)
    decreases |s|
  {
    if StartsWith(s, q) {
      assert OccursAt(s, q, 0);
    } else if s != [] {
      IncludesAt(s[1..], q);
      if Includes(s[1..], q) {
        var i :| OccursAt(s[1..], q, i);
        assert s[i + 1..i + 1 + |q|] == q;
        assert OccursAt(s, q, i + 1);
      }
      if exists i :: OccursAt(s, q, i) {
        var i :| OccursAt(s, q, i);
        assert i != 0;
        assert s[1..][i - 1..i - 1 + |q|] == q;
        assert OccursAt(s[1..], q, i - 1);
      }
    }
  }

  /** `s.split(sep)` for a one-character separator: the maximal pieces
      between separators, in order, empty pieces included. */
  function Split(s: string, sep: char): (r: seq<string>)
    ensures |r| >= 1
    ensures forall i :: 0 <= i < |r| ==> sep !in r[i]
    decreases |s|
  {
    if s == [] then [""]
    else
      var rest := Split(s[1..], sep);
      if s[0] == sep then [""] + rest
      else [[s[0]] + rest[0]] + rest[1..]
  }

  /** One step of `Split`: a separator starts a new piece, any other
      character extends the first one. */
  lemma SplitCons(c: char, s: string, sep: char)
    ensures Split([c] + s, sep) == if c == sep then [""] + Split(s, sep)
                                   else [[c] + Split(s, sep)[0]] + Split(s, sep)[1..]
  {
    assert ([c] + s)[1..] == s;
  }

  /** `parts.join(sep)`. */
  function Join(parts: seq<string>, sep: string): string
    decreases |parts|
  {
    if |parts| == 0 then ""
    else if |parts| == 1 then parts[0]
    else parts[0] + sep + Join(parts[1..], sep)
  }

  /** Joining the pieces of a split gives back the string. */
  lemma {:induction false} JoinSplit(s: string, sep: char)
    ensures Join(Split(s, sep), [sep]) == s
    decreases |s|
  {
    if s != [] {
      var rest := Split(s[1..], sep);
      JoinSplit(s[1..], sep);
      if s[0] != sep {
        if |rest| == 1 {
          assert Split(s, sep) == [[s[0]] + rest[0]];
        } else {
          assert Split(s, sep)[1..] == rest[1..];
        }
      } else {
        assert Split(s, sep)[1..] == rest;
      }
    }
  }

  /** Splitting a join of separator-free pieces gives back the pieces. */
  lemma {:induction false} SplitJoin(parts: seq<string>, sep: char)
    requires |parts| >= 1
    requires forall i :: 0 <= i < |parts| ==> sep !in parts[i]
    ensures Split(Join(parts, [sep]), sep) == parts
    decreases |parts|, |parts[0]|
  {
    var p := parts[0];
    if p == [] {
      if |parts| > 1 {
        SplitJoin(parts[1..], sep);
        assert Join(parts, [sep]) == [sep] + Join(parts[1..], [sep]);
        assert Join(parts, [sep])[1..] == Join(parts[1..], [sep]);
        assert parts == [""] + parts[1..];
      }
    } else {
      var tail := [p[1..]] + parts[1..];
      assert forall i :: 0 <= i < |tail| ==> sep !in tail[i] by {
        forall i | 0 <= i < |tail| ensures sep !in tail[i] {
          if i == 0 {
            assert forall c :: c in p[1..] ==> c in p;
          } else {
            assert tail[i] == parts[i];
          }
        }
      }
      SplitJoin(tail, sep);
      assert tail[1..] == parts[1..];
      if |parts| == 1 {
        assert Join(parts, [sep]) == p;
        assert Join(tail, [sep]) == p[1..];
      } else {
        assert Join(parts, [sep]) == p + [sep] + Join(parts[1..], [sep]);
        assert Join(tail, [sep]) == p[1..] + [sep] + Join(parts[1..], [sep]);
      }
      assert Join(parts, [sep]) == [p[0]] + Join(tail, [sep]);
      assert Join(parts, [sep])[1..] == Join(tail, [sep]);
      assert p[0] in p;
      assert [p[0]] + p[1..] == p;
      assert parts == [p] + parts[1..];
    }
  }

  /** `parts` with `pad` in front of every piece but the first. */
  function PadTail(parts: seq<string>, pad: string): (r: seq<string>)
    ensures |r| == |parts|
    ensures |parts| > 0 ==> r[0] == parts[0]
    ensures forall i :: 0 < i < |parts| ==> r[i] == pad + parts[i]
  {
    if parts == [] then []
    else [parts[0]] + seq(|parts| - 1, i requires 0 <= i < |parts| - 1 => pad + parts[i + 1])
  }

  /** Padding the first piece pads the joined string. */
  lemma JoinPrefix(parts: seq<string>, sep: string, pad: string)
    requires |parts| >= 1
    ensures Join([pad + parts[0]] + parts[1..], sep) == pad + Join(parts, sep)
  {
    var q := [pad + parts[0]] + parts[1..];
    assert q[1..] == parts[1..];
  }

  /** Joining with a separator `c` followed by `pad` is joining the padded
      pieces with `c` alone; so `join(', ')` is `join(',')` of the pieces
      after the first, each with a space in front. */
  lemma {:induction false} JoinLongSeparator(parts: seq<string>, c: char, pad: string)
    ensures Join(parts, [c] + pad) == Join(PadTail(parts, pad), [c])
    decreases |parts|
  {
    if |parts| >= 2 {
      var rest := PadTail(parts[1..], pad);
      JoinLongSeparator(parts[1..], c, pad);
      JoinPrefix(rest, [c], pad);
      assert PadTail(parts, pad)[1..] == [pad + rest[0]] + rest[1..];
      assert Join(parts, [c] + pad) == parts[0] + [c] + (pad + Join(rest, [c]));
    }
  }

  /** A space put in front of a trimmed, non-empty string trims away. */
  lemma TrimPadded(t: string)
    requires t != [] && Trim(t) == t
    ensures Trim(" " + t) == t
  {
    assert (" " + t)[1..] == t;
    assert TrimStart(" " + t) == TrimStart(t);
    TrimEnds(t);
  }
}
