/**
 * The parts of Go's `strings` and `path/filepath` packages that the command-line
 * client relies on, defined on `string` (a sequence of Unicode scalar values).
 */
module Strings {

  /** Number of occurrences of the character `c` in `s`; zero exactly when `c` does not occur. */
  function CountChar(s: string, c: char): (n: nat)
    ensures n == 0 <==> c !in s
  {
    if s == [] then 0
    else
      assert s == [s[0]] + s[1..];
      (if s[0] == c then 1 else 0) + CountChar(s[1..], c)
  }

  lemma {:induction false} CountCharAppend(a: string, b: string, c: char)
    ensures CountChar(a + b, c) == CountChar(a, c) + CountChar(b, c)
  {
    if a == [] {
      assert a + b == b;
    } else {
      assert (a + b)[1..] == a[1..] + b;
      CountCharAppend(a[1..], b, c);
    }
  }

  /** Position of the first `c` in `s`. */
  function IndexOfChar(s: string, c: char): (i: nat)
    requires c in s
    ensures i < |s| && s[i] == c && c !in s[..i]
  {
    if s[0] == c then 0 else 1 + IndexOfChar(s[1..], c)
  }

  /** `strings.Join(parts, sep)`. */
  function Join(parts: seq<string>, sep: string): string
  {
    if |parts| == 0 then ""
    else if |parts| == 1 then parts[0]
    else parts[0] + sep + Join(parts[1..], sep)
  }

  /** Joining one more part adds the separator and that part. */
  lemma {:induction false} JoinSnoc(parts: seq<string>, x: string, sep: string)
    requires parts != []
    ensures Join(parts + [x], sep) == Join(parts, sep) + sep + x
  {
    if |parts| > 1 {
      assert (parts + [x])[1..] == parts[1..] + [x];
      JoinSnoc(parts[1..], x, sep);
    }
  }

  /** The concatenation of the parts: `strings.Join(parts, "")`. */
  lemma {:induction false} JoinEmptySnoc(parts: seq<string>, x: string)
    ensures Join(parts + [x], "") == Join(parts, "") + x
  {
    if parts == [] {
      assert parts + [x] == [x];
    } else {
      JoinSnoc(parts, x, "");
    }
  }

  /**
   * `strings.Split(s, sep)` for a one-character separator: the pieces between the
   * separators, so there is always one more piece than there are separators and no
   * piece contains the separator.
   */
  function Split(s: string, c: char): (parts: seq<string>)
    ensures |parts| == CountChar(s, c) + 1
    ensures forall i :: 0 <= i < |parts| ==> c !in parts[i]
    decreases |s|
  {
    if c !in s then [s]
    else
      var i := IndexOfChar(s, c);
      CountCharAt(s, i, c);
      [s[..i]] + Split(s[i + 1..], c)
  }

  /** Cutting `s` at its first `c` leaves one `c` fewer after the cut. */
  lemma CountCharAt(s: string, i: nat, c: char)
    requires i < |s| && s[i] == c && c !in s[..i]
    ensures CountChar(s, c) == CountChar(s[i + 1..], c) + 1
  {
    assert s == s[..i] + [c] + s[i + 1..];
    CountCharAppend(s[..i] + [c], s[i + 1..], c);
    CountCharAppend(s[..i], [c], c);
  }

  /** Joining the pieces back with the separator gives the original text. */
  lemma {:induction false} SplitThenJoin(s: string, c: char)
    ensures Join(Split(s, c), [c]) == s
    decreases |s|
  {
    if c in s {
      var i := IndexOfChar(s, c);
      SplitThenJoin(s[i + 1..], c);
      assert s == s[..i] + [c] + s[i + 1..];
    }
  }

  /** A text split into exactly two pieces is the first piece, the separator and the second. */
  lemma SplitInTwo(s: string, c: char)
    requires |Split(s, c)| == 2
    ensures s == Split(s, c)[0] + [c] + Split(s, c)[1]
  {
    SplitThenJoin(s, c);
    var ps := Split(s, c);
    assert ps[1..] == [ps[1]];
  }

  /** A text split into one piece is that piece. */
  lemma SplitInOne(s: string, c: char)
    requires |Split(s, c)| == 1
    ensures Split(s, c)[0] == s
  {
    SplitThenJoin(s, c);
  }

  /** The first separator of `a + [c] + b` is the one after `a` when `a` has none. */
  lemma {:induction false} IndexOfCharAfter(a: string, b: string, c: char)
    requires c !in a
    ensures IndexOfChar(a + [c] + b, c) == |a|
  {
    if a != [] {
      assert (a + [c] + b)[1..] == a[1..] + [c] + b;
      IndexOfCharAfter(a[1..], b, c);
    }
  }

  /** Splitting is the inverse of joining pieces that do not contain the separator. */
  lemma {:induction false} SplitJoin(parts: seq<string>, c: char)
    requires |parts| >= 1
    requires forall i :: 0 <= i < |parts| ==> c !in parts[i]
    ensures Split(Join(parts, [c]), c) == parts
  {
    if |parts| > 1 {
      var head, rest := parts[0], parts[1..];
      assert c !in head;
      assert forall i :: 0 <= i < |rest| ==> c !in rest[i] by {
        forall i | 0 <= i < |rest| ensures c !in rest[i] {
          assert rest[i] == parts[i + 1];
        }
      }
      SplitJoin(rest, c);
      SplitAfter(head, Join(rest, [c]), c);
      assert parts == [head] + rest;
    }
  }

  /** Splitting `a + [c] + b` where `a` has no `c` gives `a` and then the pieces of `b`. */
  lemma SplitAfter(a: string, b: string, c: char)
    requires c !in a
    ensures Split(a + [c] + b, c) == [a] + Split(b, c)
  {
    var s := a + [c] + b;
    assert s[|a|] == c;
    IndexOfCharAfter(a, b, c);
    assert s[..|a|] == a;
    assert s[|a| + 1..] == b;
  }

  /** Position of the last `c` in `s`, or -1 when there is none. */
  function LastIndexOfChar(s: string, c: char): (i: int)
    ensures -1 <= i < |s|
    ensures i >= 0 ==> s[i] == c
    ensures forall k :: i < k < |s| ==> s[k] != c
  {
    if s == [] then -1
    else if s[|s| - 1] == c then |s| - 1
    else LastIndexOfChar(s[..|s| - 1], c)
  }

  /**
   * The text after the last `c`, which is all of `s` when `c` does not occur: the
   * last piece `strings.Split` yields.
   */
  function LastSegment(s: string, c: char): (r: string)
    ensures c !in r && |r| <= |s| && s[|s| - |r|..] == r
    ensures |r| < |s| ==> s[|s| - |r| - 1] == c
    ensures s != [] && s[|s| - 1] != c ==> r != []
  {
    var i := LastIndexOfChar(s, c);
    var r := s[i + 1..];
    assert c !in r by {
      forall k | 0 <= k < |r| ensures r[k] != c {
        assert r[k] == s[i + 1 + k];
      }
    }
    r
  }

  /**
   * A suffix `t` of `s` that is longer than a suffix `r` preceded by `c` contains
   * that `c`.
   */
  lemma SuffixHasChar(s: string, c: char, r: string, t: string)
    requires |t| <= |s| && s[|s| - |t|..] == t
    requires |r| <= |s| && (|r| < |s| ==> s[|s| - |r| - 1] == c)
    ensures |r| < |t| ==> c in t
  {
    if |r| < |t| {
      var k := |t| - |r| - 1;
      assert t[k] == s[|s| - |r| - 1];
    }
  }

  /**
   * The last segment is the only suffix of `s` without `c` that is either all of `s`
   * or preceded by `c`.
   */
  lemma LastSegmentUnique(s: string, c: char, r: string)
    requires c !in r && |r| <= |s| && s[|s| - |r|..] == r
    requires |r| < |s| ==> s[|s| - |r| - 1] == c
    ensures LastSegment(s, c) == r
  {
    var t := LastSegment(s, c);
    SuffixHasChar(s, c, r, t);
    SuffixHasChar(s, c, t, r);
  }

  /** The last segment of `a + [c] + b` is the last segment of `b`. */
  lemma LastSegmentSkip(a: string, b: string, c: char)
    ensures LastSegment(a + [c] + b, c) == LastSegment(b, c)
  {
    var s := a + [c] + b;
    var r := LastSegment(b, c);
    assert s[|s| - |b|..] == b;
    assert s[|s| - |r|..] == b[|b| - |r|..];
    if |r| < |b| {
      assert s[|s| - |r| - 1] == b[|b| - |r| - 1];
    } else {
      assert s[|s| - |r| - 1] == c;
    }
    LastSegmentUnique(s, c, r);
  }

  /** The last segment of `a + [c] + b` is `b` when `b` has no `c`. */
  lemma LastSegmentAfter(a: string, b: string, c: char)
    requires c !in b
    ensures LastSegment(a + [c] + b, c) == b
  {
    LastSegmentSkip(a, b, c);
    LastSegmentUnique(b, c, b);
  }

  /** Text without `c` is its own last segment and its own only piece. */
  lemma LastPieceWhole(s: string, c: char)
    requires c !in s
    ensures Last(Split(s, c)) == LastSegment(s, c)
  {
    assert Split(s, c) == [s];
    LastSegmentUnique(s, c, s);
  }

  /** Cutting at the first `c` changes neither the last piece nor the last segment. */
  lemma LastPieceSkip(a: string, b: string, c: char)
    requires c !in a
    ensures Last(Split(a + [c] + b, c)) == Last(Split(b, c))
    ensures LastSegment(a + [c] + b, c) == LastSegment(b, c)
  {
    SplitAfter(a, b, c);
    LastSegmentSkip(a, b, c);
  }

  /** The last segment is the last piece `Split` yields. */
  lemma {:induction false} LastSegmentIsLastPiece(s: string, c: char)
    ensures Last(Split(s, c)) == LastSegment(s, c)
    decreases |s|
  {
    if c in s {
      var i := IndexOfChar(s, c);
      assert s == s[..i] + [c] + s[i + 1..];
      LastPieceSkip(s[..i], s[i + 1..], c);
      LastSegmentIsLastPiece(s[i + 1..], c);
    } else {
      LastPieceWhole(s, c);
    }
  }

  /** The last element of a non-empty sequence. */
  function Last<T>(xs: seq<T>): T
    requires xs != []
  {
    xs[|xs| - 1]
  }


  /** `sub` occurs in `s` at position `j`. */
  predicate OccursAt(s: string, sub: string, j: int)
  {
    0 <= j && j + |sub| <= |s| && s[j..j + |sub|] == sub
  }

  /**
   * `strings.Index(s, sub)`: the first position at which `sub` occurs in `s`,
   * or -1 when it does not occur.
   */
  function Index(s: string, sub: string): (i: int)
    ensures i == -1 || OccursAt(s, sub, i)
    ensures i >= 0 ==> forall j :: 0 <= j < i ==> !OccursAt(s, sub, j)
    ensures i < 0 ==> forall j :: !OccursAt(s, sub, j)
  {
    IndexFrom(s, sub, 0)
  }

  /** The first position from `p` on at which `sub` occurs in `s`, or -1. */
  function IndexFrom(s: string, sub: string, p: nat): (i: int)
    ensures i == -1 || (p <= i && OccursAt(s, sub, i))
    ensures i >= 0 ==> forall j :: p <= j < i ==> !OccursAt(s, sub, j)
    ensures i < 0 ==> forall j :: p <= j ==> !OccursAt(s, sub, j)
    decreases |s| - p
  {
    if p + |sub| > |s| then -1
    else if OccursAt(s, sub, p) then p
    else IndexFrom(s, sub, p + 1)
  }

  /** `strings.Contains(s, sub)`. */
  predicate Contains(s: string, sub: string)
  {
    Index(s, sub) >= 0
  }

  /**
   * `strings.Cut(s, sep)`: the text before and after the first `sep`, and whether
   * `sep` was found at all.
   */
  function Cut(s: string, sep: string): (r: (string, string, bool))
    ensures r.2 <==> Contains(s, sep)
    ensures r.2 ==> s == r.0 + sep + r.1
    ensures r.2 ==> forall j :: 0 <= j < |r.0| ==> !OccursAt(s, sep, j)
    ensures !r.2 ==> r.0 == s && r.1 == ""
  {
    var i := Index(s, sep);
    if i < 0 then (s, "", false)
    else
      assert s == s[..i] + sep + s[i + |sep|..];
      (s[..i], s[i + |sep|..], true)
  }

  /**
   * `strings.Replace(s, pat, repl, 1)`: replaces the first occurrence of `pat`
   * (an empty `pat` matches at the start).
   */
  function ReplaceFirst(s: string, pat: string, repl: string): (r: string)
    ensures !Contains(s, pat) ==> r == s
    ensures Contains(s, pat) ==> exists i :: OccursAt(s, pat, i) && r == s[..i] + repl + s[i + |pat|..]
  {
    var i := Index(s, pat);
    if i < 0 then s else s[..i] + repl + s[i + |pat|..]
  }

  /**
   * `strings.ReplaceAll(s, pat, repl)`: replaces every non-overlapping occurrence of
   * `pat`, scanning from the left. An empty `pat` matches before every character
   * and at the end.
   */
  function ReplaceAll(s: string, pat: string, repl: string): string
    decreases |s|, 1
  {
    if pat == [] then
      if s == [] then repl else repl + [s[0]] + ReplaceAll(s[1..], pat, repl)
    else ReplaceFrom(s, pat, repl, Index(s, pat))
  }

  /** `ReplaceAll` once the first occurrence of `pat` is known to be at `i` (or absent, when -1). */
  function ReplaceFrom(s: string, pat: string, repl: string, i: int): string
    requires pat != [] && i == Index(s, pat)
    decreases |s|, 0
  {
    if i < 0 then s else s[..i] + repl + ReplaceAll(s[i + |pat|..], pat, repl)
  }

  /** Replacing a text by itself changes nothing. */
  lemma {:induction false} ReplaceAllSelf(s: string, pat: string)
    ensures ReplaceAll(s, pat, pat) == s
    decreases |s|
  {
    if pat == [] {
      if s != [] {
        ReplaceAllSelf(s[1..], pat);
        assert s == [s[0]] + s[1..];
      }
    } else {
      var i := Index(s, pat);
      if i >= 0 {
        ReplaceAllSelf(s[i + |pat|..], pat);
        assert s == s[..i] + pat + s[i + |pat|..];
      }
    }
  }

  /** An occurrence in `b` is an occurrence in `a + b`, shifted by `|a|`. */
  lemma OccursAtShift(a: string, b: string, sub: string, j: int)
    requires 0 <= j
    ensures OccursAt(a + b, sub, j + |a|) <==> OccursAt(b, sub, j)
  {
    if j + |sub| <= |b| {
      assert (a + b)[j + |a|..j + |a| + |sub|] == b[j..j + |sub|];
    }
  }

  /** A text that starts with `pat` has its first `pat` replaced, then the rest. */
  lemma ReplaceAllHere(s: string, pat: string, repl: string)
    requires pat != [] && pat <= s
    ensures ReplaceAll(s, pat, repl) == repl + ReplaceAll(s[|pat|..], pat, repl)
  {
    assert s[..|pat|] == pat;
    assert OccursAt(s, pat, 0);
    assert Index(s, pat) == 0;
    assert s[..0] + repl == repl;
  }

  /** With no occurrence starting in `a`, the first one in `a + b` is the first one in `b`, shifted. */
  lemma IndexShift(a: string, b: string, pat: string)
    requires forall j :: 0 <= j < |a| ==> !OccursAt(a + b, pat, j)
    ensures Index(a + b, pat) == if Index(b, pat) < 0 then -1 else Index(b, pat) + |a|
  {
    var i := Index(a + b, pat);
    var k := Index(b, pat);
    if k >= 0 {
      OccursAtShift(a, b, pat, k);
      if i >= 0 && i < k + |a| {
        OccursAtShift(a, b, pat, i - |a|);
      }
    } else if i >= 0 {
      OccursAtShift(a, b, pat, i - |a|);
    }
  }

  /** One step of `ReplaceAll` with a non-empty pattern, first found at `i`. */
  lemma ReplaceAllStep(s: string, pat: string, repl: string, i: nat)
    requires pat != [] && Index(s, pat) == i
    ensures ReplaceAll(s, pat, repl) == s[..i] + repl + ReplaceAll(s[i + |pat|..], pat, repl)
  {
  }

  /** A prefix in which no occurrence of `pat` starts is kept as it is. */
  lemma ReplaceAllSkip(a: string, b: string, pat: string, repl: string)
    requires pat != []
    requires forall j :: 0 <= j < |a| ==> !OccursAt(a + b, pat, j)
    ensures ReplaceAll(a + b, pat, repl) == a + ReplaceAll(b, pat, repl)
  {
    IndexShift(a, b, pat);
    ReplaceAllShifted(a, b, pat, repl);
  }

  lemma ReplaceAllShifted(a: string, b: string, pat: string, repl: string)
    requires pat != []
    requires Index(a + b, pat) == if Index(b, pat) < 0 then -1 else Index(b, pat) + |a|
    ensures ReplaceAll(a + b, pat, repl) == a + ReplaceAll(b, pat, repl)
  {
    if Index(b, pat) < 0 {
      ReplaceAllNone(a + b, pat, repl);
      ReplaceAllNone(b, pat, repl);
    } else {
      ReplaceAllShiftedFound(a, b, pat, repl, Index(b, pat));
    }
  }

  lemma ReplaceAllNone(s: string, pat: string, repl: string)
    requires pat != [] && Index(s, pat) < 0
    ensures ReplaceAll(s, pat, repl) == s
  {
  }

  lemma ReplaceAllShiftedFound(a: string, b: string, pat: string, repl: string, k: nat)
    requires pat != [] && Index(b, pat) == k && Index(a + b, pat) == k + |a|
    ensures ReplaceAll(a + b, pat, repl) == a + ReplaceAll(b, pat, repl)
  {
    var s := a + b;
    var i := k + |a|;
    var pre := b[..k];
    var t := ReplaceAll(b[k + |pat|..], pat, repl);
    assert s[i + |pat|..] == b[k + |pat|..];
    assert s[..i] == a + pre;
    assert ReplaceAll(s, pat, repl) == (a + pre) + repl + t by {
      ReplaceAllStep(s, pat, repl, i);
    }
    assert ReplaceAll(b, pat, repl) == pre + repl + t by {
      ReplaceAllStep(b, pat, repl, k);
    }
    assert (a + pre) + repl + t == a + (pre + repl + t);
  }

  /** Unicode white space as `unicode.IsSpace` defines it. */
  predicate IsSpace(c: char)
  {
    c == ' ' || c == '\t' || c == '\n' || c == '\U{000B}' || c == '\U{000C}' || c == '\r'
    || c == '\U{0085}' || c == '\U{00A0}' || c == '\U{1680}' || '\U{2000}' <= c <= '\U{200A}'
    || c == '\U{2028}' || c == '\U{2029}' || c == '\U{202F}' || c == '\U{205F}' || c == '\U{3000}'
  }

  function TrimLeftSpace(s: string): (r: string)
    ensures |r| <= |s| && r == s[|s| - |r|..]
    ensures r != [] ==> !IsSpace(r[0])
  {
    if s != [] && IsSpace(s[0]) then TrimLeftSpace(s[1..]) else s
  }

  function TrimRightSpace(s: string): (r: string)
    ensures |r| <= |s| && r == s[..|r|]
    ensures r != [] ==> !IsSpace(r[|r| - 1])
  {
    if s != [] && IsSpace(s[|s| - 1]) then TrimRightSpace(s[..|s| - 1]) else s
  }

  predicate AllSpace(t: string)
  {
    forall k :: 0 <= k < |t| ==> IsSpace(t[k])
  }

  /**
   * `strings.TrimSpace(s)`: what is left of `s` once the white space at both ends
   * is removed; it neither starts nor ends with white space, and `LeadingSpace`
   * and `TrailingSpace` show that only white space was removed.
   */
  function TrimSpace(s: string): (r: string)
    ensures |r| <= |s|
    ensures r != [] ==> !IsSpace(r[0]) && !IsSpace(r[|r| - 1])
  {
    var left := TrimLeftSpace(s);
    var r := TrimRightSpace(left);
    assert r != [] ==> r[0] == left[0];
    r
  }

  /** Text that neither starts nor ends with white space is already trimmed. */
  lemma TrimmedIsFixed(s: string)
    requires s != [] ==> !IsSpace(s[0]) && !IsSpace(s[|s| - 1])
    ensures TrimSpace(s) == s
  {
    assert TrimLeftSpace(s) == s;
    assert TrimRightSpace(s) == s;
  }

  /** What `TrimLeftSpace` removed is white space. */
  lemma {:induction false} LeadingSpace(s: string)
    ensures AllSpace(s[..|s| - |TrimLeftSpace(s)|])
    decreases |s|
  {
    if s != [] && IsSpace(s[0]) {
      LeadingSpace(s[1..]);
      var n := |s| - |TrimLeftSpace(s)|;
      forall k | 0 <= k < n ensures IsSpace(s[..n][k]) {
        if k > 0 {
          assert s[..n][k] == s[1..][..n - 1][k - 1];
        }
      }
    }
  }

  /** What `TrimRightSpace` removed is white space. */
  lemma {:induction false} TrailingSpace(s: string)
    ensures AllSpace(s[|TrimRightSpace(s)|..])
    decreases |s|
  {
    if s != [] && IsSpace(s[|s| - 1]) {
      var init := s[..|s| - 1];
      TrailingSpace(init);
      var m := |TrimRightSpace(s)|;
      forall k | 0 <= k < |s| - m ensures IsSpace(s[m..][k]) {
        if m + k < |s| - 1 {
          assert s[m..][k] == init[m..][k];
        }
      }
    }
  }

  /**
   * `filepath.Base(p)` on a Unix system: the last element of the path once trailing
   * slashes are removed; "." for the empty path and "/" for a path of slashes only.
   */
  function Base(p: string): (r: string)
    ensures r != []
    ensures r == "/" || '/' !in r
  {
    if p == [] then "."
    else
      var stripped := TrimTrailingSlashes(p);
      if stripped == [] then "/" else LastSegment(stripped, '/')
  }

  function TrimTrailingSlashes(p: string): (r: string)
    ensures r <= p
    ensures r != [] ==> r[|r| - 1] != '/'
  {
    if p != [] && p[|p| - 1] == '/' then TrimTrailingSlashes(p[..|p| - 1]) else p
  }

  /** The base name of a path whose last element is `name` is `name`. */
  lemma BaseOfJoin(dir: string, name: string)
    requires name != [] && '/' !in name
    ensures Base(dir + "/" + name) == name
  {
    assert TrimTrailingSlashes(dir + "/" + name) == dir + "/" + name;
    LastSegmentAfter(dir, name, '/');
  }
}
