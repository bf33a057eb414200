/**
 * `replicate model list` (internal/cmd/model/list.go): the `--filter` glob turned
 * into a regular expression, the filtering loop and the table rows.
 */
module ModelList {
  import opened Wrappers
  import opened Strings

  /** The fields of a listing of the explore page the command shows. */
  datatype Listing = Listing(username: string, name: string, description: string, latestVersionCreatedAt: string)

  /** `ExplorePageListing.String`: `username/name`. */
  function ListingString(l: Listing): (s: string)
    ensures |s| == |l.username| + 1 + |l.name| && s[|l.username|] == '/'
  {
    l.username + "/" + l.name
  }

  /** The characters `regexp.QuoteMeta` escapes. */
  predicate IsRegexSpecial(c: char)
  {
    c in "\\.+*?()|[]{}^$"
  }

  function QuoteChar(c: char): (q: string)
    ensures IsRegexSpecial(c) ==> q == ['\\', c]
    ensures !IsRegexSpecial(c) ==> q == [c]
  {
    if IsRegexSpecial(c) then ['\\', c] else [c]
  }

  /** `regexp.QuoteMeta`: every special character preceded by a backslash. */
  function QuoteMeta(s: string): (q: string)
    ensures |s| <= |q| <= 2 * |s|
    ensures q != [] ==> q[0] != '*'
    decreases |s|
  {
    if s == [] then [] else QuoteChar(s[0]) + QuoteMeta(s[1..])
  }

  /** The expression built from a filter: anchored, escaped, with each escaped `*` turned into `.*`. */
  function Pattern(filter: string): string
  {
    "^" + ReplaceAll(QuoteMeta(filter), "\\*", ".*")
  }

  /** The expression a glob stands for: `*` becomes `.*`, every other character is matched literally. */
  function Translate(f: string): string
    decreases |f|
  {
    if f == [] then [] else (if f[0] == '*' then ".*" else QuoteChar(f[0])) + Translate(f[1..])
  }

  /** Escaping and then replacing each escaped `*` yields exactly the glob's expression. */
  lemma {:induction false} PatternIsTranslation(f: string)
    ensures Pattern(f) == "^" + Translate(f)
  {
    EscapedStarsReplaced(f);
  }

  lemma {:induction false} EscapedStarsReplaced(f: string)
    ensures ReplaceAll(QuoteMeta(f), "\\*", ".*") == Translate(f)
    decreases |f|
  {
    if f == [] {
      assert Index([], "\\*") == -1;
    } else {
      var c := f[0];
      var rest := QuoteMeta(f[1..]);
      EscapedStarsReplaced(f[1..]);
      if c == '*' {
        ReplaceAllHere(QuoteMeta(f), "\\*", ".*");
        assert QuoteMeta(f)[2..] == rest;
      } else {
        var q := QuoteChar(c);
        forall j | 0 <= j < |q|
          ensures !OccursAt(q + rest, "\\*", j)
        {
          var s := q + rest;
          if j + 2 <= |s| {
            assert s[j..j + 2] == [s[j], s[j + 1]];
            if j == 0 {
              if IsRegexSpecial(c) {
                assert s[1] == c;
              } else {
                assert s[0] == c;
              }
            } else {
              assert s[1] == c && s[2] == rest[0];
            }
          }
        }
        ReplaceAllSkip(q, rest, "\\*", ".*");
      }
    }
  }

  /**
   * The regular-expression language of the patterns built here: `\c` matches the
   * character c, `.*` any run of characters other than a newline, and any other
   * character itself. `RegexMatch(p, t)` says that `p` matches all of `t`.
   */
  predicate RegexMatch(p: string, t: string)
    decreases |p|
  {
    if p == [] then t == []
    else if p[0] == '\\' && |p| >= 2 then t != [] && t[0] == p[1] && RegexMatch(p[2..], t[1..])
    else if p[0] == '.' && |p| >= 2 && p[1] == '*' then
      exists k :: 0 <= k <= |t| && '\n' !in t[..k] && RegexMatch(p[2..], t[k..])
    else t != [] && t[0] == p[0] && RegexMatch(p[1..], t[1..])
  }

  /** `regexp.MatchString` for a pattern that starts with `^`: some prefix of `s` is matched. */
  predicate MatchString(pattern: string, s: string)
  {
    "^" <= pattern && exists k :: 0 <= k <= |s| && RegexMatch(pattern[1..], s[..k])
  }

  /** The glob reading of a filter: `*` matches any run of characters without a newline. */
  predicate GlobMatch(f: string, t: string)
    decreases |f|
  {
    if f == [] then t == []
    else if f[0] == '*' then exists k :: 0 <= k <= |t| && '\n' !in t[..k] && GlobMatch(f[1..], t[k..])
    else t != [] && t[0] == f[0] && GlobMatch(f[1..], t[1..])
  }

  /** The expression of a glob matches exactly the texts the glob matches. */
  lemma {:induction false} TranslationMatchesGlob(f: string, t: string)
    ensures RegexMatch(Translate(f), t) <==> GlobMatch(f, t)
    decreases |f|
  {
    if f != [] {
      var c := f[0];
      var q := Translate(f[1..]);
      var p := Translate(f);
      if c == '*' {
        assert p == ".*" + q && p[2..] == q;
        forall k | 0 <= k <= |t|
          ensures RegexMatch(q, t[k..]) <==> GlobMatch(f[1..], t[k..])
        {
          TranslationMatchesGlob(f[1..], t[k..]);
        }
      } else if IsRegexSpecial(c) {
        assert p == ['\\', c] + q && p[2..] == q;
        if t != [] {
          TranslationMatchesGlob(f[1..], t[1..]);
        }
      } else {
        assert p == [c] + q && p[1..] == q;
        if t != [] {
          TranslationMatchesGlob(f[1..], t[1..]);
        }
      }
    }
  }

  /** A model is kept exactly when some prefix of `username/name` matches the filter as a glob. */
  lemma FilterIsPrefixGlob(filter: string, s: string)
    ensures MatchString(Pattern(filter), s) <==> exists k :: 0 <= k <= |s| && GlobMatch(filter, s[..k])
  {
    PatternIsTranslation(filter);
    assert Pattern(filter)[1..] == Translate(filter);
    forall k | 0 <= k <= |s|
      ensures RegexMatch(Translate(filter), s[..k]) <==> GlobMatch(filter, s[..k])
    {
      TranslationMatchesGlob(filter, s[..k]);
    }
  }

  /** Without `*`, a glob matches only its own text. */
  lemma {:induction false} LiteralGlob(f: string, t: string)
    requires '*' !in f
    ensures GlobMatch(f, t) <==> t == f
    decreases |f|
  {
    if f != [] {
      assert f[0] != '*' && '*' !in f[1..];
      if t != [] {
        LiteralGlob(f[1..], t[1..]);
        if t[0] == f[0] && t[1..] == f[1..] {
          assert t == [t[0]] + t[1..] && f == [f[0]] + f[1..];
        }
      }
    }
  }

  /** A filter without `*` keeps exactly the models whose `username/name` starts with it. */
  lemma LiteralFilterIsPrefix(filter: string, s: string)
    requires '*' !in filter
    ensures MatchString(Pattern(filter), s) <==> filter <= s
  {
    FilterIsPrefixGlob(filter, s);
    forall k | 0 <= k <= |s|
      ensures GlobMatch(filter, s[..k]) <==> s[..k] == filter
    {
      LiteralGlob(filter, s[..k]);
    }
    if filter <= s {
      assert s[..|filter|] == filter;
    }
  }

  /** An empty filter keeps every model. */
  lemma EmptyFilterKeepsAll(s: string)
    ensures MatchString(Pattern(""), s)
  {
    FilterIsPrefixGlob("", s);
    assert GlobMatch("", s[..0]);
  }

  /** The listings kept by a filter, in their order. */
  function Kept(models: seq<Listing>, filter: string): (kept: seq<Listing>)
    ensures |kept| <= |models|
    decreases |models|
  {
    if models == [] then []
    else
      (if MatchString(Pattern(filter), ListingString(models[0])) then [models[0]] else [])
      + Kept(models[1..], filter)
  }

  /** `xs` is `ys` with some elements left out, the rest in the same order. */
  predicate IsSubsequence<T(==)>(xs: seq<T>, ys: seq<T>)
    decreases |ys|
  {
    xs == [] || (ys != [] && ((xs[0] == ys[0] && IsSubsequence(xs[1..], ys[1..])) || IsSubsequence(xs, ys[1..])))
  }

  /** What the filter keeps: a subsequence of the listings, holding exactly those that match. */
  lemma {:induction false} KeptIsMatchingSubsequence(models: seq<Listing>, filter: string)
    ensures IsSubsequence(Kept(models, filter), models)
    ensures forall l :: l in Kept(models, filter) <==> l in models && MatchString(Pattern(filter), ListingString(l))
    decreases |models|
  {
    if models != [] {
      KeptIsMatchingSubsequence(models[1..], filter);
      assert models == [models[0]] + models[1..];
      var kept := Kept(models, filter);
      if MatchString(Pattern(filter), ListingString(models[0])) {
        assert kept[0] == models[0] && kept[1..] == Kept(models[1..], filter);
      } else {
        assert kept == Kept(models[1..], filter);
      }
    }
  }

  /** The filtering loop. */
  method FilterModels(models: seq<Listing>, filter: string) returns (filtered: seq<Listing>)
    ensures filtered == Kept(models, filter)
  {
    var pattern := Pattern(filter);
    filtered := [];
    var i := 0;
    while i < |models|
      invariant 0 <= i <= |models|
      invariant Kept(models, filter) == filtered + Kept(models[i..], filter)
    {
      assert models[i..][0] == models[i] && models[i..][1..] == models[i + 1..];
      if MatchString(pattern, ListingString(models[i])) {
        filtered := filtered + [models[i]];
      }
      i := i + 1;
    }
  }

  /** A table row: name, description and date of the latest version. */
  datatype Row = Row(name: string, description: string, updated: string)

  /** The rows loop: one row per listing, in order. */
  method Rows(models: seq<Listing>) returns (rows: seq<Row>)
    ensures |rows| == |models|
    ensures forall i :: 0 <= i < |models| ==>
      rows[i] == Row(ListingString(models[i]), models[i].description, models[i].latestVersionCreatedAt)
  {
    rows := [];
    var i := 0;
    while i < |models|
      invariant 0 <= i <= |models|
      invariant |rows| == i
      invariant forall j :: 0 <= j < i ==>
        rows[j] == Row(ListingString(models[j]), models[j].description, models[j].latestVersionCreatedAt)
    {
      rows := rows + [Row(ListingString(models[i]), models[i].description, models[i].latestVersionCreatedAt)];
      i := i + 1;
    }
  }

  /** What the command shows: the listings as JSON, or a table. */
  datatype Shown = AsJson(listings: seq<Listing>) | AsTable(rows: seq<Row>)

  /**
   * The command once the listings are fetched: JSON for `--json` or a non-terminal
   * (unfiltered), otherwise the table of the listings the filter keeps.
   */
  method ListModels(models: seq<Listing>, json: bool, tty: bool, filter: Option<string>) returns (shown: Shown)
    ensures json || !tty ==> shown == AsJson(models)
    ensures !(json || !tty) ==> shown.AsTable?
    ensures !(json || !tty) && filter.None? ==>
      |shown.rows| == |models| && forall i :: 0 <= i < |models| ==> shown.rows[i].name == ListingString(models[i])
    ensures !(json || !tty) && filter.Some? ==>
      var kept := Kept(models, filter.value);
      |shown.rows| == |kept| && forall i :: 0 <= i < |kept| ==> shown.rows[i].name == ListingString(kept[i])
    ensures !(json || !tty) ==>
      var selected := if filter.Some? then Kept(models, filter.value) else models;
      |shown.rows| == |selected|
      && forall i :: 0 <= i < |selected| ==>
           shown.rows[i] == Row(ListingString(selected[i]), selected[i].description, selected[i].latestVersionCreatedAt)
  {
    if json || !tty {
      return AsJson(models);
    }
    var selected := models;
    if filter.Some? {
      selected := FilterModels(models, filter.value);
    }
    var rows := Rows(selected);
    return AsTable(rows);
  }
}
