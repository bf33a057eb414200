/** Model identifiers of the form `owner/name[:version]` (internal/identifier). */
module ModelIdentifier {
  import opened Wrappers
  import opened Strings

  /** A parsed identifier; `version` is "" when none was given. */
  datatype Identifier = Identifier(owner: string, name: string, version: string)

  datatype ParseError = InvalidIdentifier(input: string)

  datatype ValidationError = OwnerMustBeSet | NameMustBeSet

  /** The text after the first `c` of `s`. */
  function After(s: string, c: char): string
    requires c in s
  {
    s[IndexOfChar(s, c) + 1..]
  }

  /**
   * Parses `owner/name[:version]`. The input must hold exactly one '/', and the text
   * after it at most one ':'; no part is checked for emptiness.
   */
  function ParseIdentifier(s: string): (r: Result<Identifier, ParseError>)
    ensures r.Err? <==> CountChar(s, '/') != 1 || CountChar(After(s, '/'), ':') > 1
    ensures r.Err? ==> r.error == InvalidIdentifier(s)
    ensures r.Ok? ==> '/' !in r.value.owner && '/' !in r.value.name && ':' !in r.value.name
    ensures r.Ok? ==> '/' !in r.value.version && ':' !in r.value.version
    ensures r.Ok? ==>
      s == r.value.owner + "/" + r.value.name + ":" + r.value.version
      || (r.value.version == "" && s == r.value.owner + "/" + r.value.name)
  {
    var parts := Split(s, '/');
    if |parts| != 2 then Err(InvalidIdentifier(s))
    else
      OwnerAndRest(s);
      var rest := Split(parts[1], ':');
      if |rest| > 2 then Err(InvalidIdentifier(s))
      else if |rest| == 2 then
        WithVersion(parts[0], parts[1]);
        Ok(Identifier(parts[0], rest[0], rest[1]))
      else
        WithoutVersion(parts[0], parts[1]);
        Ok(Identifier(parts[0], rest[0], ""))
  }

  /** A text with one '/' is the owner, the '/' and the rest, which is what follows the '/'. */
  lemma OwnerAndRest(s: string)
    requires |Split(s, '/')| == 2
    ensures s == Split(s, '/')[0] + "/" + Split(s, '/')[1]
    ensures After(s, '/') == Split(s, '/')[1]
  {
    var parts := Split(s, '/');
    SplitInTwo(s, '/');
    IndexOfCharAfter(parts[0], parts[1], '/');
  }

  /** A rest with one ':' is the name, the ':' and the version. */
  lemma WithVersion(owner: string, rest: string)
    requires |Split(rest, ':')| == 2
    ensures owner + "/" + rest == owner + "/" + Split(rest, ':')[0] + ":" + Split(rest, ':')[1]
  {
    SplitInTwo(rest, ':');
  }

  /** A rest without ':' is the name. */
  lemma WithoutVersion(owner: string, rest: string)
    requires |Split(rest, ':')| == 1
    ensures owner + "/" + rest == owner + "/" + Split(rest, ':')[0]
  {
    SplitInOne(rest, ':');
  }

  /** `Identifier.String`: `owner/name`, followed by `:version` when there is a version. */
  function String(id: Identifier): (s: string)
    ensures id.owner + "/" + id.name <= s
    ensures id.version == "" ==> |s| == |id.owner| + 1 + |id.name|
    ensures id.version != "" ==> s[|id.owner| + 1 + |id.name|..] == ":" + id.version
  {
    if id.version == "" then id.owner + "/" + id.name
    else id.owner + "/" + id.name + ":" + id.version
  }

  /** `Identifier.Validate`: the owner is checked first, then the name; the version never. */
  function Validate(id: Identifier): (r: Result<(), ValidationError>)
    ensures r.Ok? <==> id.owner != "" && id.name != ""
    ensures r == Err(OwnerMustBeSet) <==> id.owner == ""
    ensures r == Err(NameMustBeSet) <==> id.owner != "" && id.name == ""
  {
    if id.owner == "" then Err(OwnerMustBeSet)
    else if id.name == "" then Err(NameMustBeSet)
    else Ok(())
  }

  /**
   * Parse-then-render gives back the input exactly, except for an input ending in
   * ':' (an empty version), whose ':' is lost.
   */
  lemma ParseThenRender(s: string)
    requires ParseIdentifier(s).Ok?
    ensures s != []
    ensures String(ParseIdentifier(s).value) == s <==> s[|s| - 1] != ':'
  {
    var id := ParseIdentifier(s).value;
    if id.version == "" && s == id.owner + "/" + id.name + ":" + id.version {
      assert s[|s| - 1] == ':';
      assert |String(id)| < |s|;
    }
  }

  /**
   * Render-then-parse gives back the identifier when the name and the version hold
   * neither '/' nor ':' and the owner holds no '/'.
   */
  lemma RenderThenParse(id: Identifier)
    requires '/' !in id.owner && '/' !in id.name && ':' !in id.name
    requires '/' !in id.version && ':' !in id.version
    ensures ParseIdentifier(String(id)) == Ok(id)
  {
    var s := String(id);
    var rest := if id.version == "" then id.name else id.name + ":" + id.version;
    assert s == id.owner + "/" + rest;
    SplitJoin([id.owner, rest], '/');
    assert Join([id.owner, rest], "/") == s;
    var i := IndexOfChar(s, '/');
    IndexOfCharAfter(id.owner, rest, '/');
    assert s[..i] == id.owner;
    if id.version == "" {
      SplitJoin([id.name], ':');
    } else {
      SplitJoin([id.name, id.version], ':');
      assert Join([id.name, id.version], ":") == rest;
    }
  }

  /** `"/"` is accepted: empty owner, empty name and no version. */
  lemma SlashAlone()
    ensures ParseIdentifier("/") == Ok(Identifier("", "", ""))
  {
    assert Split("/", '/') == ["", ""] by {
      assert IndexOfChar("/", '/') == 0;
      assert "/"[1..] == "";
    }
    assert Split("", ':') == [""];
  }

  /** Inputs without exactly one '/', or with two ':' after it, are rejected. */
  lemma RejectedExamples(s: string)
    requires s == "" || s == "a" || s == "a/b/c" || s == "a/b:c:d"
    ensures ParseIdentifier(s).Err?
  {
    if s == "a/b/c" {
      TwoSlashesRejected(s, "a", "b", "c");
    } else if s == "a/b:c:d" {
      TwoColonsRejected(s, "a", "b", "c", "d");
    } else {
      assert '/' !in s;
    }
  }

  /** `a/b/c` is rejected whatever its parts, as long as they hold no '/'. */
  lemma TwoSlashesRejected(s: string, a: string, b: string, c: string)
    requires '/' !in a && '/' !in b && '/' !in c
    requires s == a + "/" + (b + "/" + c)
    ensures ParseIdentifier(s).Err?
  {
    assert Join([b, c], "/") == b + "/" + c by { assert [b, c][1..] == [c]; }
    assert Join([a, b, c], "/") == a + "/" + (b + "/" + c) by { assert [a, b, c][1..] == [b, c]; }
    SplitJoin([a, b, c], '/');
  }

  /** With a single '/', a second ':' after it is what makes the text invalid. */
  lemma RejectsExtraColon(owner: string, rest: string)
    requires '/' !in owner && '/' !in rest && CountChar(rest, ':') > 1
    ensures ParseIdentifier(owner + "/" + rest).Err?
  {
    var s := owner + "/" + rest;
    CountCharAppend(owner + "/", rest, '/');
    CountCharAppend(owner, "/", '/');
    IndexOfCharAfter(owner, rest, '/');
    assert After(s, '/') == rest;
  }

  /** `owner/name:v:w` is rejected whatever its parts, as long as they hold no separator. */
  lemma TwoColonsRejected(s: string, owner: string, name: string, v: string, w: string)
    requires '/' !in owner && '/' !in name && '/' !in v && '/' !in w
    requires ':' !in name && ':' !in v && ':' !in w
    requires s == owner + "/" + (name + ":" + (v + ":" + w))
    ensures ParseIdentifier(s).Err?
  {
    var rest := name + ":" + (v + ":" + w);
    assert Join([v, w], ":") == v + ":" + w by { assert [v, w][1..] == [w]; }
    assert Join([name, v, w], ":") == rest by { assert [name, v, w][1..] == [v, w]; }
    SplitJoin([name, v, w], ':');
    assert '/' !in rest;
    assert Join([owner, rest], "/") == owner + "/" + rest by { assert [owner, rest][1..] == [rest]; }
    SplitJoin([owner, rest], '/');
  }

}
