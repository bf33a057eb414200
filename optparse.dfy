/**
 * Input resolution (internal/util/optparse.go `ParseInputs`): `key<sep>value`
 * command-line arguments become a map, after `{{path}}` templates in each value are
 * filled from the JSON piped on standard input and a leading `@` is replaced by the
 * URL of the uploaded file.
 */
module OptParse {
  import opened Wrappers
  import opened Strings
  import opened Json

  /**
   * The code `ParseInputs` calls but does not define: JSON decoding (None for text
   * that is not JSON), JSONPath lookup giving the `%v` text of the value found, and
   * the file upload giving the download URL.
   */
  datatype Collaborators = Collaborators(
    decode: string -> Option<Json>,
    lookup: (string, Json) -> Result<string, string>,
    upload: string -> Result<string, string>)

  datatype InputError =
    | InvalidInput(arg: string)
    | StdinNotAnObject
    | ExtractFailed(path: string, reason: string)
    | UploadFailed(reason: string)

  /** One match of the pattern `{{(.*?)}}`: the whole matched text and the group. */
  datatype Template = Template(whole: string, inner: string)

  /**
   * The position of the first "}}" at or after `j` with no newline between `j` and
   * it: where the lazy group `(.*?)` that starts at `j` ends.
   */
  function CloseAt(v: string, j: nat): (r: Option<nat>)
    requires j <= |v|
    ensures r.Some? ==> j <= r.value && OccursAt(v, "}}", r.value) && '\n' !in v[j..r.value]
    ensures r.Some? ==> forall q :: j <= q < r.value ==> !OccursAt(v, "}}", q)
    ensures r.None? ==> forall q :: j <= q && OccursAt(v, "}}", q) ==> '\n' in v[j..q]
    decreases |v| - j
  {
    if j + 2 > |v| then None
    else if v[j..j + 2] == "}}" then Some(j)
    else if v[j] == '\n' then None
    else
      var r := CloseAt(v, j + 1);
      if r.Some? then
        assert v[j..r.value] == [v[j]] + v[j + 1..r.value];
        r
      else r
  }

  /**
   * `re.FindAllStringSubmatch(v, -1)` for `{{(.*?)}}` from position `p` on: the
   * leftmost match, then the matches after its end, so they do not overlap.
   */
  function TemplatesFrom(v: string, p: nat): (ts: seq<Template>)
    requires p <= |v|
    ensures forall i :: 0 <= i < |ts| ==> ts[i].whole == "{{" + ts[i].inner + "}}" && '\n' !in ts[i].inner
    decreases |v| - p
  {
    if p + 2 > |v| then []
    else if v[p..p + 2] == "{{" && CloseAt(v, p + 2).Some? then
      var q := CloseAt(v, p + 2).value;
      assert v[p..q + 2] == v[p..p + 2] + v[p + 2..q] + v[q..q + 2];
      [Template(v[p..q + 2], v[p + 2..q])] + TemplatesFrom(v, q + 2)
    else TemplatesFrom(v, p + 1)
  }

  /** A template opens at `q`: "{{" there, closed by a later "}}" on the same line. */
  predicate OpensAt(v: string, q: nat)
  {
    q + 2 <= |v| && v[q..q + 2] == "{{" && CloseAt(v, q + 2).Some?
  }

  /** Nothing is skipped: the matches from `p` on are none exactly when no template opens at or after `p`. */
  lemma {:induction false} NoTemplatesIffNoneOpen(v: string, p: nat)
    requires p <= |v|
    ensures TemplatesFrom(v, p) == [] <==> forall q :: p <= q ==> !OpensAt(v, q)
    decreases |v| - p
  {
    if p + 2 > |v| {
      assert TemplatesFrom(v, p) == [];
      forall q | p <= q
        ensures !OpensAt(v, q)
      {
      }
    } else if OpensAt(v, p) {
      assert TemplatesFrom(v, p) != [];
    } else {
      assert TemplatesFrom(v, p) == TemplatesFrom(v, p + 1);
      NoTemplatesIffNoneOpen(v, p + 1);
    }
  }

  /**
   * The first match from `p` on is the template opening at the leftmost position `q`
   * where one opens; the rest are the matches after its closing "}}".
   */
  lemma {:induction false} FirstTemplateLeftmost(v: string, p: nat, q: nat)
    requires p <= q && OpensAt(v, q)
    requires forall q' :: p <= q' < q ==> !OpensAt(v, q')
    ensures var c := CloseAt(v, q + 2).value;
      TemplatesFrom(v, p) == [Template(v[q..c + 2], v[q + 2..c])] + TemplatesFrom(v, c + 2)
    decreases q - p
  {
    if p < q {
      assert !OpensAt(v, p);
      assert TemplatesFrom(v, p) == TemplatesFrom(v, p + 1);
      FirstTemplateLeftmost(v, p + 1, q);
    }
  }

  function Templates(v: string): seq<Template>
  {
    TemplatesFrom(v, 0)
  }

  /** A value in which "{{" never occurs holds no template. */
  lemma {:induction false} NoBracesNoTemplates(v: string, p: nat)
    requires p <= |v|
    requires forall q :: p <= q ==> !OccursAt(v, "{{", q)
    ensures TemplatesFrom(v, p) == []
    decreases |v| - p
  {
    if p + 2 <= |v| {
      assert !OccursAt(v, "{{", p);
      NoBracesNoTemplates(v, p + 1);
    }
  }

  /** The JSONPath a template names: its trimmed text, with "$" put in front when missing. */
  function PathOf(t: Template): (path: string)
    ensures "$" <= path
    ensures TrimSpace(t.inner) == path || "$" + TrimSpace(t.inner) == path
  {
    var path := TrimSpace(t.inner);
    if "$" <= path then path else "$" + path
  }

  /**
   * The standard-input document: nil when there is no input, otherwise the decoded
   * JSON object (a JSON `null` also decodes to nil).
   */
  function StdinDocument(stdin: string, env: Collaborators): (r: Result<Json, InputError>)
    ensures r.Ok? ==> r.value.Null? || r.value.Object?
    ensures stdin == "" ==> r == Ok(Null)
    ensures stdin != "" ==>
      (r.Ok? <==> env.decode(stdin).Some? && (env.decode(stdin).value.Null? || env.decode(stdin).value.Object?))
  {
    if stdin == "" then Ok(Null)
    else
      match env.decode(stdin)
      case Some(Null) => Ok(Null)
      case Some(Object(fields)) => Ok(Object(fields))
      case _ => Err(StdinNotAnObject)
  }

  /**
   * The templates filled in turn: each looks its path up in the document and the
   * first remaining occurrence of its text in the current value is replaced by what
   * was found.
   */
  function Fill(v: string, ts: seq<Template>, doc: Json, env: Collaborators): Result<string, InputError>
    decreases |ts|
  {
    if ts == [] then Ok(v)
    else
      var path := PathOf(ts[0]);
      match env.lookup(path, doc)
      case Err(reason) => Err(ExtractFailed(path, reason))
      case Ok(text) => Fill(ReplaceFirst(v, ts[0].whole, text), ts[1..], doc, env)
  }

  /** A filled value that starts with '@' is replaced by the URL of the file it names. */
  function Upload(v: string, env: Collaborators): Result<string, InputError>
  {
    if "@" <= v then
      match env.upload(TrimSpace(v[1..]))
      case Err(reason) => Err(UploadFailed(reason))
      case Ok(url) => Ok(url)
    else Ok(v)
  }

  /** One argument resolved to its key and final value. */
  function ParseArg(arg: string, stdin: string, sep: string, env: Collaborators): (r: Result<(string, string), InputError>)
    ensures r.Ok? ==> Cut(arg, sep).2 && r.value.0 == Cut(arg, sep).0
    ensures !Cut(arg, sep).2 ==> r == Err(InvalidInput(arg))
  {
    var (k, v, found) := Cut(arg, sep);
    if !found then Err(InvalidInput(arg))
    else
      match StdinDocument(stdin, env)
      case Err(e) => Err(e)
      case Ok(doc) =>
        match Fill(v, Templates(v), doc, env)
        case Err(e) => Err(e)
        case Ok(filled) =>
          match Upload(filled, env)
          case Err(e) => Err(e)
          case Ok(final) => Ok((k, final))
  }

  /** The first argument that fails to resolve fails with `e`, every argument before it resolving. */
  predicate FirstFailsWith(args: seq<string>, stdin: string, sep: string, env: Collaborators, e: InputError)
    decreases |args|
  {
    args != []
    && (ParseArg(args[0], stdin, sep, env) == Err(e)
        || (ParseArg(args[0], stdin, sep, env).Ok? && FirstFailsWith(args[1..], stdin, sep, env, e)))
  }

  /**
   * The arguments resolved left to right into `acc`; the first failing argument
   * fails the whole call, and a later key overwrites an earlier one.
   */
  function Resolve(acc: map<string, string>, args: seq<string>, stdin: string, sep: string, env: Collaborators): (r: Result<map<string, string>, InputError>)
    ensures args == [] ==> r == Ok(acc)
    ensures r.Ok? ==> acc.Keys <= r.value.Keys
    decreases |args|
  {
    if args == [] then Ok(acc)
    else
      match ParseArg(args[0], stdin, sep, env)
      case Err(e) => Err(e)
      case Ok((k, v)) => Resolve(acc[k := v], args[1..], stdin, sep, env)
  }

  /** A failure is the error of the first argument that fails, every earlier one resolving. */
  lemma {:induction false} ResolveFailsFirst(
    acc: map<string, string>, args: seq<string>, stdin: string, sep: string, env: Collaborators)
    ensures Resolve(acc, args, stdin, sep, env).Err? ==>
      FirstFailsWith(args, stdin, sep, env, Resolve(acc, args, stdin, sep, env).error)
    decreases |args|
  {
    if args != [] && ParseArg(args[0], stdin, sep, env).Ok? {
      var (k, v) := ParseArg(args[0], stdin, sep, env).value;
      ResolveFailsFirst(acc[k := v], args[1..], stdin, sep, env);
    }
  }

  /** `ParseInputs`, with its two loops: over the arguments and, in `ResolveArgument`, over each value's templates. */
  method ParseInputs(args: seq<string>, stdin: string, sep: string, env: Collaborators)
    returns (r: Result<map<string, string>, InputError>)
    ensures r == Resolve(map[], args, stdin, sep, env)
  {
    var inputs: map<string, string> := map[];
    var i := 0;
    while i < |args|
      invariant 0 <= i <= |args|
      invariant Resolve(map[], args, stdin, sep, env) == Resolve(inputs, args[i..], stdin, sep, env)
    {
      assert args[i..][0] == args[i] && args[i..][1..] == args[i + 1..];
      var arg := ResolveArgument(args[i], stdin, sep, env);
      if arg.Err? {
        return Err(arg.error);
      }
      inputs := inputs[arg.value.0 := arg.value.1];
      i := i + 1;
    }
    return Ok(inputs);
  }

  /** The body of the loop over the arguments: cut, decode standard input, fill the templates, upload. */
  method ResolveArgument(e: string, stdin: string, sep: string, env: Collaborators)
    returns (r: Result<(string, string), InputError>)
    ensures r == ParseArg(e, stdin, sep, env)
  {
    var (k, v, found) := Cut(e, sep);
    if !found {
      return Err(InvalidInput(e));
    }
    var doc := StdinDocument(stdin, env);
    if doc.Err? {
      return Err(doc.error);
    }
    var ts := Templates(v);
    var j := 0;
    while j < |ts|
      invariant 0 <= j <= |ts|
      invariant Fill(Cut(e, sep).1, ts, doc.value, env) == Fill(v, ts[j..], doc.value, env)
    {
      assert ts[j..][0] == ts[j] && ts[j..][1..] == ts[j + 1..];
      var path := PathOf(ts[j]);
      var value := env.lookup(path, doc.value);
      if value.Err? {
        return Err(ExtractFailed(path, value.error));
      }
      v := ReplaceFirst(v, ts[j].whole, value.value);
      j := j + 1;
    }
    if "@" <= v {
      var url := env.upload(TrimSpace(v[1..]));
      if url.Err? {
        return Err(UploadFailed(url.error));
      }
      v := url.value;
    }
    return Ok((k, v));
  }

  /** The keys of the arguments from `args`, in a set. */
  function KeysOf(args: seq<string>, sep: string): set<string>
  {
    set i | 0 <= i < |args| :: Cut(args[i], sep).0
  }

  /** On success the result holds exactly the keys already gathered and those of the arguments. */
  lemma {:induction false} ResolveKeys(acc: map<string, string>, args: seq<string>, stdin: string, sep: string, env: Collaborators)
    requires Resolve(acc, args, stdin, sep, env).Ok?
    ensures Resolve(acc, args, stdin, sep, env).value.Keys == acc.Keys + KeysOf(args, sep)
    decreases |args|
  {
    if args != [] {
      var (k, v) := ParseArg(args[0], stdin, sep, env).value;
      ResolveKeys(acc[k := v], args[1..], stdin, sep, env);
      KeysOfCons(args, sep);
    }
  }

  /** The keys of a non-empty argument list: the first argument's key and the rest's. */
  lemma KeysOfCons(args: seq<string>, sep: string)
    requires args != []
    ensures KeysOf(args, sep) == {Cut(args[0], sep).0} + KeysOf(args[1..], sep)
  {
    forall key | key in KeysOf(args, sep)
      ensures key in {Cut(args[0], sep).0} + KeysOf(args[1..], sep)
    {
      var i :| 0 <= i < |args| && Cut(args[i], sep).0 == key;
      if i > 0 {
        assert args[i] == args[1..][i - 1];
      }
    }
    forall key | key in KeysOf(args[1..], sep)
      ensures key in KeysOf(args, sep)
    {
      var i :| 0 <= i < |args[1..]| && Cut(args[1..][i], sep).0 == key;
      assert args[1..][i] == args[i + 1];
    }
  }

  /** `ParseInputs` succeeds with exactly the keys its arguments name. */
  lemma ParseInputsKeys(args: seq<string>, stdin: string, sep: string, env: Collaborators)
    requires Resolve(map[], args, stdin, sep, env).Ok?
    ensures Resolve(map[], args, stdin, sep, env).value.Keys == KeysOf(args, sep)
  {
    ResolveKeys(map[], args, stdin, sep, env);
  }

  /**
   * The value stored for a key is the one resolved from the last argument with that
   * key: no later argument names it.
   */
  lemma {:induction false} LastWriteWins(acc: map<string, string>, args: seq<string>, stdin: string, sep: string, env: Collaborators, i: nat)
    requires Resolve(acc, args, stdin, sep, env).Ok?
    requires i < |args|
    requires forall j :: i < j < |args| ==> Cut(args[j], sep).0 != Cut(args[i], sep).0
    ensures ParseArg(args[i], stdin, sep, env).Ok?
    ensures var (k, v) := ParseArg(args[i], stdin, sep, env).value;
      k in Resolve(acc, args, stdin, sep, env).value && Resolve(acc, args, stdin, sep, env).value[k] == v
    decreases |args|
  {
    var (k0, v0) := ParseArg(args[0], stdin, sep, env).value;
    if i == 0 {
      KeptUnlessOverwritten(acc[k0 := v0], args[1..], stdin, sep, env, k0);
    } else {
      forall j | i - 1 < j < |args[1..]|
        ensures Cut(args[1..][j], sep).0 != Cut(args[1..][i - 1], sep).0
      {
        assert args[1..][j] == args[j + 1];
      }
      LastWriteWins(acc[k0 := v0], args[1..], stdin, sep, env, i - 1);
      assert args[1..][i - 1] == args[i];
    }
  }

  /** A key no remaining argument names keeps the value already gathered. */
  lemma {:induction false} KeptUnlessOverwritten(acc: map<string, string>, args: seq<string>, stdin: string, sep: string, env: Collaborators, k: string)
    requires Resolve(acc, args, stdin, sep, env).Ok?
    requires k in acc
    requires forall j :: 0 <= j < |args| ==> Cut(args[j], sep).0 != k
    ensures k in Resolve(acc, args, stdin, sep, env).value && Resolve(acc, args, stdin, sep, env).value[k] == acc[k]
    decreases |args|
  {
    if args != [] {
      var (k0, v0) := ParseArg(args[0], stdin, sep, env).value;
      assert k0 != k;
      forall j | 0 <= j < |args[1..]|
        ensures Cut(args[1..][j], sep).0 != k
      {
        assert args[1..][j] == args[j + 1];
      }
      KeptUnlessOverwritten(acc[k0 := v0], args[1..], stdin, sep, env, k);
    }
  }

  /** With no arguments the result is the empty map, whatever standard input holds. */
  lemma NoArguments(stdin: string, sep: string, env: Collaborators)
    ensures Resolve(map[], [], stdin, sep, env) == Ok(map[])
  {
  }

  /**
   * Standard input that is not a JSON object fails the call as soon as there is an
   * argument, whether or not any value uses a template.
   */
  lemma BadStdinFails(args: seq<string>, stdin: string, sep: string, env: Collaborators)
    requires args != []
    requires StdinDocument(stdin, env).Err?
    ensures Resolve(map[], args, stdin, sep, env).Err?
  {
  }

  /** A value with no template and no leading '@' is stored exactly as written. */
  lemma PlainValueUnchanged(arg: string, stdin: string, sep: string, env: Collaborators)
    requires Cut(arg, sep).2
    requires StdinDocument(stdin, env).Ok?
    requires forall q :: !OccursAt(Cut(arg, sep).1, "{{", q)
    requires !("@" <= Cut(arg, sep).1)
    ensures ParseArg(arg, stdin, sep, env) == Ok((Cut(arg, sep).0, Cut(arg, sep).1))
  {
    NoBracesNoTemplates(Cut(arg, sep).1, 0);
  }

  /** The key is the text before the first separator; the value may hold further separators. */
  lemma CutAtFirst(arg: string, stdin: string, sep: string, env: Collaborators)
    requires ParseArg(arg, stdin, sep, env).Ok?
    ensures var k := ParseArg(arg, stdin, sep, env).value.0;
      exists rest :: arg == k + sep + rest
    ensures forall j :: 0 <= j < |ParseArg(arg, stdin, sep, env).value.0| ==> !OccursAt(arg, sep, j)
  {
    var (k, v, found) := Cut(arg, sep);
    assert arg == k + sep + v;
  }

  lemma CloseInUpload()
    ensures CloseAt("@{{.f}}", 3) == Some(5)
  {
    var v := "@{{.f}}";
    assert v[3..5] != "}}" by { assert v[3..5][0] == '.'; }
    assert v[4..6] != "}}" by { assert v[4..6][0] == 'f'; }
    assert v[5..7] == "}}";
  }

  /** `@{{.f}}` holds one template, whose path is `$.f`. */
  lemma TemplateOfUpload()
    ensures Templates("@{{.f}}") == [Template("{{.f}}", ".f")]
  {
    var v := "@{{.f}}";
    CloseInUpload();
    assert v[0..2] != "{{" by { assert v[0..2][0] == '@'; }
    assert TemplatesFrom(v, 0) == TemplatesFrom(v, 1);
    assert v[1..3] == "{{";
    assert v[1..7] == "{{.f}}" && v[3..5] == ".f";
    assert TemplatesFrom(v, 1) == [Template("{{.f}}", ".f")] + TemplatesFrom(v, 7);
  }

  lemma PathOfDotF()
    ensures PathOf(Template("{{.f}}", ".f")) == "$.f"
  {
    assert !IsSpace(".f"[0]) && !IsSpace(".f"[1]);
    TrimmedIsFixed(".f");
    assert !("$" <= ".f") by { assert ".f"[0] != '$'; }
  }

  lemma ReplaceInUpload(name: string)
    ensures ReplaceFirst("@{{.f}}", "{{.f}}", name) == "@" + name
  {
    var v := "@{{.f}}";
    assert Index(v, "{{.f}}") == 1 by {
      assert v[0..6][0] == '@';
      assert OccursAt(v, "{{.f}}", 1);
    }
  }

  /** `@{{.f}}` is legal: the template is filled first, so the upload names the looked-up file. */
  lemma UploadAfterFill(doc: Json, env: Collaborators)
    requires env.lookup("$.f", doc).Ok?
    ensures Fill("@{{.f}}", Templates("@{{.f}}"), doc, env) == Ok("@" + env.lookup("$.f", doc).value)
  {
    TemplateOfUpload();
    PathOfDotF();
    ReplaceInUpload(env.lookup("$.f", doc).value);
    var ts := [Template("{{.f}}", ".f")];
    assert ts[1..] == [];
  }
}
