/**
 * `replicate prediction create` (internal/cmd/prediction/create.go): building the
 * request from the command line, choosing between the model and version endpoints,
 * deciding whether to stream, and the ways the result is shown or saved.
 */
module PredictionCreate {
  import opened Wrappers
  import opened Strings
  import opened Json
  import opened StrConv
  import opened Schema
  import opened OptParse
  import opened ModelIdentifier
  import opened Replicate
  import opened Files
  import opened Download

  /**
   * The command's flags. A boolean field says whether the flag was given on the
   * command line (`Changed`); `outputDirectory` is the flag's value when given.
   */
  datatype Flags = Flags(
    json: bool, web: bool,
    wait: bool, noWait: bool,
    stream: bool, noStream: bool,
    save: bool, outputDirectory: Option<string>)

  /** The pairs of flags the command declares mutually exclusive; the flag parser rejects the others. */
  predicate Exclusive(f: Flags)
  {
    !(f.json && f.web) && !(f.wait && f.noWait) && !(f.stream && f.noStream) && !(f.stream && f.wait)
  }

  /** Why the command failed. `OutputItemsMissing` stands for the nil dereference of the output schema's items. */
  datatype CreateError =
    | InvalidModel(arg: string)
    | InputsFailed(input: InputError)
    | SchemaFailed(schema: SchemaError)
    | CoerceFailed(coerce: CoerceTypesError)
    | OutputItemsMissing
    | CreateFailed(reason: string)
    | StreamingError(reason: string)
    | WaitFailed(reason: string)
    | SaveFailed(download: DownloadError)

  /** `shouldWait`: waiting is the default, switched off only by `--no-wait` alone. */
  function ShouldWait(f: Flags): (r: bool)
    ensures !r <==> f.noWait && !f.wait
    ensures Exclusive(f) ==> (r <==> !f.noWait)
  {
    f.wait || !f.noWait
  }

  /** The value of a string extension, if the extension is present and a string. */
  predicate HasStringExtension(s: Schema, key: string, value: string)
  {
    key in s.extensions && s.extensions[key] == XString(value)
  }

  /**
   * `canStream`: the output is a concatenated iterator of strings. The source reads
   * the output's item schema without checking it, so an array output without items
   * fails (a panic in the source).
   */
  function CanStream(output: Option<Schema>): (r: Result<bool, CreateError>)
    ensures r.Err? <==> output.Some? && output.value.typ == "array" && output.value.items.None?
    ensures r.Err? ==> r.error == OutputItemsMissing
    ensures r == Ok(true) <==>
      output.Some? && output.value.typ == "array" && output.value.items.Some?
      && output.value.items.value.typ == "string"
      && HasStringExtension(output.value, "x-cog-array-type", "iterator")
      && HasStringExtension(output.value, "x-cog-array-display", "concatenate")
  {
    if output.None? || output.value.typ != "array" then Ok(false)
    else if output.value.items.None? then Err(OutputItemsMissing)
    else
      var ext := output.value.extensions;
      Ok(output.value.items.value.typ == "string"
         && "x-cog-array-type" in ext && ext["x-cog-array-type"] == XString("iterator")
         && "x-cog-array-display" in ext && ext["x-cog-array-display"] == XString("concatenate"))
  }

  /** `shouldStream`: a streamable output, no `--wait`, and not switched off by `--no-stream` alone. */
  function ShouldStream(f: Flags, canStream: bool): (r: bool)
    ensures r <==> canStream && !f.wait && (f.stream || !f.noStream)
    ensures f.noStream && !f.stream ==> !r
    ensures canStream && f.stream && Exclusive(f) ==> r
  {
    canStream && !f.wait && (f.stream || !f.noStream)
  }

  /** A model version as the client reads it: its id and its serialised OpenAPI schema. */
  datatype VersionInfo = VersionInfo(id: string, openapi: Result<string, string>)

  /** What the command sends: the model, the version found for it, the coerced inputs and the stream request. */
  datatype Request = Request(
    id: Identifier, version: Option<VersionInfo>, inputs: map<string, Value>,
    output: Option<Schema>, stream: bool)

  /** The input and output schemas of the version found, or none at all without a version. */
  function SchemasOf(version: Option<VersionInfo>, load: string -> Result<map<string, Schema>, string>)
    : (r: Result<(Option<Schema>, Option<Schema>), SchemaError>)
    ensures version.None? ==> r == Ok((None, None))
  {
    if version.None? then Ok((None, None)) else GetSchemas(version.value.openapi, load)
  }

  /** The condition under which `CoerceTypes` succeeds: no inputs without a schema, otherwise every input coerces. */
  predicate Coercible(inputs: map<string, string>, schema: Option<Schema>, decode: string -> Option<Json>)
  {
    if schema.None? then inputs == map[] else AllCoerce(inputs, schema.value, decode)
  }

  /**
   * What `CoerceTypes`, `canStream` and `shouldStream` make of the parsed inputs `raw`
   * and the schemas: a coercion failure exactly when the inputs do not coerce (naming
   * the nil schema, or an input to blame); then the items error exactly when
   * `canStream` fails; otherwise a request whose inputs are the inputs' coercions
   * and whose stream flag is `shouldStream`.
   */
  ghost predicate CoerceOutcome(
    r: Result<Request, CreateError>, f: Flags, raw: map<string, string>,
    input: Option<Schema>, output: Option<Schema>, decode: string -> Option<Json>)
  {
    ((r.Err? && r.error.CoerceFailed?) <==> !Coercible(raw, input, decode))
    && (r.Err? && r.error.CoerceFailed? && input.None? ==> r.error.coerce == NilSchema)
    && (r.Err? && r.error.CoerceFailed? && input.Some? ==>
          exists k :: Blames(raw, input.value, decode, k, r.error.coerce))
    && (Coercible(raw, input, decode) ==>
          (r == Err(OutputItemsMissing) <==> CanStream(output).Err?) && (r.Ok? <==> CanStream(output).Ok?))
    && (r.Err? ==> r.error.CoerceFailed? || r.error == OutputItemsMissing)
    && (r.Ok? ==>
          r.value.output == output && r.value.inputs.Keys == raw.Keys
          && r.value.stream == ShouldStream(f, CanStream(output).value))
    && (r.Ok? && input.None? ==> r.value.inputs == map[])
    && (r.Ok? && input.Some? ==>
          forall k :: k in r.value.inputs ==>
            k in input.value.properties
            && r.value.inputs[k] == Coerce(raw[k], input.value.properties[k], decode).value
            && Conforms(r.value.inputs[k], input.value.properties[k]))
  }

  /**
   * Everything `RunE` does before creating the prediction, in its order: parse the
   * model argument, look up its version (`findVersion`: the latest version of the
   * model, or the named one; None when the lookup fails), parse the inputs, read the
   * schemas, coerce the inputs and decide on streaming. `args` has at least one
   * element, as the command declares.
   */
  method PrepareRequest(
    f: Flags, args: seq<string>, stdin: string, sep: string, env: Collaborators,
    findVersion: Identifier -> Option<VersionInfo>,
    load: string -> Result<map<string, Schema>, string>, decode: string -> Option<Json>)
    returns (r: Result<Request, CreateError>)
    requires |args| >= 1
    ensures ParseIdentifier(args[0]).Err? ==> r == Err(InvalidModel(args[0]))
    ensures ParseIdentifier(args[0]).Ok? && Resolve(map[], args[1..], stdin, sep, env).Err? ==>
      r == Err(InputsFailed(Resolve(map[], args[1..], stdin, sep, env).error))
    ensures (ParseIdentifier(args[0]).Ok? && Resolve(map[], args[1..], stdin, sep, env).Ok?
             && SchemasOf(findVersion(ParseIdentifier(args[0]).value), load).Err?) ==>
      r == Err(SchemaFailed(SchemasOf(findVersion(ParseIdentifier(args[0]).value), load).error))
    ensures (ParseIdentifier(args[0]).Ok? && Resolve(map[], args[1..], stdin, sep, env).Ok?
             && SchemasOf(findVersion(ParseIdentifier(args[0]).value), load).Ok?) ==>
      var schemas := SchemasOf(findVersion(ParseIdentifier(args[0]).value), load).value;
      CoerceOutcome(r, f, Resolve(map[], args[1..], stdin, sep, env).value, schemas.0, schemas.1, decode)
    ensures r.Ok? ==>
      ParseIdentifier(args[0]) == Ok(r.value.id) && r.value.version == findVersion(r.value.id)
      && r.value.inputs.Keys == KeysOf(args[1..], sep)
    ensures r.Ok? && r.value.version.None? ==> |args| == 1 && r.value.output.None? && r.value.inputs == map[]
  {
    var parsed := ParseIdentifier(args[0]);
    if parsed.Err? {
      return Err(InvalidModel(args[0]));
    }
    var id := parsed.value;
    var version := findVersion(id);
    var inputs := ParseInputs(args[1..], stdin, sep, env);
    if inputs.Err? {
      return Err(InputsFailed(inputs.error));
    }
    ParseInputsKeys(args[1..], stdin, sep, env);
    var schemas: (Option<Schema>, Option<Schema>) := (None, None);
    if version.Some? {
      var got := GetSchemas(version.value.openapi, load);
      if got.Err? {
        return Err(SchemaFailed(got.error));
      }
      schemas := got.value;
    }
    r := CoerceAndDecide(f, id, version, inputs.value, schemas.0, schemas.1, decode);
    if r.Ok? && schemas.0.None? {
      NoKeysNoArguments(args[1..], sep);
    }
  }

  /**
   * The second half of `RunE`'s preparation: `CoerceTypes` on the parsed inputs, then
   * `canStream` and `shouldStream` on the output schema.
   */
  method CoerceAndDecide(
    f: Flags, id: Identifier, version: Option<VersionInfo>, raw: map<string, string>,
    input: Option<Schema>, output: Option<Schema>, decode: string -> Option<Json>)
    returns (r: Result<Request, CreateError>)
    ensures CoerceOutcome(r, f, raw, input, output, decode)
    ensures r.Ok? ==> r.value.id == id && r.value.version == version
  {
    var coerced := CoerceTypes(raw, input, decode);
    if coerced.Err? {
      return Err(CoerceFailed(coerced.error));
    }
    if input.Some? {
      AllConform(raw, input.value, decode, coerced.value);
    }
    var canStream := CanStream(output);
    if canStream.Err? {
      return Err(canStream.error);
    }
    return Ok(Request(id, version, coerced.value, output, ShouldStream(f, canStream.value)));
  }

  /** Inputs coerced one by one against their properties all conform to them. */
  lemma AllConform(inputs: map<string, string>, schema: Schema, decode: string -> Option<Json>, coerced: map<string, Value>)
    requires AllCoerce(inputs, schema, decode) && coerced.Keys == inputs.Keys
    requires CoercedFrom(coerced, inputs, schema, decode)
    ensures forall k :: k in coerced ==> k in schema.properties && Conforms(coerced[k], schema.properties[k])
  {
    forall k | k in coerced
      ensures Conforms(coerced[k], schema.properties[k])
    {
      CoercedConforms(inputs[k], schema.properties[k], decode);
    }
  }

  /** Every argument contributes a key. */
  lemma NoKeysNoArguments(args: seq<string>, sep: string)
    ensures KeysOf(args, sep) == {} <==> args == []
  {
    if args != [] {
      assert Cut(args[0], sep).0 in KeysOf(args, sep);
    }
  }

  /** A call to the API that creates a prediction. */
  datatype CreateCall = WithModel(owner: string, name: string) | WithVersion(version: string)

  /**
   * The calls that create the prediction and the outcome. `byModel` is the result of
   * the model endpoint, `byVersion` that of the version endpoint for a version id.
   * Without a version in the identifier the model endpoint is tried first, and the
   * version found earlier is the fallback when it fails.
   */
  function CreatePrediction(
    id: Identifier, version: Option<VersionInfo>,
    byModel: Result<Prediction, string>, byVersion: string -> Result<Prediction, string>)
    : (r: (seq<CreateCall>, Result<Prediction, CreateError>))
    ensures 1 <= |r.0| <= 2
    ensures id.version != "" ==> r.0 == [WithVersion(id.version)]
    ensures id.version == "" ==> r.0[0] == WithModel(id.owner, id.name)
    ensures |r.0| == 2 <==> id.version == "" && byModel.Err? && version.Some?
    ensures |r.0| == 2 ==> r.0[1] == WithVersion(version.value.id)
    ensures r.1.Ok? <==> match r.0[|r.0| - 1] {
      case WithModel(_, _) => byModel.Ok?
      case WithVersion(v) => byVersion(v).Ok?
    }
    ensures r.1.Ok? ==> r.1.value == (if r.0[|r.0| - 1].WithModel? then byModel.value else byVersion(r.0[|r.0| - 1].version).value)
  {
    if id.version != "" then
      ([WithVersion(id.version)], Lift(byVersion(id.version)))
    else if byModel.Ok? || version.None? then
      ([WithModel(id.owner, id.name)], Lift(byModel))
    else
      ([WithModel(id.owner, id.name), WithVersion(version.value.id)], Lift(byVersion(version.value.id)))
  }

  function Lift(r: Result<Prediction, string>): Result<Prediction, CreateError>
  {
    match r
    case Ok(p) => Ok(p)
    case Err(e) => Err(CreateFailed(e))
  }

  /** The fallback never runs when the model endpoint succeeds or a version was named. */
  lemma FallbackOnlyAfterFailure(
    id: Identifier, version: Option<VersionInfo>,
    byModel: Result<Prediction, string>, byVersion: string -> Result<Prediction, string>)
    requires id.version != "" || byModel.Ok?
    ensures |CreatePrediction(id, version, byModel, byVersion).0| == 1
  {
  }

  /** What the command does once the prediction exists. */
  datatype Path =
    | StreamJson         // print the streamed output as a JSON array
    | StreamPlain        // print the streamed output as text
    | PrintPrediction(wait: bool)  // print the prediction as JSON, after waiting or not
    | OpenWeb            // open the prediction's page
    | StreamInteractive  // print the stream as it arrives, saving it when asked
    | WaitInteractive    // wait with a progress bar, then show and save the output
    | CreatedOnly        // nothing more

  /**
   * The choice of path. `tty` says whether standard output is a terminal;
   * `hasStream` whether the server returned a stream URL.
   */
  function Dispatch(f: Flags, tty: bool, hasStream: bool): (p: Path)
    ensures (p.StreamJson? || p.StreamPlain? || p.StreamInteractive?) <==> hasStream && !(tty && !f.json && f.web)
    ensures p.StreamJson? <==> hasStream && f.json
    ensures (p.StreamInteractive? || p.WaitInteractive?) ==> tty && !f.json
    ensures p.WaitInteractive? <==> tty && !f.json && !f.web && !hasStream && ShouldWait(f)
    ensures p.PrintPrediction? <==> (!tty || f.json) && !hasStream
    ensures p.PrintPrediction? ==> p.wait == ShouldWait(f)
    ensures p.OpenWeb? <==> tty && !f.json && f.web
    ensures p.StreamInteractive? <==> tty && !f.json && !f.web && hasStream
    ensures p.StreamPlain? <==> (!tty || f.json) && hasStream && !f.json
    ensures p.CreatedOnly? <==> tty && !f.json && !f.web && !hasStream && !ShouldWait(f)
  {
    if !tty || f.json then
      if hasStream then (if f.json then StreamJson else StreamPlain)
      else PrintPrediction(ShouldWait(f))
    else if f.web then OpenWeb
    else if hasStream then StreamInteractive
    else if ShouldWait(f) then WaitInteractive
    else CreatedOnly
  }

  /** Outside a terminal, or with `--json`, nothing is ever saved, whatever `--save` says. */
  lemma JsonModeNeverSaves(f: Flags, tty: bool, hasStream: bool)
    requires !tty || f.json
    ensures !Dispatch(f, tty, hasStream).StreamInteractive? && !Dispatch(f, tty, hasStream).WaitInteractive?
  {
  }

  /** The page of a prediction on the website. */
  function WebURL(id: string): (url: string)
    ensures "https://replicate.com/p/" <= url && url[|"https://replicate.com/p/"|..] == id
  {
    "https://replicate.com/p/" + id
  }

  /** The line printed on a terminal when no stream is offered. */
  function CreatedMessage(f: Flags, tty: bool, p: Prediction): (m: Option<string>)
    ensures m.Some? <==> tty && !f.json && !HasStream(p)
    ensures m.Some? ==> m.value == "Prediction created: " + WebURL(p.id) + "\n"
  {
    if tty && !f.json && !HasStream(p) then Some("Prediction created: " + WebURL(p.id) + "\n") else None
  }

  /** The data of the output events, in order. */
  function Outputs(events: seq<Event>): (data: seq<string>)
    ensures |data| <= |events|
    decreases |events|
  {
    if events == [] then []
    else
      var last := events[|events| - 1];
      Outputs(events[..|events| - 1]) + (if last.typ == OutputEvent then [last.data] else [])
  }

  /** The data of the output events that are not empty, in order. */
  function NonEmptyOutputs(events: seq<Event>): (data: seq<string>)
    ensures |data| <= |events|
    ensures forall i :: 0 <= i < |data| ==> data[i] != ""
    decreases |events|
  {
    if events == [] then []
    else
      var last := events[|events| - 1];
      NonEmptyOutputs(events[..|events| - 1]) + (if last.typ == OutputEvent && last.data != "" then [last.data] else [])
  }

  function QuoteAll(xs: seq<string>, quote: string -> string): (ys: seq<string>)
    ensures |ys| == |xs| && forall i :: 0 <= i < |xs| ==> ys[i] == quote(xs[i])
  {
    seq(|xs|, i requires 0 <= i < |xs| => quote(xs[i]))
  }

  /**
   * The stream in `--json` mode: a JSON array of the non-empty output data, each
   * encoded by `quote` (JSON string encoding), separated by ", ".
   */
  method StreamAsJson(events: seq<Event>, quote: string -> string) returns (out: string)
    ensures out == "[" + Join(QuoteAll(NonEmptyOutputs(events), quote), ", ") + "]"
  {
    var body := "";
    var prefix := "";
    var i := 0;
    while i < |events|
      invariant 0 <= i <= |events|
      invariant body == Join(QuoteAll(NonEmptyOutputs(events[..i]), quote), ", ")
      invariant prefix == if NonEmptyOutputs(events[..i]) == [] then "" else ", "
    {
      var e := events[i];
      var before := NonEmptyOutputs(events[..i]);
      NonEmptyOutputsStep(events, i);
      if e.typ == OutputEvent && e.data != "" {
        assert NonEmptyOutputs(events[..i + 1]) == before + [e.data];
        JoinQuotedSnoc(before, e.data, quote);
        body := body + prefix + quote(e.data);
        prefix := ", ";
      } else {
        assert NonEmptyOutputs(events[..i + 1]) == before + [];
        assert before + [] == before;
      }
      i := i + 1;
    }
    assert events[..i] == events;
    out := "[" + body + "]";
  }

  /** One more event adds its datum to the non-empty outputs exactly when it is a non-empty output. */
  lemma NonEmptyOutputsStep(events: seq<Event>, i: nat)
    requires i < |events|
    ensures NonEmptyOutputs(events[..i + 1]) == NonEmptyOutputs(events[..i])
      + (if events[i].typ == OutputEvent && events[i].data != "" then [events[i].data] else [])
  {
    assert events[..i + 1][..i] == events[..i];
  }

  /** Quoting and joining one more datum adds the separator (unless it is the first) and its quotation. */
  lemma JoinQuotedSnoc(xs: seq<string>, x: string, quote: string -> string)
    ensures Join(QuoteAll(xs + [x], quote), ", ")
      == Join(QuoteAll(xs, quote), ", ") + (if xs == [] then "" else ", ") + quote(x)
  {
    assert QuoteAll(xs + [x], quote) == QuoteAll(xs, quote) + [quote(x)];
    if xs != [] {
      JoinSnoc(QuoteAll(xs, quote), quote(x), ", ");
    }
  }

  /** The stream in plain mode: the output data one after another, then a newline. */
  method StreamAsText(events: seq<Event>) returns (out: string)
    ensures out == Join(Outputs(events), "") + "\n"
  {
    var text := "";
    var i := 0;
    while i < |events|
      invariant 0 <= i <= |events|
      invariant text == Join(Outputs(events[..i]), "")
    {
      var e := events[i];
      assert events[..i + 1][..i] == events[..i] && events[..i + 1][i] == e;
      if e.typ == OutputEvent {
        assert Outputs(events[..i + 1]) == Outputs(events[..i]) + [e.data];
        JoinEmptySnoc(Outputs(events[..i]), e.data);
        text := text + e.data;
      } else {
        assert Outputs(events[..i + 1]) == Outputs(events[..i]);
      }
      i := i + 1;
    }
    assert events[..i] == events;
    out := text + "\n";
  }

  /** Dropping the empty data leaves the concatenated text as it is. */
  lemma {:induction false} SameTextBothModes(events: seq<Event>)
    ensures Join(NonEmptyOutputs(events), "") == Join(Outputs(events), "")
    decreases |events|
  {
    if events != [] {
      var init := events[..|events| - 1];
      var last := events[|events| - 1];
      SameTextBothModes(init);
      if last.typ == OutputEvent {
        assert Outputs(events) == Outputs(init) + [last.data];
        JoinEmptySnoc(Outputs(init), last.data);
        if last.data != "" {
          assert NonEmptyOutputs(events) == NonEmptyOutputs(init) + [last.data];
          JoinEmptySnoc(NonEmptyOutputs(init), last.data);
        } else {
          assert NonEmptyOutputs(events) == NonEmptyOutputs(init);
        }
      } else {
        assert Outputs(events) == Outputs(init);
        assert NonEmptyOutputs(events) == NonEmptyOutputs(init);
      }
    }
  }

  /** What the interactive loop receives: an event, or news from the error channel, or a channel closing. */
  datatype Signal = Received(event: Event) | EventsClosed | StreamFailed(reason: string) | ErrorsClosed

  /** A signal that ends the loop. */
  predicate Stops(s: Signal)
  {
    !s.Received? || s.event.typ == DoneEvent
  }

  /** Where the loop ends: at the first stopping signal, or after the last signal. */
  function StopIndex(signals: seq<Signal>): (n: nat)
    ensures n <= |signals|
    ensures forall i :: 0 <= i < n ==> !Stops(signals[i])
    ensures n < |signals| ==> Stops(signals[n])
  {
    if signals == [] || Stops(signals[0]) then 0 else 1 + StopIndex(signals[1..])
  }

  /** The tokens the loop gathers: the data of the output events received, in order. */
  function Tokens(signals: seq<Signal>): (ts: seq<string>)
    ensures |ts| <= |signals|
    decreases |signals|
  {
    if signals == [] then []
    else
      var last := signals[|signals| - 1];
      Tokens(signals[..|signals| - 1]) + (if last.Received? && last.event.typ == OutputEvent then [last.event.data] else [])
  }

  /** One more signal adds its data to the tokens exactly when it is an output event. */
  lemma TokensStep(signals: seq<Signal>, i: nat)
    requires i < |signals|
    ensures Tokens(signals[..i + 1])
         == Tokens(signals[..i]) + (if signals[i].Received? && signals[i].event.typ == OutputEvent then [signals[i].event.data] else [])
  {
    assert signals[..i + 1][..i] == signals[..i];
  }

  /** How the interactive stream ends: an error from the error channel fails it; everything else is success. */
  function StreamOutcome(signals: seq<Signal>): (r: Result<(), CreateError>)
    ensures r.Err? <==> StopIndex(signals) < |signals| && signals[StopIndex(signals)].StreamFailed?
    ensures r.Err? ==> r.error == StreamingError(signals[StopIndex(signals)].reason)
  {
    var n := StopIndex(signals);
    if n < |signals| && signals[n].StreamFailed? then Err(StreamingError(signals[n].reason)) else Ok(())
  }

  /** `--output-directory` when given, otherwise a directory named after the prediction. */
  function OutputDir(f: Flags, id: string): (dir: string)
    ensures f.outputDirectory.Some? ==> dir == f.outputDirectory.value
    ensures f.outputDirectory.None? ==> "./" <= dir && dir[2..] == id
  {
    if f.outputDirectory.Some? then f.outputDirectory.value else "./" + id
  }

  /**
   * The interactive stream of the prediction `id`: each output token is printed as it
   * arrives; with `--save`, after every signal that does not end the loop,
   * `output.txt` in the directory `OutputDir` made absolute by `abs` is rewritten with
   * everything printed so far. The signals are the order in which the loop received
   * them; a sequence without a stopping signal ends as if the channels had closed.
   */
  method StreamInteractively(signals: seq<Signal>, f: Flags, id: string, abs: string -> string, ws: Workspace)
    returns (r: Result<(), CreateError>, printed: string)
    modifies ws
    ensures r == StreamOutcome(signals)
    ensures printed == Join(Tokens(signals[..StopIndex(signals)]), "")
    ensures f.save && StopIndex(signals) > 0 ==>
      ws.dirs == old(ws.dirs) + {abs(OutputDir(f, id))}
      && ws.files == old(ws.files)[JoinPath(abs(OutputDir(f, id)), "output.txt") := printed]
    ensures !(f.save && StopIndex(signals) > 0) ==> ws.dirs == old(ws.dirs) && ws.files == old(ws.files)
  {
    var save := f.save;
    var dir := abs(OutputDir(f, id));
    var tokens: seq<string> := [];
    printed := "";
    var i := 0;
    while i < |signals|
      invariant 0 <= i <= StopIndex(signals)
      invariant tokens == Tokens(signals[..i])
      invariant printed == Join(tokens, "")
      invariant save && i > 0 ==>
        ws.dirs == old(ws.dirs) + {dir} && ws.files == old(ws.files)[JoinPath(dir, "output.txt") := printed]
      invariant !(save && i > 0) ==> ws.dirs == old(ws.dirs) && ws.files == old(ws.files)
    {
      var s := signals[i];
      if Stops(s) {
        break;
      }
      TokensStep(signals, i);
      if s.event.typ == OutputEvent {
        JoinEmptySnoc(tokens, s.event.data);
        tokens := tokens + [s.event.data];
        printed := printed + s.event.data;
      }
      if save {
        ws.MkdirAll(dir);
        ws.WriteFile(JoinPath(dir, "output.txt"), Join(tokens, ""));
      }
      i := i + 1;
    }
    r := if i < |signals| && signals[i].StreamFailed? then Err(StreamingError(signals[i].reason)) else Ok(());
  }

  /** The line shown for a finished prediction's status after waiting. */
  function Banner(status: string): (b: Option<string>)
    ensures b.Some? <==> Terminated(status)
    ensures status == Succeeded ==> b == Some("\U{2705} Succeeded")
    ensures status == Failed ==> b == Some("\U{274C} Failed")
    ensures status == Canceled ==> b == Some("\U{1F6AB} Canceled")
  {
    if status == Succeeded then Some("\U{2705} Succeeded")
    else if status == Failed then Some("\U{274C} Failed")
    else if status == Canceled then Some("\U{1F6AB} Canceled")
    else None
  }

  /**
   * The end of the interactive wait: `waitErr` is the error the wait reported, `final`
   * the prediction as it stands afterwards and `abs` the absolute form of a path.
   * A succeeded prediction is downloaded when `--save` was given.
   */
  method FinishWait(
    f: Flags, waitErr: Option<string>, final: Prediction, abs: string -> string,
    parse: string -> Option<string>, fetch: string -> Result<string, string>, marshal: Json -> string,
    ws: Workspace) returns (r: Result<(), CreateError>)
    modifies ws
    ensures waitErr.Some? ==> r == Err(WaitFailed(waitErr.value))
    ensures !(waitErr.None? && f.save && final.status == Succeeded) ==>
      ws.dirs == old(ws.dirs) && ws.files == old(ws.files)
    ensures waitErr.None? && !(f.save && final.status == Succeeded) ==> r == Ok(())
    ensures r.Err? && waitErr.None? ==> r.error.SaveFailed?
    ensures waitErr.None? && f.save && final.status == Succeeded && final.id != "" && final.output.Null? ==> r == Err(SaveFailed(EmptyOutput))
    ensures r.Ok? && f.save && final.status == Succeeded ==> abs(OutputDir(f, final.id)) in ws.dirs
    ensures waitErr.None? && f.save && final.status == Succeeded ==>
      var dir := abs(OutputDir(f, final.id));
      (Guard(final, dir).Some? ==>
         r == Err(SaveFailed(Guard(final, dir).value)) && ws.files == old(ws.files) && ws.dirs == old(ws.dirs))
      && (Guard(final, dir).None? ==> ws.dirs == old(ws.dirs) + {dir})
      && (Guard(final, dir).None? && !final.output.Array? ==>
            r == Ok(()) && ws.files == old(ws.files)[JoinPath(dir, "output.json") := marshal(final.output)])
      && (Guard(final, dir).None? && final.output.Array? && !AllStrings(final.output.items) ==>
            r == Err(SaveFailed(ElementNotAString)) && ws.files == old(ws.files))
    ensures (waitErr.None? && f.save && final.status == Succeeded
             && Guard(final, abs(OutputDir(f, final.id))).None? && final.output.Array? && AllStrings(final.output.items)) ==>
      var dir := abs(OutputDir(f, final.id));
      var strs := StringsOf(final.output.items);
      var urls := strs[..ScheduledCount(strs, parse)];
      ws.files == AfterFetches(old(ws.files), dir, urls, parse, fetch)
      && (r.Err? <==> exists i :: 0 <= i < |urls| && fetch(urls[i]).Err?)
      && (r.Err? ==> exists i :: 0 <= i < |urls| && fetch(urls[i]).Err?
                                && r.error == SaveFailed(FetchFailed(urls[i], fetch(urls[i]).error)))
  {
    if waitErr.Some? {
      return Err(WaitFailed(waitErr.value));
    }
    if f.save && final.status == Succeeded {
      var saved := DownloadPrediction(final, abs(OutputDir(f, final.id)), parse, fetch, marshal, ws);
      if saved.Err? {
        return Err(SaveFailed(saved.error));
      }
    }
    return Ok(());
  }
}
