/**
 * `replicate clone` (internal/cmd/clone/root.go): like `init`, with a lenient query
 * parser, a model string that is empty without a prediction, and one template file
 * name for both starters.
 */
module CloneCmd {
  import opened Wrappers
  import opened Files
  import opened Starter
  import InitCmd

  /** The model string: `model:version` of the fetched prediction, "" without one. */
  function ModelStringOf(p: Option<Fetched>): (s: string)
    ensures p.None? ==> s == ""
    ensures p.Some? ==> s == ModelString(p.value)
  {
    if p.Some? then ModelString(p.value) else ""
  }

  /** Both starters are filled from `prediction.py.template` into `prediction.py`. */
  const TemplateFile: string := "prediction.py.template"
  const OutputFile: string := "prediction.py"

  /**
   * The command as written, once the starter repository is cloned into the clone
   * path (`read` reads a file there; the shell commands are not part of this
   * model). A missing token or an unparsable ID ends the process with status 1,
   * shown here as the error. A prediction that cannot be fetched is printed and the
   * command goes on: the template is read and filled with the empty model string,
   * and then the nil prediction's input is dereferenced.
   */
  function RunAsWritten(
    args: seq<string>, template: string, apiToken: string,
    rawQuery: string -> Result<string, string>, parseQuery: string -> QueryValues,
    fetch: string -> Option<Fetched>, read: string -> Result<string, string>): (r: Result<Populated, StarterError>)
    requires 1 <= |args| <= 2
    ensures apiToken == "" ==> r == Err(TokenMissing)
    ensures apiToken != "" && ParsePredictionId(args[0], true, rawQuery, parseQuery).Err? ==>
      r == Err(ParseFailed(ParsePredictionId(args[0], true, rawQuery, parseQuery).error))
    ensures r.Ok? ==>
      var id := ParsePredictionId(args[0], true, rawQuery, parseQuery);
      id.Ok? && r.value.directory == Directory(args, id.value)
      && InitCmd.SelectTemplate(template) == Ok(r.value.template)
      && read(JoinPath(r.value.directory, TemplateFile)).Ok?
      && r.value.file == JoinPath(r.value.directory, OutputFile)
      && fetch(id.value).Some?
      && r.value.content == Populate(read(JoinPath(r.value.directory, TemplateFile)).value,
                                     ModelString(fetch(id.value).value), fetch(id.value).value.inputs)
    ensures r != Err(GetPredictionFailed)
    ensures (apiToken != "" && ParsePredictionId(args[0], true, rawQuery, parseQuery).Ok?) ==>
      var id := ParsePredictionId(args[0], true, rawQuery, parseQuery).value;
      (InitCmd.SelectTemplate(template).Err? ==> r == Err(UnsupportedTemplate(template)))
      && (InitCmd.SelectTemplate(template).Ok? ==>
            var text := read(JoinPath(Directory(args, id), TemplateFile));
            (text.Err? ==> r == Err(ReadFailed(text.error)))
            && (text.Ok? && fetch(id).None? ==> r == Err(NilPrediction))
            && (text.Ok? && fetch(id).Some? ==> r.Ok?))
  {
    if apiToken == "" then Err(TokenMissing)
    else
      match ParsePredictionId(args[0], true, rawQuery, parseQuery)
      case Err(e) => Err(ParseFailed(e))
      case Ok(id) =>
        var clonePath := Directory(args, id);
        var fetched := fetch(id);
        var model := ModelStringOf(fetched);
        match InitCmd.SelectTemplate(template)
        case Err(e) => Err(e)
        case Ok(t) =>
          match read(JoinPath(clonePath, TemplateFile))
          case Err(e) => Err(ReadFailed(e))
          case Ok(text) =>
            if fetched.None? then Err(NilPrediction)
            else Ok(Populated(clonePath, t, JoinPath(clonePath, OutputFile), Populate(text, model, fetched.value.inputs)))
  }

  /**
   * As written, the empty model string never reaches a file: whenever the command
   * fills the template, the prediction was fetched and its `model:version` is used.
   */
  lemma {:induction false} EmptyModelStringNeverWritten(
    args: seq<string>, template: string, apiToken: string,
    rawQuery: string -> Result<string, string>, parseQuery: string -> QueryValues,
    fetch: string -> Option<Fetched>, read: string -> Result<string, string>)
    requires 1 <= |args| <= 2
    ensures var r := RunAsWritten(args, template, apiToken, rawQuery, parseQuery, fetch, read);
      r.Ok? ==>
        var id := ParsePredictionId(args[0], true, rawQuery, parseQuery).value;
        fetch(id).Some?
        && r.value.content == Populate(read(JoinPath(r.value.directory, TemplateFile)).value,
                                       ModelString(fetch(id).value), fetch(id).value.inputs)
  {
  }

  /** As written, a prediction that cannot be fetched ends in a nil dereference. */
  lemma MissingPredictionPanics(
    args: seq<string>, template: string, apiToken: string,
    rawQuery: string -> Result<string, string>, parseQuery: string -> QueryValues,
    fetch: string -> Option<Fetched>, read: string -> Result<string, string>)
    requires 1 <= |args| <= 2 && apiToken != ""
    requires ParsePredictionId(args[0], true, rawQuery, parseQuery).Ok?
    requires fetch(ParsePredictionId(args[0], true, rawQuery, parseQuery).value).None?
    requires InitCmd.SelectTemplate(template).Ok?
    requires read(JoinPath(Directory(args, ParsePredictionId(args[0], true, rawQuery, parseQuery).value), TemplateFile)).Ok?
    ensures RunAsWritten(args, template, apiToken, rawQuery, parseQuery, fetch, read) == Err(NilPrediction)
  {
  }

  /** The command as evidently intended: a prediction that cannot be fetched stops it. */
  function Run(
    args: seq<string>, template: string, apiToken: string,
    rawQuery: string -> Result<string, string>, parseQuery: string -> QueryValues,
    fetch: string -> Option<Fetched>, read: string -> Result<string, string>): (r: Result<Populated, StarterError>)
    requires 1 <= |args| <= 2
    ensures r != Err(NilPrediction)
    ensures apiToken != "" && ParsePredictionId(args[0], true, rawQuery, parseQuery).Ok?
            && fetch(ParsePredictionId(args[0], true, rawQuery, parseQuery).value).None? ==>
      r == Err(GetPredictionFailed)
    ensures !(apiToken != "" && ParsePredictionId(args[0], true, rawQuery, parseQuery).Ok?
              && fetch(ParsePredictionId(args[0], true, rawQuery, parseQuery).value).None?) ==>
      r == RunAsWritten(args, template, apiToken, rawQuery, parseQuery, fetch, read)
  {
    if apiToken != "" && ParsePredictionId(args[0], true, rawQuery, parseQuery).Ok?
       && fetch(ParsePredictionId(args[0], true, rawQuery, parseQuery).value).None?
    then Err(GetPredictionFailed)
    else RunAsWritten(args, template, apiToken, rawQuery, parseQuery, fetch, read)
  }
}
