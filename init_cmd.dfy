/**
 * `replicate init` (internal/cmd/init/root.go): like `scaffold`, but a prediction
 * that cannot be fetched is only reported, and fewer template names are accepted.
 */
module InitCmd {
  import opened Wrappers
  import opened Files
  import opened Starter
  import Scaffold

  /** Only `node` and the empty name select the Node starter; `python` the Python one. */
  function SelectTemplate(t: string): (r: Result<Template, StarterError>)
    ensures r == Ok(Node) <==> t in {"node", ""}
    ensures r == Ok(Python) <==> t == "python"
    ensures r.Err? ==> r == Err(UnsupportedTemplate(t))
    ensures r.Ok? ==> r == Scaffold.SelectTemplate(t)
    ensures t in {"nodejs", "js"} ==> r.Err? && Scaffold.SelectTemplate(t) == Ok(Node)
  {
    if t in {"node", ""} then Ok(Node)
    else if t == "python" then Ok(Python)
    else Err(UnsupportedTemplate(t))
  }

  /**
   * The command as written, once the starter repository is cloned into the
   * directory (`read` reads a file there; the shell steps are not part of this
   * model). A missing token or an unparsable ID ends the process with status 1,
   * shown here as the error. A prediction that cannot be fetched is printed and
   * the command goes on: the handler reads the template and then dereferences the
   * nil prediction.
   */
  function RunAsWritten(
    args: seq<string>, template: string, apiToken: string,
    rawQuery: string -> Result<string, string>, parseQuery: string -> QueryValues,
    fetch: string -> Option<Fetched>, read: string -> Result<string, string>): (r: Result<Populated, StarterError>)
    requires 1 <= |args| <= 2
    ensures apiToken == "" ==> r == Err(TokenMissing)
    ensures apiToken != "" && ParsePredictionId(args[0], false, rawQuery, parseQuery).Err? ==>
      r == Err(ParseFailed(ParsePredictionId(args[0], false, rawQuery, parseQuery).error))
    ensures r.Ok? ==>
      var id := ParsePredictionId(args[0], false, rawQuery, parseQuery);
      id.Ok? && fetch(id.value).Some?
      && r.value.directory == Directory(args, id.value)
      && SelectTemplate(template) == Ok(r.value.template)
      && read(JoinPath(r.value.directory, Scaffold.TemplateFile(r.value.template))).Ok?
      && r.value.file == JoinPath(r.value.directory, Scaffold.OutputFile(r.value.template))
      && r.value.content == Populate(read(JoinPath(r.value.directory, Scaffold.TemplateFile(r.value.template))).value,
                                     ModelString(fetch(id.value).value), fetch(id.value).value.inputs)
    ensures r != Err(GetPredictionFailed)
    ensures (apiToken != "" && ParsePredictionId(args[0], false, rawQuery, parseQuery).Ok?) ==>
      var id := ParsePredictionId(args[0], false, rawQuery, parseQuery).value;
      (SelectTemplate(template).Err? ==> r == Err(UnsupportedTemplate(template)))
      && (SelectTemplate(template).Ok? ==>
            var text := read(JoinPath(Directory(args, id), Scaffold.TemplateFile(SelectTemplate(template).value)));
            (text.Err? ==> r == Err(ReadFailed(text.error)))
            && (text.Ok? && fetch(id).None? ==> r == Err(NilPrediction))
            && (text.Ok? && fetch(id).Some? ==> r.Ok?))
  {
    if apiToken == "" then Err(TokenMissing)
    else
      match ParsePredictionId(args[0], false, rawQuery, parseQuery)
      case Err(e) => Err(ParseFailed(e))
      case Ok(id) =>
        var directory := Directory(args, id);
        var fetched := fetch(id);
        match SelectTemplate(template)
        case Err(e) => Err(e)
        case Ok(t) =>
          match read(JoinPath(directory, Scaffold.TemplateFile(t)))
          case Err(e) => Err(ReadFailed(e))
          case Ok(text) =>
            if fetched.None? then Err(NilPrediction)
            else
              Ok(Populated(directory, t, JoinPath(directory, Scaffold.OutputFile(t)),
                           Populate(text, ModelString(fetched.value), fetched.value.inputs)))
  }

  /** As written, a prediction that cannot be fetched ends in a nil dereference. */
  lemma MissingPredictionPanics(
    args: seq<string>, template: string, apiToken: string,
    rawQuery: string -> Result<string, string>, parseQuery: string -> QueryValues,
    fetch: string -> Option<Fetched>, read: string -> Result<string, string>)
    requires 1 <= |args| <= 2 && apiToken != ""
    requires ParsePredictionId(args[0], false, rawQuery, parseQuery).Ok?
    requires fetch(ParsePredictionId(args[0], false, rawQuery, parseQuery).value).None?
    requires SelectTemplate(template).Ok?
    requires read(JoinPath(Directory(args, ParsePredictionId(args[0], false, rawQuery, parseQuery).value),
                           Scaffold.TemplateFile(SelectTemplate(template).value))).Ok?
    ensures RunAsWritten(args, template, apiToken, rawQuery, parseQuery, fetch, read) == Err(NilPrediction)
  {
  }

  /** The command as evidently intended: a prediction that cannot be fetched stops it, as in `scaffold`. */
  function Run(
    args: seq<string>, template: string, apiToken: string,
    rawQuery: string -> Result<string, string>, parseQuery: string -> QueryValues,
    fetch: string -> Option<Fetched>, read: string -> Result<string, string>): (r: Result<Populated, StarterError>)
    requires 1 <= |args| <= 2
    ensures r != Err(NilPrediction)
    ensures apiToken != "" && ParsePredictionId(args[0], false, rawQuery, parseQuery).Ok?
            && fetch(ParsePredictionId(args[0], false, rawQuery, parseQuery).value).None? ==>
      r == Err(GetPredictionFailed)
    ensures !(apiToken != "" && ParsePredictionId(args[0], false, rawQuery, parseQuery).Ok?
              && fetch(ParsePredictionId(args[0], false, rawQuery, parseQuery).value).None?) ==>
      r == RunAsWritten(args, template, apiToken, rawQuery, parseQuery, fetch, read)
  {
    if apiToken != "" && ParsePredictionId(args[0], false, rawQuery, parseQuery).Ok?
       && fetch(ParsePredictionId(args[0], false, rawQuery, parseQuery).value).None?
    then Err(GetPredictionFailed)
    else RunAsWritten(args, template, apiToken, rawQuery, parseQuery, fetch, read)
  }
}
