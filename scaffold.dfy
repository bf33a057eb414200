/**
 * `replicate scaffold` (internal/cmd/scaffold.go): the prediction is fetched before
 * anything else happens, and a starter template is filled from it.
 */
module Scaffold {
  import opened Wrappers
  import opened Files
  import opened Starter

  /** `node`, `nodejs`, `js` and the empty name select the Node starter, `python` the Python one. */
  function SelectTemplate(t: string): (r: Result<Template, StarterError>)
    ensures r == Ok(Node) <==> t in {"node", "nodejs", "js", ""}
    ensures r == Ok(Python) <==> t == "python"
    ensures r.Err? ==> r == Err(UnsupportedTemplate(t))
  {
    if t in {"node", "nodejs", "js", ""} then Ok(Node)
    else if t == "python" then Ok(Python)
    else Err(UnsupportedTemplate(t))
  }

  /** The template file of the cloned starter, and the file filled from it. */
  function TemplateFile(t: Template): string
  {
    if t == Node then "index.js.template" else "prediction.py.template"
  }

  function OutputFile(t: Template): string
  {
    if t == Node then "index.js" else "prediction.py"
  }

  /**
   * The command, once the starter repository is cloned into the directory: `read`
   * reads a file there. The shell steps (clone, install, `.env`, running the
   * example) are not part of this model.
   */
  function Run(
    args: seq<string>, template: string, apiToken: string,
    rawQuery: string -> Result<string, string>, parseQuery: string -> QueryValues,
    fetch: string -> Option<Fetched>, read: string -> Result<string, string>): (r: Result<Populated, StarterError>)
    requires 1 <= |args| <= 2
    ensures apiToken == "" ==> r == Err(TokenMissing)
    ensures apiToken != "" && ParsePredictionId(args[0], false, rawQuery, parseQuery).Err? ==>
      r == Err(ParseFailed(ParsePredictionId(args[0], false, rawQuery, parseQuery).error))
    ensures r.Ok? ==>
      var id := ParsePredictionId(args[0], false, rawQuery, parseQuery);
      id.Ok? && fetch(id.value).Some?
      && r.value.directory == Directory(args, id.value)
      && SelectTemplate(template) == Ok(r.value.template)
      && read(JoinPath(r.value.directory, TemplateFile(r.value.template))).Ok?
      && r.value.file == JoinPath(r.value.directory, OutputFile(r.value.template))
      && r.value.content == Populate(read(JoinPath(r.value.directory, TemplateFile(r.value.template))).value,
                                     ModelString(fetch(id.value).value), fetch(id.value).value.inputs)
    ensures apiToken != "" && ParsePredictionId(args[0], false, rawQuery, parseQuery).Ok?
            && fetch(ParsePredictionId(args[0], false, rawQuery, parseQuery).value).None? ==>
      r == Err(GetPredictionFailed)
    ensures r != Err(NilPrediction)
    ensures (apiToken != "" && ParsePredictionId(args[0], false, rawQuery, parseQuery).Ok?
             && fetch(ParsePredictionId(args[0], false, rawQuery, parseQuery).value).Some?) ==>
      var dir := Directory(args, ParsePredictionId(args[0], false, rawQuery, parseQuery).value);
      (SelectTemplate(template).Err? ==> r == Err(UnsupportedTemplate(template)))
      && (SelectTemplate(template).Ok? ==>
            var text := read(JoinPath(dir, TemplateFile(SelectTemplate(template).value)));
            (text.Err? ==> r == Err(ReadFailed(text.error))) && (text.Ok? ==> r.Ok?))
  {
    if apiToken == "" then Err(TokenMissing)
    else
      match ParsePredictionId(args[0], false, rawQuery, parseQuery)
      case Err(e) => Err(ParseFailed(e))
      case Ok(id) =>
        match fetch(id)
        case None => Err(GetPredictionFailed)
        case Some(p) =>
          var directory := Directory(args, id);
          match SelectTemplate(template)
          case Err(e) => Err(e)
          case Ok(t) =>
            match read(JoinPath(directory, TemplateFile(t)))
            case Err(e) => Err(ReadFailed(e))
            case Ok(text) =>
              Ok(Populated(directory, t, JoinPath(directory, OutputFile(t)), Populate(text, ModelString(p), p.inputs)))
  }

  /** A page URL and the default template: the ID names the directory and the Node starter is filled. */
  lemma ScaffoldFromPage(
    id: string, apiToken: string,
    rawQuery: string -> Result<string, string>, parseQuery: string -> QueryValues,
    fetch: string -> Option<Fetched>, read: string -> Result<string, string>)
    requires '/' !in id && apiToken != "" && fetch(id).Some?
    requires read(JoinPath(id, "index.js.template")).Ok?
    ensures Run(["https://" + PagePrefix + id], "", apiToken, rawQuery, parseQuery, fetch, read)
         == Ok(Populated(id, Node, JoinPath(id, "index.js"),
                         Populate(read(JoinPath(id, "index.js.template")).value,
                                  ModelString(fetch(id).value), fetch(id).value.inputs)))
  {
    URLRoundTrip("https://" + PagePrefix, id, false, rawQuery, parseQuery);
  }
}
