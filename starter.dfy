/**
 * What `replicate scaffold`, `replicate init` and `replicate clone` share
 * (internal/cmd/scaffold.go, internal/cmd/init/root.go, internal/cmd/clone/root.go):
 * the prediction ID read from an ID or a URL, the directory default, the model string
 * and the two-pass filling of a starter template.
 *
 * Each of the three files carries its own copy of the ID parser; the copies differ
 * only in how a malformed query string is treated, which is the `lenientQuery`
 * parameter here. `url.Parse` (for the raw query) and `url.ParseQuery` are parameters.
 */
module Starter {
  import opened Wrappers
  import opened Strings
  import opened ModelIdentifier

  datatype RefError =
    | URLParseFailed(reason: string)
    | QueryParseFailed(reason: string)
    | NoPredictionId
    | InvalidFormat

  /** `url.ParseQuery` of a raw query: the first `prediction` value ("" when absent) and the first error met. */
  datatype QueryValues = QueryValues(prediction: string, error: Option<string>)

  const PagePrefix: string := "replicate.com/p/"
  const ApiPrefix: string := "api.replicate.com/v1/predictions/"

  /** A prediction's page on the website, with or without `https://`. */
  predicate IsPageURL(v: string)
  {
    PagePrefix <= v || "https://" + PagePrefix <= v
  }

  /** A prediction in the API, with or without `https://`. */
  predicate IsApiURL(v: string)
  {
    ApiPrefix <= v || "https://" + ApiPrefix <= v
  }

  /** The last case: the `prediction` parameter of a URL's query. */
  function FromQuery(
    value: string, lenientQuery: bool,
    rawQuery: string -> Result<string, string>, parseQuery: string -> QueryValues): (r: Result<string, RefError>)
    ensures rawQuery(value).Err? ==> r == Err(URLParseFailed(rawQuery(value).error))
    ensures rawQuery(value).Ok? ==>
      var q := parseQuery(rawQuery(value).value);
      (!lenientQuery && q.error.Some? ==> r == Err(QueryParseFailed(q.error.value)))
      && ((lenientQuery || q.error.None?) ==> r == (if q.prediction == "" then Err(NoPredictionId) else Ok(q.prediction)))
    ensures r.Ok? ==> r.value != ""
  {
    match rawQuery(value)
    case Err(e) => Err(URLParseFailed(e))
    case Ok(raw) =>
      var q := parseQuery(raw);
      if !lenientQuery && q.error.Some? then Err(QueryParseFailed(q.error.value))
      else if q.prediction == "" then Err(NoPredictionId)
      else Ok(q.prediction)
  }

  /**
   * `parsePredictionID`: an ID without '/' as it is; the last '/'-piece of a page
   * or API URL; the `prediction` query parameter of any other URL mentioning
   * `replicate.com`; an error otherwise. (The source's check for an empty split
   * cannot fire: splitting always yields at least one piece.)
   */
  function ParsePredictionId(
    value: string, lenientQuery: bool,
    rawQuery: string -> Result<string, string>, parseQuery: string -> QueryValues): (r: Result<string, RefError>)
    ensures '/' !in value ==> r == Ok(value)
    ensures '/' in value && (IsPageURL(value) || IsApiURL(value)) ==> r == Ok(LastSegment(value, '/'))
    ensures '/' in value && !IsPageURL(value) && !IsApiURL(value) && Contains(value, "replicate.com") ==>
      r == FromQuery(value, lenientQuery, rawQuery, parseQuery)
    ensures '/' in value && !IsPageURL(value) && !IsApiURL(value) && !Contains(value, "replicate.com") ==>
      r == Err(InvalidFormat)
  {
    if '/' !in value then Ok(value)
    else if IsPageURL(value) || IsApiURL(value) then
      LastSegmentIsLastPiece(value, '/');
      Ok(Last(Split(value, '/')))
    else if Contains(value, "replicate.com") || Contains(value, "https://replicate.com") then
      LongerMentionImplied(value);
      FromQuery(value, lenientQuery, rawQuery, parseQuery)
    else Err(InvalidFormat)
  }

  /** The source's second test for `https://replicate.com` adds nothing to the first. */
  lemma {:induction false} LongerMentionImplied(value: string)
    ensures Contains(value, "https://replicate.com") ==> Contains(value, "replicate.com")
  {
    if Contains(value, "https://replicate.com") {
      var i := Index(value, "https://replicate.com");
      assert value[i..i + 21] == "https://replicate.com";
      assert value[i + 8..i + 21] == "replicate.com";
      assert OccursAt(value, "replicate.com", i + 8);
    }
  }

  /** Every URL form of an ID gives the ID back. */
  lemma URLRoundTrip(
    prefix: string, id: string, lenientQuery: bool,
    rawQuery: string -> Result<string, string>, parseQuery: string -> QueryValues)
    requires prefix in {PagePrefix, "https://" + PagePrefix, ApiPrefix, "https://" + ApiPrefix}
    requires '/' !in id
    ensures ParsePredictionId(prefix + id, lenientQuery, rawQuery, parseQuery) == Ok(id)
  {
    var v := prefix + id;
    assert v[|prefix| - 1] == '/';
    assert prefix <= v;
    assert prefix == prefix[..|prefix| - 1] + "/";
    assert v == prefix[..|prefix| - 1] + "/" + id;
    LastSegmentAfter(prefix[..|prefix| - 1], id, '/');
  }

  /** A page URL with nothing after its last '/' gives the empty ID, not an error. */
  lemma TrailingSlashGivesEmptyId(
    v: string, lenientQuery: bool,
    rawQuery: string -> Result<string, string>, parseQuery: string -> QueryValues)
    requires IsPageURL(v) || IsApiURL(v)
    requires v[|v| - 1] == '/'
    ensures ParsePredictionId(v, lenientQuery, rawQuery, parseQuery) == Ok("")
  {
    if PagePrefix <= v {
      assert v[|PagePrefix| - 1] == '/';
    } else if "https://" + PagePrefix <= v {
      assert v[|"https://" + PagePrefix| - 1] == '/';
    } else if ApiPrefix <= v {
      assert v[|ApiPrefix| - 1] == '/';
    } else {
      assert v[|"https://" + ApiPrefix| - 1] == '/';
    }
    assert v == v[..|v| - 1] + "/" + "";
    LastSegmentAfter(v[..|v| - 1], "", '/');
  }

  /** A plain `http://` page URL is not a page URL: only its query can name the prediction. */
  lemma HttpPageFallsThrough(
    id: string, lenientQuery: bool,
    rawQuery: string -> Result<string, string>, parseQuery: string -> QueryValues)
    ensures ParsePredictionId("http://" + PagePrefix + id, lenientQuery, rawQuery, parseQuery)
         == FromQuery("http://" + PagePrefix + id, lenientQuery, rawQuery, parseQuery)
  {
    var v := "http://" + PagePrefix + id;
    assert v == "http://" + "replicate.com" + ("/p/" + id);
    assert '/' in v by { assert v[5] == '/'; }
    assert !IsPageURL(v) by {
      assert v[0] != PagePrefix[0] && v[4] != ("https://" + PagePrefix)[4];
    }
    assert !IsApiURL(v) by {
      assert v[0] != ApiPrefix[0] && v[4] != ("https://" + ApiPrefix)[4];
    }
    assert Contains(v, "replicate.com") by {
      assert v[7..20] == "replicate.com";
      assert OccursAt(v, "replicate.com", 7);
    }
  }

  /** The strict and the lenient parser differ only on a query that fails to parse. */
  lemma StrictLenientDiffer(
    value: string,
    rawQuery: string -> Result<string, string>, parseQuery: string -> QueryValues)
    ensures ParsePredictionId(value, false, rawQuery, parseQuery) != ParsePredictionId(value, true, rawQuery, parseQuery) ==>
      rawQuery(value).Ok? && parseQuery(rawQuery(value).value).error.Some?
      && ParsePredictionId(value, false, rawQuery, parseQuery)
         == Err(QueryParseFailed(parseQuery(rawQuery(value).value).error.value))
  {
  }

  /** The directory: the second argument when given, otherwise the prediction ID. */
  function Directory(args: seq<string>, id: string): (dir: string)
    requires 1 <= |args| <= 2
    ensures |args| == 2 ==> dir == args[1]
    ensures |args| == 1 ==> dir == id
  {
    if |args| == 2 then args[1] else id
  }

  /** The fields of the fetched prediction a starter uses; `inputs` is its input marshalled as JSON. */
  datatype Fetched = Fetched(model: string, version: string, inputs: string)

  /** `model:version`, the reference the starter's example runs. */
  function ModelString(p: Fetched): string
  {
    p.model + ":" + p.version
  }

  /** The model string of a prediction of `owner/name` is the reference of that version. */
  lemma ModelStringParses(owner: string, name: string, version: string, inputs: string)
    requires '/' !in owner && '/' !in name && ':' !in name
    requires version != "" && '/' !in version && ':' !in version
    ensures ParseIdentifier(ModelString(Fetched(owner + "/" + name, version, inputs)))
         == Ok(Identifier(owner, name, version))
  {
    RenderThenParse(Identifier(owner, name, version));
    assert ModelString(Fetched(owner + "/" + name, version, inputs)) == String(Identifier(owner, name, version));
  }

  const ModelPlaceholder: string := "{{MODEL_STRING}}"
  const InputsPlaceholder: string := "{{INPUTS}}"

  /** The template filled in two passes: the model string first, then the inputs. */
  function Populate(text: string, model: string, inputs: string): (r: string)
    ensures '{' !in text ==> r == text
  {
    if '{' !in text then
      NoBraceUnchanged(text, ModelPlaceholder, model);
      NoBraceUnchanged(text, InputsPlaceholder, inputs);
      ReplaceAll(ReplaceAll(text, ModelPlaceholder, model), InputsPlaceholder, inputs)
    else ReplaceAll(ReplaceAll(text, ModelPlaceholder, model), InputsPlaceholder, inputs)
  }

  /** No occurrence of a pattern can start at a character other than its first. */
  lemma NoOccurrenceBefore(s: string, pat: string, n: nat)
    requires pat != [] && n <= |s|
    requires forall j :: 0 <= j < n ==> s[j] != pat[0]
    ensures forall j :: 0 <= j < n ==> !OccursAt(s, pat, j)
  {
    forall j | 0 <= j < n
      ensures !OccursAt(s, pat, j)
    {
      if j + |pat| <= |s| {
        assert s[j..j + |pat|][0] == s[j];
      }
    }
  }

  /** A text with no '{' holds neither placeholder and is left as it is. */
  lemma NoBraceUnchanged(s: string, pat: string, repl: string)
    requires pat != [] && pat[0] == '{' && '{' !in s
    ensures ReplaceAll(s, pat, repl) == s
  {
    NoOccurrenceBefore(s, pat, |s|);
    assert forall j :: |s| <= j ==> !OccursAt(s, pat, j);
    ReplaceAllNone(s, pat, repl);
  }

  /** Replacing through a prefix without '{' keeps the prefix. */
  lemma NoBraceSkip(a: string, b: string, pat: string, repl: string)
    requires pat != [] && pat[0] == '{' && '{' !in a
    ensures ReplaceAll(a + b, pat, repl) == a + ReplaceAll(b, pat, repl)
  {
    NoOccurrenceBefore(a + b, pat, |a|);
    ReplaceAllSkip(a, b, pat, repl);
  }

  /** The model placeholder does not occur in the inputs placeholder. */
  lemma InputsPlaceholderKept(post: string, model: string)
    requires '{' !in post
    ensures ReplaceAll(InputsPlaceholder + post, ModelPlaceholder, model) == InputsPlaceholder + post
  {
    var M, I := ModelPlaceholder, InputsPlaceholder;
    var s := I + post;
    assert s[0] == '{' && s[1] == '{' && s[2] == 'I';
    forall j | 0 <= j < |I|
      ensures !OccursAt(s, M, j)
    {
      if j + |M| <= |s| {
        assert s[j..j + |M|][0] == s[j] && s[j..j + |M|][1] == s[j + 1] && s[j..j + |M|][2] == s[j + 2];
      }
    }
    ReplaceAllSkip(I, post, M, model);
    NoBraceUnchanged(post, M, model);
  }

  /** What follows the model placeholder passes the first pass unchanged. */
  lemma RestKept(mid: string, post: string, model: string)
    requires '{' !in mid && '{' !in post
    ensures ReplaceAll(mid + (InputsPlaceholder + post), ModelPlaceholder, model) == mid + (InputsPlaceholder + post)
  {
    NoBraceSkip(mid, InputsPlaceholder + post, ModelPlaceholder, model);
    InputsPlaceholderKept(post, model);
  }

  /** The first pass replaces the model placeholder and leaves the rest. */
  lemma FirstPass(pre: string, mid: string, post: string, model: string)
    requires '{' !in pre && '{' !in mid && '{' !in post
    ensures ReplaceAll(pre + ModelPlaceholder + mid + InputsPlaceholder + post, ModelPlaceholder, model)
         == pre + model + mid + InputsPlaceholder + post
  {
    var M := ModelPlaceholder;
    var rest := mid + (InputsPlaceholder + post);
    assert pre + M + mid + InputsPlaceholder + post == pre + (M + rest);
    NoBraceSkip(pre, M + rest, M, model);
    ReplaceAllHere(M + rest, M, model);
    assert (M + rest)[|M|..] == rest;
    RestKept(mid, post, model);
    assert pre + model + rest == pre + model + mid + InputsPlaceholder + post;
  }

  /** The second pass replaces the inputs placeholder after the filled-in model string. */
  lemma SecondPass(pre: string, mid: string, post: string, model: string, inputs: string)
    requires '{' !in pre && '{' !in mid && '{' !in post && '{' !in model
    ensures ReplaceAll(pre + model + mid + InputsPlaceholder + post, InputsPlaceholder, inputs)
         == pre + model + mid + inputs + post
  {
    var I := InputsPlaceholder;
    assert pre + model + mid + I + post == (pre + model + mid) + (I + post);
    assert '{' !in pre + model + mid;
    NoBraceSkip(pre + model + mid, I + post, I, inputs);
    ReplaceAllHere(I + post, I, inputs);
    assert (I + post)[|I|..] == post;
    NoBraceUnchanged(post, I, inputs);
  }

  /**
   * A template holding one placeholder of each kind, and otherwise no '{', is filled
   * with the model string and the inputs, which are not themselves scanned again.
   */
  lemma PopulateTemplate(pre: string, mid: string, post: string, model: string, inputs: string)
    requires '{' !in pre && '{' !in mid && '{' !in post && '{' !in model
    ensures Populate(pre + ModelPlaceholder + mid + InputsPlaceholder + post, model, inputs)
         == pre + model + mid + inputs + post
  {
    FirstPass(pre, mid, post, model);
    SecondPass(pre, mid, post, model, inputs);
  }

  /** An inputs placeholder produced by the first pass is filled by the second. */
  lemma SecondPassFillsFirst(inputs: string)
    ensures Populate(ModelPlaceholder, InputsPlaceholder, inputs) == inputs
  {
    var M, I := ModelPlaceholder, InputsPlaceholder;
    ReplaceAllHere(M, M, I);
    assert M[|M|..] == "";
    ReplaceAllNone("", M, I);
    assert ReplaceAll(M, M, I) == I;
    ReplaceAllHere(I, I, inputs);
    assert I[|I|..] == "";
    ReplaceAllNone("", I, inputs);
    assert ReplaceAll(I, I, inputs) == inputs;
  }

  datatype Template = Node | Python

  /** What a starter command ends in: the file it fills and the text it writes there. */
  datatype Populated = Populated(directory: string, template: Template, file: string, content: string)

  datatype StarterError =
    | TokenMissing
    | ParseFailed(error: RefError)
    | GetPredictionFailed
    | UnsupportedTemplate(name: string)
    | ReadFailed(reason: string)
    | NilPrediction   // the source dereferences a nil prediction: a panic
}
