# A verified model of the Replicate command-line client

This project models, in Dafny, the logic at the heart of `replicate`, the command-line
client for the Replicate API. It covers:

- model identifiers `owner/name[:version]`;
- reading `key=value` inputs, with `{{ jsonpath }}` templates filled from JSON on
  standard input and `@file` uploads;
- coercing those strings to the types of a model's OpenAPI input schema;
- `prediction create`: choosing the endpoint, whether to stream, how the result is
  shown, and saving outputs;
- downloading a prediction's outputs into a directory;
- `model list` with its `--filter` glob;
- `deployment update`;
- the host-keyed API token file;
- the build version string;
- the status symbols;
- the starter-project commands `scaffold`, `init` and `clone`, which share one
  prediction-reference parser and one template filler.

Everything the client leaves to other code is a function-typed parameter. This covers
HTTP calls, JSON and YAML codecs, JSONPath lookup, `url.Parse`/`ParseQuery`, file
uploads and reading template files. The filesystem is a `Files.Workspace` object: a set
of directories and a map from path to content, which the commands update in place.

These Go panics are explicit error variants (the one other reachable panic, the nil
`Logs` of a failed prediction, is listed under "Left out"):

- a nil schema with inputs (`NilSchema`);
- an array schema without `items`;
- a non-string element in a list output;
- missing build information (`NoBuildInfo`);
- a nil prediction (`NilPrediction`).

`os.Exit(1)` in `init` and `clone` is modelled as returning the error.

Where the tests disagree with the code, the code is modelled. `TestExpectations` shows
each disagreement as a lemma about the model:

- the code decodes an array input into a list of strings, so `[1,2,3]` is rejected for
  an integer array;
- without a schema the code dereferences nil instead of guessing types.

`prediction/create.go` passes a client to `ParseInputs`, whose version in `optparse.go`
takes none; the model follows `optparse.go`.

Modules: `Wrappers` (Option, Result), `Strings` (the `strings` and `path/filepath`
functions used), `StrConv` (`Atoi`, `ParseFloat`, `ParseBool`), `Json`, `Files`,
`Replicate` (client-library values), `ModelIdentifier`, `Schema`, `OptParse`,
`Download`, `PredictionCreate`, `ModelList`, `DeploymentUpdate`, `Auth`,
`BuildVersion`, `StatusDisplay`, `Starter` (shared by the three starter commands),
`Scaffold`, `InitCmd`, `CloneCmd`, `TestExpectations`.

## Model

| member | source | states |
|---|---|---|
| ModelIdentifier.ParseIdentifier | internal/identifier/identifier.go:21-43 | fails exactly when the text has not exactly one '/' or its part after '/' has more than one ':'; on success the parts contain no separators and the text is `owner/name:version` or, with an empty version, `owner/name` |
| ModelIdentifier.Validate | internal/identifier/identifier.go:53-61 | succeeds iff owner and name are non-empty; the owner is checked first |
| ModelIdentifier.String | internal/identifier/identifier.go:45-51 | the text starts with `owner/name`; it is exactly that without a version, and otherwise ends in `:` and the version |
| ModelIdentifier.ParseThenRender | internal/identifier/identifier.go:21-51 | rendering a parsed identifier gives back the text exactly unless the text ends in ':' (an empty version is dropped) |
| ModelIdentifier.RenderThenParse | internal/identifier/identifier.go:21-51 | parsing the rendering of an identifier whose parts hold no separators returns the identifier |
| ModelIdentifier.SlashAlone | internal/identifier/identifier.go:26-42 | "/" parses to an identifier with empty owner and name (no validation in the parser) |
| ModelIdentifier.RejectedExamples | internal/identifier/identifier.go:26-35 | "", "a", "a/b/c" and "a/b:c:d" are rejected |
| Schema.GetSchemas | internal/util/schema.go:14-30 | a serialisation or load failure is reported as such; otherwise input and output schemas are the `Input` and `Output` components, absent when missing |
| Schema.XOrder | internal/util/schema.go:46-59 | a numeric `x-order` extension is the key's rank; anything else ranks at 2^63, the float64 value of 2^63-1 |
| Schema.SortedKeys | internal/util/schema.go:33-43 | the result lists every property exactly once and is ordered by `x-order` |
| Schema.InsertKeepsOrder | internal/util/schema.go:38-40 | inserting a key after all keys of no greater rank keeps the list ordered and duplicate-free |
| Schema.ExplicitOrderFirst | internal/util/schema.go:46-58 | a property with an explicit order below 2^63 comes before every property without `x-order` |
| Schema.StringArray | internal/util/schema.go:92-95 | decoding into `[]string` accepts `null` as the empty list and an array of strings and nulls as those strings (a `null` element as the empty string), and rejects anything else |
| Schema.Coerce | internal/util/schema.go:81-109 | only the five known types coerce, an array type gives an array value, and text that does not decode to strings and nulls is the not-an-array error |
| Schema.CoerceItemsOk | internal/util/schema.go:97-105 | the items coerce iff each element coerces under the item schema; the result is the element-wise coercion |
| Schema.CoerceItemsFirstFailure | internal/util/schema.go:98-102 | a failure reports the first element that fails to coerce, with its error |
| Schema.CoercedConforms | internal/util/schema.go:81-109 | every successfully coerced value has the shape its schema's type names |
| Schema.StringsUnchanged | internal/util/schema.go:89-90 | a string-typed input is kept as it is |
| Schema.UnknownTypeFails | internal/util/schema.go:106-107 | any other type name is an `unknown type` error |
| Schema.CoerceType | internal/util/schema.go:81-109 | the method computes the coercion of one input under one schema |
| Schema.PrependNothing | internal/util/schema.go:97-104 | prepending no values leaves a partial array result unchanged |
| Schema.PrependOne | internal/util/schema.go:97-104 | appending coerced items one at a time equals prepending them at once |
| Schema.CoerceTypes | internal/util/schema.go:62-78 | without a schema only empty inputs succeed; with one, success iff every key is a property and its value coerces; the result has the input keys and each key's coerced value; a failure names an unknown key or a key whose value failed |
| StrConv.Atoi | internal/util/schema.go:83-84 | accepts exactly an optionally signed decimal integer within 64 bits and returns its value |
| StrConv.ParseFloat | internal/util/schema.go:85-86 | errors carry the function name and input; NaN is returned exactly for a case-insensitive "nan" |
| StrConv.ParseBool | internal/util/schema.go:87-88 | true for 1, t, T, TRUE, true, True; false for 0, f, F, FALSE, false, False; an error otherwise |
| StrConv.AtoiIsFloat | internal/util/util_test.go:281-292 | every integer `Atoi` accepts, `ParseFloat` reads as the same number |
| StrConv.ParseFloatDecimals | internal/util/util_test.go:282-291 | "1.0" and "1.00" read as 1 |
| StrConv.ParseBoolExamples | internal/util/util_test.go:295-321 | the boolean spellings accepted and rejected |
| OptParse.CloseAt | internal/util/optparse.go:17 | a template closes at the first "}}" after it, with no newline in between; when none is found, every later "}}" has a newline before it |
| OptParse.NoTemplatesIffNoneOpen | internal/util/optparse.go:17-35 | no match is found from a position exactly when no "{{" at or after it is closed on its line |
| OptParse.FirstTemplateLeftmost | internal/util/optparse.go:17-35 | the first match is the leftmost template that opens and closes, and the search resumes after its "}}" |
| OptParse.TemplatesFrom | internal/util/optparse.go:17-39 | every template found is `{{` + its inner text + `}}`, the inner text holding no newline |
| OptParse.NoBracesNoTemplates | internal/util/optparse.go:35-39 | text without "{{" holds no templates |
| OptParse.PathOf | internal/util/optparse.go:41-44 | the JSONPath is the trimmed inner text, with '$' prefixed unless already there |
| OptParse.StdinDocument | internal/util/optparse.go:26-32 | empty standard input is no document; otherwise it must decode to a JSON object or null |
| OptParse.ParseArg | internal/util/optparse.go:21-24 | an argument without the separator is an invalid input; the key is the text before the first separator |
| OptParse.Resolve | internal/util/optparse.go:19-69 | no arguments leave the map as it is; entries are never removed |
| OptParse.ResolveFailsFirst | internal/util/optparse.go:19-69 | a failure is the error of the first argument that fails, every earlier one resolving |
| OptParse.ParseInputs | internal/util/optparse.go:16-70 | the loop computes the fold of the arguments over an empty map |
| OptParse.ResolveArgument | internal/util/optparse.go:21-66 | the body of the argument loop, with its template loop, computes one argument's key and final value |
| OptParse.ResolveKeys | internal/util/optparse.go:66 | on success the keys are those of the initial map and the argument keys |
| OptParse.ParseInputsKeys | internal/util/optparse.go:19-69 | on success the keys are exactly the arguments' keys |
| OptParse.LastWriteWins | internal/util/optparse.go:66 | a key's value comes from its last argument |
| OptParse.KeptUnlessOverwritten | internal/util/optparse.go:66 | an existing entry no argument names is unchanged |
| OptParse.NoArguments | internal/util/optparse.go:19-20 | no arguments give an empty map |
| OptParse.BadStdinFails | internal/util/optparse.go:27-31 | with an argument, undecodable standard input fails |
| OptParse.PlainValueUnchanged | internal/util/optparse.go:35-66 | a value without templates or '@' is stored as given |
| OptParse.CutAtFirst | internal/util/optparse.go:21 | the key is the argument's text before the first separator |
| OptParse.UploadAfterFill | internal/util/optparse.go:35-64 | `@{{.f}}` becomes '@' followed by the looked-up value before the upload step sees it |
| Download.Guard | internal/util/download.go:19-33 | the four preconditions are checked in order: empty ID, unfinished, empty output, empty directory |
| Download.StringsOf | internal/util/download.go:42-45 | the list output's elements, taken as strings, in order |
| Download.ScheduledCount | internal/util/download.go:49-58 | downloads are scheduled up to the first URL that does not parse |
| Download.CollectStrings | internal/util/download.go:40-45 | succeeds iff every element is a string, and returns them |
| Download.Schedule | internal/util/download.go:49-58 | the scheduled URLs are the longest parsing prefix |
| Download.RunFetches | internal/util/download.go:60-82 | files are written by the fetches in turn; it fails iff some fetch fails, reporting one of those failures |
| Download.DownloadPrediction | internal/util/download.go:18-91 | a failed guard changes nothing; otherwise the directory is created and either `output.json` is written with the marshalled output or the scheduled URLs are fetched into the directory |
| Download.SameBaseSameFile | internal/util/download.go:67-68 | two URLs with the same path base go to the same file |
| Download.FetchesTouchOnlyTargets | internal/util/download.go:67-76 | a file that no successful fetch targets is unchanged |
| Download.LastFetchWins | internal/util/download.go:67-76 | a fetched file holds the body of the last successful fetch targeting it |
| PredictionCreate.ShouldWait | internal/cmd/prediction/create.go:81 | waiting is off exactly when only `--no-wait` is given |
| PredictionCreate.CanStream | internal/cmd/prediction/create.go:83-87 | streaming is possible iff the output is an array of strings marked iterator and concatenate; an array without items is the nil dereference |
| PredictionCreate.ShouldStream | internal/cmd/prediction/create.go:88-89 | streaming holds exactly when the output can stream, `--wait` is not given, and `--stream` is given or `--no-stream` is not; `--no-stream` alone turns it off, `--stream` alone on |
| PredictionCreate.PrepareRequest | internal/cmd/prediction/create.go:30-89 | the stages fail in order with their own errors: an invalid model, then the inputs, then the schemas of the looked-up version, then coercion and streaming as `CoerceOutcome` states; on success the request holds the parsed identifier, the looked-up version and inputs with exactly the argument keys; without a version there are no arguments, no output schema and no inputs |
| PredictionCreate.CoerceAndDecide | internal/cmd/prediction/create.go:76-89 | coercion fails exactly when the inputs do not coerce (the nil schema when there is none, otherwise with an input to blame); after it the items error exactly when the output cannot stream; a request holds each input's coercion, which conforms to its property, and the stream flag `ShouldStream` decides |
| PredictionCreate.AllConform | internal/cmd/prediction/create.go:76-79 | inputs coerced under a schema all conform to their properties |
| PredictionCreate.NoKeysNoArguments | internal/cmd/prediction/create.go:62 | there are no input keys iff there are no input arguments |
| PredictionCreate.CreatePrediction | internal/cmd/prediction/create.go:92-106 | a pinned version calls only the version endpoint; otherwise the model endpoint, falling back to the latest version's endpoint only after a failure; the last call's result is the outcome |
| PredictionCreate.FallbackOnlyAfterFailure | internal/cmd/prediction/create.go:93-100 | no second call when a version is pinned or the model call succeeds |
| PredictionCreate.Dispatch | internal/cmd/prediction/create.go:109-301 | each path is chosen exactly under its condition: JSON or a non-terminal prints the stream (as JSON or plain) or the prediction; `--web` on a terminal opens the page; otherwise a stream is shown interactively, or the wait runs with a progress bar, or nothing more happens |
| PredictionCreate.JsonModeNeverSaves | internal/cmd/prediction/create.go:111-165 | the non-interactive paths never reach the saving code |
| PredictionCreate.WebURL | internal/cmd/prediction/create.go:167 | the page is `https://replicate.com/p/` followed by the prediction ID |
| PredictionCreate.CreatedMessage | internal/cmd/prediction/create.go:167-170 | the creation message is shown exactly on a terminal, without `--json` and without a stream |
| PredictionCreate.NonEmptyOutputs | internal/cmd/prediction/create.go:120-127 | the JSON stream keeps only non-empty output data |
| PredictionCreate.QuoteAll | internal/cmd/prediction/create.go:129-134 | each kept datum is JSON-quoted |
| PredictionCreate.StreamAsJson | internal/cmd/prediction/create.go:115-136 | prints '[' then the quoted output data separated by ", " then ']' |
| PredictionCreate.StreamAsText | internal/cmd/prediction/create.go:137-146 | prints the output data concatenated, then a newline |
| PredictionCreate.SameTextBothModes | internal/cmd/prediction/create.go:120-144 | dropping empty data does not change the concatenated text |
| PredictionCreate.StopIndex | internal/cmd/prediction/create.go:189-214 | the loop stops at the first closed channel, stream error or done event |
| PredictionCreate.StreamOutcome | internal/cmd/prediction/create.go:208-213 | the stream fails exactly when it stops on an error, with that error |
| PredictionCreate.OutputDir | internal/cmd/prediction/create.go:217-222 | `--output-directory` when given, otherwise `./` followed by the prediction ID |
| PredictionCreate.StreamInteractively | internal/cmd/prediction/create.go:185-239 | prints the output tokens received before the stop; with `--save` and at least one event, the directory `--output-directory` (or `./<id>`) made absolute exists and its `output.txt` holds exactly what was printed; otherwise nothing is written |
| PredictionCreate.Banner | internal/cmd/prediction/create.go:262-281 | a banner is shown exactly for a terminated status: ✅ Succeeded, ❌ Failed or 🚫 Canceled |
| PredictionCreate.FinishWait | internal/cmd/prediction/create.go:258-300 | a wait error is returned; only a succeeded prediction with `--save` touches the filesystem, and then the directory `--output-directory` (or `./<id>`) made absolute is saved into exactly as `DownloadPrediction` states, each of its errors wrapped as a save failure |
| ModelList.ListingString | internal/util/explore.go:36-38 | `username/name` |
| ModelList.QuoteChar | internal/cmd/model/list.go:80 | regex metacharacters are escaped with a backslash, others kept |
| ModelList.QuoteMeta | internal/cmd/model/list.go:80 | quoting at most doubles the length and never starts with a bare '*' |
| ModelList.PatternIsTranslation | internal/cmd/model/list.go:80 | the pattern is '^' followed by the filter with each '*' turned into ".*" and everything else escaped |
| ModelList.EscapedStarsReplaced | internal/cmd/model/list.go:80 | replacing escaped stars in the quoted filter gives that translation |
| ModelList.TranslationMatchesGlob | internal/cmd/model/list.go:80-81 | the translated regex matches a text iff the filter, as a glob with '*', matches it |
| ModelList.FilterIsPrefixGlob | internal/cmd/model/list.go:80-88 | a listing is kept iff some prefix of its name matches the glob |
| ModelList.LiteralGlob | internal/cmd/model/list.go:80 | a glob without '*' matches only itself |
| ModelList.LiteralFilterIsPrefix | internal/cmd/model/list.go:80-88 | a filter without '*' keeps exactly the names it prefixes |
| ModelList.EmptyFilterKeepsAll | internal/cmd/model/list.go:80-88 | the empty filter keeps every listing |
| ModelList.KeptIsMatchingSubsequence | internal/cmd/model/list.go:86-91 | the kept listings are, in order, exactly the listings whose name matches |
| ModelList.FilterModels | internal/cmd/model/list.go:86-92 | the loop computes the kept listings |
| ModelList.Rows | internal/cmd/model/list.go:101-109 | one row per listing: name, description, latest version date |
| ModelList.ListModels | internal/cmd/model/list.go:57-136 | JSON for `--json` or a non-terminal; otherwise a table with one row per listing (all, or the ones the filter keeps), in order, each row holding the listing's `owner/name`, description and latest version date |
| DeploymentUpdate.QualifyName | internal/cmd/deployment/update.go:29-36 | a name with '/' is kept; otherwise it is qualified by the account's username, or the account lookup's error is returned |
| DeploymentUpdate.DeploymentId | internal/cmd/deployment/update.go:37-40 | the qualified name parsed as an identifier, or an invalid-deployment error naming it |
| DeploymentUpdate.BareNameGetsAccount | internal/cmd/deployment/update.go:29-40 | a bare name becomes the identifier with the account as owner and that name |
| DeploymentUpdate.TwoSlashesRejected | internal/cmd/deployment/update.go:37-40 | a name with two slashes is an invalid deployment |
| DeploymentUpdate.ExtractVersion | internal/cmd/deployment/update.go:46-57 | a value with ':' must parse as a model reference and yields its version; any other value is used as given |
| DeploymentUpdate.VersionOfReference | internal/cmd/deployment/update.go:49-54 | `owner/name:version` yields `version` |
| DeploymentUpdate.OwnerlessReferenceRejected | internal/cmd/deployment/update.go:49-53 | `name:version` without an owner is an invalid model version |
| DeploymentUpdate.BuildOptions | internal/cmd/deployment/update.go:42-74 | a field is set iff its flag was given, with the flag's value (the version extracted); a bad version fails |
| DeploymentUpdate.PrepareUpdate | internal/cmd/deployment/update.go:29-74 | the identifier is resolved before the options and its error comes first; an invalid `--version` is the next and only other error; the options set exactly the given flags, the version as extracted from the flag |
| DeploymentUpdate.DeploymentURL | internal/cmd/deployment/update.go:90 | `https://replicate.com/deployments/` followed by `owner/name` |
| DeploymentUpdate.AfterUpdate | internal/cmd/deployment/update.go:81-104 | JSON iff `--json` or a non-terminal; the browser iff `--web` on a terminal; otherwise `Deployment updated: <url>` |
| Auth.GetAPIBaseURL | internal/config/auth.go:36-43 | the environment variable when set, even to "", else the default URL |
| Auth.HostKey | internal/config/auth.go:45-53 | an empty host means the default URL; the key is the URL's host name, and a parse failure is an invalid host |
| Auth.Stored | internal/config/auth.go:64-72 | a decoding failure is a parse error; an empty document is an empty table |
| Auth.TokenForKey | internal/config/auth.go:55-79 | "" for a missing file, an empty document or a missing host; otherwise the stored token |
| Auth.GetToken | internal/config/auth.go:45-80 | the host's key, then its token in the file |
| Auth.NewContent | internal/config/auth.go:108-128 | the stored table (empty for a new file) with the host's entry set, encoded; each failure is reported |
| Auth.SetToken | internal/config/auth.go:86-136 | a bad host changes nothing; a missing file is created with its directory; on success the file holds the new content; on failure only the created empty file remains |
| Auth.SetThenGet | internal/config/auth.go:55-136 | after a successful set, reading the same host yields the token just set |
| Auth.SetKeepsOthers | internal/config/auth.go:55-136 | a set leaves every other host's token as it was |
| Auth.SameHostnameSameEntry | internal/config/auth.go:142-148 | two URLs with the same host name read the same token |
| Auth.EmptyHostIsDefault | internal/config/auth.go:45-94 | an empty host reads and writes the default URL's entry |
| BuildVersion.StripNonAlnum | internal/cmd/version.go:13-33 | keeps exactly the ASCII letters and digits |
| BuildVersion.Commit | internal/cmd/version.go:24-26 | the commit is empty or seven characters long |
| BuildVersion.Timestamp | internal/cmd/version.go:32-34 | the timestamp holds only letters and digits |
| BuildVersion.Decorated | internal/cmd/version.go:37-41 | a modified build with a timestamp gets `+timestamp`, else a known commit gets `+commit`, else the bare development version |
| BuildVersion.ReadSettings | internal/cmd/version.go:23-35 | the loop computes the commit, timestamp and modified flag of the settings |
| BuildVersion.Globals.Version | internal/cmd/version.go:15-45 | a linked version is returned unchanged; otherwise the decorated version is returned while the bare development version is stored |
| BuildVersion.Globals.StableVersion | internal/cmd/version.go:15-45 | as `Version`, but the value stored is the value returned |
| BuildVersion.VersionTwice | internal/cmd/version.go:15-45 | two calls on a clean build return different strings |
| BuildVersion.StableVersionTwice | internal/cmd/version.go:15-45 | two calls of the corrected function return the same string |
| BuildVersion.TimestampLastWins | internal/cmd/version.go:32-34 | the last `vcs.time` setting decides the timestamp; other settings do not affect it |
| BuildVersion.ShortRevisionIgnored | internal/cmd/version.go:24 | a revision shorter than seven characters is ignored |
| BuildVersion.StripAppend | internal/cmd/version.go:33 | stripping distributes over concatenation |
| StatusDisplay.StatusSymbol | internal/util/status.go:5-20 | one coloured circle per known status; any other status is shown as itself |
| StatusDisplay.SymbolsDistinguishStatuses | internal/util/status.go:5-20 | the five known statuses get five distinct symbols, none of them a status name |
| Starter.FromQuery | internal/cmd/scaffold.go:92-105 | the `prediction` query parameter when non-empty; URL errors, query errors (strict parsing only) and a missing parameter are reported |
| Starter.ParsePredictionId | internal/cmd/scaffold.go:67-110 | text without '/' is the ID; a page or API URL gives its last path segment; other text mentioning `replicate.com` goes to the query; anything else is an invalid format |
| Starter.LongerMentionImplied | internal/cmd/scaffold.go:92 | the second test of the condition adds nothing |
| Starter.URLRoundTrip | internal/cmd/scaffold.go:73-89 | each of the four URL forms followed by an ID gives back the ID |
| Starter.TrailingSlashGivesEmptyId | internal/cmd/scaffold.go:74-79 | a page or API URL ending in '/' gives the empty ID, not an error |
| Starter.HttpPageFallsThrough | internal/cmd/scaffold.go:74-105 | an `http://` page URL is not recognised as a page and is read from its query |
| Starter.StrictLenientDiffer | internal/cmd/clone/root.go:100 | strict and lenient parsing differ only when the query does not parse, and then the strict one reports it |
| Starter.Directory | internal/cmd/scaffold.go:42-47 | the second argument when given, otherwise the prediction ID |
| Starter.ModelStringParses | internal/cmd/scaffold.go:152 | the written model string parses back as `owner/name:version` |
| Starter.Populate | internal/cmd/scaffold.go:152-157 | a template without `{` is left as it is |
| Starter.PopulateTemplate | internal/cmd/scaffold.go:152-157 | a template with the two placeholders gets the model string and the inputs in their places |
| Starter.SecondPassFillsFirst | internal/cmd/scaffold.go:155-157 | a model string that is itself the inputs placeholder is replaced by the inputs in the second pass |
| Scaffold.SelectTemplate | internal/cmd/scaffold.go:49-58 | node, nodejs, js and "" choose Node; python chooses Python; anything else is unsupported |
| Scaffold.Run | internal/cmd/scaffold.go:20-161 | a missing token, a bad reference, a failed fetch, an unsupported template name and an unreadable template file are errors, in that order; when none occurs the run succeeds, and the file is the chosen template's output file in the directory, holding the template populated with the prediction's model string and inputs; never a nil prediction |
| Scaffold.ScaffoldFromPage | internal/cmd/scaffold.go:33-161 | a page URL with the default template writes `index.js` in a directory named after the ID |
| InitCmd.SelectTemplate | internal/cmd/init/root.go:55-62 | only node, "" and python are accepted; nodejs and js, which scaffold accepts, are rejected |
| InitCmd.RunAsWritten | internal/cmd/init/root.go:20-166 | as scaffold, with the narrower template choice: an unsupported template and an unreadable template file are errors; after them a missing prediction is the nil dereference and a fetched one a success; a failed fetch is never reported as such |
| InitCmd.MissingPredictionPanics | internal/cmd/init/root.go:50-157 | when the fetch fails but template and file are fine, the run reaches the nil prediction |
| InitCmd.Run | internal/cmd/init/root.go:50-53 | the corrected command returns the fetch failure and otherwise behaves as written; never a nil prediction |
| CloneCmd.ModelStringOf | internal/cmd/clone/root.go:55-58 | "" without a prediction, otherwise `model:version` |
| CloneCmd.RunAsWritten | internal/cmd/clone/root.go:20-146 | lenient parsing, the init template choice (an unsupported name is an error), and for both templates `prediction.py.template` read (its failure an error) and `prediction.py` written in the directory, holding the template filled with the fetched prediction's `model:version` and inputs; a missing prediction is the nil dereference, a fetched one a success; a failed fetch is never reported as such |
| CloneCmd.EmptyModelStringNeverWritten | internal/cmd/clone/root.go:55-138 | every successful run had a prediction, so the written model string is never the empty one |
| CloneCmd.MissingPredictionPanics | internal/cmd/clone/root.go:50-138 | when the fetch fails but template and file are fine, the run reaches the nil prediction |
| CloneCmd.Run | internal/cmd/clone/root.go:50-53 | the corrected command returns the fetch failure and otherwise behaves as written |
| TestExpectations.NumericArrayRejected | internal/util/util_test.go:252-265 | `[1,2,3]` for an integer array is rejected, since the code decodes into strings |
| TestExpectations.QuotedIntegersAccepted | internal/util/schema.go:91-105 | `["1","2"]` for an integer array coerces to 1 and 2 |
| TestExpectations.SchemaLessInput | internal/util/util_test.go:280-292 | without a schema, `foo=1` is the nil-schema failure, not the number 1 |
| TestExpectations.SchemaLessEmpty | internal/util/schema.go:62-78 | without a schema and without inputs the result is the empty map |

## Left out

- Network calls, JSON, YAML, JSONPath, URL parsing, uploads and file reads are parameters. `url.ParseRequestURI` and `http.NewRequest` failing are one parse outcome.
- Download.RunFetches: the fetches run concurrently; the model runs them in order, so when two fetches target the same file, the later one wins. Which error `errgroup` reports first is also not modelled.
- Download.DownloadPrediction: the directory and write errors of the filesystem are not modelled. Only a missing file is distinguished.
- Auth.SetToken: directory creation, file creation and write failures are not modelled. The hosts file's location (the XDG and home lookups) is not modelled either.
- StrConv.ParseFloat: float64 rounding, the range error, hexadecimal floats and negative zero are not modelled. Finite values are exact reals.
- StrConv.Atoi: the kinds of `NumError` (syntax and range) are not distinguished.
- Schema.SortedKeys: `sort.Slice` is not stable and its order among equal ranks is unspecified. The model inserts in map-iteration order and promises only the ordering by rank.
- Schema.GetSchemas: a schema reference with a nil value is not modelled.
- `GetPipedArgs`, `upload.go` and `stream.go` are not part of this model.
- Progress-bar updates and the polling inside the wait are not modelled. The wait is its final error and prediction.
- The spinner, the browser, the terminal UI of `model list` and `regexp.Compile` errors are not modelled. The pattern is always a valid regex.
- Scaffold.Run, InitCmd.Run and CloneCmd.Run: the subprocess steps (git clone, npm or virtualenv install, the `.env` line, running the example) are not modelled, nor are `chdir` and their failures. The model covers the decisions before them and the file written.
- InitCmd.RunAsWritten: the ignored client-creation error is not modelled.
- CloneCmd.RunAsWritten: the ignored client-creation error is not modelled.
- Scaffold.Run: the error of `replicate.NewClient`, which the command returns, is not modelled. The client is taken to be created.
- PredictionCreate.StreamInteractively: the failures of `filepath.Abs`, `os.MkdirAll` and `os.WriteFile` when saving `output.txt` are not modelled. The directory and the file are always written.
- PredictionCreate.FinishWait: the failure of `filepath.Abs` is not modelled. Beyond the status banner (`Banner`), the printing of the result (internal/cmd/prediction/create.go:262-279) is not modelled, so neither is the nil dereference of `Logs` for a failed prediction without logs (line 272) nor the `json.MarshalIndent` errors.
- Files.JoinPath: `filepath.Join` also cleans the path. The model only concatenates with one "/", so a directory ending in "/" gives a double slash, and a base name ".", ".." or "/" is not folded away.
- Download.DownloadPrediction: for a URL whose path has base name ".", ".." or "/", `filepath.Join` names the directory itself or its parent and `os.Create` fails; the model instead writes a file under that literal name in the directory and reports success.
- Writing the JSON output of `prediction create` and `deployment update` (marshalling) is not modelled. Only the choice to print it is.
- `client.go` (client construction and token lookup order) is not part of this model.

## Findings

| source | as written | input that shows it | evidently intended | confidence | as-written member | corrected member |
|---|---|---|---|---|---|---|
| internal/cmd/version.go:16-17 | the first call stores `0.0.0-dev` in `version` and returns the decorated string; later calls return the bare `0.0.0-dev` | a build without a linked version whose settings have a seven-character `vcs.revision`, `Version()` called twice | every call returns the same string | not executed | BuildVersion.VersionTwice | BuildVersion.StableVersionTwice |
| internal/cmd/init/root.go:50-53 | a failed fetch is printed but not returned; the prediction is then dereferenced at line 157 | an unknown prediction ID with a valid token and template | return the fetch error, as scaffold does | not executed | InitCmd.MissingPredictionPanics | InitCmd.Run |
| internal/cmd/clone/root.go:50-53 | a failed fetch is printed but not returned; the prediction's input is then dereferenced at line 138 | an unknown prediction ID with a valid token and template | return the fetch error | not executed | CloneCmd.MissingPredictionPanics | CloneCmd.Run |
