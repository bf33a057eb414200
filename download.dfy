/**
 * Saving a prediction's output to a directory (internal/util/download.go
 * `DownloadPrediction`): a list of URLs becomes one downloaded file per URL,
 * anything else one `output.json`.
 */
module Download {
  import opened Wrappers
  import opened Strings
  import opened Json
  import opened Replicate
  import opened Files

  /** Why saving failed. `ElementNotAString` stands for the failed type assertion, a panic in the source. */
  datatype DownloadError =
    | EmptyId
    | NotFinished
    | EmptyOutput
    | EmptyDirectory
    | ElementNotAString
    | FetchFailed(url: string, reason: string)

  /** The guards, checked in this order before anything touches the file system. */
  function Guard(p: Prediction, dir: string): (r: Option<DownloadError>)
    ensures r.None? <==> p.id != "" && p.status == Succeeded && !p.output.Null? && dir != ""
    ensures p.id == "" ==> r == Some(EmptyId)
    ensures r == Some(NotFinished) <==> p.id != "" && p.status != Succeeded
    ensures r == Some(EmptyOutput) <==> p.id != "" && p.status == Succeeded && p.output.Null?
    ensures r == Some(EmptyDirectory) <==> p.id != "" && p.status == Succeeded && !p.output.Null? && dir == ""
  {
    if p.id == "" then Some(EmptyId)
    else if p.status != Succeeded then Some(NotFinished)
    else if p.output.Null? then Some(EmptyOutput)
    else if dir == "" then Some(EmptyDirectory)
    else None
  }

  predicate AllStrings(items: seq<Json>)
  {
    forall i :: 0 <= i < |items| ==> items[i].Str?
  }

  function StringsOf(items: seq<Json>): (strs: seq<string>)
    requires AllStrings(items)
    ensures |strs| == |items| && forall i :: 0 <= i < |items| ==> strs[i] == items[i].s
  {
    seq(|items|, i requires 0 <= i < |items| => items[i].s)
  }

  /**
   * How many leading URLs get scheduled: all of them up to the first that
   * `url.ParseRequestURI` (or building the request) rejects.
   */
  function ScheduledCount(urls: seq<string>, parse: string -> Option<string>): (n: nat)
    ensures n <= |urls|
    ensures forall i :: 0 <= i < n ==> parse(urls[i]).Some?
    ensures n < |urls| ==> parse(urls[n]).None?
  {
    if urls == [] || parse(urls[0]).None? then 0 else 1 + ScheduledCount(urls[1..], parse)
  }

  /** The file a scheduled URL is saved to: the base name of its path, in `dir`. */
  function Target(dir: string, url: string, parse: string -> Option<string>): string
    requires parse(url).Some?
  {
    JoinPath(dir, Base(parse(url).value))
  }

  /** The files once the scheduled downloads have run in order; a failed one writes nothing. */
  function AfterFetches(
    files: map<string, string>, dir: string, urls: seq<string>,
    parse: string -> Option<string>, fetch: string -> Result<string, string>): map<string, string>
    requires forall i :: 0 <= i < |urls| ==> parse(urls[i]).Some?
    decreases |urls|
  {
    if urls == [] then files
    else
      var next := if fetch(urls[0]).Ok? then files[Target(dir, urls[0], parse) := fetch(urls[0]).value] else files;
      AfterFetches(next, dir, urls[1..], parse, fetch)
  }

  /**
   * `DownloadPrediction` with the downloads run one after another. `parse` gives the
   * path of a URL (None when it is rejected), `fetch` the body at a URL and `marshal`
   * the JSON text of the output.
   */
  method DownloadPrediction(
    p: Prediction, dir: string,
    parse: string -> Option<string>, fetch: string -> Result<string, string>, marshal: Json -> string,
    ws: Workspace) returns (r: Result<(), DownloadError>)
    modifies ws
    ensures Guard(p, dir).Some? ==>
      r == Err(Guard(p, dir).value) && ws.files == old(ws.files) && ws.dirs == old(ws.dirs)
    ensures Guard(p, dir).None? ==> ws.dirs == old(ws.dirs) + {dir}
    ensures Guard(p, dir).None? && !p.output.Array? ==>
      r == Ok(()) && ws.files == old(ws.files)[JoinPath(dir, "output.json") := marshal(p.output)]
    ensures Guard(p, dir).None? && p.output.Array? && !AllStrings(p.output.items) ==>
      r == Err(ElementNotAString) && ws.files == old(ws.files)
    ensures Guard(p, dir).None? && p.output.Array? && AllStrings(p.output.items) ==>
      var strs := StringsOf(p.output.items);
      var urls := strs[..ScheduledCount(strs, parse)];
      ws.files == AfterFetches(old(ws.files), dir, urls, parse, fetch)
      && (r.Err? <==> exists i :: 0 <= i < |urls| && fetch(urls[i]).Err?)
      && (r.Err? ==> exists i :: 0 <= i < |urls| && fetch(urls[i]).Err? && r.error == FetchFailed(urls[i], fetch(urls[i]).error))
  {
    var guard := Guard(p, dir);
    if guard.Some? {
      return Err(guard.value);
    }
    ws.MkdirAll(dir);
    if !p.output.Array? {
      ws.WriteFile(JoinPath(dir, "output.json"), marshal(p.output));
      return Ok(());
    }
    var strs := CollectStrings(p.output.items);
    if strs.None? {
      return Err(ElementNotAString);
    }
    var scheduled := Schedule(strs.value, parse);
    var failure := RunFetches(scheduled, dir, parse, fetch, ws);
    if failure.Some? {
      return Err(failure.value);
    }
    return Ok(());
  }

  /** The loop that copies the output's elements into a list of strings, failing on a non-string. */
  method CollectStrings(items: seq<Json>) returns (r: Option<seq<string>>)
    ensures r.Some? <==> AllStrings(items)
    ensures r.Some? ==> r.value == StringsOf(items)
  {
    var strs: seq<string> := [];
    var i := 0;
    while i < |items|
      invariant 0 <= i <= |items|
      invariant AllStrings(items[..i])
      invariant |strs| == i && forall j :: 0 <= j < i ==> strs[j] == items[j].s
    {
      if !items[i].Str? {
        return None;
      }
      strs := strs + [items[i].s];
      i := i + 1;
    }
    assert items[..i] == items;
    return Some(strs);
  }

  /** The scheduling loop: it stops at the first URL that does not parse. */
  method Schedule(strs: seq<string>, parse: string -> Option<string>) returns (scheduled: seq<string>)
    ensures scheduled == strs[..ScheduledCount(strs, parse)]
  {
    scheduled := [];
    var i := 0;
    while i < |strs|
      invariant 0 <= i <= ScheduledCount(strs, parse)
      invariant scheduled == strs[..i]
    {
      if parse(strs[i]).None? {
        break;
      }
      scheduled := scheduled + [strs[i]];
      i := i + 1;
    }
  }

  /**
   * The scheduled downloads, run one after another: each successful one writes its
   * target file; the result is a failure exactly when some download failed.
   */
  method RunFetches(
    scheduled: seq<string>, dir: string,
    parse: string -> Option<string>, fetch: string -> Result<string, string>,
    ws: Workspace) returns (failure: Option<DownloadError>)
    requires forall i :: 0 <= i < |scheduled| ==> parse(scheduled[i]).Some?
    modifies ws
    ensures ws.files == AfterFetches(old(ws.files), dir, scheduled, parse, fetch)
    ensures ws.dirs == old(ws.dirs)
    ensures failure.Some? <==> exists i :: 0 <= i < |scheduled| && fetch(scheduled[i]).Err?
    ensures failure.Some? ==> exists i :: (0 <= i < |scheduled| && fetch(scheduled[i]).Err?
      && failure.value == FetchFailed(scheduled[i], fetch(scheduled[i]).error))
  {
    failure := None;
    var j := 0;
    while j < |scheduled|
      invariant 0 <= j <= |scheduled|
      invariant AfterFetches(old(ws.files), dir, scheduled, parse, fetch) == AfterFetches(ws.files, dir, scheduled[j..], parse, fetch)
      invariant failure.None? <==> forall k :: 0 <= k < j ==> fetch(scheduled[k]).Ok?
      invariant failure.Some? ==> exists k :: (0 <= k < j && fetch(scheduled[k]).Err?
        && failure.value == FetchFailed(scheduled[k], fetch(scheduled[k]).error))
      invariant ws.dirs == old(ws.dirs)
    {
      var url := scheduled[j];
      assert scheduled[j..][0] == url && scheduled[j..][1..] == scheduled[j + 1..];
      var body := fetch(url);
      if body.Ok? {
        ws.WriteFile(Target(dir, url, parse), body.value);
      } else if failure.None? {
        failure := Some(FetchFailed(url, body.error));
      }
      j := j + 1;
    }
    assert scheduled[j..] == [];
  }

  /** Two URLs whose paths have the same base name are saved to the same file. */
  lemma SameBaseSameFile(dir: string, u1: string, u2: string, parse: string -> Option<string>)
    requires parse(u1).Some? && parse(u2).Some?
    requires Base(parse(u1).value) == Base(parse(u2).value)
    ensures Target(dir, u1, parse) == Target(dir, u2, parse)
  {
  }

  /** Only downloads that were scheduled and succeeded change files, and only their targets. */
  lemma {:induction false} FetchesTouchOnlyTargets(
    files: map<string, string>, dir: string, urls: seq<string>,
    parse: string -> Option<string>, fetch: string -> Result<string, string>, path: string)
    requires forall i :: 0 <= i < |urls| ==> parse(urls[i]).Some?
    requires forall i :: 0 <= i < |urls| && fetch(urls[i]).Ok? ==> Target(dir, urls[i], parse) != path
    ensures path in AfterFetches(files, dir, urls, parse, fetch) <==> path in files
    ensures path in files ==> AfterFetches(files, dir, urls, parse, fetch)[path] == files[path]
    decreases |urls|
  {
    if urls != [] {
      var next := if fetch(urls[0]).Ok? then files[Target(dir, urls[0], parse) := fetch(urls[0]).value] else files;
      forall i | 0 <= i < |urls[1..]| && fetch(urls[1..][i]).Ok?
        ensures Target(dir, urls[1..][i], parse) != path
      {
        assert urls[1..][i] == urls[i + 1];
      }
      FetchesTouchOnlyTargets(next, dir, urls[1..], parse, fetch, path);
    }
  }

  /** The last successful download to a target decides its content. */
  lemma {:induction false} LastFetchWins(
    files: map<string, string>, dir: string, urls: seq<string>,
    parse: string -> Option<string>, fetch: string -> Result<string, string>, i: nat)
    requires forall k :: 0 <= k < |urls| ==> parse(urls[k]).Some?
    requires i < |urls| && fetch(urls[i]).Ok?
    requires forall k :: i < k < |urls| && fetch(urls[k]).Ok? ==> Target(dir, urls[k], parse) != Target(dir, urls[i], parse)
    ensures Target(dir, urls[i], parse) in AfterFetches(files, dir, urls, parse, fetch)
    ensures AfterFetches(files, dir, urls, parse, fetch)[Target(dir, urls[i], parse)] == fetch(urls[i]).value
    decreases |urls|
  {
    var next := if fetch(urls[0]).Ok? then files[Target(dir, urls[0], parse) := fetch(urls[0]).value] else files;
    if i == 0 {
      forall k | 0 <= k < |urls[1..]| && fetch(urls[1..][k]).Ok?
        ensures Target(dir, urls[1..][k], parse) != Target(dir, urls[0], parse)
      {
        assert urls[1..][k] == urls[k + 1];
      }
      FetchesTouchOnlyTargets(next, dir, urls[1..], parse, fetch, Target(dir, urls[0], parse));
    } else {
      forall k | i - 1 < k < |urls[1..]| && fetch(urls[1..][k]).Ok?
        ensures Target(dir, urls[1..][k], parse) != Target(dir, urls[1..][i - 1], parse)
      {
        assert urls[1..][k] == urls[k + 1];
      }
      LastFetchWins(next, dir, urls[1..], parse, fetch, i - 1);
      assert urls[1..][i - 1] == urls[i];
    }
  }
}
