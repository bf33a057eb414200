/**
 * The API base URL and the host-keyed token file (internal/config/auth.go). The
 * hosts file maps a host name to its token; hosts are keyed by the host name of
 * their URL, so any two URLs with the same host name share one entry.
 *
 * URL parsing (`url.Parse` followed by `Hostname()`) and the YAML codec are
 * parameters; the file lives in a `Files.Workspace`.
 */
module Auth {
  import opened Wrappers
  import opened Files

  const DefaultBaseURL: string := "https://api.replicate.com/v1/"

  /** `env` is `REPLICATE_BASE_URL`, None when unset; a set but empty value is used as it is. */
  function GetAPIBaseURL(env: Option<string>): (url: string)
    ensures env.Some? ==> url == env.value
    ensures env.None? ==> url == DefaultBaseURL
  {
    match env
    case Some(u) => u
    case None => DefaultBaseURL
  }

  datatype AuthError =
    | InvalidHost(reason: string)
    | ParseFailed(reason: string)
    | MarshalFailed(reason: string)

  /** A host table: host name to token. */
  type HostTable = map<string, string>

  /**
   * The key a host is stored under: the host name of the URL, the default URL
   * standing in for an empty one. `hostname` parses a URL and takes its host name.
   */
  function HostKey(host: string, hostname: string -> Result<string, string>): (r: Result<string, AuthError>)
    ensures host == "" ==> (r.Ok? <==> hostname(DefaultBaseURL).Ok?)
    ensures host == "" && r.Ok? ==> r.value == hostname(DefaultBaseURL).value
    ensures host != "" ==> (r.Ok? <==> hostname(host).Ok?)
    ensures host != "" && r.Ok? ==> r.value == hostname(host).value
    ensures r.Err? ==> r.error.InvalidHost?
  {
    var url := if host == "" then DefaultBaseURL else host;
    match hostname(url)
    case Err(e) => Err(InvalidHost(e))
    case Ok(h) => Ok(h)
  }

  /**
   * The decoded table of a file's content; a document that decodes to nothing is an
   * empty table. `decode` is the YAML decoder, giving None for an empty document.
   */
  function Stored(data: string, decode: string -> Result<Option<HostTable>, string>): (r: Result<HostTable, AuthError>)
    ensures decode(data).Err? <==> r.Err?
    ensures r.Err? ==> r == Err(ParseFailed(decode(data).error))
    ensures decode(data) == Ok(None) ==> r == Ok(map[])
    ensures decode(data).Ok? && decode(data).value.Some? ==> r == Ok(decode(data).value.value)
  {
    match decode(data)
    case Err(e) => Err(ParseFailed(e))
    case Ok(None) => Ok(map[])
    case Ok(Some(c)) => Ok(c)
  }

  /** The token stored under a key: "" for a missing file, an empty document or a missing entry. */
  function TokenForKey(
    files: map<string, string>, path: string, key: string,
    decode: string -> Result<Option<HostTable>, string>): (r: Result<string, AuthError>)
    ensures path !in files ==> r == Ok("")
    ensures path in files ==> (r.Err? <==> decode(files[path]).Err?)
    ensures path in files && decode(files[path]) == Ok(None) ==> r == Ok("")
    ensures path in files && decode(files[path]).Ok? && decode(files[path]).value.Some? ==>
      var c := decode(files[path]).value.value;
      r == Ok(if key in c then c[key] else "")
  {
    if path !in files then Ok("")
    else
      match Stored(files[path], decode)
      case Err(e) => Err(e)
      case Ok(c) => Ok(if key in c then c[key] else "")
  }

  /** `GetAPITokenForHost`: the host's key, then its entry in the file at `path`. */
  function GetToken(
    files: map<string, string>, path: string, host: string,
    hostname: string -> Result<string, string>,
    decode: string -> Result<Option<HostTable>, string>): (r: Result<string, AuthError>)
    ensures HostKey(host, hostname).Err? ==> r == Err(HostKey(host, hostname).error)
    ensures HostKey(host, hostname).Ok? ==> r == TokenForKey(files, path, HostKey(host, hostname).value, decode)
  {
    match HostKey(host, hostname)
    case Err(e) => Err(e)
    case Ok(key) => TokenForKey(files, path, key, decode)
  }

  /** What `SetAPITokenForHost` reads: the file's content, or the empty file it creates. */
  function Existing(files: map<string, string>, path: string): string
  {
    if path in files then files[path] else ""
  }

  /** The content `SetAPITokenForHost` writes, or the error that stops it. */
  function NewContent(
    files: map<string, string>, path: string, token: string, host: string,
    hostname: string -> Result<string, string>,
    decode: string -> Result<Option<HostTable>, string>,
    encode: HostTable -> Result<string, string>): (r: Result<string, AuthError>)
    ensures HostKey(host, hostname).Err? ==> r == Err(HostKey(host, hostname).error)
    ensures HostKey(host, hostname).Ok? && Stored(Existing(files, path), decode).Err? ==>
      r == Err(Stored(Existing(files, path), decode).error)
    ensures HostKey(host, hostname).Ok? && Stored(Existing(files, path), decode).Ok? ==>
      var updated := Stored(Existing(files, path), decode).value[HostKey(host, hostname).value := token];
      (r.Ok? <==> encode(updated).Ok?)
      && (r.Ok? ==> r.value == encode(updated).value)
      && (r.Err? ==> r.error == MarshalFailed(encode(updated).error))
  {
    match HostKey(host, hostname)
    case Err(e) => Err(e)
    case Ok(key) =>
      match Stored(Existing(files, path), decode)
      case Err(e) => Err(e)
      case Ok(c) =>
        match encode(c[key := token])
        case Err(e) => Err(MarshalFailed(e))
        case Ok(data) => Ok(data)
  }

  /**
   * `SetAPITokenForHost`: the file and its directory `dir` are created when missing,
   * then the table is read, the host's entry set, and the table written back.
   */
  method SetToken(
    ws: Workspace, path: string, dir: string, token: string, host: string,
    hostname: string -> Result<string, string>,
    decode: string -> Result<Option<HostTable>, string>,
    encode: HostTable -> Result<string, string>) returns (r: Result<(), AuthError>)
    modifies ws
    ensures HostKey(host, hostname).Err? ==> ws.files == old(ws.files) && ws.dirs == old(ws.dirs)
    ensures HostKey(host, hostname).Ok? ==>
      ws.dirs == old(ws.dirs) + (if path in old(ws.files) then {} else {dir})
    ensures var written := NewContent(old(ws.files), path, token, host, hostname, decode, encode);
      (r.Ok? <==> written.Ok?)
      && (r.Ok? ==> ws.files == old(ws.files)[path := written.value])
      && (r.Err? ==> r.error == written.error)
    ensures HostKey(host, hostname).Ok? && r.Err? ==>
      ws.files == old(ws.files)[path := Existing(old(ws.files), path)]
  {
    var key := HostKey(host, hostname);
    if key.Err? {
      return Err(key.error);
    }
    if path !in ws.files {
      ws.MkdirAll(dir);
      ws.WriteFile(path, "");
    }
    var data := ws.files[path];
    var stored := Stored(data, decode);
    if stored.Err? {
      return Err(stored.error);
    }
    var c := stored.value;
    c := c[key.value := token];
    var encoded := encode(c);
    if encoded.Err? {
      return Err(MarshalFailed(encoded.error));
    }
    ws.WriteFile(path, encoded.value);
    return Ok(());
  }

  /** The YAML codec reads back every table it writes. */
  ghost predicate RoundTrips(
    decode: string -> Result<Option<HostTable>, string>,
    encode: HostTable -> Result<string, string>)
  {
    forall m :: encode(m).Ok? ==> decode(encode(m).value) == Ok(Some(m))
  }

  /** After a successful set, getting the same host yields the token just set. */
  lemma SetThenGet(
    files: map<string, string>, path: string, token: string, host: string,
    hostname: string -> Result<string, string>,
    decode: string -> Result<Option<HostTable>, string>,
    encode: HostTable -> Result<string, string>)
    requires RoundTrips(decode, encode)
    requires NewContent(files, path, token, host, hostname, decode, encode).Ok?
    ensures GetToken(files[path := NewContent(files, path, token, host, hostname, decode, encode).value],
                     path, host, hostname, decode) == Ok(token)
  {
    var key := HostKey(host, hostname).value;
    var updated := Stored(Existing(files, path), decode).value[key := token];
    assert decode(encode(updated).value) == Ok(Some(updated));
  }

  /**
   * A set leaves every other host's token as it was. An empty document decodes to
   * nothing, so a missing file and a freshly created one read the same.
   */
  lemma SetKeepsOthers(
    files: map<string, string>, path: string, token: string, host: string, other: string,
    hostname: string -> Result<string, string>,
    decode: string -> Result<Option<HostTable>, string>,
    encode: HostTable -> Result<string, string>)
    requires RoundTrips(decode, encode) && decode("") == Ok(None)
    requires NewContent(files, path, token, host, hostname, decode, encode).Ok?
    requires HostKey(other, hostname).Ok? && HostKey(other, hostname) != HostKey(host, hostname)
    ensures GetToken(files[path := NewContent(files, path, token, host, hostname, decode, encode).value],
                     path, other, hostname, decode)
         == GetToken(files, path, other, hostname, decode)
  {
    var key := HostKey(host, hostname).value;
    var updated := Stored(Existing(files, path), decode).value[key := token];
    assert decode(encode(updated).value) == Ok(Some(updated));
  }

  /** Hosts with the same host name read the same entry. */
  lemma SameHostnameSameEntry(
    files: map<string, string>, path: string, h1: string, h2: string,
    hostname: string -> Result<string, string>,
    decode: string -> Result<Option<HostTable>, string>)
    requires h1 != "" && h2 != "" && hostname(h1).Ok? && hostname(h1) == hostname(h2)
    ensures GetToken(files, path, h1, hostname, decode) == GetToken(files, path, h2, hostname, decode)
  {
  }

  /** An empty host is the default API URL, for reading and writing alike. */
  lemma EmptyHostIsDefault(
    files: map<string, string>, path: string, token: string,
    hostname: string -> Result<string, string>,
    decode: string -> Result<Option<HostTable>, string>,
    encode: HostTable -> Result<string, string>)
    ensures GetToken(files, path, "", hostname, decode) == GetToken(files, path, DefaultBaseURL, hostname, decode)
    ensures NewContent(files, path, token, "", hostname, decode, encode)
         == NewContent(files, path, token, DefaultBaseURL, hostname, decode, encode)
  {
  }
}
