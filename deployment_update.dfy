/**
 * `replicate deployment update` (internal/cmd/deployment/update.go): qualifying the
 * deployment name, reading the model version from `--version`, and filling in only
 * the options whose flags were given.
 */
module DeploymentUpdate {
  import opened Wrappers
  import opened Strings
  import opened ModelIdentifier

  datatype UpdateError =
    | AccountFailed(reason: string)
    | InvalidDeployment(name: string)
    | InvalidModelVersion(value: string)

  /**
   * A name without '/' is taken to belong to the current account. `account` is the
   * result of asking for the account's username; it is only consulted for such names.
   */
  function QualifyName(name: string, account: Result<string, string>): (r: Result<string, UpdateError>)
    ensures '/' in name ==> r == Ok(name)
    ensures '/' !in name && account.Ok? ==> r == Ok(account.value + "/" + name)
    ensures '/' !in name && account.Err? ==> r == Err(AccountFailed(account.error))
  {
    if '/' in name then Ok(name)
    else if account.Err? then Err(AccountFailed(account.error))
    else Ok(account.value + "/" + name)
  }

  /** The deployment's identifier: the qualified name, parsed. */
  function DeploymentId(name: string, account: Result<string, string>): (r: Result<Identifier, UpdateError>)
    ensures QualifyName(name, account).Err? ==> r == Err(QualifyName(name, account).error)
    ensures QualifyName(name, account).Ok? ==>
      var q := QualifyName(name, account).value;
      (r.Ok? <==> ParseIdentifier(q).Ok?)
      && (r.Ok? ==> r.value == ParseIdentifier(q).value)
      && (r.Err? ==> r.error == InvalidDeployment(q))
  {
    match QualifyName(name, account)
    case Err(e) => Err(e)
    case Ok(q) =>
      match ParseIdentifier(q)
      case Err(_) => Err(InvalidDeployment(q))
      case Ok(id) => Ok(id)
  }

  /** A bare name gets the account's username as owner and keeps its own name. */
  lemma BareNameGetsAccount(name: string, user: string)
    requires '/' !in name && ':' !in name && '/' !in user
    ensures DeploymentId(name, Ok(user)) == Ok(Identifier(user, name, ""))
  {
    RenderThenParse(Identifier(user, name, ""));
  }

  /** A name with more than one '/' is an invalid deployment, whatever the account. */
  lemma TwoSlashesRejected(a: string, b: string, c: string, account: Result<string, string>)
    ensures DeploymentId(a + "/" + b + "/" + c, account) == Err(InvalidDeployment(a + "/" + b + "/" + c))
  {
    var s := a + "/" + b + "/" + c;
    CountCharAppend(a + "/" + b + "/", c, '/');
    CountCharAppend(a + "/" + b, "/", '/');
    CountCharAppend(a + "/", b, '/');
    CountCharAppend(a, "/", '/');
    assert s[|a|] == '/';
  }

  /**
   * The version to deploy from a `--version` value: a value with ':' must be a full
   * model reference `owner/name:version`, whose version part is used; any other value
   * is used as it is.
   */
  function ExtractVersion(value: string): (r: Result<string, UpdateError>)
    ensures ':' !in value ==> r == Ok(value)
    ensures ':' in value ==>
      (r.Ok? <==> ParseIdentifier(value).Ok?)
      && (r.Ok? ==> r.value == ParseIdentifier(value).value.version)
      && (r.Err? ==> r.error == InvalidModelVersion(value))
  {
    if ':' in value then
      match ParseIdentifier(value)
      case Err(_) => Err(InvalidModelVersion(value))
      case Ok(id) => Ok(id.version)
    else Ok(value)
  }

  /** A full reference yields its version part. */
  lemma VersionOfReference(owner: string, name: string, version: string)
    requires '/' !in owner && '/' !in name && ':' !in name
    requires version != "" && '/' !in version && ':' !in version
    ensures ExtractVersion(owner + "/" + name + ":" + version) == Ok(version)
  {
    var id := Identifier(owner, name, version);
    RenderThenParse(id);
    assert String(id)[|owner + "/" + name|] == ':';
  }

  /** A model reference without an owner (`name:version`) is rejected. */
  lemma OwnerlessReferenceRejected(name: string, version: string)
    requires '/' !in name && '/' !in version
    ensures ExtractVersion(name + ":" + version) == Err(InvalidModelVersion(name + ":" + version))
  {
    var s := name + ":" + version;
    assert s[|name|] == ':';
    CountCharAppend(name + ":", version, '/');
    CountCharAppend(name, ":", '/');
  }

  /** The flags as given: None for a flag that was not changed. */
  datatype UpdateFlags = UpdateFlags(
    version: Option<string>, hardware: Option<string>,
    minInstances: Option<int>, maxInstances: Option<int>)

  /** `replicate.UpdateDeploymentOptions`: None stands for a nil field, left as the deployment has it. */
  datatype UpdateOptions = UpdateOptions(
    version: Option<string>, hardware: Option<string>,
    minInstances: Option<int>, maxInstances: Option<int>)

  /** The options, starting empty, with each field set only when its flag was given. */
  method BuildOptions(flags: UpdateFlags) returns (r: Result<UpdateOptions, UpdateError>)
    ensures flags.version.Some? && ExtractVersion(flags.version.value).Err? ==>
      r == Err(ExtractVersion(flags.version.value).error)
    ensures r.Err? ==> flags.version.Some? && ExtractVersion(flags.version.value).Err?
    ensures r.Ok? ==> (r.value.version.Some? <==> flags.version.Some?)
    ensures r.Ok? && flags.version.Some? ==> ExtractVersion(flags.version.value) == Ok(r.value.version.value)
    ensures r.Ok? ==>
      r.value.hardware == flags.hardware && r.value.minInstances == flags.minInstances
      && r.value.maxInstances == flags.maxInstances
  {
    var opts := UpdateOptions(None, None, None, None);
    if flags.version.Some? {
      var version := ExtractVersion(flags.version.value);
      if version.Err? {
        return Err(version.error);
      }
      opts := opts.(version := Some(version.value));
    }
    if flags.hardware.Some? {
      opts := opts.(hardware := flags.hardware);
    }
    if flags.minInstances.Some? {
      opts := opts.(minInstances := flags.minInstances);
    }
    if flags.maxInstances.Some? {
      opts := opts.(maxInstances := flags.maxInstances);
    }
    return Ok(opts);
  }

  /** Everything before the update call: the deployment's identifier, then the options. */
  method PrepareUpdate(name: string, account: Result<string, string>, flags: UpdateFlags)
    returns (r: Result<(Identifier, UpdateOptions), UpdateError>)
    ensures DeploymentId(name, account).Err? ==> r == Err(DeploymentId(name, account).error)
    ensures r.Ok? ==> DeploymentId(name, account) == Ok(r.value.0)
    ensures r.Ok? ==> '/' !in r.value.0.owner && '/' !in r.value.0.name
    ensures r.Ok? ==>
      (r.value.1.version.Some? <==> flags.version.Some?)
      && r.value.1.hardware == flags.hardware && r.value.1.minInstances == flags.minInstances
      && r.value.1.maxInstances == flags.maxInstances
    ensures DeploymentId(name, account).Ok? && flags.version.Some? && ExtractVersion(flags.version.value).Err? ==>
      r == Err(ExtractVersion(flags.version.value).error)
    ensures r.Err? ==>
      DeploymentId(name, account).Err? || (flags.version.Some? && ExtractVersion(flags.version.value).Err?)
    ensures r.Ok? && flags.version.Some? ==> r.value.1.version == Some(ExtractVersion(flags.version.value).value)
  {
    var id := DeploymentId(name, account);
    if id.Err? {
      return Err(id.error);
    }
    var opts := BuildOptions(flags);
    if opts.Err? {
      return Err(opts.error);
    }
    return Ok((id.value, opts.value));
  }

  /** The deployment's page on the website. */
  function DeploymentURL(owner: string, name: string): (url: string)
    ensures "https://replicate.com/deployments/" <= url
    ensures url[|"https://replicate.com/deployments/"|..] == owner + "/" + name
  {
    "https://replicate.com/deployments/" + owner + "/" + name
  }

  /** What the command does with the updated deployment. */
  datatype UpdateOutput =
    | PrintJson
    | OpenBrowser(url: string, announce: bool)
    | PrintMessage(text: string)

  /**
   * JSON for `--json` or a non-terminal; otherwise the deployment's page, opened for
   * `--web` (announced on a terminal) or printed.
   */
  function AfterUpdate(json: bool, web: bool, tty: bool, owner: string, name: string): (out: UpdateOutput)
    ensures out.PrintJson? <==> json || !tty
    ensures out.OpenBrowser? <==> !json && tty && web
    ensures out.OpenBrowser? ==> out.url == DeploymentURL(owner, name) && out.announce
    ensures out.PrintMessage? ==> out.text == "Deployment updated: " + DeploymentURL(owner, name) + "\n"
  {
    if json || !tty then PrintJson
    else if web then OpenBrowser(DeploymentURL(owner, name), tty)
    else PrintMessage("Deployment updated: " + DeploymentURL(owner, name) + "\n")
  }
}
