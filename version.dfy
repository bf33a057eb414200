/**
 * The version string of the client (internal/cmd/version.go): the version linked in
 * at build time, or else a development version decorated with the build's
 * version-control details.
 */
module BuildVersion {
  import opened Wrappers

  /** One key/value setting of the build information. */
  datatype Setting = Setting(key: string, value: string)

  /** The version used when none was linked in. */
  const Dev: string := "0.0.0-dev"

  /** Reading the build information of a binary built without it dereferences nil: a panic in the source. */
  datatype VersionError = NoBuildInfo

  predicate IsAlnum(c: char)
  {
    'a' <= c <= 'z' || 'A' <= c <= 'Z' || '0' <= c <= '9'
  }

  /** The text with every character outside `[a-zA-Z0-9]` removed. */
  function StripNonAlnum(s: string): (t: string)
    ensures |t| <= |s|
    ensures forall i :: 0 <= i < |t| ==> IsAlnum(t[i])
    ensures (forall i :: 0 <= i < |s| ==> IsAlnum(s[i])) ==> t == s
    ensures (forall i :: 0 <= i < |s| ==> !IsAlnum(s[i])) ==> t == ""
  {
    if s == [] then ""
    else (if IsAlnum(s[0]) then [s[0]] else "") + StripNonAlnum(s[1..])
  }

  /** The short commit: the first seven characters of the last long enough `vcs.revision`. */
  function Commit(settings: seq<Setting>): (c: string)
    ensures c == "" || |c| == 7
    decreases |settings|
  {
    if settings == [] then ""
    else
      var last := settings[|settings| - 1];
      if last.key == "vcs.revision" && |last.value| >= 7 then last.value[..7] else Commit(settings[..|settings| - 1])
  }

  /** Whether the last `vcs.modified` setting says "true". */
  function Modified(settings: seq<Setting>): bool
    decreases |settings|
  {
    if settings == [] then false
    else
      var last := settings[|settings| - 1];
      if last.key == "vcs.modified" then last.value == "true" else Modified(settings[..|settings| - 1])
  }

  /** The last `vcs.time` setting, reduced to its letters and digits. */
  function Timestamp(settings: seq<Setting>): (t: string)
    ensures forall i :: 0 <= i < |t| ==> IsAlnum(t[i])
    decreases |settings|
  {
    if settings == [] then ""
    else
      var last := settings[|settings| - 1];
      if last.key == "vcs.time" then StripNonAlnum(last.value) else Timestamp(settings[..|settings| - 1])
  }

  /**
   * The decorated development version: the timestamp for a modified working tree,
   * otherwise the commit, otherwise nothing.
   */
  function Decorated(commit: string, timestamp: string, modified: bool): (v: string)
    ensures modified && timestamp != "" ==> v == Dev + "+" + timestamp
    ensures !(modified && timestamp != "") && commit != "" ==> v == Dev + "+" + commit
    ensures !(modified && timestamp != "") && commit == "" ==> v == Dev
    ensures Dev <= v
  {
    if modified && timestamp != "" then Dev + "+" + timestamp
    else if commit != "" then Dev + "+" + commit
    else Dev
  }

  /** The loop over the build settings: each setting it recognises overrides an earlier one. */
  method ReadSettings(settings: seq<Setting>) returns (commit: string, timestamp: string, modified: bool)
    ensures commit == Commit(settings) && timestamp == Timestamp(settings) && modified == Modified(settings)
  {
    commit, timestamp, modified := "", "", false;
    var i := 0;
    while i < |settings|
      invariant 0 <= i <= |settings|
      invariant commit == Commit(settings[..i]) && timestamp == Timestamp(settings[..i]) && modified == Modified(settings[..i])
    {
      var entry := settings[i];
      assert settings[..i + 1][..i] == settings[..i] && settings[..i + 1][i] == entry;
      if entry.key == "vcs.revision" && |entry.value| >= 7 {
        commit := entry.value[..7];
      }
      if entry.key == "vcs.modified" {
        modified := entry.value == "true";
      }
      if entry.key == "vcs.time" {
        timestamp := StripNonAlnum(entry.value);
      }
      i := i + 1;
    }
    assert settings[..i] == settings;
  }

  /** The package-level `version` variable and the function that reads it. */
  class Globals {
    var version: string

    /** `linked` is the value set at build time, "" when none was. */
    constructor(linked: string)
      ensures version == linked
    {
      version := linked;
    }

    /**
     * `Version()` as written: on the first call without a linked version it stores
     * the bare development version but returns the decorated one. `info` is the build
     * information, None when the binary carries none.
     */
    method Version(info: Option<seq<Setting>>) returns (r: Result<string, VersionError>)
      modifies this
      ensures old(version) != "" ==> r == Ok(old(version)) && version == old(version)
      ensures old(version) == "" ==> version == Dev
      ensures old(version) == "" && info.None? ==> r == Err(NoBuildInfo)
      ensures old(version) == "" && info.Some? ==>
        r == Ok(Decorated(Commit(info.value), Timestamp(info.value), Modified(info.value)))
    {
      if version == "" {
        version := Dev;
        if info.None? {
          return Err(NoBuildInfo);
        }
        var commit, timestamp, modified := ReadSettings(info.value);
        if modified && timestamp != "" {
          return Ok(version + "+" + timestamp);
        } else if commit != "" {
          return Ok(version + "+" + commit);
        }
      }
      return Ok(version);
    }

    /** `Version()` as evidently intended: the decorated version is the one stored, so every call agrees. */
    method StableVersion(info: Option<seq<Setting>>) returns (r: Result<string, VersionError>)
      modifies this
      ensures old(version) != "" ==> r == Ok(old(version)) && version == old(version)
      ensures old(version) == "" && info.None? ==> r == Err(NoBuildInfo)
      ensures old(version) == "" && info.Some? ==>
        r == Ok(Decorated(Commit(info.value), Timestamp(info.value), Modified(info.value)))
        && version == r.value
    {
      if version == "" {
        if info.None? {
          version := Dev;
          return Err(NoBuildInfo);
        }
        var commit, timestamp, modified := ReadSettings(info.value);
        version := Decorated(commit, timestamp, modified);
      }
      return Ok(version);
    }
  }

  /** The build settings of a clean build at a known commit. */
  function CleanBuild(): seq<Setting>
  {
    [Setting("vcs.revision", "0123456789abcdef"), Setting("vcs.modified", "false")]
  }

  /** Two calls of `Version()` as written on a clean build without a linked version disagree. */
  method VersionTwice() returns (first: Result<string, VersionError>, second: Result<string, VersionError>)
    ensures first == Ok("0.0.0-dev+0123456")
    ensures second == Ok("0.0.0-dev")
    ensures first != second
  {
    var v := new Globals("");
    var settings := CleanBuild();
    assert settings[0].value[..7] == "0123456";
    assert Commit(settings) == "0123456" && Modified(settings) == false;
    assert Dev + "+" + "0123456" == "0.0.0-dev+0123456";
    first := v.Version(Some(settings));
    second := v.Version(Some(settings));
  }

  /** With the corrected definition both calls give the decorated version. */
  method StableVersionTwice() returns (first: Result<string, VersionError>, second: Result<string, VersionError>)
    ensures first == Ok("0.0.0-dev+0123456")
    ensures second == first
  {
    var v := new Globals("");
    var settings := CleanBuild();
    assert settings[0].value[..7] == "0123456";
    assert Commit(settings) == "0123456" && Modified(settings) == false;
    assert Dev + "+" + "0123456" == "0.0.0-dev+0123456";
    first := v.StableVersion(Some(settings));
    second := v.StableVersion(Some(settings));
  }

  /** A later `vcs.time` setting replaces an earlier one; other keys are ignored. */
  lemma TimestampLastWins(settings: seq<Setting>, value: string, other: Setting)
    requires other.key != "vcs.time"
    ensures Timestamp(settings + [Setting("vcs.time", value)]) == StripNonAlnum(value)
    ensures Timestamp(settings + [other]) == Timestamp(settings)
  {
    assert (settings + [other])[..|settings|] == settings;
  }

  /** A revision shorter than seven characters leaves the commit as it was. */
  lemma ShortRevisionIgnored(settings: seq<Setting>, value: string)
    requires |value| < 7
    ensures Commit(settings + [Setting("vcs.revision", value)]) == Commit(settings)
  {
    assert (settings + [Setting("vcs.revision", value)])[..|settings|] == settings;
  }

  /** Stripping works piece by piece: the result for a concatenation is the concatenation of the results. */
  lemma {:induction false} StripAppend(a: string, b: string)
    ensures StripNonAlnum(a + b) == StripNonAlnum(a) + StripNonAlnum(b)
    decreases |a|
  {
    if a != [] {
      assert (a + b)[0] == a[0] && (a + b)[1..] == a[1..] + b;
      StripAppend(a[1..], b);
    } else {
      assert a + b == b;
    }
  }

  /** A timestamp keeps the digits of a time and drops its punctuation. */
  lemma TimestampExample()
    ensures StripNonAlnum("4:5Z") == "45Z"
  {
    assert StripNonAlnum("Z") == "Z";
    assert StripNonAlnum("5Z") == "5Z";
    assert StripNonAlnum(":5Z") == "5Z";
  }
}
