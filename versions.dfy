/**
 * The server-version gate of the adapter's initialization: the first
 * "redis_version" field of the server's INFO reply is parsed and compared
 * with the minimum version 2.6.
 */
module Versions {
  import opened Results

  /** A version as System.Version keeps it; the build number may be absent. */
  datatype Version = Version(major: nat, minor: nat, build: Option<nat>)

  /** Why initialization disabled the adapter. */
  datatype InitFault =
    | ConnectFailed
    | NoServerInfo
    | UnparsableVersion(text: string)
    | VersionTooOld(version: Version)

  const VersionField: string := "redis_version"

  const MinimumVersion: Version := Version(2, 6, None)

  /** Lexicographic comparison; an absent build number sorts before any present one. */
  predicate Less(a: Version, b: Version)
  {
    a.major < b.major
    || (a.major == b.major && a.minor < b.minor)
    || (a.major == b.major && a.minor == b.minor && b.build.Some? && (a.build.None? || a.build.value < b.build.value))
  }

  /** Against 2.6 only the major and minor numbers matter. */
  lemma BelowMinimum(v: Version)
    ensures Less(v, MinimumVersion) <==> v.major < 2 || (v.major == 2 && v.minor < 6)
  {
  }

  /** The value of the first pair with the given key. */
  function Lookup(pairs: seq<(string, string)>, key: string): (r: Option<string>)
    ensures r.None? <==> forall i :: 0 <= i < |pairs| ==> pairs[i].0 != key
    ensures r.Some? ==> exists i :: 0 <= i < |pairs| && pairs[i] == (key, r.value)
                                    && forall j :: 0 <= j < i ==> pairs[j].0 != key
  {
    if pairs == [] then None
    else if pairs[0].0 == key then Some(pairs[0].1)
    else
      var r := Lookup(pairs[1..], key);
      assert r.Some? ==> exists i :: 0 <= i < |pairs[1..]| && pairs[1..][i] == (key, r.value)
                                    && forall j :: 0 <= j < i ==> pairs[1..][j].0 != key;
      if r.Some? then
        var i :| 0 <= i < |pairs[1..]| && pairs[1..][i] == (key, r.value)
                 && forall j :: 0 <= j < i ==> pairs[1..][j].0 != key;
        assert pairs[i + 1] == (key, r.value);
        assert forall j :: 0 <= j < i + 1 ==> pairs[j].0 != key by {
          forall j | 0 <= j < i + 1 ensures pairs[j].0 != key {
            if j > 0 { assert pairs[j] == pairs[1..][j - 1]; }
          }
        }
        r
      else
        r
  }

  /**
   * The outcome of the version check: the version found (None when the reply
   * has no version field, which lets initialization succeed), or the reason
   * it failed.
   */
  function VersionGate(pairs: seq<(string, string)>, parse: string -> Option<Version>): Result<Option<Version>, InitFault>
  {
    match Lookup(pairs, VersionField)
    case None => Ok(None)
    case Some(text) =>
      match parse(text)
      case None => Err(UnparsableVersion(text))
      case Some(v) => if Less(v, MinimumVersion) then Err(VersionTooOld(v)) else Ok(Some(v))
  }

  /**
   * The loop over the INFO pairs: stops at the first version field, fails if
   * it cannot be parsed or is below 2.6, and passes if there is none.
   */
  method ScanVersion(pairs: seq<(string, string)>, parse: string -> Option<Version>)
    returns (r: Result<Option<Version>, InitFault>)
    ensures r == VersionGate(pairs, parse)
    ensures r.Ok? <==> (forall i :: 0 <= i < |pairs| ==> pairs[i].0 != VersionField)
                       || exists i :: 0 <= i < |pairs| && pairs[i].0 == VersionField
                                      && (forall j :: 0 <= j < i ==> pairs[j].0 != VersionField)
                                      && parse(pairs[i].1).Some?
                                      && !Less(parse(pairs[i].1).value, MinimumVersion)
    ensures r.Ok? && r.value.Some? ==> !Less(r.value.value, MinimumVersion)
  {
    var version: Option<Version> := None;
    var i := 0;
    while i < |pairs|
      invariant 0 <= i <= |pairs|
      invariant forall j :: 0 <= j < i ==> pairs[j].0 != VersionField
      invariant Lookup(pairs, VersionField) == Lookup(pairs[i..], VersionField)
    {
      if pairs[i].0 == VersionField {
        var parsed := parse(pairs[i].1);
        if parsed.None? {
          return Err(UnparsableVersion(pairs[i].1));
        }
        if Less(parsed.value, MinimumVersion) {
          return Err(VersionTooOld(parsed.value));
        }
        version := parsed;
        break;
      }
      assert pairs[i..][1..] == pairs[i + 1..];
      i := i + 1;
    }
    r := Ok(version);
  }
}
