/**
 * The version manifest of lib/piston/VersionManifest.ts: the `latest`
 * aliases, the ordered list of version summaries, and the lookups over them.
 */
module VersionManifest {
  import opened Wrappers
  import opened JsValue

  /** The four literal values the `type` of a summary may take. */
  datatype VersionType = Release | Snapshot | OldBeta | OldAlpha

  /** The ids the manifest names as the newest release and the newest snapshot. */
  datatype Latest = Latest(release: string, snapshot: string)

  /** One summary entry of `versions`. */
  datatype Version = Version(id: string, versionType: VersionType, url: string, time: string, releaseTime: string)

  /**
   * The plain `{ latest, versions }` object the class is built from and
   * turned back into; `extra` holds any other top-level keys it carries.
   */
  datatype ManifestJson = ManifestJson(latest: Latest, versions: seq<Version>, extra: map<string, Value>)

  /** An instance of the `VersionManifest` class. */
  datatype Manifest = Manifest(latest: Latest, versions: seq<Version>)

  /** Some entry of `vs` has the id `id`. */
  ghost predicate HasId(vs: seq<Version>, id: string)
  {
    exists i :: 0 <= i < |vs| && vs[i].id == id
  }

  /** Index `i` holds the first entry of `vs` whose id is `id`. */
  ghost predicate IsFirstMatch(vs: seq<Version>, id: string, i: int)
  {
    && 0 <= i < |vs|
    && vs[i].id == id
    && forall j :: 0 <= j < i ==> vs[j].id != id
  }

  /**
   * The invariant a published manifest is expected to keep, which the class
   * itself never checks: ids are unique, and both aliases name a listed id.
   */
  ghost predicate WellFormed(m: Manifest)
  {
    && (forall i, j :: 0 <= i < j < |m.versions| ==> m.versions[i].id != m.versions[j].id)
    && HasId(m.versions, m.latest.release)
    && HasId(m.versions, m.latest.snapshot)
  }

  /** `new VersionManifest(latest, versions)`: stores both arguments. */
  function New(latest: Latest, versions: seq<Version>): (m: Manifest)
    ensures m.latest == latest && m.versions == versions
  {
    Manifest(latest, versions)
  }

  /** `VersionManifest.fromJson`: builds the instance from the two fields of `json`, ignoring any other key. */
  function FromJson(json: ManifestJson): (m: Manifest)
    ensures m.latest == json.latest && m.versions == json.versions
  {
    New(json.latest, json.versions)
  }

  /** `toJson`: a plain object holding the same two fields and no other key. */
  function ToJson(m: Manifest): (json: ManifestJson)
    ensures json.latest == m.latest && json.versions == m.versions
    ensures json.extra == map[]
  {
    ManifestJson(m.latest, m.versions, map[])
  }

  /**
   * The position `Array.prototype.find` stops at: the first index whose entry
   * has the id `id`, or `None` when the scan reaches the end.
   */
  function FindIndex(vs: seq<Version>, id: string): (r: Option<nat>)
    ensures r.Some? ==> IsFirstMatch(vs, id, r.value)
    ensures r.None? <==> !HasId(vs, id)
    decreases |vs|
  {
    if |vs| == 0 then None
    else if vs[0].id == id then Some(0)
    else
      match FindIndex(vs[1..], id)
      case None => None
      case Some(i) => Some(i + 1)
  }

  /** `getVersion(version)`: the first summary whose id is `version`, or `undefined`. */
  function GetVersion(m: Manifest, version: string): (r: Option<Version>)
    ensures r.Some? ==> r.value.id == version
    ensures r.Some? ==> exists i :: IsFirstMatch(m.versions, version, i) && m.versions[i] == r.value
    ensures r.None? <==> !HasId(m.versions, version)
  {
    match FindIndex(m.versions, version)
    case None => None
    case Some(i) => Some(m.versions[i])
  }

  /** `getLatestVersion()`: the lookup of the `latest.release` alias. */
  function GetLatestVersion(m: Manifest): (r: Option<Version>)
    ensures r.Some? ==> r.value.id == m.latest.release
    ensures r.Some? ==> exists i :: IsFirstMatch(m.versions, m.latest.release, i) && m.versions[i] == r.value
    ensures r.None? <==> !HasId(m.versions, m.latest.release)
  {
    GetVersion(m, m.latest.release)
  }

  /** `getLatestSnapshot()`: the lookup of the `latest.snapshot` alias. */
  function GetLatestSnapshot(m: Manifest): (r: Option<Version>)
    ensures r.Some? ==> r.value.id == m.latest.snapshot
    ensures r.Some? ==> exists i :: IsFirstMatch(m.versions, m.latest.snapshot, i) && m.versions[i] == r.value
    ensures r.None? <==> !HasId(m.versions, m.latest.snapshot)
  {
    GetVersion(m, m.latest.snapshot)
  }

  /**
   * `getVersionUrl(version)`: the `url` of the found summary. On a miss the
   * source reads `url` of `undefined`, which throws a `TypeError`.
   */
  function GetVersionUrl(m: Manifest, version: string): (r: Result<string, JsError>)
    ensures r.Success? <==> HasId(m.versions, version)
    ensures r.Success? ==> exists i :: IsFirstMatch(m.versions, version, i) && m.versions[i].url == r.value
    ensures r.Failure? ==> r.error == TypeError("url")
  {
    match GetVersion(m, version)
    case None => Failure(TypeError("url"))
    case Some(v) => Success(v.url)
  }

  /** `getLatestVersionUrl()`: the descriptor URL of the latest release. */
  function GetLatestVersionUrl(m: Manifest): (r: Result<string, JsError>)
    ensures r.Success? <==> HasId(m.versions, m.latest.release)
    ensures r.Success? ==> exists i :: IsFirstMatch(m.versions, m.latest.release, i) && m.versions[i].url == r.value
    ensures r.Failure? ==> r.error == TypeError("url")
  {
    GetVersionUrl(m, m.latest.release)
  }

  /** `getLatestSnapshotUrl()`: the descriptor URL of the latest snapshot. */
  function GetLatestSnapshotUrl(m: Manifest): (r: Result<string, JsError>)
    ensures r.Success? <==> HasId(m.versions, m.latest.snapshot)
    ensures r.Success? ==> exists i :: IsFirstMatch(m.versions, m.latest.snapshot, i) && m.versions[i].url == r.value
    ensures r.Failure? ==> r.error == TypeError("url")
  {
    GetVersionUrl(m, m.latest.snapshot)
  }

  /** The lookup answers with the first matching entry, and with nothing else. */
  lemma GetVersionIsFirstMatch(m: Manifest, version: string, i: int)
    requires IsFirstMatch(m.versions, version, i)
    ensures GetVersion(m, version) == Some(m.versions[i])
  {
  }

  /** With unique ids, the lookup finds exactly the listed entries carrying the id. */
  lemma GetVersionUniqueIds(m: Manifest, version: string, v: Version)
    requires forall i, j :: 0 <= i < j < |m.versions| ==> m.versions[i].id != m.versions[j].id
    ensures GetVersion(m, version) == Some(v) <==> v in m.versions && v.id == version
  {
  }

  /** In a well-formed manifest both aliases resolve, to entries carrying the alias ids. */
  lemma WellFormedAliasesResolve(m: Manifest)
    requires WellFormed(m)
    ensures GetLatestVersion(m).Some? && GetLatestVersion(m).value.id == m.latest.release
    ensures GetLatestSnapshot(m).Some? && GetLatestSnapshot(m).value.id == m.latest.snapshot
    ensures GetLatestVersionUrl(m) == Success(GetLatestVersion(m).value.url)
    ensures GetLatestSnapshotUrl(m) == Success(GetLatestSnapshot(m).value.url)
  {
  }

  /**
   * Building from a plain object and turning it back keeps `latest` and
   * `versions`, in order, and drops every other key; so it is the identity
   * exactly on objects with no other key.
   */
  lemma JsonRoundTrip(json: ManifestJson)
    ensures ToJson(FromJson(json)) == json.(extra := map[])
    ensures ToJson(FromJson(json)) == json <==> json.extra == map[]
  {
  }

  /** Turning an instance into the plain object and back gives the same instance. */
  lemma ManifestRoundTrip(m: Manifest)
    ensures FromJson(ToJson(m)) == m
  {
  }
}
