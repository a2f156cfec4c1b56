/**
 * The version descriptor of lib/piston/MinecraftVersion.ts: a record of the
 * fourteen top-level fields copied out of an untyped JSON object, its
 * conversion back to an object, and the URL each fetching helper picks.
 */
module MinecraftVersion {
  import opened Wrappers
  import opened JsValue

  /** The fourteen top-level keys the constructor reads and `toJson` writes, in source order. */
  datatype Key =
    | Arguments | AssetIndex | Assets | ComplianceLevel | Downloads | Id | JavaVersion
    | Libraries | Logging | MainClass | MinimumLauncherVersion | ReleaseTime | Time | Type

  /** The JSON spelling of each key. */
  function Name(k: Key): string
  {
    match k
    case Arguments => "arguments"
    case AssetIndex => "assetIndex"
    case Assets => "assets"
    case ComplianceLevel => "complianceLevel"
    case Downloads => "downloads"
    case Id => "id"
    case JavaVersion => "javaVersion"
    case Libraries => "libraries"
    case Logging => "logging"
    case MainClass => "mainClass"
    case MinimumLauncherVersion => "minimumLauncherVersion"
    case ReleaseTime => "releaseTime"
    case Time => "time"
    case Type => "type"
  }

  /** The set of the fourteen spellings. */
  const FieldNames: set<string> := {
    "arguments", "assetIndex", "assets", "complianceLevel", "downloads", "id", "javaVersion",
    "libraries", "logging", "mainClass", "minimumLauncherVersion", "releaseTime", "time", "type"
  }

  /** The key a spelling in `FieldNames` belongs to. */
  function KeyOf(s: string): (k: Key)
    requires s in FieldNames
    ensures Name(k) == s
  {
    if s == "arguments" then Arguments
    else if s == "assetIndex" then AssetIndex
    else if s == "assets" then Assets
    else if s == "complianceLevel" then ComplianceLevel
    else if s == "downloads" then Downloads
    else if s == "id" then Id
    else if s == "javaVersion" then JavaVersion
    else if s == "libraries" then Libraries
    else if s == "logging" then Logging
    else if s == "mainClass" then MainClass
    else if s == "minimumLauncherVersion" then MinimumLauncherVersion
    else if s == "releaseTime" then ReleaseTime
    else if s == "time" then Time
    else Type
  }

  /**
   * An instance of the `MinecraftVersion` class. The constructor takes `any`,
   * so each field holds whatever value the JSON had under its key; the nested
   * shapes declared in the source are not enforced at run time.
   */
  datatype VersionRecord = VersionRecord(
    arguments: Value,
    assetIndex: Value,
    assets: Value,
    complianceLevel: Value,
    downloads: Value,
    id: Value,
    javaVersion: Value,
    libraries: Value,
    logging: Value,
    mainClass: Value,
    minimumLauncherVersion: Value,
    releaseTime: Value,
    time: Value,
    versionType: Value)

  /** The field of `v` stored under key `k`. */
  function Field(v: VersionRecord, k: Key): Value
  {
    match k
    case Arguments => v.arguments
    case AssetIndex => v.assetIndex
    case Assets => v.assets
    case ComplianceLevel => v.complianceLevel
    case Downloads => v.downloads
    case Id => v.id
    case JavaVersion => v.javaVersion
    case Libraries => v.libraries
    case Logging => v.logging
    case MainClass => v.mainClass
    case MinimumLauncherVersion => v.minimumLauncherVersion
    case ReleaseTime => v.releaseTime
    case Time => v.time
    case Type => v.versionType
  }

  /**
   * `new MinecraftVersion(json)` and `MinecraftVersion.fromJSON(json)`: each
   * field is `json[key]`. Reading the first key of `null` or `undefined`
   * throws before anything is stored.
   */
  function FromJson(json: Value): (r: Result<VersionRecord, JsError>)
    ensures r.Failure? <==> json.IsNullish()
    ensures r.Failure? ==> r.error == TypeError("arguments")
    ensures r.Success? ==> forall k :: Field(r.value, k) == Prop(json, Name(k))
  {
    if json.IsNullish() then Failure(TypeError("arguments"))
    else
      Success(VersionRecord(
        Prop(json, "arguments"),
        Prop(json, "assetIndex"),
        Prop(json, "assets"),
        Prop(json, "complianceLevel"),
        Prop(json, "downloads"),
        Prop(json, "id"),
        Prop(json, "javaVersion"),
        Prop(json, "libraries"),
        Prop(json, "logging"),
        Prop(json, "mainClass"),
        Prop(json, "minimumLauncherVersion"),
        Prop(json, "releaseTime"),
        Prop(json, "time"),
        Prop(json, "type")))
  }

  /** `toJson()`: an object with exactly the fourteen keys, each holding its field. */
  function ToJson(v: VersionRecord): (json: Value)
    ensures json.Obj?
    ensures json.fields.Keys == FieldNames
    ensures forall k :: json.fields[Name(k)] == Field(v, k)
  {
    Obj(map[
      "arguments" := v.arguments,
      "assetIndex" := v.assetIndex,
      "assets" := v.assets,
      "complianceLevel" := v.complianceLevel,
      "downloads" := v.downloads,
      "id" := v.id,
      "javaVersion" := v.javaVersion,
      "libraries" := v.libraries,
      "logging" := v.logging,
      "mainClass" := v.mainClass,
      "minimumLauncherVersion" := v.minimumLauncherVersion,
      "releaseTime" := v.releaseTime,
      "time" := v.time,
      "type" := v.versionType])
  }

  /** Two records that agree on every keyed field are equal. */
  lemma FieldsDetermineRecord(v: VersionRecord, w: VersionRecord)
    requires forall k :: Field(v, k) == Field(w, k)
    ensures v == w
  {
    assert Field(v, Arguments) == Field(w, Arguments);
    assert Field(v, AssetIndex) == Field(w, AssetIndex);
    assert Field(v, Assets) == Field(w, Assets);
    assert Field(v, ComplianceLevel) == Field(w, ComplianceLevel);
    assert Field(v, Downloads) == Field(w, Downloads);
    assert Field(v, Id) == Field(w, Id);
    assert Field(v, JavaVersion) == Field(w, JavaVersion);
    assert Field(v, Libraries) == Field(w, Libraries);
    assert Field(v, Logging) == Field(w, Logging);
    assert Field(v, MainClass) == Field(w, MainClass);
    assert Field(v, MinimumLauncherVersion) == Field(w, MinimumLauncherVersion);
    assert Field(v, ReleaseTime) == Field(w, ReleaseTime);
    assert Field(v, Time) == Field(w, Time);
    assert Field(v, Type) == Field(w, Type);
  }

  /**
   * Only the fourteen keys reach the record: two inputs that agree on them
   * build the same instance, whatever other keys either carries.
   */
  lemma FromJsonReadsOnlyFields(a: Value, b: Value)
    requires !a.IsNullish() && !b.IsNullish()
    requires forall k :: Prop(a, Name(k)) == Prop(b, Name(k))
    ensures FromJson(a) == FromJson(b)
  {
    FieldsDetermineRecord(FromJson(a).value, FromJson(b).value);
  }

  /** Converting a record to an object and reading it back is the identity. */
  lemma RecordRoundTrip(v: VersionRecord)
    ensures FromJson(ToJson(v)) == Success(v)
  {
  }

  /**
   * Reading an object and converting it back keeps the fourteen keys, with
   * `undefined` for any the input lacked, and drops every other key.
   */
  lemma JsonRoundTrip(fields: map<string, Value>)
    ensures FromJson(Obj(fields)).Success?
    ensures ToJson(FromJson(Obj(fields)).value) == Obj(map s | s in FieldNames :: Get(fields, s))
  {
    var json := ToJson(FromJson(Obj(fields)).value);
    var expected := map s | s in FieldNames :: Get(fields, s);
    forall s | s in FieldNames
      ensures json.fields[s] == expected[s]
    {
      var k := KeyOf(s);
      assert json.fields[Name(k)] == Field(FromJson(Obj(fields)).value, k);
    }
  }

  /** When the input holds all fourteen keys the round trip is its restriction to them. */
  lemma JsonRoundTripRestricts(fields: map<string, Value>)
    requires FieldNames <= fields.Keys
    ensures ToJson(FromJson(Obj(fields)).value) == Obj(map s | s in fields && s in FieldNames :: fields[s])
  {
  }

  /** The artifact kinds listed under `downloads`. */
  datatype Artifact = Client | ClientMappings | Server | ServerMappings

  /** The key of `downloads` that holds each artifact. */
  function ArtifactKey(a: Artifact): string
  {
    match a
    case Client => "client"
    case ClientMappings => "client_mappings"
    case Server => "server"
    case ServerMappings => "server_mappings"
  }

  /** A call of `downloadFile(url, path)` of lib/utils.ts: fetch `url`, write the body to `path`. */
  datatype FileDownload = FileDownload(url: Value, path: string)

  /**
   * `getAssets()`: the URL handed to `MinecraftAssets.fromUrl`, which is
   * `assetIndex.url`; a nullish `assetIndex` throws.
   */
  function AssetsUrl(v: VersionRecord): (r: Result<Value, JsError>)
    ensures r.Failure? <==> v.assetIndex.IsNullish()
    ensures r.Failure? ==> r.error == TypeError("url")
    ensures r.Success? ==> r.value == Prop(v.assetIndex, "url")
  {
    Member(v.assetIndex, "url")
  }

  /**
   * The download every helper starts: `downloads[key].url` fetched into the
   * path given as `directory`. Reading through a nullish value throws.
   */
  function Download(v: VersionRecord, a: Artifact, directory: string): (r: Result<FileDownload, JsError>)
    ensures r.Failure? <==> v.downloads.IsNullish() || Prop(v.downloads, ArtifactKey(a)).IsNullish()
    ensures r.Failure? && v.downloads.IsNullish() ==> r.error == TypeError(ArtifactKey(a))
    ensures r.Failure? && !v.downloads.IsNullish() ==> r.error == TypeError("url")
    ensures r.Success? ==> r.value.path == directory
    ensures r.Success? ==> r.value.url == Prop(Prop(v.downloads, ArtifactKey(a)), "url")
  {
    var entry :- Member(v.downloads, ArtifactKey(a));
    var url :- Member(entry, "url");
    Success(FileDownload(url, directory))
  }

  /** `downloadClient(directory)`: fetches `downloads.client.url`. */
  function DownloadClient(v: VersionRecord, directory: string): (r: Result<FileDownload, JsError>)
    ensures r.Success? <==> !v.downloads.IsNullish() && !Prop(v.downloads, "client").IsNullish()
    ensures r.Success? ==> r.value == FileDownload(Prop(Prop(v.downloads, "client"), "url"), directory)
  {
    Download(v, Client, directory)
  }

  /** `downloadClientMappings(directory)`: fetches `downloads.client_mappings.url`. */
  function DownloadClientMappings(v: VersionRecord, directory: string): (r: Result<FileDownload, JsError>)
    ensures r.Success? <==> !v.downloads.IsNullish() && !Prop(v.downloads, "client_mappings").IsNullish()
    ensures r.Success? ==> r.value == FileDownload(Prop(Prop(v.downloads, "client_mappings"), "url"), directory)
  {
    Download(v, ClientMappings, directory)
  }

  /** `downloadServer(directory)`: fetches `downloads.server.url`. */
  function DownloadServer(v: VersionRecord, directory: string): (r: Result<FileDownload, JsError>)
    ensures r.Success? <==> !v.downloads.IsNullish() && !Prop(v.downloads, "server").IsNullish()
    ensures r.Success? ==> r.value == FileDownload(Prop(Prop(v.downloads, "server"), "url"), directory)
  {
    Download(v, Server, directory)
  }

  /** `downloadServerMappings(directory)`: fetches `downloads.server_mappings.url`. */
  function DownloadServerMappings(v: VersionRecord, directory: string): (r: Result<FileDownload, JsError>)
    ensures r.Success? <==> !v.downloads.IsNullish() && !Prop(v.downloads, "server_mappings").IsNullish()
    ensures r.Success? ==> r.value == FileDownload(Prop(Prop(v.downloads, "server_mappings"), "url"), directory)
  {
    Download(v, ServerMappings, directory)
  }

  /** The four helpers read four different keys, so each artifact has its own URL. */
  lemma ArtifactKeysDistinct(a: Artifact, b: Artifact)
    ensures ArtifactKey(a) == ArtifactKey(b) <==> a == b
  {
  }

  /**
   * Traced from the decoded descriptor: with the usual nested objects present,
   * each helper downloads the `url` stored under its own artifact key.
   */
  lemma DownloadFromDocument(fields: map<string, Value>, a: Artifact, directory: string)
    requires "downloads" in fields && fields["downloads"].Obj?
    requires ArtifactKey(a) in fields["downloads"].fields
    requires fields["downloads"].fields[ArtifactKey(a)].Obj?
    ensures FromJson(Obj(fields)).Success?
    ensures Download(FromJson(Obj(fields)).value, a, directory)
      == Success(FileDownload(Get(fields["downloads"].fields[ArtifactKey(a)].fields, "url"), directory))
  {
  }

  /** Traced from the decoded descriptor: `getAssets` fetches the `url` stored in `assetIndex`. */
  lemma AssetsUrlFromDocument(fields: map<string, Value>)
    requires "assetIndex" in fields && fields["assetIndex"].Obj?
    ensures FromJson(Obj(fields)).Success?
    ensures AssetsUrl(FromJson(Obj(fields)).value) == Success(Get(fields["assetIndex"].fields, "url"))
  {
  }
}
