# Minecraft version metadata: manifest lookup and record round-trips

This project models the pure part of the `lib/piston` package of
minecraft-item-data-api, which reads Mojang's launcher metadata:

- the **version manifest** (`VersionManifest`): the `latest` release and
  snapshot aliases, the ordered list of version summaries, and the lookups
  `getVersion`, `getLatestVersion`, `getLatestSnapshot`, `getVersionUrl`,
  `getLatestVersionUrl`, `getLatestSnapshotUrl`;
- the **version descriptor** (`MinecraftVersion`): the fourteen top-level
  fields copied from an untyped JSON object, `toJson`, and the URL that
  `getAssets` and the four download helpers pick;
- the **asset index** (`MinecraftAssets`): the `objects` map from resource
  path to `{hash, size}`, its constructor and `toJson`.

Modules:

- `Wrappers` (`wrappers.dfy`): `Option` and `Result`.
- `JsValue` (`js_value.dfy`): decoded JSON values, including `undefined`, and
  JavaScript property reads. Reading a property of `null` or `undefined` gives
  a `TypeError`.
- `VersionManifest` (`version_manifest.dfy`): the manifest and its lookups.
  `getVersion` is a first-match search, as `Array.prototype.find` performs it.
  `HasId`, `IsFirstMatch` and `WellFormed` are the declarative definitions the
  lookups are proved against.
- `MinecraftVersion` (`minecraft_version.dfy`): the fourteen-field
  `VersionRecord`, its key schema (`Key`, `Name`, `Field`), and the URL
  choices. A download helper becomes a `FileDownload(url, path)` value: the
  call of `downloadFile` it would make.
- `MinecraftAssets` (`minecraft_assets.dfy`): the asset index.

Behaviour of the code that the model keeps:

- `getVersion` returns `undefined` on a miss and raises no error
  (lib/piston/VersionManifest.ts:111). That is `None` here.
- `getVersionUrl` then reads `url` of `undefined`, which throws a `TypeError`
  (lib/piston/VersionManifest.ts:136). That is modelled as
  `Failure(TypeError("url"))`.
- Nothing in the code checks that ids are unique or that both aliases name a
  listed id. `WellFormed` states that expectation and is used only as a
  hypothesis of lemmas.
- The three plain objects may carry keys beyond the ones the classes read.
  The constructors ignore them and `toJson` does not write them back.

## Model

| member | source | states |
|---|---|---|
| VersionManifest.New | lib/piston/VersionManifest.ts:61-64 | the instance holds the given `latest` and `versions`, unchanged and in order |
| VersionManifest.FromJson | lib/piston/VersionManifest.ts:71-73 | the instance holds the object's `latest` and `versions` unchanged; other keys of the object play no part |
| VersionManifest.ToJson | lib/piston/VersionManifest.ts:79-84 | the plain object carries the instance's `latest` and `versions` and no other key |
| VersionManifest.JsonRoundTrip | lib/piston/VersionManifest.ts:71-84 | `toJson(fromJson(j))` is `j` with every key other than `latest` and `versions` dropped, so it equals `j` exactly when `j` has no other key |
| VersionManifest.ManifestRoundTrip | lib/piston/VersionManifest.ts:71-84 | `fromJson(toJson(m)) == m` for every instance |
| VersionManifest.FindIndex | lib/piston/VersionManifest.ts:111 | the scan stops at the first index whose id matches; it reaches the end exactly when no entry has the id |
| VersionManifest.GetVersion | lib/piston/VersionManifest.ts:110-112 | a found entry has the requested id and sits at the first matching index; the result is `undefined` exactly when no entry has the id |
| VersionManifest.GetVersionIsFirstMatch | lib/piston/VersionManifest.ts:110-112 | whenever index `i` is the first match, the lookup returns exactly `versions[i]` |
| VersionManifest.GetVersionUniqueIds | lib/piston/VersionManifest.ts:110-112 | when ids are unique, the lookup returns `v` exactly when `v` is listed and carries the id |
| VersionManifest.GetLatestVersion | lib/piston/VersionManifest.ts:118-120 | answers like a lookup of `latest.release`: the first entry with that id, or `undefined` exactly when none has it |
| VersionManifest.GetLatestSnapshot | lib/piston/VersionManifest.ts:126-128 | answers like a lookup of `latest.snapshot`: the first entry with that id, or `undefined` exactly when none has it |
| VersionManifest.GetVersionUrl | lib/piston/VersionManifest.ts:135-137 | succeeds exactly when the id is listed, with the `url` of the first matching entry; otherwise a `TypeError` reading `url` |
| VersionManifest.GetLatestVersionUrl | lib/piston/VersionManifest.ts:143-145 | the `url` of the first entry whose id is `latest.release`, or a `TypeError` exactly when that id is not listed |
| VersionManifest.GetLatestSnapshotUrl | lib/piston/VersionManifest.ts:151-153 | the `url` of the first entry whose id is `latest.snapshot`, or a `TypeError` exactly when that id is not listed |
| VersionManifest.WellFormedAliasesResolve | lib/piston/VersionManifest.ts:118-153 | in a manifest whose aliases name listed ids, both alias lookups succeed with entries carrying those ids, and the URL lookups return those entries' `url` |
| MinecraftVersion.FromJson | lib/piston/MinecraftVersion.ts:182-207 | each of the fourteen fields holds the input's value under its key, or `undefined` when the key is absent; a `null` or `undefined` input throws a `TypeError` |
| MinecraftVersion.ToJson | lib/piston/MinecraftVersion.ts:214-231 | the result is an object whose keys are exactly the fourteen names, each holding its field |
| MinecraftVersion.FieldsDetermineRecord | lib/piston/MinecraftVersion.ts:162-175 | the record consists of exactly the fourteen keyed fields: two instances that agree on every key are equal |
| MinecraftVersion.RecordRoundTrip | lib/piston/MinecraftVersion.ts:205-231 | `fromJSON(toJson(v))` succeeds and equals `v` field for field |
| MinecraftVersion.JsonRoundTrip | lib/piston/MinecraftVersion.ts:182-231 | `toJson(fromJSON(j))` keeps the fourteen keys with `j`'s values, or `undefined` where `j` lacks one, and drops every other key |
| MinecraftVersion.JsonRoundTripRestricts | lib/piston/MinecraftVersion.ts:182-231 | when `j` has all fourteen keys, `toJson(fromJSON(j))` is `j` restricted to them |
| MinecraftVersion.FromJsonReadsOnlyFields | lib/piston/MinecraftVersion.ts:182-197 | two inputs that agree on the fourteen keys build the same instance, whatever other keys they carry |
| MinecraftVersion.AssetsUrl | lib/piston/MinecraftVersion.ts:259-261 | `getAssets` fetches `assetIndex.url`, and throws a `TypeError` exactly when `assetIndex` is nullish |
| MinecraftVersion.AssetsUrlFromDocument | lib/piston/MinecraftVersion.ts:259-261 | for a decoded descriptor whose `assetIndex` is an object, `getAssets` fetches the `url` that object holds |
| MinecraftVersion.Download | lib/piston/MinecraftVersion.ts:269-304 | a helper writes to the given path the `url` under its own artifact key of `downloads`, and throws a `TypeError` exactly when `downloads` or that entry is nullish |
| MinecraftVersion.DownloadClient | lib/piston/MinecraftVersion.ts:269-271 | downloads `downloads.client.url` to the given path; fails exactly when `downloads` or `downloads.client` is nullish |
| MinecraftVersion.DownloadClientMappings | lib/piston/MinecraftVersion.ts:280-282 | downloads `downloads.client_mappings.url` to the given path; fails exactly when `downloads` or that entry is nullish |
| MinecraftVersion.DownloadServer | lib/piston/MinecraftVersion.ts:291-293 | downloads `downloads.server.url` to the given path; fails exactly when `downloads` or `downloads.server` is nullish |
| MinecraftVersion.DownloadServerMappings | lib/piston/MinecraftVersion.ts:302-304 | downloads `downloads.server_mappings.url` to the given path; fails exactly when `downloads` or that entry is nullish |
| MinecraftVersion.ArtifactKeysDistinct | lib/piston/MinecraftVersion.ts:269-304 | the four helpers read four different keys of `downloads` |
| MinecraftVersion.DownloadFromDocument | lib/piston/MinecraftVersion.ts:269-304 | for a decoded descriptor with the nested `downloads` objects, each helper downloads the `url` stored under its own artifact key |
| MinecraftAssets.New | lib/piston/MinecraftAssets.ts:36-38 | the instance holds exactly `json.objects`, the same paths with the same `hash` and `size`, whatever other keys `json` has |
| MinecraftAssets.ToJson | lib/piston/MinecraftAssets.ts:46-50 | the plain object holds exactly the stored `objects` and no other key |
| MinecraftAssets.JsonRoundTrip | lib/piston/MinecraftAssets.ts:36-50 | `new MinecraftAssets(j).toJson()` is `{objects: j.objects}`: every other top-level key (such as `virtual`) is dropped, so it equals `j` exactly when `j` has no other key |
| MinecraftAssets.AssetsRoundTrip | lib/piston/MinecraftAssets.ts:36-50 | converting an instance to the plain object and back gives the same instance |

## Left out

- `fromUrl` (all three classes), `fetch` and `response.json()`: these are network I/O and library JSON decoding. The model starts from the decoded value.
- `downloadFile` (lib/utils.ts): the fetch, the buffering and the file write are left out. A download helper is modelled by the `FileDownload(url, path)` call it makes. `downloadFile` checks neither the size nor the hash, so nothing can be said about the bytes written.
- `unzipJar` (lib/JarProcessing.ts): it is a thin wrapper over the `unzipper` library, whose behaviour is not visible.
- index.ts: server start-up and the database connection. The web server and mongo modules are not part of this model.
- `toString` of all three classes: it is `JSON.stringify` of `toJson`, which is library serialisation.
- Promises: the `async` lookups are modelled as plain functions. A rejected promise is modelled as a `Failure`.
- Immutability holds by construction: the model's lookups, URL choices and `toJson` are functions of immutable values. So "lookups leave `latest` and `versions` unchanged", "choosing a URL leaves the record unchanged" and "`toJson` twice gives equal results" need no separate statement.
- Aliasing: the source stores and returns the same array and object references it was given. Mutating a returned object would therefore change the instance. Values here have no identity.
- `arguments`, `libraries[].rules` and the other nested descriptor fields are opaque `Value`s. The constructor takes `any` and does not check their declared shapes.
- JavaScript numbers are doubles; they appear as `int` because they are only copied, never computed with.
- Property reads see only an object's own keys. Prototype properties (`length`, `constructor`, …) are not modelled, and none of them is a key this code reads.
- `Version.type` is modelled as one of its four declared literals, and `Asset` as `{hash: string, size: int}`, as the TypeScript types declare. Decoded data that breaks these types is outside the model.
