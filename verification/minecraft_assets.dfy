/**
 * The asset index of lib/piston/MinecraftAssets.ts: a flat map from a
 * logical resource path to the hash and size of the object stored there.
 */
module MinecraftAssets {
  import opened JsValue

  /** One entry of the index. */
  datatype Asset = Asset(hash: string, size: int)

  /**
   * The plain `{ objects }` object the class is built from and turned back
   * into; `extra` holds any other top-level keys it carries, such as the
   * `virtual` flag of older indexes.
   */
  datatype AssetsJson = AssetsJson(objects: map<string, Asset>, extra: map<string, Value>)

  /** An instance of the `MinecraftAssets` class. */
  datatype Assets = Assets(objects: map<string, Asset>)

  /** `new MinecraftAssets(json)`: stores `json.objects` and nothing else. */
  function New(json: AssetsJson): (a: Assets)
    ensures a.objects == json.objects
  {
    Assets(json.objects)
  }

  /** `toJson()`: a plain object holding the stored `objects` and no other key. */
  function ToJson(a: Assets): (json: AssetsJson)
    ensures json.objects == a.objects
    ensures json.extra == map[]
  {
    AssetsJson(a.objects, map[])
  }

  /**
   * Building from a plain object and converting back keeps `objects` and
   * drops every other key; so it is the identity exactly on objects with no
   * other key.
   */
  lemma JsonRoundTrip(json: AssetsJson)
    ensures ToJson(New(json)) == json.(extra := map[])
    ensures ToJson(New(json)) == json <==> json.extra == map[]
  {
  }

  /** Converting an instance to the plain object and back gives the same instance. */
  lemma AssetsRoundTrip(a: Assets)
    ensures New(ToJson(a)) == a
  {
  }
}
