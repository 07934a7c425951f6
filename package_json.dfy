/** What `createPackageJson` (package.js lines 111-125) writes: the input
    package.json object with the manifest's identity, `build.asar` off and
    the merged runtime descriptor under `chrome`. */
module PackageJson {
  import opened JsValues
  import opened BuildTypes

  /** Lines 120-122: `chrome = chrome || {}`, then each of `runtimeId` and
      `appId` keeps the descriptor's value when it is truthy and otherwise
      takes the run's value. */
  function MergedChrome(chrome: Option<JsObject>, runtimeId: Json, appId: Json): (c: JsObject)
    ensures c.Keys == (if chrome.Some? then chrome.value.Keys else {}) + {"runtimeId", "appId"}
    ensures Get(c, "runtimeId") == Or(Get(if chrome.Some? then chrome.value else map[], "runtimeId"), runtimeId)
    ensures Get(c, "appId") == Or(Get(if chrome.Some? then chrome.value else map[], "appId"), appId)
    ensures chrome.Some? ==> forall k :: k in chrome.value && k != "runtimeId" && k != "appId" ==> c[k] == chrome.value[k]
  {
    var base := if chrome.Some? then chrome.value else map[];
    base["runtimeId" := Or(Get(base, "runtimeId"), runtimeId)]["appId" := Or(Get(base, "appId"), appId)]
  }

  /** The descriptor's ids take priority in package.json: a truthy
      `appId` or `runtimeId` in electron.json is kept whatever the run resolved. */
  lemma DescriptorIdsWin(chrome: JsObject, runtimeId: Json, appId: Json)
    ensures Truthy(Get(chrome, "appId")) ==> Get(MergedChrome(Some(chrome), runtimeId, appId), "appId") == chrome["appId"]
    ensures Truthy(Get(chrome, "runtimeId")) ==> Get(MergedChrome(Some(chrome), runtimeId, appId), "runtimeId") == chrome["runtimeId"]
    ensures !Truthy(Get(chrome, "appId")) ==> Get(MergedChrome(Some(chrome), runtimeId, appId), "appId") == appId
    ensures !Truthy(Get(chrome, "runtimeId")) ==> Get(MergedChrome(Some(chrome), runtimeId, appId), "runtimeId") == runtimeId
  {
  }

  /** `createPackageJson` runs once per packaged platform; merging again with
      the same run values leaves the descriptor as the first call left it. */
  lemma {:induction false} MergeIsIdempotent(chrome: Option<JsObject>, runtimeId: Json, appId: Json)
    ensures MergedChrome(Some(MergedChrome(chrome, runtimeId, appId)), runtimeId, appId) == MergedChrome(chrome, runtimeId, appId)
  {
    var once := MergedChrome(chrome, runtimeId, appId);
    var twice := MergedChrome(Some(once), runtimeId, appId);
    assert Or(Get(once, "runtimeId"), runtimeId) == Get(once, "runtimeId");
    assert Or(Get(once, "appId"), appId) == Get(once, "appId");
    assert twice.Keys == once.Keys;
    forall k | k in once ensures twice[k] == once[k] {
    }
  }

  /** Lines 114-123: the package object with `name`, `description` and
      `version` from the manifest, `build` replaced by `{asar: false}` and
      `chrome` set to the merged descriptor; every other field as read. */
  function PackageJsonOf(input: JsObject, manifest: Manifest, chrome: JsObject): (out: JsObject)
    ensures out.Keys == input.Keys + {"name", "description", "version", "build", "chrome"}
    ensures out["name"] == Str(manifest.name)
    ensures out["description"] == FromOption(manifest.description)
    ensures out["version"] == Str(manifest.version)
    ensures out["build"] == Obj(map["asar" := Bool(false)])
    ensures out["chrome"] == Obj(chrome)
    ensures forall k :: k in input && k !in {"name", "description", "version", "build", "chrome"} ==> out[k] == input[k]
  {
    input["name" := Str(manifest.name)]
      ["description" := FromOption(manifest.description)]
      ["version" := Str(manifest.version)]
      ["build" := Obj(map["asar" := Bool(false)])]
      ["chrome" := Obj(chrome)]
  }
}
