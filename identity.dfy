/** Where the run's runtime id (package.js lines 64-70) and application id
    (lines 297-319) come from. */
module Identity {
  import opened JsValues
  import opened BuildTypes

  /** `chrome && chrome.<field>`: `undefined` when electron.json could not be read. */
  function DescriptorField(chrome: Option<JsObject>, field: string): Json {
    if chrome.None? then Undefined else Get(chrome.value, field)
  }

  /** Line 64: the command-line runtime id when it is non-empty, otherwise
      whatever electron.json holds under `runtimeId`. */
  function EffectiveRuntimeId(cli: Option<string>, chrome: Option<JsObject>): (r: Json)
    ensures StrTruthy(cli) ==> r == Str(cli.value)
    ensures !StrTruthy(cli) ==> r == DescriptorField(chrome, "runtimeId")
    ensures Truthy(r) <==> StrTruthy(cli) || Truthy(DescriptorField(chrome, "runtimeId"))
  {
    Or(FromOption(cli), DescriptorField(chrome, "runtimeId"))
  }

  /** The resolved application id, and whether it was derived from the manifest key. */
  datatype AppIdentity = AppIdentity(id: string, derived: bool)

  /** Lines 303-319: a non-empty `--app-id=` is used as given; otherwise a
      non-empty manifest `key` goes through `derive` (the promise returned by
      `calculateId`; `None` is a rejection) and its result is used as it
      comes; every other case ends in `needAppId`. */
  function ResolveAppId(cli: Option<string>, key: Option<string>, derive: string -> Option<string>): (r: Result<AppIdentity, Fatal>)
    ensures StrTruthy(cli) ==> r == Ok(AppIdentity(cli.value, false))
    ensures !StrTruthy(cli) ==> (r.Ok? <==> StrTruthy(key) && derive(key.value).Some?)
    ensures r.Ok? && !StrTruthy(cli) ==> r.value == AppIdentity(derive(key.value).value, true)
    ensures r.Err? ==> r.error == NeedAppId
  {
    if StrTruthy(cli) then Ok(AppIdentity(cli.value, false))
    else if !StrTruthy(key) then Err(NeedAppId)
    else match derive(key.value)
      case None => Err(NeedAppId)
      case Some(id) => Ok(AppIdentity(id, true))
  }
}
