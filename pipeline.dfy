/** The build script's top level: its module-level variables, the
    statements that update them in place, and the start-up sequence from
    the argument loop to the icon step (package.js lines 31-125, 297-319). */
module Pipeline {
  import opened JsValues
  import opened BuildTypes
  import opened Args
  import opened Identity
  import opened Icons
  import opened PackageJson
  import opened Packaging

  /** The script's module-level variables once the app directory is known
      and the two JSON files are read. `runtimeId`, `appId` and `chrome`
      are reassigned or mutated later; the others are not. */
  class BuildScript {
    const appDir: string
    const assets: Option<string>
    const manifest: Manifest
    var appId: Option<string>
    var runtimeId: Json
    var chrome: Option<JsObject>

    /** Lines 31-62: the variables as the argument loop and the reads of
        manifest.json and electron.json leave them. */
    constructor (cli: CliArgs, appDir: string, manifest: Manifest, chrome: Option<JsObject>)
      ensures this.appDir == appDir && assets == cli.assets && this.manifest == manifest
      ensures appId == cli.appId && runtimeId == FromOption(cli.runtimeId) && this.chrome == chrome
    {
      this.appDir := appDir;
      this.assets := cli.assets;
      this.manifest := manifest;
      this.appId := cli.appId;
      this.runtimeId := FromOption(cli.runtimeId);
      this.chrome := chrome;
    }

    /** Lines 64-70: fall back to electron.json's runtime id; report whether
        the "missing --runtime-id" warning is printed. */
    method MergeRuntimeId() returns (warned: bool)
      modifies this`runtimeId
      ensures runtimeId == Or(old(runtimeId), DescriptorField(chrome, "runtimeId"))
      ensures warned == !Truthy(runtimeId)
    {
      runtimeId := Or(runtimeId, DescriptorField(chrome, "runtimeId"));
      warned := !Truthy(runtimeId);
    }

    /** Lines 303-319: keep a usable `--app-id=`, or assign the id derived
        from the manifest key (line 310), or fail with `needAppId`. */
    method AssignAppId(derive: string -> Option<string>) returns (r: Result<AppIdentity, Fatal>)
      modifies this`appId
      ensures r == ResolveAppId(old(appId), manifest.key, derive)
      ensures r.Ok? ==> appId == Some(r.value.id)
      ensures r.Err? ==> appId == old(appId)
    {
      if StrTruthy(appId) {
        r := Ok(AppIdentity(appId.value, false));
      } else if !StrTruthy(manifest.key) {
        r := Err(NeedAppId);
      } else {
        var id := derive(manifest.key.value);
        if id.None? {
          r := Err(NeedAppId);
        } else {
          appId := Some(id.value);
          r := Ok(AppIdentity(id.value, true));
        }
      }
    }

    /** Lines 111-125: rewrite the package object read from package.json and
        merge the run's ids into the shared `chrome` object in place. */
    method CreatePackageJson(input: JsObject) returns (output: JsObject)
      modifies this`chrome
      ensures chrome == Some(MergedChrome(old(chrome), runtimeId, FromOption(appId)))
      ensures output == PackageJsonOf(input, manifest, chrome.value)
    {
      output := input;
      output := output["name" := Str(manifest.name)];
      output := output["description" := FromOption(manifest.description)];
      output := output["version" := Str(manifest.version)];
      output := output["build" := Obj(map["asar" := Bool(false)])];
      var c: JsObject := if chrome.Some? then chrome.value else map[];
      c := c["runtimeId" := Or(Get(c, "runtimeId"), runtimeId)];
      c := c["appId" := Or(Get(c, "appId"), FromOption(appId))];
      chrome := Some(c);
      output := output["chrome" := Obj(c)];
    }

    /** The `afterCopy` hook (lines 193-233) for one packaged build: write
        its package.json, then stage the app and the platform assets. */
    method AfterCopy(paths: PathApi, buildPath: string, input: JsObject, platform: string)
      returns (output: JsObject, steps: seq<CopyStep>)
      modifies this`chrome
      ensures chrome == Some(MergedChrome(old(chrome), runtimeId, FromOption(appId)))
      ensures output == PackageJsonOf(input, manifest, chrome.value)
      ensures steps == StageSteps(paths, buildPath, appDir, assets, platform)
    {
      output := CreatePackageJson(input);
      steps := StageSteps(paths, buildPath, appDir, assets, platform);
    }

    /** `startLinuxPackager` (lines 133-153): the copies into
        `<scriptDir>/build`, then the package.json rewritten in place. */
    method StartLinuxPackager(paths: PathApi, scriptDir: string, input: JsObject, platform: string)
      returns (steps: seq<CopyStep>, output: JsObject)
      modifies this`chrome
      ensures steps == LinuxSteps(paths, scriptDir, appDir, assets, platform)
      ensures chrome == Some(MergedChrome(old(chrome), runtimeId, FromOption(appId)))
      ensures output == PackageJsonOf(input, manifest, chrome.value)
    {
      steps := LinuxSteps(paths, scriptDir, appDir, assets, platform);
      output := CreatePackageJson(input);
    }
  }

  /** Everything the start-up sequence has settled when the icon script runs. */
  datatype Session = Session(
    appDir: string,
    assets: Option<string>,
    manifest: Manifest,
    chrome: Option<JsObject>,
    runtimeId: Json,
    runtimeWarning: bool,
    identity: AppIdentity,
    icon: IconChoice,
    iconCommand: string)

  /** The start-up sequence, from the argument loop to the icon command
      (lines 35-88, 297-319). JSON parsing of the two files is `readManifest`
      and `readDescriptor`; `None` is a missing or malformed file. A failure
      of `withAppId` inside the promise callback of line 309 is caught by the
      `.catch` of line 313 and so reported as `needAppId`. The icon is the
      one `SelectIcon` chooses, the largest by numeric size as line 77
      intends, not the one line 78's comparator yields as written
      (`Icons.AsWrittenMissesLargest`). */
  function Launch(argv: seq<string>, platform: string, paths: PathApi,
                  readManifest: string -> Option<Manifest>, readDescriptor: string -> Option<JsObject>,
                  derive: string -> Option<string>): Result<Session, Fatal>
  {
    var cli := Parsed(argv, paths.resolve);
    if !StrTruthy(cli.appDir) then Err(MissingAppDir)
    else
      var appDir := cli.appDir.value;
      match readManifest(paths.join([appDir, "manifest.json"]))
      case None => Err(ManifestUnreadable)
      case Some(manifest) =>
        var chrome := readDescriptor(paths.join([appDir, "electron.json"]));
        var runtimeId := EffectiveRuntimeId(cli.runtimeId, chrome);
        match ResolveAppId(cli.appId, manifest.key, derive)
        case Err(e) => Err(e)
        case Ok(identity) =>
          match SelectIcon(manifest.icons, appDir, paths)
          case Err(e) => Err(if identity.derived then NeedAppId else e)
          case Ok(icon) =>
            Ok(Session(appDir, cli.assets, manifest, chrome, runtimeId, !Truthy(runtimeId),
                       identity, icon, IconCommandLine(platform, icon.path)))
  }

  /** The script run up to the icon step, updating its variables in place. */
  method Run(argv: seq<string>, platform: string, paths: PathApi,
             readManifest: string -> Option<Manifest>, readDescriptor: string -> Option<JsObject>,
             derive: string -> Option<string>)
    returns (r: Result<Session, Fatal>)
    ensures r == Launch(argv, platform, paths, readManifest, readDescriptor, derive)
  {
    var cli := ParseArgv(argv, paths.resolve);
    if !StrTruthy(cli.appDir) {
      return Err(MissingAppDir);
    }
    var appDir := cli.appDir.value;
    var manifest := readManifest(paths.join([appDir, "manifest.json"]));
    if manifest.None? {
      return Err(ManifestUnreadable);
    }
    var script := new BuildScript(cli, appDir, manifest.value, readDescriptor(paths.join([appDir, "electron.json"])));
    var warned := script.MergeRuntimeId();
    assert script.runtimeId == EffectiveRuntimeId(cli.runtimeId, script.chrome);
    var identity := script.AssignAppId(derive);
    assert identity == ResolveAppId(cli.appId, manifest.value.key, derive);
    if identity.Err? {
      return Err(identity.error);
    }
    var icon := SelectIcon(manifest.value.icons, appDir, paths);
    if icon.Err? {
      return Err(if identity.value.derived then NeedAppId else icon.error);
    }
    r := Ok(Session(appDir, script.assets, script.manifest, script.chrome, script.runtimeId, warned,
                    identity.value, icon.value, IconCommandLine(platform, icon.value.path)));
  }

  /** Without an `--app-dir=` argument the run fails before any file is
      read, whatever the files hold; with one it never fails for that
      reason, since `path.resolve` never yields an empty path. */
  lemma MissingAppDirFailsFirst(argv: seq<string>, platform: string, paths: PathApi,
                                readManifest: string -> Option<Manifest>, readDescriptor: string -> Option<JsObject>,
                                derive: string -> Option<string>)
    requires forall s :: paths.resolve(s) != ""
    ensures Launch(argv, platform, paths, readManifest, readDescriptor, derive) == Err(MissingAppDir)
      <==> forall j :: 0 <= j < |argv| ==> !(AppDirFlag <= argv[j])
  {
    LastFlagIsLastMatch(argv, AppDirFlag);
  }

  /** Without a usable `--app-id=` and without a manifest key the run ends
      in `needAppId`, before the icon step and the packager. */
  lemma NoIdentityIsFatal(argv: seq<string>, platform: string, paths: PathApi,
                          readManifest: string -> Option<Manifest>, readDescriptor: string -> Option<JsObject>,
                          derive: string -> Option<string>, m: Manifest)
    requires StrTruthy(Parsed(argv, paths.resolve).appDir)
    requires readManifest(paths.join([Parsed(argv, paths.resolve).appDir.value, "manifest.json"])) == Some(m)
    requires !StrTruthy(LastFlag(argv, AppIdFlag)) && !StrTruthy(m.key)
    ensures Launch(argv, platform, paths, readManifest, readDescriptor, derive) == Err(NeedAppId)
  {
  }

  /** A usable `--app-id=` is the run's id, unchanged. */
  lemma CliAppIdUsedUnchanged(argv: seq<string>, platform: string, paths: PathApi,
                              readManifest: string -> Option<Manifest>, readDescriptor: string -> Option<JsObject>,
                              derive: string -> Option<string>)
    requires StrTruthy(LastFlag(argv, AppIdFlag))
    ensures Launch(argv, platform, paths, readManifest, readDescriptor, derive).Ok? ==>
      Launch(argv, platform, paths, readManifest, readDescriptor, derive).value.identity == AppIdentity(LastFlag(argv, AppIdFlag).value, false)
  {
  }

  /** electron.json can only add a runtime id or silence the warning: it
      never makes the run fail or succeed. */
  lemma DescriptorNeverFatal(argv: seq<string>, platform: string, paths: PathApi,
                             readManifest: string -> Option<Manifest>, d1: string -> Option<JsObject>, d2: string -> Option<JsObject>,
                             derive: string -> Option<string>)
    ensures Launch(argv, platform, paths, readManifest, d1, derive).Ok? <==> Launch(argv, platform, paths, readManifest, d2, derive).Ok?
    ensures Launch(argv, platform, paths, readManifest, d1, derive).Err? ==>
      Launch(argv, platform, paths, readManifest, d1, derive) == Launch(argv, platform, paths, readManifest, d2, derive)
  {
  }
}
