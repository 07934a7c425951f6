/** The arguments the build script hands to its external tools
    (electron-packager, ncp, zip, electron-winstaller) and which produced
    app paths get which post-processing step (package.js lines 133-292). */
module Packaging {
  import opened JsValues
  import opened BuildTypes
  import opened Icons

  /** `manifest.author || manifest.name`. */
  function AuthorOrName(m: Manifest): (a: string)
    ensures StrTruthy(m.author) ==> a == m.author.value
    ensures !StrTruthy(m.author) ==> a == m.name
  {
    if StrTruthy(m.author) then m.author.value else m.name
  }

  /** The URL scheme the app registers: `ec-<appId>` (line 188). */
  function UrlScheme(appId: string): (s: string)
    ensures "ec-" <= s && s[3..] == appId
  {
    "ec-" + appId
  }

  /** Different app ids register different schemes. */
  lemma UrlSchemeInjective(a: string, b: string)
    requires UrlScheme(a) == UrlScheme(b)
    ensures a == b
  {
    assert a == UrlScheme(a)[3..];
  }

  datatype Win32Metadata = Win32Metadata(
    companyName: string, fileDescription: string, productName: string, internalName: string)

  datatype Protocol = Protocol(name: string, schemes: seq<string>)

  /** The options object of lines 162-191 (its `afterCopy` hook is
      `StageSteps`). `scriptDir` is `__dirname`, `cwd` is `process.cwd()`
      and `platform` is `os.platform()`. */
  datatype PackagerOptions = PackagerOptions(
    dir: string, out: string, platform: string, arch: string,
    name: string, icon: string, appVersion: string, buildVersion: string,
    appCopyright: string, overwrite: bool,
    win32metadata: Win32Metadata, osxSign: bool, protocols: seq<Protocol>)

  function PackagerOptionsFor(m: Manifest, appId: string, paths: PathApi, scriptDir: string, cwd: string, platform: string): (o: PackagerOptions)
    ensures o.dir == scriptDir && o.out == paths.join([scriptDir, "build"]) && o.platform == platform
    ensures o.icon == PlatformIcon(paths, cwd, platform)
    ensures o.appVersion == o.buildVersion == m.version
    ensures o.name == o.win32metadata.fileDescription == o.win32metadata.productName == o.win32metadata.internalName == m.name
    ensures o.arch == "all" && o.overwrite && o.osxSign
    ensures o.protocols == [Protocol(m.name, [UrlScheme(appId)])]
  {
    PackagerOptions(
      scriptDir, paths.join([scriptDir, "build"]), platform, "all",
      m.name, PlatformIcon(paths, cwd, platform), m.version, m.version,
      "Copyright " + AuthorOrName(m), true,
      Win32Metadata(AuthorOrName(m), m.name, m.name, m.name), true,
      [Protocol(m.name, [UrlScheme(appId)])])
  }

  /** The options of `createWindowsInstaller` (lines 276-289). */
  datatype InstallerOptions = InstallerOptions(
    appDirectory: string, outputDirectory: string, authors: string, version: string,
    exe: string, setupExe: string, productName: string, title: string, name: string,
    iconUrl: string, description: Option<string>, noMsi: bool)

  /** Lines 273-289 for one win32 app path. The icon URL is the one line 273
      assigns: the working directory joined once more onto the platform icon
      of line 109, turned into a `file://` URL. */
  function InstallerOptionsFor(m: Manifest, appPath: string, paths: PathApi, cwd: string, platform: string): (o: InstallerOptions)
    ensures o.appDirectory == appPath && o.outputDirectory == appPath + "-installer"
    ensures o.exe == m.name + ".exe" && o.setupExe == paths.basename(appPath) + ".exe"
    ensures o.productName == o.title == o.name == m.name
    ensures o.version == m.version && o.description == m.description
    ensures o.iconUrl == FileUrl(paths.join([cwd, PlatformIcon(paths, cwd, platform)]))
    ensures "file://" <= o.iconUrl
    ensures o.noMsi
  {
    var iconUrl := FileUrl(paths.join([cwd, PlatformIcon(paths, cwd, platform)]));
    InstallerOptions(
      appPath, appPath + "-installer", AuthorOrName(m), m.version,
      m.name + ".exe", paths.basename(appPath) + ".exe", m.name, m.name, m.name,
      iconUrl, m.description, true)
  }

  /** The installer's icon is the icon file the packager was given: its URL
      is that path, joined onto the working directory, as a `file://` URL. */
  lemma InstallerIconIsPackagerIcon(m: Manifest, appId: string, paths: PathApi, scriptDir: string,
                                    cwd: string, platform: string, appPath: string)
    ensures InstallerOptionsFor(m, appPath, paths, cwd, platform).iconUrl ==
      FileUrl(paths.join([cwd, PackagerOptionsFor(m, appId, paths, scriptDir, cwd, platform).icon]))
  {
  }

  /** The copyright, the Windows company name and the installer's authors
      all name the manifest author, or the app name when there is none. */
  lemma AuthorFieldsAgree(m: Manifest, appId: string, paths: PathApi, scriptDir: string, cwd: string,
                          platform: string, appPath: string)
    ensures PackagerOptionsFor(m, appId, paths, scriptDir, cwd, platform).appCopyright == "Copyright " + AuthorOrName(m)
    ensures PackagerOptionsFor(m, appId, paths, scriptDir, cwd, platform).win32metadata.companyName == AuthorOrName(m)
    ensures InstallerOptionsFor(m, appPath, paths, cwd, platform).authors == AuthorOrName(m)
  {
  }

  /** What happens to one produced app path after packaging. */
  datatype PostStep =
    | MacZip(cwd: string, archive: string, bundle: string)   // spawn('zip', ['-ry', archive, bundle], {cwd})
    | WindowsInstaller(options: InstallerOptions)

  /** `makeMacZip(appPath)` (lines 240-248). */
  function MacZipFor(m: Manifest, appPath: string): (z: PostStep)
    ensures z.MacZip? && z.cwd == appPath
    ensures z.archive == m.name + "-mac.zip" && z.bundle == m.name + ".app"
  {
    MacZip(appPath, m.name + "-mac.zip", m.name + ".app")
  }

  /** `p.indexOf(tag) != -1`. */
  predicate Mentions(p: string, tag: string) {
    IndexOf(p, tag) != -1
  }

  /** `appPaths.filter(p => p.indexOf(tag) != -1)` (lines 251 and 267): every
      mentioning path as often as it was produced, and no other. */
  function PathsMentioning(appPaths: seq<string>, tag: string): (r: seq<string>)
    ensures |r| <= |appPaths|
    ensures forall p :: p in r <==> p in appPaths && Mentions(p, tag)
    decreases |appPaths|
  {
    if appPaths == [] then []
    else (if Mentions(appPaths[0], tag) then [appPaths[0]] else []) + PathsMentioning(appPaths[1..], tag)
  }

  /** The filter keeps each mentioning path as many times as it was
      produced, and drops every other path. */
  lemma {:induction false} PathsMentioningCounts(appPaths: seq<string>, tag: string)
    ensures forall p :: multiset(PathsMentioning(appPaths, tag))[p] == if Mentions(p, tag) then multiset(appPaths)[p] else 0
    decreases |appPaths|
  {
    if appPaths != [] {
      PathsMentioningCounts(appPaths[1..], tag);
      assert appPaths == [appPaths[0]] + appPaths[1..];
    }
  }

  /** The filter keeps the produced order: filtering two runs of paths one
      after the other is filtering each and putting the results together. */
  lemma {:induction false} PathsMentioningAppend(a: seq<string>, b: seq<string>, tag: string)
    ensures PathsMentioning(a + b, tag) == PathsMentioning(a, tag) + PathsMentioning(b, tag)
    decreases |a|
  {
    if a == [] {
      assert a + b == b;
    } else {
      var ab := a + b;
      assert ab[0] == a[0] && ab[1..] == a[1..] + b;
      PathsMentioningAppend(a[1..], b, tag);
    }
  }

  /** A single path is kept exactly when it mentions the tag. */
  lemma PathsMentioningOne(p: string, tag: string)
    ensures PathsMentioning([p], tag) == if Mentions(p, tag) then [p] else []
  {
    assert [p][1..] == [];
  }

  function ZipSteps(m: Manifest, darwinPaths: seq<string>): (steps: seq<PostStep>)
    ensures |steps| == |darwinPaths|
    ensures forall i :: 0 <= i < |darwinPaths| ==> steps[i] == MacZipFor(m, darwinPaths[i])
    decreases |darwinPaths|
  {
    if darwinPaths == [] then [] else [MacZipFor(m, darwinPaths[0])] + ZipSteps(m, darwinPaths[1..])
  }

  function InstallerSteps(m: Manifest, win32Paths: seq<string>, paths: PathApi, cwd: string, platform: string): (steps: seq<PostStep>)
    ensures |steps| == |win32Paths|
    ensures forall i :: 0 <= i < |win32Paths| ==> steps[i] == WindowsInstaller(InstallerOptionsFor(m, win32Paths[i], paths, cwd, platform))
    decreases |win32Paths|
  {
    if win32Paths == [] then []
    else [WindowsInstaller(InstallerOptionsFor(m, win32Paths[0], paths, cwd, platform))] + InstallerSteps(m, win32Paths[1..], paths, cwd, platform)
  }

  /** Lines 250-292: a zip for every app path that mentions "darwin", then an
      installer for every one that mentions "win32". */
  function PostSteps(m: Manifest, appPaths: seq<string>, paths: PathApi, cwd: string, platform: string): seq<PostStep> {
    ZipSteps(m, PathsMentioning(appPaths, "darwin")) + InstallerSteps(m, PathsMentioning(appPaths, "win32"), paths, cwd, platform)
  }

  /** The app path a post-processing step works on. */
  function StepPath(s: PostStep): string {
    match s
    case MacZip(cwd, _, _) => cwd
    case WindowsInstaller(o) => o.appDirectory
  }

  /** A path has a zip step exactly when it is one of the given paths. */
  lemma ZipStepsCover(m: Manifest, darwinPaths: seq<string>, p: string)
    ensures MacZipFor(m, p) in ZipSteps(m, darwinPaths) <==> p in darwinPaths
  {
    var zips := ZipSteps(m, darwinPaths);
    if p in darwinPaths {
      var i :| 0 <= i < |darwinPaths| && darwinPaths[i] == p;
      assert zips[i] == MacZipFor(m, p);
    }
    if MacZipFor(m, p) in zips {
      var i :| 0 <= i < |zips| && zips[i] == MacZipFor(m, p);
      assert zips[i].cwd == darwinPaths[i];
    }
  }

  /** An app path gets a zip exactly when it mentions "darwin". */
  lemma ZipRouting(m: Manifest, appPaths: seq<string>, paths: PathApi, cwd: string, platform: string, p: string)
    requires p in appPaths
    ensures MacZipFor(m, p) in PostSteps(m, appPaths, paths, cwd, platform) <==> Mentions(p, "darwin")
  {
    var installers := InstallerSteps(m, PathsMentioning(appPaths, "win32"), paths, cwd, platform);
    assert MacZipFor(m, p) !in installers by {
      assert forall i :: 0 <= i < |installers| ==> installers[i].WindowsInstaller?;
    }
    ZipStepsCover(m, PathsMentioning(appPaths, "darwin"), p);
  }

  /** A path has an installer step exactly when it is one of the given paths. */
  lemma InstallerStepsCover(m: Manifest, win32Paths: seq<string>, paths: PathApi, cwd: string, platform: string, p: string)
    ensures WindowsInstaller(InstallerOptionsFor(m, p, paths, cwd, platform)) in InstallerSteps(m, win32Paths, paths, cwd, platform)
      <==> p in win32Paths
  {
    var installers := InstallerSteps(m, win32Paths, paths, cwd, platform);
    var step := WindowsInstaller(InstallerOptionsFor(m, p, paths, cwd, platform));
    if p in win32Paths {
      var i :| 0 <= i < |win32Paths| && win32Paths[i] == p;
      assert installers[i] == step;
    }
    if step in installers {
      var i :| 0 <= i < |installers| && installers[i] == step;
      assert installers[i].options.appDirectory == win32Paths[i];
    }
  }

  /** An app path gets an installer exactly when it mentions "win32". */
  lemma InstallerRouting(m: Manifest, appPaths: seq<string>, paths: PathApi, cwd: string, platform: string, p: string)
    requires p in appPaths
    ensures WindowsInstaller(InstallerOptionsFor(m, p, paths, cwd, platform)) in PostSteps(m, appPaths, paths, cwd, platform)
      <==> Mentions(p, "win32")
  {
    var zips := ZipSteps(m, PathsMentioning(appPaths, "darwin"));
    var step := WindowsInstaller(InstallerOptionsFor(m, p, paths, cwd, platform));
    assert step !in zips by {
      assert forall i :: 0 <= i < |zips| ==> zips[i].MacZip?;
    }
    InstallerStepsCover(m, PathsMentioning(appPaths, "win32"), paths, cwd, platform, p);
  }

  /** Every zip step works on one of the given paths. */
  lemma ZipStepsWithin(m: Manifest, darwinPaths: seq<string>, s: PostStep)
    requires s in ZipSteps(m, darwinPaths)
    ensures s.MacZip? && StepPath(s) in darwinPaths
  {
    var zips := ZipSteps(m, darwinPaths);
    var i :| 0 <= i < |zips| && zips[i] == s;
    assert StepPath(s) == darwinPaths[i];
  }

  /** Every installer step works on one of the given paths. */
  lemma InstallerStepsWithin(m: Manifest, win32Paths: seq<string>, paths: PathApi, cwd: string, platform: string, s: PostStep)
    requires s in InstallerSteps(m, win32Paths, paths, cwd, platform)
    ensures s.WindowsInstaller? && StepPath(s) in win32Paths
  {
    var installers := InstallerSteps(m, win32Paths, paths, cwd, platform);
    var i :| 0 <= i < |installers| && installers[i] == s;
    assert StepPath(s) == win32Paths[i];
  }

  /** Every step works on a produced app path that mentions its platform,
      so a path that mentions neither "darwin" nor "win32" gets nothing. */
  lemma StepsFollowTags(m: Manifest, appPaths: seq<string>, paths: PathApi, cwd: string, platform: string, s: PostStep)
    requires s in PostSteps(m, appPaths, paths, cwd, platform)
    ensures StepPath(s) in appPaths
    ensures s.MacZip? ==> Mentions(StepPath(s), "darwin")
    ensures s.WindowsInstaller? ==> Mentions(StepPath(s), "win32")
  {
    var darwin := PathsMentioning(appPaths, "darwin");
    var win32 := PathsMentioning(appPaths, "win32");
    if s in ZipSteps(m, darwin) {
      ZipStepsWithin(m, darwin, s);
    } else {
      InstallerStepsWithin(m, win32, paths, cwd, platform, s);
    }
  }

  /** Lines 234-239: a packaging error is rethrown and ends the run;
      otherwise every produced path is routed. */
  function AfterPackaging(err: Option<string>, m: Manifest, appPaths: seq<string>, paths: PathApi, cwd: string, platform: string): (r: Result<seq<PostStep>, Fatal>)
    ensures err.Some? <==> r.Err?
    ensures r.Err? ==> r.error == PackagingFailed(err.value)
    ensures r.Ok? ==> r.value == PostSteps(m, appPaths, paths, cwd, platform)
  {
    if err.Some? then Err(PackagingFailed(err.value)) else Ok(PostSteps(m, appPaths, paths, cwd, platform))
  }

  // Staging the app into a packaged build.

  /** An `ncp` copy (never overwriting, following links) or a `mkdirp.sync`. */
  datatype CopyStep = Copy(from: string, to: string) | MakeDirs(path: string)

  /** The `afterCopy` hook (lines 200-232) and lines 140-150 of the Linux
      assembler: copy the app into `unpacked-crx`, then, only when
      `--assets=` was given, create `platform-assets/<platform>` and copy the
      platform's assets into it. */
  function StageSteps(paths: PathApi, buildPath: string, appDir: string, assets: Option<string>, platform: string): (steps: seq<CopyStep>)
    ensures |steps| >= 1 && steps[0] == Copy(appDir, paths.join([buildPath, "unpacked-crx"]))
    ensures !StrTruthy(assets) ==> |steps| == 1
    ensures StrTruthy(assets) ==>
      steps[1..] == [MakeDirs(paths.join([buildPath, "platform-assets", platform])),
                     Copy(paths.join([assets.value, platform]), paths.join([buildPath, "platform-assets", platform]))]
  {
    var app := [Copy(appDir, paths.join([buildPath, "unpacked-crx"]))];
    if !StrTruthy(assets) then app
    else
      var dest := paths.join([buildPath, "platform-assets", platform]);
      app + [MakeDirs(dest), Copy(paths.join([assets.value, platform]), dest)]
  }

  /** The files the Linux assembler copies from the script's directory (line 137). */
  const LinuxRuntimeFiles: seq<string> :=
    ["electron-main.js", "electron-background.html", "package.json", "node_modules", "chrome"]

  function RuntimeCopies(paths: PathApi, scriptDir: string, buildPath: string, files: seq<string>): (steps: seq<CopyStep>)
    ensures |steps| == |files|
    ensures forall i :: 0 <= i < |files| ==> steps[i] == Copy(paths.join([scriptDir, files[i]]), paths.join([buildPath, files[i]]))
    decreases |files|
  {
    if files == [] then []
    else [Copy(paths.join([scriptDir, files[0]]), paths.join([buildPath, files[0]]))] + RuntimeCopies(paths, scriptDir, buildPath, files[1..])
  }

  /** `startLinuxPackager` (lines 133-153): create `<scriptDir>/build`
      (line 136), copy the runtime files into it, then stage the app as the
      packaged build does. */
  function LinuxSteps(paths: PathApi, scriptDir: string, appDir: string, assets: Option<string>, platform: string): seq<CopyStep> {
    var buildPath := paths.join([scriptDir, "build"]);
    [MakeDirs(buildPath)] + RuntimeCopies(paths, scriptDir, buildPath, LinuxRuntimeFiles) + StageSteps(paths, buildPath, appDir, assets, platform)
  }

  /** Which packager `startPackager` runs, and with what. */
  datatype PackagerPlan =
    | LinuxAssembler(steps: seq<CopyStep>)
    | ElectronPackager(options: PackagerOptions)

  /** `startPackager` (lines 155-191): the hand-made Linux tree when the
      `TARGET_PLATFORM` environment variable is "linux" (line 156), and
      electron-packager on the script directory otherwise. */
  function StartPackager(targetPlatform: Option<string>, m: Manifest, appId: string, paths: PathApi,
                         scriptDir: string, cwd: string, platform: string,
                         appDir: string, assets: Option<string>): (p: PackagerPlan)
    ensures p.LinuxAssembler? <==> targetPlatform == Some("linux")
    ensures p.LinuxAssembler? ==> p.steps == LinuxSteps(paths, scriptDir, appDir, assets, platform)
    ensures p.ElectronPackager? ==> p.options == PackagerOptionsFor(m, appId, paths, scriptDir, cwd, platform)
    ensures p.ElectronPackager? ==>
              && p.options.icon == PlatformIcon(paths, cwd, platform)
              && p.options.out == paths.join([scriptDir, "build"])
              && p.options.protocols == [Protocol(m.name, [UrlScheme(appId)])]
  {
    if targetPlatform == Some("linux") then LinuxAssembler(LinuxSteps(paths, scriptDir, appDir, assets, platform))
    else ElectronPackager(PackagerOptionsFor(m, appId, paths, scriptDir, cwd, platform))
  }

  /** Without `--assets=` no step touches a `platform-assets` directory. */
  lemma NoAssetsNoPlatformAssets(paths: PathApi, scriptDir: string, buildPath: string, appDir: string, platform: string)
    ensures StageSteps(paths, buildPath, appDir, None, platform) == [Copy(appDir, paths.join([buildPath, "unpacked-crx"]))]
    ensures LinuxSteps(paths, scriptDir, appDir, None, platform)[|LinuxRuntimeFiles| + 1..] ==
      [Copy(appDir, paths.join([paths.join([scriptDir, "build"]), "unpacked-crx"]))]
  {
  }

  /** The `ncp` callbacks of the packaged build (lines 205-209, 224-228): the
      first copy that fails ends the run and no later step is taken. */
  function RunCopies(steps: seq<CopyStep>, fails: CopyStep -> bool): (r: Result<seq<CopyStep>, Fatal>)
    ensures r.Ok? <==> forall i :: 0 <= i < |steps| ==> !(steps[i].Copy? && fails(steps[i]))
    ensures r.Ok? ==> r.value == steps
    ensures r.Err? ==>
              exists i ::
                && 0 <= i < |steps| && steps[i].Copy? && fails(steps[i]) && r.error == CopyFailed(steps[i].to)
                && forall j :: 0 <= j < i ==> !(steps[j].Copy? && fails(steps[j]))
    decreases |steps|
  {
    if steps == [] then Ok([])
    else if steps[0].Copy? && fails(steps[0]) then Err(CopyFailed(steps[0].to))
    else match RunCopies(steps[1..], fails)
      case Err(e) =>
        var i :| 0 <= i < |steps| - 1 && steps[1..][i].Copy? && fails(steps[1..][i]) && e == CopyFailed(steps[1..][i].to)
          && forall j :: 0 <= j < i ==> !(steps[1..][j].Copy? && fails(steps[1..][j]));
        assert steps[i + 1] == steps[1..][i];
        assert forall j :: 1 <= j < i + 1 ==> steps[j] == steps[1..][j - 1];
        Err(e)
      case Ok(rest) => Ok([steps[0]] + rest)
  }
}
