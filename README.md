# Build-script decision core of `resources/app/package.js`

`package.js` turns a Chrome-app directory into Electron packages. It reads
`--app-dir=`, `--app-id=`, `--runtime-id=` and `--assets=` from the command
line and loads `manifest.json` and an optional `electron.json` from the app
directory. It then settles the runtime id and the application id, tries to
pick the largest manifest icon for the icon script (the intent of line 77;
see "## Findings"), and drives its packaging tools.
Those tools are electron-packager (or a hand-made Linux tree), `ncp`,
`zip` and electron-winstaller. While electron-packager runs, its `afterCopy`
hook rewrites each build's `package.json` and then copies the app and its
assets into the build (lines 193-233). The Linux assembler instead copies
first and rewrites `package.json` last (lines 137-152). After packaging, the
script zips every produced path that mentions `darwin` and builds an
installer for every path that mentions `win32`.

This project models the decisions the script makes. The tools are not
modelled: each tool call becomes the list of arguments the script passes
to it. JavaScript's own semantics are written out:

- truthiness and `||`;
- `startsWith`, `indexOf` and `replace`;
- `parseInt` on size keys;
- string concatenation with `undefined`.

Modules, one file each:

- `JsValues` (`js_values.dfy`): the `Json` value type, `Truthy`, `Or`, and the string operations.
- `BuildTypes` (`build_types.dfy`): the manifest, the fatal conditions, and the uninterpreted `path` API.
- `Args` (`args.dfy`): the `process.argv` loop, as a method proved against `LastFlag`.
- `Identity` (`identity.dfy`): the runtime-id merge and application-id resolution.
- `Icons` (`icons.dfy`): icon selection, the comparator as written, the platform icon file, and the icon URL.
- `PackageJson` (`package_json.dfy`): the object `createPackageJson` builds and hands to `JSON.stringify`.
- `Packaging` (`packaging.dfy`): the choice between the Linux assembler and electron-packager, the options of the packager, the installer and the zip, artifact routing, and staging copies.
- `Pipeline` (`pipeline.dfy`): the class `BuildScript`, which holds the script's module-level variables. Its methods update `runtimeId`, `appId` and `chrome` in place, as the script does. `Run` drives the start-up sequence and is proved equal to the function `Launch`.

Points of the code the model keeps as they are:

- Only `--app-id=` and the manifest key can supply the identity (lines 303-319). `electron.json`'s `appId` is never read for it.
- In the written `package.json` the precedence is the other way round. A truthy `appId` or `runtimeId` in `electron.json` wins over the command-line or derived value (lines 121-122, `DescriptorIdsWin`). The `ec-<appId>` URL scheme always uses the resolved id.
- An empty `icons` object makes line 78 throw. When the id came from the manifest key, the throw happens inside the promise callback of line 309. The `.catch` at line 313 catches it, and the run ends with the `needAppId` message (`Launch`).
- The installer's icon URL (line 273) joins the working directory onto `platformIcon`, which line 109 has already joined onto the working directory. `InstallerOptionsFor` keeps both joins, with `path.join` uninterpreted, and `InstallerIconIsPackagerIcon` relates that URL to the packager's `icon`. Lines 269-271 compute an icon URL from the manifest icon, and line 273 overwrites it before use. The model keeps only the line 273 value.

## Model

| member | source | states |
|---|---|---|
| `JsValues.IndexOf` | resources/app/package.js:251 | `indexOf` is the first position at which the tag occurs, and -1 exactly when it occurs nowhere |
| `JsValues.ReplaceEvery` | resources/app/package.js:273 | `replace(/\\/g, '/')` keeps the length and turns every backslash, and only backslashes, into `/` |
| `JsValues.ReplaceFirst` | resources/app/package.js:273 | `replace(':', '')` removes only the first colon; a string without one is unchanged |
| `Args.ParseArgv` | resources/app/package.js:35-48 | the argv loop leaves each variable equal to `LastFlag` of its flag, with `path.resolve` applied to `--app-dir=` and `--assets=` |
| `Args.FlagsExclusive` | resources/app/package.js:36-47 | no argument starts with two of the four flags, so the order of the `else if` chain does not matter |
| `Args.LastFlagIsLastMatch` | resources/app/package.js:35-48 | a flag's value is the text after its prefix in the last argument that starts with it; it is unset exactly when no argument does |
| `Args.LaterFlagWins` | resources/app/package.js:35-48 | appending `flag + v` makes the flag's value `v`, overriding every earlier occurrence |
| `Args.UnrecognisedArgIgnored` | resources/app/package.js:35-48 | an argument that starts with none of the four flags changes none of the four variables |
| `Identity.EffectiveRuntimeId` | resources/app/package.js:64-70 | the runtime id is the command-line one when non-empty, else `electron.json`'s `runtimeId`; it is truthy exactly when one of them is (the type has no failure: absence only warns) |
| `Identity.ResolveAppId` | resources/app/package.js:297-319 | a non-empty `--app-id=` is used unchanged; otherwise a non-empty manifest key is derived and the derived id used; a missing key or a rejected derivation is `NeedAppId`, and that is the only failure |
| `Icons.ParseIntReadsLeadingDigits` | resources/app/package.js:78 | `parseInt` on a size key yields the value of its leading digits, ignoring what follows |
| `Icons.LargestIconIndex` | resources/app/package.js:77-78 | the chosen entry has the largest numeric size, and no earlier entry has that size (deterministic choice) |
| `Icons.SelectIcon` | resources/app/package.js:78-79 | fails with `NoIcons` exactly when `icons` is empty; otherwise yields the largest entry's key and `appDir` joined with its path |
| `Icons.LargestOfTwo` | resources/app/package.js:78-79 | with keys "16" and "128", in either order, key "128" and its path are chosen |
| `Icons.BooleanComparator` | resources/app/package.js:78 | the comparator as written yields only 1 or 0, and 1 exactly when both keys are numbers and the first is smaller |
| `Icons.BooleanComparatorIsInconsistent` | resources/app/package.js:78 | the comparator answers 1 for ("16", "128") and 0 for ("128", "16"), so it is not a consistent comparator |
| `Icons.SortByNonNegativeKeepsOrder` | resources/app/package.js:78 | a sort that reorders only on negative answers leaves the keys in their given order when the comparator is never negative |
| `Icons.AsWrittenPicksFirstKey` | resources/app/package.js:78 | as written, line 78 (`IconKeyAsWritten`) yields the first key in `Object.keys` order, whatever the sizes |
| `Icons.AsWrittenMissesLargest` | resources/app/package.js:78 | for {"16", "128"} the code as written yields "16", while the largest icon is "128" |
| `Icons.IconCommandLine` | resources/app/package.js:80-88 | the icon command is the script name (`icon.bat` on win32, `./icon.sh` elsewhere), one space and the icon path, with nothing else between or around them |
| `Icons.PlatformIconFile` | resources/app/package.js:103-109 | the icon file is `build/icon` followed by the platform's extension (`.ico`, `.icns`, `.png`), or by the text `undefined` on any other platform |
| `Icons.FileUrl` | resources/app/package.js:273 | the URL is `file://` followed by the path with every backslash turned into `/`: without a colon nothing else changes; otherwise only the first colon is dropped and the text on either side of it is kept in order. It therefore has no backslash and is one character shorter when there was a colon |
| `PackageJson.MergedChrome` | resources/app/package.js:120-122 | the merged descriptor has the old keys plus `runtimeId` and `appId`, each the descriptor's value when truthy, else the run's; all other keys are kept |
| `PackageJson.DescriptorIdsWin` | resources/app/package.js:120-123 | a truthy `appId` or `runtimeId` in `electron.json` is what package.json carries, whatever the run resolved; a falsy one is replaced by the run's |
| `PackageJson.MergeIsIdempotent` | resources/app/package.js:120-122 | merging a second time (once per packaged platform, line 198) leaves the descriptor as the first merge left it |
| `PackageJson.PackageJsonOf` | resources/app/package.js:114-123 | `name`, `description` and `version` are the manifest's, `build` is `{asar: false}`, `chrome` is the merged descriptor, and every other field of the input is unchanged |
| `Packaging.AuthorOrName` | resources/app/package.js:172 | the author-derived value is the manifest author when non-empty, else the app name |
| `Packaging.UrlScheme` | resources/app/package.js:188 | the registered scheme is `ec-` followed by the app id |
| `Packaging.UrlSchemeInjective` | resources/app/package.js:188 | different app ids register different schemes |
| `Packaging.PackagerOptionsFor` | resources/app/package.js:109-191 | the packager works on the script directory, writes to `<scriptDir>/build` for `os.platform()`, gets the line-109 `platformIcon` as its icon, the manifest's name and version everywhere they appear, all architectures, overwrite, signing, and one protocol with the `ec-` scheme |
| `Packaging.InstallerOptionsFor` | resources/app/package.js:273-289 | the installer reads the app path, writes to `<appPath>-installer`, names `<name>.exe` and `basename(appPath).exe`, carries the manifest's version and description, builds no MSI, and gets the line-273 icon URL: the working directory joined onto the line-109 `platformIcon`, as a `file://` URL |
| `Packaging.InstallerIconIsPackagerIcon` | resources/app/package.js:273 | the installer's icon URL is the `file://` URL of the packager's `icon` joined once more onto the working directory |
| `Packaging.AuthorFieldsAgree` | resources/app/package.js:172-177 | the copyright, the Windows company name and the installer authors (line 279) all use `AuthorOrName` |
| `Packaging.MacZipFor` | resources/app/package.js:240-248 | the zip runs in the app path and packs `<name>.app` into `<name>-mac.zip` |
| `Packaging.PathsMentioning` | resources/app/package.js:250-251 | the filter keeps exactly the produced paths whose `indexOf(tag)` is not -1, and no others |
| `Packaging.PathsMentioningCounts` | resources/app/package.js:250-251 | the filter keeps each mentioning path as many times as it was produced, and drops every other path |
| `Packaging.PathsMentioningAppend` | resources/app/package.js:250-251 | the filter keeps the produced order: filtering two runs of paths one after the other gives the two filtered runs one after the other |
| `Packaging.PathsMentioningOne` | resources/app/package.js:250-251 | a single path is kept exactly when it mentions the tag |
| `Packaging.ZipSteps` | resources/app/package.js:252-264 | one zip per darwin path, in order |
| `Packaging.InstallerSteps` | resources/app/package.js:268-292 | one installer per win32 path, in order |
| `Packaging.ZipRouting` | resources/app/package.js:250-264 | `PostSteps` gives a produced path a zip exactly when it mentions `darwin` |
| `Packaging.InstallerRouting` | resources/app/package.js:266-292 | `PostSteps` gives a produced path an installer exactly when it mentions `win32` |
| `Packaging.StepsFollowTags` | resources/app/package.js:250-292 | every step of `PostSteps` works on a produced path that mentions its platform, so a path mentioning neither gets nothing |
| `Packaging.AfterPackaging` | resources/app/package.js:234-239 | a packaging error ends the run with that error; otherwise the produced paths are routed |
| `Packaging.StageSteps` | resources/app/package.js:200-232 | the app is copied into `unpacked-crx`; only with `--assets=` is `platform-assets/<platform>` created and filled from `<assets>/<platform>` |
| `Packaging.RuntimeCopies` | resources/app/package.js:137-139 | each Linux runtime file is copied from the script directory to the same name under `build` |
| `Packaging.NoAssetsNoPlatformAssets` | resources/app/package.js:142-150 | without `--assets=` the only staging step, packaged or Linux, is the app copy |
| `Packaging.RunCopies` | resources/app/package.js:201-231 | the staging completes exactly when no copy fails; otherwise the run ends with the target of the first failing copy, and every copy before it succeeded |
| `Packaging.StartPackager` | resources/app/package.js:155-191 | the Linux assembler runs exactly when `TARGET_PLATFORM` is `linux`, with the Linux copies; otherwise electron-packager gets `PackagerOptionsFor`, with the line-109 `platformIcon`, the output `<scriptDir>/build` and the `ec-` scheme |
| `Pipeline.BuildScript.constructor` | resources/app/package.js:31-62 | the script's variables start as the argument loop and the two file reads leave them |
| `Pipeline.BuildScript.MergeRuntimeId` | resources/app/package.js:64-70 | `runtimeId` keeps a truthy value and otherwise takes `electron.json`'s `runtimeId`, and the warning is printed exactly when the result is falsy |
| `Pipeline.BuildScript.AssignAppId` | resources/app/package.js:303-319 | the outcome is `ResolveAppId` of the old `appId`; `appId` is assigned the resolved id and is left alone on failure |
| `Pipeline.BuildScript.CreatePackageJson` | resources/app/package.js:111-125 | the shared `chrome` object becomes the merged descriptor, and the output is `PackageJsonOf` the input |
| `Pipeline.BuildScript.AfterCopy` | resources/app/package.js:193-233 | each packaged build gets its package.json rewritten and then the staging copies |
| `Pipeline.BuildScript.StartLinuxPackager` | resources/app/package.js:133-153 | the Linux tree's steps are `LinuxSteps`: create `<scriptDir>/build`, copy the runtime files, then the staging copies; the package.json is rewritten last |
| `Pipeline.Run` | resources/app/package.js:35-79 | the start-up run, with the variables updated in place, ends exactly as the function `Launch` says, with the icon chosen by `SelectIcon` |
| `Pipeline.MissingAppDirFailsFirst` | resources/app/package.js:50-56 | the run fails with `MissingAppDir`, whatever the files hold, exactly when no argument starts with `--app-dir=` |
| `Pipeline.NoIdentityIsFatal` | resources/app/package.js:303-307 | with no usable `--app-id=` and no manifest key, the run ends in `NeedAppId` before the icon step |
| `Pipeline.CliAppIdUsedUnchanged` | resources/app/package.js:317-319 | a usable `--app-id=` becomes the run's id unchanged |
| `Pipeline.DescriptorNeverFatal` | resources/app/package.js:57-70 | the contents of `electron.json`, or its absence, never decide whether the run fails |

## Findings

| source | as written | input that shows it | evidently intended | confidence | as-written member | corrected member |
|---|---|---|---|---|---|---|
| resources/app/package.js:78 | the sort comparator `parseInt(a) < parseInt(b)` returns a boolean, read as 1 or 0 and never negative, so it is not a consistent comparator and the order is up to the engine | `icons: {"16": "a.png", "128": "b.png"}`: `Object.keys` lists "16", "128"; a sort that moves elements only on negative answers (V8's TimSort, Node 11 and later) keeps that order, so key "16" is taken | the largest numeric key, "128" ("grab largest", line 77) | not executed; engine-dependent: an insertion sort that moves elements on positive answers would happen to sort these descending | `Icons.AsWrittenMissesLargest` | `Icons.LargestIconIndex` |

## Left out

- `deleteRecursive` and the `mkdirp` of the build directory (lines 10-29) are left out. The `mkdirp.sync` of the same directory at line 136 is modelled, as the first step of `LinuxSteps`. They mutate the file system, including symlink handling the model cannot see.
- The external tools are not modelled: `ncp`, the icon script, `zip`, electron-packager and electron-winstaller. Only the arguments the script passes them are. The paths electron-packager produces and its error are parameters of `AfterPackaging`.
- `calculateId` from `chrome/main/chrome-app-id.js` is not part of this model. It is the parameter `derive`, and `None` stands for a rejected promise.
- JSON parsing of `manifest.json` and `electron.json` is the parameters `readManifest` and `readDescriptor`. `None` stands for a missing or malformed file.
- An `electron.json` whose top-level value is not an object is not modelled.
- Manifest `name` and `version` are typed as strings. A manifest lacking them, which the script would turn into the text `undefined`, is not modelled.
- `path.resolve`, `path.join` and `path.basename` are uninterpreted functions (`PathApi`). `MissingAppDirFailsFirst` assumes only that `resolve` never yields an empty path.
- `os.platform()`, `process.cwd()`, `__dirname` and `TARGET_PLATFORM` are parameters.
- Numbers in parsed JSON are integers. `NaN` and fractions are not modelled.
- `Icons.ParseIntReadsLeadingDigits`: `parseInt`'s handling of leading whitespace, signs and a `0x` prefix is not modelled, because manifest size keys are unsigned decimal numbers.
- Console output and `process.exit` are not modelled; a fatal exit is an `Err` result. Callback and promise sequencing is also left out. The model does not capture when `startPackager` runs after the icon script exits, whatever its status. It also omits the logging of installer and zip outcomes.
- Installer and zip failures are only logged by the script, so they have no result in the model.
- `Packaging.RunCopies` covers `ncp` failures only. A throwing `mkdirp.sync` is not modelled. Neither is a copy rejected inside `startLinuxPackager`, whose promise nobody handles.
- `Pipeline.BuildScript.CreatePackageJson`: the package object and the global `chrome` share one object in the script. The model copies the value. The package is serialised at once, so nothing observes the sharing.
- `Manifest.icons` is a sequence in any order. `Object.keys` lists integer-like keys first, in ascending order, and the others in insertion order, so the model admits key orders JavaScript never produces. `AsWrittenPicksFirstKey` holds for every order.
- A manifest without an `icons` field is not representable. `Object.keys(undefined)` throws at line 78, and the run ends as it does for an empty `icons` object (`NoIcons`, or `needAppId` in the derived-id path).
- `JSON.stringify` at line 124 is not modelled. `PackageJsonOf` keeps `description: undefined` when the manifest has none, and `JSON.stringify` leaves that key out of the written file.
- `Pipeline.Run`: `Launch` and `Run` choose the icon with the intended numeric-maximum `SelectIcon` at line 78, not with the comparator as written (see "## Findings"). For `{"16", "128"}` the script as written passes the 16 icon to the icon script, while the model passes the 128 one.
