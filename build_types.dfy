/** The entities the build script reads and the ways a run can end early. */
module BuildTypes {
  import opened JsValues

  /** One entry of the manifest's `icons` object: a size key such as "128"
      and the icon's path relative to the app directory. */
  datatype IconEntry = IconEntry(size: string, path: string)

  /** The fields of manifest.json the script reads. `icons` lists the
      entries of the `icons` object in `Object.keys` order. */
  datatype Manifest = Manifest(
    name: string,
    version: string,
    description: Option<string>,
    author: Option<string>,
    key: Option<string>,
    icons: seq<IconEntry>)

  /** Conditions that end the run with a non-zero exit status or an uncaught exception. */
  datatype Fatal =
    | MissingAppDir            // no --app-dir= argument
    | ManifestUnreadable       // manifest.json missing or not JSON
    | NeedAppId                // no usable --app-id= and no derivable manifest key
    | NoIcons                  // `[0].toString()` on an empty key list throws
    | CopyFailed(target: string)
    | PackagingFailed(message: string)

  /** Node's `path` module, left uninterpreted: `resolve` makes a path
      absolute, `join` joins segments, `basename` takes the last segment. */
  datatype PathApi = PathApi(
    resolve: string -> string,
    join: seq<string> -> string,
    basename: string -> string)
}
