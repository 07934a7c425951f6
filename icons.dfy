/** Choosing the manifest icon (package.js lines 76-88), naming the
    per-platform icon file (lines 103-109) and turning a path into a
    `file://` URL (line 273). */
module Icons {
  import opened JsValues
  import opened BuildTypes

  /** The leading run of decimal digits of `s`. */
  function LeadingDigits(s: string): (d: string)
    ensures d <= s
    ensures forall i :: 0 <= i < |d| ==> IsDigit(d[i])
    ensures |d| < |s| ==> !IsDigit(s[|d|])
  {
    if s != [] && IsDigit(s[0]) then [s[0]] + LeadingDigits(s[1..]) else []
  }

  function DecimalValue(d: string): nat
    requires forall i :: 0 <= i < |d| ==> IsDigit(d[i])
  {
    if d == [] then 0
    else
      assert IsDigit(d[|d| - 1]);
      DecimalValue(d[..|d| - 1]) * 10 + (d[|d| - 1] as int - '0' as int)
  }

  /** `parseInt(s)` on a size key: the value of its leading decimal digits,
      `None` (NaN) when it does not start with a digit. */
  function ParseInt(s: string): Option<nat> {
    var d := LeadingDigits(s);
    if d == [] then None else Some(DecimalValue(d))
  }

  /** `parseInt` reads the leading digits and ignores whatever follows them
      ("16px" reads as 16). */
  lemma {:induction false} ParseIntReadsLeadingDigits(digits: string, rest: string)
    requires digits != [] && forall i :: 0 <= i < |digits| ==> IsDigit(digits[i])
    requires rest == [] || !IsDigit(rest[0])
    ensures ParseInt(digits + rest) == Some(DecimalValue(digits))
  {
    LeadingDigitsOfDigits(digits, rest);
  }

  lemma {:induction false} LeadingDigitsOfDigits(digits: string, rest: string)
    requires forall i :: 0 <= i < |digits| ==> IsDigit(digits[i])
    requires rest == [] || !IsDigit(rest[0])
    ensures LeadingDigits(digits + rest) == digits
    decreases |digits|
  {
    if digits != [] {
      assert (digits + rest)[1..] == digits[1..] + rest;
      LeadingDigitsOfDigits(digits[1..], rest);
    } else {
      assert digits + rest == rest;
    }
  }

  /** The numeric size of a key; a key that is not a number ranks below every number. */
  function Rank(size: string): int {
    match ParseInt(size)
    case None => -1
    case Some(n) => n
  }

  /** Entry `k` has the largest size, and no earlier entry has the same size. */
  ghost predicate IsLargestEntry(icons: seq<IconEntry>, k: int) {
    && 0 <= k < |icons|
    && (forall j :: 0 <= j < |icons| ==> Rank(icons[j].size) <= Rank(icons[k].size))
    && (forall j :: 0 <= j < k ==> Rank(icons[j].size) < Rank(icons[k].size))
  }

  /** The numeric size of every entry, in key order. */
  function Ranks(icons: seq<IconEntry>): (rs: seq<int>)
    ensures |rs| == |icons| && forall j :: 0 <= j < |icons| ==> rs[j] == Rank(icons[j].size)
  {
    seq(|icons|, j requires 0 <= j < |icons| => Rank(icons[j].size))
  }

  /** The first position of the largest number in `rs`. */
  function FirstLargest(rs: seq<int>): (k: nat)
    requires rs != []
    ensures k < |rs| && (forall j :: 0 <= j < |rs| ==> rs[j] <= rs[k]) && (forall j :: 0 <= j < k ==> rs[j] < rs[k])
    decreases |rs|
  {
    if |rs| == 1 then 0
    else
      var init := rs[..|rs| - 1];
      var k := FirstLargest(init);
      assert forall j :: 0 <= j < |init| ==> init[j] == rs[j];
      if rs[|rs| - 1] > rs[k] then |rs| - 1 else k
  }

  /** The "grab largest" of line 77: the first entry, in key order, of the
      largest numeric size. */
  function LargestIconIndex(icons: seq<IconEntry>): (k: nat)
    requires icons != []
    ensures IsLargestEntry(icons, k)
  {
    FirstLargest(Ranks(icons))
  }

  /** The chosen key and the icon path passed to the icon script. */
  datatype IconChoice = IconChoice(key: string, path: string)

  /** Lines 78-79: the largest icon's key, and the app directory joined with
      its path; an empty `icons` object makes `[0].toString()` throw. */
  function SelectIcon(icons: seq<IconEntry>, appDir: string, paths: PathApi): (r: Result<IconChoice, Fatal>)
    ensures r.Err? <==> icons == []
    ensures r.Err? ==> r.error == NoIcons
    ensures r.Ok? ==> exists k :: IsLargestEntry(icons, k) && r.value == IconChoice(icons[k].size, paths.join([appDir, icons[k].path]))
  {
    if icons == [] then Err(NoIcons)
    else
      var k := LargestIconIndex(icons);
      Ok(IconChoice(icons[k].size, paths.join([appDir, icons[k].path])))
  }

  /** With sizes 16 and 128 the 128 icon is chosen, whichever comes first. */
  lemma LargestOfTwo(a: string, b: string, appDir: string, paths: PathApi)
    ensures SelectIcon([IconEntry("16", a), IconEntry("128", b)], appDir, paths) == Ok(IconChoice("128", paths.join([appDir, b])))
    ensures SelectIcon([IconEntry("128", b), IconEntry("16", a)], appDir, paths) == Ok(IconChoice("128", paths.join([appDir, b])))
  {
    SizesOfExample();
    var up := [IconEntry("16", a), IconEntry("128", b)];
    assert Rank(up[0].size) == 16 && Rank(up[1].size) == 128;
    assert LargestIconIndex(up) == 1;
    var down := [IconEntry("128", b), IconEntry("16", a)];
    assert Rank(down[0].size) == 128 && Rank(down[1].size) == 16;
    assert LargestIconIndex(down) == 0;
  }

  /** The two sizes of the examples read as 16 and 128. */
  lemma SizesOfExample()
    ensures ParseInt("16") == Some(16) && ParseInt("128") == Some(128)
  {
    ParseIntReadsLeadingDigits("16", "");
    assert "16" + "" == "16" && "16"[..1] == "1";
    ParseIntReadsLeadingDigits("128", "");
    assert "128" + "" == "128" && "128"[..2] == "12" && "12"[..1] == "1";
  }

  // The comparator as written.

  /** Line 78's comparator `(a, b) => parseInt(a) < parseInt(b)` returns a
      boolean, which `sort` converts to 1 or 0; NaN compares false. */
  function BooleanComparator(a: string, b: string): (c: int)
    ensures c == 0 || c == 1
    ensures c == 1 <==> Rank(b) >= 0 && Rank(a) >= 0 && Rank(a) < Rank(b)
  {
    if ParseInt(a).Some? && ParseInt(b).Some? && ParseInt(a).value < ParseInt(b).value then 1 else 0
  }

  /** A consistent comparator that answers a positive number for (a, b) must
      answer a negative one for (b, a); this one answers 1 and then 0. */
  lemma BooleanComparatorIsInconsistent()
    ensures BooleanComparator("16", "128") > 0 && BooleanComparator("128", "16") == 0
  {
    SizesOfExample();
  }

  /** One insertion step of a sort that moves an element in front of another
      only when the comparator answers a negative number, as the binary
      insertion and run detection of V8's TimSort do. */
  function InsertBy(sorted: seq<string>, x: string, cmp: (string, string) -> int): (r: seq<string>)
    ensures |r| == |sorted| + 1
    decreases |sorted|
  {
    if sorted == [] || cmp(x, sorted[|sorted| - 1]) >= 0 then sorted + [x]
    else InsertBy(sorted[..|sorted| - 1], x, cmp) + [sorted[|sorted| - 1]]
  }

  /** `keys.sort(cmp)` under that sort. */
  function SortBy(keys: seq<string>, cmp: (string, string) -> int): (r: seq<string>)
    ensures |r| == |keys|
    decreases |keys|
  {
    if keys == [] then [] else InsertBy(SortBy(keys[..|keys| - 1], cmp), keys[|keys| - 1], cmp)
  }

  /** Under a comparator that is never negative, such a sort leaves the keys
      in the order it was given. */
  lemma {:induction false} SortByNonNegativeKeepsOrder(keys: seq<string>, cmp: (string, string) -> int)
    requires forall a, b :: cmp(a, b) >= 0
    ensures SortBy(keys, cmp) == keys
    decreases |keys|
  {
    if keys != [] {
      var init, last := keys[..|keys| - 1], keys[|keys| - 1];
      SortByNonNegativeKeepsOrder(init, cmp);
      assert init == [] || cmp(last, init[|init| - 1]) >= 0;
      assert InsertBy(init, last, cmp) == init + [last];
      assert init + [last] == keys;
    }
  }

  /** `Object.keys(manifest.icons)`. */
  function Keys(icons: seq<IconEntry>): (ks: seq<string>)
    ensures |ks| == |icons| && forall i :: 0 <= i < |icons| ==> ks[i] == icons[i].size
  {
    seq(|icons|, i requires 0 <= i < |icons| => icons[i].size)
  }

  /** The key line 78 yields under such a sort. */
  function IconKeyAsWritten(icons: seq<IconEntry>): string
    requires icons != []
  {
    SortBy(Keys(icons), BooleanComparator)[0]
  }

  /** As written, line 78 yields the first key whatever the sizes are. */
  lemma AsWrittenPicksFirstKey(icons: seq<IconEntry>)
    requires icons != []
    ensures IconKeyAsWritten(icons) == icons[0].size
  {
    SortByNonNegativeKeepsOrder(Keys(icons), BooleanComparator);
  }

  /** `Object.keys` lists integer keys in ascending order, so for
      {"16": ..., "128": ...} the code as written takes the 16 icon where
      the largest is the 128 one. */
  lemma AsWrittenMissesLargest(a: string, b: string, appDir: string, paths: PathApi)
    ensures IconKeyAsWritten([IconEntry("16", a), IconEntry("128", b)]) == "16"
    ensures SelectIcon([IconEntry("16", a), IconEntry("128", b)], appDir, paths).value.key == "128"
  {
    AsWrittenPicksFirstKey([IconEntry("16", a), IconEntry("128", b)]);
    LargestOfTwo(a, b, appDir, paths);
  }

  /** Lines 81-88: `icon.bat` on Windows, `./icon.sh` elsewhere, run on the icon path. */
  function IconCommandLine(platform: string, icon: string): (cmd: string)
    ensures |cmd| > |icon| && cmd[|cmd| - |icon| - 1..] == " " + icon
    ensures |cmd| == |(if platform == "win32" then "icon.bat" else "./icon.sh")| + 1 + |icon|
    ensures platform == "win32" ==> "icon.bat " <= cmd
    ensures platform != "win32" ==> "./icon.sh " <= cmd
  {
    (if platform == "win32" then "icon.bat" else "./icon.sh") + " " + icon
  }

  /** `platformIconExtensions` (lines 103-107). */
  function IconExtension(platform: string): Option<string> {
    if platform == "win32" then Some(".ico")
    else if platform == "darwin" then Some(".icns")
    else if platform == "linux" then Some(".png")
    else None
  }

  /** `'build/icon' + platformIconExtensions[platform]`: on a platform
      missing from the table the concatenation yields "build/iconundefined". */
  function PlatformIconFile(platform: string): (f: string)
    ensures "build/icon" <= f
    ensures IconExtension(platform).Some? ==> f[|"build/icon"|..] == IconExtension(platform).value
    ensures IconExtension(platform).None? ==> f == "build/iconundefined"
  {
    "build/icon" + (if IconExtension(platform).Some? then IconExtension(platform).value else "undefined")
  }

  /** Line 109: the generated icon under the working directory. */
  function PlatformIcon(paths: PathApi, cwd: string, platform: string): string {
    paths.join([cwd, PlatformIconFile(platform)])
  }

  /** `'file://' + p.replace(/\\/g, '/').replace(':', '')`: backslashes become
      slashes and only the first colon is dropped; every other character is
      kept, in order. */
  function FileUrl(p: string): (u: string)
    ensures "file://" <= u
    ensures '\\' !in u
    ensures |u| == 7 + |p| - (if ':' in p then 1 else 0)
    ensures ':' !in p ==> u == "file://" + ReplaceEvery(p, '\\', '/')
    ensures ':' in p ==> var i := FirstOccurrence(p, ':');
      u == "file://" + ReplaceEvery(p[..i], '\\', '/') + ReplaceEvery(p[i + 1..], '\\', '/')
  {
    FileUrlShape(p);
    FileUrlContents(p);
    "file://" + ReplaceFirst(ReplaceEvery(p, '\\', '/'), ':', "")
  }

  /** The shape `FileUrl` promises, for its text. */
  lemma FileUrlShape(p: string)
    ensures var u := "file://" + ReplaceFirst(ReplaceEvery(p, '\\', '/'), ':', "");
      && "file://" <= u
      && '\\' !in u
      && |u| == 7 + |p| - (if ':' in p then 1 else 0)
  {
    SlashedWithoutFirstColonShape(p);
  }

  /** The contents `FileUrl` promises, for its text. */
  lemma FileUrlContents(p: string)
    ensures var u := "file://" + ReplaceFirst(ReplaceEvery(p, '\\', '/'), ':', "");
      && (':' !in p ==> u == "file://" + ReplaceEvery(p, '\\', '/'))
      && (':' in p ==> var i := FirstOccurrence(p, ':');
            u == "file://" + ReplaceEvery(p[..i], '\\', '/') + ReplaceEvery(p[i + 1..], '\\', '/'))
  {
    SlashedWithoutFirstColon(p);
  }

  /** The two replacements of `FileUrl`, piece by piece. */
  lemma SlashedWithoutFirstColon(p: string)
    ensures ':' !in p ==> ReplaceFirst(ReplaceEvery(p, '\\', '/'), ':', "") == ReplaceEvery(p, '\\', '/')
    ensures ':' in p ==> var i := FirstOccurrence(p, ':');
      ReplaceFirst(ReplaceEvery(p, '\\', '/'), ':', "") == ReplaceEvery(p[..i], '\\', '/') + ReplaceEvery(p[i + 1..], '\\', '/')
  {
    var r := ReplaceEvery(p, '\\', '/');
    ReplaceEveryAround(p, '\\', '/', ':');
    if ':' in p {
      var i := FirstOccurrence(p, ':');
      assert ':' in r && FirstOccurrence(r, ':') == i;
      assert r[..i] + "" == r[..i];
    }
  }

  /** What the two replacements of `FileUrl` keep: the length less the
      dropped colon, and no backslash. */
  lemma SlashedWithoutFirstColonShape(p: string)
    ensures var t := ReplaceFirst(ReplaceEvery(p, '\\', '/'), ':', "");
      |t| == |p| - (if ':' in p then 1 else 0) && '\\' !in t
  {
    SlashedWithoutFirstColon(p);
    if ':' in p {
      var i := FirstOccurrence(p, ':');
      ReplaceEveryRemoves(p[..i], '\\', '/');
      ReplaceEveryRemoves(p[i + 1..], '\\', '/');
    } else {
      ReplaceEveryRemoves(p, '\\', '/');
    }
  }
}
