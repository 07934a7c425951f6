/** The JavaScript values the build script works with: optional values,
    results, parsed JSON with `undefined`, JavaScript truthiness and `||`,
    and the string operations the script applies to arguments and paths
    (`startsWith` is Dafny's prefix test `p <= s`). */
module JsValues {

  datatype Option<+T> = None | Some(value: T)

  datatype Result<+T, +E> = Ok(value: T) | Err(error: E)

  /** A value as `JSON.parse` yields it, plus `undefined`, which is what an
      unset variable or a missing property reads as. */
  datatype Json =
    | Undefined
    | Null
    | Bool(b: bool)
    | Num(n: int)
    | Str(s: string)
    | Arr(items: seq<Json>)
    | Obj(fields: map<string, Json>)

  /** A plain JavaScript object, property name to value. */
  type JsObject = map<string, Json>

  /** ToBoolean: `undefined`, `null`, `false`, `0` and `""` are falsy. */
  predicate Truthy(v: Json) {
    match v
    case Undefined => false
    case Null => false
    case Bool(b) => b
    case Num(n) => n != 0
    case Str(s) => s != ""
    case Arr(_) => true
    case Obj(_) => true
  }

  /** Truthiness of a variable that holds a string or `undefined`. */
  predicate StrTruthy(o: Option<string>) {
    o.Some? && o.value != ""
  }

  /** A variable that holds a string or `undefined`, as a value. */
  function FromOption(o: Option<string>): (v: Json)
    ensures Truthy(v) <==> StrTruthy(o)
  {
    if o.Some? then Str(o.value) else Undefined
  }

  /** `a || b`: yields one of its operands, and is truthy exactly when one of them is. */
  function Or(a: Json, b: Json): (r: Json)
    ensures r == a || r == b
    ensures Truthy(r) <==> Truthy(a) || Truthy(b)
  {
    if Truthy(a) then a else b
  }

  /** Property read `o.k`. */
  function Get(o: JsObject, k: string): Json {
    if k in o then o[k] else Undefined
  }

  predicate IsDigit(c: char) {
    '0' <= c <= '9'
  }

  /** `s.indexOf(sub)`: the first position at which `sub` occurs in `s`, or -1. */
  function IndexOf(s: string, sub: string): (r: int)
    ensures -1 <= r <= |s|
    ensures r >= 0 ==> sub <= s[r..] && forall i :: 0 <= i < r ==> !(sub <= s[i..])
    ensures r == -1 <==> forall i :: 0 <= i <= |s| ==> !(sub <= s[i..])
    decreases |s|
  {
    if sub <= s then 0
    else if |s| == 0 then -1
    else
      var k := IndexOf(s[1..], sub);
      TailSuffixes(s);
      if k == -1 then -1 else k + 1
  }

  /** The suffixes of `s[1..]` are the suffixes of `s` after its first position. */
  lemma TailSuffixes(s: string)
    requires s != []
    ensures forall i :: 1 <= i <= |s| ==> s[1..][i - 1..] == s[i..]
  {
  }

  /** `s.replace(/c/g, d)` for single characters: every `c` becomes `d`. */
  function ReplaceEvery(s: string, c: char, d: char): (r: string)
    ensures |r| == |s|
    ensures forall i :: 0 <= i < |s| ==> r[i] == if s[i] == c then d else s[i]
  {
    if s == [] then [] else [if s[0] == c then d else s[0]] + ReplaceEvery(s[1..], c, d)
  }

  /** The position of the first `c` in `s`. */
  function FirstOccurrence(s: string, c: char): (i: nat)
    requires c in s
    ensures i < |s| && s[i] == c && c !in s[..i]
  {
    if s[0] == c then 0
    else
      assert c in s[1..] by {
        var j :| 0 <= j < |s| && s[j] == c;
        assert s[1..][j - 1] == c;
      }
      var k := FirstOccurrence(s[1..], c);
      assert s[..k + 1] == [s[0]] + s[1..][..k];
      k + 1
  }

  /** Only one position holds the first `c`. */
  lemma FirstOccurrenceUnique(s: string, c: char, i: nat)
    requires i < |s| && s[i] == c && c !in s[..i]
    ensures FirstOccurrence(s, c) == i
  {
  }

  /** Replacing `c` by `d` neither adds nor removes any other character `e`. */
  lemma ReplaceEveryKeeps(s: string, c: char, d: char, e: char)
    requires e != c && e != d
    ensures e in ReplaceEvery(s, c, d) <==> e in s
  {
    var r := ReplaceEvery(s, c, d);
    if e in s {
      var j :| 0 <= j < |s| && s[j] == e;
      assert r[j] == e;
    }
    if e in r {
      var j :| 0 <= j < |r| && r[j] == e;
      assert s[j] == e;
    }
  }

  /** Replacing `c` by `d` leaves every other character `e` where it was: the
      first `e` stays at the same position, and the text on either side of it
      is the replaced text on either side of it. */
  lemma ReplaceEveryAround(s: string, c: char, d: char, e: char)
    requires e != c && e != d
    ensures e in ReplaceEvery(s, c, d) <==> e in s
    ensures e in s ==> var i := FirstOccurrence(s, e);
      && FirstOccurrence(ReplaceEvery(s, c, d), e) == i
      && ReplaceEvery(s, c, d)[..i] == ReplaceEvery(s[..i], c, d)
      && ReplaceEvery(s, c, d)[i + 1..] == ReplaceEvery(s[i + 1..], c, d)
  {
    var r := ReplaceEvery(s, c, d);
    ReplaceEveryKeeps(s, c, d, e);
    if e in s {
      var i := FirstOccurrence(s, e);
      ReplaceEverySlice(s, c, d, 0, i);
      ReplaceEverySlice(s, c, d, i + 1, |s|);
      ReplaceEveryKeeps(s[..i], c, d, e);
      FirstOccurrenceUnique(r, e, i);
    }
  }

  /** After replacing every `c` by another character, no `c` is left. */
  lemma ReplaceEveryRemoves(s: string, c: char, d: char)
    requires c != d
    ensures c !in ReplaceEvery(s, c, d)
  {
    var r := ReplaceEvery(s, c, d);
    assert forall j :: 0 <= j < |r| ==> r[j] != c;
  }

  /** Replacing in a slice is slicing the replaced text. */
  lemma ReplaceEverySlice(s: string, c: char, d: char, lo: nat, hi: nat)
    requires lo <= hi <= |s|
    ensures ReplaceEvery(s, c, d)[lo..hi] == ReplaceEvery(s[lo..hi], c, d)
  {
    var r, t := ReplaceEvery(s, c, d)[lo..hi], ReplaceEvery(s[lo..hi], c, d);
    assert forall j :: 0 <= j < hi - lo ==> r[j] == t[j];
  }

  /** `s.replace(c, rep)` with a one-character string pattern: only the first
      occurrence of `c` is replaced, and a string without `c` is unchanged. */
  function ReplaceFirst(s: string, c: char, rep: string): (r: string)
    ensures c !in s ==> r == s
    ensures c in s ==> var i := FirstOccurrence(s, c); r == s[..i] + rep + s[i + 1..]
  {
    if s == [] then []
    else if s[0] == c then rep + s[1..]
    else
      var t := ReplaceFirst(s[1..], c, rep);
      assert c in s ==> FirstOccurrence(s, c) == FirstOccurrence(s[1..], c) + 1;
      [s[0]] + t
  }
}
