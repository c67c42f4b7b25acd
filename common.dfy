/** Optional values and results, used wherever the JavaScript code has `null`/`undefined`
    or catches an exception. */
module Wrappers {
  datatype Option<+T> = None | Some(value: T) {
    function GetOr(default: T): T {
      match this
      case Some(v) => v
      case None => default
    }
  }

  datatype Result<+T, +E> = Ok(value: T) | Err(error: E)
}

/** String operations the JavaScript code relies on: `toLowerCase`, `includes`,
    `startsWith`, `substring` and number formatting. */
module Strings {

  /** `toLowerCase` restricted to ASCII letters. */
  function LowerChar(c: char): (r: char)
    ensures 'A' <= c <= 'Z' ==> 'a' <= r <= 'z'
    ensures !('A' <= c <= 'Z') ==> r == c
  {
    if 'A' <= c <= 'Z' then (c as int + 32) as char else c
  }

  function Lower(s: string): (r: string)
    ensures |r| == |s|
    ensures forall i :: 0 <= i < |s| ==> r[i] == LowerChar(s[i])
  {
    if s == [] then [] else [LowerChar(s[0])] + Lower(s[1..])
  }

  /** `s.startsWith(prefix)`. */
  predicate StartsWith(s: string, prefix: string) {
    |prefix| <= |s| && s[..|prefix|] == prefix
  }

  /** `hay.includes(needle)`: some window of `hay` equals `needle`. The empty needle is
      contained in every string, as in JavaScript. */
  predicate Contains(hay: string, needle: string) {
    exists i | 0 <= i <= |hay| - |needle| :: MatchAt(hay, needle, i)
  }

  /** `needle` occurs in `hay` starting at index `i`. */
  predicate MatchAt(hay: string, needle: string, i: nat) {
    i + |needle| <= |hay| && hay[i..i + |needle|] == needle
  }

  lemma ContainsEmpty(hay: string)
    ensures Contains(hay, "")
  {
    assert MatchAt(hay, "", 0);
  }

  lemma ContainsSelf(s: string)
    ensures Contains(s, s)
  {
    assert MatchAt(s, s, 0);
  }

  lemma ContainsTooLong(hay: string, needle: string)
    requires |hay| < |needle|
    ensures !Contains(hay, needle)
  {
  }

  /** A string contains every window of itself. */
  lemma ContainsWindow(hay: string, i: nat, j: nat)
    requires i <= j <= |hay|
    ensures Contains(hay, hay[i..j])
  {
    assert MatchAt(hay, hay[i..j], i);
  }

  /** A string contained in a part of `hay` is contained in `hay`. */
  lemma ContainsInPrefix(hay: string, k: nat, needle: string)
    requires k <= |hay|
    requires Contains(hay[..k], needle)
    ensures Contains(hay, needle)
  {
    var i :| 0 <= i <= |hay[..k]| - |needle| && MatchAt(hay[..k], needle, i);
    assert hay[i..i + |needle|] == hay[..k][i..i + |needle|];
    assert MatchAt(hay, needle, i);
  }

  lemma ContainsInSuffix(hay: string, k: nat, needle: string)
    requires k <= |hay|
    requires Contains(hay[k..], needle)
    ensures Contains(hay, needle)
  {
    var i :| 0 <= i <= |hay[k..]| - |needle| && MatchAt(hay[k..], needle, i);
    assert hay[k + i..k + i + |needle|] == hay[k..][i..i + |needle|];
    assert MatchAt(hay, needle, k + i);
  }

  /** A needle cannot occur in `hay` when no two adjacent characters of `hay` equal the
      needle's first two characters. */
  lemma NoMatchByLeadingPair(hay: string, needle: string)
    requires |needle| >= 2
    requires forall i :: 0 <= i < |hay| - 1 ==> hay[i] != needle[0] || hay[i + 1] != needle[1]
    ensures !Contains(hay, needle)
  {
    forall i | 0 <= i <= |hay| - |needle|
      ensures !MatchAt(hay, needle, i)
    {
      var w := hay[i..i + |needle|];
      assert w[0] == hay[i] && w[1] == hay[i + 1];
    }
  }

  function DigitChar(d: nat): (c: char)
    requires d < 10
    ensures '0' <= c <= '9'
  {
    "0123456789"[d]
  }

  /** Decimal rendering of a natural number, as template literals print it. */
  function NatToString(n: nat): (r: string)
    ensures 1 <= |r|
    ensures forall i :: 0 <= i < |r| ==> '0' <= r[i] <= '9'
  {
    if n < 10 then [DigitChar(n)] else NatToString(n / 10) + [DigitChar(n % 10)]
  }
}

/** JavaScript scalar values and the truthiness test `if (x)` / `x || d`. */
module Js {
  import opened Wrappers
  import opened Strings

  datatype Scalar = Num(n: int) | Str(s: string)

  /** `undefined`/`null` are `None`; `0` and `""` are the falsy scalars. */
  predicate Truthy(v: Option<Scalar>) {
    match v
    case None => false
    case Some(Num(n)) => n != 0
    case Some(Str(s)) => s != ""
  }

  /** A query-string value, truthy when present and non-empty. */
  predicate Given(v: Option<string>) {
    v.Some? && v.value != ""
  }

  /** `v || d` for an optional string. */
  function OrDefault(v: Option<string>, d: string): (r: string)
    ensures Given(v) ==> r == v.value
    ensures !Given(v) ==> r == d
  {
    if Given(v) then v.value else d
  }

  /** A loosely typed request-body field or column value: `undefined`, `null`, a scalar,
      or an array of strings. */
  datatype Value = Undefined | Null | Atom(scalar: Scalar) | List(items: seq<string>)

  /** `if (v)`: arrays are truthy even when empty. */
  predicate IsTruthy(v: Value) {
    match v
    case Undefined => false
    case Null => false
    case Atom(x) => Truthy(Some(x))
    case List(_) => true
  }

  /** `v && v.length > 0`: a non-empty string or a non-empty array. */
  predicate HasItems(v: Value) {
    (v.Atom? && v.scalar.Str? && v.scalar.s != "") || (v.List? && v.items != [])
  }

  /** A value written to a column and read back: a bound `undefined` becomes `NULL`. */
  function Stored(v: Value): (r: Value)
    ensures r != Undefined
    ensures v != Undefined ==> r == v
  {
    if v == Undefined then Null else v
  }

  /** `a !== b` on values read back from the database: two arrays are never the same
      object, so an array is always strictly different from anything. */
  predicate StrictlyDiffers(a: Value, b: Value) {
    a.List? || a != b
  }

  /** The elements of an array joined by commas, as `String(array)` renders it. */
  function Join(xs: seq<string>): (r: string)
    ensures |xs| == 1 ==> r == xs[0]
    ensures xs == [] ==> r == ""
  {
    if xs == [] then "" else if |xs| == 1 then xs[0] else Join(xs[..|xs| - 1]) + "," + xs[|xs| - 1]
  }

  /** `${v}` in a template literal. */
  function TemplateText(v: Value): (r: string)
    ensures v.Atom? && v.scalar.Str? ==> r == v.scalar.s
    ensures v == Undefined ==> r == "undefined"
    ensures v == Null ==> r == "null"
  {
    match v
    case Undefined => "undefined"
    case Null => "null"
    case Atom(Str(s)) => s
    case Atom(Num(n)) => if n < 0 then "-" + NatToString(-n) else NatToString(n)
    case List(xs) => Join(xs)
  }
}

/** An HTTP error answer: the status code and the `error` text of its JSON body. */
module Http {
  datatype HttpError = HttpError(status: nat, message: string)
}
