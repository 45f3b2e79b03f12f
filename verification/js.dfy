/**
  JavaScript values as the storefront handles them: loosely typed records
  that come back from the server or are built by the mock generators, with
  JavaScript's truthiness, `||`, optional property access and object spread.
  Numbers are integers; floating point is not part of this model.
 */
module Js {

  datatype Option<+T> = None | Some(value: T) {
    function GetOr(default: T): T {
      match this
      case Some(v) => v
      case None => default
    }
  }

  /** A call that either returns a value or throws an error. */
  datatype Result<+T, +E> = Ok(value: T) | Err(error: E)

  /** A JavaScript value. `Obj` holds an object's own enumerable properties. */
  datatype Json =
    | Undefined
    | Null
    | Bool(b: bool)
    | Num(n: int)
    | NaN
    | Str(s: string)
    | Arr(elems: seq<Json>)
    | Obj(props: map<string, Json>)

  /** `Boolean(v)`: the falsy values are undefined, null, false, 0, NaN and "". */
  predicate Truthy(v: Json) {
    match v
    case Undefined => false
    case Null => false
    case Bool(b) => b
    case Num(n) => n != 0
    case NaN => false
    case Str(s) => s != ""
    case Arr(_) => true
    case Obj(_) => true
  }

  /** `a || b` */
  function Or(a: Json, b: Json): Json {
    if Truthy(a) then a else b
  }

  /** Default parameter `x = d`: only an undefined argument takes the default. */
  function Default(v: Json, d: Json): Json {
    if v == Undefined then d else v
  }

  /** `v?.k`: the property when `v` is an object holding it, undefined otherwise. */
  function Get(v: Json, k: string): Json {
    if v.Obj? && k in v.props then v.props[k] else Undefined
  }

  /**
    The own properties that `...v` contributes to an object literal, for an
    object, null or undefined `v`. Arrays and strings also contribute their
    index properties in JavaScript; here they contribute none.
   */
  function Props(v: Json): map<string, Json> {
    if v.Obj? then v.props else map[]
  }

  /** `{ ...a, ...b }`: later properties win. */
  function Spread(a: Json, b: Json): (r: Json)
    ensures r.Obj?
    ensures forall k :: k in Props(b) ==> Get(r, k) == Props(b)[k]
    ensures forall k :: k in Props(a) && k !in Props(b) ==> Get(r, k) == Props(a)[k]
    ensures forall k :: k !in Props(a) && k !in Props(b) ==> Get(r, k) == Undefined
  {
    Obj(Props(a) + Props(b))
  }

  // ---------------------------------------------------------------------
  // Decimal numerals

  predicate IsDigit(c: char) {
    '0' <= c <= '9'
  }

  predicate AllDigits(s: string) {
    forall i :: 0 <= i < |s| ==> IsDigit(s[i])
  }

  function DigitChar(d: nat): (c: char)
    requires d < 10
    ensures IsDigit(c)
  {
    ('0' as int + d) as char
  }

  function DigitValue(c: char): (d: nat)
    requires IsDigit(c)
    ensures d < 10
  {
    c as int - '0' as int
  }

  /** The decimal numeral of `n`, as template literals and `String(n)` print it. */
  function NatToString(n: nat): (s: string)
    ensures |s| > 0 && AllDigits(s)
    ensures n >= 10 ==> |s| >= 2
    decreases n
  {
    if n < 10 then [DigitChar(n)] else NatToString(n / 10) + [DigitChar(n % 10)]
  }

  function IntToString(i: int): string {
    if i < 0 then "-" + NatToString(-i) else NatToString(i)
  }

  /** The value of a non-empty digit string. */
  function DigitsValue(s: string): nat
    requires AllDigits(s)
    decreases |s|
  {
    if |s| == 0 then 0 else DigitsValue(s[..|s| - 1]) * 10 + DigitValue(s[|s| - 1])
  }

  /** Reads a plain decimal numeral; anything else is not a numeral. */
  function ParseNat(s: string): Option<nat> {
    if |s| > 0 && AllDigits(s) then Some(DigitsValue(s)) else None
  }

  lemma DigitRoundTrip(d: nat)
    requires d < 10
    ensures DigitValue(DigitChar(d)) == d
  {
  }

  /** Printing a natural number and reading it back gives the number. */
  lemma {:induction false} ParseNatToString(n: nat)
    ensures ParseNat(NatToString(n)) == Some(n)
    decreases n
  {
    var s := NatToString(n);
    if n < 10 {
      DigitRoundTrip(n);
      assert s[..|s| - 1] == [];
      assert DigitsValue(s) == DigitValue(s[0]);
    } else {
      var p := NatToString(n / 10);
      ParseNatToString(n / 10);
      assert s == p + [DigitChar(n % 10)];
      assert s[..|s| - 1] == p;
      DigitRoundTrip(n % 10);
    }
  }

  /** `Number(s)` for a string: the empty string is 0, a decimal numeral its value, anything else NaN. */
  function StringToNumber(s: string): (r: Json)
    ensures r.Num? || r.NaN?
  {
    if s == "" then Num(0)
    else match ParseNat(s)
      case Some(n) => Num(n)
      case None => NaN
  }

  /** `Number(v)` for the values the storefront converts; an array converts through its joined text. */
  function ToNumber(v: Json): (r: Json)
    ensures r.Num? || r.NaN?
    ensures v.Str? ==> r == StringToNumber(v.s)
    ensures v.Arr? ==> r == StringToNumber(ToJsString(v))
  {
    match v
    case Undefined => NaN
    case Null => Num(0)
    case Bool(b) => Num(if b then 1 else 0)
    case Num(n) => v
    case NaN => NaN
    case Str(s) => StringToNumber(s)
    case Arr(_) => StringToNumber(ToJsString(v))
    case Obj(_) => NaN
  }

  /** `String(v)`, as used by template literals and `localStorage.setItem`. */
  function ToJsString(v: Json): string
    decreases v
  {
    match v
    case Undefined => "undefined"
    case Null => "null"
    case Bool(b) => if b then "true" else "false"
    case Num(n) => IntToString(n)
    case NaN => "NaN"
    case Str(s) => s
    case Arr(xs) => JoinElems(xs, v)
    case Obj(_) => "[object Object]"
  }

  /** `Array.prototype.join(",")` where null and undefined print as "". */
  function JoinElems(xs: seq<Json>, whole: Json): string
    requires forall x :: x in xs ==> x < whole
    decreases whole, |xs|
  {
    if |xs| == 0 then ""
    else
      assert xs[0] in xs;
      assert forall x :: x in xs[1..] ==> x in xs;
      var head := if xs[0].Undefined? || xs[0].Null? then "" else ToJsString(xs[0]);
      if |xs| == 1 then head else head + "," + JoinElems(xs[1..], whole)
  }

  // ---------------------------------------------------------------------
  // Strings

  /** `toLowerCase` on the ASCII letters. */
  function LowerChar(c: char): char {
    if 'A' <= c <= 'Z' then (c as int + 32) as char else c
  }

  function Lower(s: string): (r: string)
    ensures |r| == |s|
    ensures forall i :: 0 <= i < |s| ==> r[i] == LowerChar(s[i])
  {
    seq(|s|, i requires 0 <= i < |s| => LowerChar(s[i]))
  }

  predicate OccursAt(hay: string, needle: string, i: nat) {
    i + |needle| <= |hay| && hay[i..i + |needle|] == needle
  }

  /** `hay.includes(needle)` */
  predicate Includes(hay: string, needle: string) {
    exists i: nat :: i <= |hay| && OccursAt(hay, needle, i)
  }

  /** `s.indexOf(c)`, with `|s|` standing for "not found". */
  function IndexOf(s: string, c: char): (i: nat)
    ensures i <= |s|
    ensures i < |s| ==> s[i] == c
    ensures forall k :: 0 <= k < i ==> s[k] != c
    ensures i == |s| <==> c !in s
    decreases |s|
  {
    if |s| == 0 then 0
    else if s[0] == c then 0
    else 1 + IndexOf(s[1..], c)
  }

  /** `s.split(sep)`: the pieces between occurrences of `sep`, at least one. */
  function SplitOn(s: string, sep: char): (parts: seq<string>)
    ensures |parts| >= 1
    ensures forall k :: 0 <= k < |parts| ==> sep !in parts[k]
    decreases |s|
  {
    if |s| == 0 then [""]
    else
      var rest := SplitOn(s[1..], sep);
      if s[0] == sep then [""] + rest else [[s[0]] + rest[0]] + rest[1..]
  }

  lemma {:induction false} SplitOnWithoutSep(s: string, sep: char)
    requires sep !in s
    ensures SplitOn(s, sep) == [s]
    decreases |s|
  {
    if |s| > 0 {
      SplitOnWithoutSep(s[1..], sep);
      assert [s[0]] + s[1..] == s;
    }
  }

  /** Splitting `a + [sep] + b` where `a` holds no separator yields `a` first and then the pieces of `b`. */
  lemma {:induction false} SplitOnAfterSep(a: string, sep: char, b: string)
    requires sep !in a
    ensures SplitOn(a + [sep] + b, sep) == [a] + SplitOn(b, sep)
    decreases |a|
  {
    var s := a + [sep] + b;
    if |a| == 0 {
      assert s[1..] == b;
    } else {
      assert s[1..] == a[1..] + [sep] + b;
      SplitOnAfterSep(a[1..], sep, b);
      assert [a[0]] + a[1..] == a;
    }
  }

  /** Text holding the separator splits at its first occurrence: the text before it, then the pieces after it. */
  lemma SplitOnAtFirst(s: string, sep: char)
    requires sep in s
    ensures var i := IndexOf(s, sep);
            SplitOn(s, sep) == [s[..i]] + SplitOn(s[i + 1..], sep)
  {
    var i := IndexOf(s, sep);
    assert s == s[..i] + [sep] + s[i + 1..];
    assert forall k :: 0 <= k < i ==> s[..i][k] != sep;
    SplitOnAfterSep(s[..i], sep, s[i + 1..]);
  }

  /** The first piece of a split is the text before the first separator, or all of it. */
  lemma SplitOnFirstPiece(s: string, sep: char)
    ensures SplitOn(s, sep)[0] == s[..IndexOf(s, sep)]
  {
    if sep in s {
      SplitOnAtFirst(s, sep);
    } else {
      SplitOnWithoutSep(s, sep);
      assert s[..|s|] == s;
    }
  }
}
