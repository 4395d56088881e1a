/**
  The few pieces of JavaScript's semantics the application relies on: dynamically
  typed values and their truthiness (what `||`, `&&` and `!` test), `String.prototype.trim`
  and `String.prototype.includes`.
 */
module Js {
  import opened Wrappers

  /** A JavaScript value as far as this application inspects it (objects never reach a truthiness test here). */
  datatype JsValue = Undefined | Null | Bool(b: bool) | Number(n: real) | NaN | Str(s: string)

  /** JavaScript truthiness: `undefined`, `null`, `false`, `0`, `NaN` and `""` are falsy, everything else is truthy. */
  predicate Truthy(v: JsValue) {
    match v
    case Bool(b) => b
    case Number(n) => n != 0.0
    case Str(s) => s != ""
    case _ => false
  }

  /** A slot that holds a number, or nothing (`undefined`/`null`). */
  type NumValue = v: JsValue | v.Undefined? || v.Null? || v.Number? || v.NaN? witness Undefined

  /** A slot that holds a string, or nothing. */
  type StrValue = v: JsValue | v.Undefined? || v.Null? || v.Str? witness Undefined

  /** A slot that holds a boolean, or nothing. */
  type BoolValue = v: JsValue | v.Undefined? || v.Null? || v.Bool? witness Undefined

  /** `v || d` for a string slot: the string when it is truthy, else the default. */
  function StringOr(v: StrValue, d: string): (r: string)
    ensures Truthy(v) ==> v == Str(r)
    ensures !Truthy(v) ==> r == d
  {
    if Truthy(v) then v.s else d
  }

  /** `v || null` for a string slot. */
  function StringOrNull(v: StrValue): (r: Option<string>)
    ensures r.Some? <==> Truthy(v)
    ensures r.Some? ==> v == Str(r.value) && r.value != ""
  {
    if Truthy(v) then Some(v.s) else None
  }

  /** `v || d` for a number slot (`NaN` and `0` give the default). */
  function NumberOr(v: NumValue, d: real): (r: real)
    ensures Truthy(v) ==> v == Number(r) && r != 0.0
    ensures !Truthy(v) ==> r == d
  {
    if Truthy(v) then v.n else d
  }

  /** `v || null` for a number slot. */
  function NumberOrNull(v: NumValue): (r: Option<real>)
    ensures r.Some? <==> Truthy(v)
    ensures r.Some? ==> v == Number(r.value) && r.value != 0.0
  {
    if Truthy(v) then Some(v.n) else None
  }

  /** `v || false` for a boolean slot. */
  function BoolOrFalse(v: BoolValue): (r: bool)
    ensures r <==> v == Bool(true)
  {
    Truthy(v)
  }

  /** `Math.round(x)`: the nearest integer, ties going up. */
  function Round(x: real): (r: int)
    ensures r as real - 0.5 <= x < r as real + 0.5
  {
    (x + 0.5).Floor
  }

  /**
    The text of a distance as the application writes it: `${Math.round(m)}m`, or
    `${km.toFixed(1)}km` whose decimal digits are not modelled.
   */
  datatype DistanceText = Metres(m: int) | Kilometres(km: real)

  /**
    The code points `String.prototype.trim` removes: the WhiteSpace and LineTerminator
    productions of section 12.2 and 12.3 of ECMA-262 (tab, vertical tab, form feed,
    space, no-break space, the Unicode space separators, the byte order mark, line feed,
    carriage return, line and paragraph separators).
   */
  predicate IsWhiteSpace(c: char) {
    || c == '\t' || c == '\n' || c == '\U{000B}' || c == '\U{000C}' || c == '\r'
    || c == ' ' || c == '\U{00A0}' || c == '\U{1680}'
    || ('\U{2000}' <= c <= '\U{200A}')
    || c == '\U{2028}' || c == '\U{2029}' || c == '\U{202F}' || c == '\U{205F}'
    || c == '\U{3000}' || c == '\U{FEFF}'
  }

  /** Every character of `s` is white space (the empty string included). */
  predicate Blank(s: string) {
    forall i :: 0 <= i < |s| ==> IsWhiteSpace(s[i])
  }

  /** Number of white-space characters at the start of `s`. */
  function LeadingSpace(s: string): (k: nat)
    ensures k <= |s|
    ensures Blank(s[..k])
    ensures k < |s| ==> !IsWhiteSpace(s[k])
  {
    if s != [] && IsWhiteSpace(s[0]) then
      var k := 1 + LeadingSpace(s[1..]);
      assert s[..k] == [s[0]] + s[1..][..k - 1];
      k
    else 0
  }

  /** Length of `s` once the white space at its end is removed. */
  function TrailingStart(s: string): (k: nat)
    ensures k <= |s|
    ensures Blank(s[k..])
    ensures k > 0 ==> !IsWhiteSpace(s[k - 1])
  {
    if s != [] && IsWhiteSpace(s[|s| - 1]) then
      var k := TrailingStart(s[..|s| - 1]);
      assert s[k..] == s[..|s| - 1][k..] + [s[|s| - 1]];
      k
    else |s|
  }

  /**
    `s.trim()`: `s` without its leading and trailing white space. The result is the
    middle of `s` between two blank pieces, it is empty exactly when `s` is blank, and
    otherwise it neither starts nor ends with white space.
   */
  function Trim(s: string): (r: string)
    ensures |r| <= |s|
    ensures r == "" <==> Blank(s)
    ensures r != "" ==> !IsWhiteSpace(r[0]) && !IsWhiteSpace(r[|r| - 1])
    ensures exists a :: 0 <= a <= |s| - |r| && Blank(s[..a]) && s[a..a + |r|] == r && Blank(s[a + |r|..])
  {
    var a := LeadingSpace(s);
    var t := s[a..];
    var r := t[..TrailingStart(t)];
    assert s[a..a + |r|] == r;
    assert s[a + |r|..] == t[TrailingStart(t)..];
    assert Blank(s) ==> a == |s|;
    assert a == |s| ==> s[..a] == s;
    r
  }

  /** Trimming twice is trimming once, so a query trimmed by its caller reaches the service unchanged. */
  lemma {:induction false} TrimIdempotent(s: string)
    ensures Trim(Trim(s)) == Trim(s)
  {
    var r := Trim(s);
    if r != "" {
      assert LeadingSpace(r) == 0;
      assert TrailingStart(r) == |r|;
      assert r[0..] == r;
    }
  }

  /** `s.includes(p)`: `p` occurs in `s` as a contiguous piece. */
  predicate Contains(s: string, p: string)
    decreases |s|
  {
    p <= s || (s != [] && Contains(s[1..], p))
  }

  /** A string cannot contain a pattern one of whose characters it lacks. */
  lemma {:induction false} MissingCharNotContained(s: string, p: string, c: char)
    requires c in p && c !in s
    ensures !Contains(s, p)
    decreases |s|
  {
    if s != [] {
      assert forall x :: x in s[1..] ==> x in s;
      MissingCharNotContained(s[1..], p, c);
    }
  }
}
