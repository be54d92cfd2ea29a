/**
 * The few JavaScript value notions the models depend on.
 *
 * A property read from a plain data object is either absent (`undefined`),
 * `null`, or a value. Every guard in the modelled code treats `undefined` and
 * `null` alike, so both are `None`. JavaScript truthiness then depends on the
 * kind of value: the empty string and the number 0 are falsy, while arrays and
 * objects are always truthy.
 */
module Js {

  datatype Option<+T> = None | Some(value: T) {
    /** `o ?? d`: the value, or `d` when it is absent. */
    function GetOr(d: T): T {
      match this
      case Some(v) => v
      case None => d
    }
  }

  /** A string is truthy when present and non-empty. */
  predicate TruthyStr(o: Option<string>) {
    o.Some? && o.value != ""
  }

  /** A number is truthy when present and non-zero (NaN is not modelled). */
  predicate TruthyInt(o: Option<int>) {
    o.Some? && o.value != 0
  }

  predicate TruthyReal(o: Option<real>) {
    o.Some? && o.value != 0.0
  }

  /** `o || d` for a string property. */
  function StrOr(o: Option<string>, d: string): string {
    if TruthyStr(o) then o.value else d
  }

  /** `o || null` for an identifier: a falsy id becomes `null`. */
  function IdOrNull(o: Option<int>): Option<int> {
    if TruthyInt(o) then o else None
  }

  /** `o || null` for a string property that defaults to `null`. */
  function StrOrNull(o: Option<string>): Option<string> {
    if TruthyStr(o) then o else None
  }

  /** `o || 0` for a numeric property. */
  function RealOrZero(o: Option<real>): real {
    if TruthyReal(o) then o.value else 0.0
  }

  function IntOrZero(o: Option<int>): int {
    if TruthyInt(o) then o.value else 0
  }

  function Abs(x: int): nat {
    if x < 0 then -x else x
  }

  function MaxReal(a: real, b: real): real {
    if a < b then b else a
  }

  /** The characters JavaScript's `\s` matches: WhiteSpace and LineTerminator. */
  predicate IsWhitespace(c: char) {
    c == '\t' || c == '\n' || c == '\U{000B}' || c == '\U{000C}' || c == '\r' || c == ' '
    || c == '\U{00A0}' || c == '\U{1680}' || ('\U{2000}' <= c <= '\U{200A}')
    || c == '\U{2028}' || c == '\U{2029}' || c == '\U{202F}' || c == '\U{205F}'
    || c == '\U{3000}' || c == '\U{FEFF}'
  }

  /** `s.trimStart()`: drops the leading whitespace. */
  function TrimStart(s: string): (t: string)
    ensures |t| <= |s| && t == s[|s| - |t|..]
    ensures t != [] ==> !IsWhitespace(t[0])
    ensures forall k :: 0 <= k < |s| - |t| ==> IsWhitespace(s[k])
  {
    if s != [] && IsWhitespace(s[0]) then TrimStart(s[1..]) else s
  }

  /** `s.trimEnd()`: drops the trailing whitespace. */
  function TrimEnd(s: string): (t: string)
    ensures |t| <= |s| && t == s[..|t|]
    ensures t != [] ==> !IsWhitespace(t[|t| - 1])
    ensures forall k :: |t| <= k < |s| ==> IsWhitespace(s[k])
  {
    if s != [] && IsWhitespace(s[|s| - 1]) then TrimEnd(s[..|s| - 1]) else s
  }

  /** `s.trim()`. */
  function Trim(s: string): string {
    TrimEnd(TrimStart(s))
  }

  /** Every character of `s` is whitespace (vacuously so for ""). */
  predicate IsBlank(s: string) {
    forall k :: 0 <= k < |s| ==> IsWhitespace(s[k])
  }

  /** `s.trim() === ""` exactly when `s` is blank. */
  lemma {:induction false} TrimEmptyIffBlank(s: string)
    ensures Trim(s) == "" <==> IsBlank(s)
  {
    var t := TrimStart(s);
    if t != "" {
      assert !IsWhitespace(t[0]);
      assert TrimEnd(t) != "";
      assert !IsWhitespace(s[|s| - |t|]);
    }
  }

  /** `s.trim() === ""`. */
  function TrimIsEmpty(s: string): (b: bool)
    ensures b <==> IsBlank(s)
  {
    TrimEmptyIffBlank(s);
    Trim(s) == ""
  }
}
