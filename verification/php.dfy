/**
 * The few pieces of PHP's value semantics that the crawl core depends on:
 * option arrays, truthiness, loose comparison (`==`, `in_array`),
 * `array_merge` on string keys, `strtolower` and string conversion.
 */
module Php {

  /** A value stored in a configuration or log-record array. */
  datatype Value = Null | Bool(b: bool) | Int(i: int) | Str(s: string) | List(items: seq<Value>)

  /** An associative array with string keys. */
  type Options = map<string, Value>

  /** Reading `$a[$k]`: a missing key reads as null. */
  function Get(a: Options, k: string): (v: Value)
    ensures k !in a ==> v == Null
    ensures k in a ==> v == a[k]
  {
    if k in a then a[k] else Null
  }

  /** `isset($a[$k])`: the key is present and not null. */
  predicate IsSet(a: Options, k: string) {
    k in a && a[k] != Null
  }

  /** PHP's conversion to boolean (`if ($v)`, `(boolean) $v`). */
  predicate Truthy(v: Value) {
    match v
    case Null => false
    case Bool(b) => b
    case Int(i) => i != 0
    case Str(s) => s != "" && s != "0"
    case List(items) => |items| > 0
  }

  /** The values that compare loosely equal to null. */
  predicate NullLike(v: Value) {
    v == Null || v == Bool(false) || v == Int(0) || v == Str("") || v == List([])
  }

  /**
   * PHP's loose comparison `$a == $b`. Numeric strings are compared as
   * text; against an integer the string must be the integer's decimal form
   * (PHP's numeric conversion of the string is not modelled).
   */
  predicate LooseEquals(a: Value, b: Value) {
    match (a, b)
    case (Null, _) => NullLike(b)
    case (_, Null) => NullLike(a)
    case (Bool(x), _) => x == Truthy(b)
    case (_, Bool(y)) => Truthy(a) == y
    case (Int(x), Int(y)) => x == y
    case (Str(x), Str(y)) => x == y
    case (Int(x), Str(y)) => y == Decimal(x)
    case (Str(x), Int(y)) => x == Decimal(y)
    case (List(x), List(y)) => x == y
    case _ => false
  }

  /** `in_array($needle, $haystack)` with its default loose comparison. */
  predicate InArray(needle: Value, haystack: seq<Value>) {
    exists i :: 0 <= i < |haystack| && LooseEquals(haystack[i], needle)
  }

  /**
   * `array_merge($defaults, $options)` on string keys: every option
   * overrides the default of the same key, all other defaults are kept.
   */
  function Merge(defaults: Options, options: Options): (r: Options)
    ensures r.Keys == defaults.Keys + options.Keys
    ensures forall k :: k in options ==> r[k] == options[k]
    ensures forall k :: k in defaults && k !in options ==> r[k] == defaults[k]
  {
    defaults + options
  }

  /** `strtolower` on one character (ASCII letters only). */
  function LowerChar(c: char): (d: char)
    ensures 'A' <= c <= 'Z' ==> d as int == c as int + 32
    ensures !('A' <= c <= 'Z') ==> d == c
  {
    if 'A' <= c <= 'Z' then (c as int + 32) as char else c
  }

  /** `strtolower`: ASCII upper-case letters are folded, all else kept. */
  function ToLower(s: string): (r: string)
    ensures |r| == |s|
    ensures forall i :: 0 <= i < |s| ==> r[i] == LowerChar(s[i])
  {
    if s == [] then [] else [LowerChar(s[0])] + ToLower(s[1..])
  }

  predicate IsLower(s: string) {
    forall i :: 0 <= i < |s| ==> !('A' <= s[i] <= 'Z')
  }

  lemma {:induction false} ToLowerIsLowerAndIdempotent(s: string)
    ensures IsLower(ToLower(s))
    ensures ToLower(ToLower(s)) == ToLower(s)
  {
    var t := ToLower(s);
    assert forall i :: 0 <= i < |t| ==> t[i] == LowerChar(s[i]);
    var u := ToLower(t);
    assert forall i :: 0 <= i < |u| ==> u[i] == t[i];
  }

  /** Lower-case text is left alone. */
  lemma ToLowerKeepsLower(s: string)
    requires IsLower(s)
    ensures ToLower(s) == s
  {
    var r := ToLower(s);
    assert forall i :: 0 <= i < |s| ==> r[i] == s[i];
  }

  function DigitChar(d: int): (c: char)
    requires 0 <= d < 10
    ensures '0' <= c <= '9'
  {
    ('0' as int + d) as char
  }

  function NatDecimal(n: nat): (s: string)
    ensures |s| > 0
    ensures forall i :: 0 <= i < |s| ==> '0' <= s[i] <= '9'
    decreases n
  {
    if n < 10 then [DigitChar(n)] else NatDecimal(n / 10) + [DigitChar(n % 10)]
  }

  /** `(string) $i` for an integer. */
  function Decimal(i: int): (s: string)
    ensures |s| > 0
    ensures i >= 0 ==> s[0] != '-'
    ensures i < 0 ==> s[0] == '-'
  {
    if i >= 0 then NatDecimal(i) else "-" + NatDecimal(-i)
  }

  /** `(string) $v` for the values a configuration may hold. */
  function ToPhpString(v: Value): string {
    match v
    case Null => ""
    case Bool(b) => if b then "1" else ""
    case Int(i) => Decimal(i)
    case Str(s) => s
    case List(_) => "Array"
  }
}
