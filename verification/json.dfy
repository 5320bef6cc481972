/**
 * JSON values as Python's `json.loads` returns them, and the text under which
 * `json.dump` writes a dictionary key that is not a string.
 */
module Json {
  import opened Wrappers

  /** A decoded JSON document. Numbers are integers only (see README). */
  datatype Json =
    | JNull
    | JBool(b: bool)
    | JNum(n: int)
    | JStr(s: string)
    | JArr(items: seq<Json>)
    | JObj(fields: map<string, Json>)

  predicate IsDigit(c: char) { '0' <= c <= '9' }

  function Digit(d: nat): (c: char)
    requires d < 10
    ensures IsDigit(c)
  {
    (48 + d) as char
  }

  /** Python's `str(n)` for a non-negative integer: decimal digits, most significant first. */
  function NatText(n: nat): (s: string)
    ensures |s| >= 1 && (n < 10 <==> |s| == 1)
    ensures forall i :: 0 <= i < |s| ==> IsDigit(s[i])
  {
    if n < 10 then [Digit(n)] else NatText(n / 10) + [Digit(n % 10)]
  }

  /** The number a string of decimal digits stands for, most significant digit first. */
  function DecimalValue(s: string): nat
    requires forall i :: 0 <= i < |s| ==> IsDigit(s[i])
  {
    if s == [] then 0
    else
      assert IsDigit(s[|s| - 1]);
      DecimalValue(s[..|s| - 1]) * 10 + (s[|s| - 1] as int - 48)
  }

  /** The digits `NatText` writes read back as the number they were written for. */
  lemma {:induction false} NatTextValue(n: nat)
    ensures DecimalValue(NatText(n)) == n
  {
    var s := NatText(n);
    if n >= 10 {
      assert s[..|s| - 1] == NatText(n / 10);
      NatTextValue(n / 10);
    }
  }

  /** An optional minus sign followed by at least one decimal digit. */
  predicate IsNumeral(s: string) {
    if |s| >= 1 && s[0] == '-' then |s| >= 2 && forall i :: 1 <= i < |s| ==> IsDigit(s[i])
    else |s| >= 1 && forall i :: 0 <= i < |s| ==> IsDigit(s[i])
  }

  /**
   * Python's `str(n)` for any integer: a minus sign before the digits of a
   * negative number. The digits read back as the magnitude of `n`.
   */
  function IntText(n: int): (r: string)
    ensures IsNumeral(r) && (r[0] == '-' <==> n < 0)
    ensures n < 0 ==> DecimalValue(r[1..]) == -n
    ensures n >= 0 ==> DecimalValue(r) == n
  {
    if n < 0 then
      NatTextValue(-n);
      assert ("-" + NatText(-n))[1..] == NatText(-n);
      "-" + NatText(-n)
    else
      NatTextValue(n);
      NatText(n)
  }

  /** Distinct non-negative integers print differently. */
  lemma NatTextInjective(a: nat, b: nat)
    requires NatText(a) == NatText(b)
    ensures a == b
  {
    NatTextValue(a);
    NatTextValue(b);
  }

  /** Distinct integers print differently: the sign is never a digit. */
  lemma IntTextInjective(a: int, b: int)
    requires IntText(a) == IntText(b)
    ensures a == b
  {
    if a < 0 && b < 0 {
      assert NatText(-a) == IntText(a)[1..] == IntText(b)[1..] == NatText(-b);
      NatTextInjective(-a, -b);
    } else if a >= 0 && b >= 0 {
      NatTextInjective(a, b);
    }
  }

  /**
   * The string under which `json.dump` writes `v` when it is used as a
   * dictionary key: a string stays itself, an integer, a boolean and null are
   * written as `str`, `true`/`false` and `null`. A list or an object cannot be
   * a dictionary key at all (it is unhashable), which gives None.
   */
  function KeyText(v: Json): (r: Option<string>)
    ensures r.None? <==> v.JArr? || v.JObj?
    ensures v.JStr? ==> r == Some(v.s)
    ensures v.JNum? ==> r.Some? && IsNumeral(r.value)
    ensures v.JBool? || v.JNull? ==> r.Some? && !IsNumeral(r.value)
  {
    match v
    case JStr(s) => Some(s)
    case JNum(n) => Some(IntText(n))
    case JBool(b) => Some(if b then "true" else "false")
    case JNull => Some("null")
    case JArr(_) => None
    case JObj(_) => None
  }
}
