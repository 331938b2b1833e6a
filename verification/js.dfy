/**
 * The JavaScript values the blocks work with: attributes that may be undefined
 * or null, the truthiness tests the `if (x)` guards perform, and the text that
 * template literals and `toFixed(1)` produce for whole numbers.
 */
module Js {

  datatype Option<+T> = None | Some(value: T)

  /**
   * One block attribute as the editor hands it to `edit` or `save`: never
   * written (`undefined`), cleared with `null`, or a value of the attribute's
   * declared type.
   */
  datatype Attr<+T> = Undefined | Null | Set(value: T)

  /** `if (s)` on a string attribute: only a non-empty string passes. */
  predicate Truthy(s: Attr<string>) {
    s.Set? && s.value != ""
  }

  /** `if (n)` on a number attribute: only a non-zero number passes. */
  predicate NumTruthy(n: Attr<int>) {
    n.Set? && n.value != 0
  }

  /** `if (b)` on a boolean attribute. */
  predicate BoolTruthy(b: Attr<bool>) {
    b.Set? && b.value
  }

  /** `if (s)` on an optional string property of a plain object. */
  predicate OptTruthy(s: Option<string>) {
    s.Some? && s.value != ""
  }

  /** The text of a string attribute; the blocks only read it where it is truthy. */
  function Text(s: Attr<string>): string {
    if s.Set? then s.value else ""
  }

  /** The value of a number attribute; the blocks only read it where it is truthy. */
  function Num(n: Attr<int>): int {
    if n.Set? then n.value else 0
  }

  /**
   * The editor's default resolution: an attribute that was never written takes
   * the schema default, while an explicit null stays null.
   */
  function OrDefault<T>(x: Attr<T>, default: T): Attr<T> {
    if x.Undefined? then Set(default) else x
  }

  // ---------------------------------------------------------------------------
  // Decimal text of whole numbers
  // ---------------------------------------------------------------------------

  predicate IsDigit(c: char) {
    '0' <= c <= '9'
  }

  predicate IsDigits(s: string) {
    forall i :: 0 <= i < |s| ==> IsDigit(s[i])
  }

  function DigitChar(d: nat): (c: char)
    requires d < 10
    ensures IsDigit(c) && (c as int) - ('0' as int) == d
  {
    (('0' as int) + d) as char
  }

  /** Decimal digits of `n`, most significant first, without leading zeros. */
  function NatToString(n: nat): (s: string)
    ensures |s| > 0 && IsDigits(s)
    ensures s[0] == '0' ==> n == 0
    decreases n
  {
    if n < 10 then [DigitChar(n)] else NatToString(n / 10) + [DigitChar(n % 10)]
  }

  /** The number a string of decimal digits denotes. */
  function DigitsValue(s: string): nat
    requires IsDigits(s)
  {
    if s == [] then 0
    else 10 * DigitsValue(s[..|s| - 1]) + ((s[|s| - 1] as int) - ('0' as int))
  }

  lemma {:induction false} NatToStringRoundTrip(n: nat)
    ensures DigitsValue(NatToString(n)) == n
    decreases n
  {
    if n >= 10 {
      var s := NatToString(n);
      NatToStringRoundTrip(n / 10);
      assert s[..|s| - 1] == NatToString(n / 10);
    }
  }

  /** `${n}` for a whole number (JavaScript writes no exponent below 10^21). */
  function IntToString(n: int): (s: string)
    ensures |s| > 0
  {
    if n < 0 then "-" + NatToString(-n) else NatToString(n)
  }

  /** Reads back a whole number written by IntToString. */
  function IntValue(s: string): int
    requires |s| > 0
    requires if s[0] == '-' then IsDigits(s[1..]) else IsDigits(s)
  {
    if s[0] == '-' then -(DigitsValue(s[1..]) as int) else DigitsValue(s) as int
  }

  lemma {:induction false} IntToStringRoundTrip(n: int)
    ensures var s := IntToString(n);
      (if s[0] == '-' then IsDigits(s[1..]) else IsDigits(s)) && IntValue(s) == n
  {
    var s := IntToString(n);
    if n < 0 {
      assert s[1..] == NatToString(-n);
      NatToStringRoundTrip(-n);
    } else {
      NatToStringRoundTrip(n);
    }
  }

  /** Different numbers never share a text, so `columns-${n}` names the number. */
  lemma IntToStringInjective(m: int, n: int)
    requires IntToString(m) == IntToString(n)
    ensures m == n
  {
    IntToStringRoundTrip(m);
    IntToStringRoundTrip(n);
  }

  // ---------------------------------------------------------------------------
  // `(n * 0.1).toFixed(1)` for a whole number n
  // ---------------------------------------------------------------------------

  /**
   * The one-decimal text of n/10: the integral part, a point and the tenths
   * digit, with a minus sign for negative n.
   */
  function FixedTenths(n: int): (s: string)
    ensures |s| >= 3 && s[|s| - 2] == '.'
  {
    var m := if n < 0 then -n else n;
    (if n < 0 then "-" else "") + NatToString(m / 10) + "." + [DigitChar(m % 10)]
  }

  /** Reads back the number of tenths a non-negative FixedTenths text stands for. */
  function TenthsValue(s: string): nat
    requires |s| >= 3 && s[|s| - 2] == '.'
    requires IsDigits(s[..|s| - 2]) && IsDigit(s[|s| - 1])
  {
    10 * DigitsValue(s[..|s| - 2]) + ((s[|s| - 1] as int) - ('0' as int))
  }

  lemma {:induction false} FixedTenthsRoundTrip(n: nat)
    ensures var s := FixedTenths(n);
      IsDigits(s[..|s| - 2]) && IsDigit(s[|s| - 1]) && TenthsValue(s) == n
  {
    var s := FixedTenths(n);
    assert s == NatToString(n / 10) + "." + [DigitChar(n % 10)];
    assert s[..|s| - 2] == NatToString(n / 10);
    NatToStringRoundTrip(n / 10);
  }

  /** Over the opacity control's range 1..10 the text is "0.1" .. "0.9" and "1.0". */
  lemma FixedTenthsControlRange(n: int)
    requires 1 <= n <= 10
    ensures FixedTenths(n) == if n == 10 then "1.0" else ['0', '.', DigitChar(n)]
  {
    if n == 10 {
      assert NatToString(1) == "1";
    } else {
      assert n / 10 == 0 && n % 10 == n;
      assert NatToString(0) == "0";
    }
  }
}
