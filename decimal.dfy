/**
 * Decimal text of Java `int`s: `String.valueOf(int)` (how the disassembler
 * renders register numbers and integer operands) and `Integer.parseInt`
 * (how the assembler reads integer literals and register names).
 * Only ASCII digits are modelled.
 */
module Decimal {
  import opened Encoding

  predicate IsDigit(c: char) { '0' <= c <= '9' }

  function DigitValue(c: char): (d: nat)
    requires IsDigit(c)
    ensures d < 10
  {
    c as int - '0' as int
  }

  function DigitChar(d: nat): (c: char)
    requires d < 10
    ensures IsDigit(c) && DigitValue(c) == d
  {
    ('0' as int + d) as char
  }

  predicate AllDigits(s: string) { forall k :: 0 <= k < |s| ==> IsDigit(s[k]) }

  /** The value of a string of decimal digits, most significant first. */
  function DigitsValue(s: string): (n: nat)
    requires AllDigits(s)
  {
    if s == [] then 0 else DigitsValue(s[..|s| - 1]) * 10 + DigitValue(s[|s| - 1])
  }

  /** Decimal digits of `n` without leading zeros (`"0"` for zero). */
  function NatToString(n: nat): (s: string)
    ensures |s| >= 1 && AllDigits(s)
    ensures |s| > 1 ==> s[0] != '0'
  {
    if n < 10 then [DigitChar(n)] else NatToString(n / 10) + [DigitChar(n % 10)]
  }

  /** `String.valueOf(int)`. */
  function IntToString(v: int): (s: string)
    ensures |s| >= 1
    ensures v >= 0 <==> s[0] != '-'
  {
    if v < 0 then "-" + NatToString(-v) else NatToString(v)
  }

  /** The text `Integer.parseInt` accepts: an optional sign, then digits, in range. */
  predicate IsJavaInt(s: string) {
    var body := if |s| > 0 && (s[0] == '-' || s[0] == '+') then s[1..] else s;
    |body| >= 1 && AllDigits(body) && -0x8000_0000 <= SignedValue(s) < 0x8000_0000
  }

  function SignedValue(s: string): int
    requires |s| > 0 && (s[0] == '-' || s[0] == '+') ==> AllDigits(s[1..])
    requires !(|s| > 0 && (s[0] == '-' || s[0] == '+')) ==> AllDigits(s)
  {
    if |s| > 0 && s[0] == '-' then -(DigitsValue(s[1..]) as int)
    else if |s| > 0 && s[0] == '+' then DigitsValue(s[1..])
    else DigitsValue(s)
  }

  /** `Integer.parseInt(s)`; text it would reject is excluded by the requires. */
  function ParseInt(s: string): (v: Int32)
    requires IsJavaInt(s)
  {
    SignedValue(s)
  }

  lemma {:induction false} DigitsOfNat(n: nat)
    ensures DigitsValue(NatToString(n)) == n
  {
    var s := NatToString(n);
    if n >= 10 {
      DigitsOfNat(n / 10);
      assert s[..|s| - 1] == NatToString(n / 10);
    }
  }

  /** `Integer.parseInt(String.valueOf(v)) == v` for every Java int. */
  lemma {:induction false} ParseIntToString(v: Int32)
    ensures IsJavaInt(IntToString(v)) && ParseInt(IntToString(v)) == v
  {
    var s := IntToString(v);
    if v < 0 {
      var m: nat := -(v as int);
      DigitsOfNat(m);
      assert s[1..] == NatToString(m);
    } else {
      DigitsOfNat(v);
    }
  }
}
