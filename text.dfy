/** The two pieces of Python string handling the routes depend on:
    `str(n)` / f"{n}" for an integer, and `str.replace("_", ".")`. */
module Text {

  function DigitChar(d: int): char
    requires 0 <= d < 10
  {
    (48 + d) as char
  }

  predicate IsDigit(c: char) {
    '0' <= c <= '9'
  }

  /** Decimal digits of a natural number, no leading zeros (Python `str(n)` for n >= 0). */
  function NatToDecimal(n: nat): (s: string)
    ensures |s| > 0
    ensures forall i :: 0 <= i < |s| ==> IsDigit(s[i])
    decreases n
  {
    if n < 10 then [DigitChar(n)] else NatToDecimal(n / 10) + [DigitChar(n % 10)]
  }

  /** Python `str(v)` for any integer: a minus sign, then the digits of `-v`, when `v < 0`. */
  function IntToDecimal(v: int): string {
    if v < 0 then "-" + NatToDecimal(-v) else NatToDecimal(v)
  }

  /** Reads back a string of decimal digits; the left inverse of `NatToDecimal`. */
  function ParseNat(s: string): int {
    if s == [] then 0 else ParseNat(s[..|s| - 1]) * 10 + (s[|s| - 1] as int - 48)
  }

  /** Reads back an optional minus sign and decimal digits; the left inverse of `IntToDecimal`. */
  function ParseInt(s: string): int {
    if |s| > 0 && s[0] == '-' then -ParseNat(s[1..]) else ParseNat(s)
  }

  lemma {:induction false} ParseNatDecimal(n: nat)
    ensures ParseNat(NatToDecimal(n)) == n
    decreases n
  {
    if n >= 10 {
      var s := NatToDecimal(n);
      assert s[..|s| - 1] == NatToDecimal(n / 10);
      ParseNatDecimal(n / 10);
    }
  }

  lemma {:induction false} ParseIntDecimal(v: int)
    ensures ParseInt(IntToDecimal(v)) == v
  {
    if v < 0 {
      var s := IntToDecimal(v);
      assert s[1..] == NatToDecimal(-v);
      ParseNatDecimal(-v);
    } else {
      ParseNatDecimal(v);
      assert IsDigit(NatToDecimal(v)[0]);
    }
  }

  /** Distinct integers print differently. */
  lemma {:induction false} IntToDecimalInjective(a: int, b: int)
    ensures IntToDecimal(a) == IntToDecimal(b) ==> a == b
  {
    ParseIntDecimal(a);
    ParseIntDecimal(b);
  }

  /** Python `s.replace("_", ".")`. */
  function ReplaceUnderscores(s: string): (r: string)
    ensures |r| == |s|
    ensures forall i :: 0 <= i < |s| ==> r[i] == (if s[i] == '_' then '.' else s[i])
  {
    if s == [] then [] else (if s[0] == '_' then "." else [s[0]]) + ReplaceUnderscores(s[1..])
  }

  /** After the replacement no underscore is left. */
  lemma {:induction false} ReplaceRemovesUnderscores(s: string)
    ensures '_' !in ReplaceUnderscores(s)
  {
  }

  /** A string without underscores is left as it is: the source's `if "_" in value_type` guard
      only skips a call that would change nothing. */
  lemma {:induction false} ReplaceWithoutUnderscores(s: string)
    requires '_' !in s
    ensures ReplaceUnderscores(s) == s
  {
    var r := ReplaceUnderscores(s);
    assert forall i :: 0 <= i < |s| ==> r[i] == s[i];
  }
}
