/** The decimal rendering of integers used to build identifiers
    (`strconv.Itoa`), with its inverse. */
module Decimal {
  import opened Json

  predicate IsDigit(c: char) { '0' <= c <= '9' }

  predicate AllDigits(s: string) {
    forall i :: 0 <= i < |s| ==> IsDigit(s[i])
  }

  /** An unsigned decimal numeral with no leading zero (except "0" itself). */
  predicate Canonical(s: string) {
    |s| >= 1 && AllDigits(s) && (s[0] == '0' ==> |s| == 1)
  }

  function DigitChar(d: nat): (c: char)
    requires d < 10
    ensures IsDigit(c) && c as int - '0' as int == d
  {
    ('0' as int + d) as char
  }

  /** The value of a string of digits, most significant digit first. */
  function DecimalValue(s: string): nat
    requires AllDigits(s)
  {
    if s == [] then 0
    else DecimalValue(s[..|s| - 1]) * 10 + (s[|s| - 1] as int - '0' as int)
  }

  /** The decimal numeral of a natural number. */
  function NatToDecimal(n: nat): (s: string)
    ensures Canonical(s)
    ensures s[0] == '0' ==> n == 0
    decreases n
  {
    if n < 10 then [DigitChar(n)] else NatToDecimal(n / 10) + [DigitChar(n % 10)]
  }

  /** `strconv.Itoa`: a minus sign for negative numbers, then the numeral of the magnitude. */
  function Itoa(n: int): (s: string)
    ensures n >= 0 ==> Canonical(s)
    ensures n < 0 ==> |s| >= 2 && s[0] == '-' && Canonical(s[1..]) && s[1..] != "0"
  {
    if n < 0 then "-" + NatToDecimal(-n) else NatToDecimal(n)
  }

  /** Reads back exactly the strings `Itoa` produces. Unlike Go's `strconv.Atoi`
      it rejects a '+' sign, leading zeros and "-0". */
  function ReadItoa(s: string): Option<int> {
    if |s| >= 2 && s[0] == '-' && Canonical(s[1..]) && s[1..] != "0" then
      var magnitude: int := DecimalValue(s[1..]);
      Some(-magnitude)
    else if Canonical(s) then Some(DecimalValue(s))
    else None
  }

  lemma {:induction false} NatToDecimalValue(n: nat)
    ensures DecimalValue(NatToDecimal(n)) == n
    decreases n
  {
    if n >= 10 {
      var s := NatToDecimal(n);
      assert s[..|s| - 1] == NatToDecimal(n / 10);
      NatToDecimalValue(n / 10);
    }
  }

  lemma {:induction false} CanonicalValue(s: string)
    requires Canonical(s)
    ensures NatToDecimal(DecimalValue(s)) == s
    decreases |s|
  {
    var d := s[|s| - 1] as int - '0' as int;
    var p := s[..|s| - 1];
    if |s| == 1 {
      assert p == [];
      assert [DigitChar(d)] == s;
    } else {
      assert Canonical(p);
      CanonicalValue(p);
      var v := DecimalValue(s);
      assert v / 10 == DecimalValue(p) && v % 10 == d;
      assert DigitChar(d) == s[|s| - 1];
      assert s == p + [s[|s| - 1]];
    }
  }

  /** `Itoa` loses nothing: its result reads back to the number rendered. */
  lemma ItoaRoundTrip(n: int)
    ensures ReadItoa(Itoa(n)) == Some(n)
  {
    var s := Itoa(n);
    if n < 0 {
      assert s[1..] == NatToDecimal(-n);
      NatToDecimalValue(-n);
    } else {
      assert IsDigit(s[0]);
      NatToDecimalValue(n);
    }
  }

  /** Every string `ReadItoa` accepts is the `Itoa` rendering of its value,
      so each integer has exactly one rendering. */
  lemma ReadItoaRoundTrip(s: string, n: int)
    requires ReadItoa(s) == Some(n)
    ensures Itoa(n) == s
  {
    if |s| >= 2 && s[0] == '-' && Canonical(s[1..]) && s[1..] != "0" {
      CanonicalValue(s[1..]);
      assert s == "-" + s[1..];
    } else {
      CanonicalValue(s);
    }
  }
}
