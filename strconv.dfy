/**
 * The two decimal conversions of Go's strconv package that the paginator
 * uses: Atoi, which reads the `page` and `per_page` query parameters, and
 * Itoa, which writes the page number into a generated link.
 *
 * Integers are unbounded here; Go's 64-bit range and the saturation that
 * Atoi applies on overflow are not modelled.
 */
module Strconv {
  import opened Wrappers

  predicate IsDigit(c: char) {
    '0' <= c <= '9'
  }

  function DigitValue(c: char): nat
    requires IsDigit(c)
  {
    (c as int) - ('0' as int)
  }

  function DigitChar(d: nat): (c: char)
    requires d < 10
    ensures IsDigit(c) && DigitValue(c) == d
  {
    (('0' as int) + d) as char
  }

  predicate AllDigits(s: string) {
    forall i :: 0 <= i < |s| ==> IsDigit(s[i])
  }

  /** The value of a run of decimal digits, most significant digit first. */
  function DigitsValue(s: string): nat
    requires AllDigits(s)
  {
    if s == [] then 0 else DigitsValue(s[..|s| - 1]) * 10 + DigitValue(s[|s| - 1])
  }

  /**
   * strconv.Atoi in base 10: an optional '+' or '-' followed by at least one
   * decimal digit; anything else is a syntax error. Leading zeros are accepted.
   */
  function Atoi(s: string): Option<int> {
    if |s| > 0 && (s[0] == '-' || s[0] == '+') then
      var digits := s[1..];
      if |digits| > 0 && AllDigits(digits) then
        var magnitude: int := DigitsValue(digits);
        Some(if s[0] == '-' then -magnitude else magnitude)
      else None
    else if |s| > 0 && AllDigits(s) then Some(DigitsValue(s))
    else None
  }

  /** `n, _ := strconv.Atoi(s)`: the error is dropped and a syntax error leaves 0. */
  function AtoiOrZero(s: string): int {
    match Atoi(s)
    case Some(n) => n
    case None => 0
  }

  /** The decimal digits of a natural number, without leading zeros. */
  function NatToDecimal(n: nat): string {
    if n < 10 then [DigitChar(n)] else NatToDecimal(n / 10) + [DigitChar(n % 10)]
  }

  /** strconv.Itoa: a '-' sign for negative numbers, then the digits of the magnitude. */
  function Itoa(n: int): string {
    if n < 0 then "-" + NatToDecimal(-n) else NatToDecimal(n)
  }

  /** A non-empty run of digits with no leading zero ("0" itself is allowed). */
  predicate CanonicalNat(s: string) {
    |s| > 0 && AllDigits(s) && (s[0] == '0' ==> |s| == 1)
  }

  /** The canonical decimal form of an integer: no leading zeros, no '+', no "-0". */
  predicate CanonicalInt(s: string) {
    CanonicalNat(s) || (|s| >= 2 && s[0] == '-' && CanonicalNat(s[1..]) && s[1] != '0')
  }

  lemma {:induction false} NatToDecimalCanonical(n: nat)
    ensures CanonicalNat(NatToDecimal(n))
    ensures NatToDecimal(n)[0] == '0' <==> n == 0
    ensures DigitsValue(NatToDecimal(n)) == n
  {
    var s := NatToDecimal(n);
    if n >= 10 {
      var init := NatToDecimal(n / 10);
      NatToDecimalCanonical(n / 10);
      assert s == init + [DigitChar(n % 10)];
      assert s[..|s| - 1] == init;
      assert s[0] == init[0];
    } else {
      assert s[..|s| - 1] == [];
    }
  }

  /** A digit run that does not start with '0' denotes a positive number. */
  lemma {:induction false} LeadingNonZeroIsPositive(s: string)
    requires |s| > 0 && AllDigits(s) && s[0] != '0'
    ensures DigitsValue(s) >= 1
  {
    if |s| > 1 {
      var init := s[..|s| - 1];
      assert init[0] == s[0];
      LeadingNonZeroIsPositive(init);
    }
  }

  /** Printing the value of a canonical digit run gives the run back. */
  lemma {:induction false} NatToDecimalOfCanonical(s: string)
    requires CanonicalNat(s)
    ensures NatToDecimal(DigitsValue(s)) == s
  {
    var v := DigitsValue(s);
    if |s| == 1 {
      assert s[..|s| - 1] == [];
      assert v == DigitsValue([]) * 10 + DigitValue(s[0]);
    } else {
      var init := s[..|s| - 1];
      assert init[0] == s[0];
      LeadingNonZeroIsPositive(init);
      NatToDecimalOfCanonical(init);
      assert v / 10 == DigitsValue(init) && v % 10 == DigitValue(s[|s| - 1]);
      assert DigitChar(v % 10) == s[|s| - 1];
      assert s == init + [s[|s| - 1]];
    }
  }

  /** Reading back what Itoa wrote gives the number: Atoi(Itoa(n)) == n. */
  lemma AtoiItoa(n: int)
    ensures Atoi(Itoa(n)) == Some(n)
  {
    var m := if n < 0 then -n else n;
    NatToDecimalCanonical(m);
    if n < 0 {
      assert Itoa(n)[1..] == NatToDecimal(m);
    }
  }

  /** Itoa writes the canonical form: no leading zeros, no '+', no "-0". */
  lemma ItoaCanonical(n: int)
    ensures CanonicalInt(Itoa(n))
  {
    var m := if n < 0 then -n else n;
    NatToDecimalCanonical(m);
    if n < 0 {
      assert Itoa(n)[1..] == NatToDecimal(m);
    }
  }

  /**
   * The converse round trip: a canonical decimal string is what Itoa writes
   * for the number Atoi reads from it, so Itoa is exactly the inverse of Atoi
   * on canonical strings.
   */
  lemma ItoaAtoi(s: string)
    requires CanonicalInt(s)
    ensures Atoi(s) == Some(AtoiOrZero(s))
    ensures Itoa(AtoiOrZero(s)) == s
  {
    if CanonicalNat(s) {
      NatToDecimalOfCanonical(s);
    } else {
      var digits := s[1..];
      LeadingNonZeroIsPositive(digits);
      NatToDecimalOfCanonical(digits);
      assert s == "-" + digits;
    }
  }
}
