/**
 Integer-like string keys. PHP stores `$a["12"]` under the integer key 12, so an array must
 never hold a string key that is the decimal rendering of a 64-bit integer.
*/
module NumericKeys {
  import opened Wrappers

  const I64_MIN: int := -0x8000_0000_0000_0000
  const I64_MAX: int := 0x7fff_ffff_ffff_ffff

  predicate IsI64(i: int) {
    I64_MIN <= i <= I64_MAX
  }

  predicate IsDigit(c: char) {
    '0' <= c <= '9'
  }

  predicate AllDigits(s: string) {
    forall i :: 0 <= i < |s| ==> IsDigit(s[i])
  }

  function DigitValue(c: char): nat
    requires IsDigit(c)
  {
    (c as int) - ('0' as int)
  }

  /** The number that a string of digits denotes. */
  function DigitsValue(s: string): nat
    requires AllDigits(s)
  {
    if s == "" then 0 else DigitsValue(s[..|s| - 1]) * 10 + DigitValue(s[|s| - 1])
  }

  /** `str::parse::<i64>`: an optional sign, at least one digit, and a value in range. */
  function ParseI64(s: string): Option<int> {
    var negative := s != "" && s[0] == '-';
    var digits := if negative || (s != "" && s[0] == '+') then s[1..] else s;
    if digits == "" || !AllDigits(digits) then None
    else
      var value: int := if negative then 0 - DigitsValue(digits) else DigitsValue(digits);
      if IsI64(value) then Some(value) else None
  }

  /** `php_numeric_string_key`. */
  function PhpNumericStringKey(s: string): Option<int> {
    var digits := if s != "" && s[0] == '-' then s[1..] else s;
    if digits == "" || !AllDigits(digits) then None
    else if (|digits| > 1 && digits[0] == '0') || (s[0] == '-' && digits == "0") then None
    else ParseI64(s)
  }

  // ---------------------------------------------------------------------------------------
  //  The partner: decimal printing
  // ---------------------------------------------------------------------------------------

  function DigitOf(n: nat): char
    requires n < 10
  {
    (n + ('0' as int)) as char
  }

  function PrintNat(n: nat): string {
    if n < 10 then [DigitOf(n)] else PrintNat(n / 10) + [DigitOf(n % 10)]
  }

  /** The decimal rendering of an integer, as `i64::to_string` and PHP print it. */
  function PrintInt(i: int): string {
    if i < 0 then "-" + PrintNat(-i) else PrintNat(i)
  }

  /** Digits without a leading zero; "0" itself is fine. */
  predicate Canonical(s: string) {
    s != "" && AllDigits(s) && (|s| > 1 ==> s[0] != '0')
  }

  lemma {:induction false} PrintNatCanonical(n: nat)
    ensures Canonical(PrintNat(n)) && DigitsValue(PrintNat(n)) == n
    ensures PrintNat(n)[0] == '0' <==> n == 0
  {
    if n >= 10 {
      PrintNatCanonical(n / 10);
      var s := PrintNat(n / 10) + [DigitOf(n % 10)];
      assert s[..|s| - 1] == PrintNat(n / 10);
    } else {
      assert DigitsValue([DigitOf(n)]) == DigitsValue("") * 10 + n by { assert [DigitOf(n)][..0] == ""; }
    }
  }

  lemma {:induction false} CanonicalIsPrinted(s: string)
    requires Canonical(s)
    ensures PrintNat(DigitsValue(s)) == s
    ensures |s| > 1 ==> DigitsValue(s) >= 10
  {
    var front, last := s[..|s| - 1], s[|s| - 1];
    if |s| == 1 {
      assert front == "";
    } else {
      CanonicalIsPrinted(front);
      var v := DigitsValue(front);
      if |front| == 1 {
        assert front[..0] == "" && v == DigitValue(front[0]) && v > 0;
      }
      assert DigitsValue(s) / 10 == v && DigitsValue(s) % 10 == DigitValue(last);
      assert s == front + [last];
    }
  }

  lemma NumericKeyIsPrinted(s: string)
    requires PhpNumericStringKey(s).Some?
    ensures IsI64(PhpNumericStringKey(s).value) && s == PrintInt(PhpNumericStringKey(s).value)
  {
    var negative := s[0] == '-';
    var digits := if negative then s[1..] else s;
    CanonicalIsPrinted(digits);
    if negative {
      assert PrintNat(0) == "0";
      assert s == "-" + digits;
    }
  }

  lemma PrintedIsNumericKey(i: int)
    requires IsI64(i)
    ensures PhpNumericStringKey(PrintInt(i)) == Some(i)
  {
    var m: nat := if i < 0 then -i else i;
    PrintNatCanonical(m);
    var s := PrintInt(i);
    if i < 0 {
      assert s[0] == '-' && s[1..] == PrintNat(m);
    }
  }

  /**
   `php_numeric_string_key` is exactly the partial inverse of printing 64-bit integers: it
   answers `i` for the canonical rendering of `i` and for no other string. So "-0", "01", "+1",
   "" and anything out of range stay string keys, and the least integer does not.
  */
  lemma NumericKeyInvertsPrinting(s: string, i: int)
    ensures PhpNumericStringKey(s) == Some(i) <==> IsI64(i) && s == PrintInt(i)
  {
    if PhpNumericStringKey(s).Some? {
      NumericKeyIsPrinted(s);
    }
    if IsI64(i) {
      PrintedIsNumericKey(i);
    }
  }
}
