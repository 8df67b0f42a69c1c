/** Unsigned 64-bit integers as the source parses and prints them: Rust's
    `str::parse::<u64>` and `u64::to_string`. */
module Numbers {
  import opened Optional

  const U64Limit: int := 0x1_0000_0000_0000_0000

  /** Rust's `u64`. */
  type U64 = x: int | 0 <= x < U64Limit

  /** Rust's `u8`. */
  type U8 = x: int | 0 <= x < 0x100

  /** Rust's `u16`. */
  type U16 = x: int | 0 <= x < 0x1_0000

  predicate IsDigit(c: char)
  {
    '0' <= c <= '9'
  }

  predicate AllDigits(s: string)
  {
    forall i :: 0 <= i < |s| ==> IsDigit(s[i])
  }

  /** The value of a string of decimal digits, most significant first. */
  function DigitsValue(s: string): nat
    requires AllDigits(s)
  {
    if s == [] then 0
    else DigitsValue(s[..|s| - 1]) * 10 + (s[|s| - 1] as int - '0' as int)
  }

  /** The digit string `parse::<u64>` reads: an optional leading '+' is skipped;
      a leading '-' is an invalid digit for an unsigned type. */
  function UnsignedDigits(s: string): string
  {
    if |s| > 0 && s[0] == '+' then s[1..] else s
  }

  /** `s.parse::<u64>()`: `Some` exactly when `s` is an optional '+' followed by
      at least one ASCII digit and the value fits in 64 bits. */
  function ParseU64(s: string): (r: Option<U64>)
    ensures r.Some? <==> |UnsignedDigits(s)| > 0 && AllDigits(UnsignedDigits(s)) && DigitsValue(UnsignedDigits(s)) < U64Limit
    ensures r.Some? ==> r.value == DigitsValue(UnsignedDigits(s))
  {
    var digits := UnsignedDigits(s);
    if |digits| == 0 || !AllDigits(digits) then None
    else if DigitsValue(digits) >= U64Limit then None
    else Some(DigitsValue(digits))
  }

  function DigitChar(d: nat): char
    requires d < 10
  {
    ('0' as int + d) as char
  }

  /** `to_string` of an unsigned integer: its decimal digits, without sign or
      leading zeros. */
  function Decimal(n: nat): (s: string)
    ensures |s| >= 1 && AllDigits(s)
  {
    if n < 10 then [DigitChar(n)] else Decimal(n / 10) + [DigitChar(n % 10)]
  }

  lemma {:induction false} DecimalValue(n: nat)
    ensures DigitsValue(Decimal(n)) == n
  {
    if n >= 10 {
      DecimalValue(n / 10);
      var s := Decimal(n);
      assert s[..|s| - 1] == Decimal(n / 10);
    }
  }

  /** Printing an id and parsing it back gives the id again. */
  lemma ParseDecimal(n: U64)
    ensures ParseU64(Decimal(n)) == Some(n)
  {
    DecimalValue(n);
    assert Decimal(n)[0] != '+';
  }

  /** A string holding any character other than an ASCII digit (past an
      optional leading '+') never parses as a u64. */
  lemma NotNumeric(s: string, i: nat)
    requires i < |s| && !IsDigit(s[i]) && !(i == 0 && s[i] == '+')
    ensures ParseU64(s).None?
  {
    if |s| > 0 && s[0] == '+' {
      assert UnsignedDigits(s)[i - 1] == s[i];
    }
  }

  /** A digit string whose value does not fit in 64 bits is not a u64. */
  lemma TooLarge(s: string)
    requires |s| > 0 && AllDigits(s) && DigitsValue(s) >= U64Limit
    ensures ParseU64(s).None?
  {
  }

  /** Appending a digit to a positive number appends it to its decimal form. */
  lemma DecimalStep(n: nat, d: nat)
    requires n >= 1 && d < 10
    ensures Decimal(10 * n + d) == Decimal(n) + [DigitChar(d)]
  {
    assert (10 * n + d) / 10 == n && (10 * n + d) % 10 == d;
  }

  lemma DecimalHigh()
    ensures Decimal(1844674407) == "1844674407"
  {
    DecimalStep(1, 8);
    DecimalStep(18, 4);
    DecimalStep(184, 4);
    DecimalStep(1844, 6);
    DecimalStep(18446, 7);
    DecimalStep(184467, 4);
    DecimalStep(1844674, 4);
    DecimalStep(18446744, 0);
    DecimalStep(184467440, 7);
  }

  lemma DecimalMaxPrefix()
    ensures Decimal(1844674407370955161) == "1844674407370955161"
  {
    DecimalHigh();
    DecimalStep(1844674407, 3);
    DecimalStep(18446744073, 7);
    DecimalStep(184467440737, 0);
    DecimalStep(1844674407370, 9);
    DecimalStep(18446744073709, 5);
    DecimalStep(184467440737095, 5);
    DecimalStep(1844674407370955, 1);
    DecimalStep(18446744073709551, 6);
    DecimalStep(184467440737095516, 1);
  }

  /** 2^64 itself, twenty digits long, is one past the largest u64: its name
      form is not an id. */
  lemma TwoToTheSixtyFour()
    ensures ParseU64("18446744073709551615") == Some(U64Limit - 1)
    ensures ParseU64("18446744073709551616").None?
  {
    DecimalMaxPrefix();
    DecimalStep(1844674407370955161, 5);
    DecimalStep(1844674407370955161, 6);
    assert Decimal(U64Limit - 1) == "18446744073709551615";
    assert Decimal(U64Limit) == "18446744073709551616";
    ParseDecimal(U64Limit - 1);
    DecimalValue(U64Limit);
  }

  /** A leading '+' is accepted: "+n" parses as n. */
  lemma PlusSign(n: U64)
    ensures ParseU64("+" + Decimal(n)) == Some(n)
  {
    ParseDecimal(n);
    assert UnsignedDigits("+" + Decimal(n)) == Decimal(n);
  }

  lemma {:induction false} ZeroPrefixValue(d: string)
    requires AllDigits(d)
    ensures AllDigits("0" + d) && DigitsValue("0" + d) == DigitsValue(d)
  {
    var z := "0" + d;
    if d == [] {
      assert z[..0] == [];
    } else {
      assert z[..|z| - 1] == "0" + d[..|d| - 1];
      ZeroPrefixValue(d[..|d| - 1]);
    }
  }

  /** Leading zeros are accepted and change nothing. */
  lemma LeadingZero(d: string)
    requires |d| > 0 && AllDigits(d)
    ensures ParseU64("0" + d) == ParseU64(d)
  {
    ZeroPrefixValue(d);
    assert UnsignedDigits("0" + d) == "0" + d;
    assert d[0] != '+';
  }
}
