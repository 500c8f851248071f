/**
 * Decimal text as PHP produces and reads it: integer-to-string conversion,
 * `str_pad` to the left, the `(int)` cast of a string, `is_numeric` on
 * integer strings and ASCII `strtolower`.
 */
module Decimal {

  predicate IsDigit(c: char) {
    '0' <= c <= '9'
  }

  predicate AllDigits(s: string) {
    forall i :: 0 <= i < |s| ==> IsDigit(s[i])
  }

  /** A decimal numeral without superfluous leading zeros ("0", "7", "105"). */
  predicate CanonicalNat(s: string) {
    |s| > 0 && AllDigits(s) && (s[0] == '0' ==> |s| == 1)
  }

  function DigitChar(d: nat): (c: char)
    requires d < 10
    ensures IsDigit(c) && c as int - '0' as int == d
  {
    ('0' as int + d) as char
  }

  function DigitOf(c: char): (d: nat)
    requires IsDigit(c)
    ensures d < 10 && DigitChar(d) == c
  {
    c as int - '0' as int
  }

  /** The value of a string of digits, most significant first. */
  function DigitsValue(s: string): nat
    requires AllDigits(s)
  {
    if s == [] then 0 else 10 * DigitsValue(s[..|s| - 1]) + DigitOf(s[|s| - 1])
  }

  /** PHP's `(string)$n` for a natural number. */
  function NatToString(n: nat): string {
    if n < 10 then [DigitChar(n)] else NatToString(n / 10) + [DigitChar(n % 10)]
  }

  /** PHP's `(string)$i` for any integer: a minus sign, then the magnitude. */
  function IntToString(i: int): string {
    if i < 0 then "-" + NatToString(-i) else NatToString(i)
  }

  /** `str_pad(s, 2, "0", STR_PAD_LEFT)`. */
  function PadLeft2(s: string): string {
    if |s| == 0 then "00" else if |s| == 1 then "0" + s else s
  }

  predicate IsSpace(c: char) {
    c == ' ' || c == '\t' || c == '\n' || c == '\r' || c == 11 as char || c == 12 as char
  }

  /** The number of leading characters of `s` that are digits. */
  function LeadingDigits(s: string): (n: nat)
    ensures n <= |s| && AllDigits(s[..n])
    ensures n < |s| ==> !IsDigit(s[n])
  {
    if s == [] || !IsDigit(s[0]) then 0
    else
      var n := 1 + LeadingDigits(s[1..]);
      assert s[..n] == [s[0]] + s[1..][..n - 1];
      n
  }

  /** The value of the longest numeral at the start of `s`. */
  function PrefixValue(s: string): nat {
    DigitsValue(s[..LeadingDigits(s)])
  }

  /**
   * PHP's `(int)$s`: leading white space is skipped, an optional sign is
   * read, then the longest run of digits; a string with no digits there
   * converts to 0.
   */
  function IntCast(s: string): int {
    if s != [] && IsSpace(s[0]) then IntCast(s[1..])
    else if s != [] && s[0] == '-' then -(PrefixValue(s[1..]) as int)
    else if s != [] && s[0] == '+' then PrefixValue(s[1..])
    else PrefixValue(s)
  }

  /** `is_numeric` restricted to integer strings: an optional sign and at least one digit. */
  predicate IsIntegerString(s: string) {
    if s != [] && (s[0] == '-' || s[0] == '+') then |s| > 1 && AllDigits(s[1..])
    else s != [] && AllDigits(s)
  }

  function LowerChar(c: char): (d: char)
    ensures 'A' <= c <= 'Z' ==> d as int == c as int + 32
    ensures !('A' <= c <= 'Z') ==> d == c
  {
    if 'A' <= c <= 'Z' then (c as int - 'A' as int + 'a' as int) as char else c
  }

  /** ASCII `strtolower`: the result has no capital, each capital becomes its small letter, other characters stay. */
  function ToLower(s: string): (r: string)
    ensures |r| == |s|
    ensures forall i :: 0 <= i < |r| ==> !('A' <= r[i] <= 'Z')
    ensures forall i :: 0 <= i < |s| && 'A' <= s[i] <= 'Z' ==> r[i] as int == s[i] as int + 32
    ensures forall i :: 0 <= i < |s| && !('A' <= s[i] <= 'Z') ==> r[i] == s[i]
  {
    seq(|s|, i requires 0 <= i < |s| => LowerChar(s[i]))
  }

  /** `(string)$n` is a canonical numeral. */
  lemma {:induction false} NatToStringCanonical(n: nat)
    ensures CanonicalNat(NatToString(n))
    ensures NatToString(n)[0] == '0' ==> n == 0
    ensures n >= 10 ==> |NatToString(n)| >= 2
  {
    if n >= 10 {
      NatToStringCanonical(n / 10);
      var p := NatToString(n / 10);
      assert NatToString(n) == p + [DigitChar(n % 10)];
    }
  }

  /** `(string)$i` is a minus sign for negatives followed by a canonical numeral, and has no ':'. */
  lemma IntToStringShape(i: int)
    ensures |IntToString(i)| > 0 && ':' !in IntToString(i)
    ensures i >= 0 ==> CanonicalNat(IntToString(i))
    ensures i < 0 ==> IntToString(i)[0] == '-' && CanonicalNat(IntToString(i)[1..])
  {
    var s := IntToString(i);
    if i < 0 {
      NatToStringCanonical(-i);
      assert s[1..] == NatToString(-i);
    } else {
      NatToStringCanonical(i);
    }
    forall k | 0 <= k < |s|
      ensures s[k] != ':'
    {
      if k > 0 && i < 0 {
        assert s[k] == s[1..][k - 1];
      }
    }
  }

  /** `str_pad` to width two only ever prepends zeros. */
  lemma PadLeft2Shape(s: string)
    ensures |PadLeft2(s)| == if |s| < 2 then 2 else |s|
    ensures PadLeft2(s)[|PadLeft2(s)| - |s|..] == s
    ensures forall i :: 0 <= i < |PadLeft2(s)| - |s| ==> PadLeft2(s)[i] == '0'
  {
  }

  lemma LeadingDigitsAll(s: string)
    requires AllDigits(s)
    ensures LeadingDigits(s) == |s|
  {
  }

  lemma {:induction false} DigitsOfNatToString(n: nat)
    ensures AllDigits(NatToString(n)) && DigitsValue(NatToString(n)) == n
  {
    NatToStringCanonical(n);
    var s := NatToString(n);
    if n >= 10 {
      DigitsOfNatToString(n / 10);
      assert s[..|s| - 1] == NatToString(n / 10);
    }
  }

  /** The value of a canonical numeral starting with a non-zero digit is at least 10^(len-1) >= 1, so positive. */
  lemma {:induction false} LeadingNonZeroPositive(s: string)
    requires |s| > 0 && AllDigits(s) && s[0] != '0'
    ensures DigitsValue(s) >= 1
    ensures |s| >= 2 ==> DigitsValue(s) >= 10
  {
    if |s| >= 2 {
      LeadingNonZeroPositive(s[..|s| - 1]);
    }
  }

  lemma {:induction false} NatToStringOfDigits(s: string)
    requires CanonicalNat(s)
    ensures NatToString(DigitsValue(s)) == s
  {
    if |s| >= 2 {
      var p := s[..|s| - 1];
      assert CanonicalNat(p);
      NatToStringOfDigits(p);
      LeadingNonZeroPositive(s);
      var v := DigitsValue(s);
      assert v / 10 == DigitsValue(p) && v % 10 == DigitOf(s[|s| - 1]);
      assert s == p + [s[|s| - 1]];
    }
  }

  /** `(int)` undoes `(string)` on every integer. */
  lemma IntCastOfIntToString(i: int)
    ensures IntCast(IntToString(i)) == i
  {
    var s := IntToString(i);
    var m := if i < 0 then -i else i;
    var digits := NatToString(m);
    NatToStringCanonical(m);
    LeadingDigitsAll(digits);
    DigitsOfNatToString(m);
    if i < 0 {
      assert s[1..] == digits;
    }
    assert digits[..LeadingDigits(digits)] == digits;
  }

  /** Zero-padding to width two does not change the value `(int)` reads back. */
  lemma IntCastOfPadded(i: int)
    ensures IntCast(PadLeft2(IntToString(i))) == i
  {
    if 0 <= i < 10 {
      var t := PadLeft2(IntToString(i));
      assert t == ['0', DigitChar(i)];
      assert t[..1] == ['0'] && ['0'][..0] == [];
      IntCastOfDigits(t);
    } else {
      if i >= 0 {
        NatToStringCanonical(i);
      } else {
        assert IntToString(i) == "-" + NatToString(-i);
      }
      assert PadLeft2(IntToString(i)) == IntToString(i);
      IntCastOfIntToString(i);
    }
  }

  /** `(int)` reads a numeral written only with digits as its value. */
  lemma IntCastOfDigits(s: string)
    requires |s| > 0 && AllDigits(s)
    ensures IntCast(s) == DigitsValue(s)
  {
    assert !IsSpace(s[0]);
    LeadingDigitsAll(s);
    assert s[..|s|] == s;
  }

  /** Two digits read back and zero-padded are the same two digits. */
  lemma {:induction false} TwoDigitsRoundTrip(s: string)
    requires |s| == 2 && AllDigits(s)
    ensures PadLeft2(IntToString(IntCast(s))) == s
  {
    IntCastOfDigits(s);
    var v := DigitsValue(s);
    assert s[..1] == [s[0]] && [s[0]][..0] == [];
    assert DigitsValue(s[..1]) == DigitOf(s[0]);
    assert v == 10 * DigitOf(s[0]) + DigitOf(s[1]);
    if s[0] == '0' {
      assert v == DigitOf(s[1]) && v < 10;
      assert NatToString(v) == [s[1]];
      assert IntToString(v) == [s[1]];
    } else {
      assert CanonicalNat(s);
      NatToStringOfDigits(s);
    }
  }
}
