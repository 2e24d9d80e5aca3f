/** Positional numerals: the digit strings that `big.Int.Text`, `%d` and encoding/hex print,
    and the readers that take them back. */
module Digits {
  import opened Wrappers

  const HEX_DIGITS: string := "0123456789abcdef"

  function DigitChar(d: nat): char
    requires d < 16
  {
    HEX_DIGITS[d]
  }

  /** The value of a digit in either case, as `big.Int.SetString` reads it. */
  function DigitValue(c: char): Option<nat> {
    if '0' <= c <= '9' then Some(c as int - '0' as int)
    else if 'a' <= c <= 'f' then Some(c as int - 'a' as int + 10)
    else if 'A' <= c <= 'F' then Some(c as int - 'A' as int + 10)
    else None
  }

  predicate IsDecimal(c: char) { '0' <= c <= '9' }

  predicate IsLowerHex(c: char) { '0' <= c <= '9' || 'a' <= c <= 'f' }

  /** The numeral of `n`: most significant digit first, no leading zero, "0" for zero. */
  function Text(n: nat, base: nat): (s: string)
    requires 2 <= base <= 16
    ensures |s| > 0
    decreases n
  {
    if n < base then [DigitChar(n)]
    else
      assert n / base < n by { QuotientIsSmaller(n, base); }
      Text(n / base, base) + [DigitChar(n % base)]
  }

  /** The value of a possibly empty run of digits, or None if some character is not a digit. */
  function Value(s: string, base: nat): Option<nat>
    requires 2 <= base <= 16
  {
    if s == [] then Some(0)
    else
      var high :- Value(s[..|s| - 1], base);
      var low :- DigitValue(s[|s| - 1]);
      if low < base then Some(high * base + low) else None
  }

  /** A numeral as the printer writes it: lower-case digits of the base, no leading zero. */
  predicate IsCanonical(s: string, base: nat)
    requires 2 <= base <= 16
  {
    && |s| > 0
    && (s[0] == '0' ==> |s| == 1)
    && forall i :: 0 <= i < |s| ==> IsLowerHex(s[i]) && DigitValue(s[i]).value < base
  }

  lemma QuotientIsSmaller(n: nat, base: nat)
    requires 2 <= base <= n
    ensures 0 < n / base < n
  {
    assert n == (n / base) * base + n % base;
    if n / base >= n {
      assert (n / base) * base >= n * base by { ProductGrows(n, n / base, base); }
      assert n * base >= n * 2 by { ProductGrows(2, base, n); }
    }
  }

  lemma ProductGrows(a: int, b: int, c: nat)
    requires a <= b
    ensures a * c <= b * c && c * a <= c * b
  {}

  lemma DigitCharValue(d: nat)
    requires d < 16
    ensures DigitValue(DigitChar(d)) == Some(d) && IsLowerHex(DigitChar(d))
    ensures DigitChar(d) == '0' <==> d == 0
  {}

  lemma AppendedValue(s: string, c: char, base: nat)
    requires 2 <= base <= 16
    requires Value(s, base).Some? && DigitValue(c).Some? && DigitValue(c).value < base
    ensures Value(s + [c], base) == Some(Value(s, base).value * base + DigitValue(c).value)
  {
    assert (s + [c])[..|s + [c]| - 1] == s;
  }

  lemma DivisionIdentity(n: nat, base: nat)
    requires base > 0
    ensures n == (n / base) * base + n % base
  {}

  /** Reading what was printed gives the number back, in every base. */
  lemma {:induction false} ValueOfText(n: nat, base: nat)
    requires 2 <= base <= 16
    ensures Value(Text(n, base), base) == Some(n)
    decreases n
  {
    var s := Text(n, base);
    if n < base {
      DigitCharValue(n);
      assert s[..|s| - 1] == [];
    } else {
      QuotientIsSmaller(n, base);
      var q, r := n / base, n % base;
      ValueOfText(q, base);
      DigitCharValue(r);
      AppendedValue(Text(q, base), DigitChar(r), base);
      DivisionIdentity(n, base);
    }
  }

  /** Everything the printer writes is canonical. */
  lemma {:induction false} TextIsCanonical(n: nat, base: nat)
    requires 2 <= base <= 16
    ensures IsCanonical(Text(n, base), base)
    ensures Text(n, base)[0] == '0' ==> n == 0
    decreases n
  {
    if n < base {
      DigitCharValue(n);
    } else {
      QuotientIsSmaller(n, base);
      TextIsCanonical(n / base, base);
      DigitCharValue(n % base);
    }
  }

  /** A canonical numeral is what the printer writes for its value. */
  lemma {:induction false} TextOfValue(s: string, base: nat)
    requires 2 <= base <= 16
    requires IsCanonical(s, base)
    ensures Value(s, base).Some? && Text(Value(s, base).value, base) == s
    ensures Value(s, base).value == 0 ==> s == "0"
    decreases |s|
  {
    var last := s[|s| - 1];
    var d := DigitValue(last).value;
    assert DigitChar(d) == last;
    if |s| == 1 {
      assert s[..0] == [];
    } else {
      var high := s[..|s| - 1];
      assert high[0] != '0';
      TextOfValue(high, base);
      var h := Value(high, base).value;
      assert h > 0;
      AppendedDigit(h, d, base);
      assert s == high + [last];
    }
  }

  lemma AppendedDigit(h: nat, d: nat, base: nat)
    requires 2 <= base <= 16 && d < base && h > 0
    ensures (h * base + d) / base == h && (h * base + d) % base == d
    ensures h * base + d >= base
  {
    var n := h * base + d;
    assert n == (n / base) * base + n % base;
    if n / base < h {
      ProductGrows(n / base, h - 1, base);
    } else if n / base > h {
      ProductGrows(h + 1, n / base, base);
    }
    ProductGrows(1, h, base);
  }

  /** `%d` of an integer that may be negative. */
  function Decimal(n: int): string {
    if n < 0 then "-" + Text(-n, 10) else Text(n, 10)
  }

  /** A signed integer literal: an optional sign, then at least one digit (`strconv.ParseInt`
      and `big.Int.SetString` without base prefix). */
  function SignedValue(s: string, base: nat): Option<int>
    requires 2 <= base <= 16
  {
    if s == "" then None
    else if s[0] == '-' || s[0] == '+' then
      if |s| == 1 then None
      else
        var n :- Value(s[1..], base);
        var v: int := n;
        Some(if s[0] == '-' then -v else v)
    else
      var n :- Value(s, base);
      Some(n)
  }

  lemma SignedValueOfText(n: nat, base: nat)
    requires 2 <= base <= 16
    ensures SignedValue(Text(n, base), base) == Some(n)
    ensures SignedValue("-" + Text(n, base), base) == Some(0 - n)
  {
    ValueOfText(n, base);
    TextIsCanonical(n, base);
    assert ("-" + Text(n, base))[1..] == Text(n, base);
  }

  lemma DecimalRoundTrip(n: int)
    ensures SignedValue(Decimal(n), 10) == Some(n)
  {
    SignedValueOfText(if n < 0 then -n else n, 10);
  }

  lemma DecimalInjective(a: int, b: int)
    requires Decimal(a) == Decimal(b)
    ensures a == b
  {
    DecimalRoundTrip(a);
    DecimalRoundTrip(b);
  }
}
