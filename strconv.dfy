/**
  Go's `strconv.Atoi` on a 64-bit platform, the only parser the configuration
  option uses, together with its formatting partner `strconv.Itoa`.
  `Atoi` accepts an optional `+` or `-` followed by one or more ASCII digits
  whose value fits in an `int64`; anything else (empty text, spaces,
  underscores, a lone sign, an out-of-range value) is an error.
*/
module StrConv {
  import opened Wrappers

  const MinInt: int := -0x8000_0000_0000_0000
  const MaxInt: int := 0x7fff_ffff_ffff_ffff

  predicate IsDigit(c: char) {
    '0' <= c <= '9'
  }

  predicate AllDigits(s: string) {
    forall i :: 0 <= i < |s| ==> IsDigit(s[i])
  }

  function DigitValue(c: char): (d: nat)
    requires IsDigit(c)
    ensures d < 10
  {
    c as int - '0' as int
  }

  function DigitChar(d: nat): (c: char)
    requires d < 10
    ensures IsDigit(c) && DigitValue(c) == d
  {
    ('0' as int + d) as char
  }

  /** The value of a digit string, accumulated left to right as `n = n*10 + d`. */
  function DigitsValue(s: string): nat
    requires AllDigits(s)
  {
    if s == [] then 0 else DigitsValue(s[..|s| - 1]) * 10 + DigitValue(s[|s| - 1])
  }

  /** The digits after an optional leading sign. */
  function Unsigned(s: string): string {
    if |s| > 0 && (s[0] == '-' || s[0] == '+') then s[1..] else s
  }

  /** Text `Atoi` reads as a number, before the range check. */
  predicate IsDecimal(s: string) {
    Unsigned(s) != [] && AllDigits(Unsigned(s))
  }

  /** The signed value of decimal text, of any magnitude. */
  function DecimalValue(s: string): int
    requires IsDecimal(s)
  {
    if s[0] == '-' then 0 - DigitsValue(Unsigned(s)) as int else DigitsValue(Unsigned(s))
  }

  /** `strconv.Atoi(s)`: `Some(n)` when it returns `(n, nil)`, `None` when it returns an error. */
  function Atoi(s: string): (r: Option<int>)
    ensures r.Some? <==> IsDecimal(s) && MinInt <= DecimalValue(s) <= MaxInt
    ensures r.Some? ==> MinInt <= r.value <= MaxInt && r.value == DecimalValue(s)
    ensures r.Some? && r.value < 0 ==> s[0] == '-'
  {
    var digits := Unsigned(s);
    if digits == [] || !AllDigits(digits) then None
    else
      var n: int := if s[0] == '-' then 0 - DigitsValue(digits) as int else DigitsValue(digits);
      if n < MinInt || n > MaxInt then None else Some(n)
  }

  /** Decimal digits of a natural number, most significant first, without leading zeros. */
  function NatToDigits(n: nat): (s: string)
    ensures |s| > 0 && AllDigits(s)
  {
    if n < 10 then [DigitChar(n)] else NatToDigits(n / 10) + [DigitChar(n % 10)]
  }

  /** `strconv.Itoa(n)`. */
  function Itoa(n: int): string {
    if n < 0 then "-" + NatToDigits(-n) else NatToDigits(n)
  }

  /** No leading zero, and no sign other than a `-` before a non-zero value: the form `Itoa` produces. */
  predicate IsCanonicalDecimal(s: string) {
    && IsDecimal(s)
    && (|s| > 0 && s[0] != '+')
    && (Unsigned(s)[0] == '0' ==> s == "0")
  }

  lemma {:induction false} DigitsOfNat(n: nat)
    ensures DigitsValue(NatToDigits(n)) == n
    ensures NatToDigits(n)[0] != '0' || n == 0
  {
    var s := NatToDigits(n);
    if n >= 10 {
      DigitsOfNat(n / 10);
      assert s[..|s| - 1] == NatToDigits(n / 10);
    }
  }

  lemma {:induction false} LeadingDigitPositive(s: string)
    requires s != [] && AllDigits(s) && s[0] != '0'
    ensures DigitsValue(s) > 0
  {
    if |s| > 1 {
      LeadingDigitPositive(s[..|s| - 1]);
    }
  }

  lemma {:induction false} NatOfDigits(s: string)
    requires s != [] && AllDigits(s) && (s[0] == '0' ==> s == "0")
    ensures NatToDigits(DigitsValue(s)) == s
  {
    if |s| > 1 {
      var p := s[..|s| - 1];
      LeadingDigitPositive(p);
      NatOfDigits(p);
      assert s == p + [s[|s| - 1]];
    }
  }

  /** Formatting then parsing gives back every 64-bit integer. */
  lemma AtoiItoa(n: int)
    requires MinInt <= n <= MaxInt
    ensures Atoi(Itoa(n)) == Some(n)
  {
    if n < 0 {
      DigitsOfNat(-n);
      assert Unsigned(Itoa(n)) == NatToDigits(-n);
    } else {
      DigitsOfNat(n);
    }
  }

  /** Parsing canonical text then formatting gives back the same text: on canonical text `Atoi` is injective. */
  lemma ItoaAtoi(s: string)
    requires IsCanonicalDecimal(s) && Atoi(s).Some?
    ensures Itoa(Atoi(s).value) == s
  {
    var d := Unsigned(s);
    NatOfDigits(d);
    if s[0] == '-' {
      assert d[0] != '0';
      LeadingDigitPositive(d);
      assert s == "-" + d;
    }
  }
}
