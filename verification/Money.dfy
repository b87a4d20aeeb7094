// Rubles as users type them and as the bot prints them (app/bot/parsers.py,
// app/bot/commands.py).
module Money {
  import opened Wrappers

  // InvalidOperation is raised past the parser's own error handling.
  datatype Parsed = Rejected | Amount(cents: int) | InvalidOperation

  const CENTS_LIMIT := 1_000_000_000_000

  // ---- Characters ----

  const NBSP: char := '\U{00A0}'

  // What str.strip() removes.
  predicate IsSpace(c: char) {
    || c == ' ' || '\t' <= c <= '\r' || '\U{001C}' <= c <= '\U{001F}' || c == '\U{0085}' || c == NBSP || c == '\U{1680}'
    || '\U{2000}' <= c <= '\U{200A}' || c == '\U{2028}' || c == '\U{2029}' || c == '\U{202F}' || c == '\U{205F}'
        || c == '\U{3000}'
  }

  // The zeros of the other scripts with decimal digits (category Nd of Unicode
  // 15.0); the digits one to nine follow each of them.
  predicate IsZero(z: int) {
    || z == 0x660 || z == 0x6f0 || z == 0x7c0 || z == 0x966 || z == 0x9e6 || z == 0xa66 || z == 0xae6
    || z == 0xb66 || z == 0xbe6 || z == 0xc66 || z == 0xce6 || z == 0xd66 || z == 0xde6 || z == 0xe50
    || z == 0xed0 || z == 0xf20 || z == 0x1040 || z == 0x1090 || z == 0x17e0 || z == 0x1810 || z == 0x1946
    || z == 0x19d0 || z == 0x1a80 || z == 0x1a90 || z == 0x1b50 || z == 0x1bb0 || z == 0x1c40 || z == 0x1c50
    || z == 0xa620 || z == 0xa8d0 || z == 0xa900 || z == 0xa9d0 || z == 0xa9f0 || z == 0xaa50 || z == 0xabf0
    || z == 0xff10 || z == 0x104a0 || z == 0x10d30 || z == 0x11066 || z == 0x110f0 || z == 0x11136 || z == 0x111d0
    || z == 0x112f0 || z == 0x11450 || z == 0x114d0 || z == 0x11650 || z == 0x116c0 || z == 0x11730 || z == 0x118e0
    || z == 0x11950 || z == 0x11c50 || z == 0x11d50 || z == 0x11da0 || z == 0x11f50 || z == 0x16a60 || z == 0x16ac0
    || z == 0x16b50 || z == 0x1d7ce || z == 0x1d7d8 || z == 0x1d7e2 || z == 0x1d7ec || z == 0x1d7f6 || z == 0x1e140
    || z == 0x1e2f0 || z == 0x1e4f0 || z == 0x1e950 || z == 0x1fbf0
  }

  function OtherDigit(n: int): Option<nat> {
    if IsZero(n) then Some(0)
    else if IsZero(n - 1) then Some(1)
    else if IsZero(n - 2) then Some(2)
    else if IsZero(n - 3) then Some(3)
    else if IsZero(n - 4) then Some(4)
    else if IsZero(n - 5) then Some(5)
    else if IsZero(n - 6) then Some(6)
    else if IsZero(n - 7) then Some(7)
    else if IsZero(n - 8) then Some(8)
    else if IsZero(n - 9) then Some(9)
    else None
  }

  // \d of a text pattern: the decimal digits of every script.
  predicate IsDigit(c: char) { '0' <= c <= '9' || OtherDigit(c as int).Some? }

  function DigitValue(c: char): nat
    requires IsDigit(c)
  {
    if '0' <= c <= '9' then c as int - '0' as int else OtherDigit(c as int).value
  }

  function DigitChar(d: nat): (c: char)
    requires d < 10
    ensures IsDigit(c) && DigitValue(c) == d
  {
    ('0' as int + d) as char
  }

  predicate AllDigits(s: string) { forall k | 0 <= k < |s| :: IsDigit(s[k]) }

  predicate AllSpace(s: string) { forall k | 0 <= k < |s| :: IsSpace(s[k]) }

  function Value(s: string): nat
    requires AllDigits(s)
  {
    if |s| == 0 then 0 else 10 * Value(s[..|s| - 1]) + DigitValue(s[|s| - 1])
  }

  // ---- Printing ----

  function Digits(n: nat): (s: string)
    ensures |s| > 0 && AllDigits(s)
  {
    if n < 10 then [DigitChar(n)] else Digits(n / 10) + [DigitChar(n % 10)]
  }

  // Exactly `width` digits, padded with zeros.
  function Padded(n: nat, width: nat): (s: string)
    ensures |s| == width && AllDigits(s)
  {
    if width == 0 then "" else Padded(n / 10, width - 1) + [DigitChar(n % 10)]
  }

  // Thousands apart by spaces.
  function Grouped(n: nat): (s: string)
    ensures |s| > 0
  {
    if n < 1000 then Digits(n) else Grouped(n / 1000) + " " + Padded(n % 1000, 3)
  }

  function GroupedInt(n: int): string { if n < 0 then "-" + Grouped(-n) else Grouped(n) }

  // Python's // and divmod floor; so does / here, the divisor being positive.
  function FormatKopecks(cents: int): string {
    if cents % 100 == 0 then GroupedInt(cents / 100)
    else GroupedInt(cents / 100) + "," + Padded(cents % 100, 2)
  }

  // ---- Trimming ----

  function RStrip(s: string): (r: string)
    ensures |r| <= |s| && r == s[..|r|]
  {
    if |s| > 0 && IsSpace(s[|s| - 1]) then RStrip(s[..|s| - 1]) else s
  }

  function LStrip(s: string): string {
    if |s| > 0 && IsSpace(s[0]) then LStrip(s[1..]) else s
  }

  // Lower case of the letters the suffixes are made of.
  function Lower(c: char): char {
    if c == 'Р' then 'р' else if c == 'У' then 'у' else if c == 'Б' then 'б' else c
  }

  predicate EndsWith(s: string, suffix: string) {
    |s| >= |suffix| && forall k | 0 <= k < |suffix| :: Lower(s[|s| - |suffix| + k]) == suffix[k]
  }

  const SUFFIXES: seq<string> := ["₽", "руб", "р"]

  function Cut(s: string, suffix: string): string
    requires EndsWith(s, suffix)
  {
    RStrip(s[..|s| - |suffix|])
  }

  // The first suffix that fits is cut, and only that one.
  function WithoutSuffix(s: string, n: nat): string
    requires n <= |SUFFIXES|
    decreases |SUFFIXES| - n
  {
    if n == |SUFFIXES| then s
    else if EndsWith(s, SUFFIXES[n]) then Cut(s, SUFFIXES[n])
    else WithoutSuffix(s, n + 1)
  }

  // A comma reads as a point; spaces inside the number vanish.
  function CleanedChar(c: char): string {
    if c == ',' then "." else if c == ' ' || c == NBSP then "" else [c]
  }

  function Cleaned(s: string): string { if |s| == 0 then "" else CleanedChar(s[0]) + Cleaned(s[1..]) }

  // What is left to be read as a number.
  function Core(s: string): string { Cleaned(WithoutSuffix(RStrip(LStrip(s)), 0)) }

  // ---- Reading ----

  // Length of the leading digits.
  function DigitRun(s: string): (n: nat)
    ensures n <= |s| && AllDigits(s[..n]) && (n < |s| ==> !IsDigit(s[n]))
  {
    if |s| > 0 && IsDigit(s[0]) then
      var n := 1 + DigitRun(s[1..]);
      assert forall k | 1 <= k < n :: s[k] == s[1..][..n - 1][k - 1];
      n
    else 0
  }

  // \d+([.,]\d{1,2})?
  predicate WellFormed(s: string) {
    var n := DigitRun(s);
    && n > 0
    && (n == |s| || ((s[n] == '.' || s[n] == ',') && 1 <= |s| - n - 1 <= 2 && AllDigits(s[n + 1..])))
  }

  function Fraction(s: string): string { if DigitRun(s) == |s| then "" else s[DigitRun(s) + 1..] }

  // ---- Decimal arithmetic with 28 digits ----

  function Pow10(n: nat): (p: nat)
    ensures p >= 1
  {
    if n == 0 then 1 else 10 * Pow10(n - 1)
  }

  const PRECISION: nat := 28

  // How many digits a coefficient has beyond the precision.
  function Excess(m: nat): nat { if m < Pow10(PRECISION) then 0 else 1 + Excess(m / 10) }

  function HalfEven(m: nat, d: nat): nat
    requires d > 0
  {
    var q, r := m / d, m % d;
    if 2 * r < d || (2 * r == d && q % 2 == 0) then q else q + 1
  }

  function HalfUp(m: nat, d: nat): nat
    requires d > 0
  {
    if 2 * (m % d) < d then m / d else m / d + 1
  }

  // coefficient * 10^exponent
  datatype Decimal = Decimal(coefficient: nat, exponent: int)

  // Every result is rounded to the precision of the context.
  function InContext(x: Decimal): Decimal {
    var k := Excess(x.coefficient);
    if k == 0 then x
    else
      var m := HalfEven(x.coefficient, Pow10(k));
      if m < Pow10(PRECISION) then Decimal(m, x.exponent + k) else Decimal(m / 10, x.exponent + k + 1)
  }

  function Times100(x: Decimal): Decimal { InContext(Decimal(x.coefficient * 100, x.exponent)) }

  // quantize(Decimal("1")): to an integer, unless it needs too many digits.
  function Quantized(x: Decimal): (r: Parsed) {
    var whole := if x.exponent >= 0 then x.coefficient * Pow10(x.exponent)
        else HalfUp(x.coefficient, Pow10(-x.exponent));
    if Excess(whole) > 0 then InvalidOperation else Amount(whole)
  }

  function DecimalOf(s: string): Decimal
    requires WellFormed(s)
  {
    Decimal(Value(s[..DigitRun(s)]) * Pow10(|Fraction(s)|) + Value(Fraction(s)), -|Fraction(s)|)
  }

  function Parse(s: string): Parsed {
    var t := Core(s);
    if !WellFormed(t) then Rejected
    else
      var d := DecimalOf(t);
      if d.coefficient == 0 then Rejected
      else
        match Quantized(Times100(d))
        case Amount(cents) => if cents > CENTS_LIMIT then Rejected else Amount(cents)
        case other => other
  }

  lemma EmptyIsRejected()
    ensures Parse("") == Rejected
  {
    assert WithoutSuffix("", 0) == "";
  }

  // The text rebound step by step.
  method ParseAmount(text: string) returns (r: Parsed)
    ensures r == Parse(text)
  {
    hide DecimalOf, Quantized, Times100, Cleaned, WellFormed;
    if |text| == 0 {
      EmptyIsRejected();
      return Rejected;
    }
    var s := RStrip(LStrip(text));
    ghost var start := s;
    var n := 0;
    var cut := false;
    while n < |SUFFIXES| && !cut
      invariant n <= |SUFFIXES|
      invariant cut ==> s == WithoutSuffix(start, 0)
      invariant !cut ==> s == start && WithoutSuffix(start, n) == WithoutSuffix(start, 0)
      decreases |SUFFIXES| - n, !cut
    {
      if EndsWith(s, SUFFIXES[n]) {
        s := RStrip(s[..|s| - |SUFFIXES[n]|]);
        cut := true;
      } else {
        n := n + 1;
      }
    }
    s := Cleaned(s);
    if !WellFormed(s) {
      return Rejected;
    }
    var d := DecimalOf(s);
    if d.coefficient == 0 {
      return Rejected;
    }
    r := Quantized(Times100(d));
    if r.Amount? && r.cents > CENTS_LIMIT {
      r := Rejected;
    }
  }
}
