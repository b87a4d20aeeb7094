// Exactness of the amount parser and its round trip with the printer
// (app/bot/parsers.py, app/bot/commands.py).
module MoneyTheorems {
  import opened Money

  // ---- Digits ----

  lemma ZerosAreApart(z: int)
    requires IsZero(z)
    ensures 0x660 <= z <= 0x1090 || 0x17e0 <= z <= 0x1c50 || 0xa620 <= z
  {
  }

  lemma OtherDigitsAreApart(n: int)
    requires OtherDigit(n).Some?
    ensures 0x660 <= n <= 0x1099 || 0x17e0 <= n <= 0x1c59 || 0xa620 <= n
  {
    hide IsZero;
    var v :| 0 <= v < 10 && IsZero(n - v);
    ZerosAreApart(n - v);
  }

  // No digit is a space, a separator or a letter of a suffix.
  lemma DigitsAreApart(c: char)
    requires IsDigit(c)
    ensures !IsSpace(c) && c != ',' && c != '.' && c != ' ' && c != NBSP && Lower(c) == c
    ensures forall m | 0 <= m < |SUFFIXES| :: c != SUFFIXES[m][|SUFFIXES[m]| - 1]
  {
    if !('0' <= c <= '9') {
      OtherDigitsAreApart(c as int);
    }
    hide OtherDigit;
  }

  // ---- Decimal arithmetic ----

  lemma {:induction false} PowersMultiply(a: nat, b: nat)
    ensures Pow10(a + b) == Pow10(a) * Pow10(b)
  {
    if a == 0 {
    } else {
      PowersMultiply(a - 1, b);
      assert a + b - 1 == (a - 1) + b;
      assert 10 * (Pow10(a - 1) * Pow10(b)) == (10 * Pow10(a - 1)) * Pow10(b);
    }
  }

  lemma PowerStep(n: nat)
    ensures Pow10(n + 1) == 10 * Pow10(n)
  {
  }

  lemma SmallPowers()
    ensures Pow10(0) == 1 && Pow10(1) == 10 && Pow10(2) == 100 && Pow10(3) == 1000
  {
    PowerStep(0);
    PowerStep(1);
    PowerStep(2);
  }

  // k digits too many: between 10^(27+k) and 10^(28+k).
  lemma {:induction false} ExcessBounds(m: nat)
    ensures Excess(m) == 0 <==> m < Pow10(PRECISION)
    ensures Excess(m) > 0 ==> Pow10(PRECISION - 1 + Excess(m)) <= m < Pow10(PRECISION + Excess(m))
    decreases m
  {
    hide Pow10;
    if m < Pow10(PRECISION) {
    } else {
      ExcessBounds(m / 10);
      PowerStep(PRECISION - 1);
      PowerStep(PRECISION - 1 + Excess(m / 10));
      PowerStep(PRECISION + Excess(m / 10));
    }
  }

  // What a number with `scale` decimals is worth in cents.
  function Worth(coefficient: nat, scale: int): nat
    requires 0 <= scale <= 2
  {
    if scale == 0 then coefficient * 100 else if scale == 1 then coefficient * 10 else coefficient
  }

  lemma DroppingZerosIsExact(c: nat, k: nat)
    requires 1 <= k <= 2
    ensures HalfEven(c * 100, Pow10(k)) == if k == 1 then c * 10 else c
  {
    SmallPowers();
  }

  lemma HalfUpIsExact(c: nat, scale: int)
    requires 0 <= scale <= 2
    ensures HalfUp(c * 100, Pow10(scale)) == Worth(c, scale)
    ensures HalfUp(c * 10, Pow10(1)) == c
    ensures HalfUp(c, Pow10(0)) == c
  {
    SmallPowers();
  }

  lemma DroppedFits(c: nat, k: nat)
    requires c * 100 < Pow10(PRECISION + k) && 1 <= k <= 2
    ensures (if k == 1 then c * 10 else c) < Pow10(PRECISION)
  {
    SmallPowers();
    PowersMultiply(PRECISION, k);
    var p := Pow10(PRECISION);
    hide Pow10;
    assert Pow10(PRECISION + k) == if k == 1 then p * 10 else p * 100;
  }

  lemma ContextIs(m: nat, exponent: int)
    requires Excess(m) > 0 && HalfEven(m, Pow10(Excess(m))) < Pow10(PRECISION)
    ensures InContext(Decimal(m, exponent)) == Decimal(HalfEven(m, Pow10(Excess(m))), exponent + Excess(m))
  {
    hide Pow10, Excess, HalfEven;
  }

  lemma ContextDropsZeros(c: nat, exponent: int, k: nat)
    requires k == Excess(c * 100) && 1 <= k <= 2
    ensures InContext(Decimal(c * 100, exponent)) == Decimal(if k == 1 then c * 10 else c, exponent + k)
    ensures (if k == 1 then c * 10 else c) < Pow10(PRECISION)
  {
    ExcessBounds(c * 100);
    hide Pow10, Excess, HalfEven, InContext;
    DroppedFits(c, k);
    DroppingZerosIsExact(c, k);
    ContextIs(c * 100, exponent);
  }

  lemma QuantizedWhole(c: nat, exponent: int, whole: nat)
    requires exponent <= 0 && HalfUp(c, Pow10(-exponent)) == whole && (exponent == 0 ==> whole == c)
        && whole < Pow10(PRECISION)
    ensures Quantized(Decimal(c, exponent)) == Amount(whole)
  {
    SmallPowers();
    ExcessBounds(whole);
    hide Pow10, HalfUp, Excess;
  }

  lemma WithinContext(c: nat, exponent: int)
    requires Excess(c * 100) == 0
    ensures Times100(Decimal(c, exponent)) == Decimal(c * 100, exponent) && c * 100 < Pow10(PRECISION)
  {
    ExcessBounds(c * 100);
    hide Excess, Pow10;
  }

  lemma FitsExactly(c: nat, scale: int)
    requires 0 <= scale <= 2 && Excess(c * 100) == 0
    ensures Quantized(Times100(Decimal(c, -scale))) == Amount(Worth(c, scale)) && Worth(c, scale) < Pow10(PRECISION)
  {
    assert Worth(c, scale) <= c * 100 && (scale == 0 ==> Worth(c, scale) == c * 100);
    hide *;
    WithinContext(c, -scale);
    HalfUpIsExact(c, scale);
    QuantizedWhole(c * 100, -scale, Worth(c, scale));
  }

  lemma HalfUpOfWhole(c: nat)
    ensures HalfUp(c, Pow10(0)) == c
  {
    SmallPowers();
  }

  lemma QuantizedAfterDrop(c: nat, scale: int, k: nat)
    requires 1 <= k <= scale <= 2 && c < Pow10(PRECISION)
    requires k == 1 ==> c * 10 < Pow10(PRECISION)
    ensures Quantized(Decimal(if k == 1 then c * 10 else c, k - scale)) == Amount(Worth(c, scale))
  {
    hide Pow10, HalfUp, Quantized, Excess;
    HalfUpIsExact(c, 0);
    HalfUpOfWhole(c * 10);
    QuantizedWhole(if k == 1 then c * 10 else c, k - scale, Worth(c, scale));
  }

  lemma DropsOnlyZeros(c: nat, scale: int)
    requires 0 <= scale <= 2 && 1 <= Excess(c * 100) <= scale
    ensures Quantized(Times100(Decimal(c, -scale))) == Amount(Worth(c, scale)) && Worth(c, scale) < Pow10(PRECISION)
  {
    var k := Excess(c * 100);
    assert Times100(Decimal(c, -scale)) == InContext(Decimal(c * 100, -scale));
    assert Worth(c, scale) == if scale == 1 then c * 10 else c;
    hide *;
    ContextDropsZeros(c, -scale, k);
    QuantizedAfterDrop(c, scale, k);
  }

  lemma AtLeastProduct(a: nat, b: nat, c: nat, d: nat)
    requires a >= c && b >= d
    ensures a * b >= c * d
  {
    assert a * b >= c * b;
    assert c * b >= c * d;
  }

  lemma QuotientAtLeast(m: nat, low: nat, d: nat)
    requires d > 0 && low * d <= m
    ensures m / d >= low
  {
    var q := m / d;
    assert m < (q + 1) * d by {
      assert m == q * d + m % d;
      assert (q + 1) * d == q * d + d;
    }
    if q + 1 <= low {
      AtLeastProduct(low, d, q + 1, d);
    }
  }

  // Rounding keeps at least 28 digits' worth.
  lemma LeavesPrecision(m: nat, k: nat)
    requires Pow10(PRECISION - 1 + k) <= m
    ensures HalfEven(m, Pow10(k)) >= Pow10(PRECISION - 1)
    ensures HalfEven(m, Pow10(k)) >= Pow10(PRECISION) ==> HalfEven(m, Pow10(k)) / 10 >= Pow10(PRECISION - 1)
  {
    PowersMultiply(PRECISION - 1, k);
    var low, d := Pow10(PRECISION - 1), Pow10(k);
    hide Pow10;
    QuotientAtLeast(m, low, d);
    PowerStep(PRECISION - 1);
  }

  lemma ContextKeepsPrecision(x: Decimal)
    requires Excess(x.coefficient) > 0
    ensures InContext(x).coefficient >= Pow10(PRECISION - 1)
        && InContext(x).exponent >= x.exponent + Excess(x.coefficient)
  {
    ExcessBounds(x.coefficient);
    LeavesPrecision(x.coefficient, Excess(x.coefficient));
    hide Pow10, Excess, HalfEven;
  }

  lemma {:induction false} PowersGrow(a: nat, b: nat)
    requires a <= b
    ensures Pow10(a) <= Pow10(b)
  {
    if a == b {
    } else {
      PowersGrow(a, b - 1);
    }
  }

  lemma WorthIsLarge(c: nat, scale: int, k: nat)
    requires 0 <= scale <= 2 && k > scale && Pow10(PRECISION - 1 + k) <= c * 100
    ensures Worth(c, scale) >= Pow10(PRECISION)
  {
    SmallPowers();
    PowersGrow(PRECISION + scale, PRECISION - 1 + k);
    PowersMultiply(PRECISION, scale);
    hide Pow10;
  }

  lemma OverflowsContext(x: Decimal)
    requires x.exponent >= 1 && x.coefficient >= Pow10(PRECISION - 1)
    ensures Quantized(x) == InvalidOperation
  {
    PowersGrow(1, x.exponent);
    PowerStep(PRECISION - 1);
    SmallPowers();
    var whole := x.coefficient * Pow10(x.exponent);
    AtLeastProduct(x.coefficient, Pow10(x.exponent), Pow10(PRECISION - 1), 10);
    ExcessBounds(whole);
    hide Pow10, Excess;
  }

  lemma TooManyDigits(c: nat, scale: int)
    requires 0 <= scale <= 2 && Excess(c * 100) > scale
    ensures Quantized(Times100(Decimal(c, -scale))) == InvalidOperation && Worth(c, scale) >= Pow10(PRECISION)
  {
    ExcessBounds(c * 100);
    hide Pow10, Excess, InContext, Quantized, Worth;
    ContextKeepsPrecision(Decimal(c * 100, -scale));
    WorthIsLarge(c, scale, Excess(c * 100));
    OverflowsContext(Times100(Decimal(c, -scale)));
  }

  // 28-digit arithmetic gives the exact amount, or raises when that has more
  // than 28 digits.
  lemma DecimalIsExact(c: nat, scale: int)
    requires 0 <= scale <= 2
    ensures Quantized(Times100(Decimal(c, -scale)))
            == if Worth(c, scale) < Pow10(PRECISION) then Amount(Worth(c, scale)) else InvalidOperation
  {
    hide Quantized, Times100, Pow10, Worth;
    if Excess(c * 100) == 0 {
      FitsExactly(c, scale);
    } else if Excess(c * 100) <= scale {
      DropsOnlyZeros(c, scale);
    } else {
      TooManyDigits(c, scale);
    }
  }

  // ---- What the parser accepts ----

  // The amount a well-formed text denotes, in cents.
  function CentsOf(t: string): nat
    requires WellFormed(t)
  {
    Worth(DecimalOf(t).coefficient, |Fraction(t)|)
  }

  lemma LimitFits()
    ensures CENTS_LIMIT < Pow10(PRECISION)
  {
    SmallPowers();
    PowersMultiply(2, 2);
    PowersMultiply(4, 4);
    PowersMultiply(8, 4);
    PowersMultiply(12, 1);
    PowersGrow(13, PRECISION);
    hide Pow10;
  }

  lemma ParseOfWellFormed(text: string)
    requires WellFormed(Core(text))
    ensures var c := CentsOf(Core(text));
            Parse(text) == if c >= Pow10(PRECISION) then InvalidOperation
                           else if 1 <= c <= CENTS_LIMIT then Amount(c)
                           else Rejected
  {
    var t := Core(text);
    var d := DecimalOf(t);
    LimitFits();
    DecimalIsExact(d.coefficient, |Fraction(t)|);
    assert d.exponent == -|Fraction(t)|;
    hide Core, WellFormed, DecimalOf, Quantized, Times100, Pow10, Fraction, IsDigit;
  }

  // Accepted is exactly a well-formed text worth between one cent and ten
  // billion rubles, with its exact value; the parser raises exactly on
  // well-formed texts worth 10^26 rubles or more.
  lemma ParsesExactly(text: string)
    ensures var t := Core(text);
            && (forall c :: Parse(text) == Amount(c) <==> WellFormed(t) && c == CentsOf(t) && 1 <= c <= CENTS_LIMIT)
            && (Parse(text) == InvalidOperation <==> WellFormed(t) && CentsOf(t) >= Pow10(PRECISION))
  {
    LimitFits();
    if WellFormed(Core(text)) {
      ParseOfWellFormed(text);
      hide Core, WellFormed, CentsOf, Pow10, Parse;
    }
    hide Core, WellFormed;
  }

  // ---- Cleaning printed text ----

  lemma {:induction false} CleanedJoins(a: string, b: string)
    ensures Cleaned(a + b) == Cleaned(a) + Cleaned(b)
  {
    hide CleanedChar;
    if |a| == 0 {
      assert a + b == b;
    } else {
      CleanedJoins(a[1..], b);
      assert (a + b)[1..] == a[1..] + b;
    }
  }

  lemma {:induction false} DigitsStayClean(s: string)
    requires AllDigits(s)
    ensures Cleaned(s) == s
  {
    if |s| == 0 {
    } else {
      DigitsAreApart(s[0]);
      hide IsDigit;
      DigitsStayClean(s[1..]);
      assert s == [s[0]] + s[1..];
    }
  }

  lemma {:induction false} ValueJoins(a: string, b: string)
    requires AllDigits(a) && AllDigits(b)
    ensures AllDigits(a + b) && Value(a + b) == Value(a) * Pow10(|b|) + Value(b)
  {
    hide IsDigit, DigitValue, Pow10;
    if |b| == 0 {
      assert a + b == a;
      SmallPowers();
    } else {
      var front := b[..|b| - 1];
      ValueJoins(a, front);
      assert (a + b)[..|a + b| - 1] == a + front;
      PowerStep(|front|);
      assert 10 * (Value(a) * Pow10(|front|)) == Value(a) * (10 * Pow10(|front|));
    }
  }

  lemma {:induction false} DigitsValue(n: nat)
    ensures Value(Digits(n)) == n
  {
    if n < 10 {
    } else {
      DigitsValue(n / 10);
      assert Digits(n)[..|Digits(n)| - 1] == Digits(n / 10);
    }
  }

  lemma {:induction false} PaddedValue(n: nat, width: nat)
    requires n < Pow10(width)
    ensures Value(Padded(n, width)) == n
  {
    if width == 0 {
    } else {
      PaddedValue(n / 10, width - 1);
      assert Padded(n, width)[..width - 1] == Padded(n / 10, width - 1);
    }
  }

  lemma SpaceVanishes(s: string)
    ensures Cleaned(" " + s) == Cleaned(s)
  {
    assert (" " + s)[1..] == s;
  }

  lemma GroupCleans(high: string, n: nat)
    requires AllDigits(Cleaned(high)) && n < 1000
    ensures var all := Cleaned(high + " " + Padded(n, 3));
            && |all| == |Cleaned(high)| + 3 && AllDigits(all) && Value(all) == Value(Cleaned(high)) * 1000 + n
  {
    var low := Padded(n, 3);
    hide *;
    SmallPowers();
    PaddedValue(n, 3);
    DigitsStayClean(low);
    SpaceVanishes(low);
    CleanedJoins(high, " " + low);
    assert high + " " + low == high + (" " + low);
    ValueJoins(Cleaned(high), low);
  }

  // Removing the thousands spaces gives back the digits.
  lemma {:induction false} GroupedCleans(n: nat)
    ensures AllDigits(Cleaned(Grouped(n))) && |Cleaned(Grouped(n))| > 0 && Value(Cleaned(Grouped(n))) == n
  {
    hide Cleaned, Value, Padded;
    if n < 1000 {
      DigitsStayClean(Digits(n));
      DigitsValue(n);
    } else {
      GroupedCleans(n / 1000);
      GroupCleans(Grouped(n / 1000), n % 1000);
    }
  }

  // ---- Trimming printed text ----

  lemma {:induction false} GroupedEdges(n: nat)
    ensures IsDigit(Grouped(n)[0]) && IsDigit(Grouped(n)[|Grouped(n)| - 1])
  {
    if n < 1000 {
    } else {
      GroupedEdges(n / 1000);
    }
  }

  lemma PrintedEdges(cents: nat)
    ensures var s := FormatKopecks(cents); |s| > 0 && IsDigit(s[0]) && IsDigit(s[|s| - 1])
  {
    GroupedEdges(cents / 100);
  }

  lemma {:induction false} GapIsTrimmed(s: string, gap: string)
    requires AllSpace(gap) && (|s| > 0 ==> !IsSpace(s[|s| - 1]))
    ensures RStrip(s + gap) == s
  {
    hide IsSpace;
    if |gap| == 0 {
      assert s + gap == s;
    } else {
      GapIsTrimmed(s, gap[..|gap| - 1]);
      assert (s + gap)[..|s + gap| - 1] == s + gap[..|gap| - 1];
    }
  }

  // One of the suffixes, in any mix of cases.
  predicate IsSuffix(t: string, n: nat) { n < |SUFFIXES| && |t| == |SUFFIXES[n]| && EndsWith(t, SUFFIXES[n]) }

  lemma SuffixEnds(t: string, n: nat)
    requires IsSuffix(t, n)
    ensures |t| > 0 && Lower(t[|t| - 1]) == SUFFIXES[n][|SUFFIXES[n]| - 1] && !IsSpace(t[|t| - 1])
  {
    assert Lower(t[|t| - 1]) == SUFFIXES[n][|SUFFIXES[n]| - 1];
  }

  lemma LastLetterFits(s: string, m: nat)
    requires m < |SUFFIXES| && EndsWith(s, SUFFIXES[m])
    ensures |s| > 0 && Lower(s[|s| - 1]) == SUFFIXES[m][|SUFFIXES[m]| - 1]
  {
    assert Lower(s[|s| - |SUFFIXES[m]| + (|SUFFIXES[m]| - 1)]) == SUFFIXES[m][|SUFFIXES[m]| - 1];
  }

  lemma SkipsOthers(s: string, n: nat)
    requires n < |SUFFIXES| && EndsWith(s, SUFFIXES[n])
    ensures WithoutSuffix(s, 0) == WithoutSuffix(s, n)
  {
    LastLetterFits(s, n);
    if EndsWith(s, SUFFIXES[0]) {
      LastLetterFits(s, 0);
    }
    if EndsWith(s, SUFFIXES[1]) {
      LastLetterFits(s, 1);
    }
    hide EndsWith, Lower, RStrip;
  }

  // The suffixes end in different letters, so only the right one is cut.
  lemma SuffixIsCut(s: string, t: string, n: nat)
    requires IsSuffix(t, n)
    ensures WithoutSuffix(s + t, 0) == RStrip(s)
  {
    assert (s + t)[..|s + t| - |t|] == s;
    assert forall k | 0 <= k < |t| :: (s + t)[|s| + k] == t[k];
    assert EndsWith(s + t, SUFFIXES[n]);
    SkipsOthers(s + t, n);
    hide RStrip, Lower, EndsWith;
  }

  lemma DigitEndsNoSuffix(s: string, m: nat)
    requires |s| > 0 && IsDigit(s[|s| - 1]) && m < |SUFFIXES|
    ensures !EndsWith(s, SUFFIXES[m])
  {
    DigitsAreApart(s[|s| - 1]);
    if EndsWith(s, SUFFIXES[m]) {
      LastLetterFits(s, m);
    }
    hide IsDigit, EndsWith;
  }

  lemma NumbersHaveNoSuffix(s: string)
    requires |s| > 0 && IsDigit(s[|s| - 1])
    ensures WithoutSuffix(s, 0) == s
  {
    DigitEndsNoSuffix(s, 0);
    DigitEndsNoSuffix(s, 1);
    DigitEndsNoSuffix(s, 2);
    hide RStrip, EndsWith, IsDigit;
  }

  // The printed amount is all that is left, whatever follows it.
  lemma PrintedIsFound(cents: nat, gap: string, t: string, n: nat)
    requires AllSpace(gap) && (t == "" || IsSuffix(t, n))
    ensures WithoutSuffix(RStrip(LStrip(FormatKopecks(cents) + gap + t)), 0) == FormatKopecks(cents)
  {
    var s := FormatKopecks(cents);
    PrintedEdges(cents);
    DigitsAreApart(s[0]);
    DigitsAreApart(s[|s| - 1]);
    hide FormatKopecks, IsDigit, Lower;
    GapIsTrimmed(s, gap);
    assert LStrip(s + gap + t) == s + gap + t;
    if t == "" {
      assert s + gap + t == s + gap;
      NumbersHaveNoSuffix(s);
    } else {
      SuffixEnds(t, n);
      assert (s + gap + t)[|s + gap + t| - 1] == t[|t| - 1];
      assert RStrip(s + gap + t) == s + gap + t;
      SuffixIsCut(s + gap, t, n);
    }
  }

  // ---- A full stop at the end ----

  lemma StopIsNoSpace()
    ensures !IsSpace('.') && !IsDigit('.')
  {
    hide IsDigit;
    if IsDigit('.') {
      DigitsAreApart('.');
    }
  }

  lemma {:induction false} StopStays(s: string)
    ensures var t := LStrip(s + "."); |t| > 0 && t == t[..|t| - 1] + "."
  {
    hide IsSpace;
    if |s| == 0 {
      StopIsNoSpace();
      assert s + "." == ".";
    } else {
      StopStays(s[1..]);
      assert (s + ".")[1..] == s[1..] + ".";
    }
  }

  lemma StopIsNoSuffix(s: string)
    ensures WithoutSuffix(s + ".", 0) == s + "."
  {
    forall m | 0 <= m < |SUFFIXES|
      ensures !EndsWith(s + ".", SUFFIXES[m])
    {
      if EndsWith(s + ".", SUFFIXES[m]) {
        LastLetterFits(s + ".", m);
      }
    }
    hide EndsWith, RStrip;
    assert !EndsWith(s + ".", SUFFIXES[0]) && !EndsWith(s + ".", SUFFIXES[1]) && !EndsWith(s + ".", SUFFIXES[2]);
  }

  lemma StopEndsNoNumber(s: string)
    ensures !WellFormed(s + ".")
  {
    var t := s + ".";
    StopIsNoSpace();
    hide IsDigit;
    forall k | 0 <= k <= |s|
      ensures !AllDigits(t[k..])
    {
      assert t[k..][|s| - k] == '.';
    }
    assert t[..|t|] == t[0..];
  }

  // A text that ends in a full stop is refused, whatever stands before it.
  lemma FullStopIsRejected(s: string)
    ensures Parse(s + ".") == Rejected
  {
    StopStays(s);
    StopIsNoSpace();
    var t := LStrip(s + ".");
    var front := t[..|t| - 1];
    assert RStrip(t) == t;
    hide LStrip, RStrip, IsSpace, IsDigit, WithoutSuffix, WellFormed;
    StopIsNoSuffix(front);
    CleanedJoins(front, ".");
    assert Cleaned(".") == ".";
    hide Cleaned;
    StopEndsNoNumber(Cleaned(front));
  }

  // ---- The round trip ----

  lemma {:induction false} RunOfDigits(s: string, rest: string)
    requires AllDigits(s) && (|rest| > 0 ==> !IsDigit(rest[0]))
    ensures DigitRun(s + rest) == |s|
  {
    if |s| == 0 {
      assert s + rest == rest;
    } else {
      RunOfDigits(s[1..], rest);
      assert (s + rest)[1..] == s[1..] + rest;
    }
  }

  lemma WholeReads(high: string)
    requires AllDigits(high) && |high| > 0
    ensures WellFormed(high) && CentsOf(high) == Value(high) * 100
  {
    RunOfDigits(high, "");
    SmallPowers();
    assert high + "" == high && high[..|high|] == high;
  }

  lemma FractionSplits(high: string, low: string)
    requires AllDigits(high) && |high| > 0 && AllDigits(low) && |low| == 2
    ensures var t := high + ("." + low);
            WellFormed(t) && DigitRun(t) == |high| && t[..|high|] == high && Fraction(t) == low
  {
    var t := high + ("." + low);
    assert !IsDigit('.');
    hide IsDigit;
    RunOfDigits(high, "." + low);
    assert t[..|high|] == high && t[|high| + 1..] == low;
    hide DigitRun;
  }

  lemma FractionReads(high: string, low: string)
    requires AllDigits(high) && |high| > 0 && AllDigits(low) && |low| == 2
    ensures WellFormed(high + ("." + low)) && CentsOf(high + ("." + low)) == Value(high) * 100 + Value(low)
  {
    FractionSplits(high, low);
    SmallPowers();
    hide Value, Pow10, DigitRun, WellFormed, Fraction;
  }

  lemma CommaCleans(high: string, low: string)
    ensures Cleaned(high + "," + low) == Cleaned(high) + ("." + Cleaned(low))
  {
    CleanedJoins(high, "," + low);
    CleanedJoins(",", low);
    assert high + "," + low == high + ("," + low);
    assert Cleaned(",") == ".";
  }

  lemma PrintedReadsBack(cents: nat)
    ensures WellFormed(Cleaned(FormatKopecks(cents))) && CentsOf(Cleaned(FormatKopecks(cents))) == cents
  {
    var high := Grouped(cents / 100);
    GroupedCleans(cents / 100);
    hide Grouped, Padded, Cleaned, WellFormed, CentsOf, Value;
    if cents % 100 == 0 {
      WholeReads(Cleaned(high));
    } else {
      var low := Padded(cents % 100, 2);
      SmallPowers();
      PaddedValue(cents % 100, 2);
      DigitsStayClean(low);
      CommaCleans(high, low);
      FractionReads(Cleaned(high), low);
    }
  }

  // Parsing undoes printing: through the thousands groups and the two kopeck
  // digits, with any spacing and any ruble suffix after the number.
  lemma ParseUndoesFormat(cents: nat, gap: string, t: string, n: nat)
    requires 1 <= cents <= CENTS_LIMIT && AllSpace(gap) && (t == "" || IsSuffix(t, n))
    ensures Parse(FormatKopecks(cents) + gap + t) == Amount(cents)
  {
    var text := FormatKopecks(cents) + gap + t;
    PrintedIsFound(cents, gap, t, n);
    PrintedReadsBack(cents);
    ParsesExactly(text);
    hide FormatKopecks, Parse, WellFormed, Cleaned, WithoutSuffix, RStrip, LStrip, CentsOf;
    assert Core(text) == Cleaned(FormatKopecks(cents));
  }
}
