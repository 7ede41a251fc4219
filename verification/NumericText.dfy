/**
 JSON number literals in the privacy audit: the values they denote, and how their canonical text
 (packages/privacyaudit/canonical.go) compares with the text PostgreSQL prints for a numeric.
 */
module NumericText {
  import opened Prelude
  import opened JsonNumber

  // ---------------------------------------------------------------- values

  /** n times ten to the power. */
  function Size(n: int, power: int): real
    decreases if power < 0 then -power else power
  {
    if power == 0 then n as real
    else if power > 0 then 10.0 * Size(n, power - 1) else Size(n, power + 1) / 10.0
  }

  function Amount(sign: string, n: int, power: int): real {
    if sign == "-" then -Size(n, power) else Size(n, power)
  }

  function AmountOf(m: Option<Significand>, exp: int): Option<real> {
    if m.None? then None else Some(Amount(m.value.sign, NumOf(m.value.digits), exp - m.value.frac))
  }

  /** What number text denotes, if it does. */
  function Value(s: string): Option<real> {
    var ei := IndexOfE(s);
    if ei < 0 then AmountOf(Split(s), 0)
    else
      var exp := Atoi(s[ei + 1..]);
      if exp.None? then None else AmountOf(Split(s[..ei]), exp.value)
  }

  lemma NoMark(t: string)
    requires AllPlain(t)
    ensures IndexOfE(t) < 0
  {
    PlainEverywhere(t);
    IndexOfMeans(t, 'e');
    IndexOfMeans(t, 'E');
  }

  lemma {:induction false} SizeShifts(n: int, k: nat)
    ensures Size(n, k) == Shift(n, k) as real
  {
    if k > 0 { SizeShifts(n, k - 1); }
  }

  lemma DenotedAmount(s: Significand, power: int, t: Option<Significand>)
    requires Denotes(s, power, t)
    ensures AmountOf(t, 0) == Some(Amount(s.sign, NumOf(s.digits), power))
  {
    if power > 0 {
      SizeShifts(NumOf(s.digits), power);
      ShiftIsPower(NumOf(s.digits), power);
    }
  }

  lemma PlainValue(t: string)
    requires IndexOfE(t) < 0
    ensures Value(t) == AmountOf(Split(t), 0)
  {
  }

  lemma ExpandedPlain(text: string, exp: int, t: string)
    requires Int64(exp) && Expand(text, exp) == Some(t)
    ensures Value(t) == AmountOf(Split(t), 0)
  {
    ExpandChars(text, exp, t);
    NoMark(t);
    PlainValue(t);
  }

  lemma SameAmount(m: Option<Significand>, exp: int, t: Option<Significand>)
    requires m.Some? && Denotes(m.value, exp - m.value.frac, t)
    ensures AmountOf(t, 0) == AmountOf(m, exp)
  {
    DenotedAmount(m.value, exp - m.value.frac, t);
  }

  lemma ExpandedAmount(text: string, exp: int, t: string)
    requires Int64(exp) && Expand(text, exp) == Some(t)
    ensures AmountOf(Split(t), 0) == AmountOf(Split(text), exp)
  {
    ExpandKeepsValue(text, exp, t);
    SameAmount(Split(text), exp, Split(t));
  }

  /** The canonical text denotes what the number's own text does. */
  lemma FormatKeepsValue(s: string, t: string)
    requires Format(s) == Some(t)
    ensures Value(t) == Value(s)
  {
    var ei := IndexOfE(s);
    if ei >= 0 {
      ExpandedPlain(s[..ei], Atoi(s[ei + 1..]).value, t);
      ExpandedAmount(s[..ei], Atoi(s[ei + 1..]).value, t);
    }
  }

  // ---------------------------------------------------------------- literals

  datatype Exponent = Exponent(mark: char, sign: string, digits: string)

  /** A number of the JSON grammar, without a fraction if frac is empty. */
  datatype Literal = Literal(negative: bool, whole: string, frac: string, exp: Option<Exponent>)

  predicate ValidExponent(x: Exponent) {
    && (x.mark == 'e' || x.mark == 'E') && (x.sign == "" || x.sign == "+" || x.sign == "-")
    && x.digits != "" && AllDigits(x.digits)
  }

  predicate Valid(j: Literal) {
    && AllDigits(j.whole) && j.whole != "" && (j.whole[0] != '0' || j.whole == "0") && AllDigits(j.frac)
    && (j.exp.Some? ==> ValidExponent(j.exp.value))
  }

  function Dash(negative: bool): string {
    if negative then "-" else ""
  }

  function Unsigned(j: Literal): string {
    if j.frac == "" then j.whole else j.whole + "." + j.frac
  }

  function Mantissa(j: Literal): string {
    Dash(j.negative) + Unsigned(j)
  }

  function Spell(j: Literal): string {
    if j.exp.None? then Mantissa(j) else Marked(Mantissa(j), j.exp.value)
  }

  function Marked(m: string, x: Exponent): string {
    m + ([x.mark] + (x.sign + x.digits))
  }

  function Digits(j: Literal): string {
    j.whole + j.frac
  }

  function ExponentValue(x: Exponent): int {
    if x.sign == "-" then -NumOf(x.digits) else NumOf(x.digits)
  }

  function ExponentOf(j: Literal): int {
    if j.exp.None? then 0 else ExponentValue(j.exp.value)
  }

  /** The literal is its digits times ten to this power. */
  function Power(j: Literal): int {
    ExponentOf(j) - |j.frac|
  }

  lemma MantissaSplits(j: Literal)
    requires Valid(j)
    ensures Split(Mantissa(j)) == Some(Significand(Dash(j.negative), Digits(j), |j.frac|))
  {
    if j.frac == "" {
      assert j.whole + j.frac == j.whole;
      SplitPlain(Dash(j.negative), j.whole);
    } else {
      SplitDecimal(Dash(j.negative), j.whole, j.frac);
    }
  }

  lemma MantissaPlain(j: Literal)
    requires Valid(j)
    ensures Mantissa(j) != "" && AllPlain(Mantissa(j))
  {
    if j.frac == "" {
      DigitsPlain(j.whole);
      PlainConcat(Dash(j.negative), j.whole);
    } else {
      PointChars(Dash(j.negative), j.whole, j.frac);
    }
  }

  lemma MarkFound(a: string, mark: char, rest: string)
    requires AllPlain(a) && (mark == 'e' || mark == 'E')
    ensures IndexOfE(a + ([mark] + rest)) == |a|
  {
    var s := a + ([mark] + rest);
    PlainEverywhere(a);
    IndexOfMeans(s, 'e');
    IndexOfMeans(s, 'E');
    assert s[|a|] == mark;
    assert forall i :: 0 <= i < |a| ==> s[i] == a[i];
  }

  lemma SignedDigits(sign: string, digits: string)
    requires (sign == "" || sign == "+" || sign == "-") && digits != "" && AllDigits(digits)
    ensures StripSign(sign + digits) == digits && (Negative(sign + digits) <==> sign == "-")
  {
    DigitAt(digits, 0);
  }

  lemma AtoiOf(s: string, x: Exponent)
    requires ValidExponent(x) && StripSign(s) == x.digits && (Negative(s) <==> x.sign == "-")
    ensures Atoi(s) == if Int64(ExponentValue(x)) then Some(ExponentValue(x)) else None
  {
  }

  lemma FormatSplit(s: string, m: string, e: string)
    requires IndexOfE(s) == |m| && 0 < |m| < |s| - 1 && s[..|m|] == m && s[|m| + 1..] == e
    ensures Format(s) == if Atoi(e).None? then None else Expand(m, Atoi(e).value)
  {
  }

  lemma FormatMarked(m: string, x: Exponent)
    requires AllPlain(m) && m != "" && ValidExponent(x)
    ensures Format(Marked(m, x)) == if Int64(ExponentValue(x)) then Expand(m, ExponentValue(x)) else None
  {
    var s, e := Marked(m, x), x.sign + x.digits;
    MarkFound(m, x.mark, e);
    assert s[..|m|] == m && s[|m| + 1..] == e;
    FormatSplit(s, m, e);
    SignedDigits(x.sign, x.digits);
    AtoiOf(e, x);
  }

  lemma FormatOf(j: Literal)
    requires Valid(j)
    ensures Format(Spell(j)) ==
            if j.exp.None? then Some(Mantissa(j))
            else if Int64(ExponentOf(j)) then Expand(Mantissa(j), ExponentOf(j)) else None
  {
    MantissaPlain(j);
    if j.exp.None? { NoMark(Mantissa(j)); } else { FormatMarked(Mantissa(j), j.exp.value); }
  }

  /** How long a literal may become when its exponent is written out. */
  function WrittenLength(j: Literal): int {
    var plain := |Dash(j.negative)| + |Digits(j)|;
    if Power(j) >= 0 then plain + Power(j) else plain + 1 - Power(j)
  }

  /** A literal has a canonical text if and only if it has no exponent or is sure to fit 4096 characters
      when written out. */
  lemma FormatsExactly(j: Literal)
    requires Valid(j)
    ensures Format(Spell(j)).Some? <==> j.exp.None? || WrittenLength(j) <= MAX_EXPANDED
  {
    FormatOf(j);
    MantissaSplits(j);
    if j.exp.Some? && Int64(ExponentOf(j)) { ExpandedExactly(Mantissa(j), ExponentOf(j)); }
  }

  // ---------------------------------------------------------------- PostgreSQL's numeric

  /** n without its last k digits. */
  function Upper(n: nat, k: nat): nat {
    if k == 0 then n else Upper(n / 10, k - 1)
  }

  /** PostgreSQL's text of n / 10^scale with scale digits after the point: no redundant zero in front, a
      dash only before a number that is not zero. */
  function Numeric(negative: bool, n: nat, scale: nat): string {
    Dash(negative && n > 0) + (if scale == 0 then NatText(n) else NatText(Upper(n, scale)) + "." + Pad(n, scale))
  }

  /** PostgreSQL's text of s times ten to the power. */
  function NumericOf(s: Significand, power: int): string
    requires NumOf(s.digits) >= 0
  {
    if power >= 0 then Numeric(s.sign == "-", NumOf(s.digits) * Pow10(power), 0)
    else Numeric(s.sign == "-", NumOf(s.digits), -power)
  }

  function Postgres(j: Literal): string
    requires Valid(j)
  {
    MantissaSplits(j);
    DigitsCount(Digits(j));
    NumericOf(Significand(Dash(j.negative), Digits(j), |j.frac|), Power(j))
  }

  lemma NumOfSnoc(u: string, c: char)
    ensures NumOf(u + [c]) == 10 * NumOf(u) + DigitValue(c) && (AllDigits(u + [c]) <==> AllDigits(u) && IsDigit(c))
  {
    assert (u + [c])[..|u|] == u;
  }

  lemma {:induction false} NumericDigits(n: nat, k: nat)
    ensures AllDigits(NatText(Upper(n, k)) + Pad(n, k)) && NumOf(NatText(Upper(n, k)) + Pad(n, k)) == n
    ensures |Pad(n, k)| == k
  {
    var whole := NatText(Upper(n, k));
    if k == 0 {
      NatTextMeans(n);
      assert whole + Pad(n, k) == whole;
    } else {
      NumericDigits(n / 10, k - 1);
      var last := ('0' as int + n % 10) as char;
      NumOfSnoc(whole + Pad(n / 10, k - 1), last);
      assert whole + Pad(n, k) == (whole + Pad(n / 10, k - 1)) + [last];
    }
  }

  /** t is n / 10^scale, with a dash if it is negative and not zero. */
  predicate Reads(t: Option<Significand>, negative: bool, n: int, scale: nat) {
    t.Some? && t.value.sign == Dash(negative && n > 0) && NumOf(t.value.digits) == n && t.value.frac == scale
  }

  /** PostgreSQL's text of a number reads back as that number. */
  lemma NumericReads(negative: bool, n: nat, scale: nat)
    ensures AllPlain(Numeric(negative, n, scale)) && Reads(Split(Numeric(negative, n, scale)), negative, n, scale)
  {
    var sign, whole, frac := Dash(negative && n > 0), NatText(Upper(n, scale)), Pad(n, scale);
    NumericDigits(n, scale);
    DigitsConcat(whole, frac);
    TextHasNoZeros(Upper(n, scale));
    if scale == 0 {
      assert whole + frac == whole;
      SplitPlain(sign, whole);
      DigitsPlain(whole);
      PlainConcat(sign, whole);
    } else {
      SplitDecimal(sign, whole, frac);
      PointChars(sign, whole, frac);
    }
  }

  /** Digits without a redundant zero in front are the text of their number. */
  lemma {:induction false} DigitsAreText(u: string)
    requires u != "" && AllDigits(u) && (u[0] != '0' || u == "0")
    ensures NumOf(u) >= 0 && u == NatText(NumOf(u)) && (u[0] != '0' ==> NumOf(u) > 0)
  {
    var k := |u| - 1;
    assert u == u[..k] + [u[k]];
    if k == 0 {
      assert u[..k] == "";
    } else {
      DigitsAreText(u[..k]);
    }
  }

  lemma {:induction false} TextHasNoZeros(n: nat)
    ensures NatText(n) != "" && IsDigit(NatText(n)[0]) && (NatText(n)[0] == '0' ==> n == 0 && NatText(n) == "0")
  {
    if n >= 10 { TextHasNoZeros(n / 10); }
  }

  /** The digits before and after the point, from their number. */
  lemma {:induction false} PointSplits(whole: string, frac: string)
    requires AllDigits(whole + frac) && NumOf(whole) >= 0 && NumOf(whole + frac) >= 0
    ensures Upper(NumOf(whole + frac), |frac|) == NumOf(whole) && Pad(NumOf(whole + frac), |frac|) == frac
    decreases |frac|
  {
    if frac == "" {
      assert whole + frac == whole;
    } else {
      var k := |frac| - 1;
      var d := whole + frac;
      assert d[..|d| - 1] == whole + frac[..k] && d[|d| - 1] == frac[k] && frac == frac[..k] + [frac[k]];
      DigitsCount(whole + frac[..k]);
      PointSplits(whole, frac[..k]);
    }
  }

  lemma SignsDecide(a: bool, b: bool, u: string)
    ensures Dash(a) + u == Dash(b) + u <==> a == b
  {
    assert |Dash(a) + u| == |Dash(a)| + |u| && |Dash(b) + u| == |Dash(b)| + |u|;
  }

  /** A negative number that is zero, which PostgreSQL does not have. */
  predicate NegativeZero(s: Significand) {
    s.sign == "-" && NumOf(s.digits) == 0
  }

  lemma WholeDecides(negative: bool, z: string, n: nat)
    requires z != "" && AllDigits(z) && NumOf(z) == n
    ensures Dash(negative) + z == Numeric(negative, n, 0) <==> Plain(z) && !(negative && n == 0)
  {
    TextHasNoZeros(n);
    if |z| > 1 { DigitAt(z, 1); }
    if Plain(z) {
      DigitsAreText(z);
      SignsDecide(negative, negative && n > 0, z);
    } else if Dash(negative) + z == Numeric(negative, n, 0) {
      SameTail(negative, z, negative && n > 0, NatText(n));
    }
  }

  /** Behind equal signs, equal tails; and a dash is no digit. */
  lemma SameTail(a: bool, z: string, b: bool, u: string)
    requires z != "" && u != "" && z[0] != '-' && u[0] != '-' && Dash(a) + z == Dash(b) + u
    ensures z == u
  {
    var x, y := Dash(a) + z, Dash(b) + u;
    assert x[0] == if a then '-' else z[0];
    assert y[0] == if b then '-' else u[0];
    assert x[|Dash(a)|..] == z && y[|Dash(b)|..] == u;
  }

  lemma PointDecides(negative: bool, n: nat, scale: nat, whole: string, frac: string)
    requires scale >= 1 && AllDigits(whole) && whole != "" && (whole[0] != '0' || whole == "0")
    requires AllDigits(frac) && |frac| == scale && NumOf(whole + frac) == n
    ensures Dash(negative) + (whole + "." + frac) == Numeric(negative, n, scale) <==> !(negative && n == 0)
  {
    DigitsConcat(whole, frac);
    DigitsAreText(whole);
    PointSplits(whole, frac);
    SignsDecide(negative, negative && n > 0, whole + "." + frac);
  }

  lemma ZeroTimes(n: nat, p: nat)
    requires p >= 1
    ensures n * p >= 0 && (n * p == 0 <==> n == 0)
  {
    if n > 0 { assert n * p >= p; }
  }

  lemma ZerosNumeric(s: Significand, power: nat)
    requires Proper(s) && NumOf(s.digits) >= 0
    ensures s.sign + s.digits + Zeros(power) == NumericOf(s, power) <==>
            StartsPlain(s.digits, power) && !NegativeZero(s)
  {
    var z := s.digits + Zeros(power);
    assert s.sign + s.digits + Zeros(power) == Dash(s.sign == "-") + z;
    ZerosMean(s.digits, power);
    ShiftIsPower(NumOf(s.digits), power);
    ZeroTimes(NumOf(s.digits), Pow10(power));
    ZerosPlain(s.digits, power);
    WholeDecides(s.sign == "-", z, NumOf(s.digits) * Pow10(power));
  }

  lemma PointNumeric(s: Significand, power: int, whole: string, frac: string)
    requires Proper(s) && NumOf(s.digits) >= 0 && power < 0 && Parts(s.digits, -power, whole, frac)
    ensures s.sign + (whole + "." + frac) == NumericOf(s, power) <==> !NegativeZero(s)
  {
    assert s.sign == Dash(s.sign == "-");
    PointDecides(s.sign == "-", NumOf(s.digits), -power, whole, frac);
  }

  lemma PlaceNumeric(s: Significand, power: int, t: string)
    requires Proper(s) && NumOf(s.digits) >= 0 && Place(s, power, -power) == Some(t)
    ensures t == NumericOf(s, power) <==> StartsPlain(s.digits, power) && !NegativeZero(s)
  {
    if power >= 0 {
      ZerosNumeric(s, power);
    } else {
      var whole, frac := PlaceDecimalParts(s.digits, -power);
      PointNumeric(s, power, whole, frac);
    }
  }

  /** A number with an exponent is written out as PostgreSQL prints it if and only if no digit follows a
      zero in front, unless behind the point, and it is not a negative zero. */
  lemma ExpandIsNumericExactly(text: string, exp: int, t: string)
    requires Int64(exp) && Expand(text, exp) == Some(t)
    ensures Split(text).Some? && NumOf(Split(text).value.digits) >= 0
    ensures var s := Split(text).value;
            t == NumericOf(s, exp - s.frac) <==> StartsPlain(s.digits, exp - s.frac) && !NegativeZero(s)
  {
    SplitBounds(text);
    DigitsCount(Split(text).value.digits);
    WrapIsHarmless(text, exp);
    PlaceNumeric(Split(text).value, exp - Split(text).value.frac, t);
  }

  /** Zero in front, and the exponent leaves more digits before the point. */
  predicate RedundantZero(j: Literal) {
    j.whole == "0" && Power(j) >= 0 && (j.frac != "" || Power(j) > 0)
  }

  lemma LiteralStartsPlain(j: Literal)
    requires Valid(j)
    ensures StartsPlain(Digits(j), Power(j)) <==> !RedundantZero(j)
  {
    assert Digits(j)[0] == j.whole[0];
  }

  lemma MantissaNumeric(j: Literal)
    requires Valid(j) && j.exp.None?
    ensures Mantissa(j) == Postgres(j) <==> !(j.negative && NumOf(Digits(j)) == 0)
  {
    DigitsConcat(j.whole, j.frac);
    DigitsCount(Digits(j));
    if j.frac == "" {
      assert Digits(j) == j.whole && Pow10(0) == 1;
      if |j.whole| > 1 { DigitAt(j.whole, 1); }
      WholeDecides(j.negative, j.whole, NumOf(j.whole));
    } else {
      PointDecides(j.negative, NumOf(Digits(j)), |j.frac|, j.whole, j.frac);
    }
  }

  lemma MarkedNumeric(j: Literal, t: string)
    requires Valid(j) && Int64(ExponentOf(j)) && Expand(Mantissa(j), ExponentOf(j)) == Some(t)
    ensures t == Postgres(j) <==> StartsPlain(Digits(j), Power(j)) && !(j.negative && NumOf(Digits(j)) == 0)
  {
    MantissaSplits(j);
    ExpandIsNumericExactly(Mantissa(j), ExponentOf(j), t);
  }

  /** The canonical text of a JSON number is PostgreSQL's text of it if and only if the exponent does not
      turn a zero in front into a redundant one and the number is not a negative zero. */
  lemma FormatIsPostgresExactly(j: Literal, t: string)
    requires Valid(j) && Format(Spell(j)) == Some(t)
    ensures t == Postgres(j) <==> !RedundantZero(j) && !(j.negative && NumOf(Digits(j)) == 0)
  {
    FormatOf(j);
    LiteralStartsPlain(j);
    if j.exp.None? { MantissaNumeric(j); } else { MarkedNumeric(j, t); }
  }

  // ---------------------------------------------------------------- the two ways to differ

  lemma OneDigit(c: char)
    requires IsDigit(c)
    ensures AllDigits([c]) && NumOf([c]) == DigitValue(c)
  {
    assert [c][..0] == "";
  }

  lemma ZerosOfNone(s: Significand)
    requires Proper(s) && |s.sign| + |s.digits| <= MAX_EXPANDED
    ensures Place(s, 0, 0) == Some(s.sign + s.digits)
  {
    assert s.sign + s.digits + Zeros(0) == s.sign + s.digits;
  }

  /** An exponent that moves the point to the end drops it. */
  lemma PointDropped(j: Literal)
    requires Valid(j) && j.exp.Some? && Power(j) == 0 && |j.whole| + |j.frac| < 100
    ensures Format(Spell(j)) == Some(Dash(j.negative) + Digits(j))
  {
    FormatOf(j);
    MantissaSplits(j);
    WrapIsHarmless(Mantissa(j), ExponentOf(j));
    DigitsConcat(j.whole, j.frac);
    ZerosOfNone(Significand(Dash(j.negative), Digits(j), |j.frac|));
  }

  /** 0.5e1, with any digit but zero for the five. */
  function TenthsTimesTen(c: char): Literal {
    Literal(false, "0", [c], Some(Exponent('e', "", "1")))
  }

  lemma TwoDigits(c: char, d: char)
    requires IsDigit(c) && IsDigit(d)
    ensures NumOf([c] + [d]) == 10 * DigitValue(c) + DigitValue(d)
  {
    OneDigit(c);
    assert ([c] + [d])[..1] == [c];
  }

  lemma TenthsPower(c: char)
    requires IsDigit(c)
    ensures Valid(TenthsTimesTen(c)) && Power(TenthsTimesTen(c)) == 0
    ensures Digits(TenthsTimesTen(c)) == ['0', c] && NumOf(Digits(TenthsTimesTen(c))) == DigitValue(c)
  {
    OneDigit('0');
    OneDigit(c);
    OneDigit('1');
    TwoDigits('0', c);
    assert Digits(TenthsTimesTen(c)) == ['0'] + [c];
  }

  lemma TenthsFormat(c: char)
    requires IsDigit(c)
    ensures Format(Spell(TenthsTimesTen(c))) == Some(['0', c])
  {
    TenthsPower(c);
    PointDropped(TenthsTimesTen(c));
    assert "" + Digits(TenthsTimesTen(c)) == ['0', c];
  }

  lemma TenthsPostgres(c: char)
    requires IsDigit(c)
    ensures Valid(TenthsTimesTen(c)) && Postgres(TenthsTimesTen(c)) == [c]
  {
    TenthsPower(c);
    assert Pow10(0) == 1;
    assert NatText(DigitValue(c)) == [c];
    assert "" + [c] == [c];
  }

  lemma TenthsSpelt(c: char)
    ensures Spell(TenthsTimesTen(c)) == ['0', '.', c, 'e', '1']
  {
  }

  /** 0.5e1 is written 05, where PostgreSQL prints 5. */
  lemma LeadingZeroKept(c: char)
    requires IsDigit(c)
    ensures Spell(TenthsTimesTen(c)) == ['0', '.', c, 'e', '1']
    ensures Format(Spell(TenthsTimesTen(c))) == Some(['0', c])
    ensures Valid(TenthsTimesTen(c)) && Postgres(TenthsTimesTen(c)) == [c]
  {
    TenthsSpelt(c);
    TenthsFormat(c);
    TenthsPostgres(c);
  }

  const NEGATIVE_ZERO := Literal(true, "0", "", Some(Exponent('e', "", "0")))

  /** -0e0 is written -0, as -0 is, where PostgreSQL prints 0. */
  lemma NegativeZeroKept()
    ensures Valid(NEGATIVE_ZERO) && Spell(NEGATIVE_ZERO) == "-0e0"
    ensures Format("-0e0") == Some("-0") == Format("-0") && Postgres(NEGATIVE_ZERO) == "0"
  {
    var j := NEGATIVE_ZERO;
    OneDigit('0');
    assert Spell(j) == "-0e0" && Mantissa(j) == "-0" && Digits(j) == "0";
    PointDropped(j);
    FormatOf(j.(exp := None));
    assert Pow10(0) == 1 && NatText(0) == "0";
  }
}
