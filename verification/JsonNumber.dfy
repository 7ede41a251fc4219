/**
 Number text in the privacy audit's canonical form (packages/privacyaudit/canonical.go): numbers without
 an exponent keep their text, numbers with one are written out as plain decimals. Go's int is 64 bits
 wide and wraps.
 */
module JsonNumber {
  import opened Prelude

  const MAX_EXPANDED := 4096

  predicate IsDigit(c: char) {
    '0' <= c <= '9'
  }

  predicate AllDigits(s: string) {
    s == [] || (IsDigit(s[|s| - 1]) && AllDigits(s[..|s| - 1]))
  }

  lemma {:induction false} DigitsConcat(a: string, b: string)
    ensures AllDigits(a + b) <==> AllDigits(a) && AllDigits(b)
    decreases |b|
  {
    if b == [] {
      assert a + b == a;
    } else {
      var n := |b| - 1;
      assert (a + b)[..|a + b| - 1] == a + b[..n] && (a + b)[|a + b| - 1] == b[n];
      DigitsConcat(a, b[..n]);
    }
  }

  lemma {:induction false} DigitAt(s: string, i: nat)
    requires AllDigits(s) && i < |s|
    ensures IsDigit(s[i])
  {
    if i < |s| - 1 { DigitAt(s[..|s| - 1], i); }
  }

  lemma DigitsSplit(s: string, i: nat)
    requires AllDigits(s) && i <= |s|
    ensures AllDigits(s[..i]) && AllDigits(s[i..])
  {
    assert s == s[..i] + s[i..];
    DigitsConcat(s[..i], s[i..]);
  }

  lemma {:induction false} DigitsEverywhere(s: string)
    ensures AllDigits(s) <==> forall i :: 0 <= i < |s| ==> IsDigit(s[i])
  {
    if s != [] {
      DigitsEverywhere(s[..|s| - 1]);
      if AllDigits(s) { forall i | 0 <= i < |s| ensures IsDigit(s[i]) { DigitAt(s, i); } }
    }
  }

  // ---------------------------------------------------------------- what digits and texts mean

  function DigitValue(c: char): int {
    c as int - '0' as int
  }

  /** The number a string of digits denotes. */
  function NumOf(s: string): int {
    if s == [] then 0 else 10 * NumOf(s[..|s| - 1]) + DigitValue(s[|s| - 1])
  }

  /** n times ten to the k. */
  function Shift(n: int, k: nat): int {
    if k == 0 then n else 10 * Shift(n, k - 1)
  }

  function Pow10(n: nat): (p: nat)
    ensures p >= 1
  {
    if n == 0 then 1 else 10 * Pow10(n - 1)
  }

  lemma {:induction false} ShiftIsPower(n: int, k: nat)
    ensures Shift(n, k) == n * Pow10(k)
  {
    if k > 0 {
      ShiftIsPower(n, k - 1);
      var p := Pow10(k - 1);
      assert 10 * (n * p) == n * (10 * p);
    }
  }

  lemma {:induction false} ShiftZero(k: nat)
    ensures Shift(0, k) == 0
  {
    if k > 0 { ShiftZero(k - 1); }
  }

  // ---------------------------------------------------------------- the code

  function IndexOf(s: string, c: char): (i: int)
    ensures -1 <= i < |s|
  {
    if s == [] then -1
    else if s[0] == c then 0
    else var r := IndexOf(s[1..], c); if r < 0 then -1 else r + 1
  }

  /** The index is that of the first occurrence. */
  lemma {:induction false} IndexOfMeans(s: string, c: char)
    ensures var i := IndexOf(s, c);
            if i < 0 then c !in s else s[i] == c && forall j :: 0 <= j < i ==> s[j] != c
  {
    if s != [] && s[0] != c {
      IndexOfMeans(s[1..], c);
      assert s == [s[0]] + s[1..];
    }
  }

  function IndexOfE(s: string): int {
    var a, b := IndexOf(s, 'e'), IndexOf(s, 'E');
    if a < 0 then b else if b < 0 then a else if a < b then a else b
  }

  function StripSign(s: string): string {
    if |s| > 0 && (s[0] == '+' || s[0] == '-') then s[1..] else s
  }

  predicate Negative(s: string) {
    |s| > 0 && s[0] == '-'
  }

  /** strconv.Atoi. */
  function Atoi(s: string): Option<int> {
    var d := StripSign(s);
    if d == "" || !AllDigits(d) then None
    else
      var n := if Negative(s) then -NumOf(d) else NumOf(d);
      if -MAX_INT64 - 1 <= n <= MAX_INT64 then Some(n) else None
  }

  /** A significand's sign, its digits without the point, and how many of them were after it. */
  datatype Significand = Significand(sign: string, digits: string, frac: nat)

  function Split(text: string): Option<Significand> {
    var s := StripSign(text);
    SplitAt(if Negative(text) then "-" else "", s, IndexOf(s, '.'))
  }

  function SplitAt(sign: string, s: string, dot: int): Option<Significand>
    requires dot < |s|
  {
    var digits := if dot < 0 then s else s[..dot] + s[dot + 1..];
    if digits == "" || !AllDigits(digits) then None
    else Some(Significand(sign, digits, if dot < 0 then 0 else |s| - dot - 1))
  }

  function Zeros(n: nat): string {
    seq(n, _ => '0')
  }

  function TrimZeros(s: string): string {
    if s == [] || s[0] != '0' then s else TrimZeros(s[1..])
  }

  predicate Fits(base: int, pad: int) {
    0 <= pad && 0 <= base <= MAX_EXPANDED && pad <= MAX_EXPANDED - base
  }

  function Padded(digits: string, scale: nat): (d: string)
    ensures |d| > scale
  {
    if |digits| <= scale then Zeros(scale + 1 - |digits|) + digits else digits
  }

  function PlaceDecimal(digits: string, scale: nat): string
    requires scale >= 1
  {
    PointAt(Padded(digits, scale), scale)
  }

  function PointAt(d: string, scale: nat): string
    requires scale <= |d|
  {
    Whole(d[..|d| - scale]) + "." + d[|d| - scale..]
  }

  /** The whole part that is printed. */
  function Whole(d: string): string {
    var whole := TrimZeros(d);
    if whole == "" then "0" else whole
  }

  /** scale is the negated power, as far as Go's int can negate it. */
  function Place(s: Significand, power: int, scale: int): Option<string> {
    if power >= 0 then
      if Fits(|s.sign| + |s.digits|, power) then Some(s.sign + s.digits + Zeros(power)) else None
    else
      if !Fits(|s.sign| + |s.digits| + 1, scale) || scale < 1 then None
      else Some(s.sign + PlaceDecimal(s.digits, scale))
  }

  function Expand(text: string, exp: int): Option<string> {
    var s := Split(text);
    if s.None? then None
    else
      var power := Wrap64(exp - s.value.frac);
      Place(s.value, power, Wrap64(-power))
  }

  function Format(s: string): Option<string> {
    var ei := IndexOfE(s);
    if ei < 0 then Some(s)
    else if ei == 0 || ei == |s| - 1 then None
    else
      var exp := Atoi(s[ei + 1..]);
      if exp.None? then None else Expand(s[..ei], exp.value)
  }

  // ---------------------------------------------------------------- value

  lemma {:induction false} NumOfConcat(a: string, b: string)
    ensures NumOf(a + b) == Shift(NumOf(a), |b|) + NumOf(b)
    decreases |b|
  {
    if b == [] {
      assert a + b == a;
    } else {
      var n := |b| - 1;
      assert (a + b)[..|a + b| - 1] == a + b[..n] && (a + b)[|a + b| - 1] == b[n];
      NumOfConcat(a, b[..n]);
    }
  }

  lemma {:induction false} NumOfZeros(n: nat)
    ensures NumOf(Zeros(n)) == 0
  {
    if n > 0 {
      assert Zeros(n)[..n - 1] == Zeros(n - 1);
      NumOfZeros(n - 1);
    }
  }

  lemma ZerosAreDigits(n: nat)
    ensures AllDigits(Zeros(n))
  {
    DigitsEverywhere(Zeros(n));
  }

  lemma LeadingZero(t: string)
    ensures NumOf("0" + t) == NumOf(t)
  {
    NumOfConcat("0", t);
    assert NumOf("0") == 0 by { assert "0"[..0] == ""; }
    ShiftZero(|t|);
  }

  lemma {:induction false} TrimKeepsValue(s: string, t: string)
    ensures NumOf(TrimZeros(s) + t) == NumOf(s + t)
    ensures AllDigits(s) ==> AllDigits(TrimZeros(s))
    ensures |TrimZeros(s)| <= |s| && (TrimZeros(s) != "" ==> TrimZeros(s)[0] != '0')
  {
    if s != [] && s[0] == '0' {
      TrimKeepsValue(s[1..], t);
      assert s + t == "0" + (s[1..] + t);
      LeadingZero(s[1..] + t);
      if AllDigits(s) { DigitsSplit(s, 1); }
    }
  }

  lemma NoPoint(s: string)
    requires AllDigits(s)
    ensures IndexOf(s, '.') < 0
  {
    DigitsEverywhere(s);
    IndexOfMeans(s, '.');
  }

  lemma SignStripped(sign: string, s: string)
    requires (sign == "" || sign == "-") && s != "" && IsDigit(s[0])
    ensures StripSign(sign + s) == s && Negative(sign + s) == (sign == "-")
  {
  }

  lemma SplitPlain(sign: string, digits: string)
    requires (sign == "" || sign == "-") && digits != "" && AllDigits(digits)
    ensures Split(sign + digits) == Some(Significand(sign, digits, 0))
  {
    NoPoint(digits);
    DigitAt(digits, 0);
    SignStripped(sign, digits);
  }

  lemma IndexOfPoint(whole: string, frac: string)
    requires AllDigits(whole)
    ensures IndexOf(whole + "." + frac, '.') == |whole|
  {
    var s := whole + "." + frac;
    DigitsEverywhere(whole);
    IndexOfMeans(s, '.');
    assert s[|whole|] == '.';
    assert forall j :: 0 <= j < |whole| ==> s[j] == whole[j];
  }

  lemma SplitAtPoint(sign: string, whole: string, frac: string)
    requires whole != "" && AllDigits(whole) && AllDigits(frac)
    ensures SplitAt(sign, whole + "." + frac, |whole|) == Some(Significand(sign, whole + frac, |frac|))
  {
    var s := whole + "." + frac;
    assert s[..|whole|] == whole && s[|whole| + 1..] == frac;
    DigitsConcat(whole, frac);
  }

  lemma SplitDecimal(sign: string, whole: string, frac: string)
    requires (sign == "" || sign == "-") && whole != "" && AllDigits(whole) && AllDigits(frac)
    ensures Split(sign + (whole + "." + frac)) == Some(Significand(sign, whole + frac, |frac|))
  {
    DigitAt(whole, 0);
    SignStripped(sign, whole + "." + frac);
    IndexOfPoint(whole, frac);
    SplitAtPoint(sign, whole, frac);
  }

  predicate Int64(x: int) {
    -MAX_INT64 - 1 <= x <= MAX_INT64
  }

  /** Go's wrapping subtraction and negation never change what the expansion does. */
  lemma WrapIsHarmless(text: string, exp: int)
    requires Int64(exp) && Split(text).Some?
    ensures var s := Split(text).value; Expand(text, exp) == Place(s, exp - s.frac, -(exp - s.frac))
  {
    SplitBounds(text);
    var s := Split(text).value;
    WrapsFar(exp, s.frac);
    var power := Wrap64(exp - s.frac);
    PlaceAgrees(s, power, Wrap64(-power), exp - s.frac, s.frac - exp);
  }

  /** When the wrapped power differs from the true one, it is far beyond the limit either way. */
  lemma WrapsFar(exp: int, frac: nat)
    requires Int64(exp)
    ensures var power := Wrap64(exp - frac);
            || (power == exp - frac && Wrap64(-power) == frac - exp)
            || (power == exp - frac == -MAX_INT64 - 1 && Wrap64(-power) < 0)
            || (exp - frac < -MAX_INT64 - 1 && (frac <= MAX_EXPANDED ==> power > MAX_EXPANDED))
  {
  }

  lemma PlaceAgrees(s: Significand, p: int, q: int, power: int, scale: int)
    requires Proper(s) && scale == -power
    requires || (p == power && q == scale)
             || (p == power == -MAX_INT64 - 1 && q < 0)
             || (power < -MAX_INT64 - 1 && (s.frac <= MAX_EXPANDED ==> p > MAX_EXPANDED))
    ensures Place(s, p, q) == Place(s, power, scale)
  {
    if p != power || q != scale {
      assert !Fits(|s.sign| + |s.digits| + 1, scale);
      assert p < 0 ==> !Fits(|s.sign| + |s.digits| + 1, q);
      assert p >= 0 ==> !Fits(|s.sign| + |s.digits|, p);
    }
  }

  lemma PaddedKeeps(digits: string, scale: nat)
    requires AllDigits(digits)
    ensures AllDigits(Padded(digits, scale)) && |Padded(digits, scale)| > scale
    ensures NumOf(Padded(digits, scale)) == NumOf(digits)
    ensures |Padded(digits, scale)| == if |digits| <= scale then scale + 1 else |digits|
  {
    if |digits| <= scale {
      NumOfZeros(scale + 1 - |digits|);
      NumOfConcat(Zeros(scale + 1 - |digits|), digits);
      ShiftZero(|digits|);
      ZerosAreDigits(scale + 1 - |digits|);
      DigitsConcat(Zeros(scale + 1 - |digits|), digits);
    }
  }

  lemma WholeKeeps(d: string, frac: string)
    requires AllDigits(d) && d != ""
    ensures AllDigits(Whole(d)) && 1 <= |Whole(d)| <= |d| && NumOf(Whole(d) + frac) == NumOf(d + frac)
    ensures Whole(d)[0] != '0' || Whole(d) == "0"
  {
    TrimKeepsValue(d, frac);
    if TrimZeros(d) == "" {
      assert "" + frac == frac;
      LeadingZero(frac);
    }
  }

  /** The whole digits and the scale digits after the point, for the number the digits denote. */
  predicate Parts(digits: string, scale: nat, whole: string, frac: string) {
    && AllDigits(whole) && whole != "" && (whole[0] != '0' || whole == "0")
    && AllDigits(frac) && |frac| == scale && NumOf(whole + frac) == NumOf(digits)
  }

  lemma PointAtParts(d: string, scale: nat) returns (whole: string, frac: string)
    requires AllDigits(d) && scale < |d|
    ensures PointAt(d, scale) == whole + "." + frac && Parts(d, scale, whole, frac) && |whole| <= |d| - scale
  {
    var i := |d| - scale;
    DigitsSplit(d, i);
    WholeKeeps(d[..i], d[i..]);
    assert d[..i] + d[i..] == d;
    whole, frac := Whole(d[..i]), d[i..];
  }

  /** A decimal point placed scale digits from the right: same digits in value, exactly scale of them
      after the point, no redundant leading zero. */
  lemma PlaceDecimalParts(digits: string, scale: nat) returns (whole: string, frac: string)
    requires scale >= 1 && digits != "" && AllDigits(digits)
    ensures PlaceDecimal(digits, scale) == whole + "." + frac
    ensures Parts(digits, scale, whole, frac) && |whole| <= |digits|
  {
    PaddedKeeps(digits, scale);
    whole, frac := PointAtParts(Padded(digits, scale), scale);
  }

  /** No redundant leading zero. */
  predicate Plain(t: string) {
    |t| > 0 && (t[0] == '0' ==> |t| == 1 || t[1] == '.')
  }

  lemma ZerosMean(digits: string, power: nat)
    requires AllDigits(digits)
    ensures AllDigits(digits + Zeros(power)) && NumOf(digits + Zeros(power)) == Shift(NumOf(digits), power)
  {
    ZerosAreDigits(power);
    DigitsConcat(digits, Zeros(power));
    NumOfConcat(digits, Zeros(power));
    NumOfZeros(power);
  }

  lemma SplitBounds(text: string)
    requires Split(text).Some?
    ensures Proper(Split(text).value)
  {
  }

  predicate Proper(s: Significand) {
    (s.sign == "" || s.sign == "-") && s.digits != "" && AllDigits(s.digits) && s.frac <= |s.digits|
  }

  /** The split text t denotes s times ten to the given power: the same sign, and digits n' with f' of
      them after the point such that n' / 10^f' is the digits of s times ten to the power. */
  predicate Denotes(s: Significand, power: int, t: Option<Significand>) {
    && t.Some? && t.value.sign == s.sign && t.value.frac == (if power >= 0 then 0 else -power)
    && NumOf(t.value.digits) == Scaled(NumOf(s.digits), power)
  }

  function Scaled(n: int, power: int): int {
    if power > 0 then n * Pow10(power) else n
  }

  lemma ZerosDenote(s: Significand, power: nat)
    requires Proper(s)
    ensures Denotes(s, power, Split(s.sign + s.digits + Zeros(power)))
  {
    ZerosMean(s.digits, power);
    ShiftIsPower(NumOf(s.digits), power);
    assert s.sign + s.digits + Zeros(power) == s.sign + (s.digits + Zeros(power));
    SplitPlain(s.sign, s.digits + Zeros(power));
  }

  lemma PointDenotes(s: Significand, power: int, whole: string, frac: string)
    requires Proper(s) && power < 0 && Parts(s.digits, -power, whole, frac)
    ensures Denotes(s, power, Split(s.sign + (whole + "." + frac)))
  {
    SplitDecimal(s.sign, whole, frac);
  }

  /** Placing the digits of s with a power gives text for s times ten to that power, of at most 4096
      characters. */
  lemma PlaceMeans(s: Significand, power: int, t: string)
    requires Proper(s) && Place(s, power, -power) == Some(t)
    ensures Denotes(s, power, Split(t)) && |t| <= MAX_EXPANDED
  {
    if power >= 0 {
      ZerosDenote(s, power);
    } else {
      var whole, frac := PlaceDecimalParts(s.digits, -power);
      PointDenotes(s, power, whole, frac);
    }
  }

  /** Writing out an exponent keeps the number: the text denotes the significand, f of whose digits are
      after the point, times ten to exp, and has at most 4096 characters. */
  lemma ExpandKeepsValue(text: string, exp: int, t: string)
    requires Int64(exp) && Expand(text, exp) == Some(t)
    ensures Split(text).Some? && Denotes(Split(text).value, exp - Split(text).value.frac, Split(t))
    ensures |t| <= MAX_EXPANDED
  {
    SplitBounds(text);
    WrapIsHarmless(text, exp);
    PlaceMeans(Split(text).value, exp - Split(text).value.frac, t);
  }

  /** Exactly the numbers whose written-out form is sure to fit 4096 characters are written out. */
  lemma ExpandedExactly(text: string, exp: int)
    requires Int64(exp) && Split(text).Some?
    ensures var s := Split(text).value;
            Expand(text, exp).Some? <==>
            if exp >= s.frac then |s.sign| + |s.digits| + (exp - s.frac) <= MAX_EXPANDED
            else |s.sign| + |s.digits| + 1 + (s.frac - exp) <= MAX_EXPANDED
  {
    WrapIsHarmless(text, exp);
  }

  /** When digits followed by zeros, or a point placed among them, have no redundant leading zero. */
  predicate StartsPlain(digits: string, power: int) {
    power < 0 || (digits != "" && digits[0] != '0') || (|digits| == 1 && power == 0)
  }

  lemma ZerosPlain(digits: string, power: nat)
    requires digits != "" && AllDigits(digits)
    ensures Plain(digits + Zeros(power)) <==> StartsPlain(digits, power)
  {
    var z := digits + Zeros(power);
    assert z[0] == digits[0];
    ZerosAreDigits(power);
    DigitsConcat(digits, Zeros(power));
    if |z| > 1 { DigitAt(z, 1); }
  }

  // ---------------------------------------------------------------- the characters of a number

  predicate PlainChar(c: char) {
    IsDigit(c) || c == '+' || c == '-' || c == '.'
  }

  /** Text made of the characters of JSON numbers. */
  predicate Token(s: string) {
    s != "" && forall i :: 0 <= i < |s| ==> PlainChar(s[i]) || s[i] == 'e' || s[i] == 'E'
  }

  predicate PlainToken(s: string) {
    s != "" && AllPlain(s)
  }

  predicate AllPlain(s: string) {
    s == "" || (PlainChar(s[0]) && AllPlain(s[1..]))
  }

  lemma {:induction false} PlainConcat(a: string, b: string)
    requires AllPlain(a) && AllPlain(b)
    ensures AllPlain(a + b)
  {
    if a == "" {
      assert a + b == b;
    } else {
      PlainConcat(a[1..], b);
      assert (a + b)[0] == a[0] && (a + b)[1..] == a[1..] + b;
    }
  }

  lemma {:induction false} PlainEverywhere(s: string)
    ensures AllPlain(s) <==> forall i :: 0 <= i < |s| ==> PlainChar(s[i])
  {
    if s != "" {
      PlainEverywhere(s[1..]);
      assert s == [s[0]] + s[1..];
    }
  }

  lemma DecimalChars(whole: string, frac: string)
    requires AllDigits(whole) && AllDigits(frac)
    ensures AllPlain(whole + "." + frac)
  {
    DigitsPlain(whole);
    DigitsPlain(frac);
    PlainConcat(whole, ".");
    PlainConcat(whole + ".", frac);
  }

  lemma DigitsPlain(s: string)
    requires AllDigits(s)
    ensures AllPlain(s)
  {
    DigitsEverywhere(s);
    PlainEverywhere(s);
  }

  lemma ZerosChars(s: Significand, power: nat)
    requires Proper(s)
    ensures PlainToken(s.sign + s.digits + Zeros(power))
  {
    DigitsPlain(s.digits);
    ZerosAreDigits(power);
    DigitsPlain(Zeros(power));
    PlainConcat(s.sign, s.digits);
    PlainConcat(s.sign + s.digits, Zeros(power));
  }

  lemma PointChars(sign: string, whole: string, frac: string)
    requires (sign == "" || sign == "-") && AllDigits(whole) && AllDigits(frac)
    ensures PlainToken(sign + (whole + "." + frac))
  {
    DecimalChars(whole, frac);
    PlainConcat(sign, whole + "." + frac);
  }

  lemma PlaceChars(s: Significand, power: int, t: string)
    requires Proper(s) && Place(s, power, -power) == Some(t)
    ensures PlainToken(t)
  {
    if power < 0 {
      var whole, frac := PlaceDecimalParts(s.digits, -power);
      PointChars(s.sign, whole, frac);
    } else {
      ZerosChars(s, power);
    }
  }

  lemma ExpandChars(text: string, exp: int, t: string)
    requires Int64(exp) && Expand(text, exp) == Some(t)
    ensures PlainToken(t)
  {
    WrapIsHarmless(text, exp);
    SplitBounds(text);
    PlaceChars(Split(text).value, exp - Split(text).value.frac, t);
  }

  /** The canonical text of a number has no exponent and no characters but digits, signs and points. */
  lemma FormatChars(s: string)
    requires Token(s) && Format(s).Some?
    ensures PlainToken(Format(s).value)
  {
    var ei := IndexOfE(s);
    if ei < 0 {
      IndexOfMeans(s, 'e');
      IndexOfMeans(s, 'E');
      PlainEverywhere(s);
    } else {
      ExpandChars(s[..ei], Atoi(s[ei + 1..]).value, Format(s).value);
    }
  }

  // ---------------------------------------------------------------- integers

  /** strconv.FormatInt in base ten. */
  function NatText(n: nat): string {
    if n < 10 then [('0' as int + n) as char] else NatText(n / 10) + [('0' as int + n % 10) as char]
  }

  function IntText(n: int): string {
    if n < 0 then "-" + NatText(-n) else NatText(n)
  }

  /** The last width digits of n. */
  function Pad(n: nat, width: nat): string {
    if width == 0 then "" else Pad(n / 10, width - 1) + [('0' as int + n % 10) as char]
  }

  lemma {:induction false} DigitsCount(s: string)
    requires AllDigits(s)
    ensures NumOf(s) >= 0
  {
    if s != "" { DigitsCount(s[..|s| - 1]); }
  }

  lemma {:induction false} NatTextMeans(n: nat)
    ensures NatText(n) != "" && AllDigits(NatText(n)) && NumOf(NatText(n)) == n
  {
    if n < 10 {
      assert NatText(n)[..0] == "";
    } else {
      NatTextMeans(n / 10);
      var t := NatText(n / 10);
      assert (t + [('0' as int + n % 10) as char])[..|t|] == t;
    }
  }

  /** Integer text is its own canonical form and denotes the integer, so no two integers share it. */
  lemma IntTextMeans(n: int)
    ensures Token(IntText(n)) && Format(IntText(n)) == Some(IntText(n))
    ensures (if Negative(IntText(n)) then -NumOf(StripSign(IntText(n))) else NumOf(IntText(n))) == n
  {
    var m := if n < 0 then -n else n;
    NatTextMeans(m);
    DigitsEverywhere(NatText(m));
    assert n < 0 ==> StripSign(IntText(n)) == NatText(m);
    IndexOfMeans(IntText(n), 'e');
    IndexOfMeans(IntText(n), 'E');
  }

  // ---------------------------------------------------------------- the loops

  method AllAsciiDigits(s: string) returns (ok: bool)
    ensures ok == AllDigits(s)
  {
    for i := 0 to |s|
      invariant AllDigits(s[..i])
    {
      if s[i] < '0' || s[i] > '9' {
        if AllDigits(s) { DigitAt(s, i); }
        return false;
      }
      assert s[..i + 1][..i] == s[..i];
    }
    assert s[..|s|] == s;
    ok := true;
  }

  /** Left-pads with zeros in a byte buffer, then places the point. */
  method PlaceDecimalPoint(digits: string, scale: nat) returns (r: string)
    requires scale >= 1
    ensures r == PlaceDecimal(digits, scale)
  {
    var d := digits;
    if |digits| <= scale {
      var padded := new char[scale + 1];
      for i := 0 to padded.Length
        invariant forall j :: 0 <= j < i ==> padded[j] == '0'
      {
        padded[i] := '0';
      }
      var at := padded.Length - |digits|;
      for i := 0 to |digits|
        invariant forall j :: 0 <= j < at ==> padded[j] == '0'
        invariant forall j :: 0 <= j < i ==> padded[at + j] == digits[j]
      {
        padded[at + i] := digits[i];
      }
      d := padded[..];
      assert d == Zeros(at) + digits;
    }
    var i := |d| - scale;
    var whole := TrimZeros(d[..i]);
    r := (if whole == "" then "0" else whole) + "." + d[i..];
  }
}
