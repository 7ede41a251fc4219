/**
 Integers in canonical JSON (section 3.2.2.3 of RFC 8785, which packages/canonicaljson follows): an integer
 is read as the nearest double and printed as the shortest decimal that reads as that double.
 */
module Binary64 {
  import opened JsonNumber

  const TWO_52: nat := 0x10_0000_0000_0000
  const TWO_53: nat := 0x20_0000_0000_0000

  // ---------------------------------------------------------------- multiples

  /** The largest multiple of u up to n. */
  function Floor(n: nat, u: nat): (f: nat)
    requires u >= 1
    ensures f <= n < f + u
  {
    if n < u then 0 else Floor(n - u, u) + u
  }

  predicate Divides(u: nat, n: nat)
    requires u >= 1
  {
    Floor(n, u) == n
  }

  /** The multiples of u about n are Floor(n, u) and the next one. */
  lemma {:induction false} Neighbours(x: nat, n: nat, u: nat)
    requires u >= 1 && Divides(u, x)
    ensures x <= n ==> x <= Floor(n, u)
    ensures x > n ==> x >= Floor(n, u) + u
    decreases x + n
  {
    if x >= u && n >= u { Neighbours(x - u, n - u, u); }
  }

  lemma {:induction false} FloorDivides(n: nat, u: nat)
    requires u >= 1
    ensures Divides(u, Floor(n, u)) && Divides(u, Floor(n, u) + u)
  {
    if n >= u { FloorDivides(n - u, u); }
  }

  lemma {:induction false} Multiple(a: nat, u: nat)
    requires u >= 1
    ensures Divides(u, a * u)
  {
    if a == 0 {
      assert a * u == 0;
    } else {
      Multiple(a - 1, u);
      assert a * u == (a - 1) * u + u;
      FloorDivides((a - 1) * u, u);
    }
  }

  // ---------------------------------------------------------------- the nearest double

  /** The distance between the doubles about n. */
  function Ulp(n: nat): (u: nat)
    ensures u >= 1
  {
    if n < TWO_53 then 1 else 2 * Ulp(n / 2)
  }

  /** The double nearest to n, the even one of two. */
  function Nearest(n: nat): nat {
    var u := Ulp(n);
    var f := Floor(n, u);
    if 2 * (n - f) < u || (2 * (n - f) == u && Divides(2 * u, f)) then f else f + u
  }

  lemma {:induction false} UlpBounds(n: nat)
    ensures n < TWO_53 * Ulp(n) && (n >= TWO_53 ==> TWO_52 * Ulp(n) <= n)
  {
    if n >= TWO_53 { UlpBounds(n / 2); }
  }

  /** The distances are powers of two and grow with n. */
  lemma {:induction false} UlpGrows(m: nat, n: nat)
    requires m <= n
    ensures Ulp(m) == Ulp(n) || 2 * Ulp(m) <= Ulp(n)
  {
    if m >= TWO_53 {
      UlpGrows(m / 2, n / 2);
    } else if n >= TWO_53 {
      assert Ulp(n) == 2 * Ulp(n / 2);
    }
  }

  /** Within half a distance, on a multiple, and not past one. */
  lemma NearestClose(n: nat, x: nat)
    requires Divides(Ulp(n), x)
    ensures Divides(Ulp(n), Nearest(n))
    ensures 2 * Nearest(n) <= 2 * n + Ulp(n) && 2 * n <= 2 * Nearest(n) + Ulp(n)
    ensures (x <= n ==> x <= Nearest(n)) && (x >= n ==> Nearest(n) <= x)
  {
    Neighbours(x, n, Ulp(n));
    FloorDivides(n, Ulp(n));
  }

  lemma UlpIs(n: nat, d: nat)
    requires n >= TWO_53 && TWO_52 * Ulp(n) <= d <= TWO_53 * Ulp(n)
    ensures Ulp(d) == if d < TWO_53 * Ulp(n) then Ulp(n) else 2 * Ulp(n)
  {
    UlpBounds(n);
    UlpBounds(d);
    if d <= n { UlpGrows(d, n); } else { UlpGrows(n, d); }
    assert Ulp(n) == 2 * Ulp(n / 2);
  }

  /** The nearest double of a double is itself. */
  lemma NearestAgain(n: nat)
    ensures Nearest(Nearest(n)) == Nearest(n)
  {
    var u, d := Ulp(n), Nearest(n);
    UlpBounds(n);
    if n >= TWO_53 {
      Multiple(TWO_52, u);
      Multiple(TWO_53, u);
      NearestClose(n, TWO_52 * u);
      NearestClose(n, TWO_53 * u);
      UlpIs(n, d);
      Multiple(TWO_52, 2 * u);
      assert Divides(Ulp(d), d);
    }
  }

  lemma NearestGrowsBeside(m: nat, n: nat)
    requires m <= n && Ulp(m) == Ulp(n)
    ensures Nearest(m) <= Nearest(n)
  {
    var u := Ulp(m);
    FloorDivides(m, u);
    FloorDivides(n, u);
    Neighbours(Floor(m, u), n, u);
    Neighbours(Floor(n, u), m, u);
  }

  /** Reading as a double keeps the order. */
  lemma NearestGrows(m: nat, n: nat)
    requires m <= n
    ensures Nearest(m) <= Nearest(n)
  {
    UlpGrows(m, n);
    if Ulp(m) == Ulp(n) {
      NearestGrowsBeside(m, n);
    } else {
      UlpBounds(m);
      UlpBounds(n);
      Multiple(TWO_53, Ulp(m));
      Multiple(TWO_52, Ulp(n));
      NearestClose(m, TWO_53 * Ulp(m));
      NearestClose(n, TWO_52 * Ulp(n));
    }
  }

  function Distance(m: nat, d: nat): nat {
    if m < d then d - m else m - d
  }

  /** No double lies between n and the multiples of the distance about n. */
  lemma DoublesAround(n: nat, x: nat)
    requires n >= TWO_53 && Nearest(x) == x
    ensures x <= n ==> x <= Floor(n, Ulp(n))
    ensures x > n ==> x >= Floor(n, Ulp(n)) + Ulp(n)
  {
    var u := Ulp(n);
    UlpBounds(n);
    Multiple(TWO_52, u);
    Multiple(TWO_53, u);
    Neighbours(TWO_52 * u, n, u);
    Neighbours(TWO_53 * u, n, u);
    if TWO_52 * u <= x < TWO_53 * u {
      UlpIs(n, x);
      FloorDivides(x, u);
      Neighbours(Nearest(x), n, u);
    }
  }

  /** No double is closer. */
  lemma NearestIsClosest(n: nat, x: nat)
    requires Nearest(x) == x
    ensures Distance(n, Nearest(n)) <= Distance(n, x)
  {
    if n < TWO_53 {
      assert Ulp(n) == 1;
    } else {
      DoublesAround(n, x);
    }
  }

  // ---------------------------------------------------------------- the shortest decimal

  /** Any way of reading integers as fewer of them. */
  type Reading = nat -> nat

  predicate InOrder(read: Reading, a: nat, b: nat) {
    a <= b ==> read(a) <= read(b)
  }

  ghost predicate Ordered(read: Reading) {
    forall a, b :: InOrder(read, a, b)
  }

  /** The multiple of the highest power of ten up to 10^j that reads as d, the closest to d of two. */
  function Shortest(read: Reading, d: nat, j: nat): nat {
    if j == 0 then d
    else
      var lo := Floor(d, Pow10(j));
      var hi := lo + Pow10(j);
      if read(lo) == d && (read(hi) != d || d - lo <= hi - d) then lo
      else if read(hi) == d then hi
      else Shortest(read, d, j - 1)
  }

  /** How many zeros end m's decimal, up to j. */
  function EndZeros(m: nat, j: nat): nat {
    if j == 0 || Divides(Pow10(j), m) then j else EndZeros(m, j - 1)
  }

  /** Of two decimals that read as d, the one with more zeros at the end is preferred, then the one closer
      to d, then the smaller. */
  predicate Preferred(a: nat, b: nat, d: nat, j: nat) {
    || EndZeros(a, j) > EndZeros(b, j)
    || (EndZeros(a, j) == EndZeros(b, j) && Distance(a, d) < Distance(b, d))
    || (EndZeros(a, j) == EndZeros(b, j) && Distance(a, d) == Distance(b, d) && a < b)
  }

  lemma {:induction false} EndZerosBound(m: nat, j: nat)
    ensures EndZeros(m, j) <= j && (j > 0 ==> (EndZeros(m, j) == j <==> Divides(Pow10(j), m)))
  {
    if j > 0 { EndZerosBound(m, j - 1); }
  }

  lemma {:induction false} ShortestReads(read: Reading, d: nat, j: nat)
    requires read(d) == d
    ensures read(Shortest(read, d, j)) == d
  {
    if j > 0 { ShortestReads(read, d, j - 1); }
  }

  /** If a multiple of p reads as d, so does the multiple next to d on that side. */
  lemma MultipleReads(read: Reading, d: nat, p: nat, m: nat)
    requires Ordered(read) && p >= 1 && Divides(p, m) && read(m) == d == read(d)
    ensures m <= d ==> m <= Floor(d, p) && read(Floor(d, p)) == d
    ensures m > d ==> m >= Floor(d, p) + p && read(Floor(d, p) + p) == d
  {
    Neighbours(m, d, p);
    var f := Floor(d, p);
    assert InOrder(read, m, f) && InOrder(read, f, d) && InOrder(read, d, f + p) && InOrder(read, f + p, m);
  }

  lemma PicksPreferred(read: Reading, d: nat, j: nat, m: nat)
    requires Ordered(read) && j > 0 && read(d) == d == read(m)
    requires read(Floor(d, Pow10(j))) == d || read(Floor(d, Pow10(j)) + Pow10(j)) == d
    ensures m == Shortest(read, d, j) || Preferred(Shortest(read, d, j), m, d, j)
  {
    var p, z := Pow10(j), Shortest(read, d, j);
    FloorDivides(d, p);
    EndZerosBound(z, j);
    EndZerosBound(m, j);
    if Divides(p, m) { MultipleReads(read, d, p, m); }
  }

  lemma NoneEnds(read: Reading, d: nat, j: nat, m: nat)
    requires Ordered(read) && j > 0 && read(d) == d == read(m)
    requires read(Floor(d, Pow10(j))) != d && read(Floor(d, Pow10(j)) + Pow10(j)) != d
    ensures EndZeros(m, j) == EndZeros(m, j - 1)
  {
    if Divides(Pow10(j), m) { MultipleReads(read, d, Pow10(j), m); }
  }

  lemma ShortestSkips(read: Reading, d: nat, j: nat)
    requires j > 0 && read(Floor(d, Pow10(j))) != d && read(Floor(d, Pow10(j)) + Pow10(j)) != d
    ensures Shortest(read, d, j) == Shortest(read, d, j - 1)
  {
  }

  lemma PreferredLifts(a: nat, b: nat, d: nat, j: nat)
    requires j > 0 && EndZeros(a, j) == EndZeros(a, j - 1) && EndZeros(b, j) == EndZeros(b, j - 1)
    requires Preferred(a, b, d, j - 1)
    ensures Preferred(a, b, d, j)
  {
  }

  lemma {:induction false} SkipPreferred(read: Reading, d: nat, j: nat, m: nat, z: nat)
    requires Ordered(read) && j > 0 && read(d) == d == read(m) == read(z)
    requires read(Floor(d, Pow10(j))) != d && read(Floor(d, Pow10(j)) + Pow10(j)) != d
    requires m == z || Preferred(z, m, d, j - 1)
    ensures m == z || Preferred(z, m, d, j)
  {
    NoneEnds(read, d, j, m);
    NoneEnds(read, d, j, z);
    if m != z { PreferredLifts(z, m, d, j); }
  }

  lemma ShortestStep(read: Reading, d: nat, j: nat, m: nat, z: nat)
    requires Ordered(read) && j > 0 && read(d) == d == read(m) && z == Shortest(read, d, j - 1) && read(z) == d
    requires m == z || Preferred(z, m, d, j - 1)
    ensures m == Shortest(read, d, j) || Preferred(Shortest(read, d, j), m, d, j)
  {
    if read(Floor(d, Pow10(j))) == d || read(Floor(d, Pow10(j)) + Pow10(j)) == d {
      PicksPreferred(read, d, j, m);
    } else {
      ShortestSkips(read, d, j);
      SkipPreferred(read, d, j, m, z);
    }
  }

  /** Of all decimals that read as d, the shortest is preferred. */
  lemma {:induction false} ShortestPreferred(read: Reading, d: nat, j: nat, m: nat)
    requires Ordered(read) && read(d) == d == read(m)
    ensures m == Shortest(read, d, j) || Preferred(Shortest(read, d, j), m, d, j)
    decreases j
  {
    if j > 0 {
      ShortestReads(read, d, j - 1);
      ShortestPreferred(read, d, j - 1, m);
      ShortestStep(read, d, j, m, Shortest(read, d, j - 1));
    }
  }

  // ---------------------------------------------------------------- printed integers

  /** The number of decimal digits. */
  function Places(d: nat): nat {
    if d < 10 then 1 else 1 + Places(d / 10)
  }

  function Printed(n: nat): nat {
    Shortest(Nearest, Nearest(n), Places(Nearest(n)))
  }

  /** What canonical JSON prints for an integer. */
  function Number(n: int): int {
    Signed(Printed, n)
  }

  function Signed(show: Reading, n: int): int {
    if n < 0 then -(show(-n) as int) else show(n)
  }

  /** Preferred among the decimals of n's double. */
  predicate Better(a: nat, b: nat, n: nat) {
    Preferred(a, b, Nearest(n), Places(Nearest(n)))
  }

  lemma NearestOrdered()
    ensures Ordered(Nearest)
  {
    forall a, b ensures InOrder(Nearest, a, b) {
      if a <= b { NearestGrows(a, b); }
    }
  }

  /** The printed integer reads as the same double, and no integer that does is preferred to it. */
  lemma PrintedPreferred(n: nat, m: nat)
    ensures Nearest(Printed(n)) == Nearest(n)
    ensures Nearest(m) == Nearest(n) ==> m == Printed(n) || Better(Printed(n), m, n)
  {
    NearestAgain(n);
    var d := Nearest(n);
    NearestOrdered();
    ShortestReads(Nearest, d, Places(d));
    if Nearest(m) == d { ShortestPreferred(Nearest, d, Places(d), m); }
  }

  predicate Beats(m: nat, n: nat) {
    Nearest(m) == Nearest(n) && Better(m, n, n)
  }

  /** No integer that reads as the same double is preferred to n. */
  ghost predicate Kept(n: nat) {
    forall m :: !Beats(m, n)
  }

  /** An integer is printed as itself if and only if no integer that reads as the same double is preferred
      to it. */
  lemma KeptExactly(n: nat)
    ensures Number(n) == n <==> Kept(n)
  {
    PrintedPreferred(n, n);
    if Number(n) == n {
      forall m ensures !Beats(m, n) { PrintedPreferred(n, m); }
    } else {
      assert Beats(Printed(n), n);
    }
  }

  lemma PrintedAgain(n: nat)
    ensures Printed(Printed(n)) == Printed(n)
  {
    PrintedPreferred(n, 0);
  }

  lemma PrintedGrows(m: nat, n: nat)
    requires m <= n
    ensures Printed(m) <= Printed(n)
  {
    PrintedPreferred(m, 0);
    PrintedPreferred(n, 0);
    NearestGrows(m, n);
    if Printed(m) > Printed(n) { NearestGrows(Printed(n), Printed(m)); }
  }

  // ---------------------------------------------------------------- up to 2^53, and beyond

  lemma NearestTop()
    ensures Nearest(TWO_53) == TWO_53
  {
    assert Ulp(TWO_53) == 2;
    Multiple(TWO_52, 2);
  }

  lemma NearestExact(n: nat)
    requires n <= TWO_53
    ensures Nearest(n) == n
  {
    if n == TWO_53 {
      NearestTop();
    } else {
      assert Ulp(n) == 1;
    }
  }

  lemma NearestAbove(z: nat)
    requires z >= TWO_53 + 2
    ensures Nearest(z) > TWO_53
  {
    UlpBounds(z);
    NearestClose(z, 0);
  }

  lemma {:induction false} FloorOfTens(n: nat, p: nat)
    requires p >= 1
    ensures Floor(n, 10 * p) % 10 == 0
  {
    if n >= 10 * p { FloorOfTens(n - 10 * p, p); }
  }

  lemma {:induction false} NoEndZeros(m: nat, j: nat)
    requires m % 10 != 0
    ensures EndZeros(m, j) == 0
  {
    if j > 0 {
      FloorOfTens(m, Pow10(j - 1));
      NoEndZeros(m, j - 1);
    }
  }

  lemma ReadsExact(n: nat, z: nat)
    requires n <= TWO_53 && Nearest(z) == n
    ensures z == n || (n == TWO_53 && z == n + 1)
  {
    if z <= TWO_53 {
      NearestExact(z);
    } else {
      NearestGrows(TWO_53, z);
      NearestExact(TWO_53);
      if z >= TWO_53 + 2 { NearestAbove(z); }
    }
  }

  lemma NotPreferred(j: nat)
    ensures !Preferred(TWO_53 + 1, TWO_53, TWO_53, j)
  {
    NoEndZeros(TWO_53, j);
    NoEndZeros(TWO_53 + 1, j);
  }

  lemma PrintedExact(n: nat)
    requires n <= TWO_53
    ensures Printed(n) == n
  {
    NearestExact(n);
    PrintedPreferred(n, n);
    ReadsExact(n, Printed(n));
    NotPreferred(Places(n));
  }

  lemma NearestOdd()
    ensures Nearest(TWO_53 + 1) == TWO_53
  {
    assert Ulp(TWO_53 + 1) == 2;
    Multiple(TWO_52, 2);
    Multiple(TWO_52 / 2, 4);
    FloorDivides(TWO_53 + 1, 2);
    Neighbours(TWO_53, TWO_53 + 1, 2);
    Neighbours(Floor(TWO_53 + 1, 2), TWO_53, 2);
  }

  /** 2^53 + 1 is printed as 2^53. */
  lemma FirstChanged()
    ensures Number(TWO_53 + 1) == TWO_53
  {
    NearestOdd();
    NearestExact(TWO_53);
    PrintedExact(TWO_53);
  }

  /** All integers up to b are printed as themselves if and only if b is at most 2^53. */
  lemma KeptUpTo(b: int)
    ensures (forall n :: 0 <= n <= b ==> Number(n) == n) <==> b <= TWO_53
  {
    forall n | 0 <= n <= b && b <= TWO_53 ensures Number(n) == n { PrintedExact(n); }
    FirstChanged();
  }

  // ---------------------------------------------------------------- few digits

  lemma NearestWithin(m: nat)
    ensures TWO_53 * Distance(m, Nearest(m)) <= m
  {
    if m < TWO_53 {
      NearestExact(m);
    } else {
      UlpBounds(m);
      NearestClose(m, 0);
    }
  }

  lemma {:induction false} PlacesBound(d: nat)
    ensures d < Pow10(Places(d))
  {
    if d >= 10 { PlacesBound(d / 10); } else { assert Pow10(1) == 10 * Pow10(0); }
  }

  lemma {:induction false} PowGrows(i: nat, j: nat)
    requires i <= j
    ensures Pow10(i) <= Pow10(j)
  {
    if i < j { PowGrows(i, j - 1); }
  }

  /** No integer that reads as n does ends in more zeros than its double has digits. */
  lemma NoMoreZeros(n: nat, m: nat, j: nat)
    requires Nearest(m) == Nearest(n) && m > 0 && Divides(Pow10(j), m)
    ensures j <= Places(Nearest(n))
  {
    var d := Nearest(n);
    NearestWithin(m);
    PlacesBound(d);
    if j > Places(d) { PowGrows(Places(d) + 1, j); }
  }

  lemma {:induction false} DividesByTens(p: nat, m: nat)
    requires p >= 1 && Divides(10 * p, m)
    ensures Divides(p, m)
    decreases m
  {
    if m >= 10 * p {
      DividesByTens(p, m - 10 * p);
      DividesPlus(p, m - 10 * p, 10);
    }
  }

  lemma {:induction false} DividesPlus(p: nat, x: nat, k: nat)
    requires p >= 1 && Divides(p, x)
    ensures Divides(p, x + k * p)
  {
    if k > 0 {
      DividesPlus(p, x, k - 1);
      assert x + k * p == x + (k - 1) * p + p;
      FloorDivides(x + (k - 1) * p, p);
    }
  }

  lemma {:induction false} EndZerosDivide(m: nat, i: nat, j: nat)
    requires i <= j
    ensures i <= EndZeros(m, j) <==> Divides(Pow10(i), m)
  {
    if i < j {
      EndZerosDivide(m, i, j - 1);
      if Divides(Pow10(j), m) { PowDivides(m, i, j); }
    } else if j > 0 {
      EndZerosBound(m, j);
    }
  }

  lemma {:induction false} PowDivides(m: nat, i: nat, j: nat)
    requires i <= j && Divides(Pow10(j), m)
    ensures Divides(Pow10(i), m)
  {
    if i < j {
      DividesByTens(Pow10(j - 1), m);
      PowDivides(m, i, j - 1);
    }
  }

  /** Two multiples of p this close to d are one. */
  lemma Alone(n: nat, p: nat, z: nat, d: nat)
    requires p >= 1 && n <= 1_000_000_000_000_000 * p && Divides(p, n) && Divides(p, z)
    requires TWO_53 * Distance(n, d) <= n && TWO_53 * Distance(z, d) <= z
    ensures z == n
  {
    Neighbours(z, n, p);
    Neighbours(n, z, p);
  }

  lemma FewDigitsBound(a: nat, p: nat)
    requires a < 1_000_000_000_000_000
    ensures a * p <= 1_000_000_000_000_000 * p
  {
  }

  /** Decimals with at most fifteen digits before their zeros are printed as themselves. */
  lemma FewDigitsKept(a: nat, j: nat)
    requires a < 1_000_000_000_000_000
    ensures Number(a * Pow10(j)) == a * Pow10(j)
  {
    var p := Pow10(j);
    var n := a * p;
    if n == 0 {
      PrintedExact(0);
    } else {
      Multiple(a, p);
      NoMoreZeros(n, n, j);
      PrintedPreferred(n, n);
      var most := Places(Nearest(n));
      EndZerosDivide(n, j, most);
      EndZerosDivide(Printed(n), j, most);
      FewDigitsBound(a, p);
      NearestWithin(n);
      NearestWithin(Printed(n));
      Alone(n, p, Printed(n), Nearest(n));
    }
  }

  // ---------------------------------------------------------------- order

  lemma SignedGrows(show: Reading, m: int, n: int)
    requires Ordered(show) && m <= n
    ensures Signed(show, m) <= Signed(show, n)
  {
    if n < 0 {
      assert InOrder(show, -n, -m);
    } else if m >= 0 {
      assert InOrder(show, m, n);
    }
  }

  lemma SignedAgain(show: Reading, n: int)
    requires show(0) == 0 && forall a :: show(show(a)) == show(a)
    ensures Signed(show, Signed(show, n)) == Signed(show, n)
  {
  }

  /** What is printed is printed as itself, and printing keeps the order. */
  lemma NumberGrows(m: int, n: int)
    requires m <= n
    ensures Number(Number(n)) == Number(n) && Number(m) <= Number(n)
  {
    forall a, b ensures InOrder(Printed, a, b) {
      if a <= b { PrintedGrows(a, b); }
    }
    PrintedExact(0);
    forall a: nat ensures Printed(Printed(a)) == Printed(a) { PrintedAgain(a); }
    SignedGrows(Printed, m, n);
    SignedAgain(Printed, n);
  }
}
