/**
 The two orders on text the privacy audit sorts by (packages/privacyaudit/canonical.go): bytewise, and
 length in bytes before bytewise. Byte order of UTF-8 text is code point order.
 */
module TextOrder {
  import opened Prelude

  predicate Lex(a: string, b: string) {
    b != "" && (a == "" || a[0] < b[0] || (a[0] == b[0] && Lex(a[1..], b[1..])))
  }

  predicate Less(byLength: bool, a: string, b: string) {
    if byLength && ByteLen(a) != ByteLen(b) then ByteLen(a) < ByteLen(b) else Lex(a, b)
  }

  lemma {:induction false} LexTotal(a: string, b: string)
    ensures !(Lex(a, b) && Lex(b, a)) && (Lex(a, b) || Lex(b, a) || a == b) && !Lex(a, a)
  {
    if a != "" { LexTotal(a[1..], a[1..]); }
    if a != "" && b != "" && a[0] == b[0] {
      LexTotal(a[1..], b[1..]);
      if a[1..] == b[1..] { assert a == [a[0]] + a[1..] && b == [b[0]] + b[1..]; }
    }
  }

  lemma {:induction false} LexTransitive(a: string, b: string, c: string)
    requires Lex(a, b) && Lex(b, c)
    ensures Lex(a, c)
  {
    if a != "" && a[0] == b[0] && b[0] == c[0] { LexTransitive(a[1..], b[1..], c[1..]); }
  }

  lemma LessTotal(byLength: bool, a: string, b: string)
    ensures !(Less(byLength, a, b) && Less(byLength, b, a)) && (Less(byLength, a, b) || Less(byLength, b, a) || a == b)
  {
    LexTotal(a, b);
  }

  /** Not after: the order a sort leaves neighbours in. */
  predicate AtMost(byLength: bool, a: string, b: string) {
    !Less(byLength, b, a)
  }

  lemma AtMostTransitive(byLength: bool, a: string, b: string, c: string)
    requires AtMost(byLength, a, b) && AtMost(byLength, b, c)
    ensures AtMost(byLength, a, c)
  {
    LexTotal(a, b);
    LexTotal(b, c);
    LexTotal(c, a);
    if Lex(c, a) && Lex(a, b) { LexTransitive(c, a, b); }
    if Lex(b, c) && Lex(c, a) { LexTransitive(b, c, a); }
  }

  predicate Sorted(byLength: bool, s: seq<string>) {
    forall i, j :: 0 <= i < j < |s| ==> AtMost(byLength, s[i], s[j])
  }

  function Insert(byLength: bool, x: string, s: seq<string>): seq<string> {
    if s == [] || !Less(byLength, s[0], x) then [x] + s else [s[0]] + Insert(byLength, x, s[1..])
  }

  function Sort(byLength: bool, s: seq<string>): seq<string> {
    if s == [] then [] else Insert(byLength, s[0], Sort(byLength, s[1..]))
  }

  lemma {:induction false} InsertKeeps(byLength: bool, x: string, s: seq<string>)
    ensures multiset(Insert(byLength, x, s)) == multiset(s) + multiset{x}
  {
    if s != [] && Less(byLength, s[0], x) {
      InsertKeeps(byLength, x, s[1..]);
      assert s == [s[0]] + s[1..];
    }
  }

  /** Every element of s is at or after x. */
  predicate Below(byLength: bool, x: string, s: seq<string>) {
    forall y :: y in s ==> AtMost(byLength, x, y)
  }

  lemma SortedCons(byLength: bool, x: string, s: seq<string>)
    requires Sorted(byLength, s) && Below(byLength, x, s)
    ensures Sorted(byLength, [x] + s)
  {
    var t := [x] + s;
    forall i, j | 0 <= i < j < |t| ensures AtMost(byLength, t[i], t[j]) {
      assert t[j] == s[j - 1] && s[j - 1] in s;
    }
  }

  lemma SortedHead(byLength: bool, s: seq<string>)
    requires Sorted(byLength, s) && s != []
    ensures Below(byLength, s[0], s) && Sorted(byLength, s[1..])
  {
    forall y | y in s ensures AtMost(byLength, s[0], y) {
      LessTotal(byLength, y, y);
    }
  }

  lemma BelowLess(byLength: bool, x: string, y: string, s: seq<string>)
    requires AtMost(byLength, x, y) && Below(byLength, y, s)
    ensures Below(byLength, x, s)
  {
    forall z | z in s ensures AtMost(byLength, x, z) { AtMostTransitive(byLength, x, y, z); }
  }

  lemma {:induction false} InsertSorts(byLength: bool, x: string, s: seq<string>)
    requires Sorted(byLength, s)
    ensures Sorted(byLength, Insert(byLength, x, s))
  {
    if s == [] {
    } else if !Less(byLength, s[0], x) {
      SortedHead(byLength, s);
      BelowLess(byLength, x, s[0], s);
      SortedCons(byLength, x, s);
    } else {
      SortedHead(byLength, s);
      InsertSorts(byLength, x, s[1..]);
      LessTotal(byLength, s[0], x);
      InsertKeeps(byLength, x, s[1..]);
      var r := Insert(byLength, x, s[1..]);
      forall y | y in r ensures AtMost(byLength, s[0], y) {
        assert y in multiset(r);
      }
      SortedCons(byLength, s[0], r);
    }
  }

  lemma {:induction false} SortCorrect(byLength: bool, s: seq<string>)
    ensures Sorted(byLength, Sort(byLength, s)) && multiset(Sort(byLength, s)) == multiset(s)
  {
    if s != [] {
      SortCorrect(byLength, s[1..]);
      InsertSorts(byLength, s[0], Sort(byLength, s[1..]));
      InsertKeeps(byLength, s[0], Sort(byLength, s[1..]));
      assert s == [s[0]] + s[1..];
    }
  }

  lemma TailMultiset(a: seq<string>)
    requires a != []
    ensures multiset(a[1..]) == multiset(a) - multiset{a[0]}
  {
    assert a == [a[0]] + a[1..];
  }

  lemma SameHead(byLength: bool, a: seq<string>, b: seq<string>)
    requires Sorted(byLength, a) && Sorted(byLength, b) && a != [] && b != [] && a[0] in b && b[0] in a
    ensures a[0] == b[0]
  {
    SortedHead(byLength, a);
    SortedHead(byLength, b);
    LessTotal(byLength, a[0], b[0]);
  }

  lemma {:induction false} SortedUnique(byLength: bool, a: seq<string>, b: seq<string>)
    requires Sorted(byLength, a) && Sorted(byLength, b) && multiset(a) == multiset(b)
    ensures a == b
  {
    assert |a| == |multiset(a)| == |multiset(b)| == |b|;
    if a != [] {
      assert a[0] in multiset(a) && b[0] in multiset(b);
      SameHead(byLength, a, b);
      TailMultiset(a);
      TailMultiset(b);
      SortedUnique(byLength, a[1..], b[1..]);
      assert a == [a[0]] + a[1..] && b == [b[0]] + b[1..];
    }
  }

  /** The order in which the elements come does not matter. */
  lemma SortOrderIrrelevant(byLength: bool, a: seq<string>, b: seq<string>)
    ensures Sort(byLength, a) == Sort(byLength, b) <==> multiset(a) == multiset(b)
  {
    SortCorrect(byLength, a);
    SortCorrect(byLength, b);
    if multiset(a) == multiset(b) { SortedUnique(byLength, Sort(byLength, a), Sort(byLength, b)); }
  }

  // ---------------------------------------------------------------- a map's keys

  /** ks lists s, each element once. */
  predicate Lists(ks: seq<string>, s: set<string>) {
    multiset(ks) == multiset(s)
  }

  lemma {:induction false} Listable(s: set<string>)
    ensures exists ks :: Lists(ks, s)
    decreases |s|
  {
    if s == {} {
      assert Lists([], s);
    } else {
      var x :| x in s;
      Listable(s - {x});
      var ks :| Lists(ks, s - {x});
      assert Lists([x] + ks, s);
    }
  }

  lemma SortedKeysExist(s: set<string>)
    ensures exists ks :: Sorted(true, ks) && Lists(ks, s)
  {
    Listable(s);
    var ks :| Lists(ks, s);
    SortCorrect(true, ks);
    assert Sorted(true, Sort(true, ks)) && Lists(Sort(true, ks), s);
  }

  /** The keys of an object in canonical order. */
  ghost function SortedKeys(s: set<string>): (ks: seq<string>)
    ensures Sorted(true, ks) && Lists(ks, s)
  {
    SortedKeysExist(s);
    var ks :| Sorted(true, ks) && Lists(ks, s);
    ks
  }

  lemma ListsMember(ks: seq<string>, s: set<string>, k: string)
    requires Lists(ks, s)
    ensures k in ks <==> k in s
  {
    assert k in ks <==> k in multiset(ks);
  }

  /** However a map's keys are listed, sorting them gives the canonical order. */
  lemma AnyListing(ks: seq<string>, s: set<string>)
    requires Lists(ks, s)
    ensures Sort(true, ks) == SortedKeys(s)
  {
    SortCorrect(true, ks);
    SortedUnique(true, Sort(true, ks), SortedKeys(s));
  }
}
