/**
 The privacy audit ledger's hash chain (packages/privacyaudit/canonical.go). The hash is any function;
 what is proved holds of SHA-256 up to an exhibited collision.
 */
module PrivacyAudit {
  import opened Prelude
  import opened JsonNumber
  import opened TextOrder
  import opened JsonbText

  /** The first entry's previous hash: sixty-four zeros. */
  const GENESIS := Zeros(64)

  /** A UTC instant in calendar fields, nanoseconds within the second. */
  datatype Stamp = Stamp(year: int, month: nat, day: nat, hour: nat, minute: nat, second: nat, nanos: nat)

  datatype Entry = Entry(
    orgId: string, seqNo: int, prevHash: string, actor: Option<string>, action: string, purpose: string,
    policyResult: string, objectType: string, objectId: string, fields: seq<string>, approvalRef: string,
    beforeHash: string, afterHash: string, correlationId: string, requestId: string, payload: Json,
    createdAt: Stamp, rowHash: string)

  // ---------------------------------------------------------------- timestamps

  predicate StampOk(t: Stamp) {
    t.month < 100 && t.day < 100 && t.hour < 100 && t.minute < 100 && t.second < 100 && t.nanos < 1_000_000_000
  }

  lemma {:induction false} PadMeans(n: nat, width: nat)
    requires n < Pow10(width)
    ensures |Pad(n, width)| == width && AllDigits(Pad(n, width)) && NumOf(Pad(n, width)) == n
  {
    if width > 0 {
      PadMeans(n / 10, width - 1);
      var p := Pad(n / 10, width - 1);
      assert (p + [('0' as int + n % 10) as char])[..|p|] == p;
    }
  }

  lemma PadDetermined(m: nat, x: string, n: nat, y: string, width: nat)
    requires m < Pow10(width) && n < Pow10(width) && Pad(m, width) + x == Pad(n, width) + y
    ensures m == n && x == y
  {
    PadMeans(m, width);
    PadMeans(n, width);
    SameLength(Pad(m, width), x, Pad(n, width), y);
  }

  function YearSign(y: int): string {
    if y < 0 then "-" else ""
  }

  /** A year in at least four digits, after a sign if it is negative. */
  function YearText(y: int): string {
    YearSign(y) + YearDigits(if y < 0 then -y else y)
  }

  function YearDigits(n: nat): string {
    if n < 10000 then Pad(n, 4) else NatText(n)
  }

  lemma YearDigitsMean(n: nat)
    ensures YearDigits(n) != "" && AllDigits(YearDigits(n)) && NumOf(YearDigits(n)) == n
  {
    Powers();
    if n < 10000 { PadMeans(n, 4); } else { NatTextMeans(n); }
  }

  /** The first dash ends the digits. */
  lemma DigitsEnd(u: string, x: string, v: string, y: string)
    requires AllDigits(u) && AllDigits(v) && u + ("-" + x) == v + ("-" + y)
    ensures |u| >= |v|
  {
    if |u| < |v| {
      assert (u + ("-" + x))[|u|] == '-';
      assert v[|u|] == '-';
      DigitAt(v, |u|);
    }
  }

  lemma DigitsDetermined(u: string, x: string, v: string, y: string)
    requires AllDigits(u) && AllDigits(v) && u + ("-" + x) == v + ("-" + y)
    ensures u == v && x == y
  {
    DigitsEnd(u, x, v, y);
    DigitsEnd(v, y, u, x);
    SameLength(u, "-" + x, v, "-" + y);
    Cons('-', x, '-', y);
  }

  lemma SignDetermined(p: string, x: string, q: string, y: string)
    requires (p == "" || p == "-") && (q == "" || q == "-") && x != "" && y != "" && x[0] != '-' && y[0] != '-'
    requires p + x == q + y
    ensures p == q && x == y
  {
    if p == "-" {
      assert (q + y)[0] == '-';
      Cons('-', x, '-', y);
    } else {
      assert (q + y)[0] == x[0];
      assert p + x == x && q + y == y;
    }
  }

  lemma YearDetermined(a: int, x: string, b: int, y: string)
    requires YearText(a) + ("-" + x) == YearText(b) + ("-" + y)
    ensures a == b && x == y
  {
    var m, n := if a < 0 then -a else a, if b < 0 then -b else b;
    YearDigitsMean(m);
    YearDigitsMean(n);
    SignedDigits(YearSign(a), YearDigits(m), x, YearSign(b), YearDigits(n), y);
  }

  lemma SignedDigits(p: string, u: string, x: string, q: string, v: string, y: string)
    requires (p == "" || p == "-") && (q == "" || q == "-") && u != "" && v != "" && AllDigits(u) && AllDigits(v)
    requires (p + u) + ("-" + x) == (q + v) + ("-" + y)
    ensures p == q && u == v && x == y
  {
    DigitAt(u, 0);
    DigitAt(v, 0);
    assert (p + u) + ("-" + x) == p + (u + ("-" + x)) && (q + v) + ("-" + y) == q + (v + ("-" + y));
    SignDetermined(p, u + ("-" + x), q, v + ("-" + y));
    DigitsDetermined(u, x, v, y);
  }

  function ClockText(t: Stamp): string {
    Pad(t.hour, 2) + (":" + (Pad(t.minute, 2) + (":" + (Pad(t.second, 2) + ("." + (Pad(t.nanos / 1000, 6) + "Z"))))))
  }

  function StampText(t: Stamp): string {
    YearText(t.year) + ("-" + (Pad(t.month, 2) + ("-" + (Pad(t.day, 2) + ("T" + ClockText(t))))))
  }

  lemma Powers()
    ensures Pow10(2) == 100 && Pow10(4) == 10000 && Pow10(6) == 1_000_000
  {
    assert Pow10(1) == 10;
    assert Pow10(3) == 1000;
    assert Pow10(5) == 100_000;
  }

  lemma ClockDetermined(a: Stamp, b: Stamp)
    requires StampOk(a) && StampOk(b) && ClockText(a) == ClockText(b)
    ensures a.hour == b.hour && a.minute == b.minute && a.second == b.second && a.nanos / 1000 == b.nanos / 1000
  {
    Powers();
    var a3, b3 := Pad(a.nanos / 1000, 6) + "Z", Pad(b.nanos / 1000, 6) + "Z";
    var a2, b2 := Pad(a.second, 2) + ("." + a3), Pad(b.second, 2) + ("." + b3);
    var a1, b1 := Pad(a.minute, 2) + (":" + a2), Pad(b.minute, 2) + (":" + b2);
    PadDetermined(a.hour, ":" + a1, b.hour, ":" + b1, 2);
    Cons(':', a1, ':', b1);
    PadDetermined(a.minute, ":" + a2, b.minute, ":" + b2, 2);
    Cons(':', a2, ':', b2);
    PadDetermined(a.second, "." + a3, b.second, "." + b3, 2);
    Cons('.', a3, '.', b3);
    PadDetermined(a.nanos / 1000, "Z", b.nanos / 1000, "Z", 6);
  }

  /** Equal to the microsecond. */
  predicate SameMicros(a: Stamp, b: Stamp) {
    a.(nanos := a.nanos / 1000) == b.(nanos := b.nanos / 1000)
  }

  /** The text of a time determines it to the microsecond, in any year. */
  lemma StampDetermined(a: Stamp, b: Stamp)
    requires StampOk(a) && StampOk(b) && StampText(a) == StampText(b)
    ensures SameMicros(a, b)
  {
    Powers();
    var a2, b2 := Pad(a.day, 2) + ("T" + ClockText(a)), Pad(b.day, 2) + ("T" + ClockText(b));
    var a1, b1 := Pad(a.month, 2) + ("-" + a2), Pad(b.month, 2) + ("-" + b2);
    YearDetermined(a.year, a1, b.year, b1);
    PadDetermined(a.month, "-" + a2, b.month, "-" + b2, 2);
    Cons('-', a2, '-', b2);
    PadDetermined(a.day, "T" + ClockText(a), b.day, "T" + ClockText(b), 2);
    Cons('T', ClockText(a), 'T', ClockText(b));
    ClockDetermined(a, b);
  }

  // ---------------------------------------------------------------- one entry's hashed text

  function ActorText(actor: Option<string>): string {
    if actor.None? then "" else actor.value
  }

  function Strs(s: seq<string>): Json {
    Arr(seq(|s|, i requires 0 <= i < |s| => Str(s[i])))
  }

  function EntryItems(e: Entry): seq<Json> {
    [Str(e.orgId), Num(IntText(e.seqNo)), Str(e.prevHash), Str(ActorText(e.actor)), Str(e.action), Str(e.purpose),
     Str(e.policyResult), Str(e.objectType), Str(e.objectId), Strs(Sort(false, e.fields)), Str(e.approvalRef),
     Str(e.beforeHash), Str(e.afterHash), Str(e.correlationId), Str(e.requestId), e.payload,
     Str(StampText(e.createdAt))]
  }

  ghost function CanonicalText(fmt: Formatter, e: Entry): string {
    Text(fmt, Arr(EntryItems(e)))
  }

  /** As the decoder and the database leave an entry: number tokens are JSON numbers, the actor's text
      is not empty. */
  predicate EntryOk(e: Entry) {
    Decoded(e.payload) && StampOk(e.createdAt) && e.actor != Some("")
  }

  /** Integers are spelt in one way. */
  ghost predicate KeepsInts(fmt: Formatter) {
    forall n :: fmt(IntText(n)) == Some(IntText(n))
  }

  predicate Shaped(e: Entry, a: seq<Json>) {
    && |a| == 17 && a[1] == Num(IntText(e.seqNo)) && a[9] == Strs(Sort(false, e.fields)) && a[15] == e.payload
    && forall i :: 0 <= i < 17 && i != 1 && i != 9 && i != 15 ==> a[i].Str?
  }

  lemma EntryShaped(e: Entry)
    ensures Shaped(e, EntryItems(e))
  {
  }

  lemma ShapedDecoded(e: Entry, a: seq<Json>)
    requires EntryOk(e) && Shaped(e, a)
    ensures Decoded(Arr(a))
  {
    IntTextMeans(e.seqNo);
    assert Decoded(a[9]);
  }

  lemma EntryDecoded(e: Entry)
    requires EntryOk(e)
    ensures Decoded(Arr(EntryItems(e)))
  {
    EntryShaped(e);
    ShapedDecoded(e, EntryItems(e));
  }

  lemma ShapedPrintable(fmt: Formatter, e: Entry, a: seq<Json>)
    requires KeepsInts(fmt) && Shaped(e, a)
    ensures Printable(fmt, Arr(a)) <==> Printable(fmt, e.payload)
  {
    IntTextMeans(e.seqNo);
    assert fmt(IntText(e.seqNo)).Some?;
    assert Printable(fmt, a[9]);
  }

  lemma EntryPrintable(fmt: Formatter, e: Entry)
    requires KeepsInts(fmt)
    ensures Printable(fmt, Arr(EntryItems(e))) <==> Printable(fmt, e.payload)
  {
    EntryShaped(e);
    ShapedPrintable(fmt, e, EntryItems(e));
  }

  /** The two entries agree in everything that is hashed: all fields, the field names in any order, the
      payload up to the spelling of numbers, the time to the microsecond. */
  predicate SameEntry(fmt: Formatter, e: Entry, f: Entry) {
    && e.orgId == f.orgId && e.seqNo == f.seqNo && e.prevHash == f.prevHash && e.actor == f.actor
    && e.action == f.action && e.purpose == f.purpose && e.policyResult == f.policyResult
    && e.objectType == f.objectType && e.objectId == f.objectId
    && multiset(e.fields) == multiset(f.fields) && e.approvalRef == f.approvalRef && e.beforeHash == f.beforeHash
    && e.afterHash == f.afterHash && e.correlationId == f.correlationId && e.requestId == f.requestId
    && Same(fmt, e.payload, f.payload) && SameMicros(e.createdAt, f.createdAt)
  }

  lemma StrsDetermined(fmt: Formatter, s: seq<string>, t: seq<string>)
    requires Same(fmt, Strs(s), Strs(t))
    ensures s == t
  {
    var a, b := Strs(s).items, Strs(t).items;
    forall i | 0 <= i < |s| ensures s[i] == t[i] { assert Same(fmt, a[i], b[i]); }
  }

  lemma IntDetermined(fmt: Formatter, m: int, n: int)
    requires KeepsInts(fmt) && Same(fmt, Num(IntText(m)), Num(IntText(n)))
    ensures m == n
  {
    IntTextMeans(m);
    IntTextMeans(n);
    assert NumText(fmt, IntText(m)) == IntText(m) && NumText(fmt, IntText(n)) == IntText(n);
  }

  /** The i-th items of two arrays with the same text. */
  lemma StrItem(fmt: Formatter, a: seq<Json>, b: seq<Json>, i: nat)
    requires Same(fmt, Arr(a), Arr(b)) && i < |a| && i < |b| && a[i].Str?
    ensures a[i] == b[i]
  {
    assert Same(fmt, a[i], b[i]);
  }

  lemma FirstFieldsAgree(fmt: Formatter, e: Entry, f: Entry)
    requires Same(fmt, Arr(EntryItems(e)), Arr(EntryItems(f)))
    ensures e.orgId == f.orgId && e.prevHash == f.prevHash && ActorText(e.actor) == ActorText(f.actor)
  {
    var a, b := EntryItems(e), EntryItems(f);
    StrItem(fmt, a, b, 0);
    StrItem(fmt, a, b, 2);
    StrItem(fmt, a, b, 3);
  }

  lemma ActionFieldsAgree(fmt: Formatter, e: Entry, f: Entry)
    requires Same(fmt, Arr(EntryItems(e)), Arr(EntryItems(f)))
    ensures e.action == f.action && e.purpose == f.purpose && e.policyResult == f.policyResult
  {
    var a, b := EntryItems(e), EntryItems(f);
    StrItem(fmt, a, b, 4);
    StrItem(fmt, a, b, 5);
    StrItem(fmt, a, b, 6);
  }

  lemma ObjectFieldsAgree(fmt: Formatter, e: Entry, f: Entry)
    requires Same(fmt, Arr(EntryItems(e)), Arr(EntryItems(f)))
    ensures e.objectType == f.objectType && e.objectId == f.objectId && e.approvalRef == f.approvalRef
  {
    var a, b := EntryItems(e), EntryItems(f);
    StrItem(fmt, a, b, 7);
    StrItem(fmt, a, b, 8);
    StrItem(fmt, a, b, 10);
  }

  lemma HashFieldsAgree(fmt: Formatter, e: Entry, f: Entry)
    requires Same(fmt, Arr(EntryItems(e)), Arr(EntryItems(f)))
    ensures e.beforeHash == f.beforeHash && e.afterHash == f.afterHash && e.correlationId == f.correlationId
  {
    var a, b := EntryItems(e), EntryItems(f);
    StrItem(fmt, a, b, 11);
    StrItem(fmt, a, b, 12);
    StrItem(fmt, a, b, 13);
  }

  lemma LastFieldsAgree(fmt: Formatter, e: Entry, f: Entry)
    requires Same(fmt, Arr(EntryItems(e)), Arr(EntryItems(f)))
    ensures e.requestId == f.requestId && StampText(e.createdAt) == StampText(f.createdAt)
    ensures Same(fmt, e.payload, f.payload)
  {
    var a, b := EntryItems(e), EntryItems(f);
    StrItem(fmt, a, b, 14);
    StrItem(fmt, a, b, 16);
    assert Same(fmt, a[15], b[15]);
  }

  lemma NumberAndNamesAgree(fmt: Formatter, e: Entry, f: Entry)
    requires KeepsInts(fmt) && Same(fmt, Arr(EntryItems(e)), Arr(EntryItems(f)))
    ensures e.seqNo == f.seqNo && multiset(e.fields) == multiset(f.fields)
  {
    var a, b := EntryItems(e), EntryItems(f);
    assert Same(fmt, a[1], b[1]) && Same(fmt, a[9], b[9]);
    IntDetermined(fmt, e.seqNo, f.seqNo);
    StrsDetermined(fmt, Sort(false, e.fields), Sort(false, f.fields));
    SortOrderIrrelevant(false, e.fields, f.fields);
  }

  lemma SameItemsSameEntry(fmt: Formatter, e: Entry, f: Entry)
    requires KeepsInts(fmt) && EntryOk(e) && EntryOk(f) && Same(fmt, Arr(EntryItems(e)), Arr(EntryItems(f)))
    ensures SameEntry(fmt, e, f)
  {
    FirstFieldsAgree(fmt, e, f);
    ActionFieldsAgree(fmt, e, f);
    ObjectFieldsAgree(fmt, e, f);
    HashFieldsAgree(fmt, e, f);
    LastFieldsAgree(fmt, e, f);
    NumberAndNamesAgree(fmt, e, f);
    StampDetermined(e.createdAt, f.createdAt);
  }

  /** The hashed text determines the entry. */
  lemma TextDeterminesEntry(fmt: Formatter, e: Entry, f: Entry)
    requires Plainly(fmt) && KeepsInts(fmt) && EntryOk(e) && EntryOk(f)
    requires Printable(fmt, e.payload) && Printable(fmt, f.payload) && CanonicalText(fmt, e) == CanonicalText(fmt, f)
    ensures SameEntry(fmt, e, f)
  {
    EntryPrintable(fmt, e);
    EntryPrintable(fmt, f);
    TextDecidesValue(fmt, Arr(EntryItems(e)), Arr(EntryItems(f)));
    SameItemsSameEntry(fmt, e, f);
  }

  lemma SameStrs(fmt: Formatter, s: seq<string>)
    ensures Same(fmt, Strs(s), Strs(s))
  {
  }

  lemma SameEntrySameItems(fmt: Formatter, e: Entry, f: Entry)
    requires SameEntry(fmt, e, f)
    ensures Same(fmt, Arr(EntryItems(e)), Arr(EntryItems(f)))
  {
    SortOrderIrrelevant(false, e.fields, f.fields);
    SameStrs(fmt, Sort(false, e.fields));
    assert StampText(e.createdAt) == StampText(f.createdAt);
    var a, b := EntryItems(e), EntryItems(f);
    assert a[9] == b[9] && a[15] == e.payload && b[15] == f.payload;
    forall i | 0 <= i < 17 ensures Same(fmt, a[i], b[i]) {
      if i != 9 && i != 15 { assert a[i] == b[i]; }
    }
  }

  /** Two entries are hashed from the same text if and only if they agree in everything that is hashed:
      neither the order of field names, nor that of a payload's keys, nor the spelling of a number with
      an exponent makes a difference, and everything else does. */
  lemma TextDecidesEntry(fmt: Formatter, e: Entry, f: Entry)
    requires Plainly(fmt) && KeepsInts(fmt) && EntryOk(e) && EntryOk(f)
    requires Printable(fmt, e.payload) && Printable(fmt, f.payload)
    ensures CanonicalText(fmt, e) == CanonicalText(fmt, f) <==> SameEntry(fmt, e, f)
  {
    if CanonicalText(fmt, e) == CanonicalText(fmt, f) { TextDeterminesEntry(fmt, e, f); }
    if SameEntry(fmt, e, f) {
      SameEntrySameItems(fmt, e, f);
      SameDecides(fmt, Arr(EntryItems(e)), Arr(EntryItems(f)), "");
    }
  }

  // ---------------------------------------------------------------- the chain

  type Hash = string -> string

  /** What is hashed for an entry, if it has a canonical text. */
  type Preimage = Entry -> Option<string>

  ghost function CanonicalOf(e: Entry): Option<string> {
    if Printable(Format, e.payload) then Some(CanonicalText(Format, e)) else None
  }

  /** text is the canonical text. */
  ghost predicate Renders(text: Preimage) {
    forall e {:trigger CanonicalOf(e)} :: text(e) == CanonicalOf(e)
  }

  /** Entry i carries the right number, its predecessor's hash and its own. */
  predicate Linked(es: seq<Entry>, i: nat, h: Hash, text: Preimage)
    requires i < |es|
  {
    && es[i].seqNo == i + 1 && es[i].prevHash == (if i == 0 then GENESIS else es[i - 1].rowHash)
    && text(es[i]).Some? && es[i].rowHash == h(text(es[i]).value)
  }

  predicate Accepted(es: seq<Entry>, h: Hash, text: Preimage) {
    forall i :: 0 <= i < |es| ==> Linked(es, i, h, text)
  }

  predicate AllOk(es: seq<Entry>) {
    forall i :: 0 <= i < |es| ==> EntryOk(es[i])
  }

  lemma FormatKeepsInts()
    ensures KeepsInts(Format)
  {
    forall n ensures Format(IntText(n)) == Some(IntText(n)) { IntTextMeans(n); }
  }

  method RowHash(e: Entry, h: Hash) returns (r: Option<string>)
    requires EntryOk(e)
    ensures r == match CanonicalOf(e) case None => None case Some(t) => Some(h(t))
  {
    FormatKeepsInts();
    EntryDecoded(e);
    EntryPrintable(Format, e);
    var b := new Builder();
    var ok := WriteJsonb(Format, b, Arr(EntryItems(e)));
    if !ok { return None; }
    assert "" + CanonicalText(Format, e) == CanonicalText(Format, e);
    r := Some(h(b.text));
  }

  /** The number, previous hash and row hash tests on entry i, where prev is the last entry's hash. */
  method CheckEntry(es: seq<Entry>, i: nat, prev: string, h: Hash, ghost text: Preimage) returns (ok: bool)
    requires Renders(text) && i < |es| && EntryOk(es[i]) && (i > 0 ==> prev == es[i - 1].rowHash)
    ensures ok == Linked(es, i, h, text)
  {
    var e := es[i];
    if e.seqNo != i + 1 { return false; }
    var wantPrev := if i > 0 then prev else GENESIS;
    if e.prevHash != wantPrev { return false; }
    var got := RowHash(e, h);
    ok := got.Some? && got.value == e.rowHash;
  }

  /** Walks the entries in order and reports the first that is not linked. */
  method VerifyChain(es: seq<Entry>, h: Hash, ghost text: Preimage) returns (broken: Option<nat>)
    requires Renders(text) && AllOk(es)
    ensures broken.None? <==> Accepted(es, h, text)
    ensures broken.Some? ==>
            broken.value < |es| && !Linked(es, broken.value, h, text) && Accepted(es[..broken.value], h, text)
  {
    var prev := "";
    for i := 0 to |es|
      invariant forall j :: 0 <= j < i ==> Linked(es, j, h, text)
      invariant i > 0 ==> prev == es[i - 1].rowHash
    {
      var ok := CheckEntry(es, i, prev, h, text);
      if !ok {
        PrefixLinked(es, i, h, text);
        return Some(i);
      }
      prev := es[i].rowHash;
    }
    broken := None;
  }

  /** Any beginning of an accepted ledger is accepted: cutting off the end is not detected without the
      last hash. */
  lemma PrefixLinked(es: seq<Entry>, n: nat, h: Hash, text: Preimage)
    requires n <= |es| && forall j :: 0 <= j < n ==> Linked(es, j, h, text)
    ensures Accepted(es[..n], h, text)
  {
    forall j | 0 <= j < n ensures Linked(es[..n], j, h, text) { assert Linked(es, j, h, text); }
  }

  predicate Collision(h: Hash, x: string, y: string) {
    x != y && h(x) == h(y)
  }

  predicate Collides(h: Hash, text: Preimage, e: Entry, f: Entry) {
    text(e).Some? && text(f).Some? && Collision(h, text(e).value, text(f).value)
  }

  ghost predicate SomeCollision(a: seq<Entry>, b: seq<Entry>, h: Hash, text: Preimage) {
    exists i, j :: 0 <= i < |a| && 0 <= j < |b| && Collides(h, text, a[i], b[j])
  }

  predicate SameLedger(fmt: Formatter, a: seq<Entry>, b: seq<Entry>) {
    |a| == |b| && forall i :: 0 <= i < |a| ==> SameEntry(fmt, a[i], b[i])
  }

  /** Entries with the same text are the same. */
  ghost predicate Determines(fmt: Formatter, text: Preimage) {
    forall e, f :: EntryOk(e) && EntryOk(f) && text(e).Some? && text(e) == text(f) ==> SameEntry(fmt, e, f)
  }

  lemma LastLinked(a: seq<Entry>, h: Hash, text: Preimage)
    requires Accepted(a, h, text) && a != []
    ensures Linked(a, |a| - 1, h, text) && Accepted(a[..|a| - 1], h, text)
  {
    PrefixLinked(a, |a| - 1, h, text);
  }

  lemma {:induction false} ChainFixed(fmt: Formatter, a: seq<Entry>, b: seq<Entry>, h: Hash, text: Preimage)
    requires Determines(fmt, text) && AllOk(a) && AllOk(b) && Accepted(a, h, text) && Accepted(b, h, text)
    requires a != [] && b != [] && a[|a| - 1].rowHash == b[|b| - 1].rowHash
    ensures SameLedger(fmt, a, b) || SomeCollision(a, b, h, text)
    decreases |a|
  {
    var m, n := |a| - 1, |b| - 1;
    LastLinked(a, h, text);
    LastLinked(b, h, text);
    if text(a[m]) != text(b[n]) {
      assert Collides(h, text, a[m], b[n]);
    } else {
      assert SameEntry(fmt, a[m], b[n]);
      if m > 0 {
        assert a[..m][m - 1] == a[m - 1] && b[..n][n - 1] == b[n - 1];
        ChainFixed(fmt, a[..m], b[..n], h, text);
        Extend(fmt, a, b, h, text);
      }
    }
  }

  lemma Extend(fmt: Formatter, a: seq<Entry>, b: seq<Entry>, h: Hash, text: Preimage)
    requires |a| == |b| > 0 && SameEntry(fmt, a[|a| - 1], b[|b| - 1])
    requires SameLedger(fmt, a[..|a| - 1], b[..|b| - 1]) || SomeCollision(a[..|a| - 1], b[..|b| - 1], h, text)
    ensures SameLedger(fmt, a, b) || SomeCollision(a, b, h, text)
  {
    var m := |a| - 1;
    if SameLedger(fmt, a[..m], b[..m]) {
      forall i | 0 <= i < |a| ensures SameEntry(fmt, a[i], b[i]) {
        if i < m { assert SameEntry(fmt, a[..m][i], b[..m][i]); }
      }
    } else {
      var i, j :| 0 <= i < m && 0 <= j < m && Collides(h, text, a[..m][i], b[..m][j]);
      assert Collides(h, text, a[i], b[j]);
    }
  }

  lemma CanonicalDetermines(text: Preimage)
    requires Renders(text)
    ensures Determines(Format, text)
  {
    FormatPlainly();
    FormatKeepsInts();
    forall e, f | EntryOk(e) && EntryOk(f) && text(e).Some? && text(e) == text(f) ensures SameEntry(Format, e, f) {
      assert text(e) == CanonicalOf(e) && text(f) == CanonicalOf(f);
      TextDeterminesEntry(Format, e, f);
    }
  }

  /** Two accepted ledgers that end in the same hash are the same ledger, entry by entry, or two of
      their hashed texts collide under the hash. So with the last hash kept, no entry of an accepted
      ledger can be altered, inserted, removed or reordered without exhibiting a collision. */
  lemma LastHashFixesLedger(a: seq<Entry>, b: seq<Entry>, h: Hash, text: Preimage)
    requires Renders(text) && AllOk(a) && AllOk(b) && Accepted(a, h, text) && Accepted(b, h, text)
    requires a != [] && b != [] && a[|a| - 1].rowHash == b[|b| - 1].rowHash
    ensures SameLedger(Format, a, b) || SomeCollision(a, b, h, text)
  {
    CanonicalDetermines(text);
    ChainFixed(Format, a, b, h, text);
  }
}
