/**
 PostgreSQL's jsonb text as the privacy audit writes it (packages/privacyaudit/canonical.go), and the
 proof that the text determines the value. Put(v, rest) is the text of v followed by rest.
 */
module JsonbText {
  import opened Prelude
  import opened JsonNumber
  import NumericText
  import opened TextOrder

  /** A decoded JSON value; numbers keep their text. */
  datatype Json =
    | Null
    | Bool(b: bool)
    | Num(text: string)
    | Str(s: string)
    | Arr(items: seq<Json>)
    | Obj(fields: map<string, Json>)

  // ---------------------------------------------------------------- strings

  predicate Short(c: char) {
    c == '\"' || c == '\\' || c == '\U{08}' || c == '\U{0c}' || c == '\n' || c == '\r' || c == '\t'
  }

  function Code(c: char): char
    requires Short(c)
  {
    if c == '\"' then '\"' else if c == '\\' then '\\' else if c == '\U{08}' then 'b' else if c == '\U{0c}' then 'f'
    else if c == '\n' then 'n' else if c == '\r' then 'r' else 't'
  }

  function Hex(n: nat): char
    requires n < 16
  {
    if n < 10 then ('0' as int + n) as char else ('a' as int + n - 10) as char
  }

  function EscChar(c: char): string {
    if Short(c) then ['\\', Code(c)]
    else if c < ' ' then ['\\', 'u', '0', '0', Hex(c as int / 16), Hex(c as int % 16)]
    else [c]
  }

  function PutEsc(s: string, rest: string): string {
    if s == [] then rest else EscChar(s[0]) + PutEsc(s[1..], rest)
  }

  // ---------------------------------------------------------------- values

  /** How numbers are spelt; the audit's own is JsonNumber.Format. */
  type Formatter = string -> Option<string>

  /** Canonical numbers are made of digits, signs and points. */
  ghost predicate Plainly(fmt: Formatter) {
    forall t :: Token(t) && fmt(t).Some? ==> PlainToken(fmt(t).value)
  }

  lemma FormatPlainly()
    ensures Plainly(Format)
  {
    forall t | Token(t) && Format(t).Some? ensures PlainToken(Format(t).value) { FormatChars(t); }
  }

  function NumText(fmt: Formatter, t: string): string {
    if fmt(t).Some? then fmt(t).value else ""
  }

  ghost function Put(fmt: Formatter, v: Json, rest: string): string
    decreases v, 1, 0
  {
    match v
    case Null => "null" + rest
    case Bool(b) => (if b then "true" else "false") + rest
    case Num(t) => NumText(fmt, t) + rest
    case Str(s) => "\"" + PutEsc(s, "\"" + rest)
    case Arr(a) => "[" + PutItems(fmt, a, true, rest)
    case Obj(m) => "{" + PutFields(fmt, v, SortedKeys(m.Keys), true, rest)
  }

  /** The items still to come and the closing bracket. */
  ghost function PutItems(fmt: Formatter, a: seq<Json>, first: bool, rest: string): string
    decreases a, 0, 0
  {
    if a == [] then "]" + rest
    else Sep(first) + Put(fmt, a[0], PutItems(fmt, a[1..], false, rest))
  }

  ghost function PutFields(fmt: Formatter, v: Json, ks: seq<string>, first: bool, rest: string): string
    requires v.Obj?
    decreases v, 0, |ks| + 1
  {
    if ks == [] then "}" + rest
    else if ks[0] !in v.fields then ""
    else Sep(first) + PutField(fmt, v, ks[0], PutFields(fmt, v, ks[1..], false, rest))
  }

  /** One key and its value. */
  ghost function PutField(fmt: Formatter, v: Json, k: string, rest: string): string
    requires v.Obj? && k in v.fields
    decreases v, 0, 0
  {
    "\"" + PutEsc(k, "\": " + Put(fmt, v.fields[k], rest))
  }

  /** A separator, or nothing before the first item. */
  function Sep(first: bool): string {
    if first then "" else ", "
  }

  ghost function Text(fmt: Formatter, v: Json): string {
    Put(fmt, v, "")
  }

  /** Every number is a JSON number token that has a canonical text; the writer fails on no other value. */
  predicate Printable(fmt: Formatter, v: Json) {
    match v
    case Num(t) => Token(t) && fmt(t).Some?
    case Arr(a) => forall i :: 0 <= i < |a| ==> Printable(fmt, a[i])
    case Obj(m) => forall k :: k in m ==> Printable(fmt, m[k])
    case _ => true
  }

  /** Equal but for the spelling of numbers, which have the same canonical text. */
  predicate Same(fmt: Formatter, v: Json, w: Json) {
    match v
    case Num(t) => w.Num? && NumText(fmt, t) == NumText(fmt, w.text)
    case Arr(a) => w.Arr? && |a| == |w.items| && forall i :: 0 <= i < |a| ==> Same(fmt, a[i], w.items[i])
    case Obj(m) => w.Obj? && m.Keys == w.fields.Keys && forall k :: k in m ==> Same(fmt, m[k], w.fields[k])
    case _ => v == w
  }

  /** w is v with every number in its canonical text. */
  predicate Spelled(fmt: Formatter, v: Json, w: Json) {
    match v
    case Num(t) => w == Num(NumText(fmt, t))
    case Arr(a) => w.Arr? && |a| == |w.items| && forall i :: 0 <= i < |a| ==> Spelled(fmt, a[i], w.items[i])
    case Obj(m) => w.Obj? && m.Keys == w.fields.Keys && forall k :: k in m ==> Spelled(fmt, m[k], w.fields[k])
    case _ => v == w
  }

  // ---------------------------------------------------------------- a parser

  datatype Parsed<T> = Bad | Got(value: T, rest: string)

  function UnHex(c: char): int {
    if '0' <= c <= '9' then c as int - '0' as int else if 'a' <= c <= 'f' then c as int - 'a' as int + 10 else -1
  }

  function UnCode(c: char): Option<char> {
    if c == '\"' then Some('\"') else if c == '\\' then Some('\\') else if c == 'b' then Some('\U{08}')
    else if c == 'f' then Some('\U{0c}') else if c == 'n' then Some('\n') else if c == 'r' then Some('\r')
    else if c == 't' then Some('\t') else None
  }

  /** One character of a string, escaped or not. */
  function ParseChar(s: string): (r: Parsed<char>)
    ensures r.Got? ==> |r.rest| < |s|
  {
    if s == "" then Bad
    else if s[0] != '\\' then Got(s[0], s[1..])
    else if |s| < 2 then Bad
    else if s[1] != 'u' then if UnCode(s[1]).Some? then Got(UnCode(s[1]).value, s[2..]) else Bad
    else if |s| < 6 || s[2] != '0' || s[3] != '0' || !(0 <= UnHex(s[4]) < 2) || UnHex(s[5]) < 0 then Bad
    else Got((16 * UnHex(s[4]) + UnHex(s[5])) as char, s[6..])
  }

  /** A string up to its closing quote. */
  function ParseString(s: string): (r: Parsed<string>)
    ensures r.Got? ==> |r.rest| < |s|
    decreases |s|
  {
    if s == "" then Bad
    else if s[0] == '\"' then Got("", s[1..])
    else
      var c := ParseChar(s);
      if c.Bad? then Bad
      else
        var more := ParseString(c.rest);
        if more.Bad? then Bad else Got([c.value] + more.value, more.rest)
  }

  /** The length of the number at the front. */
  function NumberLength(s: string): (n: nat)
    ensures n <= |s|
  {
    if s == "" || !PlainChar(s[0]) then 0 else 1 + NumberLength(s[1..])
  }

  predicate Starts(s: string, p: string) {
    |p| <= |s| && s[..|p|] == p
  }

  function ParseWord(s: string, word: string, v: Json): Parsed<Json> {
    if Starts(s, word) then Got(v, s[|word|..]) else Bad
  }

  function ParseValue(s: string): (r: Parsed<Json>)
    ensures r.Got? ==> |r.rest| < |s|
    decreases |s|, 1
  {
    if s == "" then Bad
    else if s[0] == 'n' then ParseWord(s, "null", Null)
    else if s[0] == 't' then ParseWord(s, "true", Bool(true))
    else if s[0] == 'f' then ParseWord(s, "false", Bool(false))
    else if s[0] == '\"' then
      var r := ParseString(s[1..]);
      if r.Bad? then Bad else Got(Str(r.value), r.rest)
    else if s[0] == '[' then
      var r := ParseItems(s[1..], true);
      if r.Bad? then Bad else Got(Arr(r.value), r.rest)
    else if s[0] == '{' then
      var r := ParseFields(s[1..], true);
      if r.Bad? then Bad else Got(Obj(r.value), r.rest)
    else
      var n := NumberLength(s);
      if n == 0 then Bad else Got(Num(s[..n]), s[n..])
  }

  function ParseItems(s: string, first: bool): (r: Parsed<seq<Json>>)
    ensures r.Got? ==> |r.rest| < |s|
    decreases |s|, 2
  {
    if s == "" then Bad
    else if s[0] == ']' then Got([], s[1..])
    else if !Starts(s, Sep(first)) then Bad
    else
      var v := ParseValue(s[|Sep(first)|..]);
      if v.Bad? then Bad
      else
        var more := ParseItems(v.rest, false);
        if more.Bad? then Bad else Got([v.value] + more.value, more.rest)
  }

  /** A key after its opening quote, the colon, and the value. */
  function ParseField(s: string): (r: Parsed<(string, Json)>)
    ensures r.Got? ==> |r.rest| < |s|
    decreases |s|, 2
  {
    var k := ParseString(s);
    if k.Bad? || !Starts(k.rest, ": ") then Bad
    else
      var v := ParseValue(k.rest[2..]);
      if v.Bad? then Bad else Got((k.value, v.value), v.rest)
  }

  function ParseFields(s: string, first: bool): (r: Parsed<map<string, Json>>)
    ensures r.Got? ==> |r.rest| < |s|
    decreases |s|, 2
  {
    if s == "" then Bad
    else if s[0] == '}' then Got(map[], s[1..])
    else if !Starts(s, Sep(first) + "\"") then Bad
    else
      var kv := ParseField(s[|Sep(first)| + 1..]);
      if kv.Bad? then Bad
      else
        var more := ParseFields(kv.rest, false);
        if more.Bad? then Bad else Got(more.value[kv.value.0 := kv.value.1], more.rest)
  }

  // ---------------------------------------------------------------- the parser undoes the printer

  lemma Cons(a: char, x: string, b: char, y: string)
    requires [a] + x == [b] + y
    ensures a == b && x == y
  {
    assert ([a] + x)[0] == a && ([b] + y)[0] == b && ([a] + x)[1..] == x && ([b] + y)[1..] == y;
  }

  lemma SameLength(p: string, x: string, q: string, y: string)
    requires p + x == q + y && |p| == |q|
    ensures p == q && x == y
  {
    assert (p + x)[..|p|] == p && (q + y)[..|q|] == q && (p + x)[|p|..] == x && (q + y)[|q|..] == y;
  }

  lemma StartsWith(p: string, x: string)
    ensures Starts(p + x, p) && (p + x)[|p|..] == x
  {
  }

  lemma CharReadBack(c: char, rest: string)
    ensures ParseChar(EscChar(c) + rest) == Got(c, rest) && (EscChar(c) + rest)[0] != '\"'
  {
    var s := EscChar(c) + rest;
    assert s[|EscChar(c)|..] == rest;
    if c < ' ' && !Short(c) {
      assert s[4] == Hex(c as int / 16) && s[5] == Hex(c as int % 16);
      assert UnHex(Hex(c as int / 16)) == c as int / 16 && UnHex(Hex(c as int % 16)) == c as int % 16;
    } else if Short(c) {
      assert s[1] == Code(c) && UnCode(Code(c)) == Some(c);
    }
  }

  lemma {:induction false} StringReadBack(s: string, rest: string)
    ensures ParseString(PutEsc(s, "\"" + rest)) == Got(s, rest)
  {
    if s == "" {
      assert ("\"" + rest)[1..] == rest;
    } else {
      CharReadBack(s[0], PutEsc(s[1..], "\"" + rest));
      StringReadBack(s[1..], rest);
      assert s == [s[0]] + s[1..];
    }
  }

  predicate Delimited(r: string) {
    r == "" || r[0] == ',' || r[0] == ']' || r[0] == '}'
  }

  lemma {:induction false} NumberReadBack(t: string, rest: string)
    requires AllPlain(t) && Delimited(rest)
    ensures NumberLength(t + rest) == |t|
  {
    if t == "" {
      assert t + rest == rest;
    } else {
      assert PlainChar(t[0]) && (t + rest)[0] == t[0] && (t + rest)[1..] == t[1..] + rest;
      NumberReadBack(t[1..], rest);
    }
  }

  lemma ItemsDelimited(fmt: Formatter, a: seq<Json>, rest: string)
    ensures Delimited(PutItems(fmt, a, false, rest))
  {
  }

  lemma FieldsDelimited(fmt: Formatter, v: Json, ks: seq<string>, rest: string)
    requires v.Obj?
    ensures Delimited(PutFields(fmt, v, ks, false, rest))
  {
  }

  /** The parser reads r back as v with its numbers in canonical text. */
  ghost predicate ReadsBack(fmt: Formatter, v: Json, r: Parsed<Json>, rest: string) {
    r.Got? && r.rest == rest && Spelled(fmt, v, r.value)
  }

  lemma NumReadsBack(fmt: Formatter, t: string, rest: string)
    requires Plainly(fmt) && Printable(fmt, Num(t)) && Delimited(rest)
    ensures ReadsBack(fmt, Num(t), ParseValue(Put(fmt, Num(t), rest)), rest)
  {
    var u := fmt(t).value;
    var s := u + rest;
    NumberReadBack(u, rest);
    assert PlainChar(u[0]) && s[0] == u[0];
    assert s[..|u|] == u && s[|u|..] == rest;
  }

  lemma WordReadsBack(fmt: Formatter, v: Json, rest: string)
    requires v.Null? || v.Bool?
    ensures ReadsBack(fmt, v, ParseValue(Put(fmt, v, rest)), rest)
  {
    StartsWith("null", rest);
    StartsWith("true", rest);
    StartsWith("false", rest);
  }

  lemma StrReadsBack(fmt: Formatter, x: string, rest: string)
    ensures ReadsBack(fmt, Str(x), ParseValue(Put(fmt, Str(x), rest)), rest)
  {
    StringReadBack(x, rest);
    StartsWith("\"", PutEsc(x, "\"" + rest));
  }

  lemma ArrReadsBack(fmt: Formatter, v: Json, rest: string)
    requires v.Arr? && ItemsReadBack(fmt, v.items, ParseItems(PutItems(fmt, v.items, true, rest), true), rest)
    ensures ReadsBack(fmt, v, ParseValue(Put(fmt, v, rest)), rest)
  {
    StartsWith("[", PutItems(fmt, v.items, true, rest));
  }

  lemma ObjReadsBack(fmt: Formatter, v: Json, ks: seq<string>, rest: string)
    requires v.Obj? && ks == SortedKeys(v.fields.Keys) && (forall k :: k in ks <==> k in v.fields)
    requires FieldsReadBack(fmt, v, ks, ParseFields(PutFields(fmt, v, ks, true, rest), true), rest)
    ensures ReadsBack(fmt, v, ParseValue(Put(fmt, v, rest)), rest)
  {
    StartsWith("{", PutFields(fmt, v, ks, true, rest));
  }

  /** What is printed, followed by a delimiter or by nothing, is read back. */
  lemma {:induction false} RoundTrip(fmt: Formatter, v: Json, rest: string)
    requires Plainly(fmt) && Printable(fmt, v) && Delimited(rest)
    ensures ReadsBack(fmt, v, ParseValue(Put(fmt, v, rest)), rest)
    decreases v, 2, 0
  {
    match v {
      case Num(t) => NumReadsBack(fmt, t, rest);
      case Str(x) => StrReadsBack(fmt, x, rest);
      case Arr(a) =>
        ItemsRoundTrip(fmt, a, true, rest);
        ArrReadsBack(fmt, v, rest);
      case Obj(m) =>
        KeysOf(v);
        FieldsRoundTrip(fmt, v, SortedKeys(m.Keys), true, rest);
        ObjReadsBack(fmt, v, SortedKeys(m.Keys), rest);
      case _ => WordReadsBack(fmt, v, rest);
    }
  }

  lemma PrintedHead(fmt: Formatter, v: Json, rest: string)
    requires Plainly(fmt) && Printable(fmt, v) && Delimited(rest)
    ensures Put(fmt, v, rest) != "" && Put(fmt, v, rest)[0] != ']' && Put(fmt, v, rest)[0] != ','
  {
    match v {
      case Num(t) => assert PlainChar(fmt(t).value[0]) && Put(fmt, v, rest)[0] == fmt(t).value[0];
      case Null => assert Put(fmt, v, rest)[0] == 'n';
      case Bool(b) => assert Put(fmt, v, rest)[0] == if b then 't' else 'f';
      case Str(_) => assert Put(fmt, v, rest)[0] == '\"';
      case Arr(_) => assert Put(fmt, v, rest)[0] == '[';
      case Obj(_) => assert Put(fmt, v, rest)[0] == '{';
    }
  }

  ghost predicate ItemsReadBack(fmt: Formatter, a: seq<Json>, r: Parsed<seq<Json>>, rest: string) {
    r.Got? && r.rest == rest && |r.value| == |a| && forall i :: 0 <= i < |a| ==> Spelled(fmt, a[i], r.value[i])
  }

  lemma {:induction false} ItemsRoundTrip(fmt: Formatter, a: seq<Json>, first: bool, rest: string)
    requires Plainly(fmt) && (forall i :: 0 <= i < |a| ==> Printable(fmt, a[i])) && Delimited(rest)
    ensures ItemsReadBack(fmt, a, ParseItems(PutItems(fmt, a, first, rest), first), rest)
    decreases a, 0, 0
  {
    if a == [] {
      assert ("]" + rest)[1..] == rest;
    } else {
      var more := PutItems(fmt, a[1..], false, rest);
      ItemsDelimited(fmt, a[1..], rest);
      RoundTrip(fmt, a[0], more);
      ItemsRoundTrip(fmt, a[1..], false, rest);
      PrintedHead(fmt, a[0], more);
      StartsWith(Sep(first), Put(fmt, a[0], more));
      var s := PutItems(fmt, a, first, rest);
      assert s[0] == if first then Put(fmt, a[0], more)[0] else ',';
      assert a == [a[0]] + a[1..];
    }
  }

  ghost predicate FieldsReadBack(fmt: Formatter, v: Json, ks: seq<string>, r: Parsed<map<string, Json>>, rest: string)
    requires v.Obj?
  {
    && r.Got? && r.rest == rest
    && (forall k :: k in r.value <==> k in ks)
    && forall k :: k in ks ==> k in v.fields && Spelled(fmt, v.fields[k], r.value[k])
  }

  lemma {:induction false} FieldRoundTrip(fmt: Formatter, v: Json, k: string, rest: string)
    requires Plainly(fmt) && v.Obj? && k in v.fields && Printable(fmt, v.fields[k]) && Delimited(rest)
    ensures PutField(fmt, v, k, rest) != "" && PutField(fmt, v, k, rest)[0] == '\"'
    ensures var r := ParseField(PutField(fmt, v, k, rest)[1..]);
            r.Got? && r.rest == rest && r.value.0 == k && Spelled(fmt, v.fields[k], r.value.1)
    decreases v, 0, 0
  {
    var x := Put(fmt, v.fields[k], rest);
    assert PutField(fmt, v, k, rest)[1..] == PutEsc(k, "\": " + x);
    assert "\": " + x == "\"" + (": " + x);
    StringReadBack(k, ": " + x);
    StartsWith(": ", x);
    RoundTrip(fmt, v.fields[k], rest);
  }

  lemma FieldsParse(fmt: Formatter, v: Json, ks: seq<string>, first: bool, rest: string, more: string, w: Json,
    tail: map<string, Json>)
    requires v.Obj? && ks != [] && ks[0] in v.fields && more == PutFields(fmt, v, ks[1..], false, rest)
    requires PutField(fmt, v, ks[0], more) != "" && PutField(fmt, v, ks[0], more)[0] == '\"'
    requires ParseField(PutField(fmt, v, ks[0], more)[1..]) == Got((ks[0], w), more)
    requires ParseFields(more, false) == Got(tail, rest)
    ensures ParseFields(PutFields(fmt, v, ks, first, rest), first) == Got(tail[ks[0] := w], rest)
  {
    FieldSplits(Sep(first), PutField(fmt, v, ks[0], more));
  }

  lemma {:induction false} FieldsRoundTrip(fmt: Formatter, v: Json, ks: seq<string>, first: bool, rest: string)
    requires Plainly(fmt) && v.Obj? && Delimited(rest)
    requires forall k :: k in ks ==> k in v.fields && Printable(fmt, v.fields[k])
    ensures FieldsReadBack(fmt, v, ks, ParseFields(PutFields(fmt, v, ks, first, rest), first), rest)
    decreases v, 0, |ks| + 1
  {
    if ks == [] {
      assert ("}" + rest)[1..] == rest;
    } else {
      var k, more := ks[0], PutFields(fmt, v, ks[1..], false, rest);
      FieldsDelimited(fmt, v, ks[1..], rest);
      FieldRoundTrip(fmt, v, k, more);
      FieldsRoundTrip(fmt, v, ks[1..], false, rest);
      var kv, tail := ParseField(PutField(fmt, v, k, more)[1..]).value, ParseFields(more, false).value;
      FieldsJoin(fmt, v, ks, tail, kv.1, rest);
      FieldsParse(fmt, v, ks, first, rest, more, kv.1, tail);
    }
  }

  lemma FieldsJoin(fmt: Formatter, v: Json, ks: seq<string>, tail: map<string, Json>, w: Json, rest: string)
    requires v.Obj? && ks != [] && ks[0] in v.fields && Spelled(fmt, v.fields[ks[0]], w)
    requires FieldsReadBack(fmt, v, ks[1..], Got(tail, rest), rest)
    ensures FieldsReadBack(fmt, v, ks, Got(tail[ks[0] := w], rest), rest)
  {
    assert ks == [ks[0]] + ks[1..];
  }

  lemma FieldSplits(sep: string, field: string)
    requires (sep == "" || sep == ", ") && field != "" && field[0] == '\"'
    ensures sep + field != "" && (sep + field)[0] != '}' && Starts(sep + field, sep + "\"")
    ensures (sep + field)[|sep| + 1..] == field[1..]
  {
    assert field == "\"" + field[1..];
    assert sep + field == sep + "\"" + field[1..];
  }

  // ---------------------------------------------------------------- and the value the text

  /** Values that differ only in the spelling of numbers have the same text. */
  lemma {:induction false} SameDecides(fmt: Formatter, v: Json, w: Json, rest: string)
    requires Same(fmt, v, w)
    ensures Put(fmt, v, rest) == Put(fmt, w, rest)
    decreases v, 2, 0
  {
    match v {
      case Arr(a) => SameDecidesItems(fmt, a, w.items, true, rest);
      case Obj(m) => SameDecidesFields(fmt, v, w, SortedKeys(m.Keys), true, rest);
      case _ =>
    }
  }

  lemma {:induction false} SameDecidesItems(fmt: Formatter, a: seq<Json>, b: seq<Json>, first: bool, rest: string)
    requires |a| == |b| && forall i :: 0 <= i < |a| ==> Same(fmt, a[i], b[i])
    ensures PutItems(fmt, a, first, rest) == PutItems(fmt, b, first, rest)
    decreases a, 0, 0
  {
    if a != [] {
      SameDecidesItems(fmt, a[1..], b[1..], false, rest);
      SameDecides(fmt, a[0], b[0], PutItems(fmt, a[1..], false, rest));
    }
  }

  lemma {:induction false} SameDecidesFields(fmt: Formatter, v: Json, w: Json, ks: seq<string>, first: bool,
    rest: string)
    requires v.Obj? && w.Obj? && v.fields.Keys == w.fields.Keys
    requires forall k :: k in v.fields ==> Same(fmt, v.fields[k], w.fields[k])
    ensures PutFields(fmt, v, ks, first, rest) == PutFields(fmt, w, ks, first, rest)
    decreases v, 0, |ks|
  {
    if ks != [] && ks[0] in v.fields {
      SameDecidesFields(fmt, v, w, ks[1..], false, rest);
      SameDecides(fmt, v.fields[ks[0]], w.fields[ks[0]], PutFields(fmt, v, ks[1..], false, rest));
    }
  }

  lemma {:induction false} SpelledAlike(fmt: Formatter, v: Json, w: Json, x: Json)
    requires Spelled(fmt, v, x) && Spelled(fmt, w, x)
    ensures Same(fmt, v, w)
  {
    match v {
      case Arr(a) =>
        forall i | 0 <= i < |a| ensures Same(fmt, a[i], w.items[i]) {
          SpelledAlike(fmt, a[i], w.items[i], x.items[i]);
        }
      case Obj(m) =>
        forall k | k in m ensures Same(fmt, m[k], w.fields[k]) {
          SpelledAlike(fmt, m[k], w.fields[k], x.fields[k]);
        }
      case _ =>
    }
  }

  /** Two values have the same canonical text if and only if they are equal up to the spelling of
      numbers. */
  lemma TextDecidesValue(fmt: Formatter, v: Json, w: Json)
    requires Plainly(fmt) && Printable(fmt, v) && Printable(fmt, w)
    ensures Text(fmt, v) == Text(fmt, w) <==> Same(fmt, v, w)
  {
    if Text(fmt, v) == Text(fmt, w) {
      RoundTrip(fmt, v, "");
      RoundTrip(fmt, w, "");
      SpelledAlike(fmt, v, w, ParseValue(Text(fmt, v)).value);
    }
    if Same(fmt, v, w) { SameDecides(fmt, v, w, ""); }
  }

  /** What number text denotes; the audit's own is NumericText.Value. */
  type Valuation = string -> Option<real>

  predicate KeepsValue(fmt: Formatter, value: Valuation, t: string) {
    fmt(t).Some? ==> value(fmt(t).value) == value(t)
  }

  /** Equal but for numbers, and those denote the same. */
  predicate Alike(value: Valuation, v: Json, w: Json) {
    match v
    case Num(t) => w.Num? && value(t) == value(w.text)
    case Arr(a) => w.Arr? && |a| == |w.items| && forall i :: 0 <= i < |a| ==> Alike(value, a[i], w.items[i])
    case Obj(m) => w.Obj? && m.Keys == w.fields.Keys && forall k :: k in m ==> Alike(value, m[k], w.fields[k])
    case _ => v == w
  }

  lemma {:induction false} SameAlike(fmt: Formatter, value: Valuation, v: Json, w: Json)
    requires (forall t :: KeepsValue(fmt, value, t)) && Printable(fmt, v) && Printable(fmt, w) && Same(fmt, v, w)
    ensures Alike(value, v, w)
    decreases v
  {
    match v {
      case Num(t) => assert KeepsValue(fmt, value, t) && KeepsValue(fmt, value, w.text);
      case Arr(a) =>
        forall i | 0 <= i < |a| ensures Alike(value, a[i], w.items[i]) { SameAlike(fmt, value, a[i], w.items[i]); }
      case Obj(m) =>
        forall k | k in m ensures Alike(value, m[k], w.fields[k]) { SameAlike(fmt, value, m[k], w.fields[k]); }
      case _ =>
    }
  }

  /** Values with the same text are equal, number for number: the spellings the canonical text identifies
      all denote the same number. */
  lemma SameTextAlike(v: Json, w: Json)
    requires Printable(Format, v) && Printable(Format, w) && Text(Format, v) == Text(Format, w)
    ensures Alike(NumericText.Value, v, w)
  {
    FormatPlainly();
    TextDecidesValue(Format, v, w);
    forall t ensures KeepsValue(Format, NumericText.Value, t) {
      if Format(t).Some? { NumericText.FormatKeepsValue(t, Format(t).value); }
    }
    SameAlike(Format, NumericText.Value, v, w);
  }

  // ---------------------------------------------------------------- text is written left to right

  lemma Assoc(a: string, b: string, c: string)
    ensures a + (b + c) == a + b + c
  {
  }

  lemma {:induction false} EscAppend(s: string, x: string, y: string)
    ensures PutEsc(s, x + y) == PutEsc(s, x) + y
  {
    if s != [] {
      EscAppend(s[1..], x, y);
      Assoc(EscChar(s[0]), PutEsc(s[1..], x), y);
    }
  }

  lemma KeysOf(v: Json)
    requires v.Obj?
    ensures forall k :: k in SortedKeys(v.fields.Keys) <==> k in v.fields
  {
    forall k ensures k in SortedKeys(v.fields.Keys) <==> k in v.fields {
      ListsMember(SortedKeys(v.fields.Keys), v.fields.Keys, k);
    }
  }

  lemma {:induction false} PutAppend(fmt: Formatter, v: Json, x: string, y: string)
    ensures Put(fmt, v, x + y) == Put(fmt, v, x) + y
    decreases v, 2, 0
  {
    match v {
      case Null => Assoc("null", x, y);
      case Bool(b) => Assoc(if b then "true" else "false", x, y);
      case Num(t) => Assoc(NumText(fmt, t), x, y);
      case Str(s) =>
        Assoc("\"", x, y);
        EscAppend(s, "\"" + x, y);
        Assoc("\"", PutEsc(s, "\"" + x), y);
      case Arr(a) =>
        ItemsAppend(fmt, a, true, x, y);
        Assoc("[", PutItems(fmt, a, true, x), y);
      case Obj(m) =>
        KeysOf(v);
        FieldsAppend(fmt, v, SortedKeys(m.Keys), true, x, y);
        Assoc("{", PutFields(fmt, v, SortedKeys(m.Keys), true, x), y);
    }
  }

  lemma {:induction false} ItemsAppend(fmt: Formatter, a: seq<Json>, first: bool, x: string, y: string)
    ensures PutItems(fmt, a, first, x + y) == PutItems(fmt, a, first, x) + y
    decreases a, 0, 0
  {
    if a == [] {
      Assoc("]", x, y);
    } else {
      ItemsAppend(fmt, a[1..], false, x, y);
      PutAppend(fmt, a[0], PutItems(fmt, a[1..], false, x), y);
      Assoc(Sep(first), Put(fmt, a[0], PutItems(fmt, a[1..], false, x)), y);
    }
  }

  lemma {:induction false} FieldsAppend(fmt: Formatter, v: Json, ks: seq<string>, first: bool, x: string, y: string)
    requires v.Obj? && forall k :: k in ks ==> k in v.fields
    ensures PutFields(fmt, v, ks, first, x + y) == PutFields(fmt, v, ks, first, x) + y
    decreases v, 0, |ks| + 1
  {
    if ks == [] {
      Assoc("}", x, y);
    } else {
      FieldsAppend(fmt, v, ks[1..], false, x, y);
      var more := PutFields(fmt, v, ks[1..], false, x);
      FieldAppend(fmt, v, ks[0], more, y);
      Assoc(Sep(first), PutField(fmt, v, ks[0], more), y);
    }
  }

  lemma {:induction false} FieldAppend(fmt: Formatter, v: Json, k: string, x: string, y: string)
    requires v.Obj? && k in v.fields
    ensures PutField(fmt, v, k, x + y) == PutField(fmt, v, k, x) + y
    decreases v, 0, 0
  {
    PutAppend(fmt, v.fields[k], x, y);
    var t := "\": " + Put(fmt, v.fields[k], x);
    Assoc("\": ", Put(fmt, v.fields[k], x), y);
    EscAppend(k, t, y);
    Assoc("\"", PutEsc(k, t), y);
  }

  // ---------------------------------------------------------------- the writer

  /** Number texts as the decoder leaves them. */
  predicate Decoded(v: Json) {
    match v
    case Num(t) => Token(t)
    case Arr(a) => forall i :: 0 <= i < |a| ==> Decoded(a[i])
    case Obj(m) => forall k :: k in m ==> Decoded(m[k])
    case _ => true
  }

  class Builder {
    var text: string

    constructor ()
      ensures text == ""
    {
      text := "";
    }

    method Write(s: string)
      modifies this
      ensures text == old(text) + s
    {
      text := text + s;
    }
  }

  method WriteString(b: Builder, s: string)
    modifies b
    ensures b.text == old(b.text) + "\"" + PutEsc(s, "\"")
  {
    b.Write("\"");
    ghost var start := b.text;
    for i := 0 to |s|
      invariant b.text + PutEsc(s[i..], "\"") == start + PutEsc(s, "\"")
    {
      Assoc(b.text, EscChar(s[i]), PutEsc(s[i..][1..], "\""));
      assert s[i..][1..] == s[i + 1..];
      b.Write(EscChar(s[i]));
    }
    assert s[|s|..] == [];
    b.Write("\"");
  }

  /** A map's keys in whatever order iteration yields them. */
  method ListKeys(s: set<string>) returns (ks: seq<string>)
    ensures Lists(ks, s)
  {
    var todo := s;
    ks := [];
    while todo != {}
      invariant todo <= s && multiset(ks) == multiset(s - todo)
    {
      var k :| k in todo;
      ghost var done := s - todo;
      assert s - (todo - {k}) == done + {k} && k !in done;
      assert multiset(done + {k}) == multiset(done) + multiset{k};
      ks, todo := ks + [k], todo - {k};
    }
    assert s - todo == s;
  }

  /** Writes the canonical text, and fails exactly on values with a number that has none. */
  method WriteJsonb(fmt: Formatter, b: Builder, v: Json) returns (ok: bool)
    requires Decoded(v)
    modifies b
    ensures ok == Printable(fmt, v)
    ensures ok ==> b.text == old(b.text) + Text(fmt, v)
    decreases v, 2, 0
  {
    match v {
      case Null =>
        b.Write("null");
        assert "null" + "" == "null";
        ok := true;
      case Bool(x) =>
        b.Write(if x then "true" else "false");
        assert "true" + "" == "true" && "false" + "" == "false";
        ok := true;
      case Num(t) =>
        var f := fmt(t);
        if f.None? { return false; }
        b.Write(f.value);
        assert f.value + "" == f.value;
        ok := true;
      case Str(s) =>
        Assoc(b.text, "\"", PutEsc(s, "\""));
        assert "\"" + "" == "\"";
        WriteString(b, s);
        ok := true;
      case Arr(_) => ok := WriteArray(fmt, b, v);
      case Obj(_) => ok := WriteObject(fmt, b, v);
    }
  }

  lemma Shift(t: string, sep: string, x: string, more: string, total: string)
    requires t + (sep + (x + more)) == total
    ensures t + sep + x + more == total
  {
  }

  method WriteArray(fmt: Formatter, b: Builder, v: Json) returns (ok: bool)
    requires v.Arr? && Decoded(v)
    modifies b
    ensures ok == Printable(fmt, v)
    ensures ok ==> b.text == old(b.text) + Text(fmt, v)
    decreases v, 1, 0
  {
    ghost var total := old(b.text) + Text(fmt, v);
    Assoc(b.text, "[", PutItems(fmt, v.items, true, ""));
    b.Write("[");
    var i := 0;
    while i < |v.items|
      invariant 0 <= i <= |v.items| && b.text + PutItems(fmt, v.items[i..], i == 0, "") == total
      invariant forall j :: 0 <= j < i ==> Printable(fmt, v.items[j])
    {
      ghost var before, more := b.text, PutItems(fmt, v.items[i + 1..], false, "");
      PutAppend(fmt, v.items[i], "", more);
      assert "" + more == more && v.items[i..][1..] == v.items[i + 1..];
      Shift(before, Sep(i == 0), Text(fmt, v.items[i]), more, total);
      if i > 0 { b.Write(", "); } else { assert before + "" == before; }
      ok := WriteJsonb(fmt, b, v.items[i]);
      if !ok { return; }
      i := i + 1;
    }
    assert v.items[i..] == [];
    b.Write("]");
    ok := true;
  }

  /** However the map yields its keys, they come out in canonical order. */
  method SortedMapKeys(m: map<string, Json>) returns (keys: seq<string>)
    ensures keys == SortedKeys(m.Keys) && forall k :: k in keys <==> k in m
  {
    var listed := ListKeys(m.Keys);
    keys := Sort(true, listed);
    AnyListing(listed, m.Keys);
    KeysOf(Obj(m));
  }

  method WriteObject(fmt: Formatter, b: Builder, v: Json) returns (ok: bool)
    requires v.Obj? && Decoded(v)
    modifies b
    ensures ok == Printable(fmt, v)
    ensures ok ==> b.text == old(b.text) + Text(fmt, v)
    decreases v, 1, 0
  {
    var keys := SortedMapKeys(v.fields);
    Assoc(b.text, "{", PutFields(fmt, v, keys, true, ""));
    b.Write("{");
    ok := WriteFields(fmt, b, v, keys);
  }

  method WriteFields(fmt: Formatter, b: Builder, v: Json, keys: seq<string>) returns (ok: bool)
    requires v.Obj? && Decoded(v) && forall k :: k in keys ==> k in v.fields
    modifies b
    ensures ok == forall k :: k in keys ==> Printable(fmt, v.fields[k])
    ensures ok ==> b.text == old(b.text) + PutFields(fmt, v, keys, true, "")
    decreases v, 0, 1
  {
    ghost var total := old(b.text) + PutFields(fmt, v, keys, true, "");
    var i := 0;
    assert keys[0..] == keys;
    while i < |keys|
      invariant 0 <= i <= |keys| && b.text + PutFields(fmt, v, keys[i..], i == 0, "") == total
      invariant forall j :: 0 <= j < i ==> Printable(fmt, v.fields[keys[j]])
    {
      ghost var before := b.text;
      if i > 0 { b.Write(", "); }
      ok := WriteField(fmt, b, v, keys[i]);
      if !ok { return; }
      FieldStep(fmt, v, keys, i, before, b.text, total);
      i := i + 1;
    }
    assert keys[i..] == [];
    b.Write("}");
    assert "}" + "" == "}";
    ok := true;
  }

  lemma FieldStep(fmt: Formatter, v: Json, keys: seq<string>, i: nat, before: string, after: string, total: string)
    requires v.Obj? && i < |keys| && keys[i] in v.fields
    requires before + PutFields(fmt, v, keys[i..], i == 0, "") == total
    requires after == (if i > 0 then before + ", " else before) + PutField(fmt, v, keys[i], "")
    ensures after + PutFields(fmt, v, keys[i + 1..], false, "") == total
  {
    var more := PutFields(fmt, v, keys[i + 1..], false, "");
    assert keys[i..][0] == keys[i] && keys[i..][1..] == keys[i + 1..];
    FieldAppend(fmt, v, keys[i], "", more);
    assert "" + more == more;
    Shift(before, Sep(i == 0), PutField(fmt, v, keys[i], ""), more, total);
    assert before + "" == before;
  }

  method WriteField(fmt: Formatter, b: Builder, v: Json, k: string) returns (ok: bool)
    requires v.Obj? && k in v.fields && Decoded(v)
    modifies b
    ensures ok == Printable(fmt, v.fields[k])
    ensures ok ==> b.text == old(b.text) + PutField(fmt, v, k, "")
    decreases v, 0, 0
  {
    WriteString(b, k);
    b.Write(": ");
    ok := WriteJsonb(fmt, b, v.fields[k]);
    FieldIs(old(b.text), k, Text(fmt, v.fields[k]));
  }

  lemma FieldIs(t: string, k: string, x: string)
    ensures t + "\"" + PutEsc(k, "\"") + ": " + x == t + ("\"" + PutEsc(k, "\": " + x))
  {
    assert "\": " + x == "\"" + (": " + x);
    EscAppend(k, "\"", ": " + x);
    Regroup(t, PutEsc(k, "\""), x);
  }

  lemma Regroup(t: string, k: string, x: string)
    ensures t + "\"" + k + ": " + x == t + ("\"" + (k + (": " + x)))
  {
  }
}
