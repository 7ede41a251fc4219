/**
 One evidence outbox row and the relay's checks on it (packages/evidenceoutbox/relay.go, types.go).
 The payload is the JSON value stored in the jsonb column; digests are parameters.
 */
module OutboxRow {
  import opened Prelude

  datatype Json =
    | JNull
    | JBool(b: bool)
    | JNum(n: int)
    | JStr(s: string)
    | JArr(items: seq<Json>)
    | JObj(fields: map<string, Json>)

  datatype Fence = Fence(resourceType: string, resourceId: string, resourceVersion: int)

  /** Identifiers are numbers, 0 is the nil identifier. */
  datatype Content = Content(
    id: nat, orgId: nat, eventId: nat, aggregateId: string, aggregateSeq: int, schemaVersion: string,
    eventType: string, payload: Json, digest: string, scheme: string)

  const UNCLASSIFIED := "unclassified"
  const METADATA := "metadata"
  const REDACTED := "redacted"
  const PROHIBITED := "prohibited"

  const JSONB_TEXT := "postgres-jsonb-text/v1"
  const JCS := "jcs/v1"

  // ---------------------------------------------------------------- reading the payload's metadata

  function StrField(m: map<string, Json>, key: string): Option<string> {
    if key !in m || m[key].JNull? then Some("") else if m[key].JStr? then Some(m[key].s) else None
  }

  function IntField(m: map<string, Json>, key: string): Option<int> {
    if key !in m || m[key].JNull? then Some(0)
    else if m[key].JNum? && -MAX_INT64 - 1 <= m[key].n <= MAX_INT64 then Some(m[key].n) else None
  }

  /** None when the field does not decode; Some(None) when it is absent or null. */
  function FenceField(m: map<string, Json>): Option<Option<Fence>> {
    if "tombstone_fence" !in m || m["tombstone_fence"].JNull? then Some(None)
    else if !m["tombstone_fence"].JObj? then None
    else
      var f := m["tombstone_fence"].fields;
      var t, i, v := StrField(f, "resource_type"), StrField(f, "resource_id"), IntField(f, "resource_version");
      if t.None? || i.None? || v.None? then None else Some(Some(Fence(t.value, i.value, v.value)))
  }

  function ParseMetadata(payload: Json): (string, Option<Fence>) {
    if !payload.JObj? then (UNCLASSIFIED, None)
    else
      var c, f := StrField(payload.fields, "redaction_class"), FenceField(payload.fields);
      if c.None? || f.None? then (UNCLASSIFIED, None)
      else (if c.value == "" then UNCLASSIFIED else c.value, f.value)
  }

  // ---------------------------------------------------------------- validation

  predicate FenceValid(f: Fence) {
    !Blank(f.resourceType) && !Blank(f.resourceId) && f.resourceVersion > 0
  }

  /** The two digests of a payload; the JCS one fails on payloads that do not canonicalize. */
  datatype Digests = Digests(jsonbText: Json -> string, jcs: Json -> Option<string>)

  predicate IsHex(c: char) {
    '0' <= c <= '9' || 'a' <= c <= 'f' || 'A' <= c <= 'F'
  }

  predicate IsHexDigest(s: string) {
    |s| == 64 && forall c :: c in s ==> IsHex(c)
  }

  function Fold(s: string): string {
    seq(|s|, i requires 0 <= i < |s| => if 'A' <= s[i] <= 'Z' then (s[i] as int + 32) as char else s[i])
  }

  function ExpectedDigest(c: Content, d: Digests): Option<string> {
    if c.scheme == JSONB_TEXT then Some(d.jsonbText(c.payload))
    else if c.scheme == JCS then d.jcs(c.payload)
    else None
  }

  predicate DigestValid(c: Content, d: Digests) {
    var actual, expected := TrimSpace(c.digest), ExpectedDigest(c, d);
    IsHexDigest(actual) && expected.Some? && Fold(actual) == Fold(expected.value)
  }

  predicate IdentityValid(c: Content) {
    && c.id != 0 && c.orgId != 0 && c.eventId != 0 && !Blank(c.aggregateId) && c.aggregateSeq > 0
    && !Blank(c.schemaVersion) && !Blank(c.eventType)
  }

  /** Why a row is not handed to the sink. */
  datatype Verdict = Valid(fence: Fence) | BadIdentity | BadClass | BadFence | BadPayload

  function Validate(c: Content, d: Digests): Verdict {
    var (cls, fence) := ParseMetadata(c.payload);
    if !IdentityValid(c) then BadIdentity
    else if cls != METADATA then BadClass
    else if fence.None? || !FenceValid(fence.value) then BadFence
    else if !DigestValid(c, d) then BadPayload
    else Valid(fence.value)
  }

  /** What the sink answers when it is asked. */
  datatype Sink = Accepts | Fails(permanent: bool)

  datatype Outcome = Delivers | Retries | Condemns

  /** One delivery attempt: the outcome, and the fence the sink was asked to check if it was asked. */
  function Attempt(c: Content, d: Digests, fenced: bool, sink: Sink): (Outcome, Option<Fence>) {
    match Validate(c, d)
    case Valid(fence) =>
      if !fenced then (Condemns, None)
      else if sink.Accepts? then (Delivers, Some(fence))
      else (if sink.permanent then Condemns else Retries, Some(fence))
    case BadClass => (Condemns, None)
    case BadFence => (Condemns, None)
    case _ => (Retries, None)
  }

  /** A payload whose class is not exactly metadata, or whose fence is missing or incomplete, is never
      shown to the sink, whatever the sink would say. */
  lemma NeverShownUnlessClassifiedAndFenced(c: Content, d: Digests, fenced: bool, sink: Sink)
    ensures Attempt(c, d, fenced, sink).1.Some? <==> fenced && Validate(c, d).Valid?
    ensures Attempt(c, d, fenced, sink).1.Some? ==>
              && ParseMetadata(c.payload) == (METADATA, Attempt(c, d, fenced, sink).1)
              && FenceValid(Attempt(c, d, fenced, sink).1.value) && DigestValid(c, d)
    ensures Attempt(c, d, fenced, sink).0 == Delivers ==> Attempt(c, d, fenced, sink).1.Some?
    ensures IdentityValid(c) && ParseMetadata(c.payload).0 != METADATA ==> Attempt(c, d, fenced, sink).0 == Condemns
  {
  }
}
