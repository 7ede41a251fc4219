/**
 Signed policy snapshots (packages/policysnapshot): what AuthService issues and what a verifier accepts.
 The canonical JSON text, the hash and the signature scheme are parameters with the properties stated
 here; times are nanoseconds since 1970, claims carry whole seconds.
 */
module PolicySnapshot {
  import opened Prelude
  import Binary64
  import JsonNumber
  import JsonbText

  const CONTRACT := "policy-snapshot.v1"
  const AUTHORITY := "AuthService"
  const RS256 := "RS256"
  const SECOND := 1_000_000_000
  const MUTATION_MAX_AGE := 30 * SECOND
  const READ_MAX_AGE := 60 * SECOND
  const SKEW := 5 * SECOND
  const DEFAULT_TTL := 60 * SECOND
  const MAX_PAYLOAD := 16 * 1024
  const TWO_53 := Binary64.TWO_53
  const MIN_KEY_BITS := 2048

  datatype Claims = Claims(
    contract: string, authority: string, orgId: string, subjectId: string, agentId: string, snapshotId: string,
    epoch: int, permissions: int, issuedAt: int, expiresAt: int, digest: string)

  datatype Envelope = Envelope(algorithm: string, keyId: string, payload: string, signature: string)

  // ---------------------------------------------------------------- text, hash and signature

  /** text is the canonical JSON of claims, number the integer it prints for an integer, canonical says
      whether text is canonical JSON, read is the claims decoder. */
  datatype Codec = Codec(
    number: int -> int, text: Claims -> string, canonical: string -> bool, read: string -> Option<Claims>,
    hash: string -> string)

  function Rounded(k: Codec, c: Claims): Claims {
    c.(epoch := k.number(c.epoch), permissions := k.number(c.permissions), issuedAt := k.number(c.issuedAt),
       expiresAt := k.number(c.expiresAt))
  }

  /** The decoder's fields are int64. */
  predicate Readable(c: Claims) {
    && JsonNumber.Int64(c.epoch) && JsonNumber.Int64(c.permissions)
    && JsonNumber.Int64(c.issuedAt) && JsonNumber.Int64(c.expiresAt)
  }

  predicate PrintsNumber(k: Codec, n: int) {
    k.number(n) == Binary64.Number(n)
  }

  /** The text depends on the printed claims alone, is canonical, and reads back as the printed claims. */
  predicate TextOk(k: Codec, c: Claims) {
    var t, r := k.text(c), Rounded(k, c);
    k.text(r) == t && k.canonical(t) && t != "" && k.read(t) == if Readable(r) then Some(r) else None
  }

  /** Integers are printed as canonical JSON prints them, and the text of any claims is as it should be. */
  ghost predicate CodecOk(k: Codec) {
    (forall n :: PrintsNumber(k, n)) && (forall c :: TextOk(k, c))
  }

  predicate PrintsInOrder(k: Codec, m: int, n: int) {
    m <= n ==> k.number(m) <= k.number(n)
  }

  ghost predicate NumbersOk(k: Codec) {
    && (forall n :: 0 <= n <= TWO_53 ==> k.number(n) == n) && k.number(TWO_53 + 1) == TWO_53
    && forall m, n :: PrintsInOrder(k, m, n)
  }

  lemma Numbers(k: Codec)
    requires forall n :: PrintsNumber(k, n)
    ensures NumbersOk(k)
  {
    forall n | 0 <= n <= TWO_53 ensures k.number(n) == n {
      assert PrintsNumber(k, n);
      Binary64.KeptUpTo(TWO_53);
    }
    forall m, n ensures PrintsInOrder(k, m, n) {
      assert PrintsNumber(k, m) && PrintsNumber(k, n);
      if m <= n { Binary64.NumberGrows(m, n); }
    }
    assert PrintsNumber(k, TWO_53 + 1);
    Binary64.FirstChanged();
  }

  /** key material is a number; sign uses the private half, valid the public one. */
  datatype Signing = Signing(sign: (nat, string) -> string, valid: (nat, string, string) -> bool)

  ghost predicate SigningOk(s: Signing) {
    forall key, p :: s.valid(key, p, s.sign(key, p)) && s.sign(key, p) != ""
  }

  // ---------------------------------------------------------------- claims

  predicate StructureOk(c: Claims) {
    && c.contract == CONTRACT && c.authority == AUTHORITY
    && !Blank(c.orgId) && !Blank(c.subjectId) && !Blank(c.snapshotId)
    && c.epoch >= 1 && c.permissions >= 0 && c.issuedAt > 0 && c.expiresAt > c.issuedAt
  }

  function Digest(k: Codec, c: Claims): string {
    k.hash(k.text(c.(digest := "")))
  }

  // ---------------------------------------------------------------- issuing

  datatype Issuer = Issuer(key: nat, keyId: string, epoch: int, ttl: int)

  datatype Scope = Scope(orgId: string, subjectId: string, agentId: string, permissions: int)

  /** A parsed RSA private key. */
  datatype PrivateKey = PrivateKey(material: nat, bits: nat)

  /** key is None if its text cannot be parsed. */
  datatype IssuerConfig = IssuerConfig(key: Option<PrivateKey>, keyId: string, epoch: int, authority: string, ttl: int)

  function ResolveTtl(ttl: int): Option<int> {
    var t := if ttl == 0 then DEFAULT_TTL else ttl;
    if t < SECOND then None else Some(t)
  }

  predicate IssuerOk(i: Issuer) {
    !Blank(i.keyId) && i.epoch >= 1 && i.ttl >= SECOND
  }

  /** An issuer is made exactly from a key of 2048 bits or more, a key id that is not blank, an epoch of at
      least one, no authority or the one that is supported, and no lifetime or one of a second or more. */
  function NewIssuer(g: IssuerConfig): (r: Option<Issuer>)
    ensures r.Some? <==>
            && g.key.Some? && g.key.value.bits >= MIN_KEY_BITS && !Blank(g.keyId) && g.epoch >= 1
            && (Blank(g.authority) || TrimSpace(g.authority) == AUTHORITY) && (g.ttl == 0 || g.ttl >= SECOND)
    ensures r.Some? ==> IssuerOk(r.value) && r.value.keyId == TrimSpace(g.keyId) && r.value.key == g.key.value.material
  {
    if g.key.None? || g.key.value.bits < MIN_KEY_BITS then None
    else if TrimSpace(g.keyId) == "" || g.epoch < 1 then None
    else
      var authority := if TrimSpace(g.authority) == "" then AUTHORITY else TrimSpace(g.authority);
      var ttl := ResolveTtl(g.ttl);
      if authority != AUTHORITY || ttl.None? then None
      else
        TrimTwice(g.keyId);
        Some(Issuer(g.key.value.material, TrimSpace(g.keyId), g.epoch, ttl.value))
  }

  function Unsealed(i: Issuer, now: int, id: string, p: Scope): Claims {
    Claims(CONTRACT, AUTHORITY, TrimSpace(p.orgId), TrimSpace(p.subjectId), TrimSpace(p.agentId), id, i.epoch,
           p.permissions, now / SECOND, (now + i.ttl) / SECOND, "")
  }

  function IssuedClaims(k: Codec, i: Issuer, now: int, id: string, p: Scope): Claims {
    var c := Unsealed(i, now, id, p);
    c.(digest := Digest(k, c))
  }

  function Issue(k: Codec, s: Signing, i: Issuer, now: int, id: string, p: Scope): Option<Envelope> {
    if !StructureOk(Unsealed(i, now, id, p)) then None
    else
      var payload := k.text(IssuedClaims(k, i, now, id, p));
      Some(Envelope(RS256, i.keyId, payload, s.sign(i.key, payload)))
  }

  /** A use of an issuer. */
  datatype Issuance = Issuance(issuer: Issuer, now: int, id: string, scope: Scope)

  function ClaimsOf(k: Codec, x: Issuance): Claims {
    IssuedClaims(k, x.issuer, x.now, x.id, x.scope)
  }

  function IssueOf(k: Codec, s: Signing, x: Issuance): Option<Envelope> {
    Issue(k, s, x.issuer, x.now, x.id, x.scope)
  }

  // ---------------------------------------------------------------- verifying

  datatype Class = Mutation | Read

  function MaxAge(cls: Class): int {
    if cls == Read then READ_MAX_AGE else MUTATION_MAX_AGE
  }

  datatype Verifier = Verifier(keys: map<string, nat>, minEpoch: int)

  datatype Outcome =
    | Accepted(claims: Claims)
    | Malformed
    | KeyUnknown
    | SignatureInvalid
    | OrgMismatch
    | AgentMismatch
    | Expired

  /** Go's difference of two times saturates at the int64 limits. */
  function Sub(a: int, b: int): int {
    if a - b > MAX_INT64 then MAX_INT64 else if a - b < -MAX_INT64 - 1 then -MAX_INT64 - 1 else a - b
  }

  predicate Fresh(c: Claims, now: int, cls: Class) {
    && !(c.issuedAt * SECOND > now + SKEW)
    && !(Sub(now, c.issuedAt * SECOND) > MaxAge(cls) + SKEW)
    && !(now > c.expiresAt * SECOND + SKEW)
  }

  function VerifyClaims(k: Codec, payload: string): Option<Claims> {
    if !k.canonical(payload) then None
    else
      var c := k.read(payload);
      if c.None? || !StructureOk(c.value) then None else c
  }

  function VerifyScope(k: Codec, v: Verifier, c: Claims, org: string, agent: string, now: int, cls: Class): Outcome {
    if org == "" || c.orgId != org then OrgMismatch
    else if agent != "" && c.agentId != agent then AgentMismatch
    else if c.digest != Digest(k, c) then SignatureInvalid
    else if c.epoch < v.minEpoch || !Fresh(c, now, cls) then Expired
    else Accepted(c)
  }

  function Verify(k: Codec, s: Signing, v: Verifier, e: Envelope, org: string, agent: string, now: int,
                  cls: Class): Outcome
  {
    if e.algorithm != RS256 || e.payload == "" || ByteLen(e.payload) > MAX_PAYLOAD || e.signature == "" then Malformed
    else if e.keyId !in v.keys then KeyUnknown
    else
      var c := VerifyClaims(k, e.payload);
      if c.None? then Malformed
      else if !s.valid(v.keys[e.keyId], e.payload, e.signature) then SignatureInvalid
      else VerifyScope(k, v, c.value, org, agent, now, cls)
  }

  // ---------------------------------------------------------------- results

  /** A lifetime of at least a second survives truncation to whole seconds. */
  lemma TtlOutlivesTruncation(now: int, ttl: int)
    requires ttl >= SECOND
    ensures (now + ttl) / SECOND > now / SECOND
  {
    var q := now / SECOND;
    assert now + ttl >= (q + 1) * SECOND;
  }

  /** Freshness is membership in one closed window of time. */
  lemma FreshExactly(c: Claims, now: int, cls: Class)
    ensures Fresh(c, now, cls) <==>
            && c.issuedAt * SECOND - SKEW <= now
            && now <= c.issuedAt * SECOND + MaxAge(cls) + SKEW
            && now <= c.expiresAt * SECOND + SKEW
  {
  }

  /** Whatever is accepted for a mutation is accepted for a read, with the same claims. */
  lemma MutationImpliesRead(k: Codec, s: Signing, v: Verifier, e: Envelope, org: string, agent: string, now: int)
    requires Verify(k, s, v, e, org, agent, now, Mutation).Accepted?
    ensures Verify(k, s, v, e, org, agent, now, Read) == Verify(k, s, v, e, org, agent, now, Mutation)
  {
  }

  /** An issuer fails only on a blank organization, subject or id, negative permissions, or a clock before
      the first second of 1970. */
  lemma IssuesExactly(k: Codec, s: Signing, i: Issuer, now: int, id: string, p: Scope)
    requires IssuerOk(i)
    ensures Issue(k, s, i, now, id, p).Some? <==>
            !Blank(p.orgId) && !Blank(p.subjectId) && !Blank(id) && p.permissions >= 0 && now >= SECOND
  {
    TtlOutlivesTruncation(now, i.ttl);
    TrimTwice(p.orgId);
    TrimTwice(p.subjectId);
  }

  lemma DigestOfRounded(k: Codec, c: Claims)
    requires CodecOk(k)
    ensures Digest(k, Rounded(k, c)) == Digest(k, c)
  {
    assert Rounded(k, c).(digest := "") == Rounded(k, c.(digest := ""));
    assert TextOk(k, c.(digest := ""));
  }

  lemma RoundedStructure(k: Codec, c: Claims)
    requires NumbersOk(k) && StructureOk(c)
    ensures Rounded(k, c).epoch >= 1 && Rounded(k, c).permissions >= 0 && Rounded(k, c).issuedAt > 0
    ensures StructureOk(Rounded(k, c)) <==> k.number(c.expiresAt) > k.number(c.issuedAt)
  {
    assert k.number(0) == 0 && k.number(1) == 1;
    assert PrintsInOrder(k, 1, c.epoch) && PrintsInOrder(k, 0, c.permissions) && PrintsInOrder(k, 1, c.issuedAt);
  }

  /** What the issued envelope's payload decodes to. */
  lemma IssuedReadsBack(k: Codec, i: Issuer, now: int, id: string, p: Scope)
    requires CodecOk(k) && StructureOk(Unsealed(i, now, id, p))
    ensures var c := IssuedClaims(k, i, now, id, p);
            var r := Rounded(k, c);
            && r.digest == Digest(k, r)
            && VerifyClaims(k, k.text(c)) == if Readable(r) && r.expiresAt > r.issuedAt then Some(r) else None
  {
    var c := IssuedClaims(k, i, now, id, p);
    Numbers(k);
    assert TextOk(k, c);
    DigestOfRounded(k, c);
    assert c.(digest := "") == Unsealed(i, now, id, p);
    RoundedStructure(k, c);
  }

  /** The verifier trusts the issuer's key under the issuer's key id. */
  predicate Trusts(v: Verifier, i: Issuer) {
    i.keyId in v.keys && v.keys[i.keyId] == i.key
  }

  /** The tests on well-formed claims r that come in an envelope with a valid signature. */
  predicate Passes(v: Verifier, r: Claims, org: string, agent: string, now: int, cls: Class) {
    && org != "" && r.orgId == org && (agent == "" || r.agentId == agent)
    && r.epoch >= v.minEpoch && Fresh(r, now, cls)
  }

  lemma SignedAcceptedExactly(
    k: Codec, s: Signing, v: Verifier, e: Envelope, r: Claims, org: string, agent: string, now: int, cls: Class)
    requires e.algorithm == RS256 && e.payload != "" && e.signature != "" && e.keyId in v.keys
    requires s.valid(v.keys[e.keyId], e.payload, e.signature) && r.digest == Digest(k, r)
    requires VerifyClaims(k, e.payload).Some? ==> VerifyClaims(k, e.payload) == Some(r)
    ensures var out := Verify(k, s, v, e, org, agent, now, cls);
            if ByteLen(e.payload) <= MAX_PAYLOAD && VerifyClaims(k, e.payload).Some? &&
              Passes(v, r, org, agent, now, cls)
            then out == Accepted(r) else !out.Accepted?
  {
  }

  /** An issued envelope is accepted by a verifier that holds the key exactly when its payload is within
      the size limit and survives decoding, organization and agent match, the epoch is high enough and
      the clock is in the window; and then the claims are the issued ones as printed by the text. */
  lemma IssuedAcceptedExactly(
    k: Codec, s: Signing, x: Issuance, v: Verifier, org: string, agent: string, now: int, cls: Class)
    requires CodecOk(k) && SigningOk(s) && Trusts(v, x.issuer) && IssueOf(k, s, x).Some?
    ensures var e := IssueOf(k, s, x).value;
            var r := Rounded(k, ClaimsOf(k, x));
            var out := Verify(k, s, v, e, org, agent, now, cls);
            if && ByteLen(e.payload) <= MAX_PAYLOAD && Readable(r) && r.expiresAt > r.issuedAt
               && Passes(v, r, org, agent, now, cls)
            then out == Accepted(r) else !out.Accepted?
  {
    IssuedReadsBack(k, x.issuer, x.now, x.id, x.scope);
    assert TextOk(k, ClaimsOf(k, x));
    SignedAcceptedExactly(k, s, v, IssueOf(k, s, x).value, Rounded(k, ClaimsOf(k, x)), org, agent, now, cls);
  }

  /** An issuance whose numbers are at most 2^53. */
  predicate Exact(x: Issuance) {
    x.issuer.epoch <= TWO_53 && x.scope.permissions <= TWO_53 && (x.now + x.issuer.ttl) / SECOND <= TWO_53
  }

  lemma ExactKept(k: Codec, x: Issuance)
    requires NumbersOk(k) && IssuerOk(x.issuer) && StructureOk(Unsealed(x.issuer, x.now, x.id, x.scope)) && Exact(x)
    ensures Rounded(k, ClaimsOf(k, x)) == ClaimsOf(k, x) && Readable(ClaimsOf(k, x))
  {
    TtlOutlivesTruncation(x.now, x.issuer.ttl);
  }

  /** The time whole seconds make of a time. */
  function WholeSeconds(t: int): int {
    t / SECOND * SECOND
  }

  /** From issue to the class age and the lifetime, in whole seconds, within five seconds. */
  predicate InWindow(x: Issuance, now: int, cls: Class) {
    && WholeSeconds(x.now) - SKEW <= now <= WholeSeconds(x.now) + MaxAge(cls) + SKEW
    && now <= WholeSeconds(x.now + x.issuer.ttl) + SKEW
  }

  lemma FreshInWindow(k: Codec, x: Issuance, now: int, cls: Class)
    ensures Fresh(ClaimsOf(k, x), now, cls) <==> InWindow(x, now, cls)
  {
    FreshExactly(ClaimsOf(k, x), now, cls);
  }

  lemma IssuedOrg(k: Codec, s: Signing, x: Issuance)
    requires IssueOf(k, s, x).Some?
    ensures TrimSpace(x.scope.orgId) != "" && Unsealed(x.issuer, x.now, x.id, x.scope).expiresAt > x.now / SECOND
  {
    TrimTwice(x.scope.orgId);
  }

  /** With numbers up to 2^53, in the caller's terms: the payload is within the size limit, the trimmed
      organization and agent are those asked for, the epoch is high enough, and the verifier's clock is
      in the window; and then the claims are the issued ones. */
  lemma ExactAcceptedExactly(
    k: Codec, s: Signing, x: Issuance, v: Verifier, org: string, agent: string, now: int, cls: Class)
    requires CodecOk(k) && SigningOk(s) && Trusts(v, x.issuer) && IssuerOk(x.issuer) && IssueOf(k, s, x).Some?
    requires Exact(x)
    ensures var e := IssueOf(k, s, x).value;
            var out := Verify(k, s, v, e, org, agent, now, cls);
            if && ByteLen(e.payload) <= MAX_PAYLOAD && org == TrimSpace(x.scope.orgId)
               && (agent == "" || agent == TrimSpace(x.scope.agentId)) && x.issuer.epoch >= v.minEpoch
               && InWindow(x, now, cls)
            then out == Accepted(ClaimsOf(k, x)) else !out.Accepted?
  {
    Numbers(k);
    ExactKept(k, x);
    IssuedOrg(k, s, x);
    FreshInWindow(k, x, now, cls);
    IssuedAcceptedExactly(k, s, x, v, org, agent, now, cls);
  }

  /** Each of the four integers is, of all integers that read as its double, the one canonical JSON
      prefers. */
  ghost predicate AllKept(c: Claims) {
    && c.epoch >= 0 && c.permissions >= 0 && c.issuedAt >= 0 && c.expiresAt >= 0
    && Binary64.Kept(c.epoch) && Binary64.Kept(c.permissions)
    && Binary64.Kept(c.issuedAt) && Binary64.Kept(c.expiresAt)
  }

  lemma RoundedSame(k: Codec, c: Claims)
    requires (forall n :: PrintsNumber(k, n)) && StructureOk(c)
    ensures Rounded(k, c) == c <==> AllKept(c)
  {
    NumberKept(k, c.epoch);
    NumberKept(k, c.permissions);
    NumberKept(k, c.issuedAt);
    NumberKept(k, c.expiresAt);
  }

  lemma NumberKept(k: Codec, n: nat)
    requires forall n :: PrintsNumber(k, n)
    ensures k.number(n) == n <==> Binary64.Kept(n)
  {
    assert PrintsNumber(k, n);
    Binary64.KeptExactly(n);
  }

  lemma AcceptedAsPrinted(
    k: Codec, s: Signing, x: Issuance, v: Verifier, org: string, agent: string, now: int, cls: Class, c: Claims)
    requires CodecOk(k) && SigningOk(s) && Trusts(v, x.issuer) && IssueOf(k, s, x).Some?
    requires Verify(k, s, v, IssueOf(k, s, x).value, org, agent, now, cls) == Accepted(c)
    ensures StructureOk(ClaimsOf(k, x)) && c == Rounded(k, ClaimsOf(k, x))
  {
    IssuedAcceptedExactly(k, s, x, v, org, agent, now, cls);
  }

  /** The accepted claims are the issued ones if and only if each of their integers is the one canonical
      JSON prefers. */
  lemma ClaimsKeptExactly(
    k: Codec, s: Signing, x: Issuance, v: Verifier, org: string, agent: string, now: int, cls: Class, c: Claims)
    requires CodecOk(k) && SigningOk(s) && Trusts(v, x.issuer) && IssueOf(k, s, x).Some?
    requires Verify(k, s, v, IssueOf(k, s, x).value, org, agent, now, cls) == Accepted(c)
    ensures c == ClaimsOf(k, x) <==> AllKept(ClaimsOf(k, x))
  {
    AcceptedAsPrinted(k, s, x, v, org, agent, now, cls, c);
    RoundedSame(k, ClaimsOf(k, x));
  }

  function WithPermissions(x: Issuance, q: int): Issuance {
    x.(scope := x.scope.(permissions := q))
  }

  /** Issued with permissions q, what a verifier that asks for the issued organization at the time of
      issue returns. */
  function Returned(k: Codec, s: Signing, x: Issuance, v: Verifier, q: int): Option<Outcome> {
    var e := IssueOf(k, s, WithPermissions(x, q));
    if e.None? then None
    else Some(Verify(k, s, v, e.value, TrimSpace(x.scope.orgId), "", x.now, Read))
  }

  lemma PermissionsRounded(k: Codec, x: Issuance, q: int)
    requires CodecOk(k) && IssuerOk(x.issuer) && StructureOk(Unsealed(x.issuer, x.now, x.id, x.scope)) && Exact(x)
    requires 0 <= q <= TWO_53 + 1
    ensures var c := ClaimsOf(k, WithPermissions(x, q));
            Rounded(k, c) == c.(permissions := k.number(q)) && Readable(Rounded(k, c))
  {
    Numbers(k);
    TtlOutlivesTruncation(x.now, x.issuer.ttl);
    assert PrintsInOrder(k, q, TWO_53 + 1) && PrintsInOrder(k, 0, q);
  }

  lemma PermissionsReturned(k: Codec, s: Signing, x: Issuance, v: Verifier, q: int)
    requires CodecOk(k) && SigningOk(s) && IssuerOk(x.issuer) && Trusts(v, x.issuer) && IssueOf(k, s, x).Some?
    requires v.minEpoch <= x.issuer.epoch && Exact(x) && 0 <= q <= TWO_53 + 1
    requires ByteLen(k.text(ClaimsOf(k, WithPermissions(x, q)))) <= MAX_PAYLOAD
    ensures Returned(k, s, x, v, q) == Some(Accepted(ClaimsOf(k, WithPermissions(x, q)).(permissions := k.number(q))))
  {
    var y := WithPermissions(x, q);
    PermissionsRounded(k, x, q);
    IssuedOrg(k, s, x);
    FreshInWindow(k, y, x.now, Read);
    TtlOutlivesTruncation(x.now, x.issuer.ttl);
    IssuedAcceptedExactly(k, s, y, v, TrimSpace(x.scope.orgId), "", x.now, Read);
  }

  /** Above 2^53 the verifier can return permissions other than those issued: with every check passed,
      2^53 + 1 comes back as 2^53. */
  lemma LargePermissionsChange(k: Codec, s: Signing, x: Issuance, v: Verifier)
    requires CodecOk(k) && SigningOk(s) && IssuerOk(x.issuer) && Trusts(v, x.issuer) && IssueOf(k, s, x).Some?
    requires v.minEpoch <= x.issuer.epoch && Exact(x)
    requires ByteLen(k.text(ClaimsOf(k, WithPermissions(x, TWO_53 + 1)))) <= MAX_PAYLOAD
    ensures var out := Returned(k, s, x, v, TWO_53 + 1);
            out.Some? && out.value.Accepted? && out.value.claims.permissions == TWO_53
  {
    PermissionsReturned(k, s, x, v, TWO_53 + 1);
    Numbers(k);
  }

  predicate Returns(k: Codec, s: Signing, x: Issuance, v: Verifier, q: int) {
    Returned(k, s, x, v, q) == Some(Accepted(ClaimsOf(k, WithPermissions(x, q))))
  }

  /** Where only the permissions vary, all permissions up to b come back as issued if and only if b is at
      most 2^53. */
  lemma PermissionsKeptUpTo(k: Codec, s: Signing, x: Issuance, v: Verifier, b: int)
    requires CodecOk(k) && SigningOk(s) && IssuerOk(x.issuer) && Trusts(v, x.issuer) && IssueOf(k, s, x).Some?
    requires v.minEpoch <= x.issuer.epoch && Exact(x)
    requires forall q :: 0 <= q <= b ==> ByteLen(k.text(ClaimsOf(k, WithPermissions(x, q)))) <= MAX_PAYLOAD
    ensures (forall q :: 0 <= q <= b ==> Returns(k, s, x, v, q)) <==> b <= TWO_53
  {
    Numbers(k);
    if b <= TWO_53 {
      forall q | 0 <= q <= b ensures Returns(k, s, x, v, q) { PermissionsReturned(k, s, x, v, q); }
    } else {
      PermissionsReturned(k, s, x, v, TWO_53 + 1);
      assert !Returns(k, s, x, v, TWO_53 + 1);
    }
  }

  lemma TrimTwice(s: string)
    ensures TrimSpace(TrimSpace(s)) == TrimSpace(s)
  {
    TrimRightIs(TrimLeft(s));
    TrimLeftIs(s);
    TrimLeftKept(TrimLeft(s));
  }

  lemma {:induction false} TrimLeftIs(s: string)
    ensures TrimLeft(s) == "" || !IsSpace(TrimLeft(s)[0])
  {
    if s != "" && IsSpace(s[0]) { TrimLeftIs(s[1..]); }
  }

  lemma {:induction false} TrimRightIs(s: string)
    ensures TrimRight(s) == "" || !IsSpace(TrimRight(s)[|TrimRight(s)| - 1])
    ensures TrimRight(s) <= s && TrimRight(TrimRight(s)) == TrimRight(s)
  {
    if s != "" && IsSpace(s[|s| - 1]) { TrimRightIs(s[..|s| - 1]); }
  }

  lemma TrimLeftKept(t: string)
    requires t == "" || !IsSpace(t[0])
    ensures TrimLeft(TrimRight(t)) == TrimRight(t)
  {
    TrimRightIs(t);
  }

  // ---------------------------------------------------------------- issuers and verifiers over time

  /** A verifier's question. */
  datatype Check = Check(verifier: Verifier, envelope: Envelope, org: string, agent: string, now: int, cls: Class)

  datatype Acceptance = Acceptance(check: Check, claims: Claims)

  /** What issuers have signed and issued, and what verifiers have accepted. */
  datatype World = World(signed: set<(nat, string)>, issued: set<Issuance>, accepted: set<Acceptance>)

  datatype Step = IssueNow(config: IssuerConfig, now: int, id: string, scope: Scope) | CheckNow(check: Check)

  const EMPTY := World({}, {}, {})

  function Checked(k: Codec, s: Signing, c: Check): Outcome {
    Verify(k, s, c.verifier, c.envelope, c.org, c.agent, c.now, c.cls)
  }

  function Sign(k: Codec, s: Signing, w: World, x: Issuance): World {
    var e := IssueOf(k, s, x);
    if e.None? then w else w.(signed := w.signed + {(x.issuer.key, e.value.payload)}, issued := w.issued + {x})
  }

  function Accept(k: Codec, s: Signing, w: World, c: Check): World {
    var out := Checked(k, s, c);
    if out.Accepted? then w.(accepted := w.accepted + {Acceptance(c, out.claims)}) else w
  }

  function Next(k: Codec, s: Signing, w: World, step: Step): World {
    match step
    case CheckNow(c) => Accept(k, s, w, c)
    case IssueNow(g, now, id, p) =>
      var i := NewIssuer(g);
      if i.None? then w else Sign(k, s, w, Issuance(i.value, now, id, p))
  }

  function Run(k: Codec, s: Signing, w: World, steps: seq<Step>): World
    decreases |steps|
  {
    if steps == [] then w else Run(k, s, Next(k, s, w, steps[0]), steps[1..])
  }

  /** The presented envelope is no forgery: if its signature verifies under the key trusted for its key id,
      an issuer has signed its payload with that key. */
  predicate Unforged(s: Signing, w: World, c: Check) {
    var e := c.envelope;
    e.keyId in c.verifier.keys && s.valid(c.verifier.keys[e.keyId], e.payload, e.signature) ==>
      (c.verifier.keys[e.keyId], e.payload) in w.signed
  }

  /** No forgery is presented in the run. */
  predicate NoForgery(k: Codec, s: Signing, w: World, steps: seq<Step>)
    decreases |steps|
  {
    steps == [] || ((steps[0].CheckNow? ==> Unforged(s, w, steps[0].check))
                    && NoForgery(k, s, Next(k, s, w, steps[0]), steps[1..]))
  }

  predicate Distinct(keys: map<string, nat>) {
    forall a, b :: a in keys && b in keys && keys[a] == keys[b] ==> a == b
  }

  predicate Proper(x: Issuance) {
    IssuerOk(x.issuer) && StructureOk(Unsealed(x.issuer, x.now, x.id, x.scope))
  }

  predicate Signs(k: Codec, x: Issuance, m: (nat, string)) {
    Proper(x) && m == (x.issuer.key, k.text(ClaimsOf(k, x)))
  }

  /** The acceptance is of what was issued as x: signed with the trusted key, for this organization and
      agent, printed claims unchanged, of a high enough epoch and fresh. */
  predicate Explains(k: Codec, x: Issuance, a: Acceptance) {
    var c, v := a.check, a.check.verifier;
    && Proper(x) && c.envelope.keyId in v.keys && v.keys[c.envelope.keyId] == x.issuer.key
    && a.claims == Rounded(k, ClaimsOf(k, x)) && c.org == TrimSpace(x.scope.orgId)
    && (c.agent == "" || c.agent == TrimSpace(x.scope.agentId))
    && a.claims.epoch >= v.minEpoch && Fresh(a.claims, c.now, c.cls)
  }

  ghost predicate Explained(k: Codec, w: World, a: Acceptance) {
    exists x :: x in w.issued && Explains(k, x, a)
  }

  ghost predicate SignedByIssuer(k: Codec, w: World, m: (nat, string)) {
    exists x :: x in w.issued && Signs(k, x, m)
  }

  ghost predicate Inv(k: Codec, w: World) {
    && (forall m :: m in w.signed ==> SignedByIssuer(k, w, m))
    && forall a :: a in w.accepted ==> Explained(k, w, a)
  }

  lemma InvSign(k: Codec, s: Signing, w: World, x: Issuance)
    requires Inv(k, w) && IssuerOk(x.issuer)
    ensures Inv(k, Sign(k, s, w, x))
  {
    var w' := Sign(k, s, w, x);
    forall m | m in w'.signed ensures SignedByIssuer(k, w', m) {
      if m in w.signed {
        var y :| y in w.issued && Signs(k, y, m);
        assert y in w'.issued;
      } else {
        assert Signs(k, x, m);
      }
    }
    forall a | a in w'.accepted ensures Explained(k, w', a) {
      var y :| y in w.issued && Explains(k, y, a);
      assert y in w'.issued;
    }
  }

  /** An accepted envelope that is no forgery was issued. */
  lemma AcceptedExplained(k: Codec, s: Signing, w: World, c: Check)
    requires CodecOk(k) && Inv(k, w) && Unforged(s, w, c) && Checked(k, s, c).Accepted?
    ensures Explained(k, w, Acceptance(c, Checked(k, s, c).claims))
  {
    var e, a := c.envelope, Acceptance(c, Checked(k, s, c).claims);
    var m := (c.verifier.keys[e.keyId], e.payload);
    assert SignedByIssuer(k, w, m);
    var x :| x in w.issued && Signs(k, x, m);
    assert TextOk(k, ClaimsOf(k, x));
    assert a.claims == Rounded(k, ClaimsOf(k, x));
    assert Explains(k, x, a);
  }

  lemma InvStep(k: Codec, s: Signing, w: World, step: Step)
    requires CodecOk(k) && Inv(k, w) && (step.CheckNow? ==> Unforged(s, w, step.check))
    ensures Inv(k, Next(k, s, w, step))
  {
    match step {
      case CheckNow(c) =>
        var w' := Next(k, s, w, step);
        if Checked(k, s, c).Accepted? { AcceptedExplained(k, s, w, c); }
        assert w'.issued == w.issued;
        forall a | a in w'.accepted ensures Explained(k, w', a) { assert Explained(k, w, a); }
        forall m | m in w'.signed ensures SignedByIssuer(k, w', m) { assert SignedByIssuer(k, w, m); }
      case IssueNow(g, now, id, p) =>
        if NewIssuer(g).Some? { InvSign(k, s, w, Issuance(NewIssuer(g).value, now, id, p)); }
    }
  }

  lemma {:induction false} InvRun(k: Codec, s: Signing, w: World, steps: seq<Step>)
    requires CodecOk(k) && Inv(k, w) && NoForgery(k, s, w, steps)
    ensures Inv(k, Run(k, s, w, steps))
    decreases |steps|
  {
    if steps != [] {
      InvStep(k, s, w, steps[0]);
      InvRun(k, s, Next(k, s, w, steps[0]), steps[1..]);
    }
  }

  /** In every run without a forgery, whatever any verifier accepted was issued: by a valid issuer with the
      key trusted for the envelope's key id, for that organization and agent, with these claims as printed,
      of a high enough epoch and fresh. */
  lemma AcceptedWasIssued(k: Codec, s: Signing, steps: seq<Step>, a: Acceptance)
    requires CodecOk(k) && NoForgery(k, s, EMPTY, steps) && a in Run(k, s, EMPTY, steps).accepted
    ensures exists x :: x in Run(k, s, EMPTY, steps).issued && Explains(k, x, a)
  {
    InvRun(k, s, EMPTY, steps);
    assert Explained(k, Run(k, s, EMPTY, steps), a);
  }

  /** With numbers up to 2^53 the accepted claims are the issued ones, accepted no earlier than six seconds
      before they were issued and no later than five seconds after the class age and the lifetime. */
  lemma ExplainedInTime(k: Codec, x: Issuance, a: Acceptance)
    requires CodecOk(k) && Explains(k, x, a) && Exact(x)
    ensures a.claims == ClaimsOf(k, x)
    ensures x.now - SECOND - SKEW < a.check.now <= x.now + MaxAge(a.check.cls) + SKEW
    ensures a.check.now <= x.now + x.issuer.ttl + SKEW
  {
    Numbers(k);
    ExactKept(k, x);
    FreshExactly(a.claims, a.check.now, a.check.cls);
  }

  /** Where no two key ids share a key and the issuer's is among them, the key id is the issuer's. */
  lemma ExplainedKeyId(k: Codec, x: Issuance, a: Acceptance)
    requires Explains(k, x, a) && Distinct(a.check.verifier.keys) && Trusts(a.check.verifier, x.issuer)
    ensures a.check.envelope.keyId == x.issuer.keyId
  {
  }

  // ---------------------------------------------------------------- what is issued is no forgery

  /** The presented envelope has been issued, by an issuer the verifier trusts. */
  ghost predicate Honest(k: Codec, s: Signing, w: World, c: Check) {
    exists x :: x in w.issued && IssueOf(k, s, x) == Some(c.envelope) && Trusts(c.verifier, x.issuer)
  }

  ghost predicate HonestRun(k: Codec, s: Signing, w: World, steps: seq<Step>)
    decreases |steps|
  {
    steps == [] || ((steps[0].CheckNow? ==> Honest(k, s, w, steps[0].check))
                    && HonestRun(k, s, Next(k, s, w, steps[0]), steps[1..]))
  }

  /** The payload of every issuance has been signed. */
  predicate AllSigned(k: Codec, w: World) {
    forall x :: x in w.issued ==> (x.issuer.key, k.text(ClaimsOf(k, x))) in w.signed
  }

  lemma AllSignedStep(k: Codec, s: Signing, w: World, step: Step)
    requires AllSigned(k, w)
    ensures AllSigned(k, Next(k, s, w, step))
  {
  }

  /** A run in which only issued envelopes are presented is without forgery, whatever the scheme. */
  lemma {:induction false} HonestNoForgery(k: Codec, s: Signing, w: World, steps: seq<Step>)
    requires AllSigned(k, w) && HonestRun(k, s, w, steps)
    ensures NoForgery(k, s, w, steps)
    decreases |steps|
  {
    if steps != [] {
      AllSignedStep(k, s, w, steps[0]);
      HonestNoForgery(k, s, Next(k, s, w, steps[0]), steps[1..]);
    }
  }

  /** Issuing and then checking is such a run: the check is logged as accepted exactly when the verifier
      accepts, and so both what is accepted and what was issued are known of it. */
  lemma IssueThenCheck(k: Codec, s: Signing, g: IssuerConfig, x: Issuance, c: Check)
    requires NewIssuer(g) == Some(x.issuer) && IssueOf(k, s, x) == Some(c.envelope) && Trusts(c.verifier, x.issuer)
    ensures var steps := [IssueNow(g, x.now, x.id, x.scope), CheckNow(c)];
            && HonestRun(k, s, EMPTY, steps) && NoForgery(k, s, EMPTY, steps)
            && Run(k, s, EMPTY, steps).issued == {x}
            && Run(k, s, EMPTY, steps).accepted ==
               if Checked(k, s, c).Accepted? then {Acceptance(c, Checked(k, s, c).claims)} else {}
  {
    var first, last := IssueNow(g, x.now, x.id, x.scope), CheckNow(c);
    var steps := [first, last];
    var w := Next(k, s, EMPTY, first);
    assert w.issued == {x};
    assert Honest(k, s, w, c);
    assert steps[1..] == [last] && [last][1..] == [];
    assert HonestRun(k, s, Next(k, s, w, last), []);
    assert HonestRun(k, s, w, [last]);
    assert Run(k, s, Next(k, s, w, last), []) == Next(k, s, w, last);
    assert Run(k, s, w, [last]) == Next(k, s, w, last);
    HonestNoForgery(k, s, EMPTY, steps);
  }

  // ---------------------------------------------------------------- the properties asked of the text can be had

  type Numbering = int -> int

  function NumItem(f: Numbering, n: int): JsonbText.Json {
    JsonbText.Num(JsonNumber.IntText(f(n)))
  }

  function ClaimItems(f: Numbering, c: Claims): seq<JsonbText.Json> {
    [JsonbText.Str(c.contract), JsonbText.Str(c.authority), JsonbText.Str(c.orgId), JsonbText.Str(c.subjectId),
     JsonbText.Str(c.agentId), JsonbText.Str(c.snapshotId), NumItem(f, c.epoch), NumItem(f, c.permissions),
     NumItem(f, c.issuedAt), NumItem(f, c.expiresAt), JsonbText.Str(c.digest)]
  }

  ghost function SomeText(f: Numbering, c: Claims): string {
    JsonbText.Text(JsonNumber.Format, JsonbText.Arr(ClaimItems(f, c)))
  }

  function Numbered(f: Numbering, c: Claims): Claims {
    c.(epoch := f(c.epoch), permissions := f(c.permissions), issuedAt := f(c.issuedAt), expiresAt := f(c.expiresAt))
  }

  lemma NumItemDetermined(f: Numbering, m: int, n: int)
    requires JsonbText.Same(JsonNumber.Format, NumItem(f, m), NumItem(f, n))
    ensures f(m) == f(n)
  {
    JsonNumber.IntTextMeans(f(m));
    JsonNumber.IntTextMeans(f(n));
  }

  lemma ItemsPrintable(f: Numbering, c: Claims)
    ensures JsonbText.Printable(JsonNumber.Format, JsonbText.Arr(ClaimItems(f, c)))
  {
    JsonNumber.IntTextMeans(f(c.epoch));
    JsonNumber.IntTextMeans(f(c.permissions));
    JsonNumber.IntTextMeans(f(c.issuedAt));
    JsonNumber.IntTextMeans(f(c.expiresAt));
  }

  lemma NumberAt(f: Numbering, c: Claims, d: Claims, i: nat, m: int, n: int)
    requires JsonbText.Same(JsonNumber.Format, JsonbText.Arr(ClaimItems(f, c)), JsonbText.Arr(ClaimItems(f, d)))
    requires i < 11 && ClaimItems(f, c)[i] == NumItem(f, m) && ClaimItems(f, d)[i] == NumItem(f, n)
    ensures f(m) == f(n)
  {
    assert JsonbText.Same(JsonNumber.Format, ClaimItems(f, c)[i], ClaimItems(f, d)[i]);
    NumItemDetermined(f, m, n);
  }

  lemma NumbersDetermined(f: Numbering, c: Claims, d: Claims)
    requires JsonbText.Same(JsonNumber.Format, JsonbText.Arr(ClaimItems(f, c)), JsonbText.Arr(ClaimItems(f, d)))
    ensures f(c.epoch) == f(d.epoch) && f(c.permissions) == f(d.permissions)
    ensures f(c.issuedAt) == f(d.issuedAt) && f(c.expiresAt) == f(d.expiresAt)
  {
    NumberAt(f, c, d, 6, c.epoch, d.epoch);
    NumberAt(f, c, d, 7, c.permissions, d.permissions);
    NumberAt(f, c, d, 8, c.issuedAt, d.issuedAt);
    NumberAt(f, c, d, 9, c.expiresAt, d.expiresAt);
  }

  lemma SomeTextDetermined(f: Numbering, c: Claims, d: Claims)
    requires SomeText(f, c) == SomeText(f, d)
    ensures Numbered(f, c) == Numbered(f, d)
  {
    ItemsPrintable(f, c);
    ItemsPrintable(f, d);
    JsonbText.FormatPlainly();
    JsonbText.TextDecidesValue(JsonNumber.Format, JsonbText.Arr(ClaimItems(f, c)), JsonbText.Arr(ClaimItems(f, d)));
    NumbersDetermined(f, c, d);
    NamesDetermined(f, c, d);
    StringsDetermined(f, c, d);
  }

  lemma StringAt(f: Numbering, c: Claims, d: Claims, i: nat)
    requires JsonbText.Same(JsonNumber.Format, JsonbText.Arr(ClaimItems(f, c)), JsonbText.Arr(ClaimItems(f, d)))
    requires i < 11 && ClaimItems(f, c)[i].Str?
    ensures ClaimItems(f, c)[i] == ClaimItems(f, d)[i]
  {
    assert JsonbText.Same(JsonNumber.Format, ClaimItems(f, c)[i], ClaimItems(f, d)[i]);
  }

  lemma NamesDetermined(f: Numbering, c: Claims, d: Claims)
    requires JsonbText.Same(JsonNumber.Format, JsonbText.Arr(ClaimItems(f, c)), JsonbText.Arr(ClaimItems(f, d)))
    ensures c.contract == d.contract && c.authority == d.authority && c.orgId == d.orgId && c.subjectId == d.subjectId
  {
    StringAt(f, c, d, 0);
    StringAt(f, c, d, 1);
    StringAt(f, c, d, 2);
    StringAt(f, c, d, 3);
  }

  lemma StringsDetermined(f: Numbering, c: Claims, d: Claims)
    requires JsonbText.Same(JsonNumber.Format, JsonbText.Arr(ClaimItems(f, c)), JsonbText.Arr(ClaimItems(f, d)))
    ensures c.agentId == d.agentId && c.snapshotId == d.snapshotId && c.digest == d.digest
  {
    StringAt(f, c, d, 4);
    StringAt(f, c, d, 5);
    StringAt(f, c, d, 10);
  }

  ghost function SomeRead(f: Numbering, s: string): Option<Claims> {
    if c :| SomeText(f, c) == s then (if Readable(Numbered(f, c)) then Some(Numbered(f, c)) else None) else None
  }

  ghost function SomeCodec(f: Numbering, hash: string -> string): Codec {
    Codec(f, (c: Claims) => SomeText(f, c), (s: string) => exists c :: SomeText(f, c) == s,
      (s: string) => SomeRead(f, s), hash)
  }

  lemma SomeReadsBack(f: Numbering, c: Claims)
    requires forall n :: f(f(n)) == f(n)
    ensures SomeRead(f, SomeText(f, c)) == if Readable(Numbered(f, c)) then Some(Numbered(f, c)) else None
    ensures SomeText(f, Numbered(f, c)) == SomeText(f, c) && SomeText(f, c) != ""
  {
    forall d | SomeText(f, d) == SomeText(f, c) ensures Numbered(f, d) == Numbered(f, c) {
      SomeTextDetermined(f, d, c);
    }
    assert ClaimItems(f, Numbered(f, c)) == ClaimItems(f, c);
  }

  lemma SomeCodecReads(f: Numbering, hash: string -> string, c: Claims)
    requires forall n :: f(f(n)) == f(n)
    ensures TextOk(SomeCodec(f, hash), c)
  {
    SomeReadsBack(f, c);
    assert Rounded(SomeCodec(f, hash), c) == Numbered(f, c);
  }

  /** The properties asked of the canonical text are consistent: text and decoder with all of them exist,
      whatever the hash. */
  lemma CodecExists(hash: string -> string)
    ensures CodecOk(SomeCodec(Binary64.Number, hash))
  {
    var f, k := Binary64.Number, SomeCodec(Binary64.Number, hash);
    forall n ensures f(f(n)) == f(n) { Binary64.NumberGrows(n, n); }
    forall n ensures PrintsNumber(k, n) {}
    forall c ensures TextOk(k, c) { SomeCodecReads(f, hash, c); }
  }

  const SOME_SIGNING := Signing((key: nat, p: string) => "s" + p, (key: nat, p: string, sig: string) => sig == "s" + p)

  /** The premises of what is proved hold together: with this text and these signatures, in a run in which
      an envelope is issued and checked by a verifier that trusts its issuer. */
  lemma PremisesMet(hash: string -> string, g: IssuerConfig, x: Issuance, c: Check)
    requires NewIssuer(g) == Some(x.issuer) && Trusts(c.verifier, x.issuer)
    requires IssueOf(SomeCodec(Binary64.Number, hash), SOME_SIGNING, x) == Some(c.envelope)
    ensures var k := SomeCodec(Binary64.Number, hash);
            && CodecOk(k) && SigningOk(SOME_SIGNING)
            && NoForgery(k, SOME_SIGNING, EMPTY, [IssueNow(g, x.now, x.id, x.scope), CheckNow(c)])
  {
    CodecExists(hash);
    IssueThenCheck(SomeCodec(Binary64.Number, hash), SOME_SIGNING, g, x, c);
  }
}
