/**
 The claims cache of packages/authcache as an interleaving of calls.

 The LRU, the token index and the organization index each have their own lock, and a call reads the
 clock again for every test. So each locked section and each clock reading of validator.go is one
 atomic step here, and steps of different calls, revocations, evictions and the clock interleave in
 any order. Time is in nanoseconds; no proof depends on the unit.
 */
module AuthCache {
  import opened Prelude
  import opened AuthIndexes

  /** What can be revoked. */
  datatype Subject = Tok(id: string) | Org(org: nat)

  datatype Result = Result(token: string, org: nat, expiresAt: Option<int>, permissions: int)

  /** An upstream result together with the revocations that preceded the upstream answer. */
  datatype Stamped = Stamped(res: Result, seen: map<Subject, nat>)

  datatype Entry = Entry(st: Stamped, expiresAt: int)

  /** An eviction from the LRU whose callback has not run yet. */
  datatype Gone = Gone(h: Digest, res: Result)

  /** revocations counts the revocations of a subject so far, last is the time of the latest one. */
  datatype Cache = Cache(
    lru: map<Digest, Entry>, tokens: TokenIx, orgs: OrgIx, pending: set<Gone>,
    revocations: map<Subject, nat>, last: map<Subject, int>, now: int)

  const TOKEN_EXPIRY_SKEW := 5_000_000_000

  function Count(m: map<Subject, nat>, s: Subject): nat {
    if s in m then m[s] else 0
  }

  /** The result was obtained before the latest revocation of the subject. */
  predicate Stale(c: Cache, st: Stamped, s: Subject) {
    Count(st.seen, s) < Count(c.revocations, s)
  }

  function Last(c: Cache, s: Subject): int {
    if s in c.last then c.last[s] else c.now
  }

  predicate Concerns(s: Subject, res: Result) {
    s == Tok(res.token) || s == Org(res.org)
  }

  /** The end of a subject's tombstone, if it has one. */
  function Tomb(c: Cache, s: Subject): Option<int> {
    match s
    case Tok(id) => if id in c.tokens.tomb then Some(c.tokens.tomb[id]) else None
    case Org(org) => if org in c.orgs.tomb then Some(c.orgs.tomb[org]) else None
  }

  /** isRevoked and isSuspended. */
  predicate Blocked(c: Cache, s: Subject) {
    match s
    case Tok(id) => id != "" && LiveTomb(c.tokens.tomb, id, c.now)
    case Org(org) => org != 0 && LiveTomb(c.orgs.tomb, org, c.now)
  }

  function CacheTtl(res: Result, maxTtl: int, now: int): int {
    if res.expiresAt.None? then maxTtl else
      var until := res.expiresAt.value - now - TOKEN_EXPIRY_SKEW;
      if until < maxTtl then until else maxTtl
  }

  // ---------------------------------------------------------------- locked sections

  function PutToken(c: Cache, id: string, h: Digest): (Cache, bool) {
    var (x, ok) := TokenPut(c.tokens, id, h, c.now);
    (c.(tokens := x), ok)
  }

  function PutOrg(c: Cache, org: nat, h: Digest): (Cache, bool) {
    var (x, ok) := OrgPut(c.orgs, org, h, c.now);
    (c.(orgs := x), ok)
  }

  function Unindex(c: Cache, h: Digest, res: Result): Cache {
    c.(tokens := TokenRemove(c.tokens, h, res.token), orgs := OrgRemove(c.orgs, res.org, h))
  }

  /** The LRU lets an entry go; its callback is still to run. */
  function EvictEntry(c: Cache, h: Digest): Cache {
    if h !in c.lru then c else c.(lru := c.lru - {h}, pending := c.pending + {Gone(h, c.lru[h].st.res)})
  }

  function RunCallback(c: Cache, g: Gone): Cache {
    Unindex(c.(pending := c.pending - {g}), g.h, g.res)
  }

  /** InvalidateByTokenID and InvalidateByOrgID up to the eviction that follows. */
  function Revoke(c: Cache, s: Subject, ttl: int): Cache {
    if s == Tok("") || s == Org(0) then c else
      c.(tokens := if s.Tok? then TokenRevoke(c.tokens, s.id, c.now + ttl) else c.tokens,
         orgs := if s.Org? then OrgRevoke(c.orgs, s.org, c.now, c.now + ttl) else c.orgs,
         revocations := c.revocations[s := Count(c.revocations, s) + 1],
         last := c.last[s := c.now])
  }

  // ---------------------------------------------------------------- calls

  datatype After = Refetch | Return

  /** Where a Validate call stands. Each value names the step the call takes next. */
  datatype Pc =
    | Lookup
    | TestExpiry(e: Entry)
    | CheckToken(e: Entry, second: bool)
    | CheckOrg(e: Entry, second: bool)
    | DropIndex(e: Entry, after: After)
    | DropEntry(e: Entry, after: After)
    | DropCallback(gone: Entry, e: Entry, after: After)
    | Fetch
    | ComputeTtl(st: Stamped)
    | IndexToken(st: Stamped, ttl: int)
    | IndexOrg(st: Stamped, ttl: int)
    | UndoToken(st: Stamped)
    | StampEntry(st: Stamped, ttl: int)
    | AddEntry(e: Entry)
    | RecheckToken(e: Entry)
    | RecheckOrg(e: Entry)
    | Hit(e: Entry)
    | Answered(st: Stamped)
    | Failed

  datatype Call = Call(h: Digest, started: int, pc: Pc)

  datatype Upstream = Accepts(res: Result) | Rejects

  predicate Done(pc: Pc) {
    pc.Hit? || pc.Answered? || pc.Failed?
  }

  predicate Reading(pc: Pc) {
    pc.Lookup? || pc.TestExpiry? || pc.CheckToken? || pc.CheckOrg?
  }

  predicate Dropping(pc: Pc) {
    pc.DropIndex? || pc.DropEntry? || pc.DropCallback?
  }

  predicate Indexing(pc: Pc) {
    pc.IndexToken? || pc.IndexOrg? || pc.UndoToken?
  }

  /** lookupLRU up to the point where it gives up or returns. */
  function StepReader(c: Cache, k: Call): Pc
    requires Reading(k.pc)
  {
    match k.pc
    case Lookup => if k.h in c.lru then TestExpiry(c.lru[k.h]) else Fetch
    case TestExpiry(e) => if c.now >= e.expiresAt then DropIndex(e, Refetch) else CheckToken(e, false)
    case CheckToken(e, second) => if Blocked(c, Tok(e.st.res.token)) then DropIndex(e, Refetch) else CheckOrg(e, second)
    case CheckOrg(e, second) =>
      if Blocked(c, Org(e.st.res.org)) then DropIndex(e, Refetch) else if second then Hit(e) else CheckToken(e, true)
  }

  /** Where a call goes on once its entry is dropped. */
  function AfterDrop(e: Entry, after: After): Pc {
    if after == Refetch then Fetch else Answered(e.st)
  }

  /** evictRevoked; the removal from the LRU runs the eviction callback on what it removed. */
  function StepDrop(c: Cache, k: Call): (Cache, Pc)
    requires Dropping(k.pc)
  {
    match k.pc
    case DropIndex(e, after) => (Unindex(c, k.h, e.st.res), DropEntry(e, after))
    case DropEntry(e, after) =>
      if k.h in c.lru then (c.(lru := c.lru - {k.h}), DropCallback(c.lru[k.h], e, after)) else (c, AfterDrop(e, after))
    case DropCallback(gone, e, after) => (Unindex(c, k.h, gone.st.res), AfterDrop(e, after))
  }

  /** The index puts of putLRU. */
  function StepIndex(c: Cache, k: Call): (Cache, Pc)
    requires Indexing(k.pc)
  {
    match k.pc
    case IndexToken(st, ttl) =>
      var (c', ok) := PutToken(c, st.res.token, k.h);
      (c', if ok then IndexOrg(st, ttl) else Answered(st))
    case IndexOrg(st, ttl) =>
      var (c', ok) := PutOrg(c, st.res.org, k.h);
      (c', if ok then StampEntry(st, ttl) else UndoToken(st))
    case UndoToken(st) => (c.(tokens := TokenRemove(c.tokens, k.h, st.res.token)), Answered(st))
  }

  /** The other steps of fetchUpstream and putLRU, which at most add an entry. */
  function StepWriter(c: Cache, k: Call, maxTtl: int, answer: Upstream): Pc
    requires !Reading(k.pc) && !Dropping(k.pc) && !Indexing(k.pc)
  {
    match k.pc
    case Fetch => if answer.Accepts? then ComputeTtl(Stamped(answer.res, c.revocations)) else Failed
    case ComputeTtl(st) =>
      var ttl := CacheTtl(st.res, maxTtl, c.now);
      if ttl <= 0 then Answered(st) else IndexToken(st, ttl)
    case StampEntry(st, ttl) => AddEntry(Entry(st, c.now + ttl))
    case AddEntry(e) => RecheckToken(e)
    case RecheckToken(e) => if Blocked(c, Tok(e.st.res.token)) then DropIndex(e, Return) else RecheckOrg(e)
    case RecheckOrg(e) => if Blocked(c, Org(e.st.res.org)) then DropIndex(e, Return) else Answered(e.st)
    case _ => k.pc
  }

  /** The next step of a call. The answer is what upstream says if the call asks it now. */
  function StepCall(c: Cache, k: Call, maxTtl: int, answer: Upstream): (Cache, Pc) {
    if Reading(k.pc) then (c, StepReader(c, k))
    else if Dropping(k.pc) then StepDrop(c, k)
    else if Indexing(k.pc) then StepIndex(c, k)
    else (if k.pc.AddEntry? then c.(lru := c.lru[k.h := k.pc.e]) else c, StepWriter(c, k, maxTtl, answer))
  }

  // ---------------------------------------------------------------- runs

  datatype World = World(cache: Cache, calls: map<nat, Call>)

  datatype Step =
    | Start(call: nat, h: Digest, bloomSaysInvalid: bool)
    | Advance(call: nat, answer: Upstream)
    | RevokeStep(subject: Subject)
    | Evict(h: Digest)                        // capacity, Invalidate, and the drop that follows a revoke
    | LateUnindex(gone: Gone)                 // the index removals of an eviction's callback
    | Tick(elapsed: nat)

  function Next(w: World, maxTtl: int, step: Step): World {
    match step
    case Start(i, h, bloom) =>
      if i in w.calls then w else w.(calls := w.calls[i := Call(h, w.cache.now, if bloom then Fetch else Lookup)])
    case Advance(i, answer) =>
      if i !in w.calls then w else
        var (c', pc') := StepCall(w.cache, w.calls[i], maxTtl, answer);
        World(c', w.calls[i := w.calls[i].(pc := pc')])
    case RevokeStep(s) => w.(cache := Revoke(w.cache, s, maxTtl))
    case Evict(h) => w.(cache := EvictEntry(w.cache, h))
    case LateUnindex(g) => if g in w.cache.pending then w.(cache := RunCallback(w.cache, g)) else w
    case Tick(elapsed) => w.(cache := w.cache.(now := w.cache.now + elapsed))
  }

  function Run(w: World, maxTtl: int, steps: seq<Step>): World
    decreases |steps|
  {
    if steps == [] then w else Run(Next(w, maxTtl, steps[0]), maxTtl, steps[1..])
  }

  /** No call is running for longer than the limit. */
  predicate Timely(w: World, limit: int) {
    forall i :: i in w.calls && !Done(w.calls[i].pc) ==> w.cache.now <= w.calls[i].started + limit
  }

  predicate AlwaysTimely(w: World, maxTtl: int, limit: int, steps: seq<Step>)
    decreases |steps|
  {
    Timely(w, limit) && (steps != [] ==> AlwaysTimely(Next(w, maxTtl, steps[0]), maxTtl, limit, steps[1..]))
  }

  function Init(now: int): World {
    World(Cache(map[], TokenIx(map[], map[]), OrgIx(map[], map[]), {}, map[], map[], now), map[])
  }

  // ---------------------------------------------------------------- invariant

  /** A revoked subject carries its tombstone for exactly the full time to live. */
  predicate TombOk(c: Cache, s: Subject, maxTtl: int) {
    Count(c.revocations, s) > 0 ==>
      && s in c.last && Last(c, s) <= c.now
      && (c.now < Last(c, s) + maxTtl ==> Tomb(c, s) == Some(Last(c, s) + maxTtl))
      && (Tomb(c, s).Some? ==> Tomb(c, s).value <= Last(c, s) + maxTtl)
  }

  ghost predicate TombsOk(c: Cache, maxTtl: int) {
    && Count(c.revocations, Tok("")) == 0 && Count(c.revocations, Org(0)) == 0
    && forall s :: TombOk(c, s, maxTtl)
  }

  /** A call that carries a stale result started before the revocation. */
  ghost predicate WriterOk(c: Cache, k: Call, st: Stamped) {
    forall s :: Stale(c, st, s) ==> k.started <= Last(c, s)
  }

  ghost predicate ReaderOk(c: Cache, k: Call, e: Entry, maxTtl: int) {
    forall s :: Stale(c, e.st, s) && Concerns(s, e.st.res) ==>
      k.started < Last(c, s) + maxTtl || (k.pc.TestExpiry? && e.expiresAt <= Last(c, s) + maxTtl)
  }

  ghost predicate CallOk(c: Cache, k: Call, maxTtl: int) {
    && k.started <= c.now
    && match k.pc
       case TestExpiry(e) => ReaderOk(c, k, e, maxTtl)
       case CheckToken(e, _) => ReaderOk(c, k, e, maxTtl)
       case CheckOrg(e, _) => ReaderOk(c, k, e, maxTtl)
       case ComputeTtl(st) => WriterOk(c, k, st)
       case IndexToken(st, ttl) => WriterOk(c, k, st) && ttl <= maxTtl
       case IndexOrg(st, ttl) => WriterOk(c, k, st) && ttl <= maxTtl
       case StampEntry(st, ttl) => WriterOk(c, k, st) && ttl <= maxTtl
       case AddEntry(e) => WriterOk(c, k, e.st) && e.expiresAt <= c.now + maxTtl
       case _ => true
  }

  /** The call is about to remove this very entry because of the subject. */
  predicate Cleaner(c: Cache, k: Call, h: Digest, e: Entry, s: Subject) {
    && k.h == h && k.started <= Last(c, s)
    && (k.pc == RecheckToken(e) || (k.pc == RecheckOrg(e) && s.Org?) || k.pc == DropIndex(e, Return) ||
       k.pc == DropEntry(e, Return))
  }

  /** A stale entry expires with its tombstone, or its own writer is still there to remove it. */
  ghost predicate EntryOk(w: World, h: Digest, maxTtl: int)
    requires h in w.cache.lru
  {
    var e := w.cache.lru[h];
    && e.expiresAt <= w.cache.now + maxTtl
    && forall s :: Stale(w.cache, e.st, s) && Concerns(s, e.st.res) && e.expiresAt > Last(w.cache, s) + maxTtl ==>
         exists i :: i in w.calls && Cleaner(w.cache, w.calls[i], h, e, s)
  }

  ghost predicate Inv(w: World, maxTtl: int) {
    && TombsOk(w.cache, maxTtl)
    && (forall i :: i in w.calls ==> CallOk(w.cache, w.calls[i], maxTtl))
    && (forall h :: h in w.cache.lru ==> EntryOk(w, h, maxTtl))
  }

  // ---------------------------------------------------------------- one step keeps it

  /** Only expired tombstones go. */
  ghost predicate Pruned(c: Cache, c': Cache) {
    && c'.revocations == c.revocations && c'.last == c.last && c'.now == c.now
    && forall s ::
         && (Tomb(c, s).Some? && c.now < Tomb(c, s).value ==> Tomb(c', s) == Tomb(c, s))
         && (Tomb(c', s).Some? ==> Tomb(c', s) == Tomb(c, s))
  }

  lemma PrunedPut(c: Cache, res: Result, h: Digest)
    ensures Pruned(c, PutToken(c, res.token, h).0) && Pruned(c, PutOrg(c, res.org, h).0)
  {
  }

  lemma PrunedIndex(c: Cache, k: Call)
    requires Indexing(k.pc)
    ensures Pruned(c, StepIndex(c, k).0)
  {
    if !k.pc.UndoToken? { PrunedPut(c, k.pc.st.res, k.h); }
  }

  lemma TombsPruned(c: Cache, c': Cache, maxTtl: int)
    requires TombsOk(c, maxTtl) && Pruned(c, c')
    ensures TombsOk(c', maxTtl)
  {
    forall s ensures TombOk(c', s, maxTtl) { assert TombOk(c, s, maxTtl); }
  }

  /** Revoking one subject leaves the others' live tombstones alone. */
  lemma OtherTombs(c: Cache, s: Subject, t: Subject, maxTtl: int)
    requires t != s && TombOk(c, t, maxTtl)
    ensures TombOk(Revoke(c, s, maxTtl), t, maxTtl)
  {
  }

  lemma TombsRevoke(c: Cache, s: Subject, maxTtl: int)
    requires TombsOk(c, maxTtl)
    ensures TombsOk(Revoke(c, s, maxTtl), maxTtl)
  {
    forall t ensures TombOk(Revoke(c, s, maxTtl), t, maxTtl) {
      assert TombOk(c, t, maxTtl);
      if t != s { OtherTombs(c, s, t, maxTtl); }
    }
  }

  /** The invariant after call i took a step that left the revocations and the clock alone. */
  function Moved(w: World, i: nat, c': Cache, pc': Pc): World
    requires i in w.calls
  {
    World(c', w.calls[i := w.calls[i].(pc := pc')])
  }

  /** Other calls do not notice, and an entry keeps its cleaner unless the step took it away. */
  lemma OthersKept(w: World, i: nat, c': Cache, pc': Pc, maxTtl: int)
    requires Inv(w, maxTtl) && i in w.calls && Pruned(w.cache, c')
    requires CallOk(c', w.calls[i].(pc := pc'), maxTtl)
    requires forall h :: h in c'.lru ==> h in w.cache.lru && c'.lru[h] == w.cache.lru[h]
    requires forall h, s :: h in c'.lru && Stale(w.cache, c'.lru[h].st, s) && Concerns(s, c'.lru[h].st.res)
                            && Cleaner(w.cache, w.calls[i], h, c'.lru[h], s)
                            ==> Cleaner(c', w.calls[i].(pc := pc'), h, c'.lru[h], s)
    ensures Inv(Moved(w, i, c', pc'), maxTtl)
  {
    var w' := Moved(w, i, c', pc');
    TombsPruned(w.cache, c', maxTtl);
    forall j | j in w'.calls ensures CallOk(c', w'.calls[j], maxTtl) {
      if j != i { assert CallOk(w.cache, w.calls[j], maxTtl); SameCall(w.cache, c', w.calls[j], maxTtl); }
    }
    forall h | h in c'.lru ensures EntryOk(w', h, maxTtl) {
      EntryKept(w, i, c', pc', maxTtl, h);
    }
  }

  lemma SameWriter(c: Cache, c': Cache, k: Call, st: Stamped)
    requires WriterOk(c, k, st) && Pruned(c, c')
    ensures WriterOk(c', k, st)
  {
    forall s | Stale(c', st, s) ensures k.started <= Last(c', s) { assert Stale(c, st, s); }
  }

  lemma SameReader(c: Cache, c': Cache, k: Call, e: Entry, maxTtl: int)
    requires ReaderOk(c, k, e, maxTtl) && Pruned(c, c')
    ensures ReaderOk(c', k, e, maxTtl)
  {
    forall s | Stale(c', e.st, s) && Concerns(s, e.st.res)
      ensures k.started < Last(c', s) + maxTtl || (k.pc.TestExpiry? && e.expiresAt <= Last(c', s) + maxTtl)
    {
      assert Stale(c, e.st, s);
    }
  }

  lemma SameCall(c: Cache, c': Cache, k: Call, maxTtl: int)
    requires CallOk(c, k, maxTtl) && Pruned(c, c')
    ensures CallOk(c', k, maxTtl)
  {
    if k.pc.TestExpiry? || k.pc.CheckToken? || k.pc.CheckOrg? {
      SameReader(c, c', k, k.pc.e, maxTtl);
    } else if k.pc.ComputeTtl? || k.pc.IndexToken? || k.pc.IndexOrg? || k.pc.StampEntry? {
      SameWriter(c, c', k, k.pc.st);
    } else if k.pc.AddEntry? {
      SameWriter(c, c', k, k.pc.e.st);
    }
  }

  lemma EntryKept(w: World, i: nat, c': Cache, pc': Pc, maxTtl: int, h: Digest)
    requires i in w.calls && Pruned(w.cache, c') && h in w.cache.lru && h in c'.lru && c'.lru[h] == w.cache.lru[h]
    requires EntryOk(w, h, maxTtl)
    requires forall s :: Stale(w.cache, c'.lru[h].st, s) && Concerns(s, c'.lru[h].st.res)
                         && Cleaner(w.cache, w.calls[i], h, c'.lru[h], s)
                         ==> Cleaner(c', w.calls[i].(pc := pc'), h, c'.lru[h], s)
    ensures EntryOk(Moved(w, i, c', pc'), h, maxTtl)
  {
    var w' := Moved(w, i, c', pc');
    var e := c'.lru[h];
    forall s | Stale(c', e.st, s) && Concerns(s, e.st.res) && e.expiresAt > Last(c', s) + maxTtl
      ensures exists j :: j in w'.calls && Cleaner(c', w'.calls[j], h, e, s)
    {
      assert Stale(w.cache, e.st, s);
      var j :| j in w.calls && Cleaner(w.cache, w.calls[j], h, e, s);
      assert Cleaner(c', w'.calls[j], h, e, s);
    }
  }

  lemma ReadStep(w: World, i: nat, maxTtl: int, limit: int)
    requires Inv(w, maxTtl) && Timely(w, limit) && limit < maxTtl && i in w.calls && Reading(w.calls[i].pc)
    ensures Inv(Moved(w, i, w.cache, StepReader(w.cache, w.calls[i])), maxTtl)
  {
    var k := w.calls[i];
    var pc' := StepReader(w.cache, k);
    assert CallOk(w.cache, k, maxTtl);
    if k.pc.Lookup? && pc'.TestExpiry? {
      FoundEntryOk(w, i, maxTtl, limit);
    }
    OthersKept(w, i, w.cache, pc', maxTtl);
  }

  /** A call that finds a stale entry started before the tombstone ends, or the entry ends with it. */
  lemma FoundEntryOk(w: World, i: nat, maxTtl: int, limit: int)
    requires Inv(w, maxTtl) && Timely(w, limit) && limit < maxTtl && i in w.calls && w.calls[i].h in w.cache.lru
    ensures var e := w.cache.lru[w.calls[i].h]; ReaderOk(w.cache, w.calls[i].(pc := TestExpiry(e)), e, maxTtl)
  {
    var k := w.calls[i];
    var e := w.cache.lru[k.h];
    assert EntryOk(w, k.h, maxTtl) && CallOk(w.cache, k, maxTtl);
    forall s | Stale(w.cache, e.st, s) && Concerns(s, e.st.res)
      ensures k.started < Last(w.cache, s) + maxTtl || e.expiresAt <= Last(w.cache, s) + maxTtl
    {
      if e.expiresAt > Last(w.cache, s) + maxTtl {
        var j :| j in w.calls && Cleaner(w.cache, w.calls[j], k.h, e, s);
      }
    }
  }

  lemma DropStep(w: World, i: nat, maxTtl: int)
    requires Inv(w, maxTtl) && i in w.calls && Dropping(w.calls[i].pc)
    ensures var (c', pc') := StepDrop(w.cache, w.calls[i]); Inv(Moved(w, i, c', pc'), maxTtl)
  {
    var (c', pc') := StepDrop(w.cache, w.calls[i]);
    assert CallOk(w.cache, w.calls[i], maxTtl);
    OthersKept(w, i, c', pc', maxTtl);
  }

  lemma IndexedCallOk(c: Cache, k: Call, maxTtl: int)
    requires Indexing(k.pc) && CallOk(c, k, maxTtl)
    ensures CallOk(c, k.(pc := StepIndex(c, k).1), maxTtl)
  {
    if !k.pc.UndoToken? {
      assert WriterOk(c, k, k.pc.st) ==> WriterOk(c, k.(pc := StepIndex(c, k).1), k.pc.st);
    }
  }

  lemma IndexStep(w: World, i: nat, maxTtl: int)
    requires Inv(w, maxTtl) && i in w.calls && Indexing(w.calls[i].pc)
    ensures var (c', pc') := StepIndex(w.cache, w.calls[i]); Inv(Moved(w, i, c', pc'), maxTtl)
  {
    var k := w.calls[i];
    var (c', pc') := StepIndex(w.cache, k);
    PrunedIndex(w.cache, k);
    assert CallOk(w.cache, k, maxTtl);
    IndexedCallOk(w.cache, k, maxTtl);
    SameCall(w.cache, c', k.(pc := pc'), maxTtl);
    OthersKept(w, i, c', pc', maxTtl);
  }

  /** The recheck after an insert never misses a revocation that came before the insert. */
  lemma RecheckBlocks(w: World, i: nat, maxTtl: int, limit: int, s: Subject)
    requires Inv(w, maxTtl) && Timely(w, limit) && limit < maxTtl && i in w.calls && !Done(w.calls[i].pc)
    requires Count(w.cache.revocations, s) > 0 && w.calls[i].started <= Last(w.cache, s)
    ensures Blocked(w.cache, s)
  {
    BlockedExactly(w.cache, s, maxTtl);
  }

  lemma WriteStep(w: World, i: nat, maxTtl: int, limit: int, answer: Upstream)
    requires Inv(w, maxTtl) && Timely(w, limit) && limit < maxTtl && i in w.calls
    requires var pc := w.calls[i].pc; !Reading(pc) && !Dropping(pc) && !Indexing(pc) && !pc.AddEntry?
    ensures Inv(Moved(w, i, w.cache, StepWriter(w.cache, w.calls[i], maxTtl, answer)), maxTtl)
  {
    var k := w.calls[i];
    var pc' := StepWriter(w.cache, k, maxTtl, answer);
    assert CallOk(w.cache, k, maxTtl);
    forall h, s | h in w.cache.lru && Stale(w.cache, w.cache.lru[h].st, s) && Concerns(s, w.cache.lru[h].st.res)
                  && Cleaner(w.cache, k, h, w.cache.lru[h], s)
      ensures Cleaner(w.cache, k.(pc := pc'), h, w.cache.lru[h], s)
    {
      RecheckBlocks(w, i, maxTtl, limit, s);
    }
    OthersKept(w, i, w.cache, pc', maxTtl);
  }

  /** A new entry is sound: if it is stale, the call that adds it will remove it. */
  lemma AddedEntryOk(w: World, i: nat, maxTtl: int)
    requires Inv(w, maxTtl) && i in w.calls && w.calls[i].pc.AddEntry?
    ensures var e := w.calls[i].pc.e;
            EntryOk(Moved(w, i, w.cache.(lru := w.cache.lru[w.calls[i].h := e]), RecheckToken(e)), w.calls[i].h, maxTtl)
  {
    var k := w.calls[i];
    var e := k.pc.e;
    assert CallOk(w.cache, k, maxTtl);
    var w' := Moved(w, i, w.cache.(lru := w.cache.lru[k.h := e]), RecheckToken(e));
    forall s | Stale(w'.cache, e.st, s) && Concerns(s, e.st.res) ensures Cleaner(w'.cache, w'.calls[i], k.h, e, s) {
      assert Stale(w.cache, e.st, s);
    }
  }

  lemma AddStep(w: World, i: nat, maxTtl: int)
    requires Inv(w, maxTtl) && i in w.calls && w.calls[i].pc.AddEntry?
    ensures var e := w.calls[i].pc.e;
            Inv(Moved(w, i, w.cache.(lru := w.cache.lru[w.calls[i].h := e]), RecheckToken(e)), maxTtl)
  {
    var k := w.calls[i];
    var e := k.pc.e;
    var c' := w.cache.(lru := w.cache.lru[k.h := e]);
    var w' := Moved(w, i, c', RecheckToken(e));
    TombsPruned(w.cache, c', maxTtl);
    assert CallOk(w.cache, k, maxTtl);
    forall j | j in w'.calls ensures CallOk(c', w'.calls[j], maxTtl) {
      if j != i { SameCall(w.cache, c', w.calls[j], maxTtl); }
    }
    forall h | h in c'.lru ensures EntryOk(w', h, maxTtl) {
      if h == k.h { AddedEntryOk(w, i, maxTtl); } else { EntryKept(w, i, c', RecheckToken(e), maxTtl, h); }
    }
  }

  lemma AdvanceStep(w: World, i: nat, maxTtl: int, limit: int, answer: Upstream)
    requires Inv(w, maxTtl) && Timely(w, limit) && limit < maxTtl && i in w.calls
    ensures Inv(Next(w, maxTtl, Advance(i, answer)), maxTtl)
  {
    var k := w.calls[i];
    if Reading(k.pc) { ReadStep(w, i, maxTtl, limit); }
    else if Dropping(k.pc) { DropStep(w, i, maxTtl); }
    else if Indexing(k.pc) { IndexStep(w, i, maxTtl); }
    else if k.pc.AddEntry? { AddStep(w, i, maxTtl); }
    else { WriteStep(w, i, maxTtl, limit, answer); }
  }

  /** When a subject is revoked, whatever is cached or on its way was there before. */
  lemma RevokeKeepsCall(c: Cache, s: Subject, k: Call, maxTtl: int)
    requires TombsOk(c, maxTtl) && CallOk(c, k, maxTtl) && maxTtl > 0
    ensures CallOk(Revoke(c, s, maxTtl), k, maxTtl)
  {
    var c' := Revoke(c, s, maxTtl);
    if c' != c {
      forall st: Stamped, t | Stale(c', st, t) ensures t == s || (Stale(c, st, t) && Last(c', t) == Last(c, t)) {}
      assert Last(c', s) == c.now;
    }
  }

  lemma RevokeKeepsEntry(w: World, s: Subject, h: Digest, maxTtl: int)
    requires Inv(w, maxTtl) && h in w.cache.lru
    ensures EntryOk(w.(cache := Revoke(w.cache, s, maxTtl)), h, maxTtl)
  {
    var w' := w.(cache := Revoke(w.cache, s, maxTtl));
    var e := w.cache.lru[h];
    assert EntryOk(w, h, maxTtl);
    forall t | Stale(w'.cache, e.st, t) && Concerns(t, e.st.res) && e.expiresAt > Last(w'.cache, t) + maxTtl
      ensures exists j :: j in w'.calls && Cleaner(w'.cache, w'.calls[j], h, e, t)
    {
      assert t != s || w' == w;
      assert Stale(w.cache, e.st, t) && Last(w'.cache, t) == Last(w.cache, t);
      var j :| j in w.calls && Cleaner(w.cache, w.calls[j], h, e, t);
      assert Cleaner(w'.cache, w'.calls[j], h, e, t);
    }
  }

  lemma RevokeStepOk(w: World, s: Subject, maxTtl: int)
    requires Inv(w, maxTtl) && maxTtl > 0
    ensures Inv(Next(w, maxTtl, RevokeStep(s)), maxTtl)
  {
    var w' := Next(w, maxTtl, RevokeStep(s));
    TombsRevoke(w.cache, s, maxTtl);
    forall j | j in w'.calls ensures CallOk(w'.cache, w'.calls[j], maxTtl) {
      RevokeKeepsCall(w.cache, s, w.calls[j], maxTtl);
    }
    forall h | h in w'.cache.lru ensures EntryOk(w', h, maxTtl) { RevokeKeepsEntry(w, s, h, maxTtl); }
  }

  lemma TickKeepsCall(c: Cache, c': Cache, k: Call, maxTtl: int)
    requires TombsOk(c, maxTtl) && CallOk(c, k, maxTtl) && c' == c.(now := c'.now) && c.now <= c'.now
    ensures CallOk(c', k, maxTtl)
  {
    forall st: Stamped, t | Stale(c', st, t) ensures Stale(c, st, t) && Last(c', t) == Last(c, t) {
      assert TombOk(c, t, maxTtl);
    }
  }

  lemma TickOk(w: World, elapsed: nat, maxTtl: int)
    requires Inv(w, maxTtl)
    ensures Inv(Next(w, maxTtl, Tick(elapsed)), maxTtl)
  {
    var w' := Next(w, maxTtl, Tick(elapsed));
    forall t ensures TombOk(w'.cache, t, maxTtl) { assert TombOk(w.cache, t, maxTtl); }
    forall j | j in w'.calls ensures CallOk(w'.cache, w'.calls[j], maxTtl) {
      TickKeepsCall(w.cache, w'.cache, w.calls[j], maxTtl);
    }
    forall h | h in w'.cache.lru ensures EntryOk(w', h, maxTtl) {
      var e := w.cache.lru[h];
      assert EntryOk(w, h, maxTtl);
      forall t | Stale(w'.cache, e.st, t) && Concerns(t, e.st.res) && e.expiresAt > Last(w'.cache, t) + maxTtl
        ensures exists j :: j in w'.calls && Cleaner(w'.cache, w'.calls[j], h, e, t)
      {
        assert Stale(w.cache, e.st, t) && Last(w'.cache, t) == Last(w.cache, t);
        var j :| j in w.calls && Cleaner(w.cache, w.calls[j], h, e, t);
        assert Cleaner(w'.cache, w'.calls[j], h, e, t);
      }
    }
  }

  /** Evictions, index removals and new calls. */
  lemma QuietOk(w: World, w': World, maxTtl: int)
    requires Inv(w, maxTtl) && Pruned(w.cache, w'.cache)
    requires forall h :: h in w'.cache.lru ==> h in w.cache.lru && w'.cache.lru[h] == w.cache.lru[h]
    requires forall i :: i in w.calls ==> i in w'.calls && w'.calls[i] == w.calls[i]
    requires forall i :: i in w'.calls && i !in w.calls ==>
            w'.calls[i].started == w.cache.now && (w'.calls[i].pc == Fetch || w'.calls[i].pc == Lookup)
    ensures Inv(w', maxTtl)
  {
    TombsPruned(w.cache, w'.cache, maxTtl);
    forall j | j in w'.calls ensures CallOk(w'.cache, w'.calls[j], maxTtl) {
      if j in w.calls { SameCall(w.cache, w'.cache, w.calls[j], maxTtl); }
    }
    forall h | h in w'.cache.lru ensures EntryOk(w', h, maxTtl) {
      var e := w.cache.lru[h];
      assert EntryOk(w, h, maxTtl);
      forall t | Stale(w'.cache, e.st, t) && Concerns(t, e.st.res) && e.expiresAt > Last(w'.cache, t) + maxTtl
        ensures exists j :: j in w'.calls && Cleaner(w'.cache, w'.calls[j], h, e, t)
      {
        assert Stale(w.cache, e.st, t);
        var j :| j in w.calls && Cleaner(w.cache, w.calls[j], h, e, t);
        assert Cleaner(w'.cache, w'.calls[j], h, e, t);
      }
    }
  }

  lemma InvStep(w: World, maxTtl: int, limit: int, step: Step)
    requires Inv(w, maxTtl) && Timely(w, limit) && 0 <= limit < maxTtl
    ensures Inv(Next(w, maxTtl, step), maxTtl)
  {
    match step
    case Advance(i, answer) => if i in w.calls { AdvanceStep(w, i, maxTtl, limit, answer); }
    case RevokeStep(s) => RevokeStepOk(w, s, maxTtl);
    case Tick(elapsed) => TickOk(w, elapsed, maxTtl);
    case _ => QuietOk(w, Next(w, maxTtl, step), maxTtl);
  }

  lemma {:induction false} InvAlways(w: World, maxTtl: int, limit: int, steps: seq<Step>)
    requires Inv(w, maxTtl) && AlwaysTimely(w, maxTtl, limit, steps) && 0 <= limit < maxTtl
    ensures Inv(Run(w, maxTtl, steps), maxTtl) && Timely(Run(w, maxTtl, steps), limit)
    decreases |steps|
  {
    if steps != [] {
      InvStep(w, maxTtl, limit, steps[0]);
      InvAlways(Next(w, maxTtl, steps[0]), maxTtl, limit, steps[1..]);
    }
  }

  // ---------------------------------------------------------------- revocation safety

  /** The second check of a subject lets call i through although its entry is older than the latest
      revocation of that subject. */
  predicate Leaks(w: World, i: nat, s: Subject) {
    && i in w.calls
    && (match w.calls[i].pc
        case CheckToken(e, second) => second && s == Tok(e.st.res.token) && Stale(w.cache, e.st, s)
        case CheckOrg(e, second) => second && s == Org(e.st.res.org) && Stale(w.cache, e.st, s)
        case _ => false)
    && !Blocked(w.cache, s)
  }

  /** The exact extent of the leak. In every run whose calls all last less than the cache's time to live, a cached
      result older than a revocation passes its last check only in a call that started before the
      tombstone of that revocation ended and makes the check at or after that end. */
  lemma LeakOnlyAcrossTombstoneEnd(now: int, maxTtl: int, limit: int, steps: seq<Step>, i: nat, s: Subject)
    requires 0 <= limit < maxTtl && AlwaysTimely(Init(now), maxTtl, limit, steps)
    requires Leaks(Run(Init(now), maxTtl, steps), i, s)
    ensures var w := Run(Init(now), maxTtl, steps);
            w.calls[i].started < Last(w.cache, s) + maxTtl <= w.cache.now
  {
    InvAlways(Init(now), maxTtl, limit, steps);
    var w := Run(Init(now), maxTtl, steps);
    assert CallOk(w.cache, w.calls[i], maxTtl);
    BlockedExactly(w.cache, s, maxTtl);
  }

  /** A lookup that goes on through the caches it meets, one at each of its steps. */
  function ReadThrough(h: Digest, pc: Pc, met: seq<Cache>): Pc
    decreases |met|
  {
    if met == [] || !Reading(pc) then pc else ReadThrough(h, StepReader(met[0], Call(h, 0, pc)), met[1..])
  }

  lemma ReadOne(h: Digest, pc: Pc, c: Cache, met: seq<Cache>)
    requires Reading(pc)
    ensures ReadThrough(h, pc, [c] + met) == ReadThrough(h, StepReader(c, Call(h, 0, pc)), met)
  {
    assert ([c] + met)[1..] == met;
  }

  /** The second pair of checks. */
  lemma ReadsTwo(h: Digest, e: Entry, c3: Cache, c4: Cache)
    ensures ReadThrough(h, CheckToken(e, true), [c3] + [c4]) == Hit(e) <==>
            !Blocked(c3, Tok(e.st.res.token)) && !Blocked(c4, Org(e.st.res.org))
  {
    ReadOne(h, CheckToken(e, true), c3, [c4]);
    assert [c4] + [] == [c4];
    ReadOne(h, CheckOrg(e, true), c4, []);
  }

  /** A found entry is handed out if and only if its expiry is read before its end and none of the four
      checks finds a live tombstone. */
  lemma ReadsFive(h: Digest, e: Entry, c0: Cache, c1: Cache, c2: Cache, c3: Cache, c4: Cache)
    ensures ReadThrough(h, TestExpiry(e), [c0] + ([c1] + ([c2] + ([c3] + [c4])))) == Hit(e) <==>
            && c0.now < e.expiresAt
            && !Blocked(c1, Tok(e.st.res.token)) && !Blocked(c2, Org(e.st.res.org))
            && !Blocked(c3, Tok(e.st.res.token)) && !Blocked(c4, Org(e.st.res.org))
  {
    ReadOne(h, TestExpiry(e), c0, [c1] + ([c2] + ([c3] + [c4])));
    ReadOne(h, CheckToken(e, false), c1, [c2] + ([c3] + [c4]));
    ReadOne(h, CheckOrg(e, false), c2, [c3] + [c4]);
    ReadsTwo(h, e, c3, c4);
  }

  lemma BlockedExactly(c: Cache, s: Subject, maxTtl: int)
    requires TombsOk(c, maxTtl) && Count(c.revocations, s) > 0
    ensures Blocked(c, s) <==> c.now < Last(c, s) + maxTtl
  {
    assert TombOk(c, s, maxTtl);
  }

  /** The subject's checks find no live tombstone. */
  predicate Passes(first: Cache, second: Cache, s: Subject, maxTtl: int) {
    Last(first, s) + maxTtl <= first.now && Last(second, s) + maxTtl <= second.now
  }

  /** Exactly when a stale entry is handed out: a lookup meets five caches, at its expiry test and its
      four checks, all of a run. Its entry, older than a revocation of its token, is handed out if and
      only if the expiry is read before its end, both token checks read the clock at or after the end
      of the tombstone, and the organization is not blocked; likewise for its organization. */
  lemma StalePassesExactly(h: Digest, e: Entry, c0: Cache, c1: Cache, c2: Cache, c3: Cache, c4: Cache, maxTtl: int)
    requires TombsOk(c1, maxTtl) && TombsOk(c2, maxTtl) && TombsOk(c3, maxTtl) && TombsOk(c4, maxTtl)
    ensures var tok, org := Tok(e.st.res.token), Org(e.st.res.org);
            var out := ReadThrough(h, TestExpiry(e), [c0] + ([c1] + ([c2] + ([c3] + [c4]))));
            && (Stale(c1, e.st, tok) && Stale(c3, e.st, tok) ==>
                  (out == Hit(e) <==>
                   c0.now < e.expiresAt && Passes(c1, c3, tok, maxTtl) && !Blocked(c2, org) && !Blocked(c4, org)))
            && (Stale(c2, e.st, org) && Stale(c4, e.st, org) ==>
                  (out == Hit(e) <==>
                   c0.now < e.expiresAt && Passes(c2, c4, org, maxTtl) && !Blocked(c1, tok) && !Blocked(c3, tok)))
  {
    var tok, org := Tok(e.st.res.token), Org(e.st.res.org);
    ReadsFive(h, e, c0, c1, c2, c3, c4);
    if Stale(c1, e.st, tok) && Stale(c3, e.st, tok) {
      BlockedExactly(c1, tok, maxTtl);
      BlockedExactly(c3, tok, maxTtl);
    }
    if Stale(c2, e.st, org) && Stale(c4, e.st, org) {
      BlockedExactly(c2, org, maxTtl);
      BlockedExactly(c4, org, maxTtl);
    }
  }

  // ---------------------------------------------------------------- the leak is real

  ghost predicate Reachable(w: World, maxTtl: int, limit: int) {
    exists now, steps :: AlwaysTimely(Init(now), maxTtl, limit, steps) && Run(Init(now), maxTtl, steps) == w
  }

  lemma {:induction false} RunSnoc(w: World, maxTtl: int, limit: int, steps: seq<Step>, step: Step)
    requires AlwaysTimely(w, maxTtl, limit, steps)
    requires Timely(Next(Run(w, maxTtl, steps), maxTtl, step), limit)
    ensures AlwaysTimely(w, maxTtl, limit, steps + [step])
    ensures Run(w, maxTtl, steps + [step]) == Next(Run(w, maxTtl, steps), maxTtl, step)
    decreases |steps|
  {
    var all := steps + [step];
    if steps == [] {
      assert all == [step] && all[1..] == [];
      assert AlwaysTimely(Next(w, maxTtl, step), maxTtl, limit, []);
    } else {
      assert all[0] == steps[0] && all[1..] == steps[1..] + [step];
      RunSnoc(Next(w, maxTtl, steps[0]), maxTtl, limit, steps[1..], step);
    }
  }

  lemma ReachableNext(w: World, maxTtl: int, limit: int, step: Step)
    requires Reachable(w, maxTtl, limit) && Timely(Next(w, maxTtl, step), limit)
    ensures Reachable(Next(w, maxTtl, step), maxTtl, limit)
  {
    var now, steps :| AlwaysTimely(Init(now), maxTtl, limit, steps) && Run(Init(now), maxTtl, steps) == w;
    RunSnoc(Init(now), maxTtl, limit, steps, step);
  }

  const RESULT := Result("t", 0, None, 0)
  const STAMPED := Stamped(RESULT, map[])

  const GONE := Gone("h", RESULT)

  /** At time 0, with no tombstone: call i at the given place, and other calls beside it. */
  function At(calls: map<nat, Call>, i: nat, lru: map<Digest, Entry>, byId: map<string, Digest>,
              pending: set<Gone>, pc: Pc)
    : World
  {
    World(Place(lru, byId, pending), calls[i := Call("h", 0, pc)])
  }

  predicate AllDone(calls: map<nat, Call>) {
    forall j :: j in calls ==> Done(calls[j].pc)
  }

  /** What is left of a place in the model when the calls do not matter. */
  function Place(lru: map<Digest, Entry>, byId: map<string, Digest>, pending: set<Gone>): Cache {
    Cache(lru, TokenIx(byId, map[]), OrgIx(map[], map[]), pending, map[], map[], 0)
  }

  lemma CallStep(calls: map<nat, Call>, i: nat, pending: set<Gone>,
                 lru: map<Digest, Entry>, byId: map<string, Digest>, pc: Pc,
                 lru': map<Digest, Entry>, byId': map<string, Digest>, pc': Pc, maxTtl: int, limit: int, a: Upstream)
    requires 0 <= limit && AllDone(calls) && i !in calls &&
            Reachable(At(calls, i, lru, byId, pending, pc), maxTtl, limit)
    requires StepCall(Place(lru, byId, pending), Call("h", 0, pc), maxTtl, a) == (Place(lru', byId', pending), pc')
    ensures Reachable(At(calls, i, lru', byId', pending, pc'), maxTtl, limit)
  {
    var w, w' := At(calls, i, lru, byId, pending, pc), At(calls, i, lru', byId', pending, pc');
    assert w.calls[i := Call("h", 0, pc')] == w'.calls;
    assert Next(w, maxTtl, Advance(i, a)) == w';
    ReachableNext(w, maxTtl, limit, Advance(i, a));
  }

  lemma ReachesFetch(calls: map<nat, Call>, i: nat, byId: map<string, Digest>, pending: set<Gone>,
    maxTtl: int, limit: int)
    requires 1 <= limit < maxTtl && AllDone(calls) && i !in calls
    requires Reachable(World(Place(map[], byId, pending), calls), maxTtl, limit)
    ensures Reachable(At(calls, i, map[], byId, pending, Fetch), maxTtl, limit)
  {
    var w := World(Place(map[], byId, pending), calls);
    assert Next(w, maxTtl, Start(i, "h", true)) == At(calls, i, map[], byId, pending, Fetch);
    ReachableNext(w, maxTtl, limit, Start(i, "h", true));
  }

  lemma ReachesIndex(calls: map<nat, Call>, i: nat, byId: map<string, Digest>, pending: set<Gone>,
    maxTtl: int, limit: int)
    requires 1 <= limit < maxTtl && AllDone(calls) && i !in calls
    requires Reachable(World(Place(map[], byId, pending), calls), maxTtl, limit)
    ensures Reachable(At(calls, i, map[], byId, pending, IndexToken(STAMPED, maxTtl)), maxTtl, limit)
  {
    var p := ComputeTtl(STAMPED);
    ReachesFetch(calls, i, byId, pending, maxTtl, limit);
    CallStep(calls, i, pending, map[], byId, Fetch, map[], byId, p, maxTtl, limit, Accepts(RESULT));
    CallStep(calls, i, pending, map[], byId, p, map[], byId, IndexToken(STAMPED, maxTtl), maxTtl, limit, Rejects);
  }

  lemma ReachesOrg(calls: map<nat, Call>, i: nat, byId: map<string, Digest>, pending: set<Gone>,
    maxTtl: int, limit: int)
    requires 1 <= limit < maxTtl && AllDone(calls) && i !in calls
    requires Reachable(World(Place(map[], byId, pending), calls), maxTtl, limit)
    ensures Reachable(At(calls, i, map[], byId["t" := "h"], pending, IndexOrg(STAMPED, maxTtl)), maxTtl, limit)
  {
    var ix := byId["t" := "h"];
    ReachesIndex(calls, i, byId, pending, maxTtl, limit);
    CallStep(calls, i, pending, map[], byId, IndexToken(STAMPED, maxTtl), map[], ix, IndexOrg(STAMPED, maxTtl), maxTtl,
      limit, Rejects);
  }

  lemma ReachesAdd(calls: map<nat, Call>, i: nat, byId: map<string, Digest>, pending: set<Gone>,
    maxTtl: int, limit: int)
    requires 1 <= limit < maxTtl && AllDone(calls) && i !in calls
    requires Reachable(World(Place(map[], byId, pending), calls), maxTtl, limit)
    ensures Reachable(At(calls, i, map[], byId["t" := "h"], pending, AddEntry(Entry(STAMPED, maxTtl))), maxTtl, limit)
  {
    var ix, p, q := byId["t" := "h"], IndexOrg(STAMPED, maxTtl), StampEntry(STAMPED, maxTtl);
    ReachesOrg(calls, i, byId, pending, maxTtl, limit);
    CallStep(calls, i, pending, map[], ix, p, map[], ix, q, maxTtl, limit, Rejects);
    CallStep(calls, i, pending, map[], ix, q, map[], ix, AddEntry(Entry(STAMPED, maxTtl)), maxTtl, limit, Rejects);
  }

  lemma ReachesRecheck(calls: map<nat, Call>, i: nat, byId: map<string, Digest>, pending: set<Gone>,
    maxTtl: int, limit: int)
    requires 1 <= limit < maxTtl && AllDone(calls) && i !in calls
    requires Reachable(World(Place(map[], byId, pending), calls), maxTtl, limit)
    ensures var e := Entry(STAMPED, maxTtl);
            Reachable(At(calls, i, map["h" := e], byId["t" := "h"], pending, RecheckToken(e)), maxTtl, limit)
  {
    var e, ix := Entry(STAMPED, maxTtl), byId["t" := "h"];
    ReachesAdd(calls, i, byId, pending, maxTtl, limit);
    CallStep(calls, i, pending, map[], ix, AddEntry(e), map["h" := e], ix, RecheckToken(e), maxTtl, limit, Rejects);
  }

  /** A call that finds the cache empty caches and indexes the result. */
  lemma ReachesCached(calls: map<nat, Call>, i: nat, byId: map<string, Digest>, pending: set<Gone>,
    maxTtl: int, limit: int)
    requires 1 <= limit < maxTtl && AllDone(calls) && i !in calls
    requires Reachable(World(Place(map[], byId, pending), calls), maxTtl, limit)
    ensures var lru := map["h" := Entry(STAMPED, maxTtl)];
            Reachable(At(calls, i, lru, byId["t" := "h"], pending, Answered(STAMPED)), maxTtl, limit)
  {
    var e, ix := Entry(STAMPED, maxTtl), byId["t" := "h"];
    var lru := map["h" := e];
    ReachesRecheck(calls, i, byId, pending, maxTtl, limit);
    CallStep(calls, i, pending, lru, ix, RecheckToken(e), lru, ix, RecheckOrg(e), maxTtl, limit, Rejects);
    CallStep(calls, i, pending, lru, ix, RecheckOrg(e), lru, ix, Answered(STAMPED), maxTtl, limit, Rejects);
  }

  const FIRST := map[0 := Call("h", 0, Answered(STAMPED))]

  /** The entry is evicted and its callback has not run. */
  lemma ReachableEvicted(maxTtl: int, limit: int)
    requires 1 <= limit < maxTtl
    ensures Reachable(World(Place(map[], map["t" := "h"], {GONE}), FIRST), maxTtl, limit)
  {
    var e := Entry(STAMPED, maxTtl);
    assert AlwaysTimely(Init(0), maxTtl, limit, []) && Run(Init(0), maxTtl, []) == Init(0);
    ReachesCached(map[], 0, map[], {}, maxTtl, limit);
    var w := At(map[], 0, map["h" := e], map["t" := "h"], {}, Answered(STAMPED));
    ReachableNext(w, maxTtl, limit, Evict("h"));
    assert Next(w, maxTtl, Evict("h")) == World(Place(map[], map["t" := "h"], {GONE}), FIRST);
  }

  const SECOND := map[0 := Call("h", 0, Answered(STAMPED)), 2 := Call("h", 0, Answered(STAMPED))]

  /** Call 2 caches the same digest again, and then the callback of the first eviction takes it out of
      the index. */
  lemma ReachableUnindexed(maxTtl: int, limit: int)
    requires 1 <= limit < maxTtl
    ensures Reachable(At(FIRST, 2, map["h" := Entry(STAMPED, maxTtl)], map[], {}, Answered(STAMPED)), maxTtl, limit)
  {
    ReachableEvicted(maxTtl, limit);
    ReachesCached(FIRST, 2, map["t" := "h"], {GONE}, maxTtl, limit);
    var w := At(FIRST, 2, map["h" := Entry(STAMPED, maxTtl)], map["t" := "h"]["t" := "h"], {GONE}, Answered(STAMPED));
    ReachableNext(w, maxTtl, limit, LateUnindex(GONE));
    assert Next(w, maxTtl, LateUnindex(GONE)) ==
      At(FIRST, 2, map["h" := Entry(STAMPED, maxTtl)], map[], {}, Answered(STAMPED));
  }

  /** The world after token t was revoked at time 0 and the index had already lost its digest. */
  function Revoked(maxTtl: int, now: int, calls: map<nat, Call>): World {
    World(Cache(map["h" := Entry(STAMPED, maxTtl)], TokenIx(map[], map["t" := maxTtl]), OrgIx(map[], map[]), {},
                map[Tok("t") := 1], map[Tok("t") := 0], now), SECOND + calls)
  }

  lemma ReachableRevoked(maxTtl: int, limit: int)
    requires 1 <= limit < maxTtl
    ensures Reachable(Revoked(maxTtl, maxTtl - 1, map[]), maxTtl, limit)
  {
    ReachableUnindexed(maxTtl, limit);
    var w1 := At(FIRST, 2, map["h" := Entry(STAMPED, maxTtl)], map[], {}, Answered(STAMPED));
    ReachableNext(w1, maxTtl, limit, RevokeStep(Tok("t")));
    var w2 := Next(w1, maxTtl, RevokeStep(Tok("t")));
    assert w2 == Revoked(maxTtl, 0, map[]);
    ReachableNext(w2, maxTtl, limit, Tick(maxTtl - 1));
    assert Next(w2, maxTtl, Tick(maxTtl - 1)) == Revoked(maxTtl, maxTtl - 1, map[]);
  }

  function Reader(maxTtl: int, now: int, pc: Pc): World {
    Revoked(maxTtl, now, map[1 := Call("h", maxTtl - 1, pc)])
  }

  lemma ReaderStep(maxTtl: int, limit: int, now: int, pc: Pc, pc': Pc)
    requires 1 <= limit < maxTtl && maxTtl - 1 <= now <= maxTtl && Reading(pc)
    requires Reachable(Reader(maxTtl, now, pc), maxTtl, limit)
    requires StepReader(Reader(maxTtl, now, pc).cache, Call("h", maxTtl - 1, pc)) == pc'
    ensures Reachable(Reader(maxTtl, now, pc'), maxTtl, limit)
  {
    var w := Reader(maxTtl, now, pc);
    ReachableNext(w, maxTtl, limit, Advance(1, Rejects));
    assert Next(w, maxTtl, Advance(1, Rejects)) == Reader(maxTtl, now, pc');
  }

  lemma ReachableLookup(maxTtl: int, limit: int)
    requires 1 <= limit < maxTtl
    ensures Reachable(Reader(maxTtl, maxTtl - 1, Lookup), maxTtl, limit)
  {
    var w := Revoked(maxTtl, maxTtl - 1, map[]);
    ReachableRevoked(maxTtl, limit);
    ReachableNext(w, maxTtl, limit, Start(1, "h", false));
    assert Next(w, maxTtl, Start(1, "h", false)) == Reader(maxTtl, maxTtl - 1, Lookup);
  }

  lemma ReachableStraddle(maxTtl: int, limit: int)
    requires 1 <= limit < maxTtl
    ensures Reachable(Reader(maxTtl, maxTtl, CheckToken(Entry(STAMPED, maxTtl), false)), maxTtl, limit)
  {
    var e := Entry(STAMPED, maxTtl);
    ReachableLookup(maxTtl, limit);
    ReaderStep(maxTtl, limit, maxTtl - 1, Lookup, TestExpiry(e));
    ReaderStep(maxTtl, limit, maxTtl - 1, TestExpiry(e), CheckToken(e, false));
    var w1 := Reader(maxTtl, maxTtl - 1, CheckToken(e, false));
    ReachableNext(w1, maxTtl, limit, Tick(1));
    assert Next(w1, maxTtl, Tick(1)) == Reader(maxTtl, maxTtl, CheckToken(e, false));
  }

  /** A call that tests expiry one tick before the tombstone ends and revocation one tick later hands
      out a result revoked a full time to live ago. */
  lemma LeakIsReachable(maxTtl: int, limit: int)
    requires 1 <= limit < maxTtl
    ensures exists w :: Reachable(w, maxTtl, limit) && Leaks(w, 1, Tok("t"))
  {
    var e := Entry(STAMPED, maxTtl);
    ReachableStraddle(maxTtl, limit);
    ReaderStep(maxTtl, limit, maxTtl, CheckToken(e, false), CheckOrg(e, false));
    ReaderStep(maxTtl, limit, maxTtl, CheckOrg(e, false), CheckToken(e, true));
    assert Leaks(Reader(maxTtl, maxTtl, CheckToken(e, true)), 1, Tok("t"));
  }

  ghost predicate LeakFree(maxTtl: int, limit: int) {
    forall w, i, s :: Reachable(w, maxTtl, limit) ==> !Leaks(w, i, s)
  }

  /** No revoked result is ever handed out from the cache if and only if no time passes inside a call. */
  lemma LeakFreeExactly(maxTtl: int, limit: int)
    requires 0 <= limit < maxTtl
    ensures LeakFree(maxTtl, limit) <==> limit == 0
  {
    if limit == 0 {
      forall w, i, s | Reachable(w, maxTtl, limit) ensures !Leaks(w, i, s) {
        var now, steps :| AlwaysTimely(Init(now), maxTtl, limit, steps) && Run(Init(now), maxTtl, steps) == w;
        InvAlways(Init(now), maxTtl, limit, steps);
        if Leaks(w, i, s) { LeakOnlyAcrossTombstoneEnd(now, maxTtl, limit, steps, i, s); }
      }
    } else {
      LeakIsReachable(maxTtl, limit);
    }
  }

  // ---------------------------------------------------------------- calls finish, and the cache is used

  function Rank(pc: Pc): nat {
    match pc
    case Lookup => 22
    case TestExpiry(_) => 21
    case CheckToken(_, second) => if second then 18 else 20
    case CheckOrg(_, second) => if second then 17 else 19
    case DropIndex(_, after) => if after == Refetch then 16 else 4
    case DropEntry(_, after) => if after == Refetch then 15 else 3
    case DropCallback(_, _, after) => if after == Refetch then 14 else 2
    case Fetch => 12
    case ComputeTtl(_) => 11
    case IndexToken(_, _) => 10
    case IndexOrg(_, _) => 9
    case UndoToken(_) => 8
    case StampEntry(_, _) => 8
    case AddEntry(_) => 7
    case RecheckToken(_) => 6
    case RecheckOrg(_) => 5
    case _ => 0
  }

  /** Whatever happened to the cache in between, each step of a call brings it nearer to its end: no call
      takes more than twenty-two steps. */
  lemma StepsBounded(c: Cache, k: Call, maxTtl: int, answer: Upstream)
    requires !Done(k.pc)
    ensures Rank(StepCall(c, k, maxTtl, answer).1) < Rank(k.pc) <= 22
  {
  }

  /** The rest of a call that nothing interrupts. */
  function Finish(c: Cache, k: Call, maxTtl: int, answer: Upstream): (Cache, Pc)
    decreases Rank(k.pc)
  {
    if Done(k.pc) then (c, k.pc)
    else
      StepsBounded(c, k, maxTtl, answer);
      var (c', pc') := StepCall(c, k, maxTtl, answer);
      Finish(c', k.(pc := pc'), maxTtl, answer)
  }

  predicate Clear(c: Cache, res: Result) {
    !Blocked(c, Tok(res.token)) && !Blocked(c, Org(res.org))
  }

  lemma CheckedTwice(c: Cache, h: Digest, started: int, e: Entry, maxTtl: int, answer: Upstream)
    requires Clear(c, e.st.res)
    ensures Finish(c, Call(h, started, CheckToken(e, false)), maxTtl, answer) == (c, Hit(e))
  {
    var k := Call(h, started, CheckToken(e, true));
    assert Finish(c, k, maxTtl, answer) == Finish(c, k.(pc := CheckOrg(e, true)), maxTtl, answer) == (c, Hit(e));
    assert Finish(c, k.(pc := CheckOrg(e, false)), maxTtl, answer) == Finish(c, k, maxTtl, answer);
  }

  /** A cached result that is neither expired nor revoked is returned without asking upstream. */
  lemma CachedIsServed(c: Cache, h: Digest, started: int, maxTtl: int, answer: Upstream)
    requires h in c.lru && c.now < c.lru[h].expiresAt && Clear(c, c.lru[h].st.res)
    ensures Finish(c, Call(h, started, Lookup), maxTtl, answer) == (c, Hit(c.lru[h]))
  {
    var e := c.lru[h];
    CheckedTwice(c, h, started, e, maxTtl, answer);
    assert Finish(c, Call(h, started, TestExpiry(e)), maxTtl, answer) == (c, Hit(e));
  }

  lemma IndexingClears(c: Cache, res: Result, h: Digest)
    requires Clear(c, res)
    ensures var (c1, ok1) := PutToken(c, res.token, h);
            var (c2, ok2) := PutOrg(c1, res.org, h);
            ok1 && ok2 && Clear(c1, res) && Clear(c2, res) && c2.lru == c.lru && c2.now == c.now &&
              c2.revocations == c.revocations
  {
  }

  lemma AddedIsKept(c: Cache, h: Digest, started: int, st: Stamped, ttl: int, maxTtl: int, answer: Upstream)
    requires Clear(c, st.res)
    ensures var e := Entry(st, c.now + ttl);
            Finish(c, Call(h, started, StampEntry(st, ttl)), maxTtl, answer) == (c.(lru := c.lru[h := e]), Answered(st))
  {
    var e := Entry(st, c.now + ttl);
    var c' := c.(lru := c.lru[h := e]);
    assert Clear(c', st.res);
    FinishStep(c, Call(h, started, StampEntry(st, ttl)), maxTtl, answer, c, AddEntry(e));
    FinishStep(c, Call(h, started, AddEntry(e)), maxTtl, answer, c', RecheckToken(e));
    FinishStep(c', Call(h, started, RecheckToken(e)), maxTtl, answer, c', RecheckOrg(e));
    FinishStep(c', Call(h, started, RecheckOrg(e)), maxTtl, answer, c', Answered(st));
  }

  lemma FinishStep(c: Cache, k: Call, maxTtl: int, answer: Upstream, c': Cache, pc': Pc)
    requires !Done(k.pc) && StepCall(c, k, maxTtl, answer) == (c', pc')
    ensures Finish(c, k, maxTtl, answer) == Finish(c', k.(pc := pc'), maxTtl, answer)
  {
  }

  lemma IndexedIsKept(c: Cache, h: Digest, started: int, st: Stamped, ttl: int, maxTtl: int, answer: Upstream)
    requires Clear(c, st.res)
    ensures var (c', pc') := Finish(c, Call(h, started, IndexToken(st, ttl)), maxTtl, answer);
            pc' == Answered(st) && c'.lru == c.lru[h := Entry(st, c.now + ttl)] && c'.now == c.now && Clear(c', st.res)
  {
    var c1 := PutToken(c, st.res.token, h).0;
    var c2 := PutOrg(c1, st.res.org, h).0;
    IndexingClears(c, st.res, h);
    FinishStep(c, Call(h, started, IndexToken(st, ttl)), maxTtl, answer, c1, IndexOrg(st, ttl));
    FinishStep(c1, Call(h, started, IndexOrg(st, ttl)), maxTtl, answer, c2, StampEntry(st, ttl));
    AddedIsKept(c2, h, started, st, ttl, maxTtl, answer);
  }

  lemma FetchIndexes(c: Cache, h: Digest, started: int, maxTtl: int, res: Result)
    requires CacheTtl(res, maxTtl, c.now) > 0
    ensures Finish(c, Call(h, started, Fetch), maxTtl, Accepts(res))
         == Finish(c, Call(h, started, IndexToken(Stamped(res, c.revocations), CacheTtl(res, maxTtl, c.now))),
                   maxTtl, Accepts(res))
  {
    var st, ttl, a := Stamped(res, c.revocations), CacheTtl(res, maxTtl, c.now), Accepts(res);
    FinishStep(c, Call(h, started, Fetch), maxTtl, a, c, ComputeTtl(st));
    FinishStep(c, Call(h, started, ComputeTtl(st)), maxTtl, a, c, IndexToken(st, ttl));
  }

  /** What upstream accepts, and no tombstone forbids, is cached for its time to live, stamped with the
      revocations seen before asking. */
  lemma AcceptedIsCached(c: Cache, h: Digest, started: int, maxTtl: int, res: Result)
    requires Clear(c, res) && CacheTtl(res, maxTtl, c.now) > 0
    ensures var (c', pc') := Finish(c, Call(h, started, Fetch), maxTtl, Accepts(res));
            var st := Stamped(res, c.revocations);
            pc' == Answered(st) && c'.lru == c.lru[h := Entry(st, c.now + CacheTtl(res, maxTtl, c.now))] &&
              c'.now == c.now && Clear(c', res)
  {
    FetchIndexes(c, h, started, maxTtl, res);
    IndexedIsKept(c, h, started, Stamped(res, c.revocations), CacheTtl(res, maxTtl, c.now), maxTtl, Accepts(res));
  }

  // ---------------------------------------------------------------- the validator object

  /** The LRU removal of a digest, with its callback. */
  function Removed(c: Cache, h: Digest): Cache {
    if h in c.lru then Unindex(c.(lru := c.lru - {h}), h, c.lru[h].st.res) else c
  }

  function Evicted(c: Cache, h: Digest, res: Result): Cache {
    Removed(Unindex(c, h, res), h)
  }

  lemma EvictionFinishes(c: Cache, h: Digest, started: int, e: Entry, after: After, maxTtl: int, answer: Upstream)
    ensures Finish(c, Call(h, started, DropIndex(e, after)), maxTtl, answer)
         == Finish(Evicted(c, h, e.st.res), Call(h, started, AfterDrop(e, after)), maxTtl, answer)
  {
    var c1 := Unindex(c, h, e.st.res);
    FinishStep(c, Call(h, started, DropIndex(e, after)), maxTtl, answer, c1, DropEntry(e, after));
    if h in c1.lru {
      var c2, gone := c1.(lru := c1.lru - {h}), c1.lru[h];
      FinishStep(c1, Call(h, started, DropEntry(e, after)), maxTtl, answer, c2, DropCallback(gone, e, after));
      FinishStep(c2, Call(h, started, DropCallback(gone, e, after)), maxTtl, answer, Unindex(c2, h, gone.st.res),
        AfterDrop(e, after));
    } else {
      FinishStep(c1, Call(h, started, DropEntry(e, after)), maxTtl, answer, c1, AfterDrop(e, after));
    }
  }

  lemma BlockedReader(c: Cache, h: Digest, started: int, e: Entry, maxTtl: int, answer: Upstream)
    requires !Clear(c, e.st.res)
    ensures Finish(c, Call(h, started, CheckToken(e, false)), maxTtl, answer) ==
            Finish(c, Call(h, started, DropIndex(e, Refetch)), maxTtl, answer)
  {
    if Blocked(c, Tok(e.st.res.token)) {
      FinishStep(c, Call(h, started, CheckToken(e, false)), maxTtl, answer, c, DropIndex(e, Refetch));
    } else {
      FinishStep(c, Call(h, started, CheckToken(e, false)), maxTtl, answer, c, CheckOrg(e, false));
      FinishStep(c, Call(h, started, CheckOrg(e, false)), maxTtl, answer, c, DropIndex(e, Refetch));
    }
  }

  lemma BlockedWriter(c: Cache, h: Digest, started: int, e: Entry, maxTtl: int, answer: Upstream)
    requires !Clear(c, e.st.res)
    ensures Finish(c, Call(h, started, RecheckToken(e)), maxTtl, answer) ==
            Finish(c, Call(h, started, DropIndex(e, Return)), maxTtl, answer)
  {
    if Blocked(c, Tok(e.st.res.token)) {
      FinishStep(c, Call(h, started, RecheckToken(e)), maxTtl, answer, c, DropIndex(e, Return));
    } else {
      FinishStep(c, Call(h, started, RecheckToken(e)), maxTtl, answer, c, RecheckOrg(e));
      FinishStep(c, Call(h, started, RecheckOrg(e)), maxTtl, answer, c, DropIndex(e, Return));
    }
  }

  predicate Servable(c: Cache, h: Digest) {
    h in c.lru && c.now < c.lru[h].expiresAt && Clear(c, c.lru[h].st.res)
  }

  lemma LoneEviction(c: Cache, h: Digest, started: int, maxTtl: int, answer: Upstream)
    requires h in c.lru && !Servable(c, h)
    ensures Finish(c, Call(h, started, TestExpiry(c.lru[h])), maxTtl, answer)
         == Finish(Evicted(c, h, c.lru[h].st.res), Call(h, started, Fetch), maxTtl, answer)
  {
    var e := c.lru[h];
    EvictionFinishes(c, h, started, e, Refetch, maxTtl, answer);
    if c.now >= e.expiresAt {
      FinishStep(c, Call(h, started, TestExpiry(e)), maxTtl, answer, c, DropIndex(e, Refetch));
    } else {
      FinishStep(c, Call(h, started, TestExpiry(e)), maxTtl, answer, c, CheckToken(e, false));
      BlockedReader(c, h, started, e, maxTtl, answer);
    }
  }

  /** An uninterrupted lookup: a hit, or an eviction if there is anything to evict, and then upstream. */
  lemma LoneLookup(c: Cache, h: Digest, started: int, maxTtl: int, answer: Upstream)
    ensures Finish(c, Call(h, started, Lookup), maxTtl, answer)
         == if Servable(c, h) then (c, Hit(c.lru[h]))
            else
              var c' := if h in c.lru then Evicted(c, h, c.lru[h].st.res) else c;
              Finish(c', Call(h, started, Fetch), maxTtl, answer)
  {
    if h !in c.lru {
      FinishStep(c, Call(h, started, Lookup), maxTtl, answer, c, Fetch);
    } else if Servable(c, h) {
      CachedIsServed(c, h, started, maxTtl, answer);
    } else {
      FinishStep(c, Call(h, started, Lookup), maxTtl, answer, c, TestExpiry(c.lru[h]));
      LoneEviction(c, h, started, maxTtl, answer);
    }
  }

  /** The validator run by one caller at a time; each method does what the call's steps do when nothing
      comes between them. The clock and the revocations so far are kept beside the source's fields. */
  class CachingValidator {
    var lru: map<Digest, Entry>
    var now: int
    var revocations: map<Subject, nat>
    var last: map<Subject, int>
    const tokens: TokenIndex
    const orgs: OrgIndex
    const bloom: BloomFilter
    const maxTtl: int

    function View(): Cache
      reads this, tokens, orgs
    {
      Cache(lru, tokens.View(), orgs.View(), {}, revocations, last, now)
    }

    predicate Valid() {
      tokens.tombTtl == maxTtl && orgs.tombTtl == maxTtl
    }

    constructor (now: int, maxTtl: int, expected: nat)
      ensures Valid() && View() == Init(now).cache && this.maxTtl == maxTtl &&
              bloom.View() == Filter([], [], 0, expected)
      ensures fresh(tokens) && fresh(orgs) && fresh(bloom)
    {
      lru, this.now, revocations, last := map[], now, map[], map[];
      this.maxTtl := maxTtl;
      tokens := new TokenIndex(maxTtl);
      orgs := new OrgIndex(maxTtl);
      bloom := new BloomFilter(expected);
    }

    method CacheBlocked(token: string, org: nat) returns (blocked: bool)
      ensures blocked == (Blocked(View(), Tok(token)) || Blocked(View(), Org(org)))
    {
      blocked := tokens.IsRevoked(token, now);
      if !blocked { blocked := orgs.IsSuspended(org, now); }
    }

    /** The index removals of evictRevoked, dropCachedHash and the eviction callback. */
    method RemoveDigests(h: Digest, res: Result)
      modifies tokens, orgs
      ensures View() == Unindex(old(View()), h, res)
    {
      tokens.RemoveDigest(h, res.token);
      orgs.RemoveDigest(res.org, h);
    }

    /** The LRU removal, and the eviction callback on what it removed. */
    method RemoveFromLru(h: Digest)
      modifies this, tokens, orgs
      ensures View() == Removed(old(View()), h)
    {
      if h in lru {
        var res := lru[h].st.res;
        lru := lru - {h};
        RemoveDigests(h, res);
      }
    }

    method EvictRevoked(h: Digest, res: Result)
      modifies this, tokens, orgs
      ensures View() == Evicted(old(View()), h, res)
    {
      RemoveDigests(h, res);
      RemoveFromLru(h);
    }

    method LookupLru(h: Digest, ghost started: int, ghost answer: Upstream) returns (hit: Option<Entry>)
      modifies this, tokens, orgs
      ensures hit.Some? ==> Finish(old(View()), Call(h, started, Lookup), maxTtl, answer) == (View(), Hit(hit.value))
      ensures hit.None? ==>
                Finish(old(View()), Call(h, started, Lookup), maxTtl, answer) ==
                  Finish(View(), Call(h, started, Fetch), maxTtl, answer)
      ensures hit.Some? <==> Servable(old(View()), h)
    {
      LoneLookup(View(), h, started, maxTtl, answer);
      if h !in lru { return None; }
      var e := lru[h];
      var blocked := CacheBlocked(e.st.res.token, e.st.res.org);
      if now >= e.expiresAt || blocked {
        EvictRevoked(h, e.st.res);
        return None;
      }
      blocked := CacheBlocked(e.st.res.token, e.st.res.org);
      if blocked {
        assert false;
      }
      hit := Some(e);
    }

    method PutLru(h: Digest, st: Stamped, ghost started: int, ghost answer: Upstream)
      modifies this, tokens, orgs
      ensures (View(), Answered(st)) == Finish(old(View()), Call(h, started, ComputeTtl(st)), maxTtl, answer)
    {
      var ttl := CacheTtl(st.res, maxTtl, now);
      if ttl <= 0 {
        FinishStep(View(), Call(h, started, ComputeTtl(st)), maxTtl, answer, View(), Answered(st));
        return;
      }
      FinishStep(View(), Call(h, started, ComputeTtl(st)), maxTtl, answer, View(), IndexToken(st, ttl));
      ghost var before := View();
      var ok := tokens.Put(st.res.token, h, now);
      FinishStep(before, Call(h, started, IndexToken(st, ttl)), maxTtl, answer, View(),
                 if ok then IndexOrg(st, ttl) else Answered(st));
      if !ok { return; }
      PutOrgAndEntry(h, st, ttl, started, answer);
    }

    method PutOrgAndEntry(h: Digest, st: Stamped, ttl: int, ghost started: int, ghost answer: Upstream)
      modifies this, tokens, orgs
      ensures (View(), Answered(st)) == Finish(old(View()), Call(h, started, IndexOrg(st, ttl)), maxTtl, answer)
    {
      ghost var before := View();
      var ok := orgs.Put(st.res.org, h, now);
      FinishStep(before, Call(h, started, IndexOrg(st, ttl)), maxTtl, answer, View(),
                 if ok then StampEntry(st, ttl) else UndoToken(st));
      if !ok {
        ghost var undo := View();
        tokens.RemoveDigest(h, st.res.token);
        FinishStep(undo, Call(h, started, UndoToken(st)), maxTtl, answer, View(), Answered(st));
        return;
      }
      AddAndRecheck(h, st, ttl, started, answer);
    }

    method AddAndRecheck(h: Digest, st: Stamped, ttl: int, ghost started: int, ghost answer: Upstream)
      modifies this, tokens, orgs
      ensures (View(), Answered(st)) == Finish(old(View()), Call(h, started, StampEntry(st, ttl)), maxTtl, answer)
    {
      LoneAdd(View(), h, started, st, ttl, maxTtl, answer);
      var e := Entry(st, now + ttl);
      lru := lru[h := e];
      var blocked := CacheBlocked(st.res.token, st.res.org);
      if blocked { EvictRevoked(h, st.res); }
    }

    /** A hit, the upstream's answer, or its rejection, with exactly the cache that the call's steps
        leave behind; a digest goes into the filter exactly when upstream calls the token invalid. */
    method Validate(h: Digest, collides: (seq<Digest>, Digest) -> bool, answer: Upstream, invalid: bool)
      returns (out: Pc, asked: bool)
      modifies this, tokens, orgs, bloom
      ensures Tests(old(bloom.View()), h) ==> asked
      ensures (View(), out) == Finish(old(View()), Call(h, old(now), if asked then Fetch else Lookup), maxTtl, answer)
      ensures bloom.View() == if out == Failed && invalid then Add(old(bloom.View()), h) else old(bloom.View())
    {
      ghost var started := now;
      asked := bloom.Test(h, collides);
      if !asked {
        var hit := LookupLru(h, started, answer);
        if hit.Some? { return Hit(hit.value), asked; }
      }
      ghost var before := View();
      if answer.Rejects? {
        FinishStep(before, Call(h, started, Fetch), maxTtl, answer, before, Failed);
        if invalid { bloom.AddDigest(h); }
        return Failed, asked;
      }
      var st := Stamped(answer.res, revocations);
      FinishStep(before, Call(h, started, Fetch), maxTtl, answer, before, ComputeTtl(st));
      PutLru(h, st, started, answer);
      out := Answered(st);
    }

    method DropCachedHash(h: Digest)
      modifies this, tokens, orgs
      ensures View().lru == old(lru) - {h} && tokens.tomb == old(tokens.tomb) && orgs.tomb == old(orgs.tomb)
      ensures now == old(now) && revocations == old(revocations) && last == old(last)
    {
      if h in lru {
        RemoveDigests(h, lru[h].st.res);
        RemoveFromLru(h);
      } else {
        assert lru - {h} == lru;
      }
    }

    /** The tombstone goes up first; then the digest the index knew is dropped. */
    method InvalidateByTokenId(id: string)
      requires Valid()
      modifies this, tokens, orgs
      ensures var revoked := Revoke(old(View()), Tok(id), maxTtl);
              && tokens.tomb == revoked.tokens.tomb && revocations == revoked.revocations && last == revoked.last
              && lru == if id != "" && id in old(tokens.byId) then old(lru) - {old(tokens.byId)[id]} else old(lru)
    {
      var h := tokens.Revoke(id, now);
      Record(Tok(id), id == "");
      if h.None? { return; }
      DropCachedHash(h.value);
    }

    /** Notes a revocation that took place. */
    method Record(s: Subject, ignored: bool)
      modifies `revocations, `last
      ensures !ignored ==>
              revocations == old(revocations)[s := Count(old(revocations), s) + 1] && last == old(last)[s := now]
      ensures ignored ==> revocations == old(revocations) && last == old(last)
    {
      if ignored { return; }
      revocations := revocations[s := Count(revocations, s) + 1];
      last := last[s := now];
    }

    method InvalidateByOrgId(org: nat)
      requires Valid()
      modifies this, tokens, orgs
      ensures var revoked := Revoke(old(View()), Org(org), maxTtl);
              && orgs.tomb == revoked.orgs.tomb && revocations == revoked.revocations && last == revoked.last
              && lru == if org != 0 && org in old(orgs.byOrg) then old(lru) - old(orgs.byOrg)[org] else old(lru)
    {
      var hashes := orgs.Revoke(org, now);
      Record(Org(org), org == 0);
      ghost var lru0, tomb, counted, stamped := lru, orgs.tomb, revocations, last;
      var todo := hashes;
      assert lru0 - (hashes - todo) == lru0;
      while todo != {}
        invariant todo <= hashes && lru == lru0 - (hashes - todo)
        invariant orgs.tomb == tomb && revocations == counted && last == stamped
      {
        var h :| h in todo;
        DropCachedHash(h);
        assert hashes - (todo - {h}) == (hashes - todo) + {h};
        assert lru0 - (hashes - todo) - {h} == lru0 - ((hashes - todo) + {h});
        todo := todo - {h};
      }
      assert hashes - todo == hashes;
    }
  }

  /** The insert, the recheck and the eviction it may call for. */
  lemma LoneAdd(c: Cache, h: Digest, started: int, st: Stamped, ttl: int, maxTtl: int, answer: Upstream)
    ensures var c1 := c.(lru := c.lru[h := Entry(st, c.now + ttl)]);
            Finish(c, Call(h, started, StampEntry(st, ttl)), maxTtl, answer)
            == (if Clear(c1, st.res) then c1 else Evicted(c1, h, st.res), Answered(st))
  {
    var e := Entry(st, c.now + ttl);
    var c1 := c.(lru := c.lru[h := e]);
    if Clear(c1, st.res) {
      AddedIsKept(c, h, started, st, ttl, maxTtl, answer);
    } else {
      FinishStep(c, Call(h, started, StampEntry(st, ttl)), maxTtl, answer, c, AddEntry(e));
      FinishStep(c, Call(h, started, AddEntry(e)), maxTtl, answer, c1, RecheckToken(e));
      BlockedWriter(c1, h, started, e, maxTtl, answer);
      EvictionFinishes(c1, h, started, e, Return, maxTtl, answer);
    }
  }
}
