/**
 The PostgreSQL idempotency ledger of packages/idempotency/ledger.go.

 A claim is one INSERT ... ON CONFLICT DO NOTHING; when the key is taken, a second statement locks
 and reads the row, and everything up to the commit runs under that row lock. Other transactions may
 run between the two statements, so a claim on a used key is two atomic steps here. Finalize and
 Release are single guarded statements. The application clock and NOW() of each transaction are
 arbitrary arguments, NOW() never ahead of the database clock.
 */
module IdempotencyLedger {
  import opened Prelude

  type Uuid = nat // 0 is uuid.Nil
  type Bytes = seq<bv8>

  datatype Slot = Slot(org: Uuid, agent: Uuid, key: string)

  datatype RowState = Claimed | Finalized | Unsupported

  datatype Row = Row(
    id: Uuid, hash: string, state: RowState, status: Option<int>, response: Option<Bytes>,
    lease: Option<int>, version: int)

  /** At most one row per slot; row ids are never reused. */
  datatype Db = Db(rows: map<Slot, Row>, nextId: Uuid, now: int)

  datatype Token = Token(id: Uuid, slot: Slot, hash: string, version: int)

  datatype Instant = Instant(app: int, tx: int)

  datatype Outcome =
    | Owned(token: Token)
    | Replay(token: Token, status: int, response: Bytes)
    | Conflict(token: Token)
    | InProgress(token: Token, retryAfter: int)

  datatype Error = InvalidLedgerClaim | LedgerConflict | UnsupportedState | RowVanished | Constraint

  datatype Answer = Ok(outcome: Outcome) | Err(error: Error)

  predicate ValidClaim(slot: Slot, hash: string) {
    slot.org != 0 && slot.agent != 0 && !Blank(slot.key) && !Blank(hash) && ByteLen(slot.key) <= 256
  }

  predicate ValidToken(t: Token) {
    ValidClaim(t.slot, t.hash) && t.id != 0 && t.version > 0
  }

  // ---------------------------------------------------------------- transactions

  function TokenFor(slot: Slot, r: Row): Token {
    Token(r.id, slot, r.hash, r.version)
  }

  function FreshRow(db: Db, hash: string, until: int): Row {
    Row(db.nextId, hash, Claimed, None, None, Some(until), 1)
  }

  /** The INSERT of a claim: a new row, or nothing when the slot is taken. */
  function Insert(db: Db, slot: Slot, hash: string, until: int): Db {
    if slot in db.rows then db else Db(db.rows[slot := FreshRow(db, hash, until)], db.nextId + 1, db.now)
  }

  /** The rest of a claim whose slot was taken, under the row lock. */
  function Resolve(db: Db, slot: Slot, hash: string, lease: int, at: Instant): (Db, Answer) {
    if slot !in db.rows then (db, Err(RowVanished)) else
      var r := db.rows[slot];
      if r.hash != hash then (db, Ok(Conflict(TokenFor(slot, r))))
      else if r.state == Finalized then
        (db, Ok(Replay(TokenFor(slot, r), if r.status.Some? then r.status.value else 0,
                       if r.response.Some? then r.response.value else [])))
      else if r.state != Claimed || r.lease.None? then (db, Err(UnsupportedState))
      else if r.lease.value > at.app then (db, Ok(InProgress(TokenFor(slot, r), r.lease.value - at.app)))
      else if r.lease.value > at.tx then (db, Ok(InProgress(TokenFor(slot, r), 1_000_000)))
      else
        var r' := r.(lease := Some(at.tx + lease), version := r.version + 1);
        (db.(rows := db.rows[slot := r']), Ok(Owned(TokenFor(slot, r'))))
  }

  predicate Current(db: Db, t: Token) {
    && t.slot in db.rows
    && var r := db.rows[t.slot];
       r.id == t.id && r.hash == t.hash && r.version == t.version && r.state == Claimed
  }

  function Finalize(db: Db, t: Token, status: int, response: Option<Bytes>): (Db, Option<Error>) {
    if !ValidToken(t) then (db, Some(InvalidLedgerClaim))
    else if !Current(db, t) then (db, Some(LedgerConflict))
    else if response.None? then (db, Some(Constraint)) // a finalized row has a payload
    else
      var r := db.rows[t.slot];
      (db.(rows := db.rows[t.slot := r.(state := Finalized, status := Some(status), response := response,
                                        lease := None, version := r.version + 1)]), None)
  }

  function Release(db: Db, t: Token): (Db, Option<Error>) {
    if !ValidToken(t) then (db, Some(InvalidLedgerClaim))
    else if !Current(db, t) then (db, Some(LedgerConflict))
    else (db.(rows := db.rows - {t.slot}), None)
  }

  // ---------------------------------------------------------------- runs

  datatype Step =
    | InsertStep(call: nat, slot: Slot, hash: string, at: Instant)
    | ResolveStep(call: nat, at: Instant)
    | FinalizeStep(token: Token, status: int, response: Option<Bytes>)
    | ReleaseStep(token: Token)
    | Tick(elapsed: nat)

  datatype Event =
    | Granted(slot: Slot, id: Uuid, version: int)
    | Done(slot: Slot, id: Uuid, version: int, hash: string, status: int, response: Bytes)

  datatype Waiting = Waiting(slot: Slot, hash: string)

  /** The table, the claims between their two statements, and the grants and finalizations so far. */
  datatype World = World(db: Db, waiting: map<nat, Waiting>, log: seq<Event>)

  function NextInsert(w: World, lease: int, call: nat, slot: Slot, hash: string, at: Instant): World {
    if !ValidClaim(slot, hash) || at.tx > w.db.now then w
    else if slot in w.db.rows then w.(waiting := w.waiting[call := Waiting(slot, hash)])
    else World(Insert(w.db, slot, hash, at.tx + lease), w.waiting, w.log + [Granted(slot, w.db.nextId, 1)])
  }

  function NextResolve(w: World, lease: int, call: nat, at: Instant): World {
    if call !in w.waiting || at.tx > w.db.now then w else
      var c := w.waiting[call];
      var (db', a) := Resolve(w.db, c.slot, c.hash, lease, at);
      World(db', w.waiting - {call},
            if a.Ok? && a.outcome.Owned? then w.log + [Granted(c.slot, a.outcome.token.id, a.outcome.token.version)]
              else w.log)
  }

  function NextFinalize(w: World, t: Token, status: int, response: Option<Bytes>): World {
    var (db', err) := Finalize(w.db, t, status, response);
    if err.None? && response.Some?
    then World(db', w.waiting, w.log + [Done(t.slot, t.id, t.version, t.hash, status, response.value)])
    else w
  }

  function Next(w: World, lease: int, step: Step): World {
    match step
    case InsertStep(call, slot, hash, at) => NextInsert(w, lease, call, slot, hash, at)
    case ResolveStep(call, at) => NextResolve(w, lease, call, at)
    case FinalizeStep(t, status, response) => NextFinalize(w, t, status, response)
    case ReleaseStep(t) => w.(db := Release(w.db, t).0)
    case Tick(elapsed) => w.(db := w.db.(now := w.db.now + elapsed))
  }

  function Run(w: World, lease: int, steps: seq<Step>): World
    decreases |steps|
  {
    if steps == [] then w else Run(Next(w, lease, steps[0]), lease, steps[1..])
  }

  function Init(now: int): World {
    World(Db(map[], 1, now), map[], [])
  }

  // ---------------------------------------------------------------- what every run keeps

  predicate RowOk(slot: Slot, r: Row, w: World) {
    && 1 <= r.id < w.db.nextId && r.version >= 1 && r.state != Unsupported
    && (r.state == Claimed ==> r.lease.Some? && r.status.None? && r.response.None?)
    && (r.state == Finalized ==>
          && r.status.Some? && r.response.Some?
          && Done(slot, r.id, r.version - 1, r.hash, r.status.value, r.response.value) in w.log)
  }

  predicate EventOk(e: Event, db: Db) {
    && 1 <= e.id < db.nextId
    && (e.slot in db.rows && db.rows[e.slot].id == e.id ==>
          e.version <= db.rows[e.slot].version && (e.Done? ==> e.version < db.rows[e.slot].version))
    && (e.Done? ==> e.slot in db.rows && db.rows[e.slot].state == Finalized)
  }

  /** No token is granted twice, and no slot is finalized twice. */
  predicate Once(log: seq<Event>) {
    forall i, j :: 0 <= i < j < |log| ==>
      && (log[i].Granted? && log[j].Granted? ==>
            log[i].slot != log[j].slot || log[i].id != log[j].id || log[i].version != log[j].version)
      && (log[i].Done? && log[j].Done? ==> log[i].slot != log[j].slot)
  }

  predicate Inv(w: World) {
    && w.db.nextId >= 1
    && (forall slot :: slot in w.db.rows ==> RowOk(slot, w.db.rows[slot], w))
    && (forall e :: e in w.log ==> EventOk(e, w.db))
    && Once(w.log)
  }

  lemma OnceGrows(log: seq<Event>, e: Event)
    requires Once(log)
    requires forall f :: f in log && f.Done? && e.Done? ==> f.slot != e.slot
    requires forall f :: f in log && f.Granted? && e.Granted? ==>
            f.slot != e.slot || f.id != e.id || f.version != e.version
    ensures Once(log + [e])
  {
    var log' := log + [e];
    forall i, j | 0 <= i < j < |log'|
      ensures log'[i].Granted? && log'[j].Granted? ==>
                log'[i].slot != log'[j].slot || log'[i].id != log'[j].id || log'[i].version != log'[j].version
      ensures log'[i].Done? && log'[j].Done? ==> log'[i].slot != log'[j].slot
    {
      if j == |log| { assert log'[i] in log; } else { assert log'[i] == log[i] && log'[j] == log[j]; }
    }
  }

  /** Growing the log and changing one slot: the rest of the table is untouched. */
  lemma InvChange(w: World, slot: Slot, e: Event, w': World)
    requires Inv(w) && w'.log == w.log + [e] && w'.db.nextId >= w.db.nextId
    requires slot in w'.db.rows && (forall s :: s != slot ==> (s in w'.db.rows <==> s in w.db.rows))
    requires forall s :: s != slot && s in w.db.rows ==> w'.db.rows[s] == w.db.rows[s]
    requires RowOk(slot, w'.db.rows[slot], w') && EventOk(e, w'.db) && e.slot == slot
    requires slot in w.db.rows ==>
               && w.db.rows[slot].state == Claimed && w'.db.rows[slot].id == w.db.rows[slot].id
               && w'.db.rows[slot].version == w.db.rows[slot].version + 1
    requires slot !in w.db.rows ==> w'.db.rows[slot].id == w.db.nextId
    requires e.Granted? ==> e.id == w'.db.rows[slot].id && e.version == w'.db.rows[slot].version
    ensures Inv(w')
  {
    forall f | f in w.log ensures EventOk(f, w'.db) {
      assert EventOk(f, w.db);
    }
    forall f | f in w.log
      ensures f.Done? && e.Done? ==> f.slot != e.slot
      ensures f.Granted? && e.Granted? ==> f.slot != e.slot || f.id != e.id || f.version != e.version
    {
      assert EventOk(f, w.db);
    }
    OnceGrows(w.log, e);
    forall s | s in w'.db.rows ensures RowOk(s, w'.db.rows[s], w') {
      if s != slot { assert RowOk(s, w.db.rows[s], w); }
    }
  }

  lemma InvInsert(w: World, lease: int, call: nat, slot: Slot, hash: string, at: Instant)
    requires Inv(w)
    ensures Inv(NextInsert(w, lease, call, slot, hash, at))
  {
    var w' := NextInsert(w, lease, call, slot, hash, at);
    if w'.db != w.db {
      InvChange(w, slot, Granted(slot, w.db.nextId, 1), w');
    } else {
      InvSameTable(w, w');
    }
  }

  lemma InvSameTable(w: World, w': World)
    requires Inv(w) && w'.db.rows == w.db.rows && w'.db.nextId == w.db.nextId && w'.log == w.log
    ensures Inv(w')
  {
    forall s | s in w'.db.rows ensures RowOk(s, w'.db.rows[s], w') { assert RowOk(s, w.db.rows[s], w); }
    forall f | f in w.log ensures EventOk(f, w'.db) { assert EventOk(f, w.db); }
  }

  lemma InvResolve(w: World, lease: int, call: nat, at: Instant)
    requires Inv(w)
    ensures Inv(NextResolve(w, lease, call, at))
  {
    var w' := NextResolve(w, lease, call, at);
    if w'.db != w.db {
      var c := w.waiting[call];
      assert RowOk(c.slot, w.db.rows[c.slot], w);
      InvChange(w, c.slot, Granted(c.slot, w.db.rows[c.slot].id, w.db.rows[c.slot].version + 1), w');
    } else {
      InvSameTable(w, w');
    }
  }

  lemma InvFinalize(w: World, t: Token, status: int, response: Option<Bytes>)
    requires Inv(w)
    ensures Inv(NextFinalize(w, t, status, response))
  {
    var w' := NextFinalize(w, t, status, response);
    if w' != w {
      var e := Done(t.slot, t.id, t.version, t.hash, status, response.value);
      assert e in w'.log;
      assert RowOk(t.slot, w.db.rows[t.slot], w);
      InvChange(w, t.slot, e, w');
    }
  }

  lemma InvRelease(w: World, t: Token)
    requires Inv(w)
    ensures Inv(w.(db := Release(w.db, t).0))
  {
    var w' := w.(db := Release(w.db, t).0);
    forall s | s in w'.db.rows ensures RowOk(s, w'.db.rows[s], w') { assert RowOk(s, w.db.rows[s], w); }
    forall f | f in w.log ensures EventOk(f, w'.db) { assert EventOk(f, w.db); }
  }

  /** In every run no token is granted twice and no slot is finalized twice, across any number of
      reclaims, releases and inserts. */
  lemma {:induction false} InvAlways(w: World, lease: int, steps: seq<Step>)
    requires Inv(w)
    ensures Inv(Run(w, lease, steps))
    decreases |steps|
  {
    if steps != [] {
      match steps[0] {
        case InsertStep(call, slot, hash, at) => InvInsert(w, lease, call, slot, hash, at);
        case ResolveStep(call, at) => InvResolve(w, lease, call, at);
        case FinalizeStep(t, status, response) => InvFinalize(w, t, status, response);
        case ReleaseStep(t) => InvRelease(w, t);
        case Tick(elapsed) => InvSameTable(w, Next(w, lease, steps[0]));
      }
      InvAlways(Next(w, lease, steps[0]), lease, steps[1..]);
    }
  }

  // ---------------------------------------------------------------- finalize once, replay forever

  lemma {:induction false} LogOnlyGrows(w: World, lease: int, steps: seq<Step>)
    ensures w.log <= Run(w, lease, steps).log
    decreases |steps|
  {
    if steps != [] {
      assert w.log <= Next(w, lease, steps[0]).log;
      LogOnlyGrows(Next(w, lease, steps[0]), lease, steps[1..]);
    }
  }

  /** The finalization in the log is the one the row stores. */
  lemma DoneIsStored(w: World, e: Event)
    requires Inv(w) && e in w.log && e.Done?
    ensures e.slot in w.db.rows
    ensures var r := w.db.rows[e.slot];
            r.state == Finalized && r.hash == e.hash && r.status == Some(e.status) && r.response == Some(e.response)
  {
    assert EventOk(e, w.db);
    var r := w.db.rows[e.slot];
    assert RowOk(e.slot, r, w);
    var stored := Done(e.slot, r.id, r.version - 1, r.hash, r.status.value, r.response.value);
    var i :| 0 <= i < |w.log| && w.log[i] == e;
    var j :| 0 <= j < |w.log| && w.log[j] == stored;
    assert i == j;
  }

  /** Once a slot was finalized, in every continuation of the run no insert succeeds on it, every
      claim with the same hash replays exactly that status and response, every other hash conflicts,
      and no finalize or release of any token succeeds on it. */
  lemma ReplayForever(w: World, lease: int, steps: seq<Step>, e: Event, hash: string, at: Instant, t: Token,
                      status: int, response: Option<Bytes>)
    requires Inv(w) && e in w.log && e.Done? && t.slot == e.slot
    ensures var db := Run(w, lease, steps).db;
            && Insert(db, e.slot, hash, at.tx + lease) == db
            && Resolve(db, e.slot, hash, lease, at).0 == db
            && (hash == e.hash ==>
                  Resolve(db, e.slot, hash, lease, at).1 ==
                  Ok(Replay(TokenFor(e.slot, db.rows[e.slot]), e.status, e.response)))
            && (hash != e.hash ==>
                  Resolve(db, e.slot, hash, lease, at).1 == Ok(Conflict(TokenFor(e.slot, db.rows[e.slot]))))
            && Finalize(db, t, status, response).1.Some? && Finalize(db, t, status, response).0 == db
            && Release(db, t).1.Some? && Release(db, t).0 == db
  {
    var w' := Run(w, lease, steps);
    InvAlways(w, lease, steps);
    LogOnlyGrows(w, lease, steps);
    assert e in w'.log;
    DoneIsStored(w', e);
  }

  /** For one slot at most one Finalize ever succeeds: a second success would be a second entry. */
  lemma FinalizeOnce(now: int, lease: int, steps: seq<Step>, i: nat, j: nat)
    requires var log := Run(Init(now), lease, steps).log;
             i < |log| && j < |log| && log[i].Done? && log[j].Done? && log[i].slot == log[j].slot
    ensures i == j
  {
    InvAlways(Init(now), lease, steps);
  }

  /** A taken slot changes owner only when its lease has ended on the database clock, whatever the
      application clock says, and the new owner's token is one version up. */
  lemma ReclaimAfterLease(w: World, lease: int, step: Step, slot: Slot)
    requires Inv(w) && slot in w.db.rows
    requires exists v :: Granted(slot, w.db.rows[slot].id, v) in Next(w, lease, step).log[|w.log|..]
    ensures w.db.rows[slot].state == Claimed && w.db.rows[slot].lease.value <= w.db.now
    ensures slot in Next(w, lease, step).db.rows
    ensures Next(w, lease, step).db.rows[slot].version == w.db.rows[slot].version + 1
  {
    assert RowOk(slot, w.db.rows[slot], w);
    var log' := Next(w, lease, step).log;
    assert forall k :: |w.log| <= k < |log'| ==> log'[k] == log'[|w.log|];
  }

  /** The slot holds another row, a later version, or a row that is no longer claimed. */
  predicate Stale(db: Db, t: Token) {
    && t.id < db.nextId
    && (t.slot in db.rows && db.rows[t.slot].id == t.id ==>
          db.rows[t.slot].version > t.version || db.rows[t.slot].state != Claimed)
  }

  lemma StaleStep(w: World, lease: int, t: Token, step: Step)
    requires Stale(w.db, t) && Inv(w)
    ensures Stale(Next(w, lease, step).db, t)
  {
  }

  /** A token that lost its claim is refused by Finalize and Release in every continuation. */
  lemma {:induction false} StaleForever(w: World, lease: int, t: Token, steps: seq<Step>, status: int,
    response: Option<Bytes>)
    requires Stale(w.db, t) && Inv(w)
    ensures var db := Run(w, lease, steps).db;
            && Finalize(db, t, status, response).1 == Some(if ValidToken(t) then LedgerConflict else InvalidLedgerClaim)
            && Release(db, t).1 == Some(if ValidToken(t) then LedgerConflict else InvalidLedgerClaim)
    decreases |steps|
  {
    if steps != [] {
      StaleStep(w, lease, t, steps[0]);
      InvAlways(w, lease, steps[..1]);
      assert steps[..1][1..] == [] && Run(w, lease, steps[..1]) == Next(w, lease, steps[0]);
      StaleForever(Next(w, lease, steps[0]), lease, t, steps[1..], status, response);
    }
  }

  // ---------------------------------------------------------------- the ledger object

  class PostgresLedger {
    var db: Db
    const lease: int

    constructor (db: Db, lease: int)
      ensures this.db == db
      ensures this.lease == if lease <= 0 then 120_000_000 else lease
    {
      this.db := db;
      this.lease := if lease <= 0 then 120_000_000 else lease;
    }

    /** A claim with no other transaction between its two statements. */
    method Claim(org: Uuid, agent: Uuid, rawKey: string, rawHash: string, at: Instant) returns (a: Answer)
      modifies this
      ensures var slot := Slot(org, agent, TrimSpace(rawKey));
              var hash := TrimSpace(rawHash);
              if !ValidClaim(slot, hash) then db == old(db) && a == Err(InvalidLedgerClaim)
              else if slot !in old(db).rows then
                db == Insert(old(db), slot, hash, at.tx + lease) && a == Ok(Owned(TokenFor(slot, db.rows[slot])))
              else (db, a) == Resolve(old(db), slot, hash, lease, at)
    {
      var slot, hash := Slot(org, agent, TrimSpace(rawKey)), TrimSpace(rawHash);
      if !ValidClaim(slot, hash) {
        return Err(InvalidLedgerClaim);
      }
      var row, inserted := InsertOrLoad(slot, hash, at);
      if row.None? {
        return Err(RowVanished);
      }
      a := ResolveClaim(slot, hash, at, row.value, inserted);
    }

    method InsertOrLoad(slot: Slot, hash: string, at: Instant) returns (row: Option<Row>, inserted: bool)
      modifies this
      ensures inserted <==> slot !in old(db).rows
      ensures db == Insert(old(db), slot, hash, at.tx + lease)
      ensures slot in db.rows && row == Some(db.rows[slot])
    {
      if slot !in db.rows {
        var r := Row(db.nextId, hash, Claimed, None, None, Some(at.tx + lease), 1);
        db := Db(db.rows[slot := r], db.nextId + 1, db.now);
        return Some(r), true;
      }
      row, inserted := Some(db.rows[slot]), false;
    }

    method ResolveClaim(slot: Slot, hash: string, at: Instant, row: Row, inserted: bool) returns (a: Answer)
      requires slot in db.rows && db.rows[slot] == row && (inserted ==> row.hash == hash)
      modifies this
      ensures inserted ==> db == old(db) && a == Ok(Owned(TokenFor(slot, row)))
      ensures !inserted ==> (db, a) == Resolve(old(db), slot, hash, lease, at)
    {
      var token := Token(row.id, slot, row.hash, row.version);
      if row.hash != hash {
        return Ok(Conflict(token));
      }
      if inserted {
        return Ok(Owned(token));
      }
      if row.state == Finalized {
        var status := 0;
        var response := [];
        if row.status.Some? { status := row.status.value; }
        if row.response.Some? { response := row.response.value; }
        return Ok(Replay(token, status, response));
      }
      if row.state != Claimed || row.lease.None? {
        return Err(UnsupportedState);
      }
      if row.lease.value > at.app {
        return Ok(InProgress(token, row.lease.value - at.app));
      }
      var updated, version := ExtendLease(slot, hash, at, row.id);
      if !updated {
        return Ok(InProgress(token, 1_000_000));
      }
      a := Ok(Owned(token.(version := version)));
    }

    /** UPDATE ... WHERE id AND slot AND request_hash AND state = 'claimed' AND lease_expires_at <= NOW(). */
    method ExtendLease(slot: Slot, hash: string, at: Instant, id: Uuid) returns (updated: bool, version: int)
      modifies this
      ensures updated <==> slot in old(db).rows && old(db).rows[slot].id == id && old(db).rows[slot].hash == hash
                           && old(db).rows[slot].state == Claimed && old(db).rows[slot].lease.Some?
                           && old(db).rows[slot].lease.value <= at.tx
      ensures !updated ==> db == old(db)
      ensures updated ==> version == old(db).rows[slot].version + 1
                          && db == old(db).(rows := old(db).rows[slot :=
                                     old(db).rows[slot].(lease := Some(at.tx + lease), version := version)])
    {
      if slot in db.rows && db.rows[slot].id == id && db.rows[slot].hash == hash && db.rows[slot].state == Claimed
         && db.rows[slot].lease.Some? && db.rows[slot].lease.value <= at.tx
      {
        version := db.rows[slot].version + 1;
        db := db.(rows := db.rows[slot := db.rows[slot].(lease := Some(at.tx + lease), version := version)]);
        return true, version;
      }
      return false, 0;
    }

    method FinalizeClaim(t: Token, status: int, response: Option<Bytes>) returns (err: Option<Error>)
      modifies this
      ensures (db, err) == Finalize(old(db), t, status, response)
    {
      if !ValidToken(t) {
        return Some(InvalidLedgerClaim);
      }
      if t.slot !in db.rows {
        return Some(LedgerConflict);
      }
      var r := db.rows[t.slot];
      if r.id != t.id || r.hash != t.hash || r.version != t.version || r.state != Claimed {
        return Some(LedgerConflict);
      }
      if response.None? {
        return Some(Constraint);
      }
      var done := r.(state := Finalized, status := Some(status), response := response, lease := None,
        version := r.version + 1);
      db := db.(rows := db.rows[t.slot := done]);
      err := None;
    }

    method ReleaseClaim(t: Token) returns (err: Option<Error>)
      modifies this
      ensures (db, err) == Release(old(db), t)
    {
      if !ValidToken(t) {
        return Some(InvalidLedgerClaim);
      }
      if t.slot !in db.rows {
        return Some(LedgerConflict);
      }
      var r := db.rows[t.slot];
      if r.id != t.id || r.hash != t.hash || r.version != t.version || r.state != Claimed {
        return Some(LedgerConflict);
      }
      db := db.(rows := db.rows - {t.slot});
      err := None;
    }
  }
}
