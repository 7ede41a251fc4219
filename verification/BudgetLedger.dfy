/**
 The admission-hold ledger of packages/budgetledger. Part one gives each transaction as a function
 of the database; part two proves what every run of transactions keeps; part three is the ledger
 object, whose methods issue the same SQL statements as the Go code and are proved to have exactly
 the effect that part one describes.

 A claim holds the per-organization advisory lock for its whole transaction and a settlement is a
 single guarded UPDATE, so every transaction is one atomic step. The database clock is part of the
 state; the clocks a claim reads are arguments of its step, and the application clock is arbitrary.
 Times are in microseconds.
 */
module BudgetLedger {
  import opened Prelude

  // ---------------------------------------------------------------- data

  type Uuid = nat // 0 is uuid.Nil

  datatype Principal = Principal(org: Uuid, agent: Uuid)

  datatype ClaimRequest = ClaimRequest(key: string, hash: string, estimate: int)

  /** The clocks a claim reads: time.Now of the process, and NOW() of its transaction, which is the
      instant the transaction began and so may lie before it obtained the admission lock. */
  datatype Instant = Instant(app: int, tx: int)

  datatype RowState = Claimed | Finalized | Released | Expired

  datatype Row = Row(
    id: Uuid, owner: Principal, key: string, hash: string, period: Uuid, state: RowState,
    estimate: int, final: Option<int>, marker: Option<string>, lease: Option<int>, version: int)

  datatype Period = Period(id: Uuid, org: Uuid, start: int, end: int, hardCap: bool, cap: int, spent: int)

  /** Row ids are fresh when inserted: the row stored at index i has id i + 1. Rows are never deleted. */
  datatype Db = Db(rows: seq<Row>, periods: seq<Period>, now: int)

  datatype Reservation = Reservation(
    id: Uuid, owner: Principal, key: string, hash: string, period: Uuid, version: int)

  datatype Outcome =
    | Owned(reservation: Reservation)
    | InProgress(retryAfter: int)
    | Conflict
    | Exceeded(remaining: int)
    | NoCap

  datatype Error = InvalidClaim | ClaimClosed

  datatype ClaimResult = Ok(outcome: Outcome) | Err(error: Error)

  /** What a settlement wants to record. */
  datatype Settlement = Finalizing(amount: int, marker: string) | Releasing

  predicate ValidCompleteness(marker: string) {
    marker == "complete" || marker == "estimated"
  }

  predicate ValidClaimRequest(p: Principal, req: ClaimRequest) {
    && p.org != 0 && p.agent != 0
    && !Blank(req.key) && ByteLen(req.key) <= 256
    && !Blank(req.hash) && req.estimate >= 0
  }

  predicate ValidReservation(claim: Reservation) {
    claim.id != 0 && claim.owner.org != 0 && claim.owner.agent != 0 && !Blank(claim.key) && !Blank(claim.hash)
  }

  predicate ValidSettlement(claim: Reservation, s: Settlement) {
    ValidReservation(claim) && (s.Finalizing? ==> s.amount >= 0 && ValidCompleteness(s.marker))
  }

  // ---------------------------------------------------------------- queries

  predicate Enforceable(d: Period, org: Uuid, now: int) {
    d.org == org && d.start <= now && d.end > now && d.hardCap
  }

  /** The enforceable period of an organization that started last. */
  function ActivePeriod(periods: seq<Period>, org: Uuid, now: int): (r: Option<Period>)
    ensures r.Some? ==> r.value in periods && Enforceable(r.value, org, now)
    ensures forall d :: d in periods && Enforceable(d, org, now) ==> r.Some? && d.start <= r.value.start
  {
    if periods == [] then None else
      var rest := ActivePeriod(periods[1..], org, now);
      var d := periods[0];
      assert periods == [d] + periods[1..];
      if Enforceable(d, org, now) && (rest.None? || rest.value.start <= d.start) then Some(d) else rest
  }

  /** The row of a reservation key, if the key was used before. */
  function FindKey(rows: seq<Row>, p: Principal, key: string): (r: Option<nat>)
    ensures r.Some? ==> r.value < |rows| && rows[r.value].owner == p && rows[r.value].key == key
    ensures r.None? ==> forall i :: 0 <= i < |rows| ==> rows[i].owner != p || rows[i].key != key
  {
    if rows == [] then None
    else if rows[|rows| - 1].owner == p && rows[|rows| - 1].key == key then Some(|rows| - 1)
    else FindKey(rows[..|rows| - 1], p, key)
  }

  /** A claimed row whose lease ends after now. */
  predicate Live(r: Row, now: int) {
    r.state == Claimed && r.lease.Some? && r.lease.value > now
  }

  function Held(r: Row, org: Uuid, period: Uuid, now: int, exclude: Uuid): int {
    if r.owner.org == org && r.period == period && Live(r, now) && r.id != exclude then r.estimate else 0
  }

  /** The sum of the live holds of a period, leaving out one row id. */
  function LiveHolds(rows: seq<Row>, org: Uuid, period: Uuid, now: int, exclude: Uuid): int {
    if rows == [] then 0
    else LiveHolds(rows[..|rows| - 1], org, period, now, exclude) + Held(rows[|rows| - 1], org, period, now, exclude)
  }

  /** The admission test, in the int64 arithmetic of the source. */
  predicate OverCap(d: Period, holds: int, estimate: int) {
    Wrap64(d.spent + holds + estimate) > d.cap
  }

  function Remaining(d: Period, holds: int): (r: int)
    ensures r >= 0
  {
    var left := Wrap64(d.cap - d.spent - holds);
    if left < 0 then 0 else left
  }

  // ---------------------------------------------------------------- transactions

  function NewHold(db: Db, p: Principal, req: ClaimRequest, d: Period, until: int): Row {
    Row(|db.rows| + 1, p, req.key, req.hash, d.id, Claimed, req.estimate, None, None, Some(until), 1)
  }

  function Reclaimed(r: Row, req: ClaimRequest, d: Period, until: int): Row {
    r.(state := Claimed, period := d.id, estimate := req.estimate, final := None, marker := None,
       lease := Some(until), version := r.version + 1)
  }

  function Lapsed(r: Row): Row {
    if r.state == Claimed then r.(state := Expired, lease := None, version := r.version + 1) else r
  }

  function TokenFor(r: Row): Reservation {
    Reservation(r.id, r.owner, r.key, r.hash, r.period, r.version)
  }

  function TrimRequest(req: ClaimRequest): ClaimRequest {
    ClaimRequest(TrimSpace(req.key), TrimSpace(req.hash), req.estimate)
  }

  function ClaimTx(db: Db, lease: int, p: Principal, raw: ClaimRequest, at: Instant): (Db, ClaimResult) {
    var req := TrimRequest(raw);
    if !ValidClaimRequest(p, req) then (db, Err(InvalidClaim)) else
      match ActivePeriod(db.periods, p.org, at.tx)
      case None => (db, Ok(NoCap))
      case Some(d) =>
        match FindKey(db.rows, p, req.key)
        case None => ClaimNewKey(db, lease, p, req, at, d)
        case Some(i) => ClaimUsedKey(db, lease, req, at, d, i)
  }

  function ClaimNewKey(db: Db, lease: int, p: Principal, req: ClaimRequest, at: Instant, d: Period): (Db, ClaimResult) {
    var holds := LiveHolds(db.rows, p.org, d.id, at.tx, 0);
    if OverCap(d, holds, req.estimate) then (db, Ok(Exceeded(Remaining(d, holds)))) else
      var r := NewHold(db, p, req, d, at.tx + lease);
      (db.(rows := db.rows + [r]), Ok(Owned(TokenFor(r))))
  }

  function ClaimUsedKey(db: Db, lease: int, req: ClaimRequest, at: Instant, d: Period, i: nat): (Db, ClaimResult)
    requires i < |db.rows|
  {
    var r := db.rows[i];
    if r.hash != req.hash then (db, Ok(Conflict))
    else if Live(r, at.app) then (db, Ok(InProgress(r.lease.value - at.app)))
    else
      var holds := LiveHolds(db.rows, r.owner.org, d.id, at.tx, r.id);
      if OverCap(d, holds, req.estimate)
      then (db.(rows := db.rows[i := Lapsed(r)]), Ok(Exceeded(Remaining(d, holds))))
      else
        var r' := Reclaimed(r, req, d, at.tx + lease);
        (db.(rows := db.rows[i := r']), Ok(Owned(TokenFor(r'))))
  }

  /** The row named by a reservation token is still at the token's version and claimed. */
  predicate Current(db: Db, claim: Reservation) {
    && 1 <= claim.id <= |db.rows|
    && var r := db.rows[claim.id - 1];
       r.owner == claim.owner && r.key == claim.key && r.version == claim.version && r.state == Claimed
  }

  function SettledRow(r: Row, s: Settlement): Row {
    match s
    case Finalizing(amount, marker) =>
      r.(state := Finalized, final := Some(amount), marker := Some(marker), lease := None, version := r.version + 1)
    case Releasing => r.(state := Released, lease := None, version := r.version + 1)
  }

  /** The row records this token's own transition with these very values. */
  predicate AlreadySettled(db: Db, claim: Reservation, s: Settlement) {
    && 1 <= claim.id <= |db.rows|
    && var r := db.rows[claim.id - 1];
       && r.owner == claim.owner && r.key == claim.key && r.version == claim.version + 1
       && match s
          case Finalizing(amount, marker) => r.state == Finalized && r.final == Some(amount) && r.marker == Some(marker)
          case Releasing => r.state == Released
  }

  function SettleTx(db: Db, claim: Reservation, s: Settlement): (Db, Option<Error>) {
    if !ValidSettlement(claim, s) then (db, Some(InvalidClaim))
    else if Current(db, claim) then
      (db.(rows := db.rows[claim.id - 1 := SettledRow(db.rows[claim.id - 1], s)]), None)
    else if AlreadySettled(db, claim, s) then (db, None)
    else (db, Some(ClaimClosed))
  }

  /** The worker's reaper: a claimed row whose lease ended more than the grace window ago lapses. */
  function Reap(db: Db, i: nat, grace: nat): Db {
    if i < |db.rows| && db.rows[i].state == Claimed && db.rows[i].lease.Some? &&
      db.rows[i].lease.value <= db.now - grace
    then db.(rows := db.rows[i := Lapsed(db.rows[i])])
    else db
  }

  // ---------------------------------------------------------------- runs

  datatype Step =
    | ClaimStep(p: Principal, req: ClaimRequest, at: Instant)
    | SettleStep(claim: Reservation, settlement: Settlement)
    | ReapStep(row: nat, grace: nat)
    | Tick(elapsed: nat)
    | PostPeriods(periods: seq<Period>) // rollups and edits of the billing tables

  datatype Event =
    | Granted(id: Uuid, version: int)
    | Settled(id: Uuid, version: int, settlement: Settlement)

  /** The database together with what happened so far: the grants and settlements in order, and the
      period as the latest grant in it read it. */
  datatype World = World(db: Db, log: seq<Event>, latest: map<(Uuid, Uuid), Period>)

  function NextClaim(w: World, lease: int, p: Principal, req: ClaimRequest, at: Instant): World {
    var (db', out) := ClaimTx(w.db, lease, p, req, at);
    if at.tx > w.db.now then w // no transaction began in the future
    else if out.Ok? && out.outcome.Owned? then
      var t := out.outcome.reservation;
      World(db', w.log + [Granted(t.id, t.version)],
            w.latest[(p.org, t.period) := ActivePeriod(w.db.periods, p.org, at.tx).value])
    else w.(db := db')
  }

  function NextSettle(w: World, claim: Reservation, s: Settlement): World {
    var (db', err) := SettleTx(w.db, claim, s);
    if ValidSettlement(claim, s) && Current(w.db, claim)
    then w.(db := db', log := w.log + [Settled(claim.id, claim.version, s)])
    else w.(db := db')
  }

  function Next(w: World, lease: int, step: Step): World {
    match step
    case ClaimStep(p, req, at) => NextClaim(w, lease, p, req, at)
    case SettleStep(claim, s) => NextSettle(w, claim, s)
    case ReapStep(i, grace) => w.(db := Reap(w.db, i, grace))
    case Tick(elapsed) => w.(db := w.db.(now := w.db.now + elapsed))
    case PostPeriods(ps) => w.(db := w.db.(periods := ps))
  }

  function Run(w: World, lease: int, steps: seq<Step>): World
    decreases |steps|
  {
    if steps == [] then w else Run(Next(w, lease, steps[0]), lease, steps[1..])
  }

  function Init(periods: seq<Period>, now: int): World {
    World(Db([], periods, now), [], map[])
  }

  // ---------------------------------------------------------------- fencing

  predicate RowOk(r: Row, log: seq<Event>) {
    && r.estimate >= 0 && r.version >= 1
    && (r.state == Claimed <==> r.lease.Some?)
    && (r.state == Finalized <==> r.final.Some?) && (r.state == Finalized <==> r.marker.Some?)
    && (r.state == Claimed ==> Granted(r.id, r.version) in log)
    && (r.state == Finalized ==> Settled(r.id, r.version - 1, Finalizing(r.final.value, r.marker.value)) in log)
    && (r.state == Released ==> Settled(r.id, r.version - 1, Releasing) in log)
  }

  predicate EventOk(e: Event, rows: seq<Row>) {
    && 1 <= e.id <= |rows|
    && (e.Granted? ==> e.version <= rows[e.id - 1].version)
    && (e.Settled? ==> e.version < rows[e.id - 1].version)
  }

  predicate SameToken(a: Event, b: Event) {
    a.id == b.id && a.version == b.version && (a.Granted? <==> b.Granted?)
  }

  /** No token is granted twice, and no token is settled twice. */
  predicate TokensOnce(log: seq<Event>) {
    forall i, j :: 0 <= i < j < |log| ==> !SameToken(log[i], log[j])
  }

  /** Only a token granted before is ever settled. */
  predicate SettledAfterGrant(log: seq<Event>) {
    forall j :: 0 <= j < |log| && log[j].Settled? ==> Granted(log[j].id, log[j].version) in log[..j]
  }

  predicate Fenced(w: World) {
    && (forall i :: 0 <= i < |w.db.rows| ==> w.db.rows[i].id == i + 1 && RowOk(w.db.rows[i], w.log))
    && (forall e :: e in w.log ==> EventOk(e, w.db.rows))
    && TokensOnce(w.log)
    && SettledAfterGrant(w.log)
  }

  /** A new event about a row that moved past every earlier event keeps the log's two properties. */
  lemma LogGrows(log: seq<Event>, e: Event)
    requires TokensOnce(log) && SettledAfterGrant(log)
    requires forall f :: f in log ==> !SameToken(f, e)
    requires e.Settled? ==> Granted(e.id, e.version) in log
    ensures TokensOnce(log + [e]) && SettledAfterGrant(log + [e])
  {
    var log' := log + [e];
    forall i, j | 0 <= i < j < |log'| ensures !SameToken(log'[i], log'[j]) {
      if j == |log| { assert log'[i] in log; }
    }
    forall j | 0 <= j < |log'| && log'[j].Settled? ensures Granted(log'[j].id, log'[j].version) in log'[..j] {
      if j == |log| { assert log'[..j] == log; } else { assert log'[..j] == log[..j]; }
    }
  }

  /** Moving one row to a later version, with or without an event about it, keeps the fences. */
  lemma FencedUpdate(w: World, i: nat, r: Row, events: seq<Event>, w': World)
    requires Fenced(w) && i < |w.db.rows|
    requires w'.db.rows == w.db.rows[i := r] && w'.log == w.log + events
    requires r.id == i + 1 && r.version > w.db.rows[i].version && RowOk(r, w'.log)
    requires |events| <= 1
    requires forall e :: e in events ==> EventOk(e, w'.db.rows) && e.id == i + 1
    requires forall e :: e in events && e.Granted? ==> e.version == r.version
    requires forall e :: e in events && e.Settled? ==>
            e.version == w.db.rows[i].version && Granted(e.id, e.version) in w.log
    ensures Fenced(w')
  {
    forall f | f in w.log ensures EventOk(f, w'.db.rows) { assert EventOk(f, w.db.rows); }
    if events == [] {
      assert w'.log == w.log;
    } else {
      assert events == [events[0]];
      forall f | f in w.log ensures !SameToken(f, events[0]) { assert EventOk(f, w.db.rows); }
      LogGrows(w.log, events[0]);
    }
  }

  lemma FencedInsert(w: World, r: Row, w': World)
    requires Fenced(w)
    requires w'.db.rows == w.db.rows + [r] && w'.log == w.log + [Granted(r.id, r.version)]
    requires r.id == |w.db.rows| + 1 && RowOk(r, w'.log)
    ensures Fenced(w')
  {
    var e := Granted(r.id, r.version);
    assert e in w'.log;
    forall f | f in w.log ensures EventOk(f, w'.db.rows) && !SameToken(f, e) { assert EventOk(f, w.db.rows); }
    LogGrows(w.log, e);
  }

  lemma FencedUsedKey(w: World, lease: int, req: ClaimRequest, at: Instant, d: Period, i: nat, w': World)
    requires Fenced(w) && i < |w.db.rows| && req.estimate >= 0
    requires var (db', out) := ClaimUsedKey(w.db, lease, req, at, d, i);
             && w'.db == db'
             && w'.log == (if out.outcome.Owned?
                           then w.log + [Granted(out.outcome.reservation.id, out.outcome.reservation.version)]
                           else w.log)
    ensures Fenced(w')
  {
    var r := w.db.rows[i];
    var out := ClaimUsedKey(w.db, lease, req, at, d, i).1.outcome;
    if out.Owned? {
      FencedReclaim(w, i, Reclaimed(r, req, d, at.tx + lease), w');
    } else if out.Exceeded? && r.state == Claimed {
      FencedUpdate(w, i, Lapsed(r), [], w');
    }
  }

  lemma FencedReclaim(w: World, i: nat, r: Row, w': World)
    requires Fenced(w) && i < |w.db.rows| && r.id == i + 1 && r.version == w.db.rows[i].version + 1
    requires r.state == Claimed && r.lease.Some? && r.final.None? && r.marker.None? && r.estimate >= 0
    requires w'.db.rows == w.db.rows[i := r] && w'.log == w.log + [Granted(r.id, r.version)]
    ensures Fenced(w')
  {
    assert RowOk(w.db.rows[i], w.log);
    var e := Granted(r.id, r.version);
    assert e in w'.log;
    FencedUpdate(w, i, r, [e], w');
  }

  lemma FencedClaim(w: World, lease: int, p: Principal, raw: ClaimRequest, at: Instant)
    requires Fenced(w)
    ensures Fenced(NextClaim(w, lease, p, raw, at))
  {
    var w' := NextClaim(w, lease, p, raw, at);
    var req := TrimRequest(raw);
    var active := ActivePeriod(w.db.periods, p.org, at.tx);
    if at.tx <= w.db.now && ValidClaimRequest(p, req) && active.Some? {
      match FindKey(w.db.rows, p, req.key)
      case None =>
        if w'.db.rows != w.db.rows { FencedInsert(w, NewHold(w.db, p, req, active.value, at.tx + lease), w'); }
      case Some(i) =>
        FencedUsedKey(w, lease, req, at, active.value, i, w');
    }
  }

  lemma FencedSettle(w: World, claim: Reservation, s: Settlement)
    requires Fenced(w)
    ensures Fenced(NextSettle(w, claim, s))
  {
    if ValidSettlement(claim, s) && Current(w.db, claim) {
      var w' := NextSettle(w, claim, s);
      var e := Settled(claim.id, claim.version, s);
      assert e in w'.log;
      FencedUpdate(w, claim.id - 1, SettledRow(w.db.rows[claim.id - 1], s), [e], w');
    }
  }

  lemma FencedReap(w: World, i: nat, grace: nat)
    requires Fenced(w)
    ensures Fenced(w.(db := Reap(w.db, i, grace)))
  {
    var w' := w.(db := Reap(w.db, i, grace));
    if w'.db.rows != w.db.rows {
      FencedUpdate(w, i, Lapsed(w.db.rows[i]), [], w');
    }
  }

  lemma FencedStep(w: World, lease: int, step: Step)
    requires Fenced(w)
    ensures Fenced(Next(w, lease, step))
  {
    match step
    case ClaimStep(p, req, at) => FencedClaim(w, lease, p, req, at);
    case SettleStep(claim, s) => FencedSettle(w, claim, s);
    case ReapStep(i, grace) => FencedReap(w, i, grace);
    case _ =>
  }

  /** In every run no (row id, version) is granted twice or settled twice, and a settlement always
      follows the grant of the same token. */
  lemma {:induction false} FencedAlways(w: World, lease: int, steps: seq<Step>)
    requires Fenced(w)
    ensures Fenced(Run(w, lease, steps))
    decreases |steps|
  {
    if steps != [] {
      FencedStep(w, lease, steps[0]);
      FencedAlways(Next(w, lease, steps[0]), lease, steps[1..]);
    }
  }

  /** A nil error from Finalize or Release means that this token's own transition, with these very
      values, is in the history: it happened now or earlier. */
  lemma SettledMeansOwn(w: World, claim: Reservation, s: Settlement)
    requires Fenced(w) && SettleTx(w.db, claim, s).1.None?
    ensures Settled(claim.id, claim.version, s) in NextSettle(w, claim, s).log
  {
    if !Current(w.db, claim) {
      assert RowOk(w.db.rows[claim.id - 1], w.log);
    }
  }

  /** The row left the token's version in a way that is not the token's own settlement. */
  predicate Superseded(db: Db, claim: Reservation) {
    && 1 <= claim.id <= |db.rows|
    && var r := db.rows[claim.id - 1];
       && r.version > claim.version
       && (r.version == claim.version + 1 ==> r.state == Claimed || r.state == Expired)
  }

  predicate MovesOn(rows: seq<Row>, rows': seq<Row>, i: nat)
    requires i < |rows|
  {
    i < |rows'| && (rows'[i] == rows[i] || rows'[i].version == rows[i].version + 1)
  }

  /** What a claim can do to a row: nothing, take it over, or let it expire. */
  predicate TakenOver(rows: seq<Row>, rows': seq<Row>, i: nat)
    requires i < |rows|
  {
    && MovesOn(rows, rows', i)
    && (rows'[i] != rows[i] ==> rows'[i].state == Claimed || rows'[i].state == Expired)
  }

  lemma VersionsRiseClaim(w: World, lease: int, p: Principal, raw: ClaimRequest, at: Instant, i: nat)
    requires i < |w.db.rows|
    ensures TakenOver(w.db.rows, ClaimTx(w.db, lease, p, raw, at).0.rows, i)
  {
    var req := TrimRequest(raw);
    var active := ActivePeriod(w.db.periods, p.org, at.tx);
    if ValidClaimRequest(p, req) && active.Some? {
      match FindKey(w.db.rows, p, req.key)
      case None =>
      case Some(k) => assert TakenOver(w.db.rows, ClaimUsedKey(w.db, lease, req, at, active.value, k).0.rows, i);
    }
  }

  /** A step leaves a row as it is or moves it to the next version. */
  lemma VersionsRise(w: World, lease: int, step: Step, i: nat)
    requires i < |w.db.rows|
    ensures MovesOn(w.db.rows, Next(w, lease, step).db.rows, i)
  {
    match step
    case ClaimStep(p, req, at) => VersionsRiseClaim(w, lease, p, req, at, i);
    case _ =>
  }

  lemma SupersededStep(w: World, lease: int, claim: Reservation, step: Step)
    requires Superseded(w.db, claim)
    ensures Superseded(Next(w, lease, step).db, claim)
  {
    VersionsRise(w, lease, step, claim.id - 1);
  }

  lemma SupersededRefused(db: Db, claim: Reservation, s: Settlement)
    requires Superseded(db, claim)
    ensures SettleTx(db, claim, s) == (db, Some(if ValidSettlement(claim, s) then ClaimClosed else InvalidClaim))
  {
  }

  /** Once a key was reclaimed or its hold expired, an older token is refused in every continuation. */
  lemma {:induction false} SupersededForever(w: World, lease: int, claim: Reservation, s: Settlement, steps: seq<Step>)
    requires Superseded(w.db, claim)
    ensures var db' := Run(w, lease, steps).db;
            && Superseded(db', claim)
            && SettleTx(db', claim, s) == (db', Some(if ValidSettlement(claim, s) then ClaimClosed else InvalidClaim))
    decreases |steps|
  {
    if steps == [] {
      SupersededRefused(w.db, claim, s);
    } else {
      SupersededStep(w, lease, claim, steps[0]);
      SupersededForever(Next(w, lease, steps[0]), lease, claim, s, steps[1..]);
    }
  }

  lemma OpenUnlessSettled(w: World, claim: Reservation, other: Reservation, s: Settlement)
    requires Current(w.db, claim) && (other.id != claim.id || other.version != claim.version)
    ensures Current(NextSettle(w, other, s).db, claim)
  {
  }

  /** Whatever step another party takes, an open token stays open or is superseded for good. */
  lemma OpenOrSuperseded(w: World, lease: int, claim: Reservation, step: Step)
    requires Current(w.db, claim)
    requires step.SettleStep? ==> step.claim.id != claim.id || step.claim.version != claim.version
    ensures var db' := Next(w, lease, step).db; Current(db', claim) || Superseded(db', claim)
  {
    match step
    case ClaimStep(p, req, at) =>
      VersionsRiseClaim(w, lease, p, req, at, claim.id - 1);
      assert at.tx <= w.db.now ==> NextClaim(w, lease, p, req, at).db == ClaimTx(w.db, lease, p, req, at).0;
    case SettleStep(other, s) => OpenUnlessSettled(w, claim, other, s);
    case _ =>
  }

  // ---------------------------------------------------------------- cap safety

  /** What the latest grant of a period left free: the cap minus the spend it read. */
  function Headroom(latest: map<(Uuid, Uuid), Period>, org: Uuid, period: Uuid): int {
    if (org, period) in latest then latest[(org, period)].cap - latest[(org, period)].spent else 0
  }

  ghost predicate CapKept(w: World) {
    forall org, period :: LiveHolds(w.db.rows, org, period, w.db.now, 0) <= Headroom(w.latest, org, period)
  }

  lemma {:induction false} HoldsUpdate(rows: seq<Row>, i: nat, r: Row, org: Uuid, period: Uuid, now: int, exclude: Uuid)
    requires i < |rows|
    ensures LiveHolds(rows[i := r], org, period, now, exclude)
         == LiveHolds(rows, org, period, now, exclude)
            - Held(rows[i], org, period, now, exclude) + Held(r, org, period, now, exclude)
  {
    var last := |rows| - 1;
    if i == last {
      assert rows[i := r][..last] == rows[..last];
    } else {
      HoldsUpdate(rows[..last], i, r, org, period, now, exclude);
      assert rows[i := r][..last] == rows[..last][i := r];
    }
  }

  lemma {:induction false} HoldsExclude(rows: seq<Row>, i: nat, org: Uuid, period: Uuid, now: int)
    requires i < |rows| && forall k :: 0 <= k < |rows| ==> rows[k].id == k + 1
    ensures LiveHolds(rows, org, period, now, i + 1)
         == LiveHolds(rows, org, period, now, 0) - Held(rows[i], org, period, now, 0)
  {
    var last := |rows| - 1;
    if i == last {
      HoldsWithout(rows[..last], i + 1, org, period, now);
    } else {
      HoldsExclude(rows[..last], i, org, period, now);
    }
  }

  lemma {:induction false} HoldsWithout(rows: seq<Row>, id: Uuid, org: Uuid, period: Uuid, now: int)
    requires forall k :: 0 <= k < |rows| ==> rows[k].id != id && rows[k].id != 0
    ensures LiveHolds(rows, org, period, now, id) == LiveHolds(rows, org, period, now, 0)
  {
    if rows != [] { HoldsWithout(rows[..|rows| - 1], id, org, period, now); }
  }

  /** Holds are never negative and only shrink as the clock advances. */
  lemma {:induction false} HoldsShrink(rows: seq<Row>, org: Uuid, period: Uuid, now: int, later: int, exclude: Uuid)
    requires now <= later && forall k :: 0 <= k < |rows| ==> rows[k].estimate >= 0
    ensures 0 <= LiveHolds(rows, org, period, later, exclude) <= LiveHolds(rows, org, period, now, exclude)
  {
    if rows != [] { HoldsShrink(rows[..|rows| - 1], org, period, now, later, exclude); }
  }

  /** The wrapped admission test passes although the true sum is above the cap. */
  predicate PassesOverCap(d: Period, holds: int, estimate: int) {
    d.spent + holds + estimate > d.cap && !OverCap(d, holds, estimate)
  }

  /** The claim reaches the admission test and its sum wraps to at most the cap. A reclaim leaves the
      row's own hold out of the sum, and a claim that is answered earlier computes none. */
  predicate WrapsUnder(db: Db, p: Principal, raw: ClaimRequest, at: Instant) {
    var req, active := TrimRequest(raw), ActivePeriod(db.periods, p.org, at.tx);
    && ValidClaimRequest(p, req) && active.Some?
    && match FindKey(db.rows, p, req.key)
       case None => PassesOverCap(active.value, LiveHolds(db.rows, p.org, active.value.id, at.tx, 0), req.estimate)
       case Some(i) =>
         var r := db.rows[i];
         && r.hash == req.hash && !Live(r, at.app)
         && PassesOverCap(active.value, LiveHolds(db.rows, p.org, active.value.id, at.tx, r.id), req.estimate)
  }

  /** No claim of the run is admitted by a sum that wrapped. */
  predicate NoneWraps(w: World, lease: int, steps: seq<Step>)
    decreases |steps|
  {
    steps != [] ==>
      && (steps[0].ClaimStep? ==> !WrapsUnder(w.db, steps[0].p, steps[0].req, steps[0].at))
      && NoneWraps(Next(w, lease, steps[0]), lease, steps[1..])
  }

  /** Replacing a row by one that holds no more in any period keeps the cap. */
  lemma CapLesserRow(w: World, i: nat, r: Row, w': World)
    requires Fenced(w) && CapKept(w) && i < |w.db.rows|
    requires w'.db.rows == w.db.rows[i := r] && w'.db.now == w.db.now && w'.latest == w.latest
    requires r.state != Claimed
    ensures CapKept(w')
  {
    forall org, period ensures LiveHolds(w'.db.rows, org, period, w'.db.now, 0) <= Headroom(w'.latest, org, period) {
      HoldsUpdate(w.db.rows, i, r, org, period, w.db.now, 0);
    }
  }

  lemma CapInsert(w: World, r: Row, d: Period, w': World)
    requires Fenced(w) && CapKept(w)
    requires r.period == d.id && r.estimate >= 0 && r.state == Claimed && r.id != 0
    requires d.spent + LiveHolds(w.db.rows, r.owner.org, d.id, w.db.now, 0) + r.estimate <= d.cap
    requires w'.db.rows == w.db.rows + [r] && w'.db.now == w.db.now && w'.latest == w.latest[(r.owner.org, d.id) := d]
    ensures CapKept(w')
  {
    forall org, period ensures LiveHolds(w'.db.rows, org, period, w'.db.now, 0) <= Headroom(w'.latest, org, period) {
      assert w'.db.rows[..|w'.db.rows| - 1] == w.db.rows;
      assert LiveHolds(w.db.rows, org, period, w.db.now, 0) <= Headroom(w.latest, org, period);
    }
  }

  lemma CapReclaim(w: World, i: nat, r: Row, d: Period, w': World)
    requires Fenced(w) && CapKept(w) && i < |w.db.rows|
    requires r.owner == w.db.rows[i].owner && r.period == d.id && r.id == i + 1
    requires d.spent + LiveHolds(w.db.rows, r.owner.org, d.id, w.db.now, r.id) + r.estimate <= d.cap && r.estimate >= 0
    requires w'.db.rows == w.db.rows[i := r] && w'.db.now == w.db.now && w'.latest == w.latest[(r.owner.org, d.id) := d]
    ensures CapKept(w')
  {
    forall org, period ensures LiveHolds(w'.db.rows, org, period, w'.db.now, 0) <= Headroom(w'.latest, org, period) {
      HoldsUpdate(w.db.rows, i, r, org, period, w.db.now, 0);
      HoldsExclude(w.db.rows, i, org, period, w.db.now);
      assert LiveHolds(w.db.rows, org, period, w.db.now, 0) <= Headroom(w.latest, org, period);
      assert RowOk(w.db.rows[i], w.log);
    }
  }

  lemma CapUsedKey(w: World, lease: int, req: ClaimRequest, at: Instant, d: Period, i: nat, w': World)
    requires Fenced(w) && CapKept(w) && i < |w.db.rows| && req.estimate >= 0
    requires at.tx <= w.db.now
    requires var r := w.db.rows[i];
             r.hash == req.hash && !Live(r, at.app) ==>
               !PassesOverCap(d, LiveHolds(w.db.rows, r.owner.org, d.id, at.tx, r.id), req.estimate)
    requires var (db', out) := ClaimUsedKey(w.db, lease, req, at, d, i);
             && w'.db == db'
             && w'.latest == (if out.outcome.Owned? then w.latest[(w.db.rows[i].owner.org, d.id) := d] else w.latest)
    ensures CapKept(w')
  {
    var r := w.db.rows[i];
    var org := r.owner.org;
    HoldsExclude(w.db.rows, i, org, d.id, at.tx);
    HoldsShrink(w.db.rows, org, d.id, at.tx, w.db.now, r.id);
    assert RowOk(r, w.log);
    var out := ClaimUsedKey(w.db, lease, req, at, d, i).1.outcome;
    if out.Owned? {
      CapReclaim(w, i, Reclaimed(r, req, d, at.tx + lease), d, w');
    } else if out.Exceeded? {
      if r.state == Claimed { CapLesserRow(w, i, Lapsed(r), w'); } else { assert w'.db.rows == w.db.rows; }
    }
  }

  lemma CapNewKey(w: World, lease: int, p: Principal, req: ClaimRequest, at: Instant, d: Period, w': World)
    requires Fenced(w) && CapKept(w) && req.estimate >= 0
    requires at.tx <= w.db.now
    requires !PassesOverCap(d, LiveHolds(w.db.rows, p.org, d.id, at.tx, 0), req.estimate)
    requires var (db', out) := ClaimNewKey(w.db, lease, p, req, at, d);
             && w'.db == db'
             && w'.latest == (if out.outcome.Owned? then w.latest[(p.org, d.id) := d] else w.latest)
    ensures CapKept(w')
  {
    HoldsShrink(w.db.rows, p.org, d.id, at.tx, w.db.now, 0);
    if ClaimNewKey(w.db, lease, p, req, at, d).1.outcome.Owned? {
      CapInsert(w, NewHold(w.db, p, req, d, at.tx + lease), d, w');
    }
  }

  lemma CapClaim(w: World, lease: int, p: Principal, raw: ClaimRequest, at: Instant)
    requires Fenced(w) && CapKept(w) && !WrapsUnder(w.db, p, raw, at)
    ensures CapKept(NextClaim(w, lease, p, raw, at))
  {
    var w' := NextClaim(w, lease, p, raw, at);
    var req := TrimRequest(raw);
    var active := ActivePeriod(w.db.periods, p.org, at.tx);
    if at.tx <= w.db.now && ValidClaimRequest(p, req) && active.Some? {
      match FindKey(w.db.rows, p, req.key)
      case None => CapNewKey(w, lease, p, req, at, active.value, w');
      case Some(i) => CapUsedKey(w, lease, req, at, active.value, i, w');
    }
  }

  lemma CapSettle(w: World, claim: Reservation, s: Settlement)
    requires Fenced(w) && CapKept(w)
    ensures CapKept(NextSettle(w, claim, s))
  {
    if ValidSettlement(claim, s) && Current(w.db, claim) {
      CapLesserRow(w, claim.id - 1, SettledRow(w.db.rows[claim.id - 1], s), NextSettle(w, claim, s));
    }
  }

  lemma CapReap(w: World, i: nat, grace: nat)
    requires Fenced(w) && CapKept(w)
    ensures CapKept(w.(db := Reap(w.db, i, grace)))
  {
    var w' := w.(db := Reap(w.db, i, grace));
    if w'.db.rows != w.db.rows { CapLesserRow(w, i, Lapsed(w.db.rows[i]), w'); }
  }

  lemma CapTick(w: World, elapsed: nat)
    requires Fenced(w) && CapKept(w)
    ensures CapKept(w.(db := w.db.(now := w.db.now + elapsed)))
  {
    var w' := w.(db := w.db.(now := w.db.now + elapsed));
    forall org, period ensures LiveHolds(w'.db.rows, org, period, w'.db.now, 0) <= Headroom(w'.latest, org, period) {
      HoldsShrink(w.db.rows, org, period, w.db.now, w'.db.now, 0);
    }
  }

  lemma CapStep(w: World, lease: int, step: Step)
    requires Fenced(w) && CapKept(w)
    requires step.ClaimStep? ==> !WrapsUnder(w.db, step.p, step.req, step.at)
    ensures CapKept(Next(w, lease, step))
  {
    match step
    case ClaimStep(p, req, at) => CapClaim(w, lease, p, req, at);
    case SettleStep(claim, s) => CapSettle(w, claim, s);
    case ReapStep(i, grace) => CapReap(w, i, grace);
    case Tick(elapsed) => CapTick(w, elapsed);
    case PostPeriods(_) =>
  }

  lemma {:induction false} CapKeptAlways(w: World, lease: int, steps: seq<Step>)
    requires Fenced(w) && CapKept(w) && NoneWraps(w, lease, steps)
    ensures CapKept(Run(w, lease, steps))
    decreases |steps|
  {
    if steps != [] {
      CapStep(w, lease, steps[0]);
      FencedStep(w, lease, steps[0]);
      CapKeptAlways(Next(w, lease, steps[0]), lease, steps[1..]);
    }
  }

  /** Cap safety: in every run from an empty table in which no admission sum wraps to below the cap, a
      period whose cap and posted spend are still those that its latest grant read is never overbooked. */
  lemma CapSafety(periods: seq<Period>, now: int, lease: int, steps: seq<Step>, d: Period)
    requires NoneWraps(Init(periods, now), lease, steps)
    ensures var w := Run(Init(periods, now), lease, steps);
            (d.org, d.id) in w.latest && w.latest[(d.org, d.id)].cap == d.cap &&
              w.latest[(d.org, d.id)].spent == d.spent
            ==> d.spent + LiveHolds(w.db.rows, d.org, d.id, w.db.now, 0) <= d.cap
  {
    CapKeptAlways(Init(periods, now), lease, steps);
    var w := Run(Init(periods, now), lease, steps);
    assert LiveHolds(w.db.rows, d.org, d.id, w.db.now, 0) <= Headroom(w.latest, d.org, d.id);
  }

  /** The int64 admission test agrees with the intended one exactly when the sum fits, or overshoots
      so far that it wraps all the way round above the cap. */
  lemma OverCapExact(d: Period, holds: int, estimate: int)
    requires 0 <= d.cap <= MAX_INT64 && 0 <= d.spent <= MAX_INT64
    requires 0 <= holds <= MAX_INT64 && 0 <= estimate <= MAX_INT64
    ensures var total := d.spent + holds + estimate;
            (OverCap(d, holds, estimate) <==> total > d.cap) <==> (total <= MAX_INT64 || total > d.cap + TWO_64)
  {
    var total := d.spent + holds + estimate;
    if total > MAX_INT64 {
      assert total + MAX_INT64 + 1 >= TWO_64;
      if total < TWO_64 + MAX_INT64 + 1 {
        assert (total + MAX_INT64 + 1) % TWO_64 == total + MAX_INT64 + 1 - TWO_64;
      }
    }
  }

  lemma WrappedNewKey(w: World, lease: int, p: Principal, raw: ClaimRequest, at: Instant, d: Period)
    requires lease > 0 && at.tx == w.db.now && ActivePeriod(w.db.periods, p.org, at.tx) == Some(d)
    requires WrapsUnder(w.db, p, raw, at) && FindKey(w.db.rows, p, TrimRequest(raw).key).None?
    ensures var w' := NextClaim(w, lease, p, raw, at);
            LiveHolds(w'.db.rows, p.org, d.id, w'.db.now, 0) > Headroom(w'.latest, p.org, d.id)
  {
    var r := NewHold(w.db, p, TrimRequest(raw), d, at.tx + lease);
    assert (w.db.rows + [r])[..|w.db.rows|] == w.db.rows;
  }

  lemma WrappedReclaim(w: World, lease: int, p: Principal, raw: ClaimRequest, at: Instant, d: Period, i: nat)
    requires Fenced(w) && lease > 0 && at.tx == w.db.now && ActivePeriod(w.db.periods, p.org, at.tx) == Some(d)
    requires WrapsUnder(w.db, p, raw, at) && FindKey(w.db.rows, p, TrimRequest(raw).key) == Some(i)
    ensures var w' := NextClaim(w, lease, p, raw, at);
            LiveHolds(w'.db.rows, p.org, d.id, w'.db.now, 0) > Headroom(w'.latest, p.org, d.id)
  {
    var r := Reclaimed(w.db.rows[i], TrimRequest(raw), d, at.tx + lease);
    ReclaimedHolds(w.db.rows, i, r, p.org, d.id, w.db.now);
    ReclaimedWorld(w, lease, p, raw, at, d, i);
  }

  /** A reclaimed row adds its new hold to those of the others. */
  lemma ReclaimedHolds(rows: seq<Row>, i: nat, r: Row, org: Uuid, period: Uuid, now: int)
    requires i < |rows| && r.id == i + 1 && forall k :: 0 <= k < |rows| ==> rows[k].id == k + 1
    ensures LiveHolds(rows[i := r], org, period, now, 0)
         == LiveHolds(rows, org, period, now, i + 1) + Held(r, org, period, now, 0)
  {
    HoldsUpdate(rows, i, r, org, period, now, 0);
    HoldsExclude(rows, i, org, period, now);
  }

  lemma ReclaimedWorld(w: World, lease: int, p: Principal, raw: ClaimRequest, at: Instant, d: Period, i: nat)
    requires at.tx == w.db.now && ActivePeriod(w.db.periods, p.org, at.tx) == Some(d)
    requires WrapsUnder(w.db, p, raw, at) && FindKey(w.db.rows, p, TrimRequest(raw).key) == Some(i)
    ensures var w' := NextClaim(w, lease, p, raw, at);
            && w'.db.rows == w.db.rows[i := Reclaimed(w.db.rows[i], TrimRequest(raw), d, at.tx + lease)]
            && w'.db.now == w.db.now && Headroom(w'.latest, p.org, d.id) == d.cap - d.spent
  {
  }

  /** A claim transaction keeps the cap exactly when its admission sum does not wrap to below it, on the
      new key's branch and on the reclaim's. */
  lemma ClaimKeepsCapExactly(w: World, lease: int, p: Principal, raw: ClaimRequest, at: Instant)
    requires Fenced(w) && CapKept(w) && lease > 0 && at.tx == w.db.now
    ensures CapKept(NextClaim(w, lease, p, raw, at)) <==> !WrapsUnder(w.db, p, raw, at)
  {
    if WrapsUnder(w.db, p, raw, at) {
      var d := ActivePeriod(w.db.periods, p.org, at.tx).value;
      var w' := NextClaim(w, lease, p, raw, at);
      match FindKey(w.db.rows, p, TrimRequest(raw).key)
      case None => WrappedNewKey(w, lease, p, raw, at, d);
      case Some(i) => WrappedReclaim(w, lease, p, raw, at, d, i);
      assert LiveHolds(w'.db.rows, p.org, d.id, w'.db.now, 0) > Headroom(w'.latest, p.org, d.id);
    } else {
      CapClaim(w, lease, p, raw, at);
    }
  }

  /** Such a claim exists from the start: with anything spent, one claim of the largest int64 amount is
      granted on an empty table and overbooks the period, whatever the cap. */
  lemma WrappedSumOverbooks(lease: int, p: Principal, raw: ClaimRequest, now: int, app: int, d: Period)
    requires lease > 0 && ValidClaimRequest(p, TrimRequest(raw)) && raw.estimate == MAX_INT64
    requires Enforceable(d, p.org, now) && 0 <= d.cap <= MAX_INT64 && 1 <= d.spent <= MAX_INT64
    ensures var w := Run(Init([d], now), lease, [ClaimStep(p, raw, Instant(app, now))]);
            !CapKept(w) && d.spent + LiveHolds(w.db.rows, p.org, d.id, now, 0) > d.cap
  {
    var w, at := Init([d], now), Instant(app, now);
    assert ActivePeriod([d], p.org, now) == Some(d) by { assert [d][1..] == []; }
    var total := d.spent + MAX_INT64;
    assert (total + MAX_INT64 + 1) % TWO_64 == total + MAX_INT64 + 1 - TWO_64;
    assert WrapsUnder(w.db, p, raw, at);
    WrappedNewKey(w, lease, p, raw, at, d);
    assert [ClaimStep(p, raw, at)][1..] == [];
    assert Run(w, lease, [ClaimStep(p, raw, at)]) == NextClaim(w, lease, p, raw, at);
  }

  /** After a refusal the holds of the period are the ones the refusal counted: the refused key's own
      stale hold is gone. */
  lemma HoldsAfterRefusal(w: World, lease: int, req: ClaimRequest, at: Instant, d: Period, i: nat)
    requires Fenced(w) && i < |w.db.rows|
    requires ClaimUsedKey(w.db, lease, req, at, d, i).1.outcome.Exceeded?
    ensures var r := w.db.rows[i];
            LiveHolds(ClaimUsedKey(w.db, lease, req, at, d, i).0.rows, r.owner.org, d.id, at.tx, 0)
            == LiveHolds(w.db.rows, r.owner.org, d.id, at.tx, r.id)
  {
    var r := w.db.rows[i];
    HoldsUpdate(w.db.rows, i, Lapsed(r), r.owner.org, d.id, at.tx, 0);
    HoldsExclude(w.db.rows, i, r.owner.org, d.id, at.tx);
    assert RowOk(r, w.log);
  }

  lemma RefusalCounts(w: World, lease: int, p: Principal, raw: ClaimRequest, at: Instant)
    requires Fenced(w)
    requires var out := ClaimTx(w.db, lease, p, raw, at).1; out.Ok? && out.outcome.Exceeded?
    ensures var (db', out) := ClaimTx(w.db, lease, p, raw, at);
            && db'.periods == w.db.periods
            && ActivePeriod(w.db.periods, p.org, at.tx).Some?
            && var d := ActivePeriod(w.db.periods, p.org, at.tx).value;
               out.outcome.remaining == Remaining(d, LiveHolds(db'.rows, p.org, d.id, at.tx, 0))
  {
    var req := TrimRequest(raw);
    var d := ActivePeriod(w.db.periods, p.org, at.tx).value;
    match FindKey(w.db.rows, p, req.key)
    case None =>
    case Some(i) => HoldsAfterRefusal(w, lease, req, at, d, i);
  }

  predicate FitsInt64(x: int) {
    -MAX_INT64 - 1 <= x <= MAX_INT64
  }

  /** The admission sum of a new key does not leave int64. */
  predicate SumFits(db: Db, p: Principal, estimate: int, tx: int) {
    var active := ActivePeriod(db.periods, p.org, tx);
    active.Some? ==> FitsInt64(active.value.spent + LiveHolds(db.rows, p.org, active.value.id, tx, 0) + estimate)
  }

  lemma FreshKeyAdmitted(db: Db, lease: int, p: Principal, raw: ClaimRequest, at: Instant, d: Period)
    requires ValidClaimRequest(p, TrimRequest(raw)) && FindKey(db.rows, p, TrimRequest(raw).key).None?
    requires ActivePeriod(db.periods, p.org, at.tx) == Some(d)
    requires var holds := LiveHolds(db.rows, p.org, d.id, at.tx, 0); FitsInt64(d.spent + holds + raw.estimate)
    ensures var out := ClaimTx(db, lease, p, raw, at).1;
            var holds := LiveHolds(db.rows, p.org, d.id, at.tx, 0);
            out.Ok? && (out.outcome.Owned? <==> raw.estimate <= d.cap - d.spent - holds)
  {
  }

  /** The remaining amount of a refusal is exact: right after it, a new key of the same principal is
      admitted if and only if its estimate is at most that amount. */
  lemma RemainingIsUsable(w: World, lease: int, p: Principal, raw: ClaimRequest, at: Instant, other: ClaimRequest)
    requires Fenced(w)
    requires var (db', out) := ClaimTx(w.db, lease, p, raw, at);
             && out.Ok? && out.outcome.Exceeded? && out.outcome.remaining > 0
             && ValidClaimRequest(p, TrimRequest(other)) && FindKey(db'.rows, p, TrimRequest(other).key).None?
             && SumFits(db', p, other.estimate, at.tx)
             && forall d :: d in db'.periods ==> FitsInt64(d.cap - d.spent - LiveHolds(db'.rows, p.org, d.id, at.tx, 0))
    ensures var (db', out) := ClaimTx(w.db, lease, p, raw, at);
            var again := ClaimTx(db', lease, p, other, at).1;
            again.Ok? && (again.outcome.Owned? <==> other.estimate <= out.outcome.remaining)
  {
    RefusalCounts(w, lease, p, raw, at);
    var db' := ClaimTx(w.db, lease, p, raw, at).0;
    FreshKeyAdmitted(db', lease, p, other, at, ActivePeriod(w.db.periods, p.org, at.tx).value);
  }

  // ---------------------------------------------------------------- the ledger object

  /** A guarded UPDATE of the table: at most the row with this primary key matches its WHERE clause. */
  predicate RowMatches(db: Db, id: Uuid, owner: Principal, key: string, version: int) {
    && 1 <= id <= |db.rows|
    && var r := db.rows[id - 1];
       r.id == id && r.owner == owner && r.key == key && r.version == version
  }

  predicate IdsInOrder(db: Db) {
    forall i :: 0 <= i < |db.rows| ==> db.rows[i].id == i + 1
  }

  class PostgresLedger {
    var db: Db
    const lease: int

    constructor (db: Db, lease: int)
      ensures this.db == db
      ensures this.lease == if lease <= 0 then 900_000_000 else lease
    {
      this.db := db;
      this.lease := if lease <= 0 then 900_000_000 else lease;
    }

    method Claim(p: Principal, raw: ClaimRequest, at: Instant) returns (out: ClaimResult)
      requires IdsInOrder(db)
      modifies this
      ensures IdsInOrder(db) && (db, out) == ClaimTx(old(db), lease, p, raw, at)
    {
      var req := ClaimRequest(TrimSpace(raw.key), TrimSpace(raw.hash), raw.estimate);
      if !ValidClaimRequest(p, req) {
        return Err(InvalidClaim);
      }
      var outcome := ClaimInTx(p, req, at);
      out := Ok(outcome);
    }

    method ClaimInTx(p: Principal, req: ClaimRequest, at: Instant) returns (out: Outcome)
      requires IdsInOrder(db)
      modifies this
      ensures IdsInOrder(db)
      ensures (db, Ok(out)) ==
              match ActivePeriod(old(db).periods, p.org, at.tx)
              case None => (old(db), Ok(NoCap))
              case Some(d) =>
                match FindKey(old(db).rows, p, req.key)
                case None => ClaimNewKey(old(db), lease, p, req, at, d)
                case Some(i) => ClaimUsedKey(old(db), lease, req, at, d, i)
    {
      var period := ActivePeriod(db.periods, p.org, at.tx);
      if period.None? {
        return NoCap;
      }
      var row := FindKey(db.rows, p, req.key);
      if row.None? {
        out := ClaimFresh(p, req, at, period.value);
      } else {
        out := ResolveExisting(p, req, at, period.value, db.rows[row.value]);
      }
    }

    method ClaimFresh(p: Principal, req: ClaimRequest, at: Instant, d: Period) returns (out: Outcome)
      requires IdsInOrder(db) && FindKey(db.rows, p, req.key).None?
      modifies this
      ensures IdsInOrder(db) && (db, Ok(out)) == ClaimNewKey(old(db), lease, p, req, at, d)
    {
      var holds := LiveHolds(db.rows, p.org, d.id, at.tx, 0);
      if OverCap(d, holds, req.estimate) {
        return Exceeded(Remaining(d, holds));
      }
      var inserted, id, version := InsertReservation(p, req, at, d);
      if !inserted {
        assert false; // unreachable under the admission lock
        return InProgress(1_000_000);
      }
      out := Owned(Reservation(id, p, req.key, req.hash, d.id, version));
    }

    /** INSERT ... ON CONFLICT (organization_id, agent_id, reservation_key) DO NOTHING. */
    method InsertReservation(p: Principal, req: ClaimRequest, at: Instant, d: Period)
      returns (inserted: bool, id: Uuid, version: int)
      requires IdsInOrder(db)
      modifies this
      ensures IdsInOrder(db)
      ensures inserted <==> FindKey(old(db).rows, p, req.key).None?
      ensures inserted ==> id == |old(db).rows| + 1 && version == 1
      ensures db == if inserted then old(db).(rows := old(db).rows + [NewHold(old(db), p, req, d, at.tx + lease)])
              else old(db)
    {
      if FindKey(db.rows, p, req.key).Some? {
        return false, 0, 0;
      }
      id, version := |db.rows| + 1, 1;
      var r := Row(id, p, req.key, req.hash, d.id, Claimed, req.estimate, None, None, Some(at.tx + lease), version);
      db := db.(rows := db.rows + [r]);
      inserted := true;
    }

    method ResolveExisting(p: Principal, req: ClaimRequest, at: Instant, d: Period, row: Row) returns (out: Outcome)
      requires IdsInOrder(db)
      requires RowMatches(db, row.id, p, req.key, row.version) && db.rows[row.id - 1] == row
      modifies this
      ensures IdsInOrder(db) && (db, Ok(out)) == ClaimUsedKey(old(db), lease, req, at, d, row.id - 1)
    {
      if row.hash != req.hash {
        return Conflict;
      }
      if Live(row, at.app) {
        return InProgress(row.lease.value - at.app);
      }
      var otherHolds := LiveHolds(db.rows, p.org, d.id, at.tx, row.id);
      if OverCap(d, otherHolds, req.estimate) {
        ExpireStaleClaim(p, req.key, row);
        return Exceeded(Remaining(d, otherHolds));
      }
      out := ResetHeldRow(p, req, at, d, row);
    }

    method ExpireStaleClaim(p: Principal, key: string, row: Row)
      requires IdsInOrder(db) && RowMatches(db, row.id, p, key, row.version) && db.rows[row.id - 1] == row
      modifies this
      ensures IdsInOrder(db) && db == old(db).(rows := old(db).rows[row.id - 1 := Lapsed(row)])
    {
      if row.state != Claimed {
        assert db.rows == db.rows[row.id - 1 := Lapsed(row)];
        return;
      }
      if RowMatches(db, row.id, p, key, row.version) && db.rows[row.id - 1].state == Claimed {
        var r := db.rows[row.id - 1];
        db := db.(rows := db.rows[row.id - 1 := r.(state := Expired, lease := None, version := r.version + 1)]);
      }
    }

    method ResetHeldRow(p: Principal, req: ClaimRequest, at: Instant, d: Period, row: Row) returns (out: Outcome)
      requires IdsInOrder(db) && RowMatches(db, row.id, p, req.key, row.version) && row.hash == req.hash
      requires db.rows[row.id - 1] == row
      modifies this
      ensures IdsInOrder(db)
      ensures var r' := Reclaimed(row, req, d, at.tx + lease);
              db == old(db).(rows := old(db).rows[row.id - 1 := r']) && out == Owned(TokenFor(r'))
    {
      var r := db.rows[row.id - 1];
      var version := r.version + 1;
      db := db.(rows := db.rows[row.id - 1 :=
              r.(state := Claimed, period := d.id, estimate := req.estimate, final := None, marker := None,
                 lease := Some(at.tx + lease), version := version)]);
      out := Owned(Reservation(r.id, p, req.key, req.hash, d.id, version));
    }

    method Finalize(claim: Reservation, amount: int, marker: string) returns (err: Option<Error>)
      requires IdsInOrder(db)
      modifies this
      ensures IdsInOrder(db) && (db, err) == SettleTx(old(db), claim, Finalizing(amount, marker))
    {
      if !ValidReservation(claim) || amount < 0 || !ValidCompleteness(marker) {
        return Some(InvalidClaim);
      }
      err := Settle(claim, Finalizing(amount, marker));
    }

    method Release(claim: Reservation) returns (err: Option<Error>)
      requires IdsInOrder(db)
      modifies this
      ensures IdsInOrder(db) && (db, err) == SettleTx(old(db), claim, Releasing)
    {
      if !ValidReservation(claim) {
        return Some(InvalidClaim);
      }
      err := Settle(claim, Releasing);
    }

    /** The guarded UPDATE first; when it matches no row, the stored row decides whether this is an
        identical repeat. */
    method Settle(claim: Reservation, s: Settlement) returns (err: Option<Error>)
      requires IdsInOrder(db) && ValidSettlement(claim, s)
      modifies this
      ensures IdsInOrder(db) && (db, err) == SettleTx(old(db), claim, s)
    {
      if RowMatches(db, claim.id, claim.owner, claim.key, claim.version) && db.rows[claim.id - 1].state == Claimed {
        var r := db.rows[claim.id - 1];
        if s.Finalizing? {
          r := r.(state := Finalized, final := Some(s.amount), marker := Some(s.marker), lease := None,
            version := r.version + 1);
        } else {
          r := r.(state := Released, lease := None, version := r.version + 1);
        }
        db := db.(rows := db.rows[claim.id - 1 := r]);
        return None;
      }
      if !(1 <= claim.id <= |db.rows|) || db.rows[claim.id - 1].owner != claim.owner ||
        db.rows[claim.id - 1].key != claim.key {
        return Some(ClaimClosed);
      }
      var settled := db.rows[claim.id - 1];
      var repeat := settled.version == claim.version + 1;
      if s.Finalizing? {
        repeat := repeat && settled.state == Finalized && settled.final == Some(s.amount) &&
          settled.marker == Some(s.marker);
      } else {
        repeat := repeat && settled.state == Released;
      }
      err := if repeat then None else Some(ClaimClosed);
    }
  }
}
