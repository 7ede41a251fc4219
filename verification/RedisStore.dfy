/**
 The Redis idempotency store of packages/idempotency/redis.go.

 Every Redis command is one atomic step; commands of different calls interleave in any order, and
 time passes between them. WATCH is a revision number per key that every write, delete and expiry of
 the key advances, and EXEC succeeds only if the revision is still the one that was watched. (Redis
 counts the expiry of a watched key as a change since version 6.0.9.)
 */
module RedisStore {
  import opened Prelude

  datatype State = Pending | Completed

  datatype Record = Record(version: int, state: State, fp: string, status: int, body: seq<bv8>)

  datatype Cell = Cell(rec: Record, expires: int)

  /** touched counts the changes of a key, gone counts its disappearances. */
  datatype Store = Store(cells: map<string, Cell>, touched: map<string, nat>, gone: map<string, nat>, now: int)

  datatype Owner = Owner(key: string, fp: string)

  datatype Outcome = Miss(rec: Record) | Hit(rec: Record) | Conflict(rec: Record) | InProgress(rec: Record)

  const CURRENT_VERSION := 1
  const MAX_TRIES := 3

  function PendingRecord(fp: string): Record {
    Record(CURRENT_VERSION, Pending, fp, 0, [])
  }

  // ---------------------------------------------------------------- keys

  /** The text of an organization's uuid has 36 characters. */
  function RedisKey(org: string, key: string): string {
    "idempotency:" + org + ":" + key
  }

  /** Distinct (organization, key) pairs never share a Redis key. */
  lemma RedisKeyInjective(org: string, key: string, org': string, key': string)
    requires |org| == 36 && |org'| == 36 && RedisKey(org, key) == RedisKey(org', key')
    ensures org == org' && key == key'
  {
    var k, k' := RedisKey(org, key), RedisKey(org', key');
    assert org == k[12..48] && org' == k'[12..48];
    assert key == k[49..] && key' == k'[49..];
  }

  // ---------------------------------------------------------------- commands

  function Count(m: map<string, nat>, key: string): nat {
    if key in m then m[key] else 0
  }

  function Put(s: Store, key: string, rec: Record, ttl: int): Store {
    s.(cells := s.cells[key := Cell(rec, s.now + ttl)], touched := s.touched[key := Count(s.touched, key) + 1])
  }

  function Delete(s: Store, key: string): Store {
    if key !in s.cells then s else
      s.(cells := s.cells - {key}, touched := s.touched[key := Count(s.touched, key) + 1],
         gone := s.gone[key := Count(s.gone, key) + 1])
  }

  /** Time passes and every key whose time to live is over disappears. */
  function Pass(s: Store, elapsed: nat): Store {
    var now' := s.now + elapsed;
    var dead := set k | k in s.cells && s.cells[k].expires <= now';
    Store(s.cells - dead,
          map k | k in s.touched.Keys + dead :: Count(s.touched, k) + (if k in dead then 1 else 0),
          map k | k in s.gone.Keys + dead :: Count(s.gone, k) + (if k in dead then 1 else 0),
          now')
  }

  // ---------------------------------------------------------------- calls

  /** What EXEC does: store a completed record, or delete the key. */
  datatype Change = Commit(rec: Record) | Release

  datatype Pc =
    | TrySet                                    // before SETNX
    | Inspect(goneAtSet: nat)                   // before GET, after a SETNX that found the key
    | Watching(change: Change, tries: nat)      // before WATCH and its GET
    | Executing(change: Change, tries: nat, watched: nat) // before EXEC
    | Answered(outcome: Outcome)
    | Settled                                   // Commit or Release returned nil
    | Failed

  /** rounds counts how often the call went back from a missing key to SETNX. */
  datatype Call = Call(own: Owner, pc: Pc, rounds: nat, goneAtStart: nat)

  datatype Ttls = Ttls(pending: int, completed: int)

  datatype World = World(store: Store, calls: map<nat, Call>)

  datatype Step =
    | StartClaim(call: nat, own: Owner)
    | StartCas(call: nat, own: Owner, change: Change)
    | Advance(call: nat)
    | Tick(elapsed: nat)

  /** What Commit writes: the caller's record, stamped. */
  function Stamped(change: Change): Change {
    match change
    case Commit(rec) => Commit(rec.(version := CURRENT_VERSION, state := Completed))
    case Release => Release
  }

  function Apply(s: Store, key: string, change: Change, ttls: Ttls): Store {
    match change
    case Commit(rec) => Put(s, key, rec, ttls.completed)
    case Release => Delete(s, key)
  }

  predicate PendingFor(s: Store, own: Owner) {
    && own.key in s.cells
    && s.cells[own.key].rec.version == CURRENT_VERSION
    && s.cells[own.key].rec.state == Pending && s.cells[own.key].rec.fp == own.fp
  }

  /** The atomic operation that Commit and Release stand for. */
  function AtomicCas(s: Store, own: Owner, change: Change, ttls: Ttls): Store {
    if PendingFor(s, own) then Apply(s, own.key, change, ttls) else s
  }

  function AnswerFor(own: Owner, rec: Record): Outcome {
    if rec.fp != own.fp then Conflict(rec) else if rec.state == Completed then Hit(rec) else InProgress(rec)
  }

  /** One command of one call. */
  function StepCall(s: Store, c: Call, ttls: Ttls): (Store, Call) {
    var key := c.own.key;
    match c.pc
    case TrySet =>
      if key in s.cells then (s, c.(pc := Inspect(Count(s.gone, key))))
      else (Put(s, key, PendingRecord(c.own.fp), ttls.pending), c.(pc := Answered(Miss(PendingRecord(c.own.fp)))))
    case Inspect(_) =>
      if key !in s.cells then (s, c.(pc := TrySet, rounds := c.rounds + 1))
      else if s.cells[key].rec.version != CURRENT_VERSION then (s, c.(pc := Failed))
      else (s, c.(pc := Answered(AnswerFor(c.own, s.cells[key].rec))))
    case Watching(change, tries) =>
      if key !in s.cells then (s, c.(pc := Settled))
      else if s.cells[key].rec.version != CURRENT_VERSION then (s, c.(pc := Failed))
      else if !PendingFor(s, c.own) then (s, c.(pc := Settled))
      else (s, c.(pc := Executing(change, tries, Count(s.touched, key))))
    case Executing(change, tries, watched) =>
      if Count(s.touched, key) == watched then (Apply(s, key, change, ttls), c.(pc := Settled))
      else if tries + 1 < MAX_TRIES then (s, c.(pc := Watching(change, tries + 1)))
      else (s, c.(pc := Failed))
    case _ => (s, c)
  }

  function Next(w: World, ttls: Ttls, step: Step): World {
    match step
    case StartClaim(i, own) =>
      if i in w.calls then w else w.(calls := w.calls[i := Call(own, TrySet, 0, Count(w.store.gone, own.key))])
    case StartCas(i, own, change) =>
      if i in w.calls then w
      else w.(calls := w.calls[i := Call(own, Watching(Stamped(change), 0), 0, Count(w.store.gone, own.key))])
    case Advance(i) =>
      if i !in w.calls then w else
        var (s', c') := StepCall(w.store, w.calls[i], ttls);
        World(s', w.calls[i := c'])
    case Tick(elapsed) => w.(store := Pass(w.store, elapsed))
  }

  function Run(w: World, ttls: Ttls, steps: seq<Step>): World
    decreases |steps|
  {
    if steps == [] then w else Run(Next(w, ttls, steps[0]), ttls, steps[1..])
  }

  // ---------------------------------------------------------------- invariant

  predicate CallOk(s: Store, c: Call) {
    var gone := Count(s.gone, c.own.key);
    && c.goneAtStart + c.rounds <= gone
    && match c.pc
       case Inspect(g) => c.goneAtStart + c.rounds <= g <= gone && (c.own.key !in s.cells ==> g < gone)
       case Watching(change, tries) =>
         tries < MAX_TRIES && (change.Commit? ==>
           change.rec.state == Completed && change.rec.version == CURRENT_VERSION)
       case Executing(change, tries, watched) =>
         && tries < MAX_TRIES && (change.Commit? ==>
           change.rec.state == Completed && change.rec.version == CURRENT_VERSION)
         && watched <= Count(s.touched, c.own.key)
         && (Count(s.touched, c.own.key) == watched ==> PendingFor(s, c.own))
       case _ => true
  }

  predicate Inv(w: World) {
    forall i :: i in w.calls ==> CallOk(w.store, w.calls[i])
  }

  /** The store moved on: keys that changed were touched, keys that left are counted. */
  predicate Later(s: Store, s': Store, key: string) {
    && Count(s.gone, key) <= Count(s'.gone, key) && Count(s.touched, key) <= Count(s'.touched, key)
    && (Count(s'.touched, key) == Count(s.touched, key) ==>
          (key in s.cells <==> key in s'.cells) && (key in s.cells ==> s'.cells[key] == s.cells[key]))
    && (key in s.cells && key !in s'.cells ==> Count(s.gone, key) < Count(s'.gone, key))
  }

  lemma CallOkLater(s: Store, s': Store, c: Call)
    requires CallOk(s, c) && Later(s, s', c.own.key)
    ensures CallOk(s', c)
  {
  }

  lemma PassLater(s: Store, elapsed: nat, key: string)
    ensures Later(s, Pass(s, elapsed), key)
  {
  }

  lemma StepCallLater(s: Store, c: Call, ttls: Ttls, key: string)
    ensures Later(s, StepCall(s, c, ttls).0, key)
  {
  }

  lemma StepCallOk(s: Store, c: Call, ttls: Ttls)
    requires CallOk(s, c)
    ensures var (s', c') := StepCall(s, c, ttls); CallOk(s', c')
  {
  }

  lemma InvStep(w: World, ttls: Ttls, step: Step)
    requires Inv(w)
    ensures Inv(Next(w, ttls, step))
  {
    var w' := Next(w, ttls, step);
    forall i | i in w'.calls ensures CallOk(w'.store, w'.calls[i]) {
      match step
      case StartClaim(_, _) =>
      case StartCas(_, _, _) =>
      case Advance(j) =>
        if j in w.calls {
          if i == j { StepCallOk(w.store, w.calls[j], ttls); } else {
            StepCallLater(w.store, w.calls[j], ttls, w.calls[i].own.key);
            CallOkLater(w.store, w'.store, w.calls[i]);
          }
        }
      case Tick(elapsed) =>
        PassLater(w.store, elapsed, w.calls[i].own.key);
        CallOkLater(w.store, w'.store, w.calls[i]);
    }
  }

  lemma {:induction false} InvAlways(w: World, ttls: Ttls, steps: seq<Step>)
    requires Inv(w)
    ensures Inv(Run(w, ttls, steps))
    decreases |steps|
  {
    if steps != [] {
      InvStep(w, ttls, steps[0]);
      InvAlways(Next(w, ttls, steps[0]), ttls, steps[1..]);
    }
  }

  // ---------------------------------------------------------------- compare and set

  predicate IsCas(c: Call) {
    c.pc.Watching? || c.pc.Executing?
  }

  /** In every run each command of a Commit or Release leaves the store alone unless it is the command
      that makes the call return nil, and that command has exactly the effect of the atomic operation
      at that instant; a call that fails changed nothing. */
  lemma CasIsAtomic(ttls: Ttls, start: Store, steps: seq<Step>, i: nat)
    requires var w := Run(World(start, map[]), ttls, steps); i in w.calls && IsCas(w.calls[i])
    ensures var w := Run(World(start, map[]), ttls, steps);
            var (s', c') := StepCall(w.store, w.calls[i], ttls);
            && (c'.pc.Settled? ==> s' == AtomicCas(w.store, w.calls[i].own, w.calls[i].pc.change, ttls))
            && (!c'.pc.Settled? ==> s' == w.store)
            && (IsCas(c') ==> c'.pc.change == w.calls[i].pc.change)
  {
    InvAlways(World(start, map[]), ttls, steps);
    assert CallOk(Run(World(start, map[]), ttls, steps).store, Run(World(start, map[]), ttls, steps).calls[i]);
  }

  // ---------------------------------------------------------------- completed records

  lemma CompletedStep(w: World, ttls: Ttls, step: Step, key: string)
    requires Inv(w) && key in w.store.cells && w.store.cells[key].rec.state == Completed
    requires Next(w, ttls, step).store.now < w.store.cells[key].expires
    ensures key in Next(w, ttls, step).store.cells
    ensures Next(w, ttls, step).store.cells[key] == w.store.cells[key]
  {
    if step.Advance? && step.call in w.calls {
      assert CallOk(w.store, w.calls[step.call]);
    }
  }

  lemma {:induction false} ClockOnlyAdvances(w: World, ttls: Ttls, steps: seq<Step>)
    ensures w.store.now <= Run(w, ttls, steps).store.now
    decreases |steps|
  {
    if steps != [] {
      assert w.store.now <= Next(w, ttls, steps[0]).store.now;
      ClockOnlyAdvances(Next(w, ttls, steps[0]), ttls, steps[1..]);
    }
  }

  /** A completed record is unchanged in every continuation whose clock has not reached its end of life. */
  lemma {:induction false} CompletedUntilExpiry(w: World, ttls: Ttls, steps: seq<Step>, key: string)
    requires Inv(w) && key in w.store.cells && w.store.cells[key].rec.state == Completed
    requires Run(w, ttls, steps).store.now < w.store.cells[key].expires
    ensures key in Run(w, ttls, steps).store.cells && Run(w, ttls, steps).store.cells[key] == w.store.cells[key]
    decreases |steps|
  {
    if steps != [] {
      ClockOnlyAdvances(Next(w, ttls, steps[0]), ttls, steps[1..]);
      CompletedStep(w, ttls, steps[0], key);
      InvStep(w, ttls, steps[0]);
      CompletedUntilExpiry(Next(w, ttls, steps[0]), ttls, steps[1..], key);
    }
  }

  /** Until then every command of a claim on the key finds that record: SETNX never wins, and GET
      answers Hit for the same fingerprint and Conflict for any other, with the record itself. */
  lemma CompletedAnswers(w: World, ttls: Ttls, steps: seq<Step>, key: string, c: Call)
    requires Inv(w) && key in w.store.cells && w.store.cells[key].rec.state == Completed
    requires w.store.cells[key].rec.version == CURRENT_VERSION
    requires Run(w, ttls, steps).store.now < w.store.cells[key].expires && c.own.key == key
    ensures var s := Run(w, ttls, steps).store;
            var rec := w.store.cells[key].rec;
            && (c.pc.TrySet? ==> StepCall(s, c, ttls).0 == s && StepCall(s, c, ttls).1.pc.Inspect?)
            && (c.pc.Inspect? ==>
                  && StepCall(s, c, ttls).0 == s
                  && StepCall(s, c, ttls).1.pc == Answered(if rec.fp == c.own.fp then Hit(rec) else Conflict(rec)))
  {
    CompletedUntilExpiry(w, ttls, steps, key);
  }

  /** What a successful Commit stored is what the same fingerprint is answered for the whole time to
      live of completed records. */
  lemma CommitReplays(w: World, ttls: Ttls, i: nat, steps: seq<Step>, c: Call)
    requires Inv(w) && i in w.calls && w.calls[i].pc.Executing? && w.calls[i].pc.change.Commit?
    requires Next(w, ttls, Advance(i)).calls[i].pc.Settled?
    requires c.own == w.calls[i].own && c.pc.Inspect? && w.calls[i].pc.change.rec.fp == c.own.fp
    requires var w' := Run(Next(w, ttls, Advance(i)), ttls, steps); w'.store.now < w.store.now + ttls.completed
    ensures var s := Run(Next(w, ttls, Advance(i)), ttls, steps).store;
            StepCall(s, c, ttls).1.pc == Answered(Hit(w.calls[i].pc.change.rec))
  {
    var w1 := Next(w, ttls, Advance(i));
    assert CallOk(w.store, w.calls[i]);
    InvStep(w, ttls, Advance(i));
    CompletedAnswers(w1, ttls, steps, c.own.key, c);
  }

  // ---------------------------------------------------------------- termination of the claim loop

  /** In every run a claim goes round at most once per disappearance of its key since it started. */
  lemma RoundsBounded(ttls: Ttls, start: Store, steps: seq<Step>, i: nat)
    requires i in Run(World(start, map[]), ttls, steps).calls
    ensures var w := Run(World(start, map[]), ttls, steps);
            var c := w.calls[i];
            c.goneAtStart + c.rounds <= Count(w.store.gone, c.own.key)
  {
    InvAlways(World(start, map[]), ttls, steps);
    var w := Run(World(start, map[]), ttls, steps);
    assert CallOk(w.store, w.calls[i]);
  }

  // ---------------------------------------------------------------- the store object

  /** What other clients and the clock do to the key between two commands of this one. */
  datatype Interference = Vanish | Write(rec: Record)

  function After(cell: Option<Record>, batch: seq<Interference>): Option<Record>
    decreases |batch|
  {
    if batch == [] then cell else After(if batch[0].Vanish? then None else Some(batch[0].rec), batch[1..])
  }

  function Vanishes(batch: seq<Interference>): nat {
    if batch == [] then 0 else (if batch[0].Vanish? then 1 else 0) + Vanishes(batch[1..])
  }

  /** The disappearances of the key still to come. */
  function VanishesLeft(script: seq<seq<Interference>>): nat {
    if script == [] then 0 else Vanishes(script[0]) + VanishesLeft(script[1..])
  }

  /** A key that was there and is gone has disappeared in between. */
  lemma {:induction false} GoneMeansVanished(cell: Option<Record>, batch: seq<Interference>)
    requires cell.Some? && After(cell, batch).None?
    ensures Vanishes(batch) > 0
    decreases |batch|
  {
    if batch[0].Write? { GoneMeansVanished(Some(batch[0].rec), batch[1..]); }
  }

  predicate PendingCell(cell: Option<Record>, fp: string) {
    cell.Some? && cell.value.version == CURRENT_VERSION && cell.value.state == Pending && cell.value.fp == fp
  }

  function Changed(change: Change): Option<Record> {
    match change
    case Commit(rec) => Some(rec)
    case Release => None
  }

  /** The writes after the atomic operation met this content of the key. */
  function AtomicWrite(writes: seq<(Option<Record>, Option<Record>)>, held: Option<Record>, fp: string, change: Change)
    : seq<(Option<Record>, Option<Record>)>
  {
    if PendingCell(held, fp) then writes + [(held, Changed(change))] else writes
  }

  /** One key of the store as one client sees it. writes lists this client's own changes of the key as
      (before, after) pairs, and history what the key held whenever this client looked. */
  class RedisClient {
    var cell: Option<Record>
    var revision: nat
    var script: seq<seq<Interference>>
    ghost var writes: seq<(Option<Record>, Option<Record>)>
    ghost var history: seq<Option<Record>>

    method Await()
      modifies this
      ensures history == old(history) + [cell]
      ensures writes == old(writes) && VanishesLeft(script) <= VanishesLeft(old(script))
      ensures old(cell).Some? && cell.None? ==> VanishesLeft(script) < VanishesLeft(old(script))
      ensures revision >= old(revision) && (revision == old(revision) ==> cell == old(cell))
    {
      if script != [] {
        var batch := script[0];
        if cell.Some? && After(cell, batch).None? { GoneMeansVanished(cell, batch); }
        cell, revision, script := After(cell, batch), revision + |batch|, script[1..];
      }
      history := history + [cell];
    }

    method TryClaimPending(own: Owner) returns (won: bool)
      modifies this
      ensures VanishesLeft(script) <= VanishesLeft(old(script))
      ensures won ==> cell == Some(PendingRecord(own.fp)) && writes == old(writes) + [(None, cell)]
      ensures !won ==> cell.Some? && writes == old(writes)
    {
      Await();
      if cell.Some? { return false; }
      cell, revision := Some(PendingRecord(own.fp)), revision + 1;
      writes := writes + [(None, cell)];
      won := true;
    }

    /** Claim answers from the record it finds, or stores a pending record in an empty key. It returns
        after at most one round per disappearance still to come. */
    method Claim(own: Owner) returns (out: Option<Outcome>)
      modifies this
      ensures out.Some? && out.value.Miss? ==>
                cell == Some(PendingRecord(own.fp)) && writes == old(writes) + [(None, cell)]
      ensures out.Some? && !out.value.Miss? ==>
              cell == Some(out.value.rec) && out.value == AnswerFor(own, out.value.rec)
      ensures !(out.Some? && out.value.Miss?) ==> writes == old(writes)
      ensures out.None? ==> cell.Some? && cell.value.version != CURRENT_VERSION
    {
      var won := TryClaimPending(own);
      if won { return Some(Miss(PendingRecord(own.fp))); }
      out := InspectExisting(own);
    }

    method InspectExisting(own: Owner) returns (out: Option<Outcome>)
      requires cell.Some?
      modifies this
      ensures out.Some? && out.value.Miss? ==>
                cell == Some(PendingRecord(own.fp)) && writes == old(writes) + [(None, cell)]
      ensures out.Some? && !out.value.Miss? ==>
              cell == Some(out.value.rec) && out.value == AnswerFor(own, out.value.rec)
      ensures !(out.Some? && out.value.Miss?) ==> writes == old(writes)
      ensures out.None? ==> cell.Some? && cell.value.version != CURRENT_VERSION
      decreases VanishesLeft(script), 1
    {
      Await();
      if cell.None? {
        out := Reclaim(own);
        return;
      }
      var rec := cell.value;
      if rec.version != CURRENT_VERSION { return None; }
      if rec.fp != own.fp { return Some(Conflict(rec)); }
      if rec.state == Completed { return Some(Hit(rec)); }
      out := Some(InProgress(rec));
    }

    method Reclaim(own: Owner) returns (out: Option<Outcome>)
      modifies this
      ensures out.Some? && out.value.Miss? ==>
                cell == Some(PendingRecord(own.fp)) && writes == old(writes) + [(None, cell)]
      ensures out.Some? && !out.value.Miss? ==>
              cell == Some(out.value.rec) && out.value == AnswerFor(own, out.value.rec)
      ensures !(out.Some? && out.value.Miss?) ==> writes == old(writes)
      ensures out.None? ==> cell.Some? && cell.value.version != CURRENT_VERSION
      decreases VanishesLeft(script), 2
    {
      var won := TryClaimPending(own);
      if !won {
        out := InspectExisting(own);
        return;
      }
      out := Some(Miss(PendingRecord(own.fp)));
    }

    /** Commit and Release behave as one atomic operation: a call that returns nil did to the key, at
        some instant during the call, exactly what the pending test at that instant calls for. A call
        that fails wrote nothing, and saw an unsupported record or lost every race. */
    method CasPending(own: Owner, change: Change) returns (ok: bool)
      modifies this
      ensures ok ==>
                exists k :: |old(history)| <= k < |history| &&
                  writes == AtomicWrite(old(writes), history[k], own.fp, change)
      ensures !ok ==> writes == old(writes)
      ensures !ok ==> revision >= old(revision) + MAX_TRIES || (cell.Some? && cell.value.version != CURRENT_VERSION)
    {
      var tries := 0;
      while tries < MAX_TRIES
        invariant 0 <= tries <= MAX_TRIES && writes == old(writes)
        invariant |history| >= |old(history)| && revision >= old(revision) + tries
      {
        Await();
        ghost var seen := |history| - 1;
        if cell.None? { assert !PendingCell(history[seen], own.fp); return true; }
        if cell.value.version != CURRENT_VERSION { return false; }
        if cell.value.state != Pending || cell.value.fp != own.fp {
          assert !PendingCell(history[seen], own.fp);
          return true;
        }
        var watched := revision;
        Await();
        seen := |history| - 1;
        if revision == watched {
          assert PendingCell(history[seen], own.fp);
          writes := writes + [(cell, Changed(change))];
          cell, revision := Changed(change), revision + 1;
          return true;
        }
        tries := tries + 1;
      }
      ok := false;
    }
  }
}
