/**
 The budget cache of packages/billing/cache.go. Each section under the cache's mutex is one atomic
 step; the load itself runs outside the mutex, so invalidations, evictions, other calls and the clock
 interleave with it. Generations are uint64 and wrap; the true number of invalidations of a key is
 kept beside them.
 */
module BillingCache {
  import opened Prelude

  const MAX_ATTEMPTS := 3

  type Key = string

  /** A snapshot as the loader returned it. */
  datatype Snapshot = Snapshot(hasHardCap: bool, cap: int, spent: int, card: string)

  /** since is the number of invalidations of the key when the load that produced the entry began. */
  datatype Entry = Entry(snap: Snapshot, expiresAt: int, gen: nat, since: nat)

  datatype Load = Load(key: Key, since: nat, snap: Snapshot)

  datatype Cache = Cache(
    lru: map<Key, Entry>, gens: map<Key, nat>, now: int, invalidations: map<Key, nat>, loads: set<Load>)

  function Gen(gens: map<Key, nat>, key: Key): nat {
    if key in gens then gens[key] else 0
  }

  // ---------------------------------------------------------------- sections under the mutex

  function LookupFresh(c: Cache, key: Key): (Cache, Option<Entry>) {
    if key !in c.lru then (c, None)
    else if c.lru[key].gen != Gen(c.gens, key) || c.now >= c.lru[key].expiresAt then (c.(lru := c.lru - {key}), None)
    else (c, Some(c.lru[key]))
  }

  function Install(c: Cache, key: Key, gen: nat, since: nat, snap: Snapshot, ttl: int): (Cache, bool) {
    if Gen(c.gens, key) != gen then (c, false)
    else (c.(lru := c.lru[key := Entry(snap, c.now + ttl, gen, since)]), true)
  }

  function Invalidate(c: Cache, key: Key): Cache {
    c.(gens := c.gens[key := (Gen(c.gens, key) + 1) % TWO_64], lru := c.lru - {key},
       invalidations := c.invalidations[key := Gen(c.invalidations, key) + 1])
  }

  // ---------------------------------------------------------------- calls

  datatype Failure = LoaderFailed | InvalidatedDuringLoad

  datatype Pc =
    | Looking
    | ReadingGen(attempt: nat)
    | Loading(attempt: nat, gen: nat, since: nat)
    | Installing(attempt: nat, gen: nat, since: nat, snap: Snapshot)
    | Returned(snap: Snapshot, since: nat)
    | Failed(why: Failure)

  /** began is the number of invalidations of the key when the call started. */
  datatype Call = Call(key: Key, pc: Pc, began: nat)

  function StepCall(c: Cache, k: Call, ttl: int, loaded: Option<Snapshot>): (Cache, Pc) {
    match k.pc
    case Looking =>
      var (c', hit) := LookupFresh(c, k.key);
      (c', if hit.Some? then Returned(hit.value.snap, hit.value.since) else ReadingGen(0))
    case ReadingGen(attempt) => (c, Loading(attempt, Gen(c.gens, k.key), Gen(c.invalidations, k.key)))
    case Loading(attempt, gen, since) =>
      if loaded.None? then (c, Failed(LoaderFailed))
      else (c.(loads := c.loads + {Load(k.key, since, loaded.value)}), Installing(attempt, gen, since, loaded.value))
    case Installing(attempt, gen, since, snap) =>
      var (c', ok) := Install(c, k.key, gen, since, snap, ttl);
      (c', if ok then Returned(snap, since)
           else if attempt + 1 < MAX_ATTEMPTS then ReadingGen(attempt + 1) else Failed(InvalidatedDuringLoad))
    case _ => (c, k.pc)
  }

  datatype World = World(cache: Cache, calls: map<nat, Call>)

  datatype Step =
    | Start(call: nat, key: Key)
    | Advance(call: nat, loaded: Option<Snapshot>)
    | InvalidateStep(key: Key)
    | Evict(key: Key)
    | Tick(elapsed: nat)

  function Next(w: World, ttl: int, step: Step): World {
    match step
    case Start(i, key) =>
      if i in w.calls then w else w.(calls := w.calls[i := Call(key, Looking, Gen(w.cache.invalidations, key))])
    case Advance(i, loaded) =>
      if i !in w.calls then w else
        var (c', pc') := StepCall(w.cache, w.calls[i], ttl, loaded);
        World(c', w.calls[i := w.calls[i].(pc := pc')])
    case InvalidateStep(key) => w.(cache := Invalidate(w.cache, key))
    case Evict(key) => w.(cache := w.cache.(lru := w.cache.lru - {key}))
    case Tick(elapsed) => w.(cache := w.cache.(now := w.cache.now + elapsed))
  }

  function Run(w: World, ttl: int, steps: seq<Step>): World
    decreases |steps|
  {
    if steps == [] then w else Run(Next(w, ttl, steps[0]), ttl, steps[1..])
  }

  function Init(now: int): World {
    World(Cache(map[], map[], now, map[], {}), map[])
  }

  // ---------------------------------------------------------------- invariant

  predicate EntryOk(c: Cache, key: Key, e: Entry) {
    e.gen == e.since % TWO_64 && e.since <= Gen(c.invalidations, key) && Load(key, e.since, e.snap) in c.loads
  }

  predicate CallOk(c: Cache, k: Call) {
    var n := Gen(c.invalidations, k.key);
    && k.began <= n
    && match k.pc
       case ReadingGen(attempt) => attempt < MAX_ATTEMPTS && k.began + attempt <= n
       case Loading(attempt, gen, since) =>
         attempt < MAX_ATTEMPTS && gen == since % TWO_64 && k.began + attempt <= since <= n
       case Installing(attempt, gen, since, snap) =>
         && attempt < MAX_ATTEMPTS && gen == since % TWO_64 && k.began + attempt <= since <= n
         && Load(k.key, since, snap) in c.loads
       case Failed(why) => why == InvalidatedDuringLoad ==> k.began + MAX_ATTEMPTS <= n
       case _ => true
  }

  ghost predicate Inv(w: World) {
    && (forall key :: Gen(w.cache.gens, key) == Gen(w.cache.invalidations, key) % TWO_64)
    && (forall key :: key in w.cache.lru ==> EntryOk(w.cache, key, w.cache.lru[key]))
    && (forall i :: i in w.calls ==> CallOk(w.cache, w.calls[i]))
  }

  /** Invalidations and loads only accumulate. */
  ghost predicate Later(c: Cache, c': Cache) {
    c.loads <= c'.loads && forall key :: Gen(c.invalidations, key) <= Gen(c'.invalidations, key)
  }

  lemma OkLater(c: Cache, c': Cache, k: Call, key: Key, e: Entry)
    requires Later(c, c')
    ensures CallOk(c, k) ==> CallOk(c', k)
    ensures EntryOk(c, key, e) ==> EntryOk(c', key, e)
  {
  }

  lemma StepCallOk(w: World, i: nat, ttl: int, loaded: Option<Snapshot>)
    requires Inv(w) && i in w.calls
    ensures var (c', pc') := StepCall(w.cache, w.calls[i], ttl, loaded);
            && Later(w.cache, c') && c'.gens == w.cache.gens && c'.invalidations == w.cache.invalidations
            && CallOk(c', w.calls[i].(pc := pc'))
            && forall key :: key in c'.lru ==> EntryOk(c', key, c'.lru[key])
  {
    var k := w.calls[i];
    var (c', pc') := StepCall(w.cache, k, ttl, loaded);
    assert CallOk(w.cache, k);
    if k.pc.Installing? {
      assert Gen(w.cache.gens, k.key) == Gen(w.cache.invalidations, k.key) % TWO_64;
    }
    forall key | key in c'.lru ensures EntryOk(c', key, c'.lru[key]) {
      if key in w.cache.lru && c'.lru[key] == w.cache.lru[key] { OkLater(w.cache, c', k, key, c'.lru[key]); }
    }
  }

  lemma InvAdvance(w: World, i: nat, ttl: int, loaded: Option<Snapshot>)
    requires Inv(w)
    ensures Inv(Next(w, ttl, Advance(i, loaded)))
  {
    if i in w.calls {
      var w' := Next(w, ttl, Advance(i, loaded));
      StepCallOk(w, i, ttl, loaded);
      forall j | j in w'.calls ensures CallOk(w'.cache, w'.calls[j]) {
        if j != i { OkLater(w.cache, w'.cache, w.calls[j], "", Entry(Snapshot(false, 0, 0, ""), 0, 0, 0)); }
      }
      forall key ensures Gen(w'.cache.gens, key) == Gen(w'.cache.invalidations, key) % TWO_64 {
        assert Gen(w.cache.gens, key) == Gen(w.cache.invalidations, key) % TWO_64;
      }
    }
  }

  lemma InvInvalidate(w: World, ttl: int, key: Key)
    requires Inv(w)
    ensures Inv(Next(w, ttl, InvalidateStep(key)))
  {
    var w' := Next(w, ttl, InvalidateStep(key));
    CounterWraps(Gen(w.cache.invalidations, key));
    forall k ensures Gen(w'.cache.gens, k) == Gen(w'.cache.invalidations, k) % TWO_64 {
      assert Gen(w.cache.gens, k) == Gen(w.cache.invalidations, k) % TWO_64;
    }
    assert Later(w.cache, w'.cache);
    forall k | k in w'.cache.lru ensures EntryOk(w'.cache, k, w'.cache.lru[k]) {
      assert EntryOk(w.cache, k, w.cache.lru[k]);
    }
    forall j | j in w'.calls ensures CallOk(w'.cache, w'.calls[j]) {
      OkLater(w.cache, w'.cache, w.calls[j], "", Entry(Snapshot(false, 0, 0, ""), 0, 0, 0));
    }
  }

  lemma InvQuiet(w: World, ttl: int, step: Step)
    requires Inv(w) && !step.Advance? && !step.InvalidateStep?
    ensures Inv(Next(w, ttl, step))
  {
    var w' := Next(w, ttl, step);
    forall k ensures Gen(w'.cache.gens, k) == Gen(w'.cache.invalidations, k) % TWO_64 {
      assert Gen(w.cache.gens, k) == Gen(w.cache.invalidations, k) % TWO_64;
    }
    forall k | k in w'.cache.lru ensures EntryOk(w'.cache, k, w'.cache.lru[k]) {
      assert EntryOk(w.cache, k, w.cache.lru[k]);
    }
    forall j | j in w'.calls ensures CallOk(w'.cache, w'.calls[j]) {
      if j in w.calls { assert CallOk(w.cache, w.calls[j]); }
    }
  }

  lemma {:induction false} InvAlways(w: World, ttl: int, steps: seq<Step>)
    requires Inv(w)
    ensures Inv(Run(w, ttl, steps))
    decreases |steps|
  {
    if steps != [] {
      match steps[0] {
        case Advance(i, loaded) => InvAdvance(w, i, ttl, loaded);
        case InvalidateStep(key) => InvInvalidate(w, ttl, key);
        case _ => InvQuiet(w, ttl, steps[0]);
      }
      InvAlways(Next(w, ttl, steps[0]), ttl, steps[1..]);
    }
  }

  // ---------------------------------------------------------------- generation safety

  /** Every snapshot handed out, from the cache or fresh, in every run, is what some load of that key
      returned; and between the start of that load and the hand-out the key was not invalidated, unless
      2^64 times or a multiple of it. */
  lemma HandedOutFresh(now: int, ttl: int, steps: seq<Step>, i: nat, loaded: Option<Snapshot>)
    requires var w := Run(Init(now), ttl, steps);
             i in w.calls && !w.calls[i].pc.Returned? && StepCall(w.cache, w.calls[i], ttl, loaded).1.Returned?
    ensures var w := Run(Init(now), ttl, steps);
            var out := StepCall(w.cache, w.calls[i], ttl, loaded).1;
            var n := Gen(w.cache.invalidations, w.calls[i].key);
            && Load(w.calls[i].key, out.since, out.snap) in w.cache.loads
            && out.since <= n && (n - out.since) % TWO_64 == 0
            && (n < out.since + TWO_64 ==> n == out.since)
  {
    InvAlways(Init(now), ttl, steps);
    var w := Run(Init(now), ttl, steps);
    var k := w.calls[i];
    var out := StepCall(w.cache, k, ttl, loaded).1;
    var n := Gen(w.cache.invalidations, k.key);
    assert CallOk(w.cache, k) && Gen(w.cache.gens, k.key) == n % TWO_64;
    if k.pc.Looking? { assert EntryOk(w.cache, k.key, w.cache.lru[k.key]); }
    SameRemainder(n, out.since);
  }

  lemma SameRemainder(n: nat, m: nat)
    requires n % TWO_64 == m % TWO_64 && m <= n
    ensures (n - m) % TWO_64 == 0 && (n < m + TWO_64 ==> n == m)
  {
    assert n - m == TWO_64 * (n / TWO_64 - m / TWO_64);
  }

  /** A call gives up only when the key was invalidated at least three times while it ran, and then it
      returns no snapshot. */
  lemma GivesUpOnlyAfterThreeInvalidations(now: int, ttl: int, steps: seq<Step>, i: nat)
    requires var w := Run(Init(now), ttl, steps); i in w.calls && w.calls[i].pc == Failed(InvalidatedDuringLoad)
    ensures var w := Run(Init(now), ttl, steps);
            w.calls[i].began + MAX_ATTEMPTS <= Gen(w.cache.invalidations, w.calls[i].key)
  {
    InvAlways(Init(now), ttl, steps);
    var w := Run(Init(now), ttl, steps);
    assert CallOk(w.cache, w.calls[i]);
  }

  /** An installed snapshot is served for exactly its time to live, and no longer once invalidated. */
  lemma ServedUntilExpiry(c: Cache, key: Key, gen: nat, since: nat, snap: Snapshot, ttl: int, elapsed: nat)
    requires Install(c, key, gen, since, snap, ttl).1
    ensures var c1 := Install(c, key, gen, since, snap, ttl).0;
            var later := c1.(now := c1.now + elapsed);
            && (LookupFresh(later, key).1.Some? <==> elapsed < ttl)
            && (elapsed < ttl ==> LookupFresh(later, key).1.value.snap == snap)
            && LookupFresh(Invalidate(later, key), key).1 == None
            && forall k :: k != key ==> LookupFresh(c1, k).1 == LookupFresh(c, k).1
  {
  }

  // ---------------------------------------------------------------- the cache object

  /** What happens during one load: the loader's answer and the invalidations of the key meanwhile. */
  datatype Attempt = Attempt(loaded: Option<Snapshot>, invalidated: nat)

  function {:tailrecursion false} InvalidateTimes(c: Cache, key: Key, n: nat): Cache {
    if n == 0 then c else Invalidate(InvalidateTimes(c, key, n - 1), key)
  }

  lemma {:induction false} InvalidateTimesGen(c: Cache, key: Key, n: nat)
    requires Gen(c.gens, key) < TWO_64
    ensures Gen(InvalidateTimes(c, key, n).gens, key) == (Gen(c.gens, key) + n) % TWO_64
    ensures Gen(InvalidateTimes(c, key, n).invalidations, key) == Gen(c.invalidations, key) + n
  {
    if n > 0 {
      InvalidateTimesGen(c, key, n - 1);
      CounterWraps(Gen(c.gens, key) + n - 1);
    }
  }

  class BudgetCache {
    var c: Cache
    const ttl: int

    constructor (now: int, ttl: int)
      ensures c == Init(now).cache && this.ttl == ttl
    {
      c := Cache(map[], map[], now, map[], {});
      this.ttl := ttl;
    }

    method Lookup(key: Key) returns (hit: Option<Snapshot>)
      modifies this
      ensures c == LookupFresh(old(c), key).0
      ensures hit == match LookupFresh(old(c), key).1 case None => None case Some(e) => Some(e.snap)
    {
      if key !in c.lru { return None; }
      var entry := c.lru[key];
      if entry.gen != Gen(c.gens, key) {
        c := c.(lru := c.lru - {key});
        return None;
      }
      if c.now >= entry.expiresAt {
        c := c.(lru := c.lru - {key});
        return None;
      }
      hit := Some(entry.snap);
    }

    /** The second generation test, after the insert, never fires: the mutex is still held and an
        eviction does not touch the generations. */
    method InstallSnapshot(key: Key, gen: nat, since: nat, snap: Snapshot) returns (ok: bool)
      modifies this
      ensures (c, ok) == Install(old(c), key, gen, since, snap, ttl)
    {
      if Gen(c.gens, key) != gen { return false; }
      c := c.(lru := c.lru[key := Entry(snap, c.now + ttl, gen, since)]);
      if Gen(c.gens, key) != gen {
        assert false;
      }
      ok := true;
    }

    method InvalidateKey(key: Key, isNil: bool)
      modifies this
      ensures c == if isNil then old(c) else Invalidate(old(c), key)
    {
      if isNil { return; }
      var bumped := (Gen(c.gens, key) + 1) % TWO_64;
      c := c.(gens := c.gens[key := bumped], lru := c.lru - {key},
              invalidations := c.invalidations[key := Gen(c.invalidations, key) + 1]);
    }

    /** The retry loop, given what happens during each of the three loads. It returns the snapshot of
        the first load that was not invalidated, unless an earlier load failed. */
    method LoadAndStore(key: Key, attempts: seq<Attempt>) returns (snap: Option<Snapshot>, why: Failure)
      requires |attempts| == MAX_ATTEMPTS && Gen(c.gens, key) < TWO_64
      modifies this
      ensures snap.Some? <==>
              exists a :: 0 <= a < MAX_ATTEMPTS && attempts[a].loaded.Some? && attempts[a].invalidated % TWO_64 == 0 &&
                forall b :: 0 <= b < a ==> attempts[b].loaded.Some? && attempts[b].invalidated % TWO_64 != 0
      ensures snap.Some? ==>
              exists a :: 0 <= a < MAX_ATTEMPTS && attempts[a].loaded == snap && attempts[a].invalidated % TWO_64 == 0
      ensures snap.Some? ==> key in c.lru && c.lru[key].snap == snap.value && c.lru[key].gen == Gen(c.gens, key)
      ensures snap.None? && why == InvalidatedDuringLoad ==>
                forall a :: 0 <= a < MAX_ATTEMPTS ==> attempts[a].loaded.Some? && attempts[a].invalidated % TWO_64 != 0
    {
      var attempt := 0;
      why := InvalidatedDuringLoad;
      while attempt < MAX_ATTEMPTS
        invariant 0 <= attempt <= MAX_ATTEMPTS && Gen(c.gens, key) < TWO_64 && why == InvalidatedDuringLoad
        invariant forall b :: 0 <= b < attempt ==> attempts[b].loaded.Some? && attempts[b].invalidated % TWO_64 != 0
      {
        var gen, since := Gen(c.gens, key), Gen(c.invalidations, key);
        var here := attempts[attempt];
        InvalidateTimesGen(c, key, here.invalidated);
        c := InvalidateTimes(c, key, here.invalidated);
        WrapsOnlyAtMultiples(gen, here.invalidated);
        if here.loaded.None? { return None, LoaderFailed; }
        var ok := InstallSnapshot(key, gen, since, here.loaded.value);
        if ok {
          assert attempts[attempt].loaded == Some(here.loaded.value);
          return here.loaded, why;
        }
        attempt := attempt + 1;
      }
      snap := None;
    }
  }

  lemma WrapsOnlyAtMultiples(gen: nat, n: nat)
    requires gen < TWO_64
    ensures (gen + n) % TWO_64 == gen <==> n % TWO_64 == 0
  {
    var q, r := n / TWO_64, n % TWO_64;
    assert n == TWO_64 * q + r;
    if gen + r < TWO_64 {
      assert (gen + n) == TWO_64 * q + (gen + r);
      assert (gen + n) % TWO_64 == gen + r;
    } else {
      assert (gen + n) == TWO_64 * (q + 1) + (gen + r - TWO_64);
      assert (gen + n) % TWO_64 == gen + r - TWO_64;
    }
  }
}
