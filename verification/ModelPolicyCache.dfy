/**
 The model policy cache and its epoch poller (packages/modelpolicy/cache.go, poller.go). Unlike the
 budget cache, the LRU is not held under the cache's mutex, and an eviction callback deletes the
 generation of an entry that was live. Every section under the mutex, every LRU operation and every
 eviction callback is one atomic step, and they interleave freely. Beside the source's state the
 model counts, for each key, the invalidations and the generations dropped while not zero.
 */
module ModelPolicyCache {
  import opened Prelude

  const MAX_ATTEMPTS := 3

  /** An organization; the source's keys are the organization's text form, one to one. */
  type Org = nat
  const NIL: Org := 0

  datatype Snapshot = Snapshot(epoch: nat, policies: seq<string>)

  /** base is the number of invalidations when the generation was last dropped while not zero. */
  datatype Counts = Counts(invs: nat, drops: nat, base: nat)

  /** An LRU entry; id is its identity, at are the key's counts when the load behind it began. */
  datatype Entry = Entry(id: nat, snap: Snapshot, expiresAt: int, gen: nat, at: Counts)

  datatype Evicted = Evicted(key: Org, entry: Entry)

  datatype Cache = Cache(
    lru: map<Org, Entry>, gens: map<Org, nat>, now: int, nextId: nat, pending: set<Evicted>, counts: map<Org, Counts>)

  function Gen(c: Cache, key: Org): nat {
    if key in c.gens then c.gens[key] else 0
  }

  function CountsOf(c: Cache, key: Org): Counts {
    if key in c.counts then c.counts[key] else Counts(0, 0, 0)
  }

  // ---------------------------------------------------------------- atomic sections

  /** The LRU's Remove: the entry goes, its callback is still to run. */
  function Remove(c: Cache, key: Org): Cache {
    if key !in c.lru then c
    else c.(lru := c.lru - {key}, pending := c.pending + {Evicted(key, c.lru[key])})
  }

  function OnEvict(c: Cache, e: Evicted): Cache {
    var c1 := c.(pending := c.pending - {e});
    if Gen(c, e.key) != e.entry.gen then c1
    else
      var n := CountsOf(c, e.key);
      c1.(gens := c.gens - {e.key},
          counts := if Gen(c, e.key) == 0 then c.counts else c.counts[e.key := Counts(n.invs, n.drops + 1, n.invs)])
  }

  function Bump(c: Cache, key: Org): Cache {
    var n := CountsOf(c, key);
    c.(gens := c.gens[key := (Gen(c, key) + 1) % TWO_64], counts := c.counts[key := n.(invs := n.invs + 1)])
  }

  predicate Servable(c: Cache, key: Org) {
    key in c.lru && c.lru[key].gen == Gen(c, key) && c.now < c.lru[key].expiresAt
  }

  // ---------------------------------------------------------------- calls

  datatype Failure = LoaderFailed | MissingEpoch | BadPattern | InvalidatedDuringLoad

  /** What a load answers; an answer's patterns may fail validation. */
  datatype Answer = NoAnswer | Answer(snap: Snapshot, patternsValid: bool)

  datatype Pc =
    | Looking
    | DroppingStale
    | ReadingGen(attempt: nat)
    | Loading(attempt: nat, gen: nat, at: Counts)
    | Checking(attempt: nat, gen: nat, at: Counts, snap: Snapshot)
    | Adding(attempt: nat, entry: Entry)
    | Rechecking(attempt: nat, entry: Entry)
    | Peeking(attempt: nat, entry: Entry)
    | Undoing(attempt: nat)
    | Returned(snap: Snapshot, at: Counts)
    | Failed(why: Failure)
    | InvalidateRemoving
    | Invalidated

  datatype Call = Call(key: Org, pc: Pc)

  function Retry(attempt: nat): Pc {
    if attempt + 1 < MAX_ATTEMPTS then ReadingGen(attempt + 1) else Failed(InvalidatedDuringLoad)
  }

  function Validated(attempt: nat, gen: nat, at: Counts, answer: Answer): Pc {
    if answer.NoAnswer? then Failed(LoaderFailed)
    else if answer.snap.epoch < 1 then Failed(MissingEpoch)
    else if !answer.patternsValid then Failed(BadPattern)
    else Checking(attempt, gen, at, answer.snap)
  }

  function StepRead(c: Cache, k: Call, ttl: int, answer: Answer): (Cache, Pc) {
    match k.pc
    case Looking =>
      if k.key !in c.lru then (c, ReadingGen(0))
      else if Servable(c, k.key) then (c, Returned(c.lru[k.key].snap, c.lru[k.key].at))
      else (c, DroppingStale)
    case ReadingGen(attempt) => (c, Loading(attempt, Gen(c, k.key), CountsOf(c, k.key)))
    case Loading(attempt, gen, at) => (c, Validated(attempt, gen, at, answer))
    case Checking(attempt, gen, at, snap) =>
      if Gen(c, k.key) != gen then (c, Retry(attempt))
      else (c.(nextId := c.nextId + 1), Adding(attempt, Entry(c.nextId, snap, c.now + ttl, gen, at)))
    case Rechecking(attempt, entry) =>
      if Gen(c, k.key) != entry.gen then (c, Peeking(attempt, entry)) else (c, Returned(entry.snap, entry.at))
    case Peeking(attempt, entry) =>
      if k.key in c.lru && c.lru[k.key].id == entry.id then (c, Undoing(attempt)) else (c, Retry(attempt))
    case _ => (c, k.pc)
  }

  function StepLru(c: Cache, k: Call): (Cache, Pc) {
    match k.pc
    case DroppingStale => (Remove(c, k.key), ReadingGen(0))
    case Adding(attempt, entry) => (c.(lru := c.lru[k.key := entry]), Rechecking(attempt, entry))
    case Undoing(attempt) => (Remove(c, k.key), Retry(attempt))
    case InvalidateRemoving => (Remove(c, k.key), Invalidated)
    case _ => (c, k.pc)
  }

  predicate TouchesLru(pc: Pc) {
    pc.DroppingStale? || pc.Adding? || pc.Undoing? || pc.InvalidateRemoving?
  }

  function StepCall(c: Cache, k: Call, ttl: int, answer: Answer): (Cache, Pc) {
    if TouchesLru(k.pc) then StepLru(c, k) else StepRead(c, k, ttl, answer)
  }

  datatype World = World(cache: Cache, calls: map<nat, Call>)

  datatype Step =
    | Start(call: nat, key: Org)
    | StartInvalidate(call: nat, key: Org)
    | Advance(call: nat, answer: Answer)
    | Evict(key: Org)
    | Callback(evicted: Evicted)
    | Tick(elapsed: nat)

  function Next(w: World, ttl: int, step: Step): World {
    match step
    case Start(i, key) => if i in w.calls then w else w.(calls := w.calls[i := Call(key, Looking)])
    case StartInvalidate(i, key) =>
      if i in w.calls || key == NIL then w
      else World(Bump(w.cache, key), w.calls[i := Call(key, InvalidateRemoving)])
    case Advance(i, answer) =>
      if i !in w.calls then w else
        var (c', pc') := StepCall(w.cache, w.calls[i], ttl, answer);
        World(c', w.calls[i := w.calls[i].(pc := pc')])
    case Evict(key) => w.(cache := Remove(w.cache, key))
    case Callback(e) => if e in w.cache.pending then w.(cache := OnEvict(w.cache, e)) else w
    case Tick(elapsed) => w.(cache := w.cache.(now := w.cache.now + elapsed))
  }

  function Run(w: World, ttl: int, steps: seq<Step>): World
    decreases |steps|
  {
    if steps == [] then w else Run(Next(w, ttl, steps[0]), ttl, steps[1..])
  }

  function Init(now: int): World {
    World(Cache(map[], map[], now, 0, {}, map[]), map[])
  }

  // ---------------------------------------------------------------- invariant

  /** The generation counts the invalidations since it was last dropped. */
  predicate GenOk(gen: nat, n: Counts) {
    n.base <= n.invs && gen == (n.invs - n.base) % TWO_64
  }

  /** How the counts at a load's start relate to the counts now. */
  predicate Since(at: Counts, gen: nat, n: Counts) {
    && GenOk(gen, at) && at.invs <= n.invs && at.drops <= n.drops
    && (at.drops == n.drops ==> at.base == n.base)
    && (at.drops < n.drops ==> at.invs <= n.base && (at.invs == n.base ==> gen != 0))
  }

  predicate EntryOk(c: Cache, key: Org, e: Entry) {
    Since(e.at, e.gen, CountsOf(c, key)) && e.snap.epoch >= 1
  }

  predicate CallOk(c: Cache, k: Call) {
    match k.pc
    case Loading(_, gen, at) => Since(at, gen, CountsOf(c, k.key))
    case Checking(_, gen, at, snap) => Since(at, gen, CountsOf(c, k.key)) && snap.epoch >= 1
    case Adding(_, e) => EntryOk(c, k.key, e)
    case Rechecking(_, e) => EntryOk(c, k.key, e)
    case Peeking(_, e) => EntryOk(c, k.key, e)
    case _ => true
  }

  ghost predicate GensOk(c: Cache) {
    forall key :: GenOk(Gen(c, key), CountsOf(c, key))
  }

  ghost predicate Inv(w: World) {
    && GensOk(w.cache)
    && (forall key :: key in w.cache.lru ==> EntryOk(w.cache, key, w.cache.lru[key]))
    && (forall i :: i in w.calls ==> CallOk(w.cache, w.calls[i]))
  }

  /** Later counts keep every Since. */
  ghost predicate Later(c: Cache, c': Cache) {
    forall key, at, gen :: Since(at, gen, CountsOf(c, key)) ==> Since(at, gen, CountsOf(c', key))
  }

  lemma BumpLater(c: Cache, key: Org)
    requires GensOk(c)
    ensures GensOk(Bump(c, key)) && Later(c, Bump(c, key))
  {
    var n := CountsOf(c, key);
    var c' := Bump(c, key);
    assert GenOk(Gen(c, key), n);
    CounterWraps(n.invs - n.base);
    forall k ensures GenOk(Gen(c', k), CountsOf(c', k)) {
      assert GenOk(Gen(c, k), CountsOf(c, k));
    }
  }

  lemma DropSince(at: Counts, gen: nat, n: Counts, now: nat)
    requires GenOk(now, n) && now != 0 && Since(at, gen, n)
    ensures Since(at, gen, Counts(n.invs, n.drops + 1, n.invs))
  {
  }

  lemma OnEvictLater(c: Cache, e: Evicted)
    requires GensOk(c)
    ensures GensOk(OnEvict(c, e)) && Later(c, OnEvict(c, e))
  {
    var n := CountsOf(c, e.key);
    var c' := OnEvict(c, e);
    assert GenOk(Gen(c, e.key), n);
    forall k ensures GenOk(Gen(c', k), CountsOf(c', k)) {
      assert GenOk(Gen(c, k), CountsOf(c, k));
    }
    forall k, at, gen | Since(at, gen, CountsOf(c, k)) ensures Since(at, gen, CountsOf(c', k)) {
      if CountsOf(c', k) != CountsOf(c, k) { DropSince(at, gen, n, Gen(c, k)); }
    }
  }

  /** A step that only moves the counts on. */
  lemma InvLater(w: World, c': Cache)
    requires Inv(w) && GensOk(c') && Later(w.cache, c')
    requires forall key :: key in c'.lru ==> key in w.cache.lru && c'.lru[key] == w.cache.lru[key]
    ensures Inv(World(c', w.calls))
  {
    forall key | key in c'.lru ensures EntryOk(c', key, c'.lru[key]) {
      assert EntryOk(w.cache, key, w.cache.lru[key]);
    }
    forall i | i in w.calls ensures CallOk(c', w.calls[i]) {
      assert CallOk(w.cache, w.calls[i]);
    }
  }

  lemma SinceNow(n: Counts, gen: nat)
    requires GenOk(gen, n)
    ensures Since(n, gen, n)
  {
  }

  lemma ReadFrame(c: Cache, k: Call, ttl: int, answer: Answer)
    ensures var c' := StepRead(c, k, ttl, answer).0; c'.gens == c.gens && c'.counts == c.counts && c'.lru == c.lru
  {
  }

  lemma ReadGenOk(c: Cache, k: Call, ttl: int, answer: Answer)
    requires k.pc.ReadingGen? && GenOk(Gen(c, k.key), CountsOf(c, k.key))
    ensures CallOk(c, k.(pc := StepRead(c, k, ttl, answer).1))
  {
    SinceNow(CountsOf(c, k.key), Gen(c, k.key));
  }

  lemma ReadOk(c: Cache, k: Call, ttl: int, answer: Answer)
    requires CallOk(c, k) && !k.pc.ReadingGen? && !TouchesLru(k.pc)
    ensures var (c', pc') := StepRead(c, k, ttl, answer); CallOk(c', k.(pc := pc'))
  {
  }

  lemma InvRead(w: World, i: nat, ttl: int, answer: Answer)
    requires Inv(w) && i in w.calls && !TouchesLru(w.calls[i].pc)
    ensures Inv(Next(w, ttl, Advance(i, answer)))
  {
    var k := w.calls[i];
    var (c', pc') := StepRead(w.cache, k, ttl, answer);
    assert CallOk(w.cache, k) && GenOk(Gen(w.cache, k.key), CountsOf(w.cache, k.key));
    if k.pc.ReadingGen? { ReadGenOk(w.cache, k, ttl, answer); } else { ReadOk(w.cache, k, ttl, answer); }
    ReadFrame(w.cache, k, ttl, answer);
    InvSameCounts(w, c', i, k.(pc := pc'));
  }

  lemma InvSameCounts(w: World, c': Cache, i: nat, k': Call)
    requires Inv(w) && c'.gens == w.cache.gens && c'.counts == w.cache.counts && CallOk(c', k')
    requires forall key :: key in c'.lru ==>
            (key in w.cache.lru && c'.lru[key] == w.cache.lru[key]) || EntryOk(c', key, c'.lru[key])
    ensures Inv(World(c', w.calls[i := k']))
  {
    forall key ensures GenOk(Gen(c', key), CountsOf(c', key)) {
      assert GenOk(Gen(w.cache, key), CountsOf(w.cache, key));
    }
    forall key | key in c'.lru ensures EntryOk(c', key, c'.lru[key]) {
      if key in w.cache.lru { assert EntryOk(w.cache, key, w.cache.lru[key]); }
    }
    var calls' := w.calls[i := k'];
    forall j | j in calls' ensures CallOk(c', calls'[j]) {
      if j != i { assert CallOk(w.cache, w.calls[j]); }
    }
  }

  lemma InvLru(w: World, i: nat, ttl: int, answer: Answer)
    requires Inv(w) && i in w.calls && TouchesLru(w.calls[i].pc)
    ensures Inv(Next(w, ttl, Advance(i, answer)))
  {
    var k := w.calls[i];
    var (c', pc') := StepLru(w.cache, k);
    assert CallOk(w.cache, k);
    InvSameCounts(w, c', i, k.(pc := pc'));
  }

  lemma InvStart(w: World, ttl: int, i: nat, key: Org)
    requires Inv(w)
    ensures Inv(Next(w, ttl, Start(i, key))) && Inv(Next(w, ttl, StartInvalidate(i, key)))
  {
    if i !in w.calls {
      InvSameCounts(w, w.cache, i, Call(key, Looking));
      BumpLater(w.cache, key);
      InvLater(w, Bump(w.cache, key));
      InvSameCounts(World(Bump(w.cache, key), w.calls), Bump(w.cache, key), i, Call(key, InvalidateRemoving));
    }
  }

  lemma InvQuiet(w: World, ttl: int, step: Step)
    requires Inv(w) && (step.Evict? || step.Callback? || step.Tick?)
    ensures Inv(Next(w, ttl, step))
  {
    var w' := Next(w, ttl, step);
    if step.Callback? {
      OnEvictLater(w.cache, step.evicted);
    } else {
      forall key ensures GenOk(Gen(w'.cache, key), CountsOf(w'.cache, key)) {
        assert GenOk(Gen(w.cache, key), CountsOf(w.cache, key));
      }
    }
    InvLater(w, w'.cache);
  }

  lemma InvStep(w: World, ttl: int, step: Step)
    requires Inv(w)
    ensures Inv(Next(w, ttl, step))
  {
    match step {
      case Advance(i, answer) =>
        if i in w.calls {
          if TouchesLru(w.calls[i].pc) { InvLru(w, i, ttl, answer); } else { InvRead(w, i, ttl, answer); }
        }
      case Start(i, key) => InvStart(w, ttl, i, key);
      case StartInvalidate(i, key) => InvStart(w, ttl, i, key);
      case _ => InvQuiet(w, ttl, step);
    }
  }

  lemma {:induction false} InvAlways(w: World, ttl: int, steps: seq<Step>)
    requires Inv(w)
    ensures Inv(Run(w, ttl, steps))
    decreases |steps|
  {
    if steps != [] {
      InvStep(w, ttl, steps[0]);
      InvAlways(Next(w, ttl, steps[0]), ttl, steps[1..]);
    }
  }

  // ---------------------------------------------------------------- generation safety, exactly

  /** The counts decide: a load whose generation still matches has been invalidated since it began
      exactly when a generation that was not zero was dropped meanwhile. */
  lemma MatchDecided(at: Counts, gen: nat, n: Counts)
    requires Since(at, gen, n) && GenOk(gen, n)
    ensures at.drops == n.drops ==> (n.invs - at.invs) % TWO_64 == 0
    ensures at.drops < n.drops ==> at.invs < n.invs
  {
    if at.drops == n.drops {
      var p, q := n.invs - n.base, at.invs - at.base;
      assert p - q == TWO_64 * (p / TWO_64 - q / TWO_64);
    }
  }

  /** A snapshot handed out in any run is stale, that is, its key was invalidated after the load behind
      it began, if and only if an eviction callback dropped a nonzero generation of that key in the
      meantime; short of 2^64 invalidations of the key during one load. */
  lemma StaleExactlyWhenDropped(now: int, ttl: int, steps: seq<Step>, i: nat, answer: Answer)
    requires var w := Run(Init(now), ttl, steps);
             i in w.calls && !w.calls[i].pc.Returned? && StepCall(w.cache, w.calls[i], ttl, answer).1.Returned?
    ensures var w := Run(Init(now), ttl, steps);
            var out := StepCall(w.cache, w.calls[i], ttl, answer).1;
            var n := CountsOf(w.cache, w.calls[i].key);
            && out.snap.epoch >= 1 && out.at.invs <= n.invs && out.at.drops <= n.drops
            && (n.invs < out.at.invs + TWO_64 ==> (out.at.invs < n.invs <==> out.at.drops < n.drops))
            && (out.at.drops < n.drops ==> out.at.invs < n.invs)
  {
    InvAlways(Init(now), ttl, steps);
    var w := Run(Init(now), ttl, steps);
    var k := w.calls[i];
    var out := StepCall(w.cache, k, ttl, answer).1;
    var n := CountsOf(w.cache, k.key);
    assert CallOk(w.cache, k) && GenOk(Gen(w.cache, k.key), n);
    if k.pc.Looking? {
      assert EntryOk(w.cache, k.key, w.cache.lru[k.key]);
    }
    MatchDecided(out.at, Gen(w.cache, k.key), n);
    BelowModulus(n.invs - out.at.invs);
  }

  lemma BelowModulus(d: nat)
    ensures d % TWO_64 == 0 && d < TWO_64 ==> d == 0
  {
  }

  /** The call's next step hands out a snapshot whose key was invalidated after its load began. */
  predicate HandsOutStale(w: World, i: nat, ttl: int) {
    && i in w.calls && !w.calls[i].pc.Returned?
    && var out := StepCall(w.cache, w.calls[i], ttl, NoAnswer).1;
       out.Returned? && out.at.invs < CountsOf(w.cache, w.calls[i].key).invs
  }

  ghost predicate Reachable(w: World, now: int, ttl: int) {
    exists steps :: Run(Init(now), ttl, steps) == w
  }

  lemma {:induction false} RunThen(w: World, ttl: int, steps: seq<Step>, step: Step)
    ensures Run(w, ttl, steps + [step]) == Next(Run(w, ttl, steps), ttl, step)
    decreases |steps|
  {
    if steps == [] {
      assert [step][1..] == [];
    } else {
      assert (steps + [step])[1..] == steps[1..] + [step];
      RunThen(Next(w, ttl, steps[0]), ttl, steps[1..], step);
    }
  }

  lemma ReachableNext(w: World, now: int, ttl: int, step: Step, w': World)
    requires Reachable(w, now, ttl) && Next(w, ttl, step) == w'
    ensures Reachable(w', now, ttl)
  {
    var steps :| Run(Init(now), ttl, steps) == w;
    RunThen(Init(now), ttl, steps, step);
    assert Run(Init(now), ttl, steps + [step]) == w';
  }

  const OLD := Snapshot(1, [])
  const NEW := Snapshot(2, [])
  const NONE := Counts(0, 0, 0)
  const ONE := Counts(1, 0, 0)

  /** Call 0 loads, call 1 loads after the invalidation by call 2. */
  function Racing(c: Cache, key: Org, pc0: Pc, pc1: Pc): World {
    World(c, map[0 := Call(key, pc0), 1 := Call(key, pc1), 2 := Call(key, Invalidated)])
  }

  function Bumped(now: int, key: Org, lru: map<Org, Entry>, nextId: nat): Cache {
    Cache(lru, map[key := 1], now, nextId, {}, map[key := ONE])
  }

  lemma ReachableLoading(now: int, ttl: int, key: Org)
    ensures Reachable(World(Init(now).cache, map[0 := Call(key, Checking(0, 0, NONE, OLD))]), now, ttl)
  {
    var c := Init(now).cache;
    assert Run(Init(now), ttl, []) == Init(now);
    ReachableNext(Init(now), now, ttl, Start(0, key), World(c, map[0 := Call(key, Looking)]));
    ReachableNext(World(c, map[0 := Call(key, Looking)]), now, ttl, Advance(0, NoAnswer),
      World(c, map[0 := Call(key, ReadingGen(0))]));
    ReachableNext(World(c, map[0 := Call(key, ReadingGen(0))]), now, ttl, Advance(0, NoAnswer),
      World(c, map[0 := Call(key, Loading(0, 0, NONE))]));
    ReachableNext(World(c, map[0 := Call(key, Loading(0, 0, NONE))]), now, ttl, Advance(0, Answer(OLD, true)),
      World(c, map[0 := Call(key, Checking(0, 0, NONE, OLD))]));
  }

  lemma ReachableInvalidated(now: int, ttl: int, key: Org)
    requires key != NIL
    ensures Reachable(Racing(Bumped(now, key, map[], 0), key, Checking(0, 0, NONE, OLD), Looking), now, ttl)
  {
    var k0 := Call(key, Checking(0, 0, NONE, OLD));
    var w0, c := World(Init(now).cache, map[0 := k0]), Bumped(now, key, map[], 0);
    ReachableLoading(now, ttl, key);
    var w1 := World(c, map[0 := k0, 2 := Call(key, InvalidateRemoving)]);
    ReachableNext(w0, now, ttl, StartInvalidate(2, key), w1);
    var w2 := World(c, map[0 := k0, 2 := Call(key, Invalidated)]);
    ReachableNext(w1, now, ttl, Advance(2, NoAnswer), w2);
    ReachableNext(w2, now, ttl, Start(1, key), Racing(c, key, Checking(0, 0, NONE, OLD), Looking));
  }

  /** One step of call 1 while call 0 waits to install. */
  lemma SecondStep(now: int, ttl: int, key: Org, c: Cache, pc: Pc, answer: Answer, c': Cache, pc': Pc)
    requires Reachable(Racing(c, key, Checking(0, 0, NONE, OLD), pc), now, ttl)
    requires StepCall(c, Call(key, pc), ttl, answer) == (c', pc')
    ensures Reachable(Racing(c', key, Checking(0, 0, NONE, OLD), pc'), now, ttl)
  {
    var w' := Racing(c', key, Checking(0, 0, NONE, OLD), pc');
    ReachableNext(Racing(c, key, Checking(0, 0, NONE, OLD), pc), now, ttl, Advance(1, answer), w');
  }

  lemma ReachableSecondLoad(now: int, ttl: int, key: Org)
    requires key != NIL
    ensures Reachable(Racing(Bumped(now, key, map[], 0), key, Checking(0, 0, NONE, OLD), Checking(0, 1, ONE, NEW)),
                      now, ttl)
  {
    var c := Bumped(now, key, map[], 0);
    ReachableInvalidated(now, ttl, key);
    SecondStep(now, ttl, key, c, Looking, NoAnswer, c, ReadingGen(0));
    SecondStep(now, ttl, key, c, ReadingGen(0), NoAnswer, c, Loading(0, 1, ONE));
    SecondStep(now, ttl, key, c, Loading(0, 1, ONE), Answer(NEW, true), c, Checking(0, 1, ONE, NEW));
  }

  lemma ReachableInstalled(now: int, ttl: int, key: Org)
    requires key != NIL
    ensures var e := Entry(0, NEW, now + ttl, 1, ONE);
            Reachable(Racing(Bumped(now, key, map[key := e], 1), key, Checking(0, 0, NONE, OLD), Returned(NEW, ONE)),
                      now, ttl)
  {
    var e := Entry(0, NEW, now + ttl, 1, ONE);
    var c1, c2 := Bumped(now, key, map[], 1), Bumped(now, key, map[key := e], 1);
    ReachableSecondLoad(now, ttl, key);
    SecondStep(now, ttl, key, Bumped(now, key, map[], 0), Checking(0, 1, ONE, NEW), NoAnswer, c1, Adding(0, e));
    SecondStep(now, ttl, key, c1, Adding(0, e), NoAnswer, c2, Rechecking(0, e));
    SecondStep(now, ttl, key, c2, Rechecking(0, e), NoAnswer, c2, Returned(NEW, ONE));
  }

  /** The generation is gone, and with it the invalidation. */
  function Dropped(now: int, key: Org, lru: map<Org, Entry>, nextId: nat): Cache {
    Cache(lru, map[], now, nextId, {}, map[key := Counts(1, 1, 1)])
  }

  lemma EvictionDrops(now: int, key: Org, e: Entry)
    requires e.gen == 1
    ensures var c := Bumped(now, key, map[key := e], 1);
            OnEvict(Remove(c, key), Evicted(key, e)) == Dropped(now, key, map[], 1) &&
              Evicted(key, e) in Remove(c, key).pending
  {
    var c := Bumped(now, key, map[key := e], 1);
    assert Remove(c, key) == c.(lru := map[], pending := {Evicted(key, e)});
    assert map[key := 1] - {key} == map[] && {Evicted(key, e)} - {Evicted(key, e)} == {};
  }

  lemma ReachableDropped(now: int, ttl: int, key: Org)
    requires key != NIL
    ensures Reachable(Racing(Dropped(now, key, map[], 1), key, Checking(0, 0, NONE, OLD), Returned(NEW, ONE)), now, ttl)
  {
    var e := Entry(0, NEW, now + ttl, 1, ONE);
    var wait, done := Checking(0, 0, NONE, OLD), Returned(NEW, ONE);
    var c := Bumped(now, key, map[key := e], 1);
    ReachableInstalled(now, ttl, key);
    ReachableNext(Racing(c, key, wait, done), now, ttl, Evict(key), Racing(Remove(c, key), key, wait, done));
    EvictionDrops(now, key, e);
    ReachableNext(Racing(Remove(c, key), key, wait, done), now, ttl, Callback(Evicted(key, e)),
      Racing(Dropped(now, key, map[], 1), key, wait, done));
  }

  /** One step of call 0 when call 1 has returned. */
  lemma FirstStep(now: int, ttl: int, key: Org, c: Cache, pc: Pc, c': Cache, pc': Pc)
    requires Reachable(Racing(c, key, pc, Returned(NEW, ONE)), now, ttl)
    requires StepCall(c, Call(key, pc), ttl, NoAnswer) == (c', pc')
    ensures Reachable(Racing(c', key, pc', Returned(NEW, ONE)), now, ttl)
  {
    ReachableNext(Racing(c, key, pc, Returned(NEW, ONE)), now, ttl, Advance(0, NoAnswer),
      Racing(c', key, pc', Returned(NEW, ONE)));
  }

  /** Such a drop happens, for every key and time to live: call 0 loads before an invalidation, call 1
      loads after it and is cached, the cached entry is evicted, which drops the generation, and call 0
      then installs and hands out its old snapshot. */
  lemma StaleHandOutReachable(now: int, ttl: int, key: Org)
    requires key != NIL
    ensures exists w :: Reachable(w, now, ttl) && HandsOutStale(w, 0, ttl)
  {
    var f := Entry(1, OLD, now + ttl, 0, NONE);
    var c1, c2, c3 := Dropped(now, key, map[], 1), Dropped(now, key, map[], 2), Dropped(now, key, map[key := f], 2);
    ReachableDropped(now, ttl, key);
    FirstStep(now, ttl, key, c1, Checking(0, 0, NONE, OLD), c2, Adding(0, f));
    FirstStep(now, ttl, key, c2, Adding(0, f), c3, Rechecking(0, f));
    assert HandsOutStale(Racing(c3, key, Rechecking(0, f), Returned(NEW, ONE)), 0, ttl);
  }

  /** One uninterrupted load returns what the loader answered and leaves it servable for its time to
      live; a missing epoch or an invalid pattern leaves the cache alone. */
  lemma QuietLoadServed(c: Cache, key: Org, ttl: int, answer: Answer, elapsed: nat)
    requires answer.Answer?
    ensures var (c1, p1) := StepCall(c, Call(key, ReadingGen(0)), ttl, NoAnswer);
            var (c2, p2) := StepCall(c1, Call(key, p1), ttl, answer);
            if answer.snap.epoch < 1 || !answer.patternsValid then
              p2.Failed? && c2 == c
            else
              var (c3, p3) := StepCall(c2, Call(key, p2), ttl, NoAnswer);
              var (c4, p4) := StepCall(c3, Call(key, p3), ttl, NoAnswer);
              var (c5, p5) := StepCall(c4, Call(key, p4), ttl, NoAnswer);
              var later := c5.(now := c5.now + elapsed);
              && p5.Returned? && p5.snap == answer.snap
              && (Servable(later, key) <==> elapsed < ttl) && (elapsed < ttl ==> later.lru[key].snap == answer.snap)
  {
  }

  // ---------------------------------------------------------------- the cache object and its poller

  class PolicyCache {
    var c: Cache
    const ttl: int

    constructor (now: int, ttl: int)
      ensures c == Init(now).cache && this.ttl == ttl
    {
      c := Cache(map[], map[], now, 0, {}, map[]);
      this.ttl := ttl;
    }

    method CachedEpoch(org: Org) returns (epoch: Option<nat>)
      ensures epoch == if Servable(c, org) then Some(c.lru[org].snap.epoch) else None
    {
      if org !in c.lru { return None; }
      var entry := c.lru[org];
      if entry.gen != Gen(c, org) { return None; }
      if c.now >= entry.expiresAt { return None; }
      epoch := Some(entry.snap.epoch);
    }

    /** LRU removal and its callback with no other call running. */
    method RemoveEntry(org: Org)
      modifies this
      ensures c == Settle(Remove(old(c), org), org, old(c))
    {
      if org in c.lru {
        var gone := Evicted(org, c.lru[org]);
        c := c.(lru := c.lru - {org}, pending := c.pending + {gone});
        OnLruEvict(gone);
      }
    }

    method OnLruEvict(gone: Evicted)
      modifies this
      ensures c == OnEvict(old(c), gone)
    {
      c := c.(pending := c.pending - {gone});
      var gen, n := Gen(c, gone.key), CountsOf(c, gone.key);
      if gen == gone.entry.gen {
        c := c.(gens := c.gens - {gone.key});
        if gen != 0 { c := c.(counts := c.counts[gone.key := Counts(n.invs, n.drops + 1, n.invs)]); }
      }
    }

    /** Serves the entry if it is current and unexpired, and otherwise takes it out. */
    method LookupFresh(org: Org) returns (snap: Option<Snapshot>)
      modifies this
      ensures snap == if Servable(old(c), org) then Some(old(c).lru[org].snap) else None
      ensures c == if snap.Some? then old(c) else Settle(Remove(old(c), org), org, old(c))
    {
      if org !in c.lru { return None; }
      var entry := c.lru[org];
      if entry.gen != Gen(c, org) || c.now >= entry.expiresAt {
        RemoveEntry(org);
        return None;
      }
      snap := Some(entry.snap);
    }

    /** Installs unless the generation moved; alone, the test after the insert never undoes it. */
    method InstallSnapshot(org: Org, gen: nat, at: Counts, snap: Snapshot) returns (ok: bool)
      modifies this
      ensures ok == (Gen(old(c), org) == gen)
      ensures !ok ==> c == old(c)
      ensures ok ==> (Servable(c, org) <==> ttl > 0)
      ensures ok ==> c.lru == old(c).lru[org := Entry(old(c).nextId, snap, old(c).now + ttl, gen, at)]
      ensures c.gens == old(c).gens && c.counts == old(c).counts && c.now == old(c).now
    {
      if Gen(c, org) != gen { return false; }
      var entry := Entry(c.nextId, snap, c.now + ttl, gen, at);
      c := c.(nextId := c.nextId + 1);
      c := c.(lru := c.lru[org := entry]);
      if Gen(c, org) != gen {
        assert false;
      }
      ok := true;
    }

    /** Invalidate with no other call running: bump, remove, and the callback at once. */
    method Invalidate(org: Org)
      modifies this
      ensures org == NIL ==> c == old(c)
      ensures org != NIL ==> c == Settle(Remove(Bump(old(c), org), org), org, old(c))
    {
      if org == NIL { return; }
      var n := CountsOf(c, org);
      c := c.(gens := c.gens[org := (Gen(c, org) + 1) % TWO_64], counts := c.counts[org := n.(invs := n.invs + 1)]);
      RemoveEntry(org);
    }

    /** One pass of the poller over the cached organizations, with no other call running; load gives
        the store's epoch for an organization, or nothing when the load fails. Afterwards the
        organizations still served are exactly those that were served and whose epoch is the store's
        own, and the nil organization, which Invalidate ignores. */
    method PollOnce(load: Org -> Option<nat>)
      modifies this
      ensures forall org :: Servable(c, org) <==>
                Servable(old(c), org) && (org == NIL || load(org) == Some(old(c).lru[org].snap.epoch))
      ensures forall org :: org in c.lru ==> org in old(c).lru && c.lru[org] == old(c).lru[org]
    {
      ghost var c0 := c;
      var todo := c.lru.Keys;
      while todo != {}
        invariant todo <= c0.lru.Keys && c.now == c0.now
        invariant forall org :: org in c.lru ==> org in c0.lru && c.lru[org] == c0.lru[org]
        invariant forall org :: org in todo ==> org in c.lru && Gen(c, org) == Gen(c0, org)
        invariant forall org :: org !in todo ==> (Servable(c, org) <==> Keeps(c0, org, load))
        decreases todo
      {
        var org :| org in todo;
        todo := todo - {org};
        ghost var before := c;
        var cached := CachedEpoch(org);
        if cached.Some? {
          var answer := load(org);
          if answer.None? {
            Invalidate(org);
          } else if answer.value != cached.value {
            Invalidate(org);
          }
        }
        Reconciled(before, c, org);
        assert Servable(c, org) <==> Keeps(c0, org, load);
      }
    }
  }

  ghost predicate Keeps(c0: Cache, org: Org, load: Org -> Option<nat>) {
    Servable(c0, org) && (org == NIL || load(org) == Some(c0.lru[org].snap.epoch))
  }

  /** The callback of the entry just removed, if there was one. */
  function Settle(c: Cache, org: Org, before: Cache): Cache {
    if org in before.lru then OnEvict(c, Evicted(org, before.lru[org])) else c
  }

  lemma Reconciled(before: Cache, after: Cache, org: Org)
    requires after == before || (org != NIL && after == Settle(Remove(Bump(before, org), org), org, before))
    ensures after.now == before.now
    ensures forall k :: k != org ==> Gen(after, k) == Gen(before, k) && (k in after.lru <==> k in before.lru)
    ensures forall k :: k in after.lru ==> k in before.lru && after.lru[k] == before.lru[k]
    ensures after != before ==> org !in after.lru
  {
  }
}
