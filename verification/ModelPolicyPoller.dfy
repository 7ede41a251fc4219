/**
 The epoch poller (packages/modelpolicy/poller.go) among concurrent loads, evictions and clock ticks: what
 one pass leaves of the snapshots that are older than the store. Generations that an eviction dropped
 are kept apart; StaleExactlyWhenDropped settles those. The configured time to live is positive.
 */
module ModelPolicyPoller {
  import opened Prelude
  import opened ModelPolicyCache

  // ---------------------------------------------------------------- counts over a run

  /** No generation of the key that was not zero has been dropped, and its counter has not wrapped. */
  predicate Undropped(c: Cache, key: Org) {
    CountsOf(c, key).drops == 0 && CountsOf(c, key).invs < TWO_64
  }

  predicate BaseOk(c: Cache, key: Org) {
    CountsOf(c, key).drops == 0 ==> CountsOf(c, key).base == 0
  }

  predicate After(w: World, w': World, key: Org) {
    var n, n' := CountsOf(w.cache, key), CountsOf(w'.cache, key);
    n.invs <= n'.invs && n.drops <= n'.drops && w.cache.now <= w'.cache.now
  }

  lemma AfterStep(w: World, ttl: int, step: Step, key: Org)
    ensures After(w, Next(w, ttl, step), key) && (BaseOk(w.cache, key) ==> BaseOk(Next(w, ttl, step).cache, key))
  {
  }

  lemma {:induction false} AfterRun(w: World, ttl: int, steps: seq<Step>, key: Org)
    ensures After(w, Run(w, ttl, steps), key) && (BaseOk(w.cache, key) ==> BaseOk(Run(w, ttl, steps).cache, key))
    decreases |steps|
  {
    if steps != [] {
      AfterStep(w, ttl, steps[0], key);
      AfterRun(Next(w, ttl, steps[0]), ttl, steps[1..], key);
    }
  }

  /** Then the generation is the number of invalidations, now and when a load began. */
  lemma GenIsCount(gen: nat, n: Counts)
    requires GenOk(gen, n) && n.drops == n.base == 0 && n.invs < TWO_64
    ensures gen == n.invs
  {
  }

  lemma GenThen(at: Counts, gen: nat, n: Counts)
    requires Since(at, gen, n) && n.drops == n.base == 0 && n.invs < TWO_64
    ensures gen == at.invs <= n.invs
  {
  }

  // ---------------------------------------------------------------- one organization's turn in a pass

  /** Call i is loading its organization. */
  predicate UnderWay(w: World, key: Org, i: nat) {
    i in w.calls && w.calls[i].key == key && w.calls[i].pc.Loading?
  }

  /** Load number attempt of call i was under way at w. */
  predicate Began(w: World, key: Org, i: nat, attempt: nat) {
    UnderWay(w, key, i) && w.calls[i].pc.attempt == attempt
  }

  /** A load that begins after w0 answers with the store's epoch, or fails. */
  predicate Truthful(w0: World, w: World, key: Org, epoch: nat, step: Step) {
    step.Advance? && UnderWay(w, key, step.call) && !Began(w0, key, step.call, w.calls[step.call].pc.attempt) ==>
      step.answer.NoAnswer? || step.answer.snap.epoch == epoch
  }

  predicate AllTruthful(w0: World, w: World, ttl: int, key: Org, epoch: nat, steps: seq<Step>)
    decreases |steps|
  {
    steps != [] ==>
      Truthful(w0, w, key, epoch, steps[0]) && AllTruthful(w0, Next(w, ttl, steps[0]), ttl, key, epoch, steps[1..])
  }

  /** The poller reads an epoch that is not the store's. */
  predicate Outdated(c: Cache, key: Org, epoch: nat) {
    Servable(c, key) && c.lru[key].snap.epoch != epoch
  }

  /** The poller read the cached epoch in w0, and by w has invalidated the organization if it was to; the
      nil organization it cannot. */
  predicate Reconciled(w0: World, w: World, key: Org, epoch: nat) {
    key != NIL && Outdated(w0.cache, key, epoch) ==> CountsOf(w.cache, key).invs > CountsOf(w0.cache, key).invs
  }

  /** What may happen from the poller's reading in w0 on, with the store at epoch. */
  predicate Follows(w0: World, ttl: int, key: Org, epoch: nat, steps: seq<Step>) {
    var w := Run(w0, ttl, steps);
    AllTruthful(w0, w0, ttl, key, epoch, steps) && Reconciled(w0, w, key, epoch) && Undropped(w.cache, key)
  }

  /** From the poller's turn on only the store's epoch is served. */
  ghost predicate Settles(w0: World, ttl: int, key: Org, epoch: nat) {
    forall steps :: Follows(w0, ttl, key, epoch, steps) ==> !Outdated(Run(w0, ttl, steps).cache, key, epoch)
  }

  /** Call i will install a snapshot that may be older than the store: its load began in the current
      generation and has not been answered, or was answered with another epoch and is not installed. */
  predicate Installs(w: World, key: Org, i: nat, epoch: nat) {
    && i in w.calls && w.calls[i].key == key
    && match w.calls[i].pc
       case Loading(_, gen, _) => gen == Gen(w.cache, key)
       case Checking(_, gen, _, snap) => gen == Gen(w.cache, key) && snap.epoch != epoch
       case Adding(_, e) => e.gen == Gen(w.cache, key) && e.snap.epoch != epoch && w.cache.now < e.expiresAt
       case _ => false
  }

  /** The poller does not invalidate, and such a call is under way; or it should and cannot. */
  ghost predicate AtRisk(w: World, key: Org, epoch: nat) {
    if Outdated(w.cache, key, epoch) then key == NIL else exists i :: Installs(w, key, i, epoch)
  }

  // ---------------------------------------------------------------- without such a call

  /** Never servable once the key has been invalidated below times and the clock is at least t. */
  predicate Dead(e: Entry, below: nat, t: int) {
    e.gen < below || e.expiresAt <= t
  }

  /** The number the call's next load will have. */
  function NextLoad(pc: Pc): nat {
    match pc
    case ReadingGen(attempt) => attempt
    case Loading(attempt, _, _) => attempt + 1
    case Checking(attempt, _, _, _) => attempt + 1
    case Adding(attempt, _) => attempt + 1
    case Rechecking(attempt, _) => attempt + 1
    case Peeking(attempt, _) => attempt + 1
    case Undoing(attempt) => attempt + 1
    case _ => 0
  }

  /** No load of the call that is still to begin was under way at w0. */
  predicate Ahead(w0: World, key: Org, i: nat, pc: Pc) {
    UnderWay(w0, key, i) && !pc.Returned? && !pc.Failed? && !pc.Invalidated? && !pc.InvalidateRemoving? ==>
      w0.calls[i].pc.attempt < NextLoad(pc)
  }

  predicate CallSafe(w0: World, key: Org, epoch: nat, below: nat, t: int, i: nat, k: Call) {
    k.key == key ==>
      && Ahead(w0, key, i, k.pc)
      && match k.pc
         case Loading(attempt, gen, _) => Began(w0, key, i, attempt) ==> gen < below
         case Checking(_, gen, _, snap) => snap.epoch != epoch ==> gen < below
         case Adding(_, e) => e.snap.epoch != epoch ==> Dead(e, below, t)
         case _ => true
  }

  /** Every snapshot of the key that is not of the store's epoch is dead. */
  ghost predicate Safe(w0: World, w: World, key: Org, epoch: nat, below: nat, t: int) {
    && (key in w.cache.lru && w.cache.lru[key].snap.epoch != epoch ==> Dead(w.cache.lru[key], below, t))
    && (forall i :: UnderWay(w0, key, i) ==> i in w.calls && w.calls[i].key == key)
    && forall i :: i in w.calls ==> CallSafe(w0, key, epoch, below, t, i, w.calls[i])
  }

  lemma SafeAdvance(w0: World, w: World, ttl: int, key: Org, epoch: nat, below: nat, t: int, i: nat, answer: Answer)
    requires Safe(w0, w, key, epoch, below, t) && Truthful(w0, w, key, epoch, Advance(i, answer)) && i in w.calls
    ensures var (c', pc') := StepCall(w.cache, w.calls[i], ttl, answer);
            && CallSafe(w0, key, epoch, below, t, i, w.calls[i].(pc := pc'))
            && (key in c'.lru && c'.lru[key].snap.epoch != epoch ==> Dead(c'.lru[key], below, t))
  {
    assert CallSafe(w0, key, epoch, below, t, i, w.calls[i]);
  }

  lemma SafeStep(w0: World, w: World, ttl: int, key: Org, epoch: nat, below: nat, t: int, step: Step)
    requires Safe(w0, w, key, epoch, below, t) && Truthful(w0, w, key, epoch, step)
    ensures Safe(w0, Next(w, ttl, step), key, epoch, below, t)
  {
    var w' := Next(w, ttl, step);
    if step.Advance? && step.call in w.calls { SafeAdvance(w0, w, ttl, key, epoch, below, t, step.call, step.answer); }
    forall i | i in w'.calls ensures CallSafe(w0, key, epoch, below, t, i, w'.calls[i]) {
      if i in w.calls { assert CallSafe(w0, key, epoch, below, t, i, w.calls[i]); }
    }
  }

  lemma {:induction false} SafeRun(
    w0: World, w: World, ttl: int, key: Org, epoch: nat, below: nat, t: int, steps: seq<Step>)
    requires Safe(w0, w, key, epoch, below, t) && AllTruthful(w0, w, ttl, key, epoch, steps)
    ensures Safe(w0, Run(w, ttl, steps), key, epoch, below, t)
    decreases |steps|
  {
    if steps != [] {
      SafeStep(w0, w, ttl, key, epoch, below, t, steps[0]);
      SafeRun(w0, Next(w, ttl, steps[0]), ttl, key, epoch, below, t, steps[1..]);
    }
  }

  /** What is cached or under way at the poller's reading, in a run so far. */
  ghost predicate Sound(w: World, key: Org) {
    Inv(w) && BaseOk(w.cache, key) && Undropped(w.cache, key)
  }

  lemma EntryThen(w: World, key: Org, e: Entry)
    requires Sound(w, key) && EntryOk(w.cache, key, e)
    ensures e.gen <= Gen(w.cache, key) == CountsOf(w.cache, key).invs
  {
    assert GenOk(Gen(w.cache, key), CountsOf(w.cache, key));
    GenIsCount(Gen(w.cache, key), CountsOf(w.cache, key));
    GenThen(e.at, e.gen, CountsOf(w.cache, key));
  }

  lemma CallThen(w: World, key: Org, i: nat)
    requires Sound(w, key) && i in w.calls && w.calls[i].key == key
    ensures Gen(w.cache, key) == CountsOf(w.cache, key).invs
    ensures match w.calls[i].pc
            case Loading(_, gen, _) => gen <= Gen(w.cache, key)
            case Checking(_, gen, _, _) => gen <= Gen(w.cache, key)
            case Adding(_, e) => e.gen <= Gen(w.cache, key)
            case _ => true
  {
    var n := CountsOf(w.cache, key);
    assert GenOk(Gen(w.cache, key), n) && CallOk(w.cache, w.calls[i]);
    GenIsCount(Gen(w.cache, key), n);
    match w.calls[i].pc {
      case Loading(_, gen, at) => GenThen(at, gen, n);
      case Checking(_, gen, at, _) => GenThen(at, gen, n);
      case Adding(_, e) => GenThen(e.at, e.gen, n);
      case _ =>
    }
  }

  /** How often the key will have been invalidated by the end of its turn. */
  function Below(w: World, key: Org, epoch: nat): nat {
    CountsOf(w.cache, key).invs + if Outdated(w.cache, key, epoch) then 1 else 0
  }

  lemma StartsSafe(w: World, key: Org, epoch: nat)
    requires Sound(w, key) && !AtRisk(w, key, epoch)
    ensures Safe(w, w, key, epoch, Below(w, key, epoch), w.cache.now)
  {
    if key in w.cache.lru { EntryThen(w, key, w.cache.lru[key]); }
    forall i | i in w.calls ensures CallSafe(w, key, epoch, Below(w, key, epoch), w.cache.now, i, w.calls[i]) {
      if w.calls[i].key == key {
        CallThen(w, key, i);
        assert !Outdated(w.cache, key, epoch) ==> !Installs(w, key, i, epoch);
      }
    }
  }

  lemma SafeServes(w0: World, w: World, key: Org, epoch: nat)
    requires Safe(w0, w, key, epoch, Below(w0, key, epoch), w0.cache.now) && Sound(w, key)
    requires After(w0, w, key) && Reconciled(w0, w, key, epoch) && (key == NIL ==> !Outdated(w0.cache, key, epoch))
    ensures !Outdated(w.cache, key, epoch)
  {
    assert GenOk(Gen(w.cache, key), CountsOf(w.cache, key));
    GenIsCount(Gen(w.cache, key), CountsOf(w.cache, key));
  }

  lemma SafeSettles(w0: World, ttl: int, key: Org, epoch: nat, steps: seq<Step>)
    requires Sound(w0, key) && !AtRisk(w0, key, epoch) && Follows(w0, ttl, key, epoch, steps)
    ensures !Outdated(Run(w0, ttl, steps).cache, key, epoch)
  {
    var w := Run(w0, ttl, steps);
    StartsSafe(w0, key, epoch);
    SafeRun(w0, w0, ttl, key, epoch, Below(w0, key, epoch), w0.cache.now, steps);
    AfterRun(w0, ttl, steps, key);
    InvAlways(w0, ttl, steps);
    SafeServes(w0, w, key, epoch);
  }

  // ---------------------------------------------------------------- with such a call

  // ---------------------------------------------------------------- with such a call

  /** From w the steps leave an outdated entry cached, and counts as they were. */
  predicate LeavesOutdated(w0: World, w: World, ttl: int, key: Org, epoch: nat, steps: seq<Step>) {
    var w' := Run(w, ttl, steps);
    && AllTruthful(w0, w, ttl, key, epoch, steps) && Outdated(w'.cache, key, epoch)
    && w'.cache.counts == w.cache.counts
  }

  lemma LeavesThen(w0: World, w: World, ttl: int, key: Org, epoch: nat, step: Step, steps: seq<Step>)
    requires Truthful(w0, w, key, epoch, step) && Next(w, ttl, step).cache.counts == w.cache.counts
    requires LeavesOutdated(w0, Next(w, ttl, step), ttl, key, epoch, steps)
    ensures LeavesOutdated(w0, w, ttl, key, epoch, [step] + steps)
  {
    assert ([step] + steps)[1..] == steps;
  }

  lemma AddingLeaves(w0: World, w: World, ttl: int, key: Org, epoch: nat, i: nat) returns (steps: seq<Step>)
    requires Installs(w, key, i, epoch) && w.calls[i].pc.Adding?
    ensures LeavesOutdated(w0, w, ttl, key, epoch, steps)
  {
    var step := Advance(i, NoAnswer);
    assert Run(Next(w, ttl, step), ttl, []) == Next(w, ttl, step);
    LeavesThen(w0, w, ttl, key, epoch, step, []);
    steps := [step] + [];
  }

  lemma CheckingLeaves(w0: World, w: World, ttl: int, key: Org, epoch: nat, i: nat) returns (steps: seq<Step>)
    requires Installs(w, key, i, epoch) && w.calls[i].pc.Checking? && ttl > 0
    ensures LeavesOutdated(w0, w, ttl, key, epoch, steps)
  {
    var step := Advance(i, NoAnswer);
    var more := AddingLeaves(w0, Next(w, ttl, step), ttl, key, epoch, i);
    LeavesThen(w0, w, ttl, key, epoch, step, more);
    steps := [step] + more;
  }

  lemma LoadingLeaves(w: World, ttl: int, key: Org, epoch: nat, i: nat) returns (steps: seq<Step>)
    requires Installs(w, key, i, epoch) && w.calls[i].pc.Loading? && ttl > 0
    ensures LeavesOutdated(w, w, ttl, key, epoch, steps)
  {
    var step := Advance(i, Answer(Snapshot(epoch + 1, []), true));
    var more := CheckingLeaves(w, Next(w, ttl, step), ttl, key, epoch, i);
    LeavesThen(w, w, ttl, key, epoch, step, more);
    steps := [step] + more;
  }

  lemma RiskLeaves(w: World, ttl: int, key: Org, epoch: nat) returns (steps: seq<Step>)
    requires ttl > 0 && AtRisk(w, key, epoch)
    ensures LeavesOutdated(w, w, ttl, key, epoch, steps) && (Outdated(w.cache, key, epoch) ==> key == NIL)
  {
    if Outdated(w.cache, key, epoch) {
      steps := [];
    } else {
      var i :| Installs(w, key, i, epoch);
      match w.calls[i].pc {
        case Loading(_, _, _) => steps := LoadingLeaves(w, ttl, key, epoch, i);
        case Checking(_, _, _, _) => steps := CheckingLeaves(w, w, ttl, key, epoch, i);
        case Adding(_, _) => steps := AddingLeaves(w, w, ttl, key, epoch, i);
      }
    }
  }

  lemma SoundRun(now: int, ttl: int, before: seq<Step>, key: Org)
    requires Undropped(Run(Init(now), ttl, before).cache, key)
    ensures Sound(Run(Init(now), ttl, before), key)
  {
    InvAlways(Init(now), ttl, before);
    AfterRun(Init(now), ttl, before, key);
  }

  /** The poller reads an organization's cached epoch at the end of any run so far, and acts on it. However
      loads, evictions, callbacks, other invalidations and the clock go on, from then on only the store's
      epoch is served, if and only if the poller invalidates or no load is under way that began in the
      current generation and can still install another epoch; the nil organization it cannot
      invalidate. Loads that begin after the reading answer with the store's epoch or fail. */
  lemma PollSettlesExactly(now: int, ttl: int, before: seq<Step>, key: Org, epoch: nat)
    requires ttl > 0 && Undropped(Run(Init(now), ttl, before).cache, key)
    ensures var w := Run(Init(now), ttl, before);
            Settles(w, ttl, key, epoch) <==> !AtRisk(w, key, epoch)
  {
    var w := Run(Init(now), ttl, before);
    SoundRun(now, ttl, before, key);
    if AtRisk(w, key, epoch) {
      var steps := RiskLeaves(w, ttl, key, epoch);
      assert Follows(w, ttl, key, epoch, steps);
    } else {
      forall steps | Follows(w, ttl, key, epoch, steps) ensures !Outdated(Run(w, ttl, steps).cache, key, epoch) {
        SafeSettles(w, ttl, key, epoch, steps);
      }
    }
  }

  /** Both happen: with one load under way the pass leaves an old snapshot to be served, with none it does
      not. */
  lemma BothReachable(now: int, ttl: int, key: Org)
    ensures exists w :: Reachable(w, now, ttl) && Undropped(w.cache, key) && AtRisk(w, key, NEW.epoch)
    ensures exists w :: Reachable(w, now, ttl) && Undropped(w.cache, key) && !AtRisk(w, key, NEW.epoch)
  {
    ReachableLoading(now, ttl, key);
    var w := World(Init(now).cache, map[0 := Call(key, Checking(0, 0, NONE, OLD))]);
    assert Installs(w, key, 0, NEW.epoch);
    assert Reachable(w, now, ttl) && Undropped(w.cache, key) && AtRisk(w, key, NEW.epoch);
    assert Run(Init(now), ttl, []) == Init(now);
    assert Reachable(Init(now), now, ttl) && Undropped(Init(now).cache, key) && !AtRisk(Init(now), key, NEW.epoch);
  }
}
