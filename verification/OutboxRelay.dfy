/**
 The evidence outbox relay (packages/evidenceoutbox/relay.go) over the table's claim, mark and recover
 functions. Each SQL function is one atomic step; any number of relays claim, deliver, crash, mark and
 recover in any order. A claim is known by the row and its attempt number.
 */
module OutboxRelay {
  import opened Prelude
  import opened OutboxRow

  const SECOND := 1_000_000

  datatype Status = Pending | InFlight | Delivered | Failed | Poison

  /** failMarks counts the times the row was marked failed. */
  datatype Row = Row(
    content: Content, status: Status, attempts: nat, availableAt: int, claimedAt: Option<int>,
    deliveredAt: Option<int>, failMarks: nat)

  datatype Ticket = Ticket(id: nat, attempts: nat)

  /** An effective mark. */
  datatype Mark = Mark(ticket: Ticket, status: Status)

  /** results holds what each claimant's delivery attempt came to; shown is every row and fence a sink
      was asked about; took is every row a sink accepted. */
  datatype World = World(
    rows: map<nat, Row>, now: int, tickets: set<Ticket>, results: map<Ticket, Outcome>,
    shown: set<(nat, Fence)>, took: set<nat>, marks: seq<Mark>)

  /** fenced says whether the sink can check fences. */
  datatype Config = Config(maxAttempts: nat, limit: nat, fenced: bool, digests: Digests)

  // ---------------------------------------------------------------- SQL

  predicate Claimable(r: Row, now: int) {
    (r.status == Pending || r.status == Failed) && r.availableAt <= now
  }

  function ClaimRow(r: Row, now: int): Row {
    r.(status := InFlight, attempts := r.attempts + 1, claimedAt := Some(now))
  }

  predicate Holds(r: Row, attempts: nat) {
    r.status == InFlight && r.attempts == attempts
  }

  function RecoverRow(r: Row, cutoff: int): Row {
    if r.status == InFlight && r.claimedAt.Some? && r.claimedAt.value < cutoff then r.(status := Pending) else r
  }

  /** Claims the given rows, if every one can be claimed and they fit the limit. */
  function Claim(w: World, ids: set<nat>, limit: nat): World {
    if |ids| > limit || exists i :: i in ids && (i !in w.rows || !Claimable(w.rows[i], w.now)) then w
    else w.(rows := map i | i in w.rows :: if i in ids then ClaimRow(w.rows[i], w.now) else w.rows[i],
            tickets := w.tickets + set i | i in ids :: Ticket(i, w.rows[i].attempts + 1))
  }

  /** The age below which a claim is left alone; thirty seconds when none is given. */
  function RecoveryAge(age: int): int {
    if age <= 0 then 30 * SECOND else age
  }

  function Recover(w: World, age: int): World {
    w.(rows := map i | i in w.rows :: RecoverRow(w.rows[i], w.now - RecoveryAge(age)))
  }

  function MarkedRow(r: Row, status: Status, now: int, delay: int): Row {
    if status == Delivered then r.(status := Delivered, deliveredAt := Some(now))
    else r.(status := status, availableAt := now + delay * SECOND,
            failMarks := if status == Failed then r.failMarks + 1 else r.failMarks)
  }

  /** The mark takes effect only on the row still held by this very claim. */
  function MarkRow(w: World, t: Ticket, status: Status, delay: int): (World, bool) {
    if t.id !in w.rows || !Holds(w.rows[t.id], t.attempts) then (w, false)
    else (w.(rows := w.rows[t.id := MarkedRow(w.rows[t.id], status, w.now, delay)],
      marks := w.marks + [Mark(t, status)]), true)
  }

  // ---------------------------------------------------------------- the relay

  function Min(a: int, b: int): int { if a < b then a else b }

  function Pow2(n: nat): nat { if n == 0 then 1 else 2 * Pow2(n - 1) }

  const MAX_BACKOFF := 60

  function BackoffBase(attempts: nat): nat {
    Min(Pow2(Min(attempts, 6)), MAX_BACKOFF)
  }

  function BackoffHalf(attempts: nat): int {
    var half := BackoffBase(attempts) / 2;
    if half < 1 then 1 else half
  }

  /** jitter is the random draw below the span, or nothing when drawing failed. */
  function Backoff(attempts: nat, jitter: Option<nat>): int {
    if jitter.None? then BackoffHalf(attempts)
    else
      var j := BackoffHalf(attempts) + jitter.value;
      if j < 1 then 1 else if j > MAX_BACKOFF then MAX_BACKOFF else j
  }

  lemma Pow2Small(n: nat)
    requires n <= 6
    ensures 1 <= Pow2(n) <= 64 && (n > 0 ==> Pow2(n) % 2 == 0)
  {
    if n > 0 {
      Pow2Small(n - 1);
      if n == 6 { assert Pow2(3) == 8 && Pow2(5) == 32; }
      if n == 5 { assert Pow2(2) == 4 && Pow2(4) == 16; }
    }
  }

  /** The delay is between one second and a minute, and within [base / 2, base] for the base that doubles
      with each attempt. */
  lemma BackoffBounds(attempts: nat, jitter: Option<nat>)
    requires jitter.Some? ==> jitter.value < BackoffBase(attempts) - BackoffHalf(attempts) + 1
    ensures 1 <= Backoff(attempts, jitter) <= MAX_BACKOFF
    ensures BackoffHalf(attempts) <= Backoff(attempts, jitter) <= BackoffBase(attempts)
    ensures BackoffBase(attempts) <= BackoffBase(attempts + 1) <= 2 * BackoffBase(attempts)
  {
    Pow2Small(Min(attempts, 6));
    Pow2Small(Min(attempts + 1, 6));
  }

  function StatusFor(outcome: Outcome, attempts: nat, maxAttempts: nat): Status {
    match outcome
    case Delivers => Delivered
    case Condemns => Poison
    case Retries => if attempts >= maxAttempts then Poison else Failed
  }

  function DeliverStep(w: World, cfg: Config, t: Ticket, sink: Sink): World {
    if t !in w.tickets || t.id !in w.rows then w
    else
      var (outcome, fence) := Attempt(w.rows[t.id].content, cfg.digests, cfg.fenced, sink);
      w.(results := w.results[t := outcome],
         shown := if fence.Some? then w.shown + {(t.id, fence.value)} else w.shown,
         took := if outcome == Delivers then w.took + {t.id} else w.took)
  }

  function DelayFor(status: Status, attempts: nat, jitter: Option<nat>): int {
    if status == Poison then 1 else Backoff(attempts, jitter)
  }

  function MarkStep(w: World, cfg: Config, t: Ticket, jitter: Option<nat>): (World, bool) {
    if t !in w.results then (w, false)
    else
      var status := StatusFor(w.results[t], t.attempts, cfg.maxAttempts);
      MarkRow(w, t, status, DelayFor(status, t.attempts, jitter))
  }

  datatype Step =
    | Enqueue(content: Content)
    | ClaimS(ids: set<nat>)
    | Deliver(ticket: Ticket, sink: Sink)
    | MarkS(ticket: Ticket, jitter: Option<nat>)
    | RecoverS(age: int)
    | Tick(elapsed: nat)

  function Next(w: World, cfg: Config, step: Step): World {
    match step
    case Enqueue(c) =>
      if c.id in w.rows then w
      else w.(rows := w.rows[c.id := Row(c, Pending, 0, w.now, None, None, 0)])
    case ClaimS(ids) => Claim(w, ids, cfg.limit)
    case Deliver(t, sink) => DeliverStep(w, cfg, t, sink)
    case MarkS(t, jitter) => MarkStep(w, cfg, t, jitter).0
    case RecoverS(age) => Recover(w, age)
    case Tick(elapsed) => w.(now := w.now + elapsed)
  }

  function Run(w: World, cfg: Config, steps: seq<Step>): World
    decreases |steps|
  {
    if steps == [] then w else Run(Next(w, cfg, steps[0]), cfg, steps[1..])
  }

  function Init(now: int): World {
    World(map[], now, {}, map[], {}, {}, [])
  }

  // ---------------------------------------------------------------- how one row moves

  predicate Terminal(r: Row) {
    r.status == Delivered || r.status == Poison
  }

  /** What any step may do to a row: a delivered or poisoned row is left alone, and a row in flight
      changes only by its own claim or by recovery. */
  predicate Moves(r: Row, r': Row) {
    && r'.content == r.content && r.attempts <= r'.attempts
    && (Terminal(r) ==> r' == r)
    && (r.attempts == r'.attempts && r.status != InFlight ==> r'.status != InFlight)
  }

  lemma StepMoves(w: World, cfg: Config, step: Step, i: nat)
    requires i in w.rows
    ensures i in Next(w, cfg, step).rows && Moves(w.rows[i], Next(w, cfg, step).rows[i])
  {
  }

  /** Delivered and poisoned rows are never touched again, attempts never fall, and no row is lost. */
  lemma {:induction false} RowForever(w: World, cfg: Config, steps: seq<Step>, i: nat)
    requires i in w.rows
    ensures i in Run(w, cfg, steps).rows && Moves(w.rows[i], Run(w, cfg, steps).rows[i])
    decreases |steps|
  {
    if steps != [] {
      StepMoves(w, cfg, steps[0], i);
      RowForever(Next(w, cfg, steps[0]), cfg, steps[1..], i);
    }
  }

  /** A claim that no longer holds its row, because it was settled, recovered or reclaimed, can never
      mark it again. */
  lemma LostClaimForever(w: World, cfg: Config, steps: seq<Step>, t: Ticket, status: Status, delay: int)
    requires t.id in w.rows && t.attempts <= w.rows[t.id].attempts && !Holds(w.rows[t.id], t.attempts)
    ensures var w' := Run(w, cfg, steps); MarkRow(w', t, status, delay) == (w', false)
  {
    RowForever(w, cfg, steps, t.id);
  }

  // ---------------------------------------------------------------- invariant

  predicate RowOk(w: World, cfg: Config, i: nat, r: Row) {
    && r.content.id == i
    && (r.status == InFlight ==> r.claimedAt.Some? && r.attempts >= 1 && r.failMarks < r.attempts)
    && r.failMarks <= r.attempts
    && (r.failMarks > 0 ==> r.failMarks < cfg.maxAttempts)
    && (r.status == Delivered ==> i in w.took)
  }

  predicate ResultOk(w: World, t: Ticket) {
    && t.id in w.rows && t.attempts <= w.rows[t.id].attempts
    && (t in w.results && w.results[t] == Delivers ==> t.id in w.took)
  }

  ghost predicate Inv(w: World, cfg: Config) {
    && (forall i :: i in w.rows ==> RowOk(w, cfg, i, w.rows[i]))
    && (forall t :: t in w.tickets ==> ResultOk(w, t))
    && (forall t :: t in w.results ==> t in w.tickets)
    && (forall s :: s in w.shown ==>
          s.0 in w.rows && Validate(w.rows[s.0].content, cfg.digests) == Valid(s.1) && cfg.fenced)
  }

  /** Tables and logs only grow, and rows move as Moves allows. */
  ghost predicate Grows(w: World, w': World) {
    && w.took <= w'.took
    && (forall i :: i in w.rows ==> i in w'.rows && Moves(w.rows[i], w'.rows[i]))
  }

  lemma ResultsKept(w: World, cfg: Config, w': World)
    requires Inv(w, cfg) && Grows(w, w') && w'.tickets == w.tickets && w'.results == w.results && w'.shown == w.shown
    requires forall i :: i in w'.rows ==> RowOk(w', cfg, i, w'.rows[i])
    ensures Inv(w', cfg)
  {
    forall t | t in w'.tickets ensures ResultOk(w', t) { assert ResultOk(w, t); }
  }

  lemma InvEnqueue(w: World, cfg: Config, c: Content)
    requires Inv(w, cfg)
    ensures Inv(Next(w, cfg, Enqueue(c)), cfg)
  {
    var w' := Next(w, cfg, Enqueue(c));
    if w' == w { return; }
    forall i | i in w'.rows ensures RowOk(w', cfg, i, w'.rows[i]) {
      if i in w.rows { assert RowOk(w, cfg, i, w.rows[i]); }
    }
    assert forall i :: i in w.rows ==> w'.rows[i] == w.rows[i];
    ResultsKept(w, cfg, w');
  }

  lemma InvRecover(w: World, cfg: Config, age: int)
    requires Inv(w, cfg)
    ensures Inv(Recover(w, age), cfg)
  {
    var w' := Recover(w, age);
    forall i | i in w'.rows ensures RowOk(w', cfg, i, w'.rows[i]) && Moves(w.rows[i], w'.rows[i]) {
      assert RowOk(w, cfg, i, w.rows[i]);
      assert w'.rows[i] == w.rows[i] || w'.rows[i] == w.rows[i].(status := Pending);
    }
    ResultsKept(w, cfg, w');
  }

  lemma InvClaim(w: World, cfg: Config, ids: set<nat>)
    requires Inv(w, cfg)
    ensures Inv(Claim(w, ids, cfg.limit), cfg)
  {
    var w' := Claim(w, ids, cfg.limit);
    forall i | i in w'.rows ensures RowOk(w', cfg, i, w'.rows[i]) { assert RowOk(w, cfg, i, w.rows[i]); }
    forall t | t in w'.tickets ensures ResultOk(w', t) {
      if t in w.tickets { assert ResultOk(w, t); }
    }
  }

  lemma InvDeliver(w: World, cfg: Config, t: Ticket, sink: Sink)
    requires Inv(w, cfg)
    ensures Inv(DeliverStep(w, cfg, t, sink), cfg)
  {
    var w' := DeliverStep(w, cfg, t, sink);
    forall i | i in w'.rows ensures RowOk(w', cfg, i, w'.rows[i]) { assert RowOk(w, cfg, i, w.rows[i]); }
    forall u | u in w'.tickets ensures ResultOk(w', u) { assert ResultOk(w, u); }
    if t in w.tickets {
      assert ResultOk(w, t);
      NeverShownUnlessClassifiedAndFenced(w.rows[t.id].content, cfg.digests, cfg.fenced, sink);
    }
  }

  lemma InvMark(w: World, cfg: Config, t: Ticket, jitter: Option<nat>)
    requires Inv(w, cfg)
    ensures Inv(MarkStep(w, cfg, t, jitter).0, cfg)
  {
    if t in w.results && t.id in w.rows && Holds(w.rows[t.id], t.attempts) {
      assert t in w.tickets && ResultOk(w, t) && RowOk(w, cfg, t.id, w.rows[t.id]);
      var status := StatusFor(w.results[t], t.attempts, cfg.maxAttempts);
      MarkedOk(w, cfg, t, status, DelayFor(status, t.attempts, jitter));
    }
  }

  lemma MarkedOk(w: World, cfg: Config, t: Ticket, status: Status, delay: int)
    requires Inv(w, cfg) && t.id in w.rows && Holds(w.rows[t.id], t.attempts) && Settled(status)
    requires (status == Delivered ==> t.id in w.took) && (status == Failed ==> t.attempts < cfg.maxAttempts)
    ensures Inv(MarkRow(w, t, status, delay).0, cfg)
  {
    var w' := MarkRow(w, t, status, delay).0;
    forall i | i in w'.rows ensures RowOk(w', cfg, i, w'.rows[i]) && Moves(w.rows[i], w'.rows[i]) {
      assert RowOk(w, cfg, i, w.rows[i]);
    }
    ResultsKept(w, cfg, w');
  }

  lemma InvStep(w: World, cfg: Config, step: Step)
    requires Inv(w, cfg)
    ensures Inv(Next(w, cfg, step), cfg)
  {
    match step {
      case Enqueue(c) => InvEnqueue(w, cfg, c);
      case ClaimS(ids) => InvClaim(w, cfg, ids);
      case Deliver(t, sink) => InvDeliver(w, cfg, t, sink);
      case MarkS(t, jitter) => InvMark(w, cfg, t, jitter);
      case RecoverS(age) => InvRecover(w, cfg, age);
      case Tick(elapsed) =>
        var w' := Next(w, cfg, step);
        forall i | i in w'.rows ensures RowOk(w', cfg, i, w'.rows[i]) { assert RowOk(w, cfg, i, w.rows[i]); }
        ResultsKept(w, cfg, w');
    }
  }

  lemma {:induction false} InvAlways(w: World, cfg: Config, steps: seq<Step>)
    requires Inv(w, cfg)
    ensures Inv(Run(w, cfg, steps), cfg)
    decreases |steps|
  {
    if steps != [] {
      InvStep(w, cfg, steps[0]);
      InvAlways(Next(w, cfg, steps[0]), cfg, steps[1..]);
    }
  }

  // ---------------------------------------------------------------- what every run guarantees

  /** In every run a row marked delivered was accepted by a sink; a row is marked failed fewer than
      maxAttempts times; and a sink was only ever shown rows that are classified as metadata, carry that
      valid fence and match their digest. */
  lemma DeliveryIsSound(now: int, cfg: Config, steps: seq<Step>, i: nat)
    requires cfg.maxAttempts >= 1 && i in Run(Init(now), cfg, steps).rows
    ensures var w := Run(Init(now), cfg, steps);
            && (w.rows[i].status == Delivered ==> i in w.took)
            && w.rows[i].failMarks <= cfg.maxAttempts - 1 && w.rows[i].failMarks <= w.rows[i].attempts
            && (forall f :: (i, f) in w.shown ==>
                  && cfg.fenced && ParseMetadata(w.rows[i].content.payload) == (METADATA, Some(f)) && FenceValid(f)
                  && DigestValid(w.rows[i].content, cfg.digests))
  {
    InvAlways(Init(now), cfg, steps);
    var w := Run(Init(now), cfg, steps);
    assert RowOk(w, cfg, i, w.rows[i]);
    forall f | (i, f) in w.shown
      ensures cfg.fenced && ParseMetadata(w.rows[i].content.payload) == (METADATA, Some(f)) && FenceValid(f) &&
              DigestValid(w.rows[i].content, cfg.digests)
    {
      NeverShownUnlessClassifiedAndFenced(w.rows[i].content, cfg.digests, cfg.fenced, Accepts);
    }
  }

  /** Waiting, recovering and claiming row i makes its next claim. */
  predicate ClaimedAfter(w: World, cfg: Config, i: nat, age: int, wait: nat) {
    var w' := Next(Next(Next(w, cfg, Tick(wait)), cfg, RecoverS(age)), cfg, ClaimS({i}));
    i in w.rows && i in w'.rows && Holds(w'.rows[i], w.rows[i].attempts + 1)
  }

  /** No row is stranded: in every reachable state, a row that is not terminal can still be claimed,
      once its retry time has come and a crashed claim has aged past the recovery age. */
  lemma NeverStranded(now: int, cfg: Config, steps: seq<Step>, i: nat, age: int)
    requires cfg.limit >= 1 && i in Run(Init(now), cfg, steps).rows
    requires !Terminal(Run(Init(now), cfg, steps).rows[i])
    ensures exists wait: nat :: ClaimedAfter(Run(Init(now), cfg, steps), cfg, i, age, wait)
  {
    InvAlways(Init(now), cfg, steps);
    var w := Run(Init(now), cfg, steps);
    var r := w.rows[i];
    assert RowOk(w, cfg, i, r);
    var due := r.availableAt - w.now;
    var aged := if r.claimedAt.Some? then r.claimedAt.value + RecoveryAge(age) + 1 - w.now else 0;
    var wait: nat := (if due > 0 then due else 0) + (if aged > 0 then aged else 0);
    WaitedEnough(w, cfg, i, age, wait);
  }

  lemma WaitedEnough(w: World, cfg: Config, i: nat, age: int, wait: nat)
    requires cfg.limit >= 1 && i in w.rows && !Terminal(w.rows[i]) && w.rows[i].availableAt <= w.now + wait
    requires w.rows[i].status == InFlight ==>
               w.rows[i].claimedAt.Some? && w.rows[i].claimedAt.value + RecoveryAge(age) < w.now + wait
    ensures ClaimedAfter(w, cfg, i, age, wait)
  {
    var w2 := Recover(Next(w, cfg, Tick(wait)), age);
    assert Claimable(w2.rows[i], w2.now);
  }

  /** The claim on row t.id was made at the given time and still holds. */
  predicate HeldSince(w: World, t: Ticket, at: int) {
    t.id in w.rows && Holds(w.rows[t.id], t.attempts) && w.rows[t.id].claimedAt == Some(at)
  }

  /** Not the claim's own mark, and no recovery below the given age. */
  predicate Patient(step: Step, t: Ticket, age: int) {
    (step.MarkS? ==> step.ticket != t) && (step.RecoverS? ==> RecoveryAge(step.age) >= age)
  }

  lemma HeldStep(w: World, cfg: Config, step: Step, t: Ticket, at: int, age: int)
    requires HeldSince(w, t, at) && Patient(step, t, age) && w.now <= at + age
    ensures HeldSince(Next(w, cfg, step), t, at)
  {
  }

  lemma {:induction false} ClockAdvances(w: World, cfg: Config, steps: seq<Step>)
    ensures w.now <= Run(w, cfg, steps).now
    decreases |steps|
  {
    if steps != [] { ClockAdvances(Next(w, cfg, steps[0]), cfg, steps[1..]); }
  }

  /** A claim is its relay's own until it marks the row or the claim is older than every recovery age:
      whatever other relays do meanwhile, the row stays in flight for it and its mark will take effect. */
  lemma {:induction false} ClaimHeldUntilAged(w: World, cfg: Config, steps: seq<Step>, t: Ticket, at: int, age: int)
    requires HeldSince(w, t, at) && (forall i :: 0 <= i < |steps| ==> Patient(steps[i], t, age))
    requires Run(w, cfg, steps).now <= at + age
    ensures HeldSince(Run(w, cfg, steps), t, at)
    ensures forall status, delay :: MarkRow(Run(w, cfg, steps), t, status, delay).1
    decreases |steps|
  {
    if steps != [] {
      ClockAdvances(w, cfg, steps);
      HeldStep(w, cfg, steps[0], t, at, age);
      ClaimHeldUntilAged(Next(w, cfg, steps[0]), cfg, steps[1..], t, at, age);
    }
  }

  /** A failed row is not claimed again before its backoff is over. */
  lemma RetryWaits(w: World, cfg: Config, t: Ticket, jitter: Option<nat>, ids: set<nat>, elapsed: nat)
    requires MarkStep(w, cfg, t, jitter).1 && MarkStep(w, cfg, t, jitter).0.rows[t.id].status == Failed
    requires elapsed < Backoff(t.attempts, jitter) * SECOND
    ensures var w1 := MarkStep(w, cfg, t, jitter).0;
            var w2 := Next(w1, cfg, Tick(elapsed));
            t.id in w2.rows && (t.id in ids ==> Claim(w2, ids, cfg.limit) == w2)
  {
  }

  // ---------------------------------------------------------------- one batch

  datatype Result = Result(claimed: nat, delivered: nat, failed: nat, poisoned: nat)

  function CountOf(marks: seq<Mark>, status: Status): nat {
    if marks == [] then 0 else (if marks[0].status == status then 1 else 0) + CountOf(marks[1..], status)
  }

  lemma {:induction false} CountSnoc(marks: seq<Mark>, m: Mark, status: Status)
    ensures CountOf(marks + [m], status) == CountOf(marks, status) + if m.status == status then 1 else 0
  {
    if marks == [] {
      assert marks + [m] == [m] && [m][1..] == [];
    } else {
      assert (marks + [m])[0] == marks[0] && (marks + [m])[1..] == marks[1..] + [m];
      CountSnoc(marks[1..], m, status);
    }
  }

  lemma {:induction false} MarksGrow(w: World, cfg: Config, steps: seq<Step>)
    ensures w.marks <= Run(w, cfg, steps).marks
    decreases |steps|
  {
    if steps != [] { MarksGrow(Next(w, cfg, steps[0]), cfg, steps[1..]); }
  }

  predicate Settled(status: Status) {
    status == Delivered || status == Failed || status == Poison
  }

  /** own are this relay's effective marks, one for each of the first claims, and r counts them. */
  predicate Tally(r: Result, own: seq<Mark>, claimed: seq<Ticket>, marks: seq<Mark>) {
    && |own| <= |claimed| && r.claimed == |claimed| && r.delivered + r.failed + r.poisoned == |own|
    && (forall j :: 0 <= j < |own| ==> own[j] in marks && own[j].ticket == claimed[j] && Settled(own[j].status))
    && r.delivered == CountOf(own, Delivered) && r.failed == CountOf(own, Failed) && r.poisoned == CountOf(own, Poison)
  }

  function Counted(r: Result, status: Status): Result {
    if status == Delivered then r.(delivered := r.delivered + 1)
    else if status == Poison then r.(poisoned := r.poisoned + 1)
    else r.(failed := r.failed + 1)
  }

  lemma TallySnoc(r: Result, own: seq<Mark>, claimed: seq<Ticket>, marks: seq<Mark>, marks': seq<Mark>, status: Status)
    requires Tally(r, own, claimed, marks) && marks <= marks' && Settled(status)
    ensures Tally(r, own, claimed, marks')
    ensures |own| < |claimed| && Mark(claimed[|own|], status) in marks' ==>
              Tally(Counted(r, status), own + [Mark(claimed[|own|], status)], claimed, marks')
  {
    if |own| < |claimed| {
      var m := Mark(claimed[|own|], status);
      CountSnoc(own, m, Delivered);
      CountSnoc(own, m, Failed);
      CountSnoc(own, m, Poison);
    }
  }

  /** What the claim query may return: different claimable rows within the limit. */
  predicate Pickable(w: World, picked: seq<nat>, limit: nat) {
    && |picked| <= limit && (forall i, j :: 0 <= i < j < |picked| ==> picked[i] != picked[j])
    && forall i :: i in picked ==> i in w.rows && Claimable(w.rows[i], w.now)
  }

  function Listed(picked: seq<nat>): set<nat> {
    set i | i in picked
  }

  lemma {:induction false} ListedSmall(picked: seq<nat>)
    ensures |Listed(picked)| <= |picked|
  {
    if picked != [] {
      ListedSmall(picked[1..]);
      assert Listed(picked) == {picked[0]} + Listed(picked[1..]);
    }
  }

  /** The claim took row i one attempt up, and the ticket holds it. */
  predicate TookRow(before: World, after: World, i: nat, t: Ticket) {
    && i in before.rows && Claimable(before.rows[i], before.now) && t == Ticket(i, before.rows[i].attempts + 1)
    && t in after.tickets && HeldSince(after, t, before.now)
  }

  class Relay {
    var w: World
    const cfg: Config

    constructor (w: World, cfg: Config)
      ensures this.w == w && this.cfg == cfg
    {
      this.w := w;
      this.cfg := cfg;
    }

    /** Delivers and marks one claimed row; meanwhile is what other relays do between delivery and mark. */
    method DeliverOne(t: Ticket, sink: Sink, jitter: Option<nat>, meanwhile: seq<Step>, r: Result)
      returns (r': Result, ok: bool, status: Status)
      requires Inv(w, cfg) && t in w.tickets
      modifies this
      ensures Inv(w, cfg) && old(w).tickets <= w.tickets
      ensures w == MarkStep(Run(DeliverStep(old(w), cfg, t, sink), cfg, meanwhile), cfg, t, jitter).0
      ensures ok == MarkStep(Run(DeliverStep(old(w), cfg, t, sink), cfg, meanwhile), cfg, t, jitter).1
      ensures old(w).marks <= w.marks && (ok ==> Mark(t, status) in w.marks && Settled(status))
      ensures r' == if ok then Counted(r, status) else r
    {
      InvDeliver(w, cfg, t, sink);
      w := DeliverStep(w, cfg, t, sink);
      InvAlways(w, cfg, meanwhile);
      MarksGrow(w, cfg, meanwhile);
      TicketsGrow(w, cfg, meanwhile);
      w := Run(w, cfg, meanwhile);
      r', ok, status := MarkOutcome(t, jitter, r);
    }

    /** Marks the row as the attempt came out, and counts it when the mark took effect. */
    method MarkOutcome(t: Ticket, jitter: Option<nat>, r: Result) returns (r': Result, ok: bool, status: Status)
      requires Inv(w, cfg)
      modifies this
      ensures (w, ok) == MarkStep(old(w), cfg, t, jitter)
      ensures Inv(w, cfg) && w.tickets == old(w).tickets
      ensures old(w).marks <= w.marks && (ok ==> Mark(t, status) in w.marks && Settled(status))
      ensures r' == if ok then Counted(r, status) else r
    {
      InvMark(w, cfg, t, jitter);
      r', ok, status := r, false, Pending;
      if t in w.results {
        status := StatusFor(w.results[t], t.attempts, cfg.maxAttempts);
        var step := MarkRow(w, t, status, DelayFor(status, t.attempts, jitter));
        w, ok := step.0, step.1;
        if ok {
          if status == Delivered { r' := r.(delivered := r.delivered + 1); }
          else if status == Poison { r' := r.(poisoned := r.poisoned + 1); }
          else { r' := r.(failed := r.failed + 1); }
        }
      }
    }

    /** Claims the rows that the database picked and returns their claims in the order picked. */
    method ClaimBatch(picked: seq<nat>) returns (claimed: seq<Ticket>)
      requires Inv(w, cfg) && Pickable(w, picked, cfg.limit)
      modifies this
      ensures Inv(w, cfg) && w == Claim(old(w), Listed(picked), cfg.limit)
      ensures |claimed| == |picked| && forall j :: 0 <= j < |claimed| ==> TookRow(old(w), w, picked[j], claimed[j])
    {
      InvClaim(w, cfg, Listed(picked));
      ListedSmall(picked);
      claimed := [];
      for i := 0 to |picked|
        invariant |claimed| == i && w == old(w)
        invariant forall j :: 0 <= j < i ==> claimed[j] == Ticket(picked[j], w.rows[picked[j]].attempts + 1)
      {
        assert picked[i] in picked;
        claimed := claimed + [Ticket(picked[i], w.rows[picked[i]].attempts + 1)];
      }
      w := Claim(w, Listed(picked), cfg.limit);
      forall j | 0 <= j < |claimed| ensures TookRow(old(w), w, picked[j], claimed[j]) { assert picked[j] in picked; }
    }

    /** Claims up to the limit of rows and processes them in order until a mark is refused. Every row
        counted was claimed here and really marked so, by this claim; and unless a mark was refused,
        claimed is delivered plus failed plus poisoned. others is what other relays do during each row. */
    method ProcessBatch(picked: seq<nat>, sinks: Ticket -> Sink, jitters: Ticket -> Option<nat>,
      others: Ticket -> seq<Step>)
      returns (r: Result, ok: bool, own: seq<Mark>, claimed: seq<Ticket>)
      requires Inv(w, cfg) && Pickable(w, picked, cfg.limit)
      modifies this
      ensures Inv(w, cfg) && |claimed| == |picked|
      ensures forall j :: 0 <= j < |claimed| ==>
                TookRow(old(w), Claim(old(w), Listed(picked), cfg.limit), picked[j], claimed[j])
      ensures Tally(r, own, claimed, w.marks) && (ok <==> |own| == |claimed|)
      ensures ok ==> r.claimed == r.delivered + r.failed + r.poisoned
    {
      claimed := ClaimBatch(picked);
      forall t | t in claimed ensures t in w.tickets {
        var j :| 0 <= j < |claimed| && claimed[j] == t;
        assert TookRow(old(w), w, picked[j], claimed[j]);
      }
      r, ok, own := DeliverAll(claimed, sinks, jitters, others);
    }

    method DeliverAll(claimed: seq<Ticket>, sinks: Ticket -> Sink, jitters: Ticket -> Option<nat>,
      others: Ticket -> seq<Step>)
      returns (r: Result, ok: bool, own: seq<Mark>)
      requires Inv(w, cfg) && forall t :: t in claimed ==> t in w.tickets
      modifies this
      ensures Inv(w, cfg)
      ensures Tally(r, own, claimed, w.marks) && (ok <==> |own| == |claimed|)
      ensures ok ==> r.claimed == r.delivered + r.failed + r.poisoned
    {
      r, ok, own := Result(|claimed|, 0, 0, 0), true, [];
      while |own| < |claimed|
        invariant ok && Inv(w, cfg) && old(w).tickets <= w.tickets
        invariant Tally(r, own, claimed, w.marks)
        decreases |claimed| - |own|
      {
        var t := claimed[|own|];
        assert t in claimed;
        ghost var marks := w.marks;
        var r1, ok1, status := DeliverOne(t, sinks(t), jitters(t), others(t), r);
        if !ok1 {
          TallySnoc(r, own, claimed, marks, w.marks, Failed);
          return r, false, own;
        }
        TallySnoc(r, own, claimed, marks, w.marks, status);
        r, own := r1, own + [Mark(t, status)];
      }
    }
  }

  lemma {:induction false} TicketsGrow(w: World, cfg: Config, steps: seq<Step>)
    ensures w.tickets <= Run(w, cfg, steps).tickets
    decreases |steps|
  {
    if steps != [] { TicketsGrow(Next(w, cfg, steps[0]), cfg, steps[1..]); }
  }
}
