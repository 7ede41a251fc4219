/**
 The buffered usage fact writer of packages/billing/factwriter.go. Writes, buffer takes and requeues
 run under the writer's mutex and are atomic; inserts run outside it, so any number of flushes can be
 in flight and finish in any order. Every accepted fact is numbered in order of acceptance.
 */
module FactWriter {

  /** valid says whether the fact passes the writer's validation. */
  datatype Fact = Fact(requestId: string, costCents: int, valid: bool)

  datatype Row = Row(no: nat, fact: Fact)

  type Rows = seq<Row>

  /** acknowledged are the rows of inserts that reported success; alerted is the sum passed to the
      drop hook; refused counts the writes rejected because the buffer was full. */
  datatype Writer = Writer(
    buf: Rows, closed: bool, inFlight: seq<Rows>, accepted: Rows, acknowledged: Rows, dropped: Rows,
    alerted: nat, refused: nat)

  datatype WriteResult = Accepted | Invalid | Closed | Full

  // ---------------------------------------------------------------- sections under the mutex

  function Write(w: Writer, max: nat, fact: Fact): (Writer, WriteResult) {
    if !fact.valid then (w, Invalid)
    else if w.closed then (w, Closed)
    else if |w.buf| >= max then (w.(alerted := w.alerted + 1, refused := w.refused + 1), Full)
    else
      var row := Row(|w.accepted|, fact);
      (w.(buf := w.buf + [row], accepted := w.accepted + [row]), Accepted)
  }

  /** Takes the whole buffer; an empty buffer starts no flush. */
  function Take(w: Writer): Writer {
    if w.buf == [] then w else w.(buf := [], inFlight := w.inFlight + [w.buf])
  }

  function Without<T>(s: seq<T>, i: nat): seq<T>
    requires i < |s|
  {
    s[..i] + s[i + 1..]
  }

  function Kept(rows: Rows, max: nat): Rows {
    if |rows| <= max then rows else rows[..max]
  }

  function Lost(rows: Rows, max: nat): Rows {
    if |rows| <= max then [] else rows[max..]
  }

  function Requeue(w: Writer, max: nat, rows: Rows): Writer {
    var combined := rows + w.buf;
    w.(buf := Kept(combined, max), dropped := w.dropped + Lost(combined, max),
      alerted := w.alerted + |Lost(combined, max)|)
  }

  function Finish(w: Writer, max: nat, i: nat, ok: bool): Writer
    requires i < |w.inFlight|
  {
    var w1 := w.(inFlight := Without(w.inFlight, i));
    if ok then w1.(acknowledged := w.acknowledged + w.inFlight[i]) else Requeue(w1, max, w.inFlight[i])
  }

  // ---------------------------------------------------------------- runs

  datatype Step =
    | WriteStep(fact: Fact)
    | TakeStep
    | FinishStep(flush: nat, ok: bool)
    | CloseStep

  function Next(w: Writer, max: nat, step: Step): Writer {
    match step
    case WriteStep(fact) => Write(w, max, fact).0
    case TakeStep => Take(w)
    case FinishStep(i, ok) => if i < |w.inFlight| then Finish(w, max, i, ok) else w
    case CloseStep => w.(closed := true)
  }

  function Run(w: Writer, max: nat, steps: seq<Step>): Writer
    decreases |steps|
  {
    if steps == [] then w else Run(Next(w, max, steps[0]), max, steps[1..])
  }

  const EMPTY := Writer([], false, [], [], [], [], 0, 0)

  // ---------------------------------------------------------------- conservation

  function All(batches: seq<Rows>): multiset<Row> {
    if batches == [] then multiset{} else multiset(batches[0]) + All(batches[1..])
  }

  ghost predicate Conserved(w: Writer, max: nat) {
    && multiset(w.accepted) == multiset(w.buf) + All(w.inFlight) + multiset(w.acknowledged) + multiset(w.dropped)
    && w.alerted == |w.dropped| + w.refused
    && |w.buf| <= max
    && (forall b :: b in w.inFlight ==> 0 < |b| <= max)
  }

  lemma {:induction false} AllSnoc(batches: seq<Rows>, rows: Rows)
    ensures All(batches + [rows]) == All(batches) + multiset(rows)
  {
    if batches == [] {
      assert [rows][1..] == [];
    } else {
      assert (batches + [rows])[1..] == batches[1..] + [rows];
      AllSnoc(batches[1..], rows);
    }
  }

  lemma {:induction false} AllWithout(batches: seq<Rows>, i: nat)
    requires i < |batches|
    ensures All(batches) == All(Without(batches, i)) + multiset(batches[i])
  {
    if i == 0 {
      assert Without(batches, 0) == batches[1..];
    } else {
      assert Without(batches, i)[0] == batches[0] && Without(batches, i)[1..] == Without(batches[1..], i - 1);
      AllWithout(batches[1..], i - 1);
    }
  }

  lemma KeptAndLost(rows: Rows, max: nat)
    ensures multiset(rows) == multiset(Kept(rows, max)) + multiset(Lost(rows, max))
    ensures |Kept(rows, max)| <= max
  {
    assert rows == Kept(rows, max) + Lost(rows, max);
  }

  lemma WriteConserves(w: Writer, max: nat, fact: Fact)
    requires Conserved(w, max)
    ensures Conserved(Write(w, max, fact).0, max)
  {
  }

  lemma TakeConserves(w: Writer, max: nat)
    requires Conserved(w, max)
    ensures Conserved(Take(w), max)
  {
    AllSnoc(w.inFlight, w.buf);
  }

  lemma RequeueConserves(w: Writer, max: nat, rows: Rows)
    ensures var w' := Requeue(w, max, rows);
            && multiset(w'.buf) + multiset(w'.dropped) == multiset(rows) + multiset(w.buf) + multiset(w.dropped)
            && |w'.buf| <= max && w'.alerted - |w'.dropped| == w.alerted - |w.dropped|
  {
    KeptAndLost(rows + w.buf, max);
  }

  lemma WithoutBounded(batches: seq<Rows>, i: nat, max: nat)
    requires i < |batches| && forall b :: b in batches ==> 0 < |b| <= max
    ensures forall b :: b in Without(batches, i) ==> 0 < |b| <= max
  {
  }

  lemma Regroup(all: multiset<Row>, rest: multiset<Row>, m: multiset<Row>, a: multiset<Row>, b: multiset<Row>,
    c: multiset<Row>)
    requires all == a + (rest + m) + b + c
    ensures all == a + rest + (b + m) + c && all == (m + a + c) + rest + b
  {
  }

  lemma FinishConserves(w: Writer, max: nat, i: nat, ok: bool)
    requires Conserved(w, max) && i < |w.inFlight|
    ensures Conserved(Finish(w, max, i, ok), max)
  {
    var m, rest := multiset(w.inFlight[i]), All(Without(w.inFlight, i));
    AllWithout(w.inFlight, i);
    WithoutBounded(w.inFlight, i, max);
    Regroup(multiset(w.accepted), rest, m, multiset(w.buf), multiset(w.acknowledged), multiset(w.dropped));
    var w' := Finish(w, max, i, ok);
    if ok {
      assert multiset(w'.acknowledged) == multiset(w.acknowledged) + m;
    } else {
      RequeueConserves(w.(inFlight := Without(w.inFlight, i)), max, w.inFlight[i]);
      assert multiset(w.accepted) == (multiset(w'.buf) + multiset(w'.dropped)) + rest + multiset(w.acknowledged);
    }
  }

  /** In every run every accepted fact is in exactly one place, the buffer, a flush in flight, an
      acknowledged insert or the dropped rows, as often as it was accepted; every drop and every
      refusal went through the drop hook; and the buffer never exceeds its limit. */
  lemma {:induction false} ConservedAlways(w: Writer, max: nat, steps: seq<Step>)
    requires Conserved(w, max)
    ensures Conserved(Run(w, max, steps), max)
    decreases |steps|
  {
    if steps != [] {
      match steps[0] {
        case WriteStep(fact) => WriteConserves(w, max, fact);
        case TakeStep => TakeConserves(w, max);
        case FinishStep(i, ok) => if i < |w.inFlight| { FinishConserves(w, max, i, ok); }
        case CloseStep =>
      }
      ConservedAlways(Next(w, max, steps[0]), max, steps[1..]);
    }
  }

  /** A failed flush loses none of its own rows: they are all back, in order, at the front. */
  lemma FailedFlushRestored(w: Writer, max: nat, i: nat)
    requires Conserved(w, max) && i < |w.inFlight|
    ensures w.inFlight[i] <= Finish(w, max, i, false).buf
  {
    assert w.inFlight[i] in w.inFlight;
  }

  /** Once closed and drained, a writer stays drained: everything accepted is acknowledged or was dropped. */
  lemma {:induction false} DrainedStays(w: Writer, max: nat, steps: seq<Step>)
    requires Conserved(w, max) && w.closed && w.buf == [] && w.inFlight == []
    ensures var w' := Run(w, max, steps);
            && w'.buf == [] && w'.inFlight == [] && w'.accepted == w.accepted
            && multiset(w'.accepted) == multiset(w'.acknowledged) + multiset(w'.dropped)
    decreases |steps|
  {
    if steps != [] {
      assert Conserved(Next(w, max, steps[0]), max);
      DrainedStays(Next(w, max, steps[0]), max, steps[1..]);
    }
  }

  // ---------------------------------------------------------------- which rows a requeue drops

  predicate Ascending(rows: Rows) {
    forall i, j :: 0 <= i < j < |rows| ==> rows[i].no < rows[j].no
  }

  predicate Before(a: Rows, b: Rows) {
    forall x, y :: x in a && y in b ==> x.no < y.no
  }

  /** Every flush started while at most limit - 1 others were in flight. */
  predicate AtMost(w: Writer, max: nat, limit: nat, steps: seq<Step>)
    decreases |steps|
  {
    steps == [] || (|Next(w, max, steps[0]).inFlight| <= limit &&
      AtMost(Next(w, max, steps[0]), max, limit, steps[1..]))
  }

  /** Failing flush i drops only rows newer than every row it keeps. */
  predicate DropsNewest(w: Writer, max: nat, i: nat)
    requires i < |w.inFlight|
  {
    var combined := w.inFlight[i] + w.buf;
    Before(Kept(combined, max), Lost(combined, max))
  }

  ghost predicate Ordered(w: Writer) {
    |w.inFlight| <= 1 && OrderedRows(w.acknowledged + All1(w) + w.buf, |w.accepted|)
  }

  function All1(w: Writer): Rows {
    if |w.inFlight| == 0 then [] else w.inFlight[0]
  }

  lemma OrderedWrite(w: Writer, max: nat, fact: Fact)
    requires Ordered(w)
    ensures Ordered(Write(w, max, fact).0)
  {
    var w' := Write(w, max, fact).0;
    var before := w.acknowledged + All1(w) + w.buf;
    if w'.buf != w.buf {
      assert w'.acknowledged + All1(w') + w'.buf == before + [Row(|w.accepted|, fact)];
    }
  }

  lemma OrderedTake(w: Writer)
    requires Ordered(w) && |Take(w).inFlight| <= 1
    ensures Ordered(Take(w))
  {
    assert w.acknowledged + [] + w.buf == w.acknowledged + w.buf + [];
  }

  predicate OrderedRows(rows: Rows, n: nat) {
    Ascending(rows) && forall r :: r in rows ==> r.no < n
  }

  lemma PrefixOrdered(rows: Rows, prefix: Rows, n: nat)
    requires OrderedRows(rows, n) && prefix <= rows
    ensures OrderedRows(prefix, n)
  {
    forall r | r in prefix ensures r.no < n {
      var i :| 0 <= i < |prefix| && prefix[i] == r;
      assert rows[i] == r;
    }
  }

  lemma FinishPrefix(w: Writer, max: nat, ok: bool)
    requires |w.inFlight| == 1
    ensures var w' := Finish(w, max, 0, ok);
            w'.inFlight == [] && w'.acknowledged + [] + w'.buf <= w.acknowledged + w.inFlight[0] + w.buf
  {
    var w' := Finish(w, max, 0, ok);
    var before := w.acknowledged + w.inFlight[0] + w.buf;
    if ok {
      assert w'.acknowledged + [] + w'.buf == before;
    } else {
      assert w.acknowledged + (w.inFlight[0] + w.buf) == before;
      assert w'.acknowledged + [] + w'.buf == w.acknowledged + Kept(w.inFlight[0] + w.buf, max);
    }
  }

  lemma OrderedFinish(w: Writer, max: nat, ok: bool)
    requires Ordered(w) && |w.inFlight| == 1
    ensures Ordered(Finish(w, max, 0, ok))
  {
    var w' := Finish(w, max, 0, ok);
    FinishPrefix(w, max, ok);
    PrefixOrdered(w.acknowledged + w.inFlight[0] + w.buf, w'.acknowledged + [] + w'.buf, |w.accepted|);
  }

  lemma {:induction false} OrderedAlways(w: Writer, max: nat, steps: seq<Step>)
    requires Ordered(w) && AtMost(w, max, 1, steps)
    ensures Ordered(Run(w, max, steps))
    decreases |steps|
  {
    if steps != [] {
      match steps[0] {
        case WriteStep(fact) => OrderedWrite(w, max, fact);
        case TakeStep => OrderedTake(w);
        case FinishStep(i, ok) => if i < |w.inFlight| { OrderedFinish(w, max, ok); }
        case CloseStep =>
      }
      OrderedAlways(Next(w, max, steps[0]), max, steps[1..]);
    }
  }

  lemma OrderedDropsNewest(w: Writer, max: nat, i: nat)
    requires Ordered(w) && i < |w.inFlight|
    ensures DropsNewest(w, max, i)
  {
    AscendingSuffix(w.acknowledged, w.inFlight[0], w.buf);
    SplitBefore(w.inFlight[0] + w.buf, max);
  }

  /** With at most one flush in flight, rows are acknowledged, carried and buffered in the order they
      were accepted, and a failing flush drops only rows newer than all it keeps. */
  lemma SerialFlushesKeepOrder(max: nat, steps: seq<Step>)
    requires AtMost(EMPTY, max, 1, steps)
    ensures var w := Run(EMPTY, max, steps);
            Ordered(w) && forall i :: 0 <= i < |w.inFlight| ==> DropsNewest(w, max, i)
  {
    OrderedAlways(EMPTY, max, steps);
    var w := Run(EMPTY, max, steps);
    forall i | 0 <= i < |w.inFlight| ensures DropsNewest(w, max, i) { OrderedDropsNewest(w, max, i); }
  }

  lemma AscendingSuffix(a: Rows, b: Rows, c: Rows)
    requires Ascending(a + b + c)
    ensures Ascending(b + c)
  {
    forall i, j | 0 <= i < j < |b + c| ensures (b + c)[i].no < (b + c)[j].no {
      assert (a + b + c)[|a| + i] == (b + c)[i] && (a + b + c)[|a| + j] == (b + c)[j];
    }
  }

  lemma SplitBefore(rows: Rows, max: nat)
    requires Ascending(rows)
    ensures Before(Kept(rows, max), Lost(rows, max))
  {
  }

  // ---------------------------------------------------------------- and when it does not

  ghost predicate Reachable(w: Writer, max: nat, limit: nat) {
    exists steps :: AtMost(EMPTY, max, limit, steps) && Run(EMPTY, max, steps) == w
  }

  lemma {:induction false} RunThen(w: Writer, max: nat, limit: nat, steps: seq<Step>, step: Step)
    requires AtMost(w, max, limit, steps) && |Next(Run(w, max, steps), max, step).inFlight| <= limit
    ensures AtMost(w, max, limit, steps + [step])
    ensures Run(w, max, steps + [step]) == Next(Run(w, max, steps), max, step)
    decreases |steps|
  {
    if steps == [] {
      assert [step][1..] == [];
    } else {
      assert (steps + [step])[0] == steps[0] && (steps + [step])[1..] == steps[1..] + [step];
      RunThen(Next(w, max, steps[0]), max, limit, steps[1..], step);
    }
  }

  lemma ReachableNext(w: Writer, max: nat, limit: nat, step: Step)
    requires Reachable(w, max, limit) && |Next(w, max, step).inFlight| <= limit
    ensures Reachable(Next(w, max, step), max, limit)
  {
    var steps :| AtMost(EMPTY, max, limit, steps) && Run(EMPTY, max, steps) == w;
    RunThen(EMPTY, max, limit, steps, step);
    assert Run(EMPTY, max, steps + [step]) == Next(w, max, step);
  }

  const FACT := Fact("r", 1, true)

  /** Rows from, from + 1, … */
  function Numbered(from: nat, n: nat): Rows {
    seq(n, (i: nat) => Row(from + i, FACT))
  }

  function Second(n: nat): Writer {
    Writer(Numbered(1, n), false, [Numbered(0, 1)], Numbered(0, n + 1), [], [], 0, 0)
  }

  lemma ReachableFirstTake(max: nat, limit: nat)
    requires max >= 1 && limit >= 2
    ensures Reachable(Second(0), max, limit)
  {
    assert Run(EMPTY, max, []) == EMPTY;
    ReachableNext(EMPTY, max, limit, WriteStep(FACT));
    var w := Next(EMPTY, max, WriteStep(FACT));
    assert w.buf == Numbered(0, 1) && w.accepted == Numbered(0, 1);
    ReachableNext(w, max, limit, TakeStep);
    assert Next(w, max, TakeStep).inFlight == [Numbered(0, 1)];
    assert Next(w, max, TakeStep) == Second(0);
  }

  lemma {:induction false} ReachableFull(max: nat, limit: nat, n: nat)
    requires max >= 1 && limit >= 2 && n <= max
    ensures Reachable(Second(n), max, limit)
  {
    if n == 0 {
      ReachableFirstTake(max, limit);
    } else {
      ReachableFull(max, limit, n - 1);
      ReachableNext(Second(n - 1), max, limit, WriteStep(FACT));
      assert Numbered(1, n - 1) + [Row(n, FACT)] == Numbered(1, n);
      assert Numbered(0, n) + [Row(n, FACT)] == Numbered(0, n + 1);
    }
  }

  /** With two flushes in flight, both failing, the second requeue drops the oldest row and keeps newer
      ones, whatever the buffer limit. */
  lemma ConcurrentFlushesDropOldest(max: nat, limit: nat)
    requires max >= 1 && limit >= 2
    ensures exists w :: Reachable(w, max, limit) && |w.inFlight| == 1 && !DropsNewest(w, max, 0)
  {
    ReachableFull(max, limit, max);
    var w1 := Second(max);
    ReachableNext(w1, max, limit, TakeStep);
    var w2 := Take(w1);
    assert w2.inFlight == [Numbered(0, 1), Numbered(1, max)];
    ReachableNext(w2, max, limit, FinishStep(0, false));
    var w3 := Finish(w2, max, 0, false);
    assert w3.inFlight == [Numbered(1, max)] && w3.buf == Numbered(0, 1);
    var combined := Numbered(1, max) + Numbered(0, 1);
    assert Kept(combined, max)[0] == Row(1, FACT) && Lost(combined, max)[0] == Row(0, FACT);
    assert !DropsNewest(w3, max, 0);
  }

  /** A failing flush always drops the newest rows if and only if flushes never overlap. */
  lemma DropsNewestExactly(max: nat, limit: nat)
    requires max >= 1
    ensures limit <= 1 <==>
            forall w, i :: Reachable(w, max, limit) && 0 <= i < |w.inFlight| ==> DropsNewest(w, max, i)
  {
    if limit <= 1 {
      forall w, i | Reachable(w, max, limit) && 0 <= i < |w.inFlight| ensures DropsNewest(w, max, i) {
        var steps :| AtMost(EMPTY, max, limit, steps) && Run(EMPTY, max, steps) == w;
        AtMostRelaxed(EMPTY, max, limit, steps);
        SerialFlushesKeepOrder(max, steps);
      }
    } else {
      ConcurrentFlushesDropOldest(max, limit);
    }
  }

  lemma {:induction false} AtMostRelaxed(w: Writer, max: nat, limit: nat, steps: seq<Step>)
    requires limit <= 1 && AtMost(w, max, limit, steps)
    ensures AtMost(w, max, 1, steps)
    decreases |steps|
  {
    if steps != [] { AtMostRelaxed(Next(w, max, steps[0]), max, limit, steps[1..]); }
  }

  // ---------------------------------------------------------------- the writer object

  lemma LoneFinish(w: Writer, max: nat, rows: Rows, ok: bool)
    requires Conserved(w, max) && w.inFlight == [rows]
    ensures var w' := Finish(w, max, 0, ok);
            && Conserved(w', max) && w'.inFlight == [] && w'.closed == w.closed
            && (ok ==> w'.acknowledged == w.acknowledged + rows && w'.dropped == w.dropped && w'.buf == w.buf)
            && (!ok ==> rows <= w'.buf && w'.acknowledged == w.acknowledged)
  {
    FinishConserves(w, max, 0, ok);
    FailedFlushRestored(w, max, 0);
    assert Without([rows], 0) == [];
  }

  class UsageFactWriter {
    var w: Writer
    const max: nat

    constructor (maxBufferSize: int)
      ensures w == EMPTY && max == if maxBufferSize <= 0 then 10000 else maxBufferSize
    {
      w := EMPTY;
      max := if maxBufferSize <= 0 then 10000 else maxBufferSize;
    }

    method WriteFact(fact: Fact) returns (r: WriteResult)
      modifies this
      ensures (w, r) == Write(old(w), max, fact)
    {
      if !fact.valid { return Invalid; }
      if w.closed { return Closed; }
      if |w.buf| >= max {
        w := w.(alerted := w.alerted + 1, refused := w.refused + 1);
        return Full;
      }
      var row := Row(|w.accepted|, fact);
      w := w.(buf := w.buf + [row], accepted := w.accepted + [row]);
      r := Accepted;
    }

    method TakeBuffer() returns (rows: Rows)
      modifies this
      ensures w == Take(old(w)) && rows == old(w).buf
    {
      rows := w.buf;
      if |rows| == 0 { return; }
      w := w.(buf := [], inFlight := w.inFlight + [rows]);
    }

    method RequeueFront(rows: Rows)
      modifies this
      ensures w == if rows == [] then old(w) else Requeue(old(w), max, rows)
    {
      if |rows| == 0 { return; }
      var combined := rows + w.buf;
      var lost: Rows := [];
      if |combined| > max {
        var drop := |combined| - max;
        lost := combined[|combined| - drop..];
        combined := combined[..|combined| - drop];
        w := w.(alerted := w.alerted + drop, dropped := w.dropped + lost);
      } else {
        assert w.dropped + [] == w.dropped;
      }
      w := w.(buf := combined);
    }

    /** The writes other callers make during an insert. */
    method WriteAll(facts: seq<Fact>)
      requires Conserved(w, max)
      modifies this
      ensures Conserved(w, max)
      ensures w.inFlight == old(w).inFlight && w.acknowledged == old(w).acknowledged && w.dropped == old(w).dropped
      ensures w.closed == old(w).closed && (facts == [] ==> w == old(w))
    {
      var i := 0;
      while i < |facts|
        invariant 0 <= i <= |facts| && Conserved(w, max)
        invariant w.inFlight == old(w).inFlight && w.acknowledged == old(w).acknowledged && w.dropped == old(w).dropped
        invariant w.closed == old(w).closed && (i == 0 ==> w == old(w))
      {
        WriteConserves(w, max, facts[i]);
        var _ := WriteFact(facts[i]);
        i := i + 1;
      }
    }

    method FinishFlush(rows: Rows, ok: bool)
      requires w.inFlight == [rows] && rows != []
      modifies this
      ensures w == Finish(old(w), max, 0, ok)
    {
      w := w.(inFlight := []);
      assert Without([rows], 0) == [];
      if ok { w := w.(acknowledged := w.acknowledged + rows); } else { RequeueFront(rows); }
    }

    /** A flush with no other flush in flight, while the facts of during are written; ok is what the
        insert reports. On failure the taken rows lead the buffer again and only facts written
        meanwhile were lost. */
    method Flush(during: seq<Fact>, ok: bool) returns (flushed: bool)
      requires Conserved(w, max) && w.inFlight == []
      modifies this
      ensures Conserved(w, max) && w.inFlight == []
      ensures flushed == (ok || old(w).buf == [])
      ensures !flushed ==> old(w).buf <= w.buf && w.acknowledged == old(w).acknowledged
      ensures flushed ==> w.acknowledged == old(w).acknowledged + old(w).buf && w.dropped == old(w).dropped
      ensures w.closed == old(w).closed && (flushed && during == [] ==> w.buf == [])
    {
      TakeConserves(w, max);
      var rows := TakeBuffer();
      if |rows| == 0 { return true; }
      WriteAll(during);
      LoneFinish(w, max, rows, ok);
      FinishFlush(rows, ok);
      flushed := ok;
    }

    /** Shutdown once no flush is in flight: closes the writer and flushes what is left. */
    method Shutdown(ok: bool) returns (drained: bool)
      requires Conserved(w, max) && w.inFlight == []
      modifies this
      ensures Conserved(w, max) && w.closed
      ensures old(w).closed ==> w == old(w)
      ensures !old(w).closed ==> drained == (ok || old(w).buf == [])
      ensures !old(w).closed && drained ==>
              w.buf == [] && w.inFlight == [] && w.acknowledged == old(w).acknowledged + old(w).buf
    {
      if w.closed { return true; }
      w := w.(closed := true);
      drained := Flush([], ok);
    }
  }
}
