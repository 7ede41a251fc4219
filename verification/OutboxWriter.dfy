/**
 The evidence writer (packages/evidenceoutbox/store.go): one transaction writes a run and one outbox
 row for each of its events, in order. Child inserts into other tables are seen only by whether they
 succeed; identifiers are drawn from a counter.
 */
module OutboxWriter {
  import opened Prelude
  import opened OutboxRow

  const SCHEMA_VERSION := "evidence.v1"
  const RUN_COMMITTED := "evidence.run.committed"
  const SPAN_COMMITTED := "evidence.span.committed"
  const ASSEMBLY_METRICS := "evidence.assembly_metrics"
  const SCORE_CANDIDATES := "evidence.score_candidates"
  const DIRECTIVE_SNAPSHOT := "evidence.directive_snapshot"
  const TOOL_AUDIT := "evidence.tool_audit"
  const SESSION_EVENT := "evidence.session_event"

  datatype Producer = Producer(
    cls: string, proofVersion: string, resourceType: string, resourceId: string, resourceVersion: int, source: string)

  /** childOk says whether the insert into the span's own table succeeds; likewise below. */
  datatype Span = Span(spanId: string, parentSpanId: string, kind: string, childOk: bool)
  datatype Tool = Tool(name: string, idempotencyKey: string, childOk: bool)
  datatype SessionEvent = SessionEvent(sessionId: string, number: int, kind: string, archivedTo: string, childOk: bool)
  datatype Part = Part(value: Json, childOk: bool)
  datatype Directive = Directive(versionId: string, contentHash: string, childOk: bool)

  /** runOk says whether the run's own row is inserted; formatsOk whether the model, token, completeness, trace and
      span fields pass their checks. */
  datatype RunInput = RunInput(
    orgId: nat, requestId: string, traceId: string, rootSpanId: string, checkpointId: string, completeness: string,
    modelId: string, tokenUsage: Json, formatsOk: bool, runOk: bool, cls: string,
    fence: Option<Fence>, producer: Option<Producer>, spans: seq<Span>, metrics: Option<Part>,
    candidates: seq<Part>, directive: Option<Directive>, tools: seq<Tool>, sessionEvents: seq<SessionEvent>)

  // ---------------------------------------------------------------- validation

  predicate Supported(cls: string) {
    cls == UNCLASSIFIED || cls == METADATA || cls == REDACTED || cls == PROHIBITED
  }

  predicate ProducerValid(p: Producer) {
    && Supported(p.cls) && p.cls != UNCLASSIFIED && p.proofVersion != "" && p.resourceType != "" && p.resourceId != ""
    && p.resourceVersion > 0 && p.source != ""
  }

  predicate ProducerAgrees(run: RunInput) {
    match run.producer
    case None => run.cls != METADATA
    case Some(p) =>
      && ProducerValid(p) && (run.cls == "" || run.cls == p.cls)
      && (run.fence.Some? ==> run.fence.value == Fence(p.resourceType, p.resourceId, p.resourceVersion))
  }

  predicate RunValid(run: RunInput) {
    && run.formatsOk && ProducerAgrees(run) && (run.fence.Some? ==> FenceValid(run.fence.value))
    && run.orgId != 0 && run.requestId != ""
  }

  function Resolve(cls: string, producer: Option<Producer>): string {
    if cls == "" && producer.Some? then producer.value.cls else cls
  }

  /** The class stored with the run's events. */
  function StoredClass(run: RunInput): string {
    var c := Resolve(run.cls, run.producer);
    if Blank(c) then UNCLASSIFIED else c
  }

  // ---------------------------------------------------------------- payloads

  predicate Reserved(fields: map<string, Json>) {
    "redaction_class" in fields || "tombstone_fence" in fields
  }

  function FenceJson(f: Fence): Json {
    JObj(map["resource_type" := JStr(f.resourceType), "resource_id" := JStr(f.resourceId),
      "resource_version" := JNum(f.resourceVersion)])
  }

  function ProofFields(p: Producer): map<string, Json> {
    map["redaction_proof_version" := JStr(p.proofVersion), "resource_type" := JStr(p.resourceType),
        "resource_id" := JStr(p.resourceId), "resource_version" := JNum(p.resourceVersion), "source" := JStr(p.source)]
  }

  function WithFence(fields: map<string, Json>, fence: Option<Fence>): map<string, Json> {
    if fence.None? then fields else fields["tombstone_fence" := FenceJson(fence.value)]
  }

  function Marshal(fields: map<string, Json>, cls: string, fence: Option<Fence>,
    producer: Option<Producer>): Option<map<string, Json>> {
    var c0 := Resolve(cls, producer);
    var c := if Blank(c0) then UNCLASSIFIED else c0;
    if !Supported(c) || Reserved(fields) then None
    else if fence.Some? && !FenceValid(fence.value) then None
    else if producer.Some? && !ProducerValid(producer.value) then None
    else
      var base := WithFence(fields["redaction_class" := JStr(c)], fence);
      Some(if producer.None? then base else base + ProofFields(producer.value))
  }

  lemma FenceReadsBack(f: Fence, m: map<string, Json>)
    requires FenceValid(f) && f.resourceVersion <= MAX_INT64
    requires "tombstone_fence" in m && m["tombstone_fence"] == FenceJson(f)
    ensures FenceField(m) == Some(Some(f))
  {
    var g := FenceJson(f).fields;
    assert g["resource_type"] == JStr(f.resourceType);
    assert g["resource_id"] == JStr(f.resourceId);
    assert g["resource_version"] == JNum(f.resourceVersion);
  }

  lemma ProofKeepsMetadata(m: map<string, Json>, p: Producer)
    ensures var m' := m + ProofFields(p);
            && ("tombstone_fence" in m' <==> "tombstone_fence" in m)
            && ("tombstone_fence" in m ==> m'["tombstone_fence"] == m["tombstone_fence"])
            && ("redaction_class" in m ==> "redaction_class" in m' && m'["redaction_class"] == m["redaction_class"])
  {
    assert "tombstone_fence" !in ProofFields(p);
    assert "redaction_class" !in ProofFields(p);
  }

  /** The metadata written with a payload is the metadata the relay reads: same class, same fence,
      whatever the payload's own fields and the producer's proof. */
  lemma MetadataReadsBack(fields: map<string, Json>, cls: string, fence: Option<Fence>, producer: Option<Producer>)
    requires Marshal(fields, cls, fence, producer).Some?
    requires fence.Some? ==> fence.value.resourceVersion <= MAX_INT64
    ensures var c := Resolve(cls, producer);
            ParseMetadata(JObj(Marshal(fields, cls, fence, producer).value)) ==
              (if Blank(c) then UNCLASSIFIED else c, fence)
  {
    var m := Marshal(fields, cls, fence, producer).value;
    var c0 := Resolve(cls, producer);
    var c := if Blank(c0) then UNCLASSIFIED else c0;
    var base := WithFence(fields["redaction_class" := JStr(c)], fence);
    assert "redaction_class" != "tombstone_fence" by {
      assert |"redaction_class"| == |"tombstone_fence"|;
      assert "redaction_class"[0] != "tombstone_fence"[0];
    }
    assert base["redaction_class"] == JStr(c);
    if producer.Some? { ProofKeepsMetadata(base, producer.value); }
    assert StrField(m, "redaction_class") == Some(c);
    if fence.Some? {
      FenceReadsBack(fence.value, m);
    } else {
      assert "tombstone_fence" !in m;
    }
    assert c != "";
  }

  // ---------------------------------------------------------------- the events of a run

  datatype Event = Event(kind: string, fields: map<string, Json>, childOk: bool)

  function RunEvent(run: RunInput, runId: string): Event {
    Event(RUN_COMMITTED,
          map["run_id" := JStr(runId), "request_id" := JStr(run.requestId), "trace_id" := JStr(run.traceId),
              "root_span_id" := JStr(run.rootSpanId), "checkpoint_id" := JStr(run.checkpointId),
              "schema_version" := JStr(SCHEMA_VERSION), "model_id" := JStr(run.modelId),
              "token_usage" := run.tokenUsage,
              "completeness" := JStr(if run.completeness == "" then "partial" else run.completeness)], run.runOk)
  }

  function SpanEvent(run: RunInput, runId: string, sp: Span): Event {
    Event(SPAN_COMMITTED,
          map["run_id" := JStr(runId), "trace_id" := JStr(run.traceId), "span_id" := JStr(sp.spanId),
              "parent_span_id" := JStr(sp.parentSpanId), "operation_kind" := JStr(sp.kind),
              "request_id" := JStr(run.requestId), "schema_version" := JStr(SCHEMA_VERSION)], sp.childOk)
  }

  function PartEvent(run: RunInput, runId: string, kind: string, extra: map<string, Json>, childOk: bool): Event {
    Event(kind, map["run_id" := JStr(runId), "request_id" := JStr(run.requestId),
      "trace_id" := JStr(run.traceId)] + extra, childOk)
  }

  function MetricsEvents(run: RunInput, runId: string): seq<Event> {
    if run.metrics.None? then []
    else [PartEvent(run, runId, ASSEMBLY_METRICS, map["metrics" := run.metrics.value.value], run.metrics.value.childOk)]
  }

  predicate AllOk(parts: seq<Part>) {
    forall p :: p in parts ==> p.childOk
  }

  function CandidateEvents(run: RunInput, runId: string): seq<Event> {
    if run.candidates == [] then []
    else [PartEvent(run, runId, SCORE_CANDIDATES, map["count" := JNum(|run.candidates|)], AllOk(run.candidates))]
  }

  function DirectiveEvents(run: RunInput, runId: string): seq<Event> {
    if run.directive.None? then []
    else
      var d := run.directive.value;
      [PartEvent(run, runId, DIRECTIVE_SNAPSHOT,
        map["directive_version_id" := JStr(d.versionId), "content_hash" := JStr(d.contentHash)], d.childOk)]
  }

  function ToolEvent(run: RunInput, runId: string, t: Tool): Event {
    PartEvent(run, runId, TOOL_AUDIT, map["tool_name" := JStr(t.name), "idempotency_key" := JStr(t.idempotencyKey)],
      t.childOk)
  }

  function SessionEventOf(run: RunInput, se: SessionEvent): Event {
    Event(SESSION_EVENT,
          map["session_id" := JStr(se.sessionId), "sequence_number" := JNum(se.number), "event_type" := JStr(se.kind),
              "request_id" := JStr(run.requestId), "trace_id" := JStr(run.traceId),
              "archived_to" := JStr(se.archivedTo)], se.childOk)
  }

  function SpanEvents(run: RunInput, runId: string, n: nat): seq<Event>
    requires n <= |run.spans|
  {
    if n == 0 then [] else SpanEvents(run, runId, n - 1) + [SpanEvent(run, runId, run.spans[n - 1])]
  }

  function ToolEvents(run: RunInput, runId: string, n: nat): seq<Event>
    requires n <= |run.tools|
  {
    if n == 0 then [] else ToolEvents(run, runId, n - 1) + [ToolEvent(run, runId, run.tools[n - 1])]
  }

  function SessionEvents(run: RunInput, n: nat): seq<Event>
    requires n <= |run.sessionEvents|
  {
    if n == 0 then [] else SessionEvents(run, n - 1) + [SessionEventOf(run, run.sessionEvents[n - 1])]
  }

  function Middle(run: RunInput, runId: string): seq<Event> {
    MetricsEvents(run, runId) + CandidateEvents(run, runId) + DirectiveEvents(run, runId)
  }

  function Events(run: RunInput, runId: string): seq<Event> {
    [RunEvent(run, runId)] + SpanEvents(run, runId, |run.spans|) + Middle(run, runId)
    + ToolEvents(run, runId, |run.tools|) + SessionEvents(run, |run.sessionEvents|)
  }

  // ---------------------------------------------------------------- the transaction

  datatype Result = Result(runId: nat, outboxIds: seq<nat>, aggregateId: string, replayed: bool)

  /** The committed tables; results is what the first PersistRun of each run returned. */
  datatype Db = Db(
    runs: map<(nat, string), nat>, outbox: seq<Content>, nextId: nat, results: map<(nat, string), Result>)

  /** A transaction writing one run; ok turns false at the first error. */
  datatype Tx = Tx(outbox: seq<Content>, nextId: nat, seqNo: nat, ids: seq<nat>, ok: bool)

  function RowOf(run: RunInput, ev: Event, seqNo: nat, eventId: nat, rowId: nat, payload: Json,
    digest: string): Content {
    Content(rowId, run.orgId, eventId, run.requestId, seqNo, SCHEMA_VERSION, ev.kind, payload, digest, JCS)
  }

  /** The payload stored for an event and its digest, or nothing when either cannot be made. */
  datatype Encoded = Encoded(payload: Json, digest: string)

  type Encoder = Event -> Option<Encoded>

  function Encode(run: RunInput, d: Digests, ev: Event): Option<Encoded> {
    var raw := Marshal(ev.fields, Resolve(run.cls, run.producer), run.fence, run.producer);
    if raw.None? then None
    else
      var digest := d.jcs(JObj(raw.value));
      if digest.None? then None else Some(Encoded(JObj(raw.value), digest.value))
  }

  function EncoderFor(run: RunInput, d: Digests): Encoder {
    ev => Encode(run, d, ev)
  }

  function Enqueue(tx: Tx, run: RunInput, ev: Event, enc: Encoder): Tx {
    if !tx.ok then tx
    else if !ev.childOk || enc(ev).None? then tx.(ok := false)
    else
      var e := enc(ev).value;
      Tx(tx.outbox + [RowOf(run, ev, tx.seqNo + 1, tx.nextId, tx.nextId + 1, e.payload, e.digest)],
         tx.nextId + 2, tx.seqNo + 1, tx.ids + [tx.nextId + 1], true)
  }

  function EnqueueAll(tx: Tx, run: RunInput, evs: seq<Event>, enc: Encoder): Tx {
    if evs == [] then tx else Enqueue(EnqueueAll(tx, run, evs[..|evs| - 1], enc), run, evs[|evs| - 1], enc)
  }

  /** Printed form of an identifier inside payloads. */
  type Printer = nat -> string

  function Begin(db: Db): Tx {
    Tx(db.outbox, db.nextId + 1, 0, [], true)
  }

  function RowKey(c: Content): (nat, string) {
    (c.orgId, c.aggregateId)
  }

  function Filter(rows: seq<Content>, key: (nat, string)): seq<Content> {
    if rows == [] then []
    else (if RowKey(rows[0]) == key then [rows[0]] else []) + Filter(rows[1..], key)
  }

  function Insert(c: Content, s: seq<Content>): seq<Content> {
    if s == [] || c.aggregateSeq <= s[0].aggregateSeq then [c] + s else [s[0]] + Insert(c, s[1..])
  }

  /** ORDER BY aggregate_seq. */
  function Sort(s: seq<Content>): seq<Content> {
    if s == [] then [] else Insert(s[0], Sort(s[1..]))
  }

  function Ids(rows: seq<Content>): seq<nat> {
    seq(|rows|, i requires 0 <= i < |rows| => rows[i].id)
  }

  function FindExisting(db: Db, key: (nat, string)): Option<Result> {
    if key !in db.runs then None
    else Some(Result(db.runs[key], Ids(Sort(Filter(db.outbox, key))), key.1, true))
  }

  function Persist(db: Db, run: RunInput, text: Printer, d: Digests): (Db, Option<Result>) {
    var key := (run.orgId, run.requestId);
    if !RunValid(run) then (db, None)
    else if FindExisting(db, key).Some? then (db, FindExisting(db, key))
    else
      var tx := EnqueueAll(Begin(db), run, Events(run, text(db.nextId)), EncoderFor(run, d));
      if !tx.ok then (db, None)
      else
        var r := Result(db.nextId, tx.ids, run.requestId, false);
        (Db(db.runs[key := db.nextId], tx.outbox, tx.nextId, db.results[key := r]), Some(r))
  }

  // ---------------------------------------------------------------- what one run writes

  predicate RowFor(c: Content, run: RunInput, ev: Event, seqNo: nat, enc: Encoder) {
    && c.id != 0 && c.eventId != 0 && RowKey(c) == (run.orgId, run.requestId) && c.aggregateSeq == seqNo
    && c.eventType == ev.kind && c.schemaVersion == SCHEMA_VERSION && c.scheme == JCS
    && enc(ev) == Some(Encoded(c.payload, c.digest))
  }

  /** From tx to tx' exactly one row per event was appended, in order, numbered without a gap. */
  ghost predicate Wrote(tx: Tx, tx': Tx, run: RunInput, evs: seq<Event>, enc: Encoder) {
    && tx.outbox <= tx'.outbox && tx.ids <= tx'.ids
    && |tx'.outbox| == |tx.outbox| + |evs| && |tx'.ids| == |tx.ids| + |evs| && tx'.seqNo == tx.seqNo + |evs|
    && tx'.nextId == tx.nextId + 2 * |evs|
    && forall k :: 0 <= k < |evs| ==> WroteAt(tx, tx', run, evs[k], k, enc)
  }

  /** The k-th row after tx is the event's, with the next number and a fresh id that is also returned. */
  predicate WroteAt(tx: Tx, tx': Tx, run: RunInput, ev: Event, k: nat, enc: Encoder) {
    && |tx.outbox| + k < |tx'.outbox| && |tx.ids| + k < |tx'.ids|
    && var c := tx'.outbox[|tx.outbox| + k];
       RowFor(c, run, ev, tx.seqNo + k + 1, enc) && c.id == tx'.ids[|tx.ids| + k] == tx.nextId + 2 * k + 1
  }

  lemma {:induction false} EnqueueAllWrites(tx: Tx, run: RunInput, evs: seq<Event>, enc: Encoder)
    requires tx.nextId > 0
    ensures EnqueueAll(tx, run, evs, enc).ok ==> tx.ok && Wrote(tx, EnqueueAll(tx, run, evs, enc), run, evs, enc)
    decreases |evs|
  {
    if evs != [] {
      EnqueueAllWrites(tx, run, evs[..|evs| - 1], enc);
      if EnqueueAll(tx, run, evs, enc).ok {
        WroteOneMore(tx, EnqueueAll(tx, run, evs[..|evs| - 1], enc), run, evs, enc);
      }
    }
  }

  lemma WroteOneMore(tx: Tx, mid: Tx, run: RunInput, evs: seq<Event>, enc: Encoder)
    requires evs != [] && tx.nextId > 0 && Wrote(tx, mid, run, evs[..|evs| - 1], enc) && mid.ok
    requires Enqueue(mid, run, evs[|evs| - 1], enc).ok
    ensures Wrote(tx, Enqueue(mid, run, evs[|evs| - 1], enc), run, evs, enc)
  {
    var tx' := Enqueue(mid, run, evs[|evs| - 1], enc);
    var n := |evs| - 1;
    forall k | 0 <= k < |evs| ensures WroteAt(tx, tx', run, evs[k], k, enc) {
      if k < n {
        assert evs[..n][k] == evs[k];
        assert WroteAt(tx, mid, run, evs[k], k, enc);
        assert tx'.outbox[|tx.outbox| + k] == mid.outbox[|tx.outbox| + k];
        assert tx'.ids[|tx.ids| + k] == mid.ids[|tx.ids| + k];
      } else {
        LastWritten(mid, run, evs[n], enc);
      }
    }
  }

  lemma LastWritten(mid: Tx, run: RunInput, ev: Event, enc: Encoder)
    requires mid.ok && mid.nextId > 0 && Enqueue(mid, run, ev, enc).ok
    ensures WroteAt(mid, Enqueue(mid, run, ev, enc), run, ev, 0, enc)
  {
  }

  // ---------------------------------------------------------------- replay

  lemma {:induction false} FilterConcat(a: seq<Content>, b: seq<Content>, key: (nat, string))
    ensures Filter(a + b, key) == Filter(a, key) + Filter(b, key)
  {
    if a == [] {
      assert a + b == b;
    } else {
      assert (a + b)[0] == a[0] && (a + b)[1..] == a[1..] + b;
      FilterConcat(a[1..], b, key);
    }
  }

  lemma {:induction false} FilterUniform(rows: seq<Content>, own: (nat, string), key: (nat, string))
    requires forall c :: c in rows ==> RowKey(c) == own
    ensures Filter(rows, key) == if key == own then rows else []
  {
    if rows != [] {
      assert rows[0] in rows;
      FilterUniform(rows[1..], own, key);
      assert rows == [rows[0]] + rows[1..];
    }
  }

  predicate InOrder(rows: seq<Content>) {
    forall i, j :: 0 <= i < j < |rows| ==> rows[i].aggregateSeq <= rows[j].aggregateSeq
  }

  lemma {:induction false} SortInOrder(rows: seq<Content>)
    requires InOrder(rows)
    ensures Sort(rows) == rows
  {
    if rows != [] {
      SortInOrder(rows[1..]);
      assert rows == [rows[0]] + rows[1..];
    }
  }

  /** Sorting keeps exactly the rows it is given. */
  lemma {:induction false} SortKeeps(rows: seq<Content>)
    ensures multiset(Sort(rows)) == multiset(rows)
  {
    if rows != [] {
      SortKeeps(rows[1..]);
      InsertKeeps(rows[0], Sort(rows[1..]));
      assert rows == [rows[0]] + rows[1..];
    }
  }

  lemma {:induction false} InsertKeeps(c: Content, s: seq<Content>)
    ensures multiset(Insert(c, s)) == multiset(s) + multiset{c}
  {
    if s != [] && c.aggregateSeq > s[0].aggregateSeq {
      InsertKeeps(c, s[1..]);
      assert s == [s[0]] + s[1..];
    }
  }

  predicate KeyOk(db: Db, key: (nat, string)) {
    var rows := Filter(db.outbox, key);
    if key in db.runs then
      && key in db.results && InOrder(rows) && Ids(rows) == db.results[key].outboxIds
      && db.results[key].runId == db.runs[key] && db.results[key].aggregateId == key.1
    else rows == []
  }

  ghost predicate Inv(db: Db) {
    db.nextId > 0 && forall key :: KeyOk(db, key)
  }

  function Tail(db: Db, tx: Tx): seq<Content>
    requires |db.outbox| <= |tx.outbox|
  {
    tx.outbox[|db.outbox|..]
  }

  lemma TailOfWrote(db: Db, run: RunInput, evs: seq<Event>, enc: Encoder, tx: Tx)
    requires Wrote(Begin(db), tx, run, evs, enc)
    ensures tx.outbox == db.outbox + Tail(db, tx) && Ids(Tail(db, tx)) == tx.ids && InOrder(Tail(db, tx))
    ensures forall c :: c in Tail(db, tx) ==> RowKey(c) == (run.orgId, run.requestId)
  {
    var t := Tail(db, tx);
    forall k | 0 <= k < |t|
      ensures t[k].id == tx.ids[k] && t[k].aggregateSeq == k + 1 && RowKey(t[k]) == (run.orgId, run.requestId)
    {
      assert t[k] == tx.outbox[|db.outbox| + k];
      assert WroteAt(Begin(db), tx, run, evs[k], k, enc);
    }
  }

  lemma PersistKeeps(db: Db, run: RunInput, text: Printer, d: Digests)
    requires Inv(db)
    ensures Inv(Persist(db, run, text, d).0)
  {
    var (db', r) := Persist(db, run, text, d);
    var own := (run.orgId, run.requestId);
    if db' != db {
      var evs := Events(run, text(db.nextId));
      var enc := EncoderFor(run, d);
      var tx := EnqueueAll(Begin(db), run, evs, enc);
      EnqueueAllWrites(Begin(db), run, evs, enc);
      TailOfWrote(db, run, evs, enc, tx);
      forall key ensures KeyOk(db', key) {
        assert KeyOk(db, key);
        FilterConcat(db.outbox, Tail(db, tx), key);
        FilterUniform(Tail(db, tx), own, key);
        assert Filter(db'.outbox, key) == if key == own then Tail(db, tx) else Filter(db.outbox, key);
      }
    }
  }

  datatype Request = Request(run: RunInput, text: Printer)

  /** Any number of later PersistRun calls. */
  function RunAll(db: Db, requests: seq<Request>, d: Digests): Db
    decreases |requests|
  {
    if requests == [] then db else RunAll(Persist(db, requests[0].run, requests[0].text, d).0, requests[1..], d)
  }

  lemma {:induction false} InvAlways(db: Db, requests: seq<Request>, d: Digests)
    requires Inv(db)
    ensures Inv(RunAll(db, requests, d))
    ensures forall key :: key in db.runs && key in db.results ==>
              key in RunAll(db, requests, d).runs && key in RunAll(db, requests, d).results &&
                RunAll(db, requests, d).results[key] == db.results[key]
    decreases |requests|
  {
    if requests != [] {
      PersistKeeps(db, requests[0].run, requests[0].text, d);
      InvAlways(Persist(db, requests[0].run, requests[0].text, d).0, requests[1..], d);
    }
  }

  /** Persisting a run again, after any other runs and with any other events, writes nothing and
      returns the first call's run and outbox ids in the first call's order. */
  lemma ReplayReturnsFirst(db: Db, run: RunInput, text: Printer, later: seq<Request>, again: RunInput, text': Printer,
    d: Digests)
    requires Inv(db) && RunValid(again) && again.orgId == run.orgId && again.requestId == run.requestId
    ensures var (db1, first) := Persist(db, run, text, d);
            var db2 := RunAll(db1, later, d);
            first.Some? && !first.value.replayed ==>
              Persist(db2, again, text', d) == (db2, Some(first.value.(replayed := true)))
  {
    var (db1, first) := Persist(db, run, text, d);
    if first.None? || first.value.replayed { return; }
    var key := (run.orgId, run.requestId);
    PersistKeeps(db, run, text, d);
    InvAlways(db1, later, d);
    var db2 := RunAll(db1, later, d);
    assert KeyOk(db2, key);
    SortInOrder(Filter(db2.outbox, key));
  }

  // ---------------------------------------------------------------- what the relay makes of it

  predicate SolidEnds(s: string) {
    |s| > 0 && !IsSpace(s[0]) && !IsSpace(s[|s| - 1])
  }

  lemma SolidNotTrimmed(s: string)
    requires SolidEnds(s)
    ensures TrimSpace(s) == s
  {
  }

  predicate GoodEvent(ev: Event) {
    SolidEnds(ev.kind) && !Reserved(ev.fields)
  }

  lemma RunEventGood(run: RunInput, runId: string)
    ensures GoodEvent(RunEvent(run, runId))
  {
    var f := RunEvent(run, runId).fields;
    assert "redaction_class" !in f;
    assert "tombstone_fence" !in f;
  }

  lemma SpanEventGood(run: RunInput, runId: string, sp: Span)
    ensures GoodEvent(SpanEvent(run, runId, sp))
  {
    var f := SpanEvent(run, runId, sp).fields;
    assert "redaction_class" !in f;
    assert "tombstone_fence" !in f;
  }

  lemma SessionEventGood(run: RunInput, se: SessionEvent)
    ensures GoodEvent(SessionEventOf(run, se))
  {
    var f := SessionEventOf(run, se).fields;
    assert "redaction_class" !in f;
    assert "tombstone_fence" !in f;
  }

  lemma PartEventGood(run: RunInput, runId: string, kind: string, extra: map<string, Json>, childOk: bool)
    requires SolidEnds(kind) && !Reserved(extra)
    ensures GoodEvent(PartEvent(run, runId, kind, extra, childOk))
  {
    var f := map["run_id" := JStr(runId), "request_id" := JStr(run.requestId), "trace_id" := JStr(run.traceId)];
    assert "redaction_class" !in f;
    assert "tombstone_fence" !in f;
  }

  lemma {:induction false} SpansGood(run: RunInput, runId: string, n: nat)
    requires n <= |run.spans|
    ensures forall ev :: ev in SpanEvents(run, runId, n) ==> GoodEvent(ev)
  {
    if n > 0 {
      SpansGood(run, runId, n - 1);
      SpanEventGood(run, runId, run.spans[n - 1]);
    }
  }

  lemma {:induction false} ToolsGood(run: RunInput, runId: string, n: nat)
    requires n <= |run.tools|
    ensures forall ev :: ev in ToolEvents(run, runId, n) ==> GoodEvent(ev)
  {
    if n > 0 {
      ToolsGood(run, runId, n - 1);
      var t := run.tools[n - 1];
      var extra := map["tool_name" := JStr(t.name), "idempotency_key" := JStr(t.idempotencyKey)];
      assert "redaction_class" !in extra && "tombstone_fence" !in extra;
      PartEventGood(run, runId, TOOL_AUDIT, extra, t.childOk);
    }
  }

  lemma {:induction false} SessionsGood(run: RunInput, n: nat)
    requires n <= |run.sessionEvents|
    ensures forall ev :: ev in SessionEvents(run, n) ==> GoodEvent(ev)
  {
    if n > 0 {
      SessionsGood(run, n - 1);
      SessionEventGood(run, run.sessionEvents[n - 1]);
    }
  }

  lemma MiddleGood(run: RunInput, runId: string)
    ensures forall ev :: ev in Middle(run, runId) ==> GoodEvent(ev)
  {
    if run.metrics.Some? {
      var extra := map["metrics" := run.metrics.value.value];
      assert "redaction_class" !in extra && "tombstone_fence" !in extra;
      PartEventGood(run, runId, ASSEMBLY_METRICS, extra, run.metrics.value.childOk);
    }
    var count := map["count" := JNum(|run.candidates|)];
    assert "redaction_class" !in count && "tombstone_fence" !in count;
    PartEventGood(run, runId, SCORE_CANDIDATES, count, AllOk(run.candidates));
    if run.directive.Some? {
      var v := run.directive.value;
      var extra := map["directive_version_id" := JStr(v.versionId), "content_hash" := JStr(v.contentHash)];
      assert "redaction_class" !in extra && "tombstone_fence" !in extra;
      PartEventGood(run, runId, DIRECTIVE_SNAPSHOT, extra, v.childOk);
    }
  }

  /** No event the writer builds uses a reserved field or a blank type. */
  lemma EventsGood(run: RunInput, runId: string)
    ensures forall ev :: ev in Events(run, runId) ==> GoodEvent(ev)
  {
    RunEventGood(run, runId);
    SpansGood(run, runId, |run.spans|);
    MiddleGood(run, runId);
    ToolsGood(run, runId, |run.tools|);
    SessionsGood(run, |run.sessionEvents|);
  }

  /** Digests are lower- or upper-case hexadecimal SHA-256 text. */
  ghost predicate HexDigests(d: Digests) {
    forall j :: d.jcs(j).Some? ==> IsHexDigest(d.jcs(j).value)
  }

  lemma HexSolid(s: string)
    requires IsHexDigest(s)
    ensures TrimSpace(s) == s
  {
    assert s[0] in s && s[|s| - 1] in s;
    SolidNotTrimmed(s);
  }

  predicate CarriesRun(c: Content, run: RunInput, d: Digests) {
    && ParseMetadata(c.payload) == (StoredClass(run), run.fence)
    && (Validate(c, d).Valid? <==> StoredClass(run) == METADATA && run.fence.Some? && !Blank(run.requestId))
  }

  lemma RowDeliverable(c: Content, run: RunInput, ev: Event, seqNo: nat, d: Digests)
    requires RunValid(run) && (run.fence.Some? ==> run.fence.value.resourceVersion <= MAX_INT64)
    requires HexDigests(d) && GoodEvent(ev) && seqNo >= 1 && RowFor(c, run, ev, seqNo, EncoderFor(run, d))
    ensures CarriesRun(c, run, d)
  {
    var cls := Resolve(run.cls, run.producer);
    assert Resolve(cls, run.producer) == cls;
    MetadataReadsBack(ev.fields, cls, run.fence, run.producer);
    HexSolid(c.digest);
    assert DigestValid(c, d);
    SolidNotTrimmed(c.eventType);
    SolidNotTrimmed(SCHEMA_VERSION);
  }

  /** A fresh run appends one row for each of its events, in order, numbered from one without a gap,
      and returns their ids in that order. */
  lemma PersistWrites(db: Db, run: RunInput, text: Printer, d: Digests)
    requires db.nextId > 0
    ensures var (db', r) := Persist(db, run, text, d);
            var evs := Events(run, text(db.nextId));
            r.Some? && !r.value.replayed ==>
              RunValid(run) &&
              Wrote(Begin(db), Tx(db'.outbox, db'.nextId, |evs|, r.value.outboxIds, true), run, evs, EncoderFor(run, d))
  {
    var evs := Events(run, text(db.nextId));
    EnqueueAllWrites(Begin(db), run, evs, EncoderFor(run, d));
    var tx := EnqueueAll(Begin(db), run, evs, EncoderFor(run, d));
    assert tx.ok ==> tx == Tx(tx.outbox, tx.nextId, |evs|, tx.ids, true);
  }

  /** What holds of every row for one of the events holds of every row written. */
  lemma RowsAll(tx: Tx, tx': Tx, run: RunInput, evs: seq<Event>, enc: Encoder, p: Content -> bool)
    requires Wrote(tx, tx', run, evs, enc)
    requires forall c, ev, n: nat :: ev in evs && RowFor(c, run, ev, n, enc) && n > tx.seqNo ==> p(c)
    ensures forall j :: |tx.outbox| <= j < |tx'.outbox| ==> p(tx'.outbox[j])
  {
    forall j | |tx.outbox| <= j < |tx'.outbox| ensures p(tx'.outbox[j]) {
      var k := j - |tx.outbox|;
      assert evs[k] in evs && WroteAt(tx, tx', run, evs[k], k, enc);
    }
  }

  lemma RowsCarry(db: Db, tx: Tx, run: RunInput, evs: seq<Event>, d: Digests)
    requires RunValid(run) && HexDigests(d) && (run.fence.Some? ==> run.fence.value.resourceVersion <= MAX_INT64)
    requires Wrote(Begin(db), tx, run, evs, EncoderFor(run, d)) && forall ev :: ev in evs ==> GoodEvent(ev)
    ensures forall j :: |db.outbox| <= j < |tx.outbox| ==> CarriesRun(tx.outbox[j], run, d)
  {
    var enc := EncoderFor(run, d);
    forall c, ev, n: nat | ev in evs && RowFor(c, run, ev, n, enc) && n > 0 ensures CarriesRun(c, run, d) {
      RowDeliverable(c, run, ev, n, d);
    }
    RowsAll(Begin(db), tx, run, evs, enc, c => CarriesRun(c, run, d));
  }

  /** Every row a run writes carries the run's class and fence, and is one the relay will show to its
      sink if and only if the class is metadata, a fence was given and the request id is not blank. */
  lemma WrittenRowsDeliverable(db: Db, run: RunInput, text: Printer, d: Digests)
    requires db.nextId > 0 && HexDigests(d) && (run.fence.Some? ==> run.fence.value.resourceVersion <= MAX_INT64)
    ensures var (db', r) := Persist(db, run, text, d);
            r.Some? && !r.value.replayed ==> forall j :: |db.outbox| <= j < |db'.outbox| ==>
              CarriesRun(db'.outbox[j], run, d)
  {
    var (db', r) := Persist(db, run, text, d);
    if r.None? || r.value.replayed { return; }
    var evs := Events(run, text(db.nextId));
    PersistWrites(db, run, text, d);
    EventsGood(run, text(db.nextId));
    RowsCarry(db, Tx(db'.outbox, db'.nextId, |evs|, r.value.outboxIds, true), run, evs, d);
  }

  // ---------------------------------------------------------------- which runs are written

  predicate StoresEvent(ev: Event, enc: Encoder) {
    ev.childOk && enc(ev).Some?
  }

  lemma {:induction false} EnqueueAllOk(tx: Tx, run: RunInput, evs: seq<Event>, enc: Encoder)
    ensures EnqueueAll(tx, run, evs, enc).ok <==> tx.ok && forall ev :: ev in evs ==> StoresEvent(ev, enc)
    decreases |evs|
  {
    if evs != [] {
      var n := |evs| - 1;
      EnqueueAllOk(tx, run, evs[..n], enc);
      assert evs[n] in evs && forall ev :: ev in evs <==> ev in evs[..n] || ev == evs[n];
    }
  }

  /** The payload of an event whose class is supported, as it is digested. */
  function Payload(run: RunInput, ev: Event): Option<map<string, Json>> {
    Marshal(ev.fields, Resolve(run.cls, run.producer), run.fence, run.producer)
  }

  lemma PayloadExactly(run: RunInput, ev: Event)
    requires RunValid(run) && !Reserved(ev.fields)
    ensures Payload(run, ev).Some? <==> Supported(StoredClass(run))
  {
    var c := Resolve(run.cls, run.producer);
    assert Resolve(c, run.producer) == c;
  }

  /** The event's own insert succeeds and its payload, if it has one, has a digest. */
  predicate Succeeds(run: RunInput, d: Digests, ev: Event) {
    ev.childOk && (Payload(run, ev).Some? ==> d.jcs(JObj(Payload(run, ev).value)).Some?)
  }

  lemma StoresExactly(run: RunInput, d: Digests, ev: Event)
    requires RunValid(run) && !Reserved(ev.fields)
    ensures StoresEvent(ev, EncoderFor(run, d)) <==> Supported(StoredClass(run)) && Succeeds(run, d, ev)
  {
    PayloadExactly(run, ev);
  }

  ghost predicate AllSucceed(run: RunInput, runId: string, d: Digests) {
    forall ev :: ev in Events(run, runId) ==> Succeeds(run, d, ev)
  }

  lemma AllStored(run: RunInput, runId: string, d: Digests)
    requires RunValid(run)
    ensures (forall ev :: ev in Events(run, runId) ==> StoresEvent(ev, EncoderFor(run, d))) <==>
            Supported(StoredClass(run)) && AllSucceed(run, runId, d)
  {
    EventsGood(run, runId);
    var evs := Events(run, runId);
    forall ev | ev in evs
      ensures StoresEvent(ev, EncoderFor(run, d)) <==> Supported(StoredClass(run)) && Succeeds(run, d, ev)
    {
      StoresExactly(run, d, ev);
    }
    assert evs[0] in evs;
  }

  /** A run is written if and only if it is valid and new, its class is a supported one and its inserts and
      digests succeed. */
  lemma PersistsExactly(db: Db, run: RunInput, text: Printer, d: Digests)
    ensures var r := Persist(db, run, text, d).1;
            r.Some? && !r.value.replayed <==>
            && RunValid(run) && (run.orgId, run.requestId) !in db.runs
            && Supported(StoredClass(run)) && AllSucceed(run, text(db.nextId), d)
  {
    if RunValid(run) {
      EnqueueAllOk(Begin(db), run, Events(run, text(db.nextId)), EncoderFor(run, d));
      AllStored(run, text(db.nextId), d);
    }
  }

  /** The relay shows no row of the run to its sink. */
  predicate Undeliverable(run: RunInput) {
    StoredClass(run) != METADATA || run.fence.None? || Blank(run.requestId)
  }

  /** Of an undeliverable run that is written, rows are written and every one fails the relay's checks. */
  lemma UndeliverableWritten(db: Db, run: RunInput, text: Printer, d: Digests)
    requires db.nextId > 0 && HexDigests(d) && (run.fence.Some? ==> run.fence.value.resourceVersion <= MAX_INT64)
    requires RunValid(run) && Undeliverable(run) && (run.orgId, run.requestId) !in db.runs
    requires Supported(StoredClass(run)) && AllSucceed(run, text(db.nextId), d)
    ensures var (db', r) := Persist(db, run, text, d);
            && r.Some? && !r.value.replayed && |db'.outbox| > |db.outbox|
            && forall j :: |db.outbox| <= j < |db'.outbox| ==> !Validate(db'.outbox[j], d).Valid?
  {
    PersistsExactly(db, run, text, d);
    PersistWrites(db, run, text, d);
    WrittenRowsDeliverable(db, run, text, d);
    var db' := Persist(db, run, text, d).0;
    forall j | |db.outbox| <= j < |db'.outbox| ensures !Validate(db'.outbox[j], d).Valid? {
      assert CarriesRun(db'.outbox[j], run, d);
    }
  }

  /** A run that is nothing but its own event. */
  function BareRun(requestId: string, cls: string, fence: Option<Fence>, producer: Option<Producer>): RunInput {
    RunInput(1, requestId, "", "", "", "", "", JNull, true, true, cls, fence, producer, [], None, [], None, [], [])
  }

  /** Without a class, producer or fence. */
  const UNCLASSIFIED_RUN := BareRun("r", "", None, None)

  /** Classified and fenced, under a request id that is a space. */
  const BLANK_RUN := BareRun(" ", METADATA, Some(Fence("t", "i", 1)), Some(Producer(METADATA, "v", "t", "i", 1, "s")))

  lemma BareEvents(run: RunInput, runId: string)
    requires run.spans == [] && run.metrics.None? && run.candidates == [] && run.directive.None? && run.tools == []
    requires run.sessionEvents == []
    ensures Events(run, runId) == [RunEvent(run, runId)]
  {
  }

  lemma UnclassifiedValid()
    ensures RunValid(UNCLASSIFIED_RUN) && StoredClass(UNCLASSIFIED_RUN) == UNCLASSIFIED
    ensures Undeliverable(UNCLASSIFIED_RUN)
  {
    assert UNCLASSIFIED != METADATA by { assert UNCLASSIFIED[0] != METADATA[0]; }
  }

  lemma BlankValid()
    ensures RunValid(BLANK_RUN) && StoredClass(BLANK_RUN) == METADATA && Undeliverable(BLANK_RUN)
  {
    var t, i := "t", "i";
    assert METADATA[0] == 'm' && METADATA != UNCLASSIFIED;
    assert !Blank(t) && !Blank(i) && Blank(" ");
  }

  /** The writer accepts both, in any database that does not have them yet, and the relay's checks reject
      what it wrote. */
  lemma WriterAcceptsMore(db: Db, run: RunInput, text: Printer, d: Digests)
    requires db.nextId > 0 && HexDigests(d) && forall j :: d.jcs(j).Some?
    requires (run == UNCLASSIFIED_RUN || run == BLANK_RUN) && (run.orgId, run.requestId) !in db.runs
    ensures var (db', r) := Persist(db, run, text, d);
            && r.Some? && !r.value.replayed && |db'.outbox| > |db.outbox|
            && forall j :: |db.outbox| <= j < |db'.outbox| ==> !Validate(db'.outbox[j], d).Valid?
  {
    UnclassifiedValid();
    BlankValid();
    BareEvents(run, text(db.nextId));
    UndeliverableWritten(db, run, text, d);
  }

  // ---------------------------------------------------------------- the code

  /** Sequences one run's rows inside its transaction. */
  class RunWriter {
    var tx: Tx
    const run: RunInput
    const runId: string
    const enc: Encoder

    constructor (tx: Tx, run: RunInput, runId: string, enc: Encoder)
      ensures this.tx == tx && this.run == run && this.runId == runId && this.enc == enc
    {
      this.tx, this.run, this.runId, this.enc := tx, run, runId, enc;
    }

    method EnqueueEvent(ev: Event)
      modifies this
      ensures tx == Enqueue(old(tx), run, ev, enc)
    {
      if !tx.ok { return; }
      if !ev.childOk { tx := tx.(ok := false); return; }
      var encoded := enc(ev);
      if encoded.None? { tx := tx.(ok := false); return; }
      var eventId, rowId, seqNo := tx.nextId, tx.nextId + 1, tx.seqNo + 1;
      var row := Content(rowId, run.orgId, eventId, run.requestId, seqNo, SCHEMA_VERSION, ev.kind,
        encoded.value.payload, encoded.value.digest, JCS);
      tx := Tx(tx.outbox + [row], tx.nextId + 2, seqNo, tx.ids + [rowId], true);
    }

    method WriteSpans()
      modifies this
      ensures tx == EnqueueAll(old(tx), run, SpanEvents(run, runId, |run.spans|), enc)
    {
      for i := 0 to |run.spans|
        invariant tx == EnqueueAll(old(tx), run, SpanEvents(run, runId, i), enc)
      {
        var ev := SpanEvent(run, runId, run.spans[i]);
        EnqueueAllSnoc(old(tx), run, SpanEvents(run, runId, i), ev, enc);
        EnqueueEvent(ev);
      }
    }

    method WriteMiddle()
      modifies this
      ensures tx == EnqueueAll(old(tx), run, Middle(run, runId), enc)
    {
      var m, c, v := MetricsEvents(run, runId), CandidateEvents(run, runId), DirectiveEvents(run, runId);
      ghost var t0 := tx;
      if run.metrics.Some? { EnqueueEvent(m[0]); }
      assert tx == EnqueueAll(t0, run, m, enc) by { OneEvent(t0, m); }
      ghost var t1 := tx;
      if |run.candidates| > 0 { EnqueueEvent(c[0]); }
      assert tx == EnqueueAll(t1, run, c, enc) by { OneEvent(t1, c); }
      ghost var t2 := tx;
      if run.directive.Some? { EnqueueEvent(v[0]); }
      assert tx == EnqueueAll(t2, run, v, enc) by { OneEvent(t2, v); }
      EnqueueAllConcat(t0, run, m, c, enc);
      EnqueueAllConcat(t0, run, m + c, v, enc);
    }

    method WriteTools()
      modifies this
      ensures tx == EnqueueAll(old(tx), run, ToolEvents(run, runId, |run.tools|), enc)
    {
      for i := 0 to |run.tools|
        invariant tx == EnqueueAll(old(tx), run, ToolEvents(run, runId, i), enc)
      {
        var ev := ToolEvent(run, runId, run.tools[i]);
        EnqueueAllSnoc(old(tx), run, ToolEvents(run, runId, i), ev, enc);
        EnqueueEvent(ev);
      }
    }

    method WriteSessionEvents()
      modifies this
      ensures tx == EnqueueAll(old(tx), run, SessionEvents(run, |run.sessionEvents|), enc)
    {
      for i := 0 to |run.sessionEvents|
        invariant tx == EnqueueAll(old(tx), run, SessionEvents(run, i), enc)
      {
        var ev := SessionEventOf(run, run.sessionEvents[i]);
        EnqueueAllSnoc(old(tx), run, SessionEvents(run, i), ev, enc);
        EnqueueEvent(ev);
      }
    }

    method PersistAll()
      modifies this
      ensures tx == EnqueueAll(old(tx), run, Events(run, runId), enc)
    {
      ghost var t0 := tx;
      var first := [RunEvent(run, runId)];
      EnqueueEvent(first[0]);
      OneEvent(t0, first);
      WriteSpans();
      WriteMiddle();
      WriteTools();
      WriteSessionEvents();
      ghost var s, m, t, e := SpanEvents(run, runId, |run.spans|), Middle(run, runId),
        ToolEvents(run, runId, |run.tools|), SessionEvents(run, |run.sessionEvents|);
      EnqueueAllConcat(t0, run, first, s, enc);
      EnqueueAllConcat(t0, run, first + s, m, enc);
      EnqueueAllConcat(t0, run, first + s + m, t, enc);
      EnqueueAllConcat(t0, run, first + s + m + t, e, enc);
    }

    lemma OneEvent(t: Tx, evs: seq<Event>)
      requires |evs| <= 1
      ensures EnqueueAll(t, run, evs, enc) == if evs == [] then t else Enqueue(t, run, evs[0], enc)
    {
      if evs != [] { assert evs[..0] == []; }
    }
  }

  lemma EnqueueAllSnoc(tx: Tx, run: RunInput, evs: seq<Event>, ev: Event, enc: Encoder)
    ensures EnqueueAll(tx, run, evs + [ev], enc) == Enqueue(EnqueueAll(tx, run, evs, enc), run, ev, enc)
  {
    assert (evs + [ev])[..|evs|] == evs;
  }

  lemma {:induction false} EnqueueAllConcat(tx: Tx, run: RunInput, a: seq<Event>, b: seq<Event>, enc: Encoder)
    ensures EnqueueAll(tx, run, a + b, enc) == EnqueueAll(EnqueueAll(tx, run, a, enc), run, b, enc)
    decreases |b|
  {
    if b == [] {
      assert a + b == a;
    } else {
      var n := |b| - 1;
      assert (a + b)[..|a + b| - 1] == a + b[..n] && (a + b)[|a + b| - 1] == b[n];
      EnqueueAllConcat(tx, run, a, b[..n], enc);
    }
  }

  class Store {
    var db: Db
    const text: Printer
    const d: Digests

    constructor (text: Printer, d: Digests)
      ensures db == Db(map[], [], 1, map[]) && this.text == text && this.d == d
    {
      db := Db(map[], [], 1, map[]);
      this.text, this.d := text, d;
    }

    /** Validates, replays or writes; the tables change only when every insert succeeded. */
    method PersistRun(run: RunInput) returns (r: Option<Result>)
      modifies this
      ensures (db, r) == Persist(old(db), run, text, d)
      ensures r.None? ==> db == old(db)
    {
      if !RunValid(run) { return None; }
      var key := (run.orgId, run.requestId);
      var found := FindExisting(db, key);
      if found.Some? { return found; }
      var runId := db.nextId;
      var w := new RunWriter(Begin(db), run, text(runId), EncoderFor(run, d));
      w.PersistAll();
      if !w.tx.ok { return None; }
      var result := Result(runId, w.tx.ids, run.requestId, false);
      db := Db(db.runs[key := runId], w.tx.outbox, w.tx.nextId, db.results[key := result]);
      r := Some(result);
    }
  }
}
