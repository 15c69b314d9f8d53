/**
 The transactional outbox as a labelled step system.

 The state holds the committed table, the open transactions of any number of workers and what
 each sink has accepted. A step is one call a worker or a producer makes, with its outcome; a
 failed transaction loses its marks but never takes back what a sink has accepted.
 */
module OutboxProtocol {
  import opened Options

  type RowId = nat
  type WorkerId = nat
  type Time = int
  type Payload = string

  /** A committed row of ontology_outbox. */
  datatype Row = Row(payload: Payload, createdAt: Time, deliveredAt: Option<Time>)

  datatype Sink = Kafka | TripleStore

  /** `kafka` says that a producer and a topic are set, `triple` that a triple-store client is. */
  datatype Config = Config(kafka: bool, triple: bool, batchSize: nat)

  /** A sink call that returned nil, with the row on whose behalf it was made. */
  datatype Delivery = Delivery(row: RowId, payload: Payload)

  /** What the worker does next for the current row of its batch. */
  datatype Stage = AtKafka | AtTripleStore | AtMark

  /** An open transaction: `next` rows are marked, and `marks` are visible to nobody else. */
  datatype Tx = Tx(startedAt: Time, batch: seq<RowId>, next: nat, stage: Stage, marks: set<RowId>)

  datatype State = State(
    rows: map<RowId, Row>,
    order: seq<RowId>,           // history: the ids in the order they were inserted
    open: map<WorkerId, Tx>,
    kafka: seq<Delivery>,
    triples: seq<Delivery>,
    lostKafka: multiset<RowId>,  // history: one entry per rolled-back batch that had served the row
    lostTriples: multiset<RowId>)

  datatype Step =
    | Enqueue(id: RowId, payload: Payload, createdAt: Time)
    | Begin(worker: WorkerId, now: Time, batch: seq<RowId>)  // BeginTx and the locking SELECT
    | Call(worker: WorkerId)                                 // the due sink call returned nil
    | Pass(worker: WorkerId)                                 // dispatch does not call the due sink
    | Mark(worker: WorkerId)
    | Commit(worker: WorkerId, acknowledged: bool)           // committed, the reply may be lost
    | Abort(worker: WorkerId)                                // any failed call, or a crash

  const INIT := State(map[], [], map[], [], [], multiset{}, multiset{})

  function Log(s: State, sink: Sink): seq<Delivery> {
    if sink == Kafka then s.kafka else s.triples
  }

  function Lost(s: State, sink: Sink): multiset<RowId> {
    if sink == Kafka then s.lostKafka else s.lostTriples
  }

  /** Whether dispatch calls the sink for a payload. */
  predicate Uses(c: Config, sink: Sink, payload: Payload) {
    payload != "" && (if sink == Kafka then c.kafka else c.triple)
  }

  predicate NoDuplicates<T(==)>(s: seq<T>) {
    forall i, j :: 0 <= i < j < |s| ==> s[i] != s[j]
  }

  predicate Locked(s: State, r: RowId) {
    exists w :: w in s.open && r in s.open[w].batch
  }

  function Eligible(s: State): set<RowId> {
    set r | r in s.rows && s.rows[r].deliveredAt == None && !Locked(s, r)
  }

  /** `batch` is a possible answer to ORDER BY created_at LIMIT over the candidates; ties go either way. */
  predicate OldestOf(rows: map<RowId, Row>, candidates: set<RowId>, limit: nat, batch: seq<RowId>) {
    && NoDuplicates(batch)
    && |batch| <= limit
    && (forall i :: 0 <= i < |batch| ==> batch[i] in candidates && batch[i] in rows)
    && (forall i, j :: 0 <= i < j < |batch| ==> rows[batch[i]].createdAt <= rows[batch[j]].createdAt)
    && (forall r, i :: r in candidates && r in rows && r !in batch && 0 <= i < |batch| ==>
          rows[batch[i]].createdAt <= rows[r].createdAt)
    && (|batch| < limit ==> forall r :: r in candidates ==> r in batch)
  }

  predicate Busy(s: State, w: WorkerId) {
    && w in s.open
    && s.open[w].next < |s.open[w].batch|
    && s.open[w].batch[s.open[w].next] in s.rows
  }

  function Current(s: State, w: WorkerId): RowId
    requires Busy(s, w)
  {
    s.open[w].batch[s.open[w].next]
  }

  function DueSink(stage: Stage): Sink {
    if stage == AtKafka then Kafka else TripleStore
  }

  function After(stage: Stage): Stage {
    if stage == AtKafka then AtTripleStore else AtMark
  }

  /** The worker is about to call the due sink. */
  predicate Calling(c: Config, s: State, w: WorkerId) {
    && Busy(s, w)
    && s.open[w].stage != AtMark
    && Uses(c, DueSink(s.open[w].stage), s.rows[Current(s, w)].payload)
  }

  predicate Enabled(c: Config, s: State, step: Step) {
    match step
    case Enqueue(id, _, _) => id !in s.rows
    case Begin(w, _, batch) => w !in s.open && OldestOf(s.rows, Eligible(s), c.batchSize, batch)
    case Call(w) => Calling(c, s, w)
    case Pass(w) => Busy(s, w) && s.open[w].stage != AtMark && !Calling(c, s, w)
    case Mark(w) => Busy(s, w) && s.open[w].stage == AtMark
    case Commit(w, _) => w in s.open && s.open[w].next == |s.open[w].batch|
    case Abort(w) => w in s.open
  }

  /** The rows of the batch that the sink has been passed for in this transaction. */
  function Served(tx: Tx, sink: Sink): seq<RowId> {
    var past := if sink == Kafka then tx.stage != AtKafka else tx.stage == AtMark;
    var n := tx.next + (if past then 1 else 0);
    if n <= |tx.batch| then tx.batch[..n] else tx.batch
  }

  function Marked(rows: map<RowId, Row>, marks: set<RowId>, at: Time): map<RowId, Row> {
    map r | r in rows :: if r in marks then rows[r].(deliveredAt := Some(at)) else rows[r]
  }

  function Accept(s: State, sink: Sink, d: Delivery): State {
    if sink == Kafka then s.(kafka := s.kafka + [d]) else s.(triples := s.triples + [d])
  }

  function Apply(c: Config, s: State, step: Step): State
    requires Enabled(c, s, step)
  {
    match step
    case Enqueue(id, payload, createdAt) =>
      s.(rows := s.rows[id := Row(payload, createdAt, None)], order := s.order + [id])
    case Begin(w, now, batch) =>
      s.(open := s.open[w := Tx(now, batch, 0, AtKafka, {})])
    case Call(w) =>
      var tx := s.open[w];
      var id := Current(s, w);
      Accept(s.(open := s.open[w := tx.(stage := After(tx.stage))]),
             DueSink(tx.stage), Delivery(id, s.rows[id].payload))
    case Pass(w) =>
      var tx := s.open[w];
      s.(open := s.open[w := tx.(stage := After(tx.stage))])
    case Mark(w) =>
      var tx := s.open[w];
      s.(open := s.open[w := tx.(next := tx.next + 1, stage := AtKafka, marks := tx.marks + {Current(s, w)})])
    case Commit(w, _) =>
      var tx := s.open[w];
      s.(rows := Marked(s.rows, tx.marks, tx.startedAt), open := s.open - {w})
    case Abort(w) =>
      var tx := s.open[w];
      s.(open := s.open - {w},
         lostKafka := s.lostKafka + multiset(Served(tx, Kafka)),
         lostTriples := s.lostTriples + multiset(Served(tx, TripleStore)))
  }

  ghost predicate ValidRun(c: Config, s: State, steps: seq<Step>)
    decreases |steps|
  {
    steps == [] || (Enabled(c, s, steps[0]) && ValidRun(c, Apply(c, s, steps[0]), steps[1..]))
  }

  ghost function Exec(c: Config, s: State, steps: seq<Step>): State
    requires ValidRun(c, s, steps)
    decreases |steps|
  {
    if steps == [] then s else Exec(c, Apply(c, s, steps[0]), steps[1..])
  }

  lemma RunHead(c: Config, s: State, step: Step, rest: seq<Step>)
    requires Enabled(c, s, step) && ValidRun(c, Apply(c, s, step), rest)
    ensures ValidRun(c, s, [step] + rest)
    ensures Exec(c, s, [step] + rest) == Exec(c, Apply(c, s, step), rest)
  {
    assert ([step] + rest)[1..] == rest;
  }

  lemma HeadFirst<T>(a: seq<T>, b: seq<T>)
    requires a != []
    ensures [a[0]] + (a[1..] + b) == a + b
  {
  }

  /** Runs compose. */
  lemma {:induction false} RunConcat(c: Config, s: State, a: seq<Step>, b: seq<Step>)
    requires ValidRun(c, s, a) && ValidRun(c, Exec(c, s, a), b)
    ensures ValidRun(c, s, a + b)
    ensures Exec(c, s, a + b) == Exec(c, Exec(c, s, a), b)
    decreases |a|
  {
    if a == [] {
      assert a + b == b;
    } else {
      RunConcat(c, Apply(c, s, a[0]), a[1..], b);
      RunHead(c, s, a[0], a[1..] + b);
      HeadFirst(a, b);
    }
  }

  /** Runs split. */
  lemma {:induction false} RunPrefix(c: Config, s: State, steps: seq<Step>, k: nat)
    requires ValidRun(c, s, steps) && k <= |steps|
    ensures ValidRun(c, s, steps[..k])
    ensures ValidRun(c, Exec(c, s, steps[..k]), steps[k..])
    decreases k
  {
    if k == 0 {
      assert steps[..0] == [] && steps[0..] == steps;
    } else {
      RunPrefix(c, Apply(c, s, steps[0]), steps[1..], k - 1);
      RunHead(c, s, steps[0], steps[1..][..k - 1]);
      assert [steps[0]] + steps[1..][..k - 1] == steps[..k] && steps[1..][k - 1..] == steps[k..];
    }
  }

  /** The state in which step number `k` of a run is taken. */
  ghost function StateAt(c: Config, steps: seq<Step>, k: nat): State
    requires ValidRun(c, INIT, steps) && k <= |steps|
  {
    RunPrefix(c, INIT, steps, k);
    Exec(c, INIT, steps[..k])
  }

  lemma StateAfter(c: Config, steps: seq<Step>, k: nat)
    requires ValidRun(c, INIT, steps) && k < |steps|
    ensures Enabled(c, StateAt(c, steps, k), steps[k])
    ensures StateAt(c, steps, k + 1) == Apply(c, StateAt(c, steps, k), steps[k])
  {
    var s := StateAt(c, steps, k);
    RunPrefix(c, INIT, steps, k);
    assert steps[k..][0] == steps[k];
    OneStep(c, s, steps[k]);
    RunConcat(c, INIT, steps[..k], [steps[k]]);
    assert steps[..k + 1] == steps[..k] + [steps[k]];
  }

  lemma OneStep(c: Config, s: State, step: Step)
    requires Enabled(c, s, step)
    ensures ValidRun(c, s, [step]) && Exec(c, s, [step]) == Apply(c, s, step)
  {
    var rest := [step][1..];
    assert rest == [];
    assert ValidRun(c, Apply(c, s, step), rest) && Exec(c, Apply(c, s, step), rest) == Apply(c, s, step);
  }
}
