/**
 The worker program: ProcessBatch and Run as they are written, against a database and two sinks that
 are shared with any number of other workers and producers. Every run of the program, with any
 failure and any interference, is shown to be a run of the step system.
 */
module OutboxWorker {
  import opened OutboxProtocol
  import opened OutboxInvariant

  datatype Record = Record(id: RowId, event: Payload)

  datatype Outcome = Succeeded | Failed

  /** How the transaction of one ProcessBatch call ends. */
  datatype End = NotBegun | Committed(acknowledged: bool) | RolledBack

  /** The calls of one poll that fail; a row is named by its place in the batch. */
  datatype Fault =
    | BeginFails | SelectFails | ScanFails(row: nat) | IterationFails
    | SinkFails(sink: Sink, row: nat) | MarkFails(row: nat)
    | CommitFails  // refused, so rolled back
    | ReplyLost    // it took effect, and the answer is an error

  predicate ActsFor(step: Step, w: WorkerId) {
    !step.Enqueue? && step.worker == w
  }

  /** The steps of a run that belong to one worker. */
  ghost function Own(steps: seq<Step>, w: WorkerId): seq<Step> {
    if steps == [] then []
    else Own(steps[..|steps| - 1], w) + (if ActsFor(steps[|steps| - 1], w) then [steps[|steps| - 1]] else [])
  }

  lemma {:induction false} OwnConcat(a: seq<Step>, b: seq<Step>, w: WorkerId)
    ensures Own(a + b, w) == Own(a, w) + Own(b, w)
    decreases |b|
  {
    if b == [] {
      assert a + b == a;
    } else {
      var n := |b| - 1;
      OwnConcat(a, b[..n], w);
      assert (a + b)[..|a + b| - 1] == a + b[..n];
    }
  }

  ghost predicate Ran(c: Config, s: State, steps: seq<Step>, s': State) {
    ValidRun(c, s, steps) && Exec(c, s, steps) == s'
  }

  lemma RunKeepsInvFromInit(c: Config, steps: seq<Step>)
    requires ValidRun(c, INIT, steps)
    ensures Inv(c, Exec(c, INIT, steps))
  {
    InitInv(c);
    RunKeepsInv(c, INIT, steps);
  }

  /** One step of another leaves a worker's transaction and every payload alone. */
  lemma OtherKeepsTx(c: Config, s: State, step: Step, w: WorkerId)
    requires Enabled(c, s, step) && !ActsFor(step, w)
    ensures var s' := Apply(c, s, step);
            && (w in s.open <==> w in s'.open) && (w in s.open ==> s'.open[w] == s.open[w])
            && (forall r :: r in s.rows ==> r in s'.rows && s'.rows[r].payload == s.rows[r].payload)
            && s.kafka <= s'.kafka && s.triples <= s'.triples
  {
  }

  /** Steps of others leave a worker's transaction and every payload alone. */
  lemma {:induction false} OthersKeepTx(c: Config, s: State, steps: seq<Step>, w: WorkerId)
    requires ValidRun(c, s, steps)
    requires forall step :: step in steps ==> !ActsFor(step, w)
    ensures var s' := Exec(c, s, steps);
            && (w in s.open <==> w in s'.open) && (w in s.open ==> s'.open[w] == s.open[w])
            && (forall r :: r in s.rows ==> r in s'.rows && s'.rows[r].payload == s.rows[r].payload)
            && s.kafka <= s'.kafka && s.triples <= s'.triples
    decreases |steps|
  {
    if steps != [] {
      OtherKeepsTx(c, s, steps[0], w);
      OthersKeepTx(c, Apply(c, s, steps[0]), steps[1..], w);
    }
  }

  lemma {:induction false} NotOwn(steps: seq<Step>, w: WorkerId)
    requires forall step :: step in steps ==> !ActsFor(step, w)
    ensures Own(steps, w) == []
  {
    if steps != [] {
      NotOwn(steps[..|steps| - 1], w);
    }
  }

  /** The earliest created of the candidates, as ORDER BY created_at sees it. */
  method Oldest(rows: map<RowId, Row>, candidates: set<RowId>) returns (oldest: RowId)
    requires candidates != {} && forall r :: r in candidates ==> r in rows
    ensures oldest in candidates
    ensures forall r :: r in candidates ==> rows[oldest].createdAt <= rows[r].createdAt
  {
    oldest :| oldest in candidates;
    var rest := candidates - {oldest};
    while rest != {}
      invariant rest <= candidates && oldest in candidates
      invariant forall r :: r in candidates && r !in rest ==> rows[oldest].createdAt <= rows[r].createdAt
      decreases rest
    {
      var r :| r in rest;
      if rows[r].createdAt < rows[oldest].createdAt {
        oldest := r;
      }
      rest := rest - {r};
    }
  }

  /** ORDER BY created_at LIMIT over the candidates. */
  method SelectOldest(rows: map<RowId, Row>, candidates: set<RowId>, limit: nat) returns (batch: seq<RowId>)
    requires forall r :: r in candidates ==> r in rows
    ensures OldestOf(rows, candidates, limit, batch)
  {
    batch := [];
    var rest := candidates;
    while |batch| < limit && rest != {}
      invariant rest <= candidates && |batch| <= limit && NoDuplicates(batch)
      invariant forall i :: 0 <= i < |batch| ==> batch[i] in candidates && batch[i] !in rest
      invariant forall r :: r in candidates ==> r in rest || r in batch
      invariant forall i, j :: 0 <= i < j < |batch| ==> rows[batch[i]].createdAt <= rows[batch[j]].createdAt
      invariant forall i, r :: 0 <= i < |batch| && r in rest ==> rows[batch[i]].createdAt <= rows[r].createdAt
      decreases rest
    {
      var next := Oldest(rows, rest);
      batch := batch + [next];
      rest := rest - {next};
    }
  }

  function Ids(batch: seq<Record>): seq<RowId> {
    seq(|batch|, i requires 0 <= i < |batch| => batch[i].id)
  }

  /** The rows as the SELECT returns them. */
  function Records(table: map<RowId, Row>, ids: seq<RowId>): (records: seq<Record>)
    requires forall i :: 0 <= i < |ids| ==> ids[i] in table
    ensures Ids(records) == ids
    ensures forall i :: 0 <= i < |records| ==>
              records[i].id in table && table[records[i].id].payload == records[i].event
  {
    seq(|ids|, i requires 0 <= i < |ids| => Record(ids[i], table[ids[i]].payload))
  }

  function IdSet(batch: seq<Record>): set<RowId> {
    set r | r in Ids(batch)
  }

  /** The worker's transaction holds the batch with `k` rows marked, and the records show the rows' payloads. */
  ghost predicate Holds(s: State, w: WorkerId, now: Time, batch: seq<Record>, k: nat, stage: Stage) {
    && w in s.open
    && s.open[w].startedAt == now && s.open[w].batch == Ids(batch)
    && s.open[w].next == k && s.open[w].stage == stage
    && forall i :: 0 <= i < |batch| ==> batch[i].id in s.rows && s.rows[batch[i].id].payload == batch[i].event
  }

  /** What dispatch does for one sink, as a step. */
  function SinkStep(c: Config, w: WorkerId, sink: Sink, payload: Payload): Step {
    if Uses(c, sink, payload) then Call(w) else Pass(w)
  }

  /** Kafka first, then the triple store, then the mark. */
  function RowSteps(c: Config, w: WorkerId, payload: Payload): seq<Step> {
    [SinkStep(c, w, Kafka, payload), SinkStep(c, w, TripleStore, payload), Mark(w)]
  }

  function DispatchSteps(c: Config, w: WorkerId, batch: seq<Record>): seq<Step> {
    if batch == [] then []
    else DispatchSteps(c, w, batch[..|batch| - 1]) + RowSteps(c, w, batch[|batch| - 1].event)
  }

  function StepsTaken(stage: Stage): nat {
    match stage case AtKafka => 0 case AtTripleStore => 1 case AtMark => 2
  }

  /** What a worker has done for a batch with `k` rows marked and the current row at `stage`. */
  ghost function Progress(c: Config, w: WorkerId, now: Time, batch: seq<Record>, k: nat, stage: Stage): seq<Step>
    requires k <= |batch|
  {
    [Begin(w, now, Ids(batch))] + DispatchSteps(c, w, batch[..k])
    + (if k < |batch| then RowSteps(c, w, batch[k].event)[..StepsTaken(stage)] else [])
  }

  ghost function WholeBatch(c: Config, w: WorkerId, now: Time, batch: seq<Record>): seq<Step> {
    [Begin(w, now, Ids(batch))] + DispatchSteps(c, w, batch)
  }

  /** The own steps of one ProcessBatch call: none, everything and a commit, or a part of it and a rollback. */
  ghost predicate BatchRun(c: Config, w: WorkerId, now: Time, batch: seq<Record>, own: seq<Step>, end: End) {
    match end
    case NotBegun => own == []
    case Committed(acknowledged) => own == WholeBatch(c, w, now, batch) + [Commit(w, acknowledged)]
    case RolledBack =>
      own != [] && own[|own| - 1] == Abort(w) && own[..|own| - 1] <= WholeBatch(c, w, now, batch)
  }

  /** `done` extends `base` by the steps of one ProcessBatch call. */
  ghost predicate BatchSince(c: Config, w: WorkerId, base: seq<Step>, done: seq<Step>, now: Time, batch: seq<Record>,
                             end: End) {
    base <= done && BatchRun(c, w, now, batch, done[|base|..], end)
  }

  /** What a sink is to receive for a batch, in its order: one message for each payload that is not empty. */
  function Messages(configured: bool, batch: seq<Record>): seq<Delivery> {
    if batch == [] then []
    else
      var last := batch[|batch| - 1];
      Messages(configured, batch[..|batch| - 1])
      + (if configured && last.event != "" then [Delivery(last.id, last.event)] else [])
  }

  lemma {:induction false} MessagesPrefix(configured: bool, batch: seq<Record>, k: nat)
    requires k <= |batch|
    ensures Messages(configured, batch[..k]) <= Messages(configured, batch)
  {
    if k < |batch| {
      assert batch[..|batch| - 1][..k] == batch[..k];
      MessagesPrefix(configured, batch[..|batch| - 1], k);
    } else {
      assert batch[..k] == batch;
    }
  }

  lemma {:induction false} DispatchPrefix(c: Config, w: WorkerId, batch: seq<Record>, k: nat)
    requires k <= |batch|
    ensures DispatchSteps(c, w, batch[..k]) <= DispatchSteps(c, w, batch)
    ensures k < |batch| ==>
              DispatchSteps(c, w, batch[..k]) + RowSteps(c, w, batch[k].event) <= DispatchSteps(c, w, batch)
  {
    if k < |batch| {
      var n := |batch| - 1;
      if k < n {
        DispatchPrefix(c, w, batch[..n], k);
        assert batch[..n][..k] == batch[..k];
      }
    } else {
      assert batch[..k] == batch;
    }
  }

  lemma ProgressIsPart(c: Config, w: WorkerId, now: Time, batch: seq<Record>, k: nat, stage: Stage)
    requires k <= |batch|
    ensures Progress(c, w, now, batch, k, stage) <= WholeBatch(c, w, now, batch)
    ensures k == |batch| ==> Progress(c, w, now, batch, k, stage) == WholeBatch(c, w, now, batch)
  {
    DispatchPrefix(c, w, batch, k);
    if k < |batch| {
      assert RowSteps(c, w, batch[k].event)[..StepsTaken(stage)] <= RowSteps(c, w, batch[k].event);
    } else {
      assert batch[..k] == batch;
    }
  }

  lemma ProgressBySink(c: Config, w: WorkerId, now: Time, batch: seq<Record>, k: nat, stage: Stage)
    requires k < |batch| && stage != AtMark
    ensures Progress(c, w, now, batch, k, After(stage)) ==
              Progress(c, w, now, batch, k, stage) + [SinkStep(c, w, DueSink(stage), batch[k].event)]
  {
  }

  lemma ProgressByMark(c: Config, w: WorkerId, now: Time, batch: seq<Record>, k: nat)
    requires k < |batch|
    ensures Progress(c, w, now, batch, k + 1, AtKafka) == Progress(c, w, now, batch, k, AtMark) + [Mark(w)]
  {
    assert batch[..k + 1][..k] == batch[..k];
  }

  /** The remaining sinks are not used for the payload, so the row can be marked. */
  predicate Dispatched(c: Config, stage: Stage, payload: Payload) {
    && (stage == AtKafka ==> !Uses(c, Kafka, payload))
    && (stage != AtMark ==> !Uses(c, TripleStore, payload))
  }

  /** Only the worker's own transaction differs. */
  ghost predicate OnlyTx(s: State, s': State, w: WorkerId) {
    s'.rows == s.rows && s'.open - {w} == s.open - {w}
  }

  ghost predicate SameLogs(s: State, s': State) {
    s'.kafka == s.kafka && s'.triples == s.triples
  }

  /** Where the worker stands when the sink is due. */
  function StageOf(sink: Sink): (stage: Stage)
    ensures stage != AtMark && DueSink(stage) == sink
  {
    match sink case Kafka => AtKafka case TripleStore => AtTripleStore
  }

  /** The worker stands at row `k` of its batch, and `own` is what this has taken since `base`. */
  ghost predicate At(c: Config, s: State, own: seq<Step>, w: WorkerId, base: seq<Step>, now: Time,
                     batch: seq<Record>, k: nat, stage: Stage) {
    && k <= |batch| && Holds(s, w, now, batch, k, stage)
    && own == base + Progress(c, w, now, batch, k, stage)
  }

  /** The last step of the history selected the oldest available rows of its state, with their payloads. */
  ghost predicate Selected(c: Config, history: seq<Step>, w: WorkerId, now: Time, batch: seq<Record>)
    requires ValidRun(c, INIT, history)
  {
    && history != [] && history[|history| - 1] == Begin(w, now, Ids(batch))
    && var s := StateAt(c, history, |history| - 1);
       && OldestOf(s.rows, Eligible(s), c.batchSize, Ids(batch))
       && forall i :: 0 <= i < |batch| ==> batch[i].id in s.rows && s.rows[batch[i].id].payload == batch[i].event
  }

  lemma LastBegin(c: Config, history: seq<Step>, w: WorkerId, now: Time, batch: seq<Record>)
    requires ValidRun(c, INIT, history) && history != [] && history[|history| - 1] == Begin(w, now, Ids(batch))
    requires var s := StateAt(c, history, |history| - 1);
             forall i :: 0 <= i < |batch| ==> batch[i].id in s.rows && s.rows[batch[i].id].payload == batch[i].event
    ensures Selected(c, history, w, now, batch)
  {
    StateAfter(c, history, |history| - 1);
  }

  lemma BeginArrives(c: Config, s: State, own: seq<Step>, w: WorkerId, now: Time, batch: seq<Record>)
    requires Enabled(c, s, Begin(w, now, Ids(batch)))
    requires forall i :: 0 <= i < |batch| ==> batch[i].id in s.rows && s.rows[batch[i].id].payload == batch[i].event
    ensures var begin := Begin(w, now, Ids(batch));
            At(c, Apply(c, s, begin), own + [begin], w, own, now, batch, 0, AtKafka)
    ensures OnlyTx(s, Apply(c, s, Begin(w, now, Ids(batch))), w)
  {
  }

  lemma SinkArrives(c: Config, s: State, own: seq<Step>, w: WorkerId, base: seq<Step>, now: Time,
                    batch: seq<Record>, k: nat, stage: Stage)
    requires At(c, s, own, w, base, now, batch, k, stage) && k < |batch| && stage != AtMark
    ensures var step := SinkStep(c, w, DueSink(stage), batch[k].event);
            && Enabled(c, s, step)
            && At(c, Apply(c, s, step), own + [step], w, base, now, batch, k, After(stage))
            && OnlyTx(s, Apply(c, s, step), w)
  {
    ProgressBySink(c, w, now, batch, k, stage);
  }

  lemma MarkArrives(c: Config, s: State, own: seq<Step>, w: WorkerId, base: seq<Step>, now: Time,
                    batch: seq<Record>, k: nat)
    requires At(c, s, own, w, base, now, batch, k, AtMark) && k < |batch|
    ensures Enabled(c, s, Mark(w))
    ensures At(c, Apply(c, s, Mark(w)), own + [Mark(w)], w, base, now, batch, k + 1, AtKafka)
    ensures OnlyTx(s, Apply(c, s, Mark(w)), w)
  {
    ProgressByMark(c, w, now, batch, k);
  }

  /** A finished batch can be committed; the committed table then has exactly its rows marked. */
  lemma CommitArrives(c: Config, s: State, own: seq<Step>, w: WorkerId, base: seq<Step>, now: Time,
                      batch: seq<Record>, acknowledged: bool)
    requires At(c, s, own, w, base, now, batch, |batch|, AtKafka) && Isolated(s)
    ensures Enabled(c, s, Commit(w, acknowledged))
    ensures BatchSince(c, w, base, own + [Commit(w, acknowledged)], now, batch, Committed(acknowledged))
    ensures Apply(c, s, Commit(w, acknowledged)).rows == Marked(s.rows, IdSet(batch), now)
    ensures Apply(c, s, Commit(w, acknowledged)).open == s.open - {w}
  {
    ProgressIsPart(c, w, now, batch, |batch|, AtKafka);
    assert TxOk(s, s.open[w]);
    assert s.open[w].batch[..|batch|] == s.open[w].batch;
    assert s.open[w].marks == IdSet(batch);
    assert (own + [Commit(w, acknowledged)])[|base|..] == WholeBatch(c, w, now, batch) + [Commit(w, acknowledged)];
  }

  /** An unfinished batch can always be rolled back. */
  lemma AbortArrives(c: Config, s: State, own: seq<Step>, w: WorkerId, base: seq<Step>, now: Time,
                     batch: seq<Record>, k: nat, stage: Stage)
    requires At(c, s, own, w, base, now, batch, k, stage)
    ensures Enabled(c, s, Abort(w))
    ensures BatchSince(c, w, base, own + [Abort(w)], now, batch, RolledBack)
  {
    ProgressIsPart(c, w, now, batch, k, stage);
    var part := Progress(c, w, now, batch, k, stage);
    assert (own + [Abort(w)])[|base|..] == part + [Abort(w)];
    assert (part + [Abort(w)])[..|part|] == part;
  }

  /** Others' steps leave the worker where it stands. */
  lemma StaysAt(c: Config, s: State, s': State, own: seq<Step>, w: WorkerId, base: seq<Step>, now: Time,
                batch: seq<Record>, k: nat, stage: Stage)
    requires At(c, s, own, w, base, now, batch, k, stage)
    requires w in s'.open && s'.open[w] == s.open[w]
    requires forall r :: r in s.rows ==> r in s'.rows && s'.rows[r].payload == s.rows[r].payload
    ensures At(c, s', own, w, base, now, batch, k, stage)
  {
  }

  /** Postgres and the sinks. Before each call takes effect the others may take any steps. */
  class World {
    const config: Config
    ghost const quiet: bool  // nobody else acts
    var state: State
    ghost var history: seq<Step>

    /** The state is what the history of all steps leads to. */
    ghost predicate Valid()
      reads this
    {
      Ran(config, INIT, history, state)
    }

    constructor (config: Config, ghost quiet: bool)
      ensures this.config == config && this.quiet == quiet
      ensures Valid() && state == INIT && history == []
    {
      this.config := config;
      this.quiet := quiet;
      state := INIT;
      history := [];
    }

    /** Any steps of producers and other workers; callers learn no more than the contract. */
    method Others(w: WorkerId) returns (ghost steps: seq<Step>)
      requires Valid()
      modifies this
      ensures Valid() && history == old(history) + steps
      ensures Ran(config, old(state), steps, state)
      ensures forall step :: step in steps ==> !ActsFor(step, w)
      ensures quiet ==> steps == []
    {
      steps := [];
    }

    /** What one worker may rely on while the others act. */
    method Interleave(w: WorkerId)
      requires Valid()
      modifies this
      ensures Valid() && old(history) <= history && Own(history, w) == Own(old(history), w)
      ensures w in state.open <==> w in old(state).open
      ensures w in state.open ==> state.open[w] == old(state).open[w]
      ensures forall r :: r in old(state).rows ==>
                r in state.rows && state.rows[r].payload == old(state).rows[r].payload
      ensures old(state).kafka <= state.kafka && old(state).triples <= state.triples
      ensures quiet ==> state == old(state)
    {
      ghost var before := state;
      ghost var steps := Others(w);
      OthersKeepTx(config, before, steps, w);
      NotOwn(steps, w);
      OwnConcat(old(history), steps, w);
    }

    /** One step of the system happens. */
    method Perform(step: Step)
      requires Valid() && Enabled(config, state, step)
      modifies this
      ensures Valid() && state == Apply(config, old(state), step) && history == old(history) + [step]
    {
      OneStep(config, state, step);
      RunConcat(config, INIT, history, [step]);
      history := history + [step];
      state := Apply(config, state, step);
    }

    method Take(w: WorkerId, step: Step)
      requires Valid() && Enabled(config, state, step) && ActsFor(step, w)
      modifies this
      ensures Valid() && state == Apply(config, old(state), step) && history == old(history) + [step]
      ensures Own(history, w) == Own(old(history), w) + [step]
    {
      Perform(step);
      assert history[..|history| - 1] == old(history);
    }

    /** The locking SELECT; rows skipped by SKIP LOCKED are not candidates. */
    method Query(w: WorkerId, now: Time, limit: nat, fails: bool) returns (outcome: Outcome, rows: seq<Record>)
      requires Valid() && w !in state.open && limit == config.batchSize
      modifies this
      ensures Valid() && old(history) <= history
      ensures outcome == if fails then Failed else Succeeded
      ensures outcome == Failed ==> rows == [] && w !in state.open && Own(history, w) == Own(old(history), w)
      ensures outcome == Succeeded ==>
                At(config, state, Own(history, w), w, Own(old(history), w), now, rows, 0, AtKafka)
      ensures outcome == Succeeded ==> old(history) < history && Selected(config, history, w, now, rows)
      ensures quiet ==> OnlyTx(old(state), state, w) && SameLogs(old(state), state)
      ensures quiet && outcome == Failed ==> state == old(state)
      ensures quiet && outcome == Succeeded ==> OldestOf(old(state).rows, Eligible(old(state)), limit, Ids(rows))
    {
      Interleave(w);
      rows := [];
      outcome := Failed;
      if !fails {
        outcome := Succeeded;
        var table := state.rows;
        var ids := SelectOldest(table, Eligible(state), limit);
        rows := Records(table, ids);
        BeginArrives(config, state, Own(history, w), w, now, rows);
        Take(w, Begin(w, now, ids));
        LastBegin(config, history, w, now, rows);
      }
    }

    /** The sink is not used for the payload, so its turn goes by. */
    method PassOver(w: WorkerId, sink: Sink, ghost base: seq<Step>, ghost now: Time, ghost batch: seq<Record>,
                    ghost k: nat)
      requires Valid() && At(config, state, Own(history, w), w, base, now, batch, k, StageOf(sink))
      requires k < |batch| && !Uses(config, sink, batch[k].event)
      modifies this
      ensures Valid() && old(history) <= history
      ensures At(config, state, Own(history, w), w, base, now, batch, k, After(StageOf(sink)))
      ensures OnlyTx(old(state), state, w) && SameLogs(old(state), state)
    {
      SinkArrives(config, state, Own(history, w), w, base, now, batch, k, StageOf(sink));
      Take(w, Pass(w));
    }

    /** A sink call: the payload is accepted, or the call fails. */
    method Deliver(w: WorkerId, sink: Sink, payload: Payload, fails: bool,
                   ghost base: seq<Step>, ghost now: Time, ghost batch: seq<Record>, ghost k: nat, ghost stage: Stage)
      returns (outcome: Outcome, ghost stage': Stage)
      requires Valid() && At(config, state, Own(history, w), w, base, now, batch, k, stage)
      requires k < |batch| && payload == batch[k].event && Uses(config, sink, payload)
      requires stage == AtKafka || (stage == AtTripleStore && sink == TripleStore)
      requires stage == AtKafka && sink == TripleStore ==> !Uses(config, Kafka, payload)
      modifies this
      ensures Valid() && old(history) <= history
      ensures At(config, state, Own(history, w), w, base, now, batch, k, stage')
      ensures outcome == if fails then Failed else Succeeded
      ensures stage' == if outcome == Succeeded then After(StageOf(sink)) else StageOf(sink)
      ensures old(state).kafka <= state.kafka && old(state).triples <= state.triples
      ensures outcome == Succeeded ==> Delivery(batch[k].id, payload) in Log(state, sink)
      ensures quiet ==> OnlyTx(old(state), state, w)
      ensures quiet ==> var sent := if fails then [] else [Delivery(batch[k].id, payload)];
                        && state.kafka == old(state).kafka + (if sink == Kafka then sent else [])
                        && state.triples == old(state).triples + (if sink == TripleStore then sent else [])
    {
      Interleave(w);
      StaysAt(config, old(state), state, Own(history, w), w, base, now, batch, k, stage);
      stage' := stage;
      if state.open[w].stage == AtKafka && sink == TripleStore {
        PassOver(w, Kafka, base, now, batch, k);
        stage' := AtTripleStore;
      }
      outcome := Failed;
      if !fails {
        outcome := Succeeded;
        SinkArrives(config, state, Own(history, w), w, base, now, batch, k, stage');
        Take(w, Call(w));
        stage' := After(stage');
      }
    }

    /** UPDATE ... SET delivered_at = NOW() for the row dispatched last. */
    method MarkDelivered(w: WorkerId, id: RowId, fails: bool,
                         ghost base: seq<Step>, ghost now: Time, ghost batch: seq<Record>, ghost k: nat,
                         ghost stage: Stage)
      returns (outcome: Outcome, ghost stage': Stage)
      requires Valid() && At(config, state, Own(history, w), w, base, now, batch, k, stage)
      requires k < |batch| && id == batch[k].id && Dispatched(config, stage, batch[k].event)
      modifies this
      ensures Valid() && old(history) <= history
      ensures outcome == if fails then Failed else Succeeded
      ensures outcome == Succeeded ==> At(config, state, Own(history, w), w, base, now, batch, k + 1, AtKafka)
      ensures outcome == Failed ==>
                stage' == AtMark && At(config, state, Own(history, w), w, base, now, batch, k, AtMark)
      ensures quiet ==> OnlyTx(old(state), state, w) && SameLogs(old(state), state)
    {
      Interleave(w);
      StaysAt(config, old(state), state, Own(history, w), w, base, now, batch, k, stage);
      stage' := stage;
      if state.open[w].stage == AtKafka {
        PassOver(w, Kafka, base, now, batch, k);
        stage' := AtTripleStore;
      }
      if state.open[w].stage == AtTripleStore {
        PassOver(w, TripleStore, base, now, batch, k);
        stage' := AtMark;
      }
      outcome := Failed;
      if !fails {
        outcome := Succeeded;
        MarkArrives(config, state, Own(history, w), w, base, now, batch, k);
        Take(w, Mark(w));
      }
    }

    /** Commit: it takes effect, takes effect without telling, or is refused. */
    method TryCommit(w: WorkerId, refused: bool, lost: bool,
                     ghost base: seq<Step>, ghost now: Time, ghost batch: seq<Record>)
      returns (outcome: Outcome, ghost end: End)
      requires Valid() && At(config, state, Own(history, w), w, base, now, batch, |batch|, AtKafka)
      modifies this
      ensures Valid() && old(history) <= history && w !in state.open
      ensures outcome == if refused || lost then Failed else Succeeded
      ensures end == if refused then RolledBack else Committed(!lost)
      ensures BatchSince(config, w, base, Own(history, w), now, batch, end)
      ensures quiet ==> state.open == old(state).open - {w} && SameLogs(old(state), state)
      ensures quiet ==>
                state.rows == if end == RolledBack then old(state).rows else Marked(old(state).rows, IdSet(batch), now)
    {
      if refused {
        Rollback(w, base, now, batch, |batch|, AtKafka);
        return Failed, RolledBack;
      }
      Interleave(w);
      StaysAt(config, old(state), state, Own(history, w), w, base, now, batch, |batch|, AtKafka);
      RunKeepsInvFromInit(config, history);
      CommitArrives(config, state, Own(history, w), w, base, now, batch, !lost);
      Take(w, Commit(w, !lost));
      outcome, end := if lost then Failed else Succeeded, Committed(!lost);
    }

    /** The deferred rollback. */
    method Rollback(w: WorkerId, ghost base: seq<Step>, ghost now: Time, ghost batch: seq<Record>, ghost k: nat,
                    ghost stage: Stage)
      requires Valid() && At(config, state, Own(history, w), w, base, now, batch, k, stage)
      modifies this
      ensures Valid() && old(history) <= history && w !in state.open
      ensures BatchSince(config, w, base, Own(history, w), now, batch, RolledBack)
      ensures quiet ==> state.open == old(state).open - {w} && state.rows == old(state).rows
      ensures quiet ==> SameLogs(old(state), state)
    {
      Interleave(w);
      StaysAt(config, old(state), state, Own(history, w), w, base, now, batch, k, stage);
      AbortArrives(config, state, Own(history, w), w, base, now, batch, k, stage);
      Take(w, Abort(w));
    }
  }
}
