/**
 OutboxProcessor: dispatch, ProcessBatch and Run. Each call adds exactly one batch, whole or rolled
 back, to the worker's own steps; without interference a call is atomic and Run drains the table.
 */
module OutboxProcessing {
  import opened OutboxBatches
  import opened OutboxProtocol
  import opened OutboxSelection
  import opened OutboxWorker

  // ----- what one poll comes to, given the calls that fail -----

  /** The whole result set is read. */
  predicate ReadsAll(faults: set<Fault>, n: nat) {
    IterationFails !in faults && forall i :: 0 <= i < n ==> ScanFails(i) !in faults
  }

  /** Row `i` reaches the configured sinks and is marked. */
  predicate Forwards(c: Config, faults: set<Fault>, payload: Payload, i: nat) {
    && (payload != "" && c.kafka ==> SinkFails(Kafka, i) !in faults)
    && (payload != "" && c.triple ==> SinkFails(TripleStore, i) !in faults)
    && MarkFails(i) !in faults
  }

  /** Nothing fails between the SELECT and the reply to the commit. */
  predicate ForwardsAll(c: Config, faults: set<Fault>, batch: seq<Record>) {
    && ReadsAll(faults, |batch|) && CommitFails !in faults
    && forall i :: 0 <= i < |batch| ==> Forwards(c, faults, batch[i].event, i)
  }

  /**
   One call alone: with a commit the oldest available rows are delivered and each configured sink has
   received exactly their messages; otherwise the table is as it was and a part of the messages is out.
   */
  ghost predicate BatchEffect(c: Config, s: State, s': State, now: Time, batch: seq<Record>, commits: bool) {
    && s'.open == s.open
    && s.kafka <= s'.kafka <= s.kafka + Messages(c.kafka, batch)
    && s.triples <= s'.triples <= s.triples + Messages(c.triple, batch)
    && if commits then
         && OldestOf(s.rows, Eligible(s), c.batchSize, Ids(batch)) && Delivers(s.rows, s'.rows, IdSet(batch), now)
         && s'.kafka == s.kafka + Messages(c.kafka, batch) && s'.triples == s.triples + Messages(c.triple, batch)
       else s'.rows == s.rows
  }

  /** A transaction that alone acted leaves the table unchanged or with its batch marked. */
  lemma EffectOfTx(c: Config, s: State, mid: State, s': State, w: WorkerId, now: Time, batch: seq<Record>,
                   commits: bool)
    requires OnlyTx(s, mid, w) && SameLogs(s, mid) && w !in s.open && s'.open == mid.open - {w}
    requires OldestOf(s.rows, Eligible(s), c.batchSize, Ids(batch))
    requires SentPart(c, mid, s', batch) && (commits ==> SentAll(c, mid, s', batch))
    requires s'.rows == if commits then Marked(mid.rows, IdSet(batch), now) else mid.rows
    ensures BatchEffect(c, s, s', now, batch, commits)
  {
    assert s.open - {w} == s.open;
  }

  ghost predicate SentPart(c: Config, s: State, s': State, batch: seq<Record>) {
    && s.kafka <= s'.kafka <= s.kafka + Messages(c.kafka, batch)
    && s.triples <= s'.triples <= s.triples + Messages(c.triple, batch)
  }

  ghost predicate SentAll(c: Config, s: State, s': State, batch: seq<Record>) {
    s'.kafka == s.kafka + Messages(c.kafka, batch) && s'.triples == s.triples + Messages(c.triple, batch)
  }

  /** A record is sent to each configured sink at most once, if it has a payload. */
  ghost predicate RowPart(c: Config, s: State, s': State, r: Record) {
    var d := [Delivery(r.id, r.event)];
    && (s'.kafka == s.kafka || (r.event != "" && c.kafka && s'.kafka == s.kafka + d))
    && (s'.triples == s.triples || (r.event != "" && c.triple && s'.triples == s.triples + d))
  }

  ghost predicate RowAll(c: Config, s: State, s': State, r: Record) {
    var d := [Delivery(r.id, r.event)];
    && s'.kafka == s.kafka + (if r.event != "" && c.kafka then d else [])
    && s'.triples == s.triples + (if r.event != "" && c.triple then d else [])
  }

  /** Row `k` comes on top of what the rows before it have sent, in whole or in part. */
  lemma RowSent(c: Config, s: State, mid: State, s': State, batch: seq<Record>, k: nat)
    requires k < |batch| && SentAll(c, s, mid, batch[..k]) && RowPart(c, mid, s', batch[k])
    ensures SentPart(c, s, s', batch)
  {
    MessagesPrefix(c.kafka, batch, k + 1);
    MessagesPrefix(c.triple, batch, k + 1);
    assert batch[..k + 1][..k] == batch[..k];
    assert s'.kafka <= s.kafka + Messages(c.kafka, batch[..k + 1]);
    assert s'.triples <= s.triples + Messages(c.triple, batch[..k + 1]);
  }

  lemma RowSentAll(c: Config, s: State, mid: State, s': State, batch: seq<Record>, k: nat)
    requires k < |batch| && SentAll(c, s, mid, batch[..k]) && RowAll(c, mid, s', batch[k])
    ensures SentAll(c, s, s', batch[..k + 1])
  {
    assert batch[..k + 1][..k] == batch[..k];
  }

  /** What a worker's own steps of one call look like inside the history of all steps. */
  lemma OwnPart(c: Config, w: WorkerId, before: seq<Step>, history: seq<Step>, now: Time, batch: seq<Record>,
                end: End)
    requires before <= history && BatchSince(c, w, Own(before, w), Own(history, w), now, batch, end)
    ensures BatchRun(c, w, now, batch, Own(history[|before|..], w), end)
  {
    assert before + history[|before|..] == history;
    OwnConcat(before, history[|before|..], w);
    assert Own(history, w)[|Own(before, w)|..] == Own(history[|before|..], w);
  }

  lemma {:induction false} OwnMembers(steps: seq<Step>, w: WorkerId, step: Step)
    ensures step in Own(steps, w) <==> step in steps && ActsFor(step, w)
  {
    if steps != [] {
      OwnMembers(steps[..|steps| - 1], w, step);
      assert steps == steps[..|steps| - 1] + [steps[|steps| - 1]];
    }
  }

  /** Dispatching neither begins nor ends a transaction. */
  lemma {:induction false} DispatchOnly(c: Config, w: WorkerId, batch: seq<Record>, step: Step)
    requires step in DispatchSteps(c, w, batch)
    ensures step.Call? || step.Pass? || step.Mark?
  {
    if batch != [] {
      if step in DispatchSteps(c, w, batch[..|batch| - 1]) {
        DispatchOnly(c, w, batch[..|batch| - 1], step);
      }
    }
  }

  /** In the own steps of a call only the first begins, with the call's batch, and only the last may commit. */
  lemma CallSteps(c: Config, w: WorkerId, now: Time, batch: seq<Record>, own: seq<Step>, end: End, step: Step)
    requires BatchRun(c, w, now, batch, own, end) && step in own
    ensures step.Begin? ==> step == Begin(w, now, Ids(batch))
    ensures step.Commit? ==> step == own[|own| - 1]
  {
    var whole := WholeBatch(c, w, now, batch);
    if step in whole[1..] {
      assert whole[1..] == DispatchSteps(c, w, batch);
      DispatchOnly(c, w, batch, step);
    } else if step in whole {
      assert whole == [whole[0]] + whole[1..];
    } else if own[..|own| - 1] <= whole {
      assert own == own[..|own| - 1] + [own[|own| - 1]];
    }
  }

  /** The worker commits in step `k`. */
  predicate CommitsAt(history: seq<Step>, w: WorkerId, k: nat) {
    k < |history| && history[k].Commit? && history[k].worker == w
  }

  /** Since `before`, step `i` selected the oldest available rows, and commit `k` of the worker delivered them. */
  ghost predicate DeliversIn(c: Config, w: WorkerId, before: seq<Step>, history: seq<Step>, now: Time,
                             batch: seq<Record>, i: nat, k: nat)
    requires ValidRun(c, INIT, history)
  {
    && |before| <= i < k && CommitsAt(history, w, k) && history[i] == Begin(w, now, Ids(batch))
    && HeldSince(c, history, w, i, k) && DeliversSelection(c, history, i, k)
  }

  /**
   One call among any others: it commits exactly if it ends so, and the commit delivers exactly the
   oldest rows that were available at its selection.
   */
  ghost predicate CallEffect(c: Config, w: WorkerId, before: seq<Step>, history: seq<Step>, now: Time,
                             batch: seq<Record>, end: End)
    requires ValidRun(c, INIT, history)
  {
    && (end.Committed? <==> exists k :: |before| <= k && CommitsAt(history, w, k))
    && (forall k :: |before| <= k && CommitsAt(history, w, k) ==>
          exists i :: DeliversIn(c, w, before, history, now, batch, i, k))
  }

  /** A transaction that is not open at some moment and is open later began in between. */
  lemma BeganSince(c: Config, history: seq<Step>, w: WorkerId, from: nat, i: nat, k: nat)
    requires ValidRun(c, INIT, history) && from <= k && HeldSince(c, history, w, i, k)
    requires w !in StateAt(c, history, from).open
    ensures from <= i
  {
  }

  lemma BeginIsOwn(c: Config, w: WorkerId, before: seq<Step>, history: seq<Step>, now: Time, batch: seq<Record>,
                   end: End, i: nat)
    requires before <= history && BatchRun(c, w, now, batch, Own(history[|before|..], w), end)
    requires |before| <= i < |history| && history[i].Begin? && history[i].worker == w
    ensures history[i] == Begin(w, now, Ids(batch))
  {
    var part := history[|before|..];
    assert part[i - |before|] == history[i];
    OwnMembers(part, w, history[i]);
    CallSteps(c, w, now, batch, Own(part, w), end, history[i]);
  }

  lemma EndCommits(c: Config, w: WorkerId, before: seq<Step>, history: seq<Step>, now: Time, batch: seq<Record>,
                   end: End)
    requires before <= history && BatchRun(c, w, now, batch, Own(history[|before|..], w), end)
    ensures end.Committed? <==> exists k :: |before| <= k && CommitsAt(history, w, k)
  {
    var part := history[|before|..];
    if end.Committed? {
      OwnMembers(part, w, Commit(w, end.acknowledged));
      var m :| 0 <= m < |part| && part[m] == Commit(w, end.acknowledged);
      assert CommitsAt(history, w, |before| + m);
    } else if k :| |before| <= k && CommitsAt(history, w, k) {
      assert part[k - |before|] == history[k];
      OwnMembers(part, w, history[k]);
      CallSteps(c, w, now, batch, Own(part, w), end, history[k]);
    }
  }

  lemma CallIsAtomic(c: Config, w: WorkerId, before: seq<Step>, history: seq<Step>, now: Time, batch: seq<Record>,
                     end: End)
    requires ValidRun(c, INIT, history) && before <= history
    requires ValidRun(c, INIT, before) && w !in Exec(c, INIT, before).open
    requires BatchSince(c, w, Own(before, w), Own(history, w), now, batch, end)
    ensures CallEffect(c, w, before, history, now, batch, end)
  {
    assert history[..|before|] == before;
    OwnPart(c, w, before, history, now, batch, end);
    EndCommits(c, w, before, history, now, batch, end);
    forall k | |before| <= k && CommitsAt(history, w, k)
      ensures exists i :: DeliversIn(c, w, before, history, now, batch, i, k)
    {
      var i := BatchAtomicity(c, history, k);
      BeganSince(c, history, w, |before|, i, k);
      BeginIsOwn(c, w, before, history, now, batch, end, i);
      assert DeliversIn(c, w, before, history, now, batch, i, k);
    }
  }

  /** What Run returns: ctx.Err() once the context is done, or the error of ProcessBatch. */
  datatype RunError = ContextDone | BatchFailed

  datatype Poll = Poll(startedAt: Time, faults: set<Fault>)

  class OutboxProcessor {
    const world: World
    const worker: WorkerId
    const batchSize: nat

    constructor (world: World, worker: WorkerId)
      ensures this.world == world && this.worker == worker && batchSize == world.config.batchSize
    {
      this.world := world;
      this.worker := worker;
      this.batchSize := world.config.batchSize;
    }

    ghost predicate Valid()
      reads this, world
    {
      world.Valid() && batchSize == world.config.batchSize
    }

    ghost function Done(): seq<Step>
      reads this, world
    {
      Own(world.history, worker)
    }

    /** A failing sink call leaves the sinks after it uncalled. */
    method Dispatch(payload: Payload, kafkaFails: bool, tripleFails: bool,
                    ghost base: seq<Step>, ghost now: Time, ghost batch: seq<Record>, ghost k: nat)
      returns (outcome: Outcome, ghost stage: Stage)
      requires Valid() && k < |batch| && payload == batch[k].event
      requires At(world.config, world.state, Done(), worker, base, now, batch, k, AtKafka)
      modifies world
      ensures Valid() && old(world.history) <= world.history
      ensures At(world.config, world.state, Done(), worker, base, now, batch, k, stage)
      ensures outcome == Failed <==>
                payload != "" && ((world.config.kafka && kafkaFails) || (world.config.triple && tripleFails))
      ensures outcome == Succeeded ==> Dispatched(world.config, stage, payload)
      ensures outcome == Failed ==> stage != AtMark && Uses(world.config, DueSink(stage), payload)
      ensures outcome == Succeeded && payload != "" ==>
                && (world.config.kafka ==> Delivery(batch[k].id, payload) in world.state.kafka)
                && (world.config.triple ==> Delivery(batch[k].id, payload) in world.state.triples)
      ensures world.quiet ==> OnlyTx(old(world.state), world.state, worker)
      ensures world.quiet ==>
                var toKafka := payload != "" && world.config.kafka;
                var toTriples := payload != "" && world.config.triple && !(world.config.kafka && kafkaFails);
                var sent := [Delivery(batch[k].id, payload)];
                && world.state.kafka == old(world.state).kafka + (if toKafka && !kafkaFails then sent else [])
                && world.state.triples == old(world.state).triples + (if toTriples && !tripleFails then sent else [])
    {
      stage := AtKafka;
      if |payload| == 0 {
        return Succeeded, stage;
      }
      if world.config.kafka {
        outcome, stage := world.Deliver(worker, Kafka, payload, kafkaFails, base, now, batch, k, stage);
        if outcome == Failed {
          return;
        }
      }
      if world.config.triple {
        outcome, stage := world.Deliver(worker, TripleStore, payload, tripleFails, base, now, batch, k, stage);
        if outcome == Failed {
          return;
        }
      }
      outcome := Succeeded;
    }

    /** The loop over the result set; any Scan, or the iteration itself, may fail. */
    method Scan(rows: seq<Record>, faults: set<Fault>) returns (outcome: Outcome, records: seq<Record>)
      ensures outcome == Succeeded <==> ReadsAll(faults, |rows|)
      ensures outcome == Succeeded ==> records == rows
    {
      records := [];
      for i := 0 to |rows|
        invariant records == rows[..i] && forall j :: 0 <= j < i ==> ScanFails(j) !in faults
      {
        if ScanFails(i) in faults {
          return Failed, records;
        }
        records := records + [rows[i]];
      }
      outcome := if IterationFails in faults then Failed else Succeeded;
    }

    /** One turn of the dispatch loop. */
    method ForwardRow(batch: seq<Record>, i: nat, faults: set<Fault>, ghost base: seq<Step>, ghost now: Time)
      returns (outcome: Outcome, ghost stage: Stage)
      requires Valid() && i < |batch|
      requires At(world.config, world.state, Done(), worker, base, now, batch, i, AtKafka)
      modifies world
      ensures Valid() && old(world.history) <= world.history
      ensures outcome == Succeeded <==> Forwards(world.config, faults, batch[i].event, i)
      ensures outcome == Succeeded ==> At(world.config, world.state, Done(), worker, base, now, batch, i + 1, AtKafka)
      ensures outcome == Failed ==> At(world.config, world.state, Done(), worker, base, now, batch, i, stage)
      ensures world.quiet ==> OnlyTx(old(world.state), world.state, worker)
      ensures world.quiet ==> RowPart(world.config, old(world.state), world.state, batch[i])
      ensures world.quiet && outcome == Succeeded ==> RowAll(world.config, old(world.state), world.state, batch[i])
    {
      outcome, stage := Dispatch(batch[i].event, SinkFails(Kafka, i) in faults, SinkFails(TripleStore, i) in faults,
                                 base, now, batch, i);
      if outcome == Failed {
        return;
      }
      outcome, stage := world.MarkDelivered(worker, batch[i].id, MarkFails(i) in faults, base, now, batch, i, stage);
    }

    /** The dispatch loop: each row is forwarded and then marked. */
    method DispatchAll(batch: seq<Record>, faults: set<Fault>, ghost base: seq<Step>, ghost now: Time)
      returns (outcome: Outcome, ghost k: nat, ghost stage: Stage)
      requires Valid() && At(world.config, world.state, Done(), worker, base, now, batch, 0, AtKafka)
      modifies world
      ensures Valid() && old(world.history) <= world.history
      ensures At(world.config, world.state, Done(), worker, base, now, batch, k, stage)
      ensures outcome == Succeeded <==>
                forall i :: 0 <= i < |batch| ==> Forwards(world.config, faults, batch[i].event, i)
      ensures if outcome == Succeeded then k == |batch| && stage == AtKafka else k < |batch|
      ensures world.quiet ==> OnlyTx(old(world.state), world.state, worker)
      ensures world.quiet ==> SentPart(world.config, old(world.state), world.state, batch)
      ensures world.quiet && outcome == Succeeded ==> SentAll(world.config, old(world.state), world.state, batch)
    {
      ghost var before := world.state;
      k, stage := 0, AtKafka;
      for i := 0 to |batch|
        invariant Valid() && old(world.history) <= world.history && k == i && stage == AtKafka
        invariant At(world.config, world.state, Done(), worker, base, now, batch, i, AtKafka)
        invariant forall j :: 0 <= j < i ==> Forwards(world.config, faults, batch[j].event, j)
        invariant world.quiet ==> OnlyTx(before, world.state, worker)
        invariant world.quiet ==> SentAll(world.config, before, world.state, batch[..i])
      {
        ghost var mid := world.state;
        outcome, stage := ForwardRow(batch, i, faults, base, now);
        if outcome == Failed {
          assert !Forwards(world.config, faults, batch[i].event, i);
          if world.quiet {
            RowSent(world.config, before, mid, world.state, batch, i);
          }
          return;
        }
        if world.quiet {
          RowSentAll(world.config, before, mid, world.state, batch, i);
        }
        k, stage := i + 1, AtKafka;
      }
      assert batch[..|batch|] == batch;
      outcome := Succeeded;
    }

    /** What ProcessBatch does with the rows it has read, up to the end of the transaction. */
    method Forward(rows: seq<Record>, faults: set<Fault>, ghost base: seq<Step>, ghost now: Time)
      returns (outcome: Outcome, ghost end: End)
      requires Valid() && At(world.config, world.state, Done(), worker, base, now, rows, 0, AtKafka)
      modifies world
      ensures Valid() && old(world.history) <= world.history && worker !in world.state.open
      ensures BatchSince(world.config, worker, base, Done(), now, rows, end)
      ensures outcome == Succeeded <==> end == Committed(true)
      ensures end == if ForwardsAll(world.config, faults, rows) then Committed(ReplyLost !in faults) else RolledBack
      ensures world.quiet ==>
                && world.state.open == old(world.state).open - {worker}
                && world.state.rows == (if end.Committed? then Marked(old(world.state).rows, IdSet(rows), now)
                                        else old(world.state).rows)
                && SentPart(world.config, old(world.state), world.state, rows)
                && (end.Committed? ==> SentAll(world.config, old(world.state), world.state, rows))
    {
      var records;
      outcome, records := Scan(rows, faults);
      if outcome == Failed {
        end := RolledBack;
        world.Rollback(worker, base, now, rows, 0, AtKafka);
        return;
      }

      if |records| == 0 {
        outcome, end := world.TryCommit(worker, CommitFails in faults, ReplyLost in faults, base, now, rows);
        return;
      }

      ghost var k, stage;
      outcome, k, stage := DispatchAll(records, faults, base, now);
      if outcome == Failed {
        end := RolledBack;
        world.Rollback(worker, base, now, rows, k, stage);
        return;
      }
      outcome, end := world.TryCommit(worker, CommitFails in faults, ReplyLost in faults, base, now, rows);
    }

    /** `batch` names the rows that were read, `end` how the transaction ended. */
    method ProcessBatch(startedAt: Time, faults: set<Fault>)
      returns (outcome: Outcome, ghost batch: seq<Record>, ghost end: End)
      requires Valid() && worker !in world.state.open
      modifies world
      ensures Valid() && old(world.history) <= world.history && worker !in world.state.open
      ensures faults == {} ==> outcome == Succeeded
      ensures outcome == Succeeded <==> end == Committed(true)
      ensures end == if BeginFails in faults || SelectFails in faults then NotBegun
                     else if ForwardsAll(world.config, faults, batch) then Committed(ReplyLost !in faults)
                     else RolledBack
      ensures BatchSince(world.config, worker, old(Done()), Done(), startedAt, batch, end)
      ensures CallEffect(world.config, worker, old(world.history), world.history, startedAt, batch, end)
      ensures world.quiet ==>
                BatchEffect(world.config, old(world.state), world.state, startedAt, batch, end.Committed?)
    {
      ghost var base, before, entry := Done(), world.state, world.history;
      batch, end := [], NotBegun;
      var rows;
      outcome := Failed;
      if BeginFails !in faults {
        outcome, rows := world.Query(worker, startedAt, batchSize, SelectFails in faults);
      }
      if outcome == Failed {
        assert Done()[|base|..] == [];
        CallIsAtomic(world.config, worker, entry, world.history, startedAt, batch, end);
        return;
      }
      batch := rows;
      ghost var mid := world.state;
      outcome, end := Forward(rows, faults, base, startedAt);
      CallIsAtomic(world.config, worker, entry, world.history, startedAt, batch, end);
      if world.quiet {
        EffectOfTx(world.config, before, mid, world.state, worker, startedAt, batch, end.Committed?);
      }
    }

    /**
     One poll for each tick until the context is done: `polls` gives the start and the failing calls of
     each. The loop never ends well: it returns the error of the context or the error of a batch.
     `busy` counts non-empty batches.
     */
    method Run(polls: seq<Poll>) returns (error: RunError, ghost busy: nat)
      requires Valid() && worker !in world.state.open && world.config.batchSize > 0 && polls != []
      modifies world
      ensures Valid() && old(world.history) <= world.history && worker !in world.state.open
      ensures (forall i :: 0 <= i < |polls| ==> polls[i].faults == {}) ==> error == ContextDone
      ensures world.quiet && old(world.state).open == map[] && error == ContextDone ==>
                var n := |Undelivered(old(world.state))|;
                && |Undelivered(world.state)| == Left(n, |polls|, batchSize)
                && busy == Min(|polls|, Batches(n, batchSize))
    {
      busy := 0;
      ghost var n := |Undelivered(world.state)|;
      var i := 0;
      while true
        invariant 0 <= i < |polls| && Valid() && old(world.history) <= world.history && worker !in world.state.open
        invariant world.quiet && old(world.state).open == map[] ==>
                    && world.state.open == map[]
                    && |Undelivered(world.state)| == Left(n, i, batchSize)
                    && busy == Min(i, Batches(n, batchSize))
        decreases |polls| - i
      {
        ghost var before := world.state;
        var outcome;
        ghost var batch, end;
        outcome, batch, end := ProcessBatch(polls[i].startedAt, polls[i].faults);
        if outcome == Failed {
          return BatchFailed, busy;
        }
        if world.quiet && old(world.state).open == map[] {
          BatchShrinks(world.config, before, world.state, polls[i].startedAt, batch);
          OneMoreBatch(n, i, batchSize);
          busy := busy + (if |batch| > 0 then 1 else 0);
        }
        i := i + 1;
        if i == |polls| {
          return ContextDone, busy;
        }
      }
    }
  }

  /** What `k` batches of at most `size` leave of a backlog of `n`. */
  function Left(n: nat, k: nat, size: nat): nat {
    if n <= k * size then 0 else n - k * size
  }

  /** n / size rounded up. */
  function Batches(n: nat, size: nat): nat
    requires size > 0
  {
    (n + size - 1) / size
  }

  lemma OneMoreBatch(n: nat, k: nat, size: nat)
    requires size > 0
    ensures Left(n, k + 1, size) == Left(n, k, size) - Min(size, Left(n, k, size))
    ensures Min(k + 1, Batches(n, size)) == Min(k, Batches(n, size)) + (if Left(n, k, size) > 0 then 1 else 0)
  {
    assert (k + 1) * size == k * size + size;
    var b := Batches(n, size);
    assert b * size <= n + size - 1 < b * size + size;
    MonotoneBy(b, k, size);
    MonotoneBy(k + 1, b, size);
  }

  lemma MonotoneBy(a: nat, b: nat, size: nat)
    ensures a <= b ==> a * size <= b * size
  {
  }

  /** A committed batch on a quiet table leaves batchSize fewer undelivered rows, or none. */
  lemma BatchShrinks(c: Config, s: State, s': State, now: Time, batch: seq<Record>)
    requires BatchEffect(c, s, s', now, batch, true) && s.open == map[]
    ensures |batch| == Min(c.batchSize, |Undelivered(s)|)
    ensures |Undelivered(s')| == |Undelivered(s)| - |batch|
  {
    assert Eligible(s) == Undelivered(s) by {
      assert forall r :: !Locked(s, r);
    }
    var ids := Ids(batch);
    SelectionSize(s.rows, Eligible(s), c.batchSize, ids);
    DistinctCount(ids, IdSet(batch));
    assert IdSet(batch) <= Undelivered(s);
    assert Undelivered(s') == Undelivered(s) - IdSet(batch);
    SubsetCount(IdSet(batch), Undelivered(s));
  }
}
