/**
 Delivery guarantees over whole runs with any number of concurrent workers: at least once, at most
 one committed batch per row, and the exact number of times each sink accepted each row.
 */
module OutboxDelivery {
  import opened Options
  import opened OutboxProtocol
  import opened OutboxInvariant

  /** What a sink is meant to receive for the ids, one message each, in their order. */
  function Wanted(c: Config, rows: map<RowId, Row>, ids: seq<RowId>, sink: Sink): seq<Delivery> {
    if ids == [] then []
    else
      var r := ids[|ids| - 1];
      Wanted(c, rows, ids[..|ids| - 1], sink)
      + (if r in rows && Uses(c, sink, rows[r].payload) then [Delivery(r, rows[r].payload)] else [])
  }

  /** In how many steps of the run a transaction that had served the row was rolled back. */
  ghost function Rollbacks(c: Config, s: State, steps: seq<Step>, sink: Sink, r: RowId): nat
    requires ValidRun(c, s, steps)
    decreases |steps|
  {
    if steps == [] then 0
    else
      (if steps[0].Abort? && r in Served(s.open[steps[0].worker], sink) then 1 else 0)
      + Rollbacks(c, Apply(c, s, steps[0]), steps[1..], sink, r)
  }

  /** In how many steps of the run a batch that marks the row was committed. */
  ghost function CommittedMarks(c: Config, s: State, steps: seq<Step>, r: RowId): nat
    requires ValidRun(c, s, steps)
    decreases |steps|
  {
    if steps == [] then 0
    else
      (if steps[0].Commit? && r in s.open[steps[0].worker].marks then 1 else 0)
      + CommittedMarks(c, Apply(c, s, steps[0]), steps[1..], r)
  }

  lemma {:induction false} LostCountsRollbacks(c: Config, s: State, steps: seq<Step>, sink: Sink, r: RowId)
    requires Inv(c, s) && ValidRun(c, s, steps)
    ensures Lost(Exec(c, s, steps), sink)[r] == Lost(s, sink)[r] + Rollbacks(c, s, steps, sink, r)
    decreases |steps|
  {
    if steps != [] {
      StepKeepsInv(c, s, steps[0]);
      LostCountsRollbacks(c, Apply(c, s, steps[0]), steps[1..], sink, r);
      if steps[0].Abort? {
        var tx := s.open[steps[0].worker];
        assert TxOk(s, tx);
        ServedOnce(tx, sink, r);
      }
    }
  }

  /** The exact account: every accepted call is a delivery, a call of an open batch or a rolled-back one. */
  lemma ExactAccounting(c: Config, steps: seq<Step>, sink: Sink, r: RowId)
    requires ValidRun(c, INIT, steps) && r in Exec(c, INIT, steps).rows
    ensures var s := Exec(c, INIT, steps);
            Times(s, sink, r) ==
              if Uses(c, sink, s.rows[r].payload)
              then (if IsDelivered(s, r) then 1 else 0) + (if InFlight(s, sink, r) then 1 else 0)
                   + Rollbacks(c, INIT, steps, sink, r)
              else 0
  {
    InitInv(c);
    RunKeepsInv(c, INIT, steps);
    LostCountsRollbacks(c, INIT, steps, sink, r);
    var s := Exec(c, INIT, steps);
    assert AllAccounted(c, s, sink) && Accounted(c, s, sink, r);
  }

  /** At least once on each configured sink, nothing that was not enqueued, and nothing for an empty payload. */
  lemma AtLeastOnce(c: Config, steps: seq<Step>)
    requires ValidRun(c, INIT, steps)
    ensures var s := Exec(c, INIT, steps);
            && (forall r :: IsDelivered(s, r) && s.rows[r].payload != "" ==>
                  && (c.kafka ==> Delivery(r, s.rows[r].payload) in s.kafka)
                  && (c.triple ==> Delivery(r, s.rows[r].payload) in s.triples))
            && (forall d :: d in s.kafka ==>
                  c.kafka && d.payload != "" && d.row in s.rows && d.payload == s.rows[d.row].payload)
            && (forall d :: d in s.triples ==>
                  c.triple && d.payload != "" && d.row in s.rows && d.payload == s.rows[d.row].payload)
  {
    InitInv(c);
    RunKeepsInv(c, INIT, steps);
    var s := Exec(c, INIT, steps);
    assert LogOk(c, s, Kafka) && LogOk(c, s, TripleStore);
    forall r, sink | IsDelivered(s, r) && Uses(c, sink, s.rows[r].payload)
      ensures Delivery(r, s.rows[r].payload) in Log(s, sink)
    {
      ExactAccounting(c, steps, sink, r);
      assert Times(s, sink, r) > 0;
    }
    assert s.kafka == Log(s, Kafka) && s.triples == Log(s, TripleStore);
    assert forall p :: Uses(c, Kafka, p) <==> p != "" && c.kafka;
    assert forall p :: Uses(c, TripleStore, p) <==> p != "" && c.triple;
  }

  /**
   docs/ONTOLOGY_PIPELINE.md says that SKIP LOCKED prevents duplicate deliveries. It does so exactly
   for the rows that no rolled-back batch had already passed to the sink.
   */
  lemma NoDuplicateIffNoRollback(c: Config, steps: seq<Step>, sink: Sink, r: RowId)
    requires ValidRun(c, INIT, steps) && IsDelivered(Exec(c, INIT, steps), r)
    requires Uses(c, sink, Exec(c, INIT, steps).rows[r].payload)
    ensures Times(Exec(c, INIT, steps), sink, r) == 1 <==> Rollbacks(c, INIT, steps, sink, r) == 0
  {
    ExactAccounting(c, steps, sink, r);
    DeliveredNotInFlight(c, steps, sink, r);
  }

  lemma DeliveredNotInFlight(c: Config, steps: seq<Step>, sink: Sink, r: RowId)
    requires ValidRun(c, INIT, steps) && IsDelivered(Exec(c, INIT, steps), r)
    ensures !InFlight(Exec(c, INIT, steps), sink, r)
  {
    InitInv(c);
    RunKeepsInv(c, INIT, steps);
    var s := Exec(c, INIT, steps);
    forall w | w in s.open
      ensures r !in Served(s.open[w], sink)
    {
      assert TxOk(s, s.open[w]);
      ServedInBatch(s, w, sink);
    }
  }

  /** A run in which one row is published twice: its first batch is published and then rolled back. */
  lemma DuplicateDelivery() returns (c: Config, steps: seq<Step>)
    ensures ValidRun(c, INIT, steps)
    ensures IsDelivered(Exec(c, INIT, steps), 7) && Times(Exec(c, INIT, steps), Kafka, 7) == 2
  {
    c := Config(true, false, 100);
    var s1 := INIT.(rows := map[7 := Row("e", 1, None)], order := [7]);
    var s2 := s1.(kafka := [Delivery(7, "e")], lostKafka := multiset{7});
    steps := SecondAttempt(c, s2);
    steps := FirstAttempt(c, s1, s2, steps);
    steps := StartWith(c, INIT, Enqueue(7, "e", 1), s1, steps);
  }

  lemma StartWith(c: Config, s: State, step: Step, s': State, rest: seq<Step>) returns (steps: seq<Step>)
    requires Enabled(c, s, step) && Apply(c, s, step) == s' && ValidRun(c, s', rest)
    ensures steps == [step] + rest
    ensures ValidRun(c, s, steps) && Exec(c, s, steps) == Exec(c, s', rest)
  {
    steps := [step] + rest;
    assert steps[1..] == rest;
  }

  lemma FirstAttempt(c: Config, s: State, s': State, rest: seq<Step>) returns (steps: seq<Step>)
    requires c == Config(true, false, 100) && ValidRun(c, s', rest)
    requires s == INIT.(rows := map[7 := Row("e", 1, None)], order := [7])
    requires s' == s.(kafka := [Delivery(7, "e")], lostKafka := multiset{7})
    ensures ValidRun(c, s, steps) && Exec(c, s, steps) == Exec(c, s', rest)
  {
    var a := s.(open := map[0 := Tx(2, [7], 0, AtKafka, {})]);
    var b := s.(open := map[0 := Tx(2, [7], 0, AtTripleStore, {})], kafka := [Delivery(7, "e")]);
    assert Served(b.open[0], Kafka) == [7] && Served(b.open[0], TripleStore) == [];
    assert b.open - {0} == map[];
    steps := StartWith(c, b, Abort(0), s', rest);
    steps := StartWith(c, a, Call(0), b, steps);
    LoneSelection(c, s);
    steps := StartWith(c, s, Begin(0, 2, [7]), a, steps);
  }

  lemma LoneSelection(c: Config, s: State)
    requires s.rows == map[7 := Row("e", 1, None)] && s.open == map[]
    ensures Eligible(s) == {7} && OldestOf(s.rows, Eligible(s), 100, [7])
  {
    assert !Locked(s, 7);
  }

  lemma SecondAttempt(c: Config, s: State) returns (steps: seq<Step>)
    requires c == Config(true, false, 100)
    requires s.rows == map[7 := Row("e", 1, None)] && s.open == map[] && s.kafka == [Delivery(7, "e")]
    ensures ValidRun(c, s, steps) && IsDelivered(Exec(c, s, steps), 7) && Times(Exec(c, s, steps), Kafka, 7) == 2
  {
    var s1 := s.(open := map[0 := Tx(3, [7], 0, AtKafka, {})]);
    var s2 := s.(open := map[0 := Tx(3, [7], 0, AtTripleStore, {})], kafka := [Delivery(7, "e"), Delivery(7, "e")]);
    var s3 := s2.(open := map[0 := Tx(3, [7], 0, AtMark, {})]);
    var s4 := s2.(open := map[0 := Tx(3, [7], 1, AtKafka, {7})]);
    var s5 := Apply(c, s4, Commit(0, true));
    var unmarked: set<RowId> := {};
    assert unmarked + {7} == {7};
    steps := StartWith(c, s4, Commit(0, true), s5, []);
    steps := StartWith(c, s3, Mark(0), s4, steps);
    steps := StartWith(c, s2, Pass(0), s3, steps);
    steps := StartWith(c, s1, Call(0), s2, steps);
    LoneSelection(c, s);
    steps := StartWith(c, s, Begin(0, 3, [7]), s1, steps);
  }

  /** One step cannot touch a delivered row or hand it to a sink. */
  lemma StepSparesDelivered(c: Config, s: State, step: Step, sink: Sink, r: RowId)
    requires Inv(c, s) && Enabled(c, s, step) && IsDelivered(s, r)
    ensures r in Apply(c, s, step).rows && Apply(c, s, step).rows[r] == s.rows[r]
    ensures Times(Apply(c, s, step), sink, r) == Times(s, sink, r)
    ensures step.Begin? ==> r !in step.batch
    ensures step.Commit? ==> r !in s.open[step.worker].marks
  {
    if !step.Enqueue? && !step.Begin? {
      assert TxOk(s, s.open[step.worker]);
      if step.Call? || step.Pass? || step.Mark? {
        ProgressTimes(c, s, step, sink, r);
      }
    }
  }

  /** Delivered for good: no later run selects the row again, rewrites it or repeats it to a sink. */
  lemma {:induction false} DeliveredForGood(c: Config, s: State, steps: seq<Step>, sink: Sink, r: RowId)
    requires Inv(c, s) && ValidRun(c, s, steps) && IsDelivered(s, r)
    ensures var s' := Exec(c, s, steps);
            r in s'.rows && s'.rows[r] == s.rows[r] && Times(s', sink, r) == Times(s, sink, r)
    ensures forall i :: 0 <= i < |steps| && steps[i].Begin? ==> r !in steps[i].batch
    ensures CommittedMarks(c, s, steps, r) == 0
    decreases |steps|
  {
    if steps != [] {
      StepSparesDelivered(c, s, steps[0], sink, r);
      StepKeepsInv(c, s, steps[0]);
      DeliveredForGood(c, Apply(c, s, steps[0]), steps[1..], sink, r);
      assert forall i :: 0 < i < |steps| ==> steps[i] == steps[1..][i - 1];
    }
  }

  /** Over a run a row is marked by one committed batch if it became delivered and by none otherwise. */
  lemma {:induction false} MarkedByOneBatch(c: Config, s: State, steps: seq<Step>, r: RowId)
    requires Inv(c, s) && ValidRun(c, s, steps) && !IsDelivered(s, r)
    ensures CommittedMarks(c, s, steps, r) == if IsDelivered(Exec(c, s, steps), r) then 1 else 0
    decreases |steps|
  {
    if steps != [] {
      var s' := Apply(c, s, steps[0]);
      StepKeepsInv(c, s, steps[0]);
      if IsDelivered(s', r) {
        DeliveredForGood(c, s', steps[1..], Kafka, r);
      } else {
        if steps[0].Commit? {
          assert TxOk(s, s.open[steps[0].worker]);
        }
        MarkedByOneBatch(c, s', steps[1..], r);
      }
    }
  }

  /** The triple store is reached only through Kafka, in open and in rolled-back batches alike. */
  lemma {:induction false} RollbacksOrdered(c: Config, s: State, steps: seq<Step>, r: RowId)
    requires Inv(c, s) && ValidRun(c, s, steps)
    ensures Rollbacks(c, s, steps, TripleStore, r) <= Rollbacks(c, s, steps, Kafka, r)
    decreases |steps|
  {
    if steps != [] {
      StepKeepsInv(c, s, steps[0]);
      RollbacksOrdered(c, Apply(c, s, steps[0]), steps[1..], r);
      if steps[0].Abort? {
        ServedNested(s.open[steps[0].worker]);
      }
    }
  }

  lemma ServedNested(tx: Tx)
    ensures Served(tx, TripleStore) <= Served(tx, Kafka)
    ensures forall r :: r in Served(tx, TripleStore) ==> r in Served(tx, Kafka)
  {
  }

  lemma InsertsNeverExceedPublishes(c: Config, steps: seq<Step>, r: RowId)
    requires ValidRun(c, INIT, steps) && c.kafka && r in Exec(c, INIT, steps).rows
    ensures Times(Exec(c, INIT, steps), TripleStore, r) <= Times(Exec(c, INIT, steps), Kafka, r)
  {
    ExactAccounting(c, steps, Kafka, r);
    ExactAccounting(c, steps, TripleStore, r);
    InitInv(c);
    RollbacksOrdered(c, INIT, steps, r);
    var s := Exec(c, INIT, steps);
    if InFlight(s, TripleStore, r) {
      var w :| w in s.open && r in Served(s.open[w], TripleStore);
      ServedNested(s.open[w]);
      assert r in Served(s.open[w], Kafka);
    }
  }

  lemma {:induction false} NoAbortNoRollback(c: Config, s: State, steps: seq<Step>, sink: Sink, r: RowId)
    requires ValidRun(c, s, steps) && forall i :: 0 <= i < |steps| ==> !steps[i].Abort?
    ensures Rollbacks(c, s, steps, sink, r) == 0
    decreases |steps|
  {
    if steps != [] {
      assert !steps[0].Abort?;
      NoAbortNoRollback(c, Apply(c, s, steps[0]), steps[1..], sink, r);
    }
  }

  lemma {:induction false} WantedOnce(c: Config, rows: map<RowId, Row>, ids: seq<RowId>, sink: Sink, d: Delivery)
    requires NoDuplicates(ids)
    ensures multiset(Wanted(c, rows, ids, sink))[d] ==
              if d.row in ids && d.row in rows && d.payload == rows[d.row].payload && Uses(c, sink, d.payload)
              then 1 else 0
  {
    if ids != [] {
      var n := |ids| - 1;
      WantedOnce(c, rows, ids[..n], sink, d);
      assert ids == ids[..n] + [ids[n]];
      assert ids[n] !in ids[..n];
    }
  }

  /** An error-free interleaving of any workers that drains the table sends each row exactly once. */
  lemma CleanDrainIsExactlyOnce(c: Config, steps: seq<Step>, sink: Sink)
    requires ValidRun(c, INIT, steps) && forall i :: 0 <= i < |steps| ==> !steps[i].Abort?
    requires forall r :: r in Exec(c, INIT, steps).rows ==> IsDelivered(Exec(c, INIT, steps), r)
    ensures var s := Exec(c, INIT, steps);
            && multiset(Log(s, sink)) == multiset(Wanted(c, s.rows, s.order, sink))
            && forall r :: r in s.rows && s.rows[r].payload != "" && (if sink == Kafka then c.kafka else c.triple) ==>
                 multiset(Log(s, sink))[Delivery(r, s.rows[r].payload)] == 1
  {
    InitInv(c);
    RunKeepsInv(c, INIT, steps);
    var s := Exec(c, INIT, steps);
    assert LogOk(c, s, sink) && OrderOk(s);
    forall d: Delivery
      ensures multiset(Log(s, sink))[d] == multiset(Wanted(c, s.rows, s.order, sink))[d]
    {
      WantedOnce(c, s.rows, s.order, sink, d);
      if d.row in s.rows && d.payload == s.rows[d.row].payload {
        ExactAccounting(c, steps, sink, d.row);
        DeliveredNotInFlight(c, steps, sink, d.row);
        NoAbortNoRollback(c, INIT, steps, sink, d.row);
        assert multiset(Log(s, sink))[d] == Times(s, sink, d.row);
      } else {
        assert d !in Log(s, sink);
      }
    }
    forall r | r in s.rows && Uses(c, sink, s.rows[r].payload)
      ensures multiset(Log(s, sink))[Delivery(r, s.rows[r].payload)] == 1
    {
      WantedOnce(c, s.rows, s.order, sink, Delivery(r, s.rows[r].payload));
    }
  }
}
