/**
 Order with any number of workers: the delivered rows run out of creation order exactly when a worker
 commits past an older row that SKIP LOCKED hid from its selection.
 */
module OutboxOvertaking {
  import opened Options
  import opened OutboxBatches
  import opened OutboxDelivery
  import opened OutboxInvariant
  import opened OutboxOrder
  import opened OutboxProtocol

  /** No undelivered row was created before a delivered one. */
  ghost predicate DeliveredFirst(s: State) {
    forall r, q :: r in s.rows && q in s.rows && IsDelivered(s, r) && !IsDelivered(s, q) ==>
      s.rows[r].createdAt <= s.rows[q].createdAt
  }

  /** One step breaks the order by a row enqueued behind a delivered one, or by a commit past an older row. */
  lemma OrderBreaksIff(c: Config, s: State, step: Step)
    requires Inv(c, s) && DeliveredFirst(s) && Enabled(c, s, step)
    ensures DeliveredFirst(Apply(c, s, step)) <==>
              match step
              case Enqueue(_, _, t) => forall r :: r in s.rows && IsDelivered(s, r) ==> s.rows[r].createdAt <= t
              case Commit(w, _) =>
                var batch := s.open[w].batch;
                forall r, q :: r in batch && r in s.rows && q in s.rows && q !in batch && !IsDelivered(s, q) ==>
                  s.rows[r].createdAt <= s.rows[q].createdAt
              case _ => true
  {
    var s' := Apply(c, s, step);
    if step.Enqueue? {
      assert IsDelivered(s', step.id) == false;
      forall r | r in s.rows
        ensures IsDelivered(s', r) == IsDelivered(s, r) && s'.rows[r].createdAt == s.rows[r].createdAt
      {
      }
    } else if step.Commit? {
      CommitMarksBatch(c, s, step);
      forall r | r in s.rows
        ensures s'.rows[r].createdAt == s.rows[r].createdAt
        ensures IsDelivered(s', r) == (IsDelivered(s, r) || r in s.open[step.worker].batch)
      {
      }
    }
  }

  ghost predicate GrowingRun(c: Config, steps: seq<Step>)
    requires ValidRun(c, INIT, steps)
  {
    forall k :: 0 <= k < |steps| ==> Grows(StateAt(c, steps, k), steps[k])
  }

  lemma RowStays(c: Config, s: State, step: Step, r: RowId)
    requires Enabled(c, s, step) && r in s.rows
    ensures var s' := Apply(c, s, step);
            r in s'.rows && s'.rows[r].createdAt == s.rows[r].createdAt && (IsDelivered(s, r) ==> IsDelivered(s', r))
  {
  }

  /** Rows keep their creation time and, once delivered, stay so. */
  lemma {:induction false} RowPersists(c: Config, steps: seq<Step>, i: nat, k: nat, r: RowId)
    requires ValidRun(c, INIT, steps) && i <= k <= |steps| && r in StateAt(c, steps, i).rows
    ensures var s, s' := StateAt(c, steps, i), StateAt(c, steps, k);
            r in s'.rows && s'.rows[r].createdAt == s.rows[r].createdAt && (IsDelivered(s, r) ==> IsDelivered(s', r))
    decreases k
  {
    if i < k {
      RowPersists(c, steps, i, k - 1, r);
      StateAfter(c, steps, k - 1);
      RowStays(c, StateAt(c, steps, k - 1), steps[k - 1], r);
    }
  }

  lemma NewIsYounger(c: Config, s: State, step: Step, r: RowId, q: RowId)
    requires Enabled(c, s, step) && Grows(s, step)
    requires r in s.rows && q !in s.rows && q in Apply(c, s, step).rows
    ensures s.rows[r].createdAt < Apply(c, s, step).rows[q].createdAt
  {
  }

  /** A row that arrives later is younger. */
  lemma {:induction false} LaterIsYounger(c: Config, steps: seq<Step>, i: nat, k: nat, r: RowId, q: RowId)
    requires ValidRun(c, INIT, steps) && GrowingRun(c, steps) && i <= k <= |steps|
    requires r in StateAt(c, steps, i).rows
    requires q !in StateAt(c, steps, i).rows && q in StateAt(c, steps, k).rows
    ensures StateAt(c, steps, i).rows[r].createdAt < StateAt(c, steps, k).rows[q].createdAt
    decreases k
  {
    var s := StateAt(c, steps, k - 1);
    StateAfter(c, steps, k - 1);
    if q in s.rows {
      LaterIsYounger(c, steps, i, k - 1, r, q);
      RowStays(c, s, steps[k - 1], q);
    } else {
      RowPersists(c, steps, i, k - 1, r);
      NewIsYounger(c, s, steps[k - 1], r, q);
    }
  }

  /** An older undelivered row outside the worker's batch was locked by another when the batch was selected. */
  lemma SkippedWasLocked(c: Config, steps: seq<Step>, k: nat, w: WorkerId, r: RowId, q: RowId) returns (i: nat)
    requires ValidRun(c, INIT, steps) && GrowingRun(c, steps) && k <= |steps|
    requires var s := StateAt(c, steps, k);
             && w in s.open && r in s.open[w].batch && r in s.rows
             && q in s.rows && !IsDelivered(s, q) && q !in s.open[w].batch
             && s.rows[q].createdAt < s.rows[r].createdAt
    ensures HeldSince(c, steps, w, i, k)
    ensures w !in StateAt(c, steps, i).open && Locked(StateAt(c, steps, i), q)
  {
    i := BeganOnce(c, steps, w, k);
    var selected := StateAt(c, steps, i);
    StateAfter(c, steps, i);
    var m :| 0 <= m < |steps[i].batch| && steps[i].batch[m] == r;
    assert r in Eligible(selected);
    RowPersists(c, steps, i, k, r);
    if q !in selected.rows {
      LaterIsYounger(c, steps, i, k, r, q);
    }
    assert q in selected.rows;
    RowPersists(c, steps, i, k, q);
  }

  /** The commit in step `k` delivers `r` past the older `q`, which another worker held when the batch was selected. */
  ghost predicate Overtakes(c: Config, steps: seq<Step>, k: nat, r: RowId, q: RowId)
    requires ValidRun(c, INIT, steps) && k < |steps|
  {
    var s := StateAt(c, steps, k);
    && steps[k].Commit? && steps[k].worker in s.open
    && r in s.open[steps[k].worker].batch && r in s.rows
    && q in s.rows && q !in s.open[steps[k].worker].batch && !IsDelivered(s, q)
    && s.rows[q].createdAt < s.rows[r].createdAt
    && exists i :: HeldSince(c, steps, steps[k].worker, i, k) && Locked(StateAt(c, steps, i), q)
  }

  /** With increasing creation times one step breaks the order exactly by overtaking. */
  lemma StepBreaksIff(c: Config, steps: seq<Step>, k: nat)
    requires ValidRun(c, INIT, steps) && GrowingRun(c, steps) && k < |steps| && DeliveredFirst(StateAt(c, steps, k))
    ensures !DeliveredFirst(StateAt(c, steps, k + 1)) <==> exists r, q :: Overtakes(c, steps, k, r, q)
  {
    var s := StateAt(c, steps, k);
    StateAfter(c, steps, k);
    StateKeepsInv(c, steps, k);
    OrderBreaksIff(c, s, steps[k]);
    assert Grows(s, steps[k]);
    if !DeliveredFirst(StateAt(c, steps, k + 1)) {
      var w := steps[k].worker;
      var r, q :| r in s.open[w].batch && r in s.rows && q in s.rows && q !in s.open[w].batch && !IsDelivered(s, q)
                  && s.rows[r].createdAt > s.rows[q].createdAt;
      var i := SkippedWasLocked(c, steps, k, w, r, q);
      assert Overtakes(c, steps, k, r, q);
    }
  }

  /** A run with increasing creation times keeps the order throughout exactly if no commit of it overtakes. */
  lemma OrderKeptIff(c: Config, steps: seq<Step>)
    requires ValidRun(c, INIT, steps) && GrowingRun(c, steps)
    ensures (forall k :: 0 <= k <= |steps| ==> DeliveredFirst(StateAt(c, steps, k)))
            <==> !exists k, r, q :: 0 <= k < |steps| && Overtakes(c, steps, k, r, q)
  {
    assert StateAt(c, steps, 0) == INIT by {
      assert steps[..0] == [];
    }
    if k, r, q :| 0 <= k < |steps| && Overtakes(c, steps, k, r, q) {
      if DeliveredFirst(StateAt(c, steps, k)) {
        StepBreaksIff(c, steps, k);
        assert !DeliveredFirst(StateAt(c, steps, k + 1));
      }
    } else {
      for k := 0 to |steps|
        invariant forall j :: 0 <= j <= k ==> DeliveredFirst(StateAt(c, steps, j))
      {
        StepBreaksIff(c, steps, k);
      }
    }
  }

  const OLDER := Row("a", 1, None)
  const YOUNGER := Row("b", 2, None)

  /** Two workers: the second commits the younger row while the first still holds the older one. */
  lemma OvertakingRun() returns (c: Config, steps: seq<Step>)
    ensures ValidRun(c, INIT, steps) && !DeliveredFirst(Exec(c, INIT, steps))
    ensures Log(Exec(c, INIT, steps), Kafka) == [Delivery(8, "b")]
    ensures forall step :: step in steps ==> !step.Abort?
  {
    c := Config(true, false, 1);
    var s := INIT.(rows := map[7 := OLDER, 8 := YOUNGER], order := [7, 8]);
    var first := s.(open := map[0 := Tx(3, [7], 0, AtKafka, {})]);
    var second := first.(open := first.open[1 := Tx(4, [8], 0, AtKafka, {})]);
    steps := YoungerDelivered(c, second);
    YoungerSelected(c, first);
    steps := StartWith(c, first, Begin(1, 4, [8]), second, steps);
    OlderSelected(c, s);
    steps := StartWith(c, s, Begin(0, 3, [7]), first, steps);
    steps := RowsEnqueued(c, s, steps);
  }

  lemma RowsEnqueued(c: Config, s: State, rest: seq<Step>) returns (steps: seq<Step>)
    requires s == INIT.(rows := map[7 := OLDER, 8 := YOUNGER], order := [7, 8]) && ValidRun(c, s, rest)
    ensures steps == [Enqueue(7, "a", 1), Enqueue(8, "b", 2)] + rest
    ensures ValidRun(c, INIT, steps) && Exec(c, INIT, steps) == Exec(c, s, rest)
  {
    var one := INIT.(rows := map[7 := OLDER], order := [7]);
    steps := StartWith(c, one, Enqueue(8, "b", 2), s, rest);
    steps := StartWith(c, INIT, Enqueue(7, "a", 1), one, steps);
  }

  lemma OlderSelected(c: Config, s: State)
    requires s.rows == map[7 := OLDER, 8 := YOUNGER] && s.open == map[]
    ensures OldestOf(s.rows, Eligible(s), 1, [7])
  {
    assert !Locked(s, 7);
  }

  /** The older row is locked, so the younger one is selected. */
  lemma YoungerSelected(c: Config, s: State)
    requires s.rows == map[7 := OLDER, 8 := YOUNGER] && s.open == map[0 := Tx(3, [7], 0, AtKafka, {})]
    ensures OldestOf(s.rows, Eligible(s), 1, [8])
  {
    assert s.open[0].batch == [7] && Locked(s, 7) && !Locked(s, 8);
    assert Eligible(s) == {8};
  }

  /** The younger row is published, marked and committed. */
  lemma YoungerDelivered(c: Config, s: State) returns (steps: seq<Step>)
    requires c == Config(true, false, 1) && s.kafka == [] && s.rows == map[7 := OLDER, 8 := YOUNGER]
    requires 1 in s.open && s.open[1] == Tx(4, [8], 0, AtKafka, {})
    ensures ValidRun(c, s, steps) && !DeliveredFirst(Exec(c, s, steps))
    ensures Log(Exec(c, s, steps), Kafka) == [Delivery(8, "b")]
    ensures forall step :: step in steps ==> !step.Abort?
  {
    var called := Apply(c, s, Call(1));
    var passed := Apply(c, called, Pass(1));
    var marked := Apply(c, passed, Mark(1));
    var done := Apply(c, marked, Commit(1, true));
    assert marked.open[1].marks == {8};
    assert IsDelivered(done, 8) && !IsDelivered(done, 7);
    steps := StartWith(c, marked, Commit(1, true), done, []);
    steps := StartWith(c, passed, Mark(1), marked, steps);
    steps := StartWith(c, called, Pass(1), passed, steps);
    steps := StartWith(c, s, Call(1), called, steps);
  }
}
