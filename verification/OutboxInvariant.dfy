/**
 What every reachable state of the outbox keeps: batches of open transactions are disjoint and
 undelivered, sinks hold only enqueued payloads, and every accepted call is accounted for.
 */
module OutboxInvariant {
  import opened Options
  import opened OutboxProtocol

  /** How often the sink accepted the row. */
  function Times(s: State, sink: Sink, r: RowId): nat
    requires r in s.rows
  {
    multiset(Log(s, sink))[Delivery(r, s.rows[r].payload)]
  }

  /** Some open transaction has already passed the row to the sink. */
  predicate InFlight(s: State, sink: Sink, r: RowId) {
    exists w :: w in s.open && r in Served(s.open[w], sink)
  }

  predicate IsDelivered(s: State, r: RowId) {
    r in s.rows && s.rows[r].deliveredAt != None
  }

  ghost predicate OrderOk(s: State) {
    NoDuplicates(s.order) && forall r :: r in s.order <==> r in s.rows
  }

  ghost predicate TxOk(s: State, tx: Tx) {
    && tx.next <= |tx.batch|
    && (tx.next == |tx.batch| ==> tx.stage == AtKafka)
    && NoDuplicates(tx.batch)
    && (forall r :: r in tx.batch ==> r in s.rows && s.rows[r].deliveredAt == None)
    && (forall r :: r in tx.marks <==> r in tx.batch[..tx.next])
  }

  ghost predicate Isolated(s: State) {
    && (forall w :: w in s.open ==> TxOk(s, s.open[w]))
    && (forall v, w, r :: v in s.open && w in s.open && r in s.open[v].batch && r in s.open[w].batch ==> v == w)
  }

  ghost predicate LogOk(c: Config, s: State, sink: Sink) {
    && (forall d :: d in Log(s, sink) ==>
          d.row in s.rows && d.payload == s.rows[d.row].payload && Uses(c, sink, d.payload))
    && (forall r :: r in Lost(s, sink) ==> r in s.rows)
  }

  ghost predicate Accounted(c: Config, s: State, sink: Sink, r: RowId)
    requires r in s.rows
  {
    Times(s, sink, r) ==
      if Uses(c, sink, s.rows[r].payload)
      then (if IsDelivered(s, r) then 1 else 0) + (if InFlight(s, sink, r) then 1 else 0) + Lost(s, sink)[r]
      else 0
  }

  ghost predicate AllAccounted(c: Config, s: State, sink: Sink) {
    forall r :: r in s.rows ==> Accounted(c, s, sink, r)
  }

  ghost predicate Inv(c: Config, s: State) {
    && OrderOk(s) && Isolated(s)
    && forall sink :: LogOk(c, s, sink) && AllAccounted(c, s, sink)
  }

  lemma InitInv(c: Config)
    ensures Inv(c, INIT)
  {
  }

  lemma StepKeepsOrder(c: Config, s: State, step: Step)
    requires Inv(c, s) && Enabled(c, s, step)
    ensures OrderOk(Apply(c, s, step))
  {
    var s' := Apply(c, s, step);
    if step.Enqueue? {
      forall r ensures r in s'.order <==> r in s'.rows {
        assert r in s'.order <==> r in s.order || r == step.id;
      }
    }
  }

  lemma BeginKeepsIsolation(c: Config, s: State, step: Step)
    requires Isolated(s) && Enabled(c, s, step) && step.Begin?
    ensures Isolated(Apply(c, s, step))
  {
    var s' := Apply(c, s, step);
    forall r | r in step.batch
      ensures r in s.rows && s.rows[r].deliveredAt == None && !Locked(s, r)
    {
      assert r in Eligible(s);
    }
    forall w | w in s.open
      ensures TxOk(s', s'.open[w])
    {
      assert TxOk(s, s.open[w]);
    }
  }

  lemma DispatchKeepsIsolation(c: Config, s: State, step: Step)
    requires Isolated(s) && Enabled(c, s, step) && (step.Call? || step.Pass? || step.Mark?)
    ensures Isolated(Apply(c, s, step))
  {
    var s' := Apply(c, s, step);
    var w := step.worker;
    assert TxOk(s, s.open[w]);
    assert s.open[w].batch[..s.open[w].next + 1] == s.open[w].batch[..s.open[w].next] + [Current(s, w)];
    forall v | v in s.open
      ensures s'.open[v].batch == s.open[v].batch && TxOk(s', s'.open[v])
    {
      assert TxOk(s, s.open[v]);
    }
  }

  /** A finished batch leaves the others' rows undelivered. */
  lemma OtherKeepsIsolation(c: Config, s: State, step: Step)
    requires Isolated(s) && Enabled(c, s, step) && (step.Enqueue? || step.Commit? || step.Abort?)
    ensures Isolated(Apply(c, s, step))
  {
    var s' := Apply(c, s, step);
    forall v | v in s'.open
      ensures s'.open[v] == s.open[v] && TxOk(s', s'.open[v])
    {
      assert TxOk(s, s.open[v]);
      if step.Commit? {
        assert TxOk(s, s.open[step.worker]);
      }
    }
  }

  lemma StepKeepsIsolation(c: Config, s: State, step: Step)
    requires Isolated(s) && Enabled(c, s, step)
    ensures Isolated(Apply(c, s, step))
  {
    if step.Begin? {
      BeginKeepsIsolation(c, s, step);
    } else if step.Call? || step.Pass? || step.Mark? {
      DispatchKeepsIsolation(c, s, step);
    } else {
      OtherKeepsIsolation(c, s, step);
    }
  }

  /** Each row an open transaction has served is a row of its batch. */
  lemma ServedInBatch(s: State, w: WorkerId, sink: Sink)
    requires w in s.open && TxOk(s, s.open[w])
    ensures forall r :: r in Served(s.open[w], sink) ==> r in s.open[w].batch && r in s.rows
  {
  }

  lemma CallKeepsLog(c: Config, s: State, w: WorkerId, sink: Sink)
    requires LogOk(c, s, sink) && Calling(c, s, w)
    ensures LogOk(c, Apply(c, s, Call(w)), sink)
  {
    var s' := Apply(c, s, Call(w));
    var d := Delivery(Current(s, w), s.rows[Current(s, w)].payload);
    assert s'.rows == s.rows && Lost(s', sink) == Lost(s, sink);
    if sink == DueSink(s.open[w].stage) {
      assert Log(s', sink) == Log(s, sink) + [d];
    } else {
      assert Log(s', sink) == Log(s, sink);
    }
  }

  lemma StepKeepsLog(c: Config, s: State, step: Step, sink: Sink)
    requires LogOk(c, s, sink) && Isolated(s) && Enabled(c, s, step)
    ensures LogOk(c, Apply(c, s, step), sink)
  {
    var s' := Apply(c, s, step);
    if step.Call? {
      CallKeepsLog(c, s, step.worker, sink);
    } else {
      assert Log(s', sink) == Log(s, sink);
      if step.Abort? {
        ServedInBatch(s, step.worker, sink);
        assert Lost(s', sink) == Lost(s, sink) + multiset(Served(s.open[step.worker], sink));
      }
    }
  }

  /** The one transaction whose batch holds the row decides whether the row is in flight. */
  lemma HolderDecides(s: State, w: WorkerId, sink: Sink, r: RowId)
    requires Isolated(s) && w in s.open && r in s.open[w].batch
    ensures InFlight(s, sink, r) <==> r in Served(s.open[w], sink)
  {
    forall v | v in s.open
      ensures TxOk(s, s.open[v])
    {
    }
  }

  lemma EnqueueKeepsAccount(c: Config, s: State, step: Step, sink: Sink, r: RowId)
    requires Inv(c, s) && Enabled(c, s, step) && step.Enqueue?
    requires r in Apply(c, s, step).rows
    ensures Accounted(c, Apply(c, s, step), sink, r)
  {
    var s' := Apply(c, s, step);
    assert LogOk(c, s, sink) && AllAccounted(c, s, sink);
    assert InFlight(s', sink, r) <==> InFlight(s, sink, r);
    if r == step.id {
      assert Delivery(r, step.payload) !in Log(s, sink);
      forall v | v in s.open
        ensures r !in Served(s.open[v], sink)
      {
        assert TxOk(s, s.open[v]);
        ServedInBatch(s, v, sink);
      }
    } else {
      assert Accounted(c, s, sink, r);
    }
  }

  lemma BeginKeepsAccount(c: Config, s: State, step: Step, sink: Sink, r: RowId)
    requires Inv(c, s) && Enabled(c, s, step) && step.Begin?
    requires r in s.rows
    ensures Accounted(c, Apply(c, s, step), sink, r)
  {
    var s' := Apply(c, s, step);
    assert AllAccounted(c, s, sink) && Accounted(c, s, sink, r);
    assert Served(s'.open[step.worker], sink) == [];
    forall v | v in s.open
      ensures v in s'.open && s'.open[v] == s.open[v]
    {
    }
    assert InFlight(s', sink, r) <==> InFlight(s, sink, r);
  }

  /** How the flight status of a row changes in one step of dispatch. */
  lemma ProgressFlight(c: Config, s: State, step: Step, sink: Sink, r: RowId)
    requires Isolated(s) && Enabled(c, s, step) && (step.Call? || step.Pass? || step.Mark?)
    requires Isolated(Apply(c, s, step))
    ensures var served := !step.Mark? && sink == DueSink(s.open[step.worker].stage) && r == Current(s, step.worker);
            && (InFlight(Apply(c, s, step), sink, r) <==> InFlight(s, sink, r) || served)
            && (served ==> !InFlight(s, sink, r))
  {
    var s' := Apply(c, s, step);
    var w := step.worker;
    assert TxOk(s, s.open[w]);
    if r in s.open[w].batch {
      HolderDecides(s, w, sink, r);
      HolderDecides(s', w, sink, r);
      ServedGrowth(c, s, step, sink);
    } else {
      assert TxOk(s', s'.open[w]);
      ServedInBatch(s', w, sink);
      ServedInBatch(s, w, sink);
      AwayFromWorker(s, s', w, sink, r);
    }
  }

  lemma AwayFromWorker(s: State, s': State, w: WorkerId, sink: Sink, r: RowId)
    requires w in s.open ==> r !in Served(s.open[w], sink)
    requires w in s'.open ==> r !in Served(s'.open[w], sink)
    requires forall v :: v != w ==> (v in s.open <==> v in s'.open) && (v in s.open ==> s.open[v] == s'.open[v])
    ensures InFlight(s, sink, r) <==> InFlight(s', sink, r)
  {
    if InFlight(s, sink, r) {
      var v :| v in s.open && r in Served(s.open[v], sink);
      assert v in s'.open && r in Served(s'.open[v], sink);
    }
  }

  /** Dispatch of one row: the due sink is called, passed over, or the row is marked. */
  lemma ProgressKeepsAccount(c: Config, s: State, step: Step, sink: Sink, r: RowId)
    requires Inv(c, s) && Enabled(c, s, step) && (step.Call? || step.Pass? || step.Mark?)
    requires r in s.rows
    ensures Accounted(c, Apply(c, s, step), sink, r)
  {
    var s' := Apply(c, s, step);
    assert AllAccounted(c, s, sink) && Accounted(c, s, sink, r);
    StepKeepsIsolation(c, s, step);
    ProgressFlight(c, s, step, sink, r);
    ProgressTimes(c, s, step, sink, r);
  }

  lemma ProgressTimes(c: Config, s: State, step: Step, sink: Sink, r: RowId)
    requires Enabled(c, s, step) && (step.Call? || step.Pass? || step.Mark?)
    requires r in s.rows
    ensures Times(Apply(c, s, step), sink, r) == Times(s, sink, r) +
              (if step.Call? && sink == DueSink(s.open[step.worker].stage) && r == Current(s, step.worker)
               then 1 else 0)
  {
    var s' := Apply(c, s, step);
    var w := step.worker;
    if step.Call? && sink == DueSink(s.open[w].stage) {
      assert Log(s', sink) == Log(s, sink) + [Delivery(Current(s, w), s.rows[Current(s, w)].payload)];
    } else {
      assert Log(s', sink) == Log(s, sink);
    }
  }

  /** What the served rows of a transaction become in one step of dispatch. */
  lemma ServedGrowth(c: Config, s: State, step: Step, sink: Sink)
    requires Enabled(c, s, step) && (step.Call? || step.Pass? || step.Mark?)
    requires TxOk(s, s.open[step.worker])
    ensures var tx := s.open[step.worker];
            var tx' := Apply(c, s, step).open[step.worker];
            if !step.Mark? && sink == DueSink(tx.stage)
            then Served(tx', sink) == Served(tx, sink) + [Current(s, step.worker)]
                && Current(s, step.worker) !in Served(tx, sink)
            else Served(tx', sink) == Served(tx, sink)
  {
  }

  /** A commit turns the flight of its rows into deliveries. */
  lemma CommitKeepsAccount(c: Config, s: State, step: Step, sink: Sink, r: RowId)
    requires Isolated(s) && Enabled(c, s, step) && step.Commit?
    requires r in s.rows && Accounted(c, s, sink, r)
    ensures Accounted(c, Apply(c, s, step), sink, r)
  {
    var s' := Apply(c, s, step);
    var w := step.worker;
    var tx := s.open[w];
    assert TxOk(s, tx);
    assert tx.batch[..tx.next] == tx.batch && Served(tx, sink) == tx.batch;
    assert Times(s', sink, r) == Times(s, sink, r);
    if r in tx.batch {
      HolderDecides(s, w, sink, r);
      NotHeld(s, s', w, sink, r);
    } else {
      AwayFromWorker(s, s', w, sink, r);
    }
  }

  /** A rollback turns the flight of its rows into lost calls. */
  lemma AbortKeepsAccount(c: Config, s: State, step: Step, sink: Sink, r: RowId)
    requires Isolated(s) && Enabled(c, s, step) && step.Abort?
    requires r in s.rows && Accounted(c, s, sink, r)
    ensures Accounted(c, Apply(c, s, step), sink, r)
  {
    var s' := Apply(c, s, step);
    var w := step.worker;
    var tx := s.open[w];
    assert TxOk(s, tx);
    ServedInBatch(s, w, sink);
    ServedOnce(tx, sink, r);
    assert Lost(s', sink)[r] == Lost(s, sink)[r] + multiset(Served(tx, sink))[r];
    assert Times(s', sink, r) == Times(s, sink, r);
    if r in tx.batch {
      HolderDecides(s, w, sink, r);
      NotHeld(s, s', w, sink, r);
    } else {
      AwayFromWorker(s, s', w, sink, r);
    }
  }

  lemma NotHeld(s: State, s': State, w: WorkerId, sink: Sink, r: RowId)
    requires Isolated(s) && w in s.open && r in s.open[w].batch && s'.open == s.open - {w}
    ensures !InFlight(s', sink, r)
  {
    forall v | v in s'.open
      ensures r !in Served(s'.open[v], sink)
    {
      assert TxOk(s, s.open[v]);
      ServedInBatch(s, v, sink);
    }
  }

  lemma ServedOnce(tx: Tx, sink: Sink, r: RowId)
    requires NoDuplicates(tx.batch)
    ensures multiset(Served(tx, sink))[r] == if r in Served(tx, sink) then 1 else 0
  {
    OnceInSequence(Served(tx, sink), r);
  }

  lemma {:induction false} OnceInSequence<T>(a: seq<T>, x: T)
    requires NoDuplicates(a)
    ensures multiset(a)[x] == if x in a then 1 else 0
  {
    if a != [] {
      var n := |a| - 1;
      OnceInSequence(a[..n], x);
      assert a == a[..n] + [a[n]];
      assert a[n] !in a[..n];
    }
  }

  lemma StepKeepsAccount(c: Config, s: State, step: Step, sink: Sink)
    requires Inv(c, s) && Enabled(c, s, step)
    ensures AllAccounted(c, Apply(c, s, step), sink)
  {
    assert AllAccounted(c, s, sink);
    forall r | r in Apply(c, s, step).rows
      ensures Accounted(c, Apply(c, s, step), sink, r)
    {
      match step
      case Enqueue(_, _, _) => EnqueueKeepsAccount(c, s, step, sink, r);
      case Begin(_, _, _) => BeginKeepsAccount(c, s, step, sink, r);
      case Call(_) => ProgressKeepsAccount(c, s, step, sink, r);
      case Pass(_) => ProgressKeepsAccount(c, s, step, sink, r);
      case Mark(_) => ProgressKeepsAccount(c, s, step, sink, r);
      case Commit(_, _) => CommitKeepsAccount(c, s, step, sink, r);
      case Abort(_) => AbortKeepsAccount(c, s, step, sink, r);
    }
  }

  lemma StepKeepsInv(c: Config, s: State, step: Step)
    requires Inv(c, s) && Enabled(c, s, step)
    ensures Inv(c, Apply(c, s, step))
  {
    StepKeepsOrder(c, s, step);
    StepKeepsIsolation(c, s, step);
    forall sink
      ensures LogOk(c, Apply(c, s, step), sink) && AllAccounted(c, Apply(c, s, step), sink)
    {
      StepKeepsLog(c, s, step, sink);
      StepKeepsAccount(c, s, step, sink);
    }
  }

  /** The invariant holds after every run. */
  lemma {:induction false} RunKeepsInv(c: Config, s: State, steps: seq<Step>)
    requires Inv(c, s) && ValidRun(c, s, steps)
    ensures Inv(c, Exec(c, s, steps))
    decreases |steps|
  {
    if steps != [] {
      StepKeepsInv(c, s, steps[0]);
      RunKeepsInv(c, Apply(c, s, steps[0]), steps[1..]);
    }
  }
}
