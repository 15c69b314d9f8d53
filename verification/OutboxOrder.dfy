/**
 Ordered delivery with one live worker at a time, through any number of failures and restarts.
 */
module OutboxOrder {
  import opened OutboxProtocol
  import opened OutboxBatches
  import opened OutboxDelivery
  import opened OutboxInvariant

  /** The log without repeats: the first occurrence of each message stays. */
  function FirstOccurrences<T(==)>(log: seq<T>): seq<T> {
    if log == [] then []
    else
      var init := FirstOccurrences(log[..|log| - 1]);
      if log[|log| - 1] in init then init else init + [log[|log| - 1]]
  }

  lemma FirstOfAppend<T>(log: seq<T>, x: T)
    ensures FirstOccurrences(log + [x]) ==
              if x in FirstOccurrences(log) then FirstOccurrences(log) else FirstOccurrences(log) + [x]
  {
    assert (log + [x])[..|log|] == log;
  }

  /** A new row is created strictly after all rows in the table. */
  ghost predicate Grows(s: State, step: Step) {
    step.Enqueue? ==> forall r :: r in s.rows ==> s.rows[r].createdAt < step.createdAt
  }

  /** One worker at a time, and strictly increasing creation times. */
  ghost predicate SerialStep(s: State, step: Step) {
    (step.Begin? ==> s.open == map[]) && Grows(s, step)
  }

  ghost predicate SerialRun(c: Config, s: State, steps: seq<Step>)
    decreases |steps|
  {
    steps == [] || (SerialStep(s, steps[0]) && Enabled(c, s, steps[0])
        && SerialRun(c, Apply(c, s, steps[0]), steps[1..]))
  }

  lemma {:induction false} SerialIsValid(c: Config, s: State, steps: seq<Step>)
    requires SerialRun(c, s, steps)
    ensures ValidRun(c, s, steps)
    decreases |steps|
  {
    if steps != [] {
      SerialIsValid(c, Apply(c, s, steps[0]), steps[1..]);
    }
  }

  /** Insertion order is creation order, and the delivered rows are its first `d`. */
  ghost predicate PrefixDelivered(s: State, d: nat) {
    && d <= |s.order|
    && (forall i :: 0 <= i < |s.order| ==> s.order[i] in s.rows)
    && (forall i, j :: 0 <= i < j < |s.order| ==> s.rows[s.order[i]].createdAt < s.rows[s.order[j]].createdAt)
    && (forall i :: 0 <= i < |s.order| ==> (IsDelivered(s, s.order[i]) <==> i < d))
  }

  /** The one open batch is the stretch of the outbox that follows the delivered rows. */
  ghost predicate BatchFollows(s: State, d: nat) {
    && (forall v, w :: v in s.open && w in s.open ==> v == w)
    && (forall w :: w in s.open ==>
          d + |s.open[w].batch| <= |s.order| && s.open[w].batch == s.order[d..d + |s.open[w].batch|])
  }

  /** The sink has received, apart from repeats, exactly the first `p` rows. */
  ghost predicate HighWater(c: Config, s: State, sink: Sink, d: nat, p: nat) {
    && d <= p <= |s.order|
    && (forall w :: w in s.open ==> d + |Served(s.open[w], sink)| <= p)
    && FirstOccurrences(Log(s, sink)) == Wanted(c, s.rows, s.order[..p], sink)
  }

  lemma {:induction false} WantedPrefix(c: Config, rows: map<RowId, Row>, ids: seq<RowId>, p: nat, sink: Sink)
    requires p <= |ids|
    ensures Wanted(c, rows, ids[..p], sink) <= Wanted(c, rows, ids, sink)
  {
    if p < |ids| {
      assert ids[..|ids| - 1][..p] == ids[..p];
      WantedPrefix(c, rows, ids[..|ids| - 1], p, sink);
    } else {
      assert ids[..p] == ids;
    }
  }

  /** Only the payloads of the listed rows matter. */
  lemma {:induction false} WantedFrame(c: Config, rows: map<RowId, Row>, rows': map<RowId, Row>, ids: seq<RowId>,
                                       sink: Sink)
    requires forall r :: r in ids ==> r in rows && r in rows' && rows[r].payload == rows'[r].payload
    ensures Wanted(c, rows, ids, sink) == Wanted(c, rows', ids, sink)
  {
    if ids != [] {
      assert ids[|ids| - 1] in ids;
      WantedFrame(c, rows, rows', ids[..|ids| - 1], sink);
    }
  }

  lemma {:induction false} WantedMembers(c: Config, rows: map<RowId, Row>, ids: seq<RowId>, sink: Sink, d: Delivery)
    ensures d in Wanted(c, rows, ids, sink) <==>
              d.row in ids && d.row in rows && d.payload == rows[d.row].payload && Uses(c, sink, d.payload)
  {
    if ids != [] {
      WantedMembers(c, rows, ids[..|ids| - 1], sink, d);
      assert ids == ids[..|ids| - 1] + [ids[|ids| - 1]];
    }
  }

  /** The candidates of a table without open transactions are the rows from `d` on. */
  lemma TailIsEligible(s: State, d: nat)
    requires OrderOk(s) && PrefixDelivered(s, d) && s.open == map[]
    ensures forall r :: r in Eligible(s) <==> exists m :: d <= m < |s.order| && s.order[m] == r
  {
    forall r
      ensures r in Eligible(s) <==> exists m :: d <= m < |s.order| && s.order[m] == r
    {
      assert !Locked(s, r);
      if r in s.rows {
        assert r in s.order;
        var m :| 0 <= m < |s.order| && s.order[m] == r;
        assert IsDelivered(s, r) <==> m < d;
      }
    }
  }

  /** The ids are rows in strictly increasing creation order. */
  ghost predicate Chronological(rows: map<RowId, Row>, ids: seq<RowId>) {
    && (forall i :: 0 <= i < |ids| ==> ids[i] in rows)
    && (forall i, j :: 0 <= i < j < |ids| ==> rows[ids[i]].createdAt < rows[ids[j]].createdAt)
  }

  /** A candidate that is not among the first `j` chosen is no older than the next one chosen. */
  lemma NoneOlder(rows: map<RowId, Row>, candidates: set<RowId>, limit: nat, batch: seq<RowId>, j: nat, r: RowId)
    requires OldestOf(rows, candidates, limit, batch) && j < |batch|
    requires r in candidates && r in rows && forall k :: 0 <= k < j ==> batch[k] != r
    ensures rows[batch[j]].createdAt <= rows[r].createdAt
  {
    if r in batch {
      var i :| 0 <= i < |batch| && batch[i] == r;
      assert j <= i;
    }
  }

  /** After the first `j` ids, the next id chosen is the next id. */
  lemma NextOldest(rows: map<RowId, Row>, ids: seq<RowId>, candidates: set<RowId>, batch: seq<RowId>, limit: nat,
                   j: nat)
    requires Chronological(rows, ids)
    requires forall r :: r in candidates <==> r in ids
    requires OldestOf(rows, candidates, limit, batch)
    requires j < |batch| && j <= |ids| && batch[..j] == ids[..j]
    ensures j < |ids| && batch[j] == ids[j]
  {
    assert batch[j] in candidates;
    var m :| 0 <= m < |ids| && ids[m] == batch[j];
    forall k | 0 <= k < j
      ensures batch[k] == ids[k]
    {
      assert batch[..j][k] == ids[..j][k];
    }
    assert j <= m;
    assert ids[j] in candidates;
    NoneOlder(rows, candidates, limit, batch, j, ids[j]);
  }

  lemma PrefixGrows<T>(a: seq<T>, b: seq<T>, j: nat)
    requires j < |a| && j < |b| && a[..j] == b[..j] && a[j] == b[j]
    ensures a[..j + 1] == b[..j + 1]
  {
    assert a[..j + 1] == a[..j] + [a[j]] && b[..j + 1] == b[..j] + [b[j]];
  }

  lemma OldestIsHead(rows: map<RowId, Row>, ids: seq<RowId>, candidates: set<RowId>, batch: seq<RowId>, limit: nat)
    requires Chronological(rows, ids)
    requires forall r :: r in candidates <==> r in ids
    requires OldestOf(rows, candidates, limit, batch)
    ensures batch <= ids
  {
    for j := 0 to |batch|
      invariant j <= |ids| && batch[..j] == ids[..j]
    {
      NextOldest(rows, ids, candidates, batch, limit, j);
      PrefixGrows(batch, ids, j);
    }
  }

  /** A sorted choice of the oldest rows of a quiet table is the head of the undelivered tail. */
  lemma OldestIsNextStretch(s: State, d: nat, limit: nat, batch: seq<RowId>)
    requires OrderOk(s) && PrefixDelivered(s, d) && s.open == map[]
    requires OldestOf(s.rows, Eligible(s), limit, batch)
    ensures d + |batch| <= |s.order| && batch == s.order[d..d + |batch|]
  {
    TailIsEligible(s, d);
    var tail := s.order[d..];
    assert forall i :: 0 <= i < |tail| ==> tail[i] == s.order[d + i];
    OldestIsHead(s.rows, tail, Eligible(s), batch, limit);
  }

  lemma BeginFollows(c: Config, s: State, step: Step, d: nat)
    requires Inv(c, s) && PrefixDelivered(s, d) && step.Begin? && SerialStep(s, step) && Enabled(c, s, step)
    ensures PrefixDelivered(Apply(c, s, step), d) && BatchFollows(Apply(c, s, step), d)
  {
    OldestIsNextStretch(s, d, c.batchSize, step.batch);
  }

  /** The members of a stretch are the ids at its places. */
  lemma InStretch(order: seq<RowId>, d: nat, batch: seq<RowId>, i: nat)
    requires NoDuplicates(order) && i < |order|
    requires d + |batch| <= |order| && batch == order[d..d + |batch|]
    ensures order[i] in batch <==> d <= i < d + |batch|
  {
    if d <= i < d + |batch| {
      assert batch[i - d] == order[i];
    }
    if order[i] in batch {
      var k :| 0 <= k < |batch| && batch[k] == order[i];
      assert order[d + k] == order[i];
    }
  }

  lemma CommitDeliversPrefix(c: Config, s: State, step: Step, d: nat)
    requires OrderOk(s) && Isolated(s) && PrefixDelivered(s, d) && BatchFollows(s, d)
    requires step.Commit? && Enabled(c, s, step)
    ensures PrefixDelivered(Apply(c, s, step), d + |s.open[step.worker].batch|)
    ensures Apply(c, s, step).open == map[]
  {
    var s' := Apply(c, s, step);
    var batch := s.open[step.worker].batch;
    CommitMarksBatch(c, s, step);
    forall i | 0 <= i < |s.order|
      ensures s.order[i] in s'.rows && s'.rows[s.order[i]].createdAt == s.rows[s.order[i]].createdAt
      ensures IsDelivered(s', s.order[i]) <==> i < d + |batch|
    {
      InStretch(s.order, d, batch, i);
    }
  }

  /** How the delivered prefix moves: only a commit extends it, by the whole batch. */
  function NextPrefix(s: State, step: Step, d: nat): nat {
    if step.Commit? && step.worker in s.open then d + |s.open[step.worker].batch| else d
  }

  lemma EnqueueKeepsPrefix(c: Config, s: State, step: Step, d: nat)
    requires OrderOk(s) && PrefixDelivered(s, d) && BatchFollows(s, d)
    requires step.Enqueue? && SerialStep(s, step) && Enabled(c, s, step)
    ensures PrefixDelivered(Apply(c, s, step), d) && BatchFollows(Apply(c, s, step), d)
  {
    var s' := Apply(c, s, step);
    assert step.id !in s.order;
    forall i | 0 <= i < |s.order|
      ensures s'.order[i] == s.order[i] && s'.rows[s'.order[i]] == s.rows[s.order[i]]
    {
      assert s.order[i] in s.rows;
    }
    forall w | w in s'.open
      ensures s'.open[w].batch == s'.order[d..d + |s'.open[w].batch|]
    {
      assert s.open[w].batch == s.order[d..d + |s.open[w].batch|];
    }
  }

  lemma StepKeepsPrefix(c: Config, s: State, step: Step, d: nat)
    requires Inv(c, s) && PrefixDelivered(s, d) && BatchFollows(s, d)
    requires SerialStep(s, step) && Enabled(c, s, step)
    ensures PrefixDelivered(Apply(c, s, step), NextPrefix(s, step, d))
    ensures BatchFollows(Apply(c, s, step), NextPrefix(s, step, d))
  {
    if step.Begin? {
      BeginFollows(c, s, step, d);
    } else if step.Commit? {
      CommitDeliversPrefix(c, s, step, d);
    } else if step.Enqueue? {
      EnqueueKeepsPrefix(c, s, step, d);
    } else {
      TransactionKeepsPrefix(c, s, step, d);
    }
  }

  lemma TransactionKeepsPrefix(c: Config, s: State, step: Step, d: nat)
    requires PrefixDelivered(s, d) && BatchFollows(s, d) && Enabled(c, s, step)
    requires step.Call? || step.Pass? || step.Mark? || step.Abort?
    ensures PrefixDelivered(Apply(c, s, step), d) && BatchFollows(Apply(c, s, step), d)
  {
    var s' := Apply(c, s, step);
    assert s'.rows == s.rows && s'.order == s.order;
    assert forall w :: w in s'.open ==> w in s.open && s'.open[w].batch == s.open[w].batch;
  }

  /** How the sink's mark moves when it is called or passed over for the current row. */
  function NextMark(s: State, step: Step, sink: Sink, d: nat, p: nat): nat {
    if (step.Call? || step.Pass?) && Busy(s, step.worker) && sink == DueSink(s.open[step.worker].stage)
       && p == d + s.open[step.worker].next
    then p + 1 else p
  }

  /** The row a sink is due for lies at or below the sink's mark. */
  lemma DueRow(c: Config, s: State, w: WorkerId, sink: Sink, d: nat, p: nat)
    requires Isolated(s) && PrefixDelivered(s, d) && BatchFollows(s, d) && HighWater(c, s, sink, d, p)
    requires Busy(s, w) && s.open[w].stage != AtMark && sink == DueSink(s.open[w].stage)
    ensures var at := d + s.open[w].next;
            at <= p && at < |s.order| && s.order[at] == Current(s, w) && |Served(s.open[w], sink)| == s.open[w].next
  {
    assert TxOk(s, s.open[w]);
  }

  /** The message due is the very next one above the mark, or it is below the mark already. */
  lemma MarkMeetsLog(c: Config, s: State, at: nat, sink: Sink, p: nat)
    requires NoDuplicates(s.order) && at <= p <= |s.order| && at < |s.order| && s.order[at] in s.rows
    requires FirstOccurrences(Log(s, sink)) == Wanted(c, s.rows, s.order[..p], sink)
    ensures var del := Delivery(s.order[at], s.rows[s.order[at]].payload);
            if p == at
            then del !in FirstOccurrences(Log(s, sink))
                 && Wanted(c, s.rows, s.order[..p + 1], sink)
                    == FirstOccurrences(Log(s, sink)) + (if Uses(c, sink, del.payload) then [del] else [])
            else Uses(c, sink, del.payload) <==> del in FirstOccurrences(Log(s, sink))
  {
    var del := Delivery(s.order[at], s.rows[s.order[at]].payload);
    WantedMembers(c, s.rows, s.order[..p], sink, del);
    if p == at {
      assert s.order[..p + 1][..p] == s.order[..p];
      assert s.order[at] !in s.order[..p];
    } else {
      assert s.order[..p][at] == s.order[at];
    }
  }

  /** Sequences of served rows after a dispatch step of the one worker. */
  lemma DispatchServed(c: Config, s: State, step: Step, sink: Sink, d: nat, p: nat, p': nat)
    requires Isolated(s) && BatchFollows(s, d) && Enabled(c, s, step) && (step.Call? || step.Pass? || step.Mark?)
    requires forall w :: w in s.open ==> d + |Served(s.open[w], sink)| <= p
    requires p <= p'
    requires (step.Call? || step.Pass?) && sink == DueSink(s.open[step.worker].stage) ==>
              d + s.open[step.worker].next < p'
    ensures forall w :: w in Apply(c, s, step).open ==> d + |Served(Apply(c, s, step).open[w], sink)| <= p'
  {
    assert TxOk(s, s.open[step.worker]);
    ServedGrowth(c, s, step, sink);
  }

  lemma DispatchMovesMark(c: Config, s: State, step: Step, sink: Sink, d: nat, p: nat)
    requires Isolated(s) && OrderOk(s) && PrefixDelivered(s, d) && BatchFollows(s, d) && HighWater(c, s, sink, d, p)
    requires Enabled(c, s, step) && (step.Call? || step.Pass?) && sink == DueSink(s.open[step.worker].stage)
    ensures HighWater(c, Apply(c, s, step), sink, d, NextMark(s, step, sink, d, p))
  {
    DueRow(c, s, step.worker, sink, d, p);
    DispatchServed(c, s, step, sink, d, p, NextMark(s, step, sink, d, p));
    DispatchMovesLog(c, s, step, sink, d + s.open[step.worker].next, p);
  }

  lemma DispatchMovesLog(c: Config, s: State, step: Step, sink: Sink, at: nat, p: nat)
    requires NoDuplicates(s.order) && at <= p <= |s.order| && at < |s.order|
    requires Enabled(c, s, step) && (step.Call? || step.Pass?) && sink == DueSink(s.open[step.worker].stage)
    requires s.order[at] == Current(s, step.worker)
    requires FirstOccurrences(Log(s, sink)) == Wanted(c, s.rows, s.order[..p], sink)
    ensures var s' := Apply(c, s, step);
            FirstOccurrences(Log(s', sink)) == Wanted(c, s'.rows, s'.order[..if p == at then p + 1 else p], sink)
  {
    var s' := Apply(c, s, step);
    var log := Log(s, sink);
    var del := Delivery(s.order[at], s.rows[s.order[at]].payload);
    MarkMeetsLog(c, s, at, sink, p);
    FirstOfAppend(log, del);
    assert Log(s', sink) == if step.Call? then log + [del] else log;
  }

  lemma StepKeepsMark(c: Config, s: State, step: Step, sink: Sink, d: nat, p: nat)
    requires Inv(c, s) && PrefixDelivered(s, d) && BatchFollows(s, d) && HighWater(c, s, sink, d, p)
    requires SerialStep(s, step) && Enabled(c, s, step)
    ensures HighWater(c, Apply(c, s, step), sink, NextPrefix(s, step, d), NextMark(s, step, sink, d, p))
  {
    if (step.Call? || step.Pass?) && sink == DueSink(s.open[step.worker].stage) {
      DispatchMovesMark(c, s, step, sink, d, p);
    } else {
      QuietKeepsMark(c, s, step, sink, d, p);
    }
  }

  /** No step changes a payload or the place of a row in the outbox. */
  lemma PayloadsStay(c: Config, s: State, step: Step)
    requires Enabled(c, s, step)
    ensures s.order <= Apply(c, s, step).order
    ensures forall r :: r in s.rows ==>
              r in Apply(c, s, step).rows && Apply(c, s, step).rows[r].payload == s.rows[r].payload
  {
  }

  /** A step that is not about the sink leaves its mark where it is. */
  lemma QuietKeepsMark(c: Config, s: State, step: Step, sink: Sink, d: nat, p: nat)
    requires Isolated(s) && OrderOk(s) && BatchFollows(s, d) && HighWater(c, s, sink, d, p)
    requires Enabled(c, s, step)
    requires !((step.Call? || step.Pass?) && sink == DueSink(s.open[step.worker].stage))
    ensures HighWater(c, Apply(c, s, step), sink, NextPrefix(s, step, d), p)
  {
    var s' := Apply(c, s, step);
    PayloadsStay(c, s, step);
    assert Log(s', sink) == Log(s, sink);
    assert s'.order[..p] == s.order[..p];
    assert forall r :: r in s.order[..p] ==> r in s.order;
    WantedFrame(c, s.rows, s'.rows, s.order[..p], sink);
    QuietServed(c, s, step, sink, d, p);
  }

  lemma QuietServed(c: Config, s: State, step: Step, sink: Sink, d: nat, p: nat)
    requires Isolated(s) && BatchFollows(s, d) && Enabled(c, s, step)
    requires d <= p && forall w :: w in s.open ==> d + |Served(s.open[w], sink)| <= p
    requires !((step.Call? || step.Pass?) && sink == DueSink(s.open[step.worker].stage))
    ensures NextPrefix(s, step, d) <= p
    ensures forall w :: w in Apply(c, s, step).open ==>
              NextPrefix(s, step, d) + |Served(Apply(c, s, step).open[w], sink)| <= p
  {
    if step.Call? || step.Pass? || step.Mark? {
      DispatchServed(c, s, step, sink, d, p, p);
    } else if step.Commit? {
      assert TxOk(s, s.open[step.worker]);
      assert Served(s.open[step.worker], sink) == s.open[step.worker].batch;
      assert Apply(c, s, step).open == map[];
    } else if step.Begin? {
      assert Served(Apply(c, s, step).open[step.worker], sink) == [];
    }
  }

  lemma {:induction false} SerialRunKeepsOrder(c: Config, s: State, steps: seq<Step>, sink: Sink, d: nat, p: nat)
    returns (d': nat, p': nat)
    requires Inv(c, s) && PrefixDelivered(s, d) && BatchFollows(s, d) && HighWater(c, s, sink, d, p)
    requires SerialRun(c, s, steps) && ValidRun(c, s, steps)
    ensures PrefixDelivered(Exec(c, s, steps), d') && HighWater(c, Exec(c, s, steps), sink, d', p')
    decreases |steps|
  {
    if steps == [] {
      return d, p;
    }
    StepKeepsInv(c, s, steps[0]);
    StepKeepsPrefix(c, s, steps[0], d);
    StepKeepsMark(c, s, steps[0], sink, d, p);
    d', p' := SerialRunKeepsOrder(c, Apply(c, s, steps[0]), steps[1..], sink,
                                  NextPrefix(s, steps[0], d), NextMark(s, steps[0], sink, d, p));
  }

  /**
   Ordered delivery: after any serial run, whatever failed on the way, the delivered rows are a prefix
   of the outbox, and each sink's log without repeats is a prefix of what the outbox has for it.
   */
  lemma OrderedDelivery(c: Config, steps: seq<Step>, sink: Sink)
    requires SerialRun(c, INIT, steps)
    ensures ValidRun(c, INIT, steps)
    ensures var s := Exec(c, INIT, steps);
            && FirstOccurrences(Log(s, sink)) <= Wanted(c, s.rows, s.order, sink)
            && (forall i, j :: 0 <= i < j < |s.order| ==>
                  s.order[i] in s.rows && s.order[j] in s.rows
                  && s.rows[s.order[i]].createdAt < s.rows[s.order[j]].createdAt
                  && (IsDelivered(s, s.order[j]) ==> IsDelivered(s, s.order[i])))
  {
    SerialIsValid(c, INIT, steps);
    InitInv(c);
    var d, p := SerialRunKeepsOrder(c, INIT, steps, sink, 0, 0);
    var s := Exec(c, INIT, steps);
    WantedPrefix(c, s.rows, s.order, p, sink);
  }
}
