/** No row is ever stuck: from every reachable state some run without new rows delivers everything. */
module OutboxDrain {
  import opened OutboxProtocol
  import opened OutboxInvariant
  import opened OutboxDelivery
  import opened OutboxSelection

  lemma {:induction false} EarliestExists(rows: map<RowId, Row>, candidates: set<RowId>) returns (r: RowId)
    requires candidates != {} && forall x :: x in candidates ==> x in rows
    ensures r in candidates && forall x :: x in candidates ==> rows[r].createdAt <= rows[x].createdAt
    decreases candidates
  {
    var any :| any in candidates;
    var rest := candidates - {any};
    r := any;
    if rest != {} {
      var q := EarliestExists(rows, rest);
      r := if rows[q].createdAt < rows[any].createdAt then q else any;
    }
    forall x | x in candidates
      ensures rows[r].createdAt <= rows[x].createdAt
    {
      assert x == any || x in rest;
    }
  }

  /** The locking SELECT always has an answer. */
  lemma {:induction false} SelectionExists(rows: map<RowId, Row>, candidates: set<RowId>, limit: nat)
    returns (batch: seq<RowId>)
    requires forall x :: x in candidates ==> x in rows
    ensures OldestOf(rows, candidates, limit, batch)
    decreases limit
  {
    if limit == 0 || candidates == {} {
      return [];
    }
    var r := EarliestExists(rows, candidates);
    var rest := SelectionExists(rows, candidates - {r}, limit - 1);
    batch := [r] + rest;
    assert forall i :: 0 < i < |batch| ==> batch[i] == rest[i - 1];
    assert forall x :: x in candidates && x != r ==> x in candidates - {r};
  }

  function StepsLeft(stage: Stage): nat {
    match stage case AtKafka => 2 case AtTripleStore => 1 case AtMark => 0
  }

  /** What a busy worker can do next, if nothing fails. */
  lemma NextStep(c: Config, s: State, w: WorkerId) returns (step: Step)
    requires Isolated(s) && w in s.open && s.open[w].next < |s.open[w].batch|
    ensures (step.Call? || step.Pass? || step.Mark?) && step.worker == w && Enabled(c, s, step)
    ensures var s' := Apply(c, s, step);
            && w in s'.open && s'.rows == s.rows && s'.open == s.open[w := s'.open[w]]
            && s'.open[w].batch == s.open[w].batch
            && (if s.open[w].stage == AtMark then s'.open[w].next == s.open[w].next + 1
                else s'.open[w].next == s.open[w].next && StepsLeft(s'.open[w].stage) < StepsLeft(s.open[w].stage))
  {
    assert TxOk(s, s.open[w]);
    assert s.open[w].batch[s.open[w].next] in s.open[w].batch;
    step := if s.open[w].stage == AtMark then Mark(w) else if Calling(c, s, w) then Call(w) else Pass(w);
  }

  lemma CommitDelivers(c: Config, s: State, w: WorkerId)
    requires Isolated(s) && w in s.open && s.open[w].next == |s.open[w].batch|
    ensures var s' := Apply(c, s, Commit(w, true));
            s'.open == s.open - {w} && Undelivered(s') == Undelivered(s) - (set r | r in s.open[w].batch)
  {
    var tx := s.open[w];
    assert TxOk(s, tx);
    assert tx.batch[..tx.next] == tx.batch;
  }

  /** An open batch can be finished: what is left of it is dispatched and committed. */
  lemma {:induction false} BatchCanFinish(c: Config, s: State, w: WorkerId) returns (steps: seq<Step>)
    requires Inv(c, s) && w in s.open
    ensures ValidRun(c, s, steps)
    ensures var s' := Exec(c, s, steps);
            Inv(c, s') && s'.open == s.open - {w} && Undelivered(s') == Undelivered(s) - (set r | r in s.open[w].batch)
    ensures AddsNoRow(steps)
    decreases |s.open[w].batch| - s.open[w].next, StepsLeft(s.open[w].stage)
  {
    assert TxOk(s, s.open[w]);
    var step;
    if s.open[w].next == |s.open[w].batch| {
      step := Commit(w, true);
      CommitDelivers(c, s, w);
      StepKeepsInv(c, s, step);
      steps := StartWith(c, s, step, Apply(c, s, step), []);
    } else {
      step := NextStep(c, s, w);
      StepKeepsInv(c, s, step);
      var s' := Apply(c, s, step);
      var rest := BatchCanFinish(c, s', w);
      steps := StartWith(c, s, step, s', rest);
      assert s'.open - {w} == s.open - {w};
    }
  }

  ghost predicate AddsNoRow(steps: seq<Step>) {
    forall step :: step in steps ==> !step.Enqueue?
  }

  /** One open transaction fewer. */
  lemma OneFewerOpen(c: Config, s: State) returns (steps: seq<Step>, s': State)
    requires Inv(c, s) && s.open.Keys != {}
    ensures ValidRun(c, s, steps) && Exec(c, s, steps) == s' && AddsNoRow(steps) && Inv(c, s')
    ensures |s'.open| < |s.open| && |Undelivered(s')| <= |Undelivered(s)|
  {
    var w :| w in s.open.Keys;
    steps := BatchCanFinish(c, s, w);
    s' := Exec(c, s, steps);
    SubsetCount(Undelivered(s'), Undelivered(s));
    assert s'.open.Keys == s.open.Keys - {w};
  }

  /** On a quiet table, fewer undelivered rows. */
  lemma OneFewerRow(c: Config, s: State) returns (steps: seq<Step>, s': State)
    requires Inv(c, s) && c.batchSize > 0 && s.open.Keys == {} && Undelivered(s) != {}
    ensures ValidRun(c, s, steps) && Exec(c, s, steps) == s' && AddsNoRow(steps) && Inv(c, s')
    ensures |Undelivered(s')| < |Undelivered(s)|
  {
    var s1, begin := BatchCanBegin(c, s);
    var rest := BatchCanFinish(c, s1, 0);
    s' := Exec(c, s1, rest);
    steps := StartWith(c, s, begin, s1, rest);
    var r :| r in s1.open[0].batch && r in Undelivered(s);
    SubsetCount(Undelivered(s') + {r}, Undelivered(s));
  }

  /** Whatever has happened, a run without new rows delivers every row. */
  lemma {:induction false} CanAlwaysDrain(c: Config, s: State) returns (steps: seq<Step>)
    requires Inv(c, s) && c.batchSize > 0
    ensures ValidRun(c, s, steps) && Undelivered(Exec(c, s, steps)) == {}
    ensures AddsNoRow(steps)
    decreases |Undelivered(s)|, |s.open|
  {
    if s.open.Keys == {} && Undelivered(s) == {} {
      return [];
    }
    var first, s';
    if s.open.Keys != {} {
      first, s' := OneFewerOpen(c, s);
    } else {
      first, s' := OneFewerRow(c, s);
    }
    var rest := CanAlwaysDrain(c, s');
    RunConcat(c, s, first, rest);
    steps := first + rest;
  }

  lemma BatchCanBegin(c: Config, s: State) returns (s1: State, begin: Step)
    requires Inv(c, s) && c.batchSize > 0 && s.open.Keys == {} && Undelivered(s) != {}
    ensures begin.Begin? && Enabled(c, s, begin) && s1 == Apply(c, s, begin) && Inv(c, s1)
    ensures 0 in s1.open && Undelivered(s1) == Undelivered(s)
    ensures exists r :: r in s1.open[0].batch && r in Undelivered(s)
  {
    assert forall r :: !Locked(s, r);
    assert Eligible(s) == Undelivered(s);
    var batch := SelectionExists(s.rows, Eligible(s), c.batchSize);
    SelectionSize(s.rows, Eligible(s), c.batchSize, batch);
    assert batch[0] in Undelivered(s);
    begin := Begin(0, 0, batch);
    StepKeepsInv(c, s, begin);
    s1 := Apply(c, s, begin);
    assert s1.open[0].batch[0] in s1.open[0].batch;
  }
}
