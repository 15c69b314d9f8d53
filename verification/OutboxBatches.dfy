/**
 Batch atomicity over whole runs with any number of workers: a row is delivered by nothing but a commit,
 and a commit delivers exactly the oldest rows that were available when its batch was selected.
 */
module OutboxBatches {
  import opened Options
  import opened OutboxInvariant
  import opened OutboxProtocol
  import opened OutboxSelection

  /** An open transaction after a step was open before, with the same batch, or has just begun. */
  lemma OpensOrKeeps(c: Config, s: State, step: Step, w: WorkerId)
    requires Enabled(c, s, step) && w in Apply(c, s, step).open
    ensures var tx := Apply(c, s, step).open[w];
            if w in s.open then s.open[w].batch == tx.batch && s.open[w].startedAt == tx.startedAt
            else step == Begin(w, tx.startedAt, tx.batch)
  {
  }

  /** The worker began in step `i` and has held the batch in every state from there to state `k`. */
  ghost predicate HeldSince(c: Config, steps: seq<Step>, w: WorkerId, i: nat, k: nat)
    requires ValidRun(c, INIT, steps)
  {
    && i < k <= |steps| && steps[i].Begin? && steps[i].worker == w
    && forall j :: i < j <= k ==>
         var s := StateAt(c, steps, j);
         w in s.open && s.open[w].batch == steps[i].batch && s.open[w].startedAt == steps[i].now
  }

  lemma {:induction false} BeganOnce(c: Config, steps: seq<Step>, w: WorkerId, k: nat) returns (i: nat)
    requires ValidRun(c, INIT, steps) && k <= |steps| && w in StateAt(c, steps, k).open
    ensures HeldSince(c, steps, w, i, k)
  {
    assert k > 0 by {
      assert steps[..0] == [];
    }
    StateAfter(c, steps, k - 1);
    OpensOrKeeps(c, StateAt(c, steps, k - 1), steps[k - 1], w);
    if w in StateAt(c, steps, k - 1).open {
      i := BeganOnce(c, steps, w, k - 1);
    } else {
      i := k - 1;
    }
  }

  /** The chosen rows carry the delivery time, and nothing else in the table differs. */
  ghost predicate Delivers(before: map<RowId, Row>, after: map<RowId, Row>, chosen: set<RowId>, at: Time) {
    && after.Keys == before.Keys
    && (forall r :: r in before && r in chosen ==> after[r] == Row(before[r].payload, before[r].createdAt, Some(at)))
    && (forall r :: r in before && r !in chosen ==> after[r] == before[r])
  }

  /** Step `i` selected the oldest available rows of its state, and the commit in step `k` delivers exactly them. */
  ghost predicate DeliversSelection(c: Config, steps: seq<Step>, i: nat, k: nat)
    requires ValidRun(c, INIT, steps)
  {
    && i < k < |steps| && steps[i].Begin? && steps[k].Commit? && steps[i].worker == steps[k].worker
    && var batch := steps[i].batch;
       var chosen := set r | r in batch;
       var selected, before, after := StateAt(c, steps, i), StateAt(c, steps, k), StateAt(c, steps, k + 1);
       && OldestOf(selected.rows, Eligible(selected), c.batchSize, batch)
       && |batch| == Min(c.batchSize, |Eligible(selected)|)
       && chosen <= Undelivered(before)
       && Delivers(before.rows, after.rows, chosen, steps[i].now)
       && Undelivered(after) == Undelivered(before) - chosen
  }

  /** What a commit does to the table. */
  lemma CommitMarksBatch(c: Config, s: State, step: Step)
    requires Isolated(s) && Enabled(c, s, step) && step.Commit?
    ensures var tx := s.open[step.worker];
            var chosen := set r | r in tx.batch;
            var s' := Apply(c, s, step);
            && chosen <= Undelivered(s)
            && Delivers(s.rows, s'.rows, chosen, tx.startedAt)
            && Undelivered(s') == Undelivered(s) - chosen
  {
    var tx := s.open[step.worker];
    assert TxOk(s, tx);
    assert tx.batch[..tx.next] == tx.batch;
    assert tx.marks == set r | r in tx.batch;
  }

  lemma OnlyCommitsDeliver(c: Config, s: State, step: Step, r: RowId)
    requires Enabled(c, s, step) && !step.Commit?
    ensures IsDelivered(Apply(c, s, step), r) <==> IsDelivered(s, r)
  {
  }

  lemma StateKeepsInv(c: Config, steps: seq<Step>, k: nat)
    requires ValidRun(c, INIT, steps) && k <= |steps|
    ensures Inv(c, StateAt(c, steps, k))
  {
    RunPrefix(c, INIT, steps, k);
    InitInv(c);
    RunKeepsInv(c, INIT, steps[..k]);
  }

  /** Every step of every run leaves the delivered rows alone or delivers one whole oldest selection. */
  lemma BatchAtomicity(c: Config, steps: seq<Step>, k: nat) returns (i: nat)
    requires ValidRun(c, INIT, steps) && k < |steps|
    ensures if steps[k].Commit? then HeldSince(c, steps, steps[k].worker, i, k) && DeliversSelection(c, steps, i, k)
            else forall r :: IsDelivered(StateAt(c, steps, k + 1), r) <==> IsDelivered(StateAt(c, steps, k), r)
  {
    i := 0;
    var s := StateAt(c, steps, k);
    StateAfter(c, steps, k);
    if steps[k].Commit? {
      i := BeganOnce(c, steps, steps[k].worker, k);
      var selected := StateAt(c, steps, i);
      StateAfter(c, steps, i);
      SelectionSize(selected.rows, Eligible(selected), c.batchSize, steps[i].batch);
      StateKeepsInv(c, steps, k);
      CommitMarksBatch(c, s, steps[k]);
    } else {
      forall r
        ensures IsDelivered(StateAt(c, steps, k + 1), r) <==> IsDelivered(s, r)
      {
        OnlyCommitsDeliver(c, s, steps[k], r);
      }
    }
  }
}
