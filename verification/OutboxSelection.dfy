/** How many rows a locking SELECT takes. */
module OutboxSelection {
  import opened Options
  import opened OutboxProtocol

  function Undelivered(s: State): set<RowId> {
    set r | r in s.rows && s.rows[r].deliveredAt == None
  }

  function Min(a: nat, b: nat): nat {
    if a < b then a else b
  }

  lemma {:induction false} DistinctCount<T>(batch: seq<T>, items: set<T>)
    requires NoDuplicates(batch) && forall x :: x in items <==> x in batch
    ensures |items| == |batch|
  {
    if batch == [] {
      assert items == {};
    } else {
      var n := |batch| - 1;
      assert batch == batch[..n] + [batch[n]];
      DistinctCount(batch[..n], items - {batch[n]});
    }
  }

  lemma SubsetCount<T>(a: set<T>, b: set<T>)
    requires a <= b
    ensures |a| <= |b| && |b - a| == |b| - |a|
  {
    assert b == a + (b - a);
  }

  /** A selection takes as many rows as the limit allows and there are. */
  lemma SelectionSize(rows: map<RowId, Row>, candidates: set<RowId>, limit: nat, batch: seq<RowId>)
    requires OldestOf(rows, candidates, limit, batch)
    ensures |batch| == Min(limit, |candidates|)
  {
    var items := set r | r in batch;
    DistinctCount(batch, items);
    SubsetCount(items, candidates);
    if |batch| < limit {
      assert items == candidates;
    }
  }
}
