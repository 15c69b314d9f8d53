/** OutboxEmitter: an event becomes a fresh undelivered row, or nothing happens. */
module OutboxEmitting {
  import opened Options
  import opened OutboxProtocol
  import opened OutboxWorker

  class OutboxEmitter {
    const db: World?

    constructor (db: World?)
      ensures this.db == db
    {
      this.db := db;
    }

    /** `payload` is None when the event cannot be marshalled; an id that is taken violates the primary key. */
    method Emit(payload: Option<Payload>, id: RowId, now: Time, fails: bool) returns (outcome: Outcome)
      requires db != null ==> db.Valid()
      modifies db
      ensures outcome == Succeeded <==> db == null || (payload.Some? && id !in old(db.state.rows) && !fails)
      ensures db != null ==> db.Valid() && db.state.open == old(db.state.open)
      ensures db != null && outcome == Succeeded ==>
                && db.history == old(db.history) + [Enqueue(id, payload.value, now)]
                && db.state.rows == old(db.state.rows)[id := Row(payload.value, now, None)]
      ensures db != null && outcome == Failed ==> db.state == old(db.state) && db.history == old(db.history)
    {
      if db == null {
        return Succeeded;
      }
      if payload.None? {
        return Failed;
      }
      if fails || id in db.state.rows {
        return Failed;
      }
      db.Perform(Enqueue(id, payload.value, now));
      outcome := Succeeded;
    }
  }
}
