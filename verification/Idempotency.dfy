/** The idempotency store: at most one claim per intent, DONE for good. */
module Idempotency {
  import opened Base

  datatype RecordState = InProgress | Done

  datatype Record = Record(state: RecordState, updatedAt: Time)

  /** What `begin` answers. */
  datatype BeginAnswer = New | AlreadyInProgress | AlreadyDone

  type Records = map<Id, Record>

  function Begin(rs: Records, intent: Id, now: Time): (Records, BeginAnswer) {
    if intent !in rs then (rs[intent := Record(InProgress, now)], New)
    else if rs[intent].state.Done? then (rs, AlreadyDone)
    else (rs, AlreadyInProgress)
  }

  function Complete(rs: Records, intent: Id, now: Time): Records {
    rs[intent := Record(Done, now)]
  }

  function ClearInProgress(rs: Records, intent: Id): Records {
    if intent in rs && rs[intent].state.InProgress? then rs - {intent} else rs
  }

  predicate IsDone(rs: Records, intent: Id) {
    intent in rs && rs[intent].state.Done?
  }

  class InMemoryIdempotencyStore {
    var records: Records

    constructor ()
      ensures records == map[]
    {
      records := map[];
    }

    method BeginIntent(intent: Id, now: Time) returns (answer: BeginAnswer)
      modifies this
      ensures (records, answer) == Begin(old(records), intent, now)
    {
      if intent !in records {
        records := records[intent := Record(InProgress, now)];
        return New;
      }
      if records[intent].state.Done? {
        return AlreadyDone;
      }
      return AlreadyInProgress;
    }

    method CompleteIntent(intent: Id, now: Time)
      modifies this
      ensures records == Complete(old(records), intent, now)
    {
      records := records[intent := Record(Done, now)];
    }

    method Clear(intent: Id)
      modifies this
      ensures records == ClearInProgress(old(records), intent)
    {
      if intent !in records {
        return;
      }
      if records[intent].state.InProgress? {
        records := records - {intent};
      }
    }

    method Get(intent: Id) returns (r: Option<Record>)
      ensures r == if intent in records then Some(records[intent]) else None
    {
      r := if intent in records then Some(records[intent]) else None;
    }
  }
}
