/** The orchestrator's budget and arbitration as a program: restoring, one tick, and applying a result. A tick and an
    application are paths of the transition system.
 */
module Orchestrator {
  import opened Base
  import opened Arbitration
  import opened Budget
  import opened ExecutionResults
  import opened Paths
  import opened Pipeline
  import BudgetStore
  import Q = ExecutionQueue
  import Box = ResultInbox

  // ---------------------------------------------------------------- snapshot lookup

  predicate HasId(events: seq<BudgetEvent>, id: Id) {
    exists e :: e in events && e.id == id
  }

  /** Reading on: nothing is kept until the snapshot's event has been seen. */
  lemma {:induction false} SuffixGrows(events: seq<BudgetEvent>, e: BudgetEvent, id: Id)
    ensures BudgetStore.SuffixAfter(events + [e], id)
            == if HasId(events, id) then BudgetStore.SuffixAfter(events, id) + [e] else []
    ensures !HasId(events, id) ==> BudgetStore.SuffixAfter(events, id) == []
  {
    if events != [] {
      assert (events + [e])[1..] == events[1..] + [e];
      SuffixGrows(events[1..], e, id);
      assert HasId(events, id) <==> events[0].id == id || HasId(events[1..], id) by {
        assert forall x :: x in events <==> x == events[0] || x in events[1..];
      }
    }
  }

  // ---------------------------------------------------------------- applying a result

  /** What is remembered of an intent until its result comes back. */
  datatype ExecutionMeta = ExecutionMeta(domain: string, reservation: Option<Delta>)

  /** A result as it reaches the orchestrator. The empty domain stands for a missing one. */
  datatype Report = Report(
    intent: Option<Q.IntentId>, domain: string, reservation: Option<Delta>, result: Option<ExecutionResult>)

  type Pending = map<string, seq<ExecutionResult>>

  function MetaOf(meta: map<Q.IntentId, ExecutionMeta>, r: Report): Option<ExecutionMeta> {
    if r.intent.Some? && r.intent.value in meta then Some(meta[r.intent.value]) else None
  }

  /** What the report leaves out is taken from what was remembered. */
  function Completed(r: Report, meta: Option<ExecutionMeta>): Report {
    match meta
    case None => r
    case Some(m) => r.(domain := if r.domain == "" then m.domain else r.domain,
                       reservation := if r.reservation.None? then m.reservation else r.reservation)
  }

  function WithFeedback(pending: Pending, domain: string, result: ExecutionResult): Pending {
    if domain == "" then pending
    else pending[domain := (if domain in pending then pending[domain] else []) + [result]]
  }

  predicate GivesBack(r: Report) {
    r.reservation.Some? && r.result.Some? && Fails(r.result.value)
  }

  function ReportOf(env: Box.Envelope): Report {
    Report(Some(env.intent), env.domain, env.reservation, Some(env.result))
  }

  function AfterResult(st: BudgetStore.Store, limit: real, r: Report, id: Id, now: Time): BudgetStore.Store {
    if GivesBack(r) then BudgetStore.Emit(st, limit, BudgetEvent(id, now, RolledBack, Negate(r.reservation.value)))
    else st
  }

  function AfterRecovery(st: BudgetStore.Store, limit: real, id: Id, now: Time): BudgetStore.Store {
    var d := RecoveryDelta(st.live, now);
    if Recovers(d) then BudgetStore.Emit(st, limit, BudgetEvent(id, now, Recovered, d.value)) else st
  }

  predicate RecoveryRaises(st: BudgetStore.Store, limit: real, failFast: bool, now: Time) {
    failFast && Recovers(RecoveryDelta(st.live, now)) && Magnitude(RecoveryDelta(st.live, now).value) > limit
  }

  function IdAfterRecovery(st: BudgetStore.Store, limit: real, id: Id, now: Time): Id {
    var d := RecoveryDelta(st.live, now);
    if Recovers(d) && Magnitude(d.value) <= limit then id + 1 else id
  }

  // ---------------------------------------------------------------- bidding

  datatype Runtime = Runtime(domain: string, active: bool, starvation: real)

  /** Why a winner's intent does not become a job. */
  datatype Block = ProjectionFails | ExecutionForbidden | PanicMode | PlatformDisabled

  /** What a context's life loop proposes in a tick; `denied` is the governance gate's answer. */
  datatype Proposal = Proposal(intent: Q.IntentId, cost: Option<ResourceCost>, risk: real, memory: MemoryContext,
                               denied: bool, block: Option<Block>)

  function BlockResult(b: Block): ExecutionResult {
    if b.ProjectionFails? then ExecutionResult(Failed, InternalFailure) else ExecutionResult(Rejected, PolicyFailure)
  }

  /** A proposal's priority, if it gets as far as the arbitrator. */
  function Bid(r: Runtime, p: Option<Proposal>, b: ResourceBudget): Option<real> {
    if p.None? || p.value.cost.None? then None
    else if p.value.memory.cooldownRequired && p.value.risk > 0.1 then None
    else if !Evaluate(p.value.cost, b).Approved? then None
    else Some(ComputePriority(p.value.risk, r.starvation, Some(p.value.memory)))
  }

  ghost predicate Addressed(targets: seq<nat>, runtimes: seq<Runtime>, proposals: seq<Option<Proposal>>) {
    && |proposals| == |runtimes| && NoDuplicates(targets)
    && (forall k :: 0 <= k < |targets| ==> targets[k] < |runtimes|)
  }

  function Bids(targets: seq<nat>, runtimes: seq<Runtime>, proposals: seq<Option<Proposal>>,
                b: ResourceBudget): (cs: seq<Candidate>)
    requires |proposals| == |runtimes| && forall k :: 0 <= k < |targets| ==> targets[k] < |runtimes|
    ensures forall c :: c in cs ==>
                c.context in targets && c.context < |runtimes|
                && Bid(runtimes[c.context], proposals[c.context], b) == Some(c.priority)
  {
    if targets == [] then []
    else
      var n := |targets| - 1;
      var bid := Bid(runtimes[targets[n]], proposals[targets[n]], b);
      Bids(targets[..n], runtimes, proposals, b) + if bid.Some? then [Candidate(targets[n], bid.value)] else []
  }

  ghost predicate Bidding(cs: seq<Candidate>, i: nat) {
    exists c :: c in cs && c.context == i
  }

  function WinnerOf(cs: seq<Candidate>, proposals: seq<Option<Proposal>>): (w: Option<nat>)
    ensures w.Some? ==> exists c :: c in cs && c.context == w.value
  {
    match Select(cs)
    case None => None
    case Some(c) =>
      SelectedIsCandidate(cs);
      if c.context < |proposals| && proposals[c.context].Some? && proposals[c.context].value.denied then None
      else Some(c.context)
  }

  lemma SelectedIsCandidate(cs: seq<Candidate>)
    ensures Select(cs).Some? ==> Select(cs).value in cs
  {
    if cs != [] {
      StableSort.SortKeeps(cs, HIGHER);
      assert Select(cs).value in multiset(StableSort.SortDescending(cs, HIGHER));
    }
  }

  /** What a winning proposal comes to. */
  function WinnerOrder(p: Proposal, domain: string, priority: real, newJob: Q.JobId, now: Time, id: Id): Order
    requires p.cost.Some?
  {
    if p.block.Some? then SubmitBlocked(p.cost.value, now, id, id + 1)
    else Submit(newJob, p.intent, domain, p.cost.value, priority, now, id)
  }

  function AuctionLabels(winner: Option<nat>, runtimes: seq<Runtime>, proposals: seq<Option<Proposal>>,
                         b: ResourceBudget, newJob: Q.JobId, now: Time, id: Id): seq<Label>
    requires |proposals| == |runtimes|
    requires winner.Some? ==> winner.value < |runtimes| && Bid(runtimes[winner.value], proposals[winner.value], b).Some?
  {
    if winner.None? then []
    else
      var w := winner.value;
      var priority := Bid(runtimes[w], proposals[w], b).value;
      [Orchestrate(WinnerOrder(proposals[w].value, runtimes[w].domain, priority, newJob, now, id))]
  }

  predicate AuctionRaises(winner: Option<nat>, proposals: seq<Option<Proposal>>, limit: real, failFast: bool)
    requires winner.Some? ==>
               winner.value < |proposals| && proposals[winner.value].Some? && proposals[winner.value].value.cost.Some?
  {
    winner.Some? && failFast && Magnitude(ReservationDelta(proposals[winner.value].value.cost.value)) > limit
  }

  function TickLabels(recoveryRaises: bool, auctionRaises: bool, auction: seq<Label>, now: Time, id: Id): seq<Label> {
    [Orchestrate(RecoverBudget(now, id))]
    + if recoveryRaises then [] else if auctionRaises then auction
      else auction + [Orchestrate(Order.PersistBudget(now))]
  }

  ghost predicate UpdatedOne(before: Runtime, after: Runtime, i: nat, winner: Option<nat>, cs: seq<Candidate>) {
    after == if before.active
             then before.(starvation := UpdateStarvation(before.starvation, winner == Some(i), Bidding(cs, i)))
             else before
  }

  ghost predicate Updated(before: seq<Runtime>, after: seq<Runtime>, winner: Option<nat>, cs: seq<Candidate>) {
    |after| == |before| && forall i :: 0 <= i < |before| ==> UpdatedOne(before[i], after[i], i, winner, cs)
  }

  function ReservedAndBack(st: BudgetStore.Store, limit: real, d: Delta, id: Id, now: Time): BudgetStore.Store {
    var reserved := BudgetStore.Emit(st, limit, BudgetEvent(id, now, Reserved, d));
    BudgetStore.Persist(BudgetStore.Emit(reserved, limit, BudgetEvent(id + 1, now, RolledBack, Negate(d))), now)
  }

  lemma BlockedBudget(s: World, o: Order)
    requires o.SubmitBlocked? && o.rollbackId == o.eventId + 1 && CanOrder(s, o)
    ensures
      var d := ReservationDelta(o.cost);
      Obey(s, o) == s.(budget := if TooLarge(s, d) && s.cfg.failFast then s.budget
                                 else ReservedAndBack(s.budget, s.cfg.limit, d, o.eventId, o.now))
  {
  }

  // ---------------------------------------------------------------- the mutable objects

  class InMemoryBudgetBackend {
    var snapshot: Option<BudgetStore.Snapshot>

    constructor ()
      ensures snapshot == None
    {
      snapshot := None;
    }

    method Load() returns (s: Option<BudgetStore.Snapshot>)
      ensures s == snapshot
    {
      s := snapshot;
    }

    method Save(s: BudgetStore.Snapshot)
      modifies this
      ensures snapshot == Some(s)
    {
      snapshot := Some(s);
    }
  }

  class InMemoryBudgetLedger {
    var events: seq<BudgetEvent>

    constructor ()
      ensures events == []
    {
      events := [];
    }

    method RecordEvent(e: BudgetEvent)
      modifies this
      ensures events == old(events) + [e]
    {
      events := events + [e];
    }
  }

  class StrategicOrchestrator {
    const limit: real
    const failFast: bool
    const backend: InMemoryBudgetBackend
    const ledger: InMemoryBudgetLedger
    const queue: Q.InMemoryExecutionQueue
    var budget: ResourceBudget
    var runtimes: seq<Runtime>
    var pendingFeedback: Pending
    var pendingMeta: map<Q.IntentId, ExecutionMeta>
    var ticksSinceFailure: int
    var nextEventId: Id

    ghost predicate Valid()
      reads this, ledger
    {
      forall e :: e in ledger.events ==> e.id < nextEventId
    }

    ghost function State(): BudgetStore.Store
      reads this, ledger, backend
    {
      BudgetStore.Store(budget, ledger.events, backend.snapshot)
    }

    /** The world shows this budget and this queue. */
    ghost predicate At(s: World)
      reads this, ledger, backend, queue
    {
      Valid() && s.cfg.limit == limit && s.cfg.failFast == failFast && s.budget == State() && s.queue == queue.State()
    }

    /** A start, or a restart after a crash. */
    constructor (limit: real, failFast: bool, backend: InMemoryBudgetBackend, ledger: InMemoryBudgetLedger,
                 queue: Q.InMemoryExecutionQueue, firstId: Id, now: Time)
      requires forall e :: e in ledger.events ==> e.id < firstId
      ensures Valid() && this.limit == limit && this.failFast == failFast
      ensures this.backend == backend && this.ledger == ledger && this.queue == queue
      ensures budget == BudgetStore.Restore(backend.snapshot, ledger.events, now)
      ensures pendingFeedback == map[] && pendingMeta == map[] && runtimes == []
    {
      this.limit, this.failFast := limit, failFast;
      this.backend, this.ledger, this.queue := backend, ledger, queue;
      budget := DefaultBudget(now);
      runtimes, pendingFeedback, pendingMeta := [], map[], map[];
      ticksSinceFailure, nextEventId := 100, firstId;
      new;
      budget := RestoreBudget(now);
    }

    method EventsToReplay(lastId: Option<Id>) returns (replayEvents: seq<BudgetEvent>)
      ensures replayEvents
              == match lastId case None => ledger.events case Some(id) => BudgetStore.SuffixAfter(ledger.events, id)
    {
      if lastId.None? {
        return ledger.events;
      }
      var events := ledger.events;
      var foundSnapshot := false;
      replayEvents := [];
      for i := 0 to |events|
        invariant foundSnapshot == HasId(events[..i], lastId.value)
        invariant replayEvents == BudgetStore.SuffixAfter(events[..i], lastId.value)
      {
        assert events[..i + 1] == events[..i] + [events[i]];
        SuffixGrows(events[..i], events[i], lastId.value);
        if foundSnapshot {
          replayEvents := replayEvents + [events[i]];
        } else if events[i].id == lastId.value {
          foundSnapshot := true;
        }
      }
      assert events[..|events|] == events;
    }

    /** `_restore_budget`: the snapshot, or the default budget, and everything after the snapshot's last event. */
    method RestoreBudget(now: Time) returns (restored: ResourceBudget)
      ensures restored == BudgetStore.Restore(backend.snapshot, ledger.events, now)
    {
      var snapshot := backend.Load();
      var lastId: Option<Id> := None;
      if snapshot.Some? {
        restored, lastId := snapshot.value.budget, snapshot.value.lastEventId;
      } else {
        restored := DefaultBudget(now);
      }
      var replayEvents := EventsToReplay(lastId);
      ghost var start := restored;
      for i := 0 to |replayEvents|
        invariant restored == Budget.Replay(start, replayEvents[..i])
      {
        assert replayEvents[..i + 1][..i] == replayEvents[..i];
        restored := Reduce(restored, replayEvents[i]);
      }
      assert replayEvents[..|replayEvents|] == replayEvents;
    }

    /** `_emit_budget_event`; not ok means that it raised. */
    method EmitBudgetEvent(kind: EventKind, delta: Delta, now: Time) returns (ok: bool)
      requires Valid()
      modifies this`budget, this`nextEventId, ledger
      ensures Valid() && ok == !(Magnitude(delta) > limit && failFast)
      ensures State() == BudgetStore.Emit(old(State()), limit, BudgetEvent(old(nextEventId), now, kind, delta))
      ensures nextEventId == old(nextEventId) + if Magnitude(delta) > limit then 0 else 1
    {
      if Magnitude(delta) > limit {
        return !failFast;
      }
      var event := BudgetEvent(nextEventId, now, kind, delta);
      nextEventId := nextEventId + 1;
      ledger.RecordEvent(event);
      budget := Reduce(budget, event);
      return true;
    }

    method PersistBudget(now: Time)
      modifies backend
      ensures State() == BudgetStore.Persist(old(State()), now)
    {
      var history := ledger.events;
      var lastId := if history == [] then None else Some(history[|history| - 1].id);
      backend.Save(BudgetStore.Snapshot(budget, now, lastId));
    }

    /** `post_execution_pipeline`; not ok means that the rollback raised, before anything was persisted. */
    method PostExecutionPipeline(report: Report, now: Time) returns (ok: bool)
      requires Valid()
      modifies this`budget, this`nextEventId, this`pendingFeedback, this`pendingMeta, ledger, backend
      ensures Valid()
      ensures
        var r := Completed(report, MetaOf(old(pendingMeta), report));
        nextEventId
        == old(nextEventId) + if GivesBack(r) && Magnitude(Negate(r.reservation.value)) <= limit then 1 else 0
      ensures pendingMeta == if report.intent.Some? then old(pendingMeta) - {report.intent.value} else old(pendingMeta)
      ensures
        var r := Completed(report, MetaOf(old(pendingMeta), report));
        pendingFeedback
        == if r.result.Some? then WithFeedback(old(pendingFeedback), r.domain, r.result.value) else old(pendingFeedback)
      ensures
        var r := Completed(report, MetaOf(old(pendingMeta), report));
        ok == !(GivesBack(r) && Magnitude(Negate(r.reservation.value)) > limit && failFast)
      ensures
        var r := Completed(report, MetaOf(old(pendingMeta), report));
        State() == if r.result.None? || !ok then old(State())
                   else BudgetStore.Persist(AfterResult(old(State()), limit, r, old(nextEventId), now), now)
    {
      var completed := Completed(report, MetaOf(pendingMeta, report));
      if report.intent.Some? {
        pendingMeta := pendingMeta - {report.intent.value};
      }
      if completed.result.None? {
        return true;
      }
      var result := completed.result.value;
      pendingFeedback := WithFeedback(pendingFeedback, completed.domain, result);
      if completed.reservation.Some? && (result.status.Failed? || result.status.Rejected?) {
        ok := EmitBudgetEvent(RolledBack, Negate(completed.reservation.value), now);
        if !ok {
          return;
        }
      }
      PersistBudget(now);
      ok := true;
    }

    /** `_pop_context_feedback`: results come back in the order in which they were applied. */
    method PopContextFeedback(domain: string, fallback: Option<ExecutionResult>) returns (r: Option<ExecutionResult>)
      requires forall d :: d in pendingFeedback ==> pendingFeedback[d] != []
      modifies this`pendingFeedback, this`ticksSinceFailure
      ensures forall d :: d in pendingFeedback ==> pendingFeedback[d] != []
      ensures domain !in old(pendingFeedback) ==> r == fallback && pendingFeedback == old(pendingFeedback)
      ensures domain in old(pendingFeedback) ==>
                && r.Some?
                && old(pendingFeedback)[domain]
                   == [r.value] + (if domain in pendingFeedback then pendingFeedback[domain] else [])
                && pendingFeedback - {domain} == old(pendingFeedback) - {domain}
      ensures ticksSinceFailure == if r.Some? && Fails(r.value) then 0 else old(ticksSinceFailure) + 1
    {
      if domain in pendingFeedback {
        var queued := pendingFeedback[domain];
        r := Some(queued[0]);
        if |queued| == 1 {
          pendingFeedback := pendingFeedback - {domain};
        } else {
          pendingFeedback := pendingFeedback[domain := queued[1..]];
        }
      } else {
        r := fallback;
      }
      if r.Some? && (r.value.status.Failed? || r.value.status.Rejected?) {
        ticksSinceFailure := 0;
      } else {
        ticksSinceFailure := ticksSinceFailure + 1;
      }
    }

    // ---------------------------------------------------------------- one tick

    /** Step 1: recover what time has given back. */
    method RecoverResources(now: Time, ghost s: World) returns (ok: bool, ghost t: World)
      requires At(s)
      modifies this`budget, this`nextEventId, ledger
      ensures ok == !RecoveryRaises(s.budget, limit, failFast, now)
      ensures nextEventId == IdAfterRecovery(s.budget, limit, old(nextEventId), now)
      ensures At(t) && Path(ByOrchestrator, s, [Orchestrate(RecoverBudget(now, old(nextEventId)))], t)
      ensures t.budget == AfterRecovery(s.budget, limit, old(nextEventId), now) && t.queue == s.queue
    {
      ghost var id := nextEventId;
      var delta := RecoveryDelta(budget, now);
      ok := true;
      if delta.Some? && (delta.value.energy > 0.0 || delta.value.attention > 0.0 || delta.value.slots > 0) {
        ok := EmitBudgetEvent(Recovered, delta.value, now);
      }
      PathOne(ByOrchestrator, s, Orchestrate(RecoverBudget(now, id)));
      t := Step(s, Orchestrate(RecoverBudget(now, id)));
    }

    /** Step 3: who asks, and can be afforded. */
    method CollectBids(targets: seq<nat>, proposals: seq<Option<Proposal>>) returns (candidates: seq<Candidate>)
      requires Addressed(targets, runtimes, proposals)
      ensures candidates == Bids(targets, runtimes, proposals, budget)
    {
      candidates := [];
      for k := 0 to |targets|
        invariant candidates == Bids(targets[..k], runtimes, proposals, budget)
      {
        assert targets[..k + 1][..k] == targets[..k];
        var i := targets[k];
        if proposals[i].Some? && proposals[i].value.cost.Some? {
          var p := proposals[i].value;
          if p.memory.cooldownRequired && p.risk > 0.1 {
            continue;
          }
          if Evaluate(p.cost, budget).Approved? {
            candidates := candidates + [Candidate(i, ComputePriority(p.risk, runtimes[i].starvation, Some(p.memory)))];
          }
        }
      }
      assert targets[..|targets|] == targets;
    }

    /** Step 8: the winner's starvation is reset, losers' grows, the others' fades; sleeping contexts keep theirs. */
    method UpdateRuntimes(winner: Option<nat>, candidates: seq<Candidate>)
      modifies this`runtimes
      ensures Updated(old(runtimes), runtimes, winner, candidates)
    {
      for i := 0 to |runtimes|
        invariant |runtimes| == |old(runtimes)|
        invariant forall k :: i <= k < |runtimes| ==> runtimes[k] == old(runtimes)[k]
        invariant forall k :: 0 <= k < i ==> UpdatedOne(old(runtimes)[k], runtimes[k], k, winner, candidates)
      {
        if runtimes[i].active {
          var hasIntent := exists c :: c in candidates && c.context == i;
          runtimes := runtimes[i := runtimes[i].(starvation := UpdateStarvation(runtimes[i].starvation,
                                                                                winner == Some(i), hasIntent))];
        }
      }
    }

    /** Step 6 for a winner that may not act: reserve, and give back at once. */
    method ReserveAndGiveBack(p: Proposal, domain: string, now: Time) returns (ok: bool)
      requires Valid() && p.block.Some? && p.cost.Some?
      modifies this`budget, this`nextEventId, this`pendingFeedback, this`pendingMeta, ledger, backend
      ensures Valid() && ok == !(Magnitude(ReservationDelta(p.cost.value)) > limit && failFast)
      ensures State()
              == if ok then ReservedAndBack(old(State()), limit, ReservationDelta(p.cost.value), old(nextEventId), now)
                 else old(State())
    {
      var delta := ReservationDelta(p.cost.value);
      NegatedDelta(delta);
      ok := EmitBudgetEvent(Reserved, delta, now);
      if ok {
        var report := Report(Some(p.intent), domain, Some(delta), Some(BlockResult(p.block.value)));
        assert GivesBack(Completed(report, MetaOf(pendingMeta, report)));
        ok := PostExecutionPipeline(report, now);
      }
    }

    method SubmitBlockedIntent(p: Proposal, domain: string, now: Time, ghost s: World)
      returns (ok: bool, ghost ls: seq<Label>, ghost t: World)
      requires At(s) && p.block.Some? && p.cost.Some? && Evaluate(p.cost, budget).Approved?
      modifies this`budget, this`nextEventId, this`pendingFeedback, this`pendingMeta, ledger, backend
      ensures ls == [Orchestrate(SubmitBlocked(p.cost.value, now, old(nextEventId), old(nextEventId) + 1))]
      ensures ok == !(Magnitude(ReservationDelta(p.cost.value)) > limit && failFast)
      ensures At(t) && Path(ByOrchestrator, s, ls, t)
    {
      ghost var o := SubmitBlocked(p.cost.value, now, nextEventId, nextEventId + 1);
      assert CanOrder(s, o);
      BlockedBudget(s, o);
      ok := ReserveAndGiveBack(p, domain, now);
      PathOne(ByOrchestrator, s, Orchestrate(o));
      ls, t := [Orchestrate(o)], Step(s, Orchestrate(o));
    }

    /** Step 6 for any other winner: reserve what was just approved, and enqueue the job. */
    method SubmitJob(p: Proposal, domain: string, priority: real, newJob: Q.JobId, now: Time, ghost s: World)
      returns (ok: bool, ghost ls: seq<Label>, ghost t: World)
      requires At(s) && p.block.None? && p.cost.Some? && Evaluate(p.cost, budget).Approved? && newJob !in queue.jobs
      modifies this`budget, this`nextEventId, this`pendingMeta, ledger, queue
      ensures ls == [Orchestrate(Submit(newJob, p.intent, domain, p.cost.value, priority, now, old(nextEventId)))]
      ensures ok == !(Magnitude(ReservationDelta(p.cost.value)) > limit && failFast)
      ensures At(t) && Path(ByOrchestrator, s, ls, t)
      ensures pendingMeta
              == if ok then old(pendingMeta)[p.intent := ExecutionMeta(domain, Some(ReservationDelta(p.cost.value)))]
                             else old(pendingMeta)
    {
      var delta := ReservationDelta(p.cost.value);
      ghost var l := Orchestrate(Submit(newJob, p.intent, domain, p.cost.value, priority, now, nextEventId));
      ok := EmitBudgetEvent(Reserved, delta, now);
      if ok {
        var _ := queue.EnqueueJob(Q.NewJob(newJob, p.intent, domain, Some(delta), priority, 5, now));
        pendingMeta := pendingMeta[p.intent := ExecutionMeta(domain, Some(delta))];
      }
      PathOne(ByOrchestrator, s, l);
      ls, t := [l], Step(s, l);
    }

    /** Step 6 for whoever won: exactly one order. */
    method SubmitWinner(p: Proposal, domain: string, priority: real, newJob: Q.JobId, now: Time, ghost s: World)
      returns (ok: bool, ghost ls: seq<Label>, ghost t: World)
      requires At(s) && p.cost.Some? && Evaluate(p.cost, budget).Approved? && newJob !in queue.jobs
      modifies this`budget, this`nextEventId, this`pendingMeta, this`pendingFeedback, ledger, backend, queue
      ensures ls == [Orchestrate(WinnerOrder(p, domain, priority, newJob, now, old(nextEventId)))]
      ensures ok == !(Magnitude(ReservationDelta(p.cost.value)) > limit && failFast)
      ensures At(t) && Path(ByOrchestrator, s, ls, t)
    {
      if p.block.Some? {
        ok, ls, t := SubmitBlockedIntent(p, domain, now, s);
      } else {
        ok, ls, t := SubmitJob(p, domain, priority, newJob, now, s);
      }
    }

    /** Steps 3 to 6: bids, arbitration, and the winner's order, if there is a winner. */
    method RunAuction(targets: seq<nat>, proposals: seq<Option<Proposal>>, newJob: Q.JobId, now: Time, ghost s: World)
      returns (ok: bool, winner: Option<nat>, candidates: seq<Candidate>, ghost ls: seq<Label>, ghost t: World)
      requires At(s) && Addressed(targets, runtimes, proposals) && newJob !in queue.jobs
      modifies this`budget, this`nextEventId, this`pendingMeta, this`pendingFeedback, ledger, backend, queue
      ensures candidates == Bids(targets, runtimes, proposals, s.budget.live)
      ensures winner == WinnerOf(candidates, proposals)
      ensures ls == AuctionLabels(winner, runtimes, proposals, s.budget.live, newJob, now, old(nextEventId))
      ensures ok == !AuctionRaises(winner, proposals, limit, failFast)
      ensures At(t) && Path(ByOrchestrator, s, ls, t)
    {
      ok, ls, t := true, [], s;
      PathStays(ByOrchestrator, s);
      candidates := CollectBids(targets, proposals);
      winner := WinnerOf(candidates, proposals);
      if winner.Some? {
        var c :| c in candidates && c.context == winner.value;
        ok, ls, t := SubmitWinner(proposals[c.context].value, runtimes[c.context].domain, c.priority, newJob, now, s);
      }
    }

    /** The budget and arbitration part of `tick`, move by move: recover; then, unless that raises, one order for the
        winner of the bids against the recovered budget, if there is one; then, unless that raises, persist. The
        winner's reservation is taken from the very budget the bids were judged against, and starvation follows. */
    method Tick(targets: seq<nat>, proposals: seq<Option<Proposal>>, newJob: Q.JobId, now: Time, ghost s: World)
      returns (ok: bool, winner: Option<nat>, ghost ls: seq<Label>, ghost t: World)
      requires At(s) && Addressed(targets, runtimes, proposals) && newJob !in queue.jobs
      modifies this, ledger, backend, queue
      ensures
        var recovered := AfterRecovery(s.budget, limit, old(nextEventId), now);
        var id := IdAfterRecovery(s.budget, limit, old(nextEventId), now);
        var bids := Bids(targets, old(runtimes), proposals, recovered.live);
        var selected := WinnerOf(bids, proposals);
        && ls == TickLabels(RecoveryRaises(s.budget, limit, failFast, now),
                            AuctionRaises(selected, proposals, limit, failFast),
                            AuctionLabels(selected, old(runtimes), proposals, recovered.live, newJob, now, id),
                            now, old(nextEventId))
        && (ok <==> !RecoveryRaises(s.budget, limit, failFast, now)
                    && !AuctionRaises(selected, proposals, limit, failFast))
        && (ok ==> winner == selected && Updated(old(runtimes), runtimes, winner, bids))
      ensures !ok ==> winner == None && runtimes == old(runtimes)
      ensures At(t) && Path(ByOrchestrator, s, ls, t)
    {
      winner := None;
      ghost var recovered;
      ok, recovered := RecoverResources(now, s);
      ls, t := [Orchestrate(RecoverBudget(now, old(nextEventId)))], recovered;
      if !ok {
        return;
      }
      ghost var more, after;
      var selected, candidates;
      ok, selected, candidates, more, after := RunAuction(targets, proposals, newJob, now, recovered);
      PathJoin(ByOrchestrator, s, ls, recovered, more, after);
      ls, t := ls + more, after;
      if !ok {
        return;
      }
      winner := selected;
      UpdateRuntimes(winner, candidates);
      PersistBudget(now);
      ghost var persist := Orchestrate(Order.PersistBudget(now));
      PathStep(ByOrchestrator, s, ls, t, persist);
      ls, t := ls + [persist], Step(t, persist);
    }
  }
}
