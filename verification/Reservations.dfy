/** Where reservations go, in every run: what the ledger still has reserved is what the submitted jobs reserved, less
    what was rolled back for them; and the budget never goes below zero.
 */
module Reservations {
  import opened Base
  import opened Budget
  import BudgetStore
  import opened FiniteSums
  import opened Pipeline
  import Q = ExecutionQueue
  import Box = ResultInbox

  // ---------------------------------------------------------------- references stay right

  predicate Known(q: Q.Queue, ref: JobRef) {
    ref.id in q.jobs && RefOf(q.jobs[ref.id]) == ref
  }

  ghost predicate WorkerKnows(q: Q.Queue, worker: Worker) {
    && (forall k :: 0 <= k < |worker.batch| ==> Known(q, worker.batch[k]))
    && (worker.pc.Ready? || Known(q, worker.pc.job))
  }

  predicate EnvelopeKnown(q: Q.Queue, env: Box.Envelope) {
    env.job in q.jobs && q.jobs[env.job].reservation == env.reservation
  }

  /** Workers and envelopes say of a job what the queue says of it. */
  ghost predicate Traced(s: World) {
    && (forall j :: j in s.queue.jobs ==> s.queue.jobs[j].id == j)
    && (forall w :: w in s.workers ==> WorkerKnows(s.queue, s.workers[w]))
    && (forall e :: e in s.inbox ==> EnvelopeKnown(s.queue, s.inbox[e].envelope))
  }

  /** No job disappears or changes what it is. */
  ghost predicate Extends(q: Q.Queue, r: Q.Queue) {
    && (forall j :: j in r.jobs ==> r.jobs[j].id == j)
    && (forall j :: j in q.jobs ==>
            j in r.jobs && RefOf(r.jobs[j]) == RefOf(q.jobs[j]) && r.jobs[j].parent == q.jobs[j].parent)
  }

  lemma EffectKeepsJob(s: World, w: Q.WorkerId, a: Action, j: Q.JobId)
    requires CanAct(s, w, a)
    ensures
      var q := EffectOf(s, w, a).queue;
      && (j in q.jobs <==> j in s.queue.jobs)
      && (j in s.queue.jobs ==>
            RefOf(q.jobs[j]) == RefOf(s.queue.jobs[j]) && q.jobs[j].parent == s.queue.jobs[j].parent)
  {
  }

  lemma EffectExtends(s: World, w: Q.WorkerId, a: Action)
    requires Traced(s) && CanAct(s, w, a)
    ensures Extends(s.queue, EffectOf(s, w, a).queue) && EffectOf(s, w, a).queue.jobs.Keys == s.queue.jobs.Keys
  {
    var q := EffectOf(s, w, a).queue;
    forall j
      ensures (j in q.jobs <==> j in s.queue.jobs)
      ensures j in s.queue.jobs ==>
                RefOf(q.jobs[j]) == RefOf(s.queue.jobs[j]) && q.jobs[j].parent == s.queue.jobs[j].parent
    {
      EffectKeepsJob(s, w, a, j);
    }
  }

  lemma SufferKeepsJob(s: World, i: Incident, j: Q.JobId)
    requires CanHappen(s, i) && j in s.queue.jobs
    ensures
      var q := Suffer(s, i).queue;
      j in q.jobs && RefOf(q.jobs[j]) == RefOf(s.queue.jobs[j]) && q.jobs[j].parent == s.queue.jobs[j].parent
  {
    SufferFrame(s, i);
  }

  /** A replay makes one job, which takes everything but its id from a dead letter. */
  lemma SufferAdds(s: World, i: Incident, j: Q.JobId)
    requires CanHappen(s, i) && j in Suffer(s, i).queue.jobs && j !in s.queue.jobs
    ensures
      var job := Suffer(s, i).queue.jobs[j];
      && i.Replay? && j == i.newJob && job.id == j && job.parent.Some?
      && i.job in s.queue.jobs && job.reservation == s.queue.jobs[i.job].reservation
  {
    SufferFrame(s, i);
  }

  lemma SufferExtends(s: World, i: Incident)
    requires Traced(s) && CanHappen(s, i)
    ensures Extends(s.queue, Suffer(s, i).queue)
  {
    var q := Suffer(s, i).queue;
    forall j | j in s.queue.jobs
      ensures j in q.jobs && RefOf(q.jobs[j]) == RefOf(s.queue.jobs[j]) && q.jobs[j].parent == s.queue.jobs[j].parent
    {
      SufferKeepsJob(s, i, j);
    }
    forall j | j in q.jobs && j !in s.queue.jobs ensures q.jobs[j].id == j {
      SufferAdds(s, i, j);
    }
  }

  lemma ObeyExtends(s: World, o: Order)
    requires Traced(s) && CanOrder(s, o)
    ensures Extends(s.queue, Obey(s, o).queue)
  {
    ObeyFrame(s, o);
    if o.Submit? {
      EnqueueExtends(s.queue, Q.NewJob(o.job, o.intent, o.domain, Some(ReservationDelta(o.cost)), o.priority, 5,
                                       o.now));
    }
  }

  lemma EnqueueExtends(q: Q.Queue, job: Q.Job)
    requires Extends(q, q) && job.id !in q.jobs
    ensures Extends(q, Q.Enqueue(q, job).0)
  {
  }

  lemma StillKnows(q: Q.Queue, r: Q.Queue, worker: Worker)
    requires Extends(q, r) && WorkerKnows(q, worker)
    ensures WorkerKnows(r, worker)
  {
    forall k | 0 <= k < |worker.batch| ensures Known(r, worker.batch[k]) {
      assert Known(q, worker.batch[k]);
    }
  }

  lemma EffectKnows(s: World, w: Q.WorkerId, a: Action)
    requires Traced(s) && CanAct(s, w, a)
    ensures WorkerKnows(s.queue, EffectOf(s, w, a).worker)
    ensures forall e :: e in EffectOf(s, w, a).inbox ==> EnvelopeKnown(s.queue, EffectOf(s, w, a).inbox[e].envelope)
  {
    assert WorkerKnows(s.queue, s.workers[w]);
  }

  lemma ActTraced(s: World, w: Q.WorkerId, a: Action)
    requires Traced(s) && CanAct(s, w, a)
    ensures Traced(Act(s, w, a))
  {
    var t := Act(s, w, a);
    EffectExtends(s, w, a);
    EffectKnows(s, w, a);
    forall v | v in t.workers ensures WorkerKnows(t.queue, t.workers[v]) {
      StillKnows(s.queue, t.queue, t.workers[v]);
    }
    forall e | e in t.inbox ensures EnvelopeKnown(t.queue, t.inbox[e].envelope) {
      assert EnvelopeKnown(s.queue, t.inbox[e].envelope);
    }
  }

  /** Steps that leave workers and envelopes as they are, or forget a worker. */
  lemma OtherTraced(s: World, t: World)
    requires Traced(s) && Extends(s.queue, t.queue) && t.workers.Keys == s.workers.Keys && t.inbox.Keys == s.inbox.Keys
    requires forall w :: w in s.workers ==> t.workers[w] == s.workers[w] || t.workers[w] == Worker([], Ready)
    requires forall e :: e in s.inbox ==> t.inbox[e].envelope == s.inbox[e].envelope
    ensures Traced(t)
  {
    forall v | v in t.workers ensures WorkerKnows(t.queue, t.workers[v]) {
      if t.workers[v] == s.workers[v] {
        StillKnows(s.queue, t.queue, t.workers[v]);
      }
    }
    forall e | e in t.inbox ensures EnvelopeKnown(t.queue, t.inbox[e].envelope) {
      assert EnvelopeKnown(s.queue, s.inbox[e].envelope);
    }
  }

  lemma SufferTraced(s: World, i: Incident)
    requires Traced(s) && CanHappen(s, i)
    ensures Traced(Suffer(s, i))
  {
    SufferExtends(s, i);
    SufferFrame(s, i);
    OtherTraced(s, Suffer(s, i));
  }

  lemma StepTraced(s: World, l: Label)
    requires Traced(s) && Enabled(s, l)
    ensures Traced(Step(s, l))
  {
    match l
    case Work(w, a) => ActTraced(s, w, a);
    case Deliver(d, b) =>
      DeliverFrame(s, d, b);
      OtherTraced(s, DeliverTo(s, d, b));
    case Orchestrate(o) =>
      ObeyExtends(s, o);
      ObeyFrame(s, o);
      OtherTraced(s, Obey(s, o));
    case Happen(i) => SufferTraced(s, i);
  }

  lemma {:induction false} RunTraced(s: World, ls: seq<Label>)
    requires Init(s) && Exec(s, ls).Some?
    ensures Traced(Exec(s, ls).value)
    decreases |ls|
  {
    if ls != [] {
      RunTraced(s, ls[..|ls| - 1]);
      StepTraced(Exec(s, ls[..|ls| - 1]).value, ls[|ls| - 1]);
    }
  }

  /** Every job carries its reservation, and so does every envelope. */
  ghost predicate Reserving(s: World) {
    && (forall j :: j in s.queue.jobs ==> s.queue.jobs[j].reservation.Some?)
    && (forall e :: e in s.inbox ==> s.inbox[e].envelope.reservation.Some?)
  }

  lemma EnvelopesReserve(s: World)
    requires Traced(s) && forall j :: j in s.queue.jobs ==> s.queue.jobs[j].reservation.Some?
    ensures Reserving(s)
  {
    forall e | e in s.inbox ensures s.inbox[e].envelope.reservation.Some? {
      assert EnvelopeKnown(s.queue, s.inbox[e].envelope);
    }
  }

  lemma StepJobReserves(s: World, l: Label, j: Q.JobId)
    requires Traced(s) && Reserving(s) && Enabled(s, l) && j in Step(s, l).queue.jobs
    ensures Step(s, l).queue.jobs[j].reservation.Some?
  {
    match l
    case Work(w, a) => EffectKeepsJob(s, w, a, j);
    case Deliver(d, b) => DeliverFrame(s, d, b);
    case Orchestrate(o) => ObeyJobReserves(s, o, j);
    case Happen(i) => SufferJobReserves(s, i, j);
  }

  lemma ObeyJobReserves(s: World, o: Order, j: Q.JobId)
    requires Reserving(s) && CanOrder(s, o) && j in Obey(s, o).queue.jobs
    ensures Obey(s, o).queue.jobs[j].reservation.Some?
  {
    ObeyFrame(s, o);
  }

  lemma SufferJobReserves(s: World, i: Incident, j: Q.JobId)
    requires Reserving(s) && CanHappen(s, i) && j in Suffer(s, i).queue.jobs
    ensures Suffer(s, i).queue.jobs[j].reservation.Some?
  {
    if j in s.queue.jobs {
      SufferKeepsJob(s, i, j);
      assert RefOf(Suffer(s, i).queue.jobs[j]).reservation.Some?;
    } else {
      SufferAdds(s, i, j);
    }
  }

  lemma {:induction false} RunReserves(s: World, ls: seq<Label>)
    requires Init(s) && Exec(s, ls).Some?
    ensures Reserving(Exec(s, ls).value)
    decreases |ls|
  {
    RunTraced(s, ls);
    if ls != [] {
      var mid, l := Exec(s, ls[..|ls| - 1]).value, ls[|ls| - 1];
      RunReserves(s, ls[..|ls| - 1]);
      RunTraced(s, ls[..|ls| - 1]);
      forall j | j in Step(mid, l).queue.jobs ensures Step(mid, l).queue.jobs[j].reservation.Some? {
        StepJobReserves(mid, l, j);
      }
      EnvelopesReserve(Step(mid, l));
    }
  }

  // ---------------------------------------------------------------- the budget never goes below zero

  /** A cost that a new budget can bear several times. */
  const SMALL: ResourceCost := ResourceCost(1.0, 0.0, 0)

  predicate FairCost(cost: ResourceCost) {
    cost.energy >= 0.0 && cost.attention >= 0.0 && cost.slots >= 0
  }

  predicate Fair(l: Label) {
    l.Orchestrate? && (l.order.Submit? || l.order.SubmitBlocked?) ==> FairCost(l.order.cost)
  }

  predicate Takes(d: Option<Delta>) {
    d.Some? ==> d.value.energy <= 0.0 && d.value.attention <= 0.0 && d.value.slots <= 0
  }

  ghost predicate Solvent(s: World) {
    && NonNegative(s.budget.live) && NonNegativeRates(s.budget.live)
    && (forall j :: j in s.queue.jobs ==> Takes(s.queue.jobs[j].reservation))
  }

  lemma SubmitSolvent(s: World, o: Order)
    requires Solvent(s) && CanOrder(s, o) && Fair(Orchestrate(o)) && o.Submit?
    ensures Solvent(Obey(s, o))
  {
    ReservationIsSafeIffApproved(s.budget.live, o.cost, o.now, o.eventId);
  }

  lemma ObeySolvent(s: World, o: Order)
    requires Solvent(s) && CanOrder(s, o) && Fair(Orchestrate(o))
    ensures Solvent(Obey(s, o))
  {
    match o
    case RecoverBudget(now, id) =>
      if RecoveryDelta(s.budget.live, now).Some? {
        RecoveryKeepsNonNegative(s.budget.live, now, id);
      }
    case Submit(_, _, _, _, _, _, _) => SubmitSolvent(s, o);
    case SubmitBlocked(cost, now, id, rb) =>
      ReservationIsSafeIffApproved(s.budget.live, cost, now, id);
    case PersistBudget(now) =>
  }

  /** A rollback only gives back. */
  lemma DeliverSolvent(s: World, d: Box.DispatcherId, b: Delivery)
    requires Traced(s) && Solvent(s) && CanDeliver(s, d, b)
    ensures Solvent(DeliverTo(s, d, b))
  {
    DeliverFrame(s, d, b);
    if b.ApplyNext? {
      assert EnvelopeKnown(s.queue, s.inbox[s.dispatchers[d].batch[0]].envelope);
    }
  }

  lemma ExtendedSolvent(s: World, t: World)
    requires Solvent(s) && t.budget == s.budget && Extends(s.queue, t.queue)
    requires forall j :: j in t.queue.jobs && j !in s.queue.jobs ==> Takes(t.queue.jobs[j].reservation)
    ensures Solvent(t)
  {
    forall j | j in s.queue.jobs ensures Takes(t.queue.jobs[j].reservation) {
      assert RefOf(t.queue.jobs[j]).reservation == RefOf(s.queue.jobs[j]).reservation;
    }
  }

  lemma StepSolvent(s: World, l: Label)
    requires Traced(s) && Solvent(s) && Enabled(s, l) && Fair(l)
    ensures Solvent(Step(s, l))
  {
    match l
    case Work(w, a) =>
      EffectExtends(s, w, a);
      ExtendedSolvent(s, Act(s, w, a));
    case Deliver(d, b) => DeliverSolvent(s, d, b);
    case Orchestrate(o) => ObeySolvent(s, o);
    case Happen(i) =>
      SufferExtends(s, i);
      SufferFrame(s, i);
      forall j | j in Suffer(s, i).queue.jobs && j !in s.queue.jobs
        ensures Takes(Suffer(s, i).queue.jobs[j].reservation)
      {
        SufferAdds(s, i, j);
      }
      ExtendedSolvent(s, Suffer(s, i));
  }

  /** In every run whose costs are not negative, crashes, replays and rollbacks included, energy, attention and slots
      never go below zero: a reservation is taken from the very budget that approved it, and a rollback only adds. */
  lemma {:induction false} BudgetStaysNonNegative(s: World, ls: seq<Label>)
    requires Init(s) && Exec(s, ls).Some? && forall l :: l in ls ==> Fair(l)
    ensures NonNegative(Exec(s, ls).value.budget.live)
    ensures Solvent(Exec(s, ls).value)
    decreases |ls|
  {
    if ls != [] {
      BudgetStaysNonNegative(s, ls[..|ls| - 1]);
      RunTraced(s, ls[..|ls| - 1]);
      StepSolvent(Exec(s, ls[..|ls| - 1]).value, ls[|ls| - 1]);
    }
  }

  // ---------------------------------------------------------------- the ledger, job by job

  /** What the ledger records of a reservation: nothing if it is over the safety limit. */
  function Recorded(limit: real, d: Option<Delta>): Delta {
    if d.None? || Magnitude(d.value) > limit then ZERO else d.value
  }

  function Submissions(job: Q.Job): int {
    if job.parent.None? then 1 else 0
  }

  /** How much of a job's reservation is out, in one part of the budget. */
  function Out(limit: real, job: Q.Job, back: nat, p: Part): real {
    (Submissions(job) - back) as real * PartOf(Recorded(limit, job.reservation), p)
  }

  function OutOf(s: World, p: Part): Q.JobId -> real {
    j => if j in s.queue.jobs then Out(s.cfg.limit, s.queue.jobs[j], s.hist[BackToBudget(j)], p) else 0.0
  }

  ghost predicate Balances(s: World, p: Part) {
    && PartOf(NetReserved(s.budget.ledger), p) == Sum(s.queue.jobs.Keys, OutOf(s, p))
    && (forall j :: j !in s.queue.jobs ==> s.hist[BackToBudget(j)] == 0)
  }

  /** No reservation is made or given back, though a dead letter's successor may appear. */
  ghost predicate Still(s: World, t: World) {
    && t.cfg == s.cfg
    && NetReserved(t.budget.ledger) == NetReserved(s.budget.ledger)
    && (forall j :: t.hist[BackToBudget(j)] == s.hist[BackToBudget(j)])
    && Extends(s.queue, t.queue)
  }

  lemma OutSame(limit: real, a: Q.Job, b: Q.Job, back: nat, p: Part)
    requires a.parent == b.parent && a.reservation == b.reservation
    ensures Out(limit, a, back, p) == Out(limit, b, back, p)
  {
  }

  lemma SameOut(s: World, t: World, p: Part)
    requires Still(s, t)
    ensures Sum(s.queue.jobs.Keys, OutOf(t, p)) == Sum(s.queue.jobs.Keys, OutOf(s, p))
  {
    forall j | j in s.queue.jobs.Keys ensures OutOf(s, p)(j) == OutOf(t, p)(j) {
      assert RefOf(t.queue.jobs[j]).reservation == RefOf(s.queue.jobs[j]).reservation;
      OutSame(s.cfg.limit, s.queue.jobs[j], t.queue.jobs[j], s.hist[BackToBudget(j)], p);
    }
    SumCongruent(s.queue.jobs.Keys, OutOf(s, p), OutOf(t, p));
  }

  lemma StillBalances(s: World, t: World, p: Part)
    requires Balances(s, p) && Still(s, t) && t.queue.jobs.Keys == s.queue.jobs.Keys
    ensures Balances(t, p)
  {
    SameOut(s, t, p);
  }

  /** A replay makes a job, not a reservation. */
  lemma ReplayBalances(s: World, t: World, newJob: Q.JobId, p: Part)
    requires Balances(s, p) && Still(s, t) && newJob !in s.queue.jobs
    requires t.queue.jobs.Keys == s.queue.jobs.Keys + {newJob} && t.queue.jobs[newJob].parent.Some?
    ensures Balances(t, p)
  {
    SameOut(s, t, p);
    assert OutOf(t, p)(newJob) == 0.0;
    SumInsert(s.queue.jobs.Keys, newJob, OutOf(t, p));
  }

  /** The ledger after one reservation or rollback. */
  lemma EmitNet(st: BudgetStore.Store, limit: real, e: BudgetEvent, p: Part)
    ensures
      PartOf(NetReserved(BudgetStore.Emit(st, limit, e).ledger), p)
      == PartOf(NetReserved(st.ledger), p)
         + if e.kind.Recovered? then 0.0 else PartOf(Recorded(limit, Some(e.delta)), p)
  {
    NetReservedAppend(st.ledger, e);
  }

  lemma OutOfNew(limit: real, job: Q.Job, p: Part)
    requires job.parent.None?
    ensures Out(limit, job, 0, p) == PartOf(Recorded(limit, job.reservation), p)
  {
  }

  /** A new job, with its reservation. */
  lemma AddedJobBalances(s: World, t: World, job: Q.Job, p: Part)
    requires Balances(s, p) && job.id !in s.queue.jobs && job.parent.None?
    requires t.cfg == s.cfg && t.hist == s.hist && t.queue.jobs == s.queue.jobs[job.id := job]
    requires PartOf(NetReserved(t.budget.ledger), p)
             == PartOf(NetReserved(s.budget.ledger), p) + PartOf(Recorded(s.cfg.limit, job.reservation), p)
    ensures Balances(t, p)
  {
    assert t.queue.jobs.Keys == s.queue.jobs.Keys + {job.id};
    forall j | j in s.queue.jobs.Keys ensures OutOf(s, p)(j) == OutOf(t, p)(j) {
      assert t.queue.jobs[j] == s.queue.jobs[j];
    }
    SumCongruent(s.queue.jobs.Keys, OutOf(s, p), OutOf(t, p));
    SumInsert(s.queue.jobs.Keys, job.id, OutOf(t, p));
    OutOfNew(s.cfg.limit, job, p);
  }

  lemma SubmitBalances(s: World, o: Order, p: Part)
    requires Balances(s, p) && CanOrder(s, o) && o.Submit? && o.intent !in s.queue.index
    ensures Balances(Obey(s, o), p)
  {
    var d := ReservationDelta(o.cost);
    if !(TooLarge(s, d) && s.cfg.failFast) {
      ObeyFrame(s, o);
      EmitNet(s.budget, s.cfg.limit, BudgetEvent(o.eventId, o.now, Reserved, d), p);
      AddedJobBalances(s, Obey(s, o), Q.NewJob(o.job, o.intent, o.domain, Some(d), o.priority, 5, o.now), p);
    }
  }

  /** Blocked submissions and recoveries leave the account as it was. */
  lemma OtherOrderStill(s: World, o: Order)
    requires CanOrder(s, o) && Traced(s) && !o.Submit?
    ensures Still(s, Obey(s, o)) && Obey(s, o).queue == s.queue
  {
    ObeyFrame(s, o);
    match o
    case RecoverBudget(now, id) =>
      var d := RecoveryDelta(s.budget.live, now);
      if Recovers(d) {
        NetReservedAppend(s.budget.ledger, BudgetEvent(id, now, Recovered, d.value));
      }
    case SubmitBlocked(cost, now, id, rb) =>
      var d := ReservationDelta(cost);
      NegatedDelta(d);
      NetReservedAppend(s.budget.ledger, BudgetEvent(id, now, Reserved, d));
      NetReservedAppend(s.budget.ledger + [BudgetEvent(id, now, Reserved, d)],
                        BudgetEvent(rb, now, RolledBack, Negate(d)));
    case PersistBudget(now) =>
  }

  lemma OneLess(n: int, x: real)
    ensures (n - 1) as real * x == n as real * x - x
  {
    assert (n - 1) as real == n as real - 1.0;
  }

  /** Giving a reservation back once more. */
  lemma OutAfterRollback(limit: real, job: Q.Job, back: nat, p: Part)
    requires job.reservation.Some?
    ensures Out(limit, job, back + 1, p)
            == Out(limit, job, back, p) + PartOf(Recorded(limit, Some(Negate(job.reservation.value))), p)
  {
    OneLess(Submissions(job) - back, PartOf(Recorded(limit, job.reservation), p));
    NegatedDelta(job.reservation.value);
  }

  /** One reservation given back once more, nothing else. */
  lemma RollbackSum(s: World, t: World, j: Q.JobId, p: Part)
    requires t.cfg == s.cfg && t.queue == s.queue && j in s.queue.jobs && s.queue.jobs[j].reservation.Some?
    requires t.hist[BackToBudget(j)] == s.hist[BackToBudget(j)] + 1
    requires forall k :: k != j ==> t.hist[BackToBudget(k)] == s.hist[BackToBudget(k)]
    ensures
      var back := Some(Negate(s.queue.jobs[j].reservation.value));
      Sum(s.queue.jobs.Keys, OutOf(t, p))
      == Sum(s.queue.jobs.Keys, OutOf(s, p)) + PartOf(Recorded(s.cfg.limit, back), p)
  {
    OutAfterRollback(s.cfg.limit, s.queue.jobs[j], s.hist[BackToBudget(j)], p);
    forall k | k in s.queue.jobs.Keys && k != j ensures OutOf(s, p)(k) == OutOf(t, p)(k) {
    }
    SumUpdate(s.queue.jobs.Keys, j, OutOf(s, p), OutOf(t, p));
  }

  function Returned(env: Box.Envelope, now: Time, id: Id): BudgetEvent
    requires env.reservation.Some?
  {
    BudgetEvent(id, now, RolledBack, Negate(env.reservation.value))
  }

  lemma RollbackBalances(s: World, t: World, env: Box.Envelope, now: Time, id: Id, p: Part)
    requires Balances(s, p) && EnvelopeKnown(s.queue, env) && env.reservation.Some? && t.cfg == s.cfg
    requires t.queue == s.queue
    requires t.hist[BackToBudget(env.job)] == s.hist[BackToBudget(env.job)] + 1
    requires forall k :: k != env.job ==> t.hist[BackToBudget(k)] == s.hist[BackToBudget(k)]
    requires t.budget.ledger == BudgetStore.Emit(s.budget, s.cfg.limit, Returned(env, now, id)).ledger
    ensures Balances(t, p)
  {
    RollbackSum(s, t, env.job, p);
    EmitNet(s.budget, s.cfg.limit, Returned(env, now, id), p);
  }

  lemma RollbackHistory(s: World, d: Box.DispatcherId, now: Time, id: Id)
    requires CanDeliver(s, d, ApplyNext(now, id))
    requires !Raises(s, s.inbox[s.dispatchers[d].batch[0]].envelope)
    ensures
      var t, env := DeliverTo(s, d, ApplyNext(now, id)), s.inbox[s.dispatchers[d].batch[0]].envelope;
      && t.cfg == s.cfg && t.queue == s.queue
      && t.hist[BackToBudget(env.job)] == s.hist[BackToBudget(env.job)] + (if RollsBack(env) then 1 else 0)
      && (forall j :: j != env.job ==> t.hist[BackToBudget(j)] == s.hist[BackToBudget(j)])
      && t.budget.ledger == (if RollsBack(env)
                             then BudgetStore.Emit(s.budget, s.cfg.limit, Returned(env, now, id)).ledger
                             else s.budget.ledger)
  {
  }

  lemma DeliverBalances(s: World, d: Box.DispatcherId, b: Delivery, p: Part)
    requires Balances(s, p) && Traced(s) && CanDeliver(s, d, b)
    ensures Balances(DeliverTo(s, d, b), p)
  {
    var t := DeliverTo(s, d, b);
    if b.ApplyNext? {
      var env := s.inbox[s.dispatchers[d].batch[0]].envelope;
      if !Raises(s, env) {
        RollbackHistory(s, d, b.now, b.eventId);
        if RollsBack(env) {
          assert EnvelopeKnown(s.queue, env);
          RollbackBalances(s, t, env, b.now, b.eventId, p);
        } else {
          StillBalances(s, t, p);
        }
      } else {
        StillBalances(s, t, p);
      }
    } else {
      DeliverFrame(s, d, b);
      StillBalances(s, t, p);
    }
  }

  lemma ActStill(s: World, w: Q.WorkerId, a: Action)
    requires Traced(s) && CanAct(s, w, a)
    ensures Still(s, Act(s, w, a))
  {
    EffectExtends(s, w, a);
    SilentActions(s, w, a);
  }

  lemma SilentActions(s: World, w: Q.WorkerId, a: Action)
    requires CanAct(s, w, a)
    ensures forall j :: EffectOf(s, w, a).events[BackToBudget(j)] == 0
  {
  }

  lemma SufferStill(s: World, i: Incident)
    requires Traced(s) && CanHappen(s, i)
    ensures Still(s, Suffer(s, i))
  {
    SufferExtends(s, i);
    SufferFrame(s, i);
  }

  lemma SufferKeys(s: World, i: Incident)
    requires CanHappen(s, i)
    ensures
      var keys := Suffer(s, i).queue.jobs.Keys;
      if i.Replay? && i.newJob in keys then keys == s.queue.jobs.Keys + {i.newJob} else keys == s.queue.jobs.Keys
  {
    SufferFrame(s, i);
  }

  lemma SufferBalances(s: World, i: Incident, p: Part)
    requires Balances(s, p) && Traced(s) && CanHappen(s, i)
    ensures Balances(Suffer(s, i), p)
  {
    SufferStill(s, i);
    SufferKeys(s, i);
    if i.Replay? && i.newJob in Suffer(s, i).queue.jobs.Keys {
      SufferAdds(s, i, i.newJob);
      ReplayBalances(s, Suffer(s, i), i.newJob, p);
    } else {
      StillBalances(s, Suffer(s, i), p);
    }
  }

  // ---------------------------------------------------------------- result

  predicate SubmitsOnce(s: World, l: Label) {
    l.Orchestrate? && l.order.Submit? ==> l.order.intent !in s.queue.index
  }

  /** Every submission of the run is about an intent the queue has not seen. */
  predicate IntentsAreNew(s: World, ls: seq<Label>) {
    ls == [] ||
    var mid := Exec(s, ls[..|ls| - 1]);
    IntentsAreNew(s, ls[..|ls| - 1]) && mid.Some? && SubmitsOnce(mid.value, ls[|ls| - 1])
  }

  lemma StepBalances(s: World, l: Label, p: Part)
    requires Balances(s, p) && Traced(s) && Enabled(s, l) && SubmitsOnce(s, l)
    ensures Balances(Step(s, l), p)
  {
    match l
    case Work(w, a) =>
      ActStill(s, w, a);
      EffectExtends(s, w, a);
      StillBalances(s, Act(s, w, a), p);
    case Deliver(d, b) => DeliverBalances(s, d, b, p);
    case Orchestrate(o) =>
      if o.Submit? {
        SubmitBalances(s, o, p);
      } else {
        OtherOrderStill(s, o);
        StillBalances(s, Obey(s, o), p);
      }
    case Happen(i) => SufferBalances(s, i, p);
  }

  /** In every run that submits intents once, however it is interleaved, interrupted or replayed: what the ledger has
      reserved, part by part, is the sum over all jobs of what each reserved when it was submitted less what
      was given back for it. */
  lemma {:induction false} LedgerIsAccounted(s: World, ls: seq<Label>, p: Part)
    requires Init(s) && Exec(s, ls).Some? && IntentsAreNew(s, ls)
    ensures
      var t := Exec(s, ls).value;
      PartOf(NetReserved(t.budget.ledger), p) == Sum(t.queue.jobs.Keys, OutOf(t, p))
    ensures Balances(Exec(s, ls).value, p)
    decreases |ls|
  {
    if ls != [] {
      LedgerIsAccounted(s, ls[..|ls| - 1], p);
      RunTraced(s, ls[..|ls| - 1]);
      StepBalances(Exec(s, ls[..|ls| - 1]).value, ls[|ls| - 1], p);
    }
  }

  /** Submitting an intent again reserves for a job that is never made: the account balances exactly when the
      intent is new, or the ledger records nothing of the reservation. */
  lemma DuplicateSubmissionLeaks(s: World, o: Order)
    requires Traced(s) && CanOrder(s, o) && o.Submit? && !(TooLarge(s, ReservationDelta(o.cost)) && s.cfg.failFast)
    requires forall p :: Balances(s, p)
    ensures (forall p :: Balances(Obey(s, o), p))
            <==> o.intent !in s.queue.index || Recorded(s.cfg.limit, Some(ReservationDelta(o.cost))) == ZERO
  {
    var t, d := Obey(s, o), ReservationDelta(o.cost);
    var e := BudgetEvent(o.eventId, o.now, Reserved, d);
    if o.intent !in s.queue.index {
      forall p ensures Balances(t, p) {
        SubmitBalances(s, o, p);
      }
    } else {
      forall p ensures Balances(t, p) <==> PartOf(Recorded(s.cfg.limit, Some(d)), p) == 0.0 {
        assert Balances(s, p);
        EmitNet(s.budget, s.cfg.limit, e, p);
        SumCongruent(s.queue.jobs.Keys, OutOf(s, p), OutOf(t, p));
      }
      var r := Recorded(s.cfg.limit, Some(d));
      assert r == ZERO <==> PartOf(r, Energy) == 0.0 && PartOf(r, Attention) == 0.0 && PartOf(r, Slots) == 0.0;
    }
  }
}
