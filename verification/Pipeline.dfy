/** The execution pipeline as a transition system.

    Any number of workers and dispatchers share a queue, an idempotency store, an inbox and the
    orchestrator's budget. One call on a shared store is one atomic step, as the stores' locks make it.
    Everything a step cannot decide itself (the clock, an adapter's answer, whether a gate throttles, a
    new id) is part of its label, so a run is determined by its labels. Nothing relates the clock values
    of different steps. Leases may expire, workers and dispatchers may crash, and dead letters may be
    replayed, at any point.

    `hist` is a history variable: the bag of everything that has happened so far.
 */
module Pipeline {
  import opened Base
  import opened Budget
  import opened ExecutionResults
  import Q = ExecutionQueue
  import Idem = Idempotency
  import Box = ResultInbox
  import opened BudgetStore

  /** What a worker knows of a job for good: the fields that never change. */
  datatype JobRef = JobRef(id: Q.JobId, intent: Q.IntentId, domain: string, reservation: Option<Delta>)

  function RefOf(job: Q.Job): JobRef {
    JobRef(job.id, job.intent, job.domain, job.reservation)
  }

  /** Where a worker is in `_handle_job`. */
  datatype Pc =
    | Ready                                          // between jobs
    | Started(job: JobRef, now: Time)                // before the gates
    | DoneSeen(job: JobRef)                          // begin answered DONE
    | Busy(job: JobRef, now: Time)                   // begin answered IN_PROGRESS
    | BusyFresh(job: JobRef)                         // ... and the record is recent or gone
    | BusyStale(job: JobRef)                         // ... and the record is stale
    | Claimed(job: JobRef)                           // begin answered NEW
    | Called(job: JobRef, result: ExecutionResult)   // the adapter has answered
    | Completing(job: JobRef, result: ExecutionResult)  // marked done, not yet acked
    | Retrying(job: JobRef, attempts: int)           // decided to retry
    | RetryCleared(job: JobRef, attempts: int)       // ... claim cleared, not yet released
    | GivingUp(job: JobRef, result: ExecutionResult) // decided to dead-letter
    | GaveUp(job: JobRef, result: ExecutionResult)   // ... claim cleared, not yet moved
    | FailCleared(job: JobRef, result: ExecutionResult) // final failure, claim cleared, not yet acked
    | Publishing(job: JobRef, result: ExecutionResult)  // result not yet in the inbox

  datatype Worker = Worker(batch: seq<JobRef>, pc: Pc)

  /** Leased envelopes still to apply, and the one applied but not yet acked. */
  datatype Dispatcher = Dispatcher(batch: seq<Box.EnvelopeId>, applied: Option<Box.EnvelopeId>)

  datatype Event =
    | LeaseTaken(job: Q.JobId)
    | ThrottleReleased(job: Q.JobId)
    | RetryReleased(job: Q.JobId)
    | LeaseReclaimed(job: Q.JobId)
    | AdapterSucceeded(intent: Q.IntentId)
    | Taken(dispatcher: Box.DispatcherId, envelope: Box.EnvelopeId)
    | ItemReclaimed(envelope: Box.EnvelopeId)
    | Applied(dispatcher: Box.DispatcherId, envelope: Box.EnvelopeId)
    | Settled(job: Q.JobId)
    | BackToBudget(job: Q.JobId)

  /** `limit` bounds one budget event; `failFast` makes exceeding it an exception. */
  datatype Config = Config(maxAttempts: int, staleAfter: int, limit: real, failFast: bool)

  datatype World = World(
    cfg: Config,
    queue: Q.Queue, idem: Idem.Records, inbox: Box.Inbox,
    workers: map<Q.WorkerId, Worker>, dispatchers: map<Box.DispatcherId, Dispatcher>,
    budget: Store, hist: multiset<Event>)

  // ---------------------------------------------------------------- labels

  /** One worker's next move in `run_once` or `_handle_job`. */
  datatype Action =
    | Lease(job: Q.JobId, now: Time, until: Time)
    | Start(now: Time)
    | Throttle(at: Time)
    | BeginClaim(now: Time)
    | CheckStale
    | ReleaseBusy(at: Time)
    | DeadLetterStale
    | KeepAlive(until: Time)
    | CallAdapter(result: ExecutionResult)
    | MarkDone(now: Time)
    | Decide
    | ClearClaim
    | ReleaseRetry(at: Time)
    | DeadLetter
    | Ack
    | Publish(envelope: Box.EnvelopeId, now: Time)

  /** One dispatcher's next move in `run_once`. The end of a round forgets what was leased and not applied. */
  datatype Delivery =
    | Take(envelope: Box.EnvelopeId, until: Time)
    | ApplyNext(now: Time, eventId: Id)
    | AckApplied
    | EndRound

  datatype Order =
    | RecoverBudget(now: Time, eventId: Id)
    | Submit(job: Q.JobId, intent: Q.IntentId, domain: string, cost: ResourceCost, priority: real, now: Time,
             eventId: Id)
    | SubmitBlocked(cost: ResourceCost, now: Time, eventId: Id, rollbackId: Id)
    | PersistBudget(now: Time)

  datatype Incident =
    | Reclaim(job: Q.JobId, now: Time)
    | ReclaimEnvelope(envelope: Box.EnvelopeId, now: Time)
    | Crash(w: Q.WorkerId)
    | CrashDispatcher(d: Box.DispatcherId)
    | Replay(job: Q.JobId, newJob: Q.JobId, now: Time)
    | Resolve(job: Q.JobId, dlqState: Q.DlqState)

  datatype Label =
    | Work(w: Q.WorkerId, action: Action)
    | Deliver(d: Box.DispatcherId, delivery: Delivery)
    | Orchestrate(order: Order)
    | Happen(incident: Incident)

  const STALE_RESULT := ExecutionResult(Failed, EnvironmentFailure)

  predicate FreshEvent(s: World, id: Id) {
    Fresh(s.budget.ledger, id)
  }

  function One(happened: bool, e: Event): multiset<Event> {
    if happened then multiset{e} else multiset{}
  }

  // ---------------------------------------------------------------- workers

  predicate Stale(s: World, job: JobRef, now: Time) {
    job.intent in s.idem && now - s.idem[job.intent].updatedAt > s.cfg.staleAfter
  }

  function AttemptsOf(s: World, job: JobRef): int {
    if job.id in s.queue.jobs then s.queue.jobs[job.id].attempts else 0
  }

  function EnvelopeOf(job: JobRef, result: ExecutionResult, now: Time): Box.Envelope {
    Box.Envelope(job.id, job.intent, job.domain, job.reservation, result, now)
  }

  predicate CanAct(s: World, w: Q.WorkerId, a: Action) {
    && w in s.workers
    && var pc := s.workers[w].pc;
       match a
       case Lease(j, now, _) => pc.Ready? && Q.Available(s.queue, j, now)
       case Start(_) => pc.Ready? && s.workers[w].batch != []
       case Throttle(_) => pc.Started?
       case BeginClaim(_) => pc.Started?
       case CheckStale => pc.Busy?
       case ReleaseBusy(_) => pc.BusyFresh?
       case DeadLetterStale => pc.BusyStale?
       case KeepAlive(_) => pc.Claimed? || pc.Called?
       case CallAdapter(_) => pc.Claimed?
       case MarkDone(_) => pc.Called? && pc.result.status.Succeeded?
       case Decide => pc.Called? && !pc.result.status.Succeeded? && pc.result.failure.EnvironmentFailure?
       case ClearClaim =>
         pc.Retrying? || pc.GivingUp?
         || (pc.Called? && !pc.result.status.Succeeded? && !pc.result.failure.EnvironmentFailure?)
       case ReleaseRetry(_) => pc.RetryCleared?
       case DeadLetter => pc.GaveUp?
       case Ack => pc.DoneSeen? || pc.Completing? || pc.FailCleared?
       case Publish(e, _) => pc.Publishing? && e !in s.inbox
  }

  /** What an action leaves behind: the worker itself, the shared stores, and what happened. */
  datatype Effect = Effect(
    worker: Worker, queue: Q.Queue, idem: Idem.Records, inbox: Box.Inbox, events: multiset<Event>)

  function BeginAnswer(answer: Idem.BeginAnswer, job: JobRef, now: Time): Pc {
    match answer
    case New => Claimed(job)
    case AlreadyDone => DoneSeen(job)
    case AlreadyInProgress => Busy(job, now)
  }

  function AfterClear(pc: Pc): Pc
    requires pc.Retrying? || pc.GivingUp? || pc.Called?
  {
    if pc.Retrying? then RetryCleared(pc.job, pc.attempts)
    else if pc.GivingUp? then GaveUp(pc.job, pc.result)
    else FailCleared(pc.job, pc.result)
  }

  function EffectOf(s: World, w: Q.WorkerId, a: Action): Effect
    requires CanAct(s, w, a)
  {
    var worker := s.workers[w];
    var pc := worker.pc;
    var idle := Effect(worker, s.queue, s.idem, s.inbox, multiset{});
    match a
    case Lease(j, now, until) =>
      idle.(worker := worker.(batch := worker.batch + [RefOf(s.queue.jobs[j])]),
            queue := Q.LeaseJob(s.queue, j, w, until),
            events := multiset{LeaseTaken(j)})
    case Start(now) => idle.(worker := Worker(worker.batch[1..], Started(worker.batch[0], now)))
    case Throttle(at) =>
      idle.(worker := worker.(pc := Ready), queue := Q.Release(s.queue, pc.job.id, w, at, true),
            events := One(Q.Holds(s.queue, pc.job.id, w), ThrottleReleased(pc.job.id)))
    case BeginClaim(now) =>
      var (idem, answer) := Idem.Begin(s.idem, pc.job.intent, now);
      idle.(worker := worker.(pc := BeginAnswer(answer, pc.job, pc.now)), idem := idem)
    case CheckStale =>
      idle.(worker := worker.(pc := if Stale(s, pc.job, pc.now) then BusyStale(pc.job) else BusyFresh(pc.job)))
    case ReleaseBusy(at) =>
      idle.(worker := worker.(pc := Ready), queue := Q.Release(s.queue, pc.job.id, w, at, true),
            events := One(Q.Holds(s.queue, pc.job.id, w), ThrottleReleased(pc.job.id)))
    case DeadLetterStale =>
      idle.(worker := worker.(pc := Publishing(pc.job, STALE_RESULT)),
            queue := Q.MoveToDlq(s.queue, pc.job.id, w, Q.AwaitingManualAction))
    case KeepAlive(until) => idle.(queue := Q.Heartbeat(s.queue, pc.job.id, w, until))
    case CallAdapter(result) =>
      idle.(worker := worker.(pc := Called(pc.job, result)),
            events := One(result.status.Succeeded?, AdapterSucceeded(pc.job.intent)))
    case MarkDone(now) =>
      idle.(worker := worker.(pc := Completing(pc.job, pc.result)), idem := Idem.Complete(s.idem, pc.job.intent, now))
    case Decide =>
      var attempts := AttemptsOf(s, pc.job);
      idle.(worker := worker.(pc := if attempts < s.cfg.maxAttempts then Retrying(pc.job, attempts)
                                    else GivingUp(pc.job, pc.result)))
    case ClearClaim =>
      idle.(worker := worker.(pc := AfterClear(pc)), idem := Idem.ClearInProgress(s.idem, pc.job.intent))
    case ReleaseRetry(at) =>
      idle.(worker := worker.(pc := Ready), queue := Q.Release(s.queue, pc.job.id, w, at, false),
            events := One(Q.Holds(s.queue, pc.job.id, w), RetryReleased(pc.job.id)))
    case DeadLetter =>
      idle.(worker := worker.(pc := Publishing(pc.job, pc.result)),
            queue := Q.MoveToDlq(s.queue, pc.job.id, w, Q.AwaitingManualAction))
    case Ack =>
      idle.(worker := worker.(pc := if pc.DoneSeen? then Ready else Publishing(pc.job, pc.result)),
            queue := Q.AckSuccess(s.queue, pc.job.id, w))
    case Publish(e, now) =>
      idle.(worker := worker.(pc := Ready), inbox := Box.Append(s.inbox, e, EnvelopeOf(pc.job, pc.result, now)))
  }

  function Act(s: World, w: Q.WorkerId, a: Action): World
    requires CanAct(s, w, a)
  {
    var e := EffectOf(s, w, a);
    s.(workers := s.workers[w := e.worker], queue := e.queue, idem := e.idem, inbox := e.inbox,
       hist := s.hist + e.events)
  }

  /** The job an action is about. */
  function Subject(s: World, w: Q.WorkerId, a: Action): Q.JobId
    requires CanAct(s, w, a)
  {
    if a.Lease? then a.job
    else if a.Start? then s.workers[w].batch[0].id
    else s.workers[w].pc.job.id
  }

  // ---------------------------------------------------------------- orchestrator

  predicate TooLarge(s: World, d: Delta) {
    Magnitude(d) > s.cfg.limit
  }

  predicate Fails(result: ExecutionResult) {
    result.status.Failed? || result.status.Rejected?
  }

  predicate RollsBack(env: Box.Envelope) {
    env.reservation.Some? && Fails(env.result)
  }

  function EmitInto(st: Store, s: World, id: Id, now: Time, kind: EventKind, d: Delta): Store {
    Emit(st, s.cfg.limit, BudgetEvent(id, now, kind, d))
  }

  /** The budget part of `post_execution_pipeline`. */
  function PostExecution(s: World, env: Box.Envelope, now: Time, eventId: Id): Store {
    Persist(if RollsBack(env) then EmitInto(s.budget, s, eventId, now, RolledBack, Negate(env.reservation.value))
            else s.budget, now)
  }

  predicate CanOrder(s: World, o: Order) {
    match o
    case RecoverBudget(now, id) => FreshEvent(s, id)
    case Submit(j, i, _, cost, _, now, id) =>
      FreshEvent(s, id) && j !in s.queue.jobs && Evaluate(Some(cost), s.budget.live).Approved?
    case SubmitBlocked(cost, now, id, rb) =>
      FreshEvent(s, id) && FreshEvent(s, rb) && id != rb && Evaluate(Some(cost), s.budget.live).Approved?
    case PersistBudget(_) => true
  }

  function Obey(s: World, o: Order): World
    requires CanOrder(s, o)
  {
    match o
    case RecoverBudget(now, id) =>
      var d := RecoveryDelta(s.budget.live, now);
      if Recovers(d) then s.(budget := EmitInto(s.budget, s, id, now, Recovered, d.value)) else s
    case Submit(j, i, domain, cost, priority, now, id) =>
      var d := ReservationDelta(cost);
      if TooLarge(s, d) && s.cfg.failFast then s
      else
        s.(budget := EmitInto(s.budget, s, id, now, Reserved, d),
           queue := Q.Enqueue(s.queue, Q.NewJob(j, i, domain, Some(d), priority, 5, now)).0)
    case SubmitBlocked(cost, now, id, rb) =>
      // reserved and rolled back at once: projection error, replay phase, panic mode, or a disabled platform
      var d := ReservationDelta(cost);
      if TooLarge(s, d) && s.cfg.failFast then s
      else
        s.(budget := Persist(EmitInto(EmitInto(s.budget, s, id, now, Reserved, d), s, rb, now, RolledBack, Negate(d)),
                             now))
    case PersistBudget(now) => s.(budget := Persist(s.budget, now))
  }

  // ---------------------------------------------------------------- dispatchers

  predicate CanDeliver(s: World, d: Box.DispatcherId, b: Delivery) {
    && d in s.dispatchers
    && var disp := s.dispatchers[d];
       match b
       case Take(e, _) => disp.applied.None? && e in s.inbox && s.inbox[e].state.Pending?
       case ApplyNext(_, id) => disp.applied.None? && disp.batch != [] && disp.batch[0] in s.inbox && FreshEvent(s, id)
       case AckApplied => disp.applied.Some?
       case EndRound => disp.applied.None?
  }

  /** Under fail-fast an oversized rollback raises, and the dispatcher dies of it. */
  predicate Raises(s: World, env: Box.Envelope) {
    s.cfg.failFast && RollsBack(env) && TooLarge(s, Negate(env.reservation.value))
  }

  function AppliedEvents(d: Box.DispatcherId, e: Box.EnvelopeId, env: Box.Envelope): multiset<Event> {
    multiset{Applied(d, e), Settled(env.job)} + One(RollsBack(env), BackToBudget(env.job))
  }

  function DeliverTo(s: World, d: Box.DispatcherId, b: Delivery): World
    requires CanDeliver(s, d, b)
  {
    var disp := s.dispatchers[d];
    match b
    case Take(e, until) =>
      s.(inbox := Box.LeaseItem(s.inbox, e, d, until),
         dispatchers := s.dispatchers[d := disp.(batch := disp.batch + [e])],
         hist := s.hist + multiset{Taken(d, e)})
    case ApplyNext(now, id) =>
      var e := disp.batch[0];
      var env := s.inbox[e].envelope;
      if Raises(s, env) then s.(dispatchers := s.dispatchers[d := Dispatcher([], None)])
      else
        s.(budget := PostExecution(s, env, now, id),
           dispatchers := s.dispatchers[d := Dispatcher(disp.batch[1..], Some(e))],
           hist := s.hist + AppliedEvents(d, e, env))
    case AckApplied =>
      s.(inbox := Box.AckItem(s.inbox, disp.applied.value, d),
         dispatchers := s.dispatchers[d := disp.(applied := None)])
    case EndRound => s.(dispatchers := s.dispatchers[d := Dispatcher([], None)])
  }

  // ---------------------------------------------------------------- incidents

  predicate CanHappen(s: World, i: Incident) {
    match i
    case Reclaim(_, _) => true
    case ReclaimEnvelope(_, _) => true
    case Crash(w) => w in s.workers
    case CrashDispatcher(d) => d in s.dispatchers
    case Replay(_, newJob, _) => newJob !in s.queue.jobs
    case Resolve(_, _) => true
  }

  predicate Reclaims(s: World, j: Q.JobId, now: Time) {
    j in s.queue.jobs && Q.Expired(s.queue.jobs[j], now)
  }

  function Suffer(s: World, i: Incident): World
    requires CanHappen(s, i)
  {
    match i
    case Reclaim(j, now) =>
      s.(queue := Q.ReclaimJob(s.queue, j, now), hist := s.hist + One(Reclaims(s, j, now), LeaseReclaimed(j)))
    case ReclaimEnvelope(e, now) =>
      s.(inbox := Box.ReclaimItem(s.inbox, e, now),
         hist := s.hist + One(e in s.inbox && Box.ItemExpired(s.inbox[e], now), ItemReclaimed(e)))
    case Crash(w) => s.(workers := s.workers[w := Worker([], Ready)])
    case CrashDispatcher(d) => s.(dispatchers := s.dispatchers[d := Dispatcher([], None)])
    case Replay(j, newJob, now) => s.(queue := Q.ReplayDlq(s.queue, j, newJob, now).0)
    case Resolve(j, dlqState) => s.(queue := Q.ResolveDlq(s.queue, j, dlqState))
  }

  // ---------------------------------------------------------------- steps and runs

  predicate Enabled(s: World, l: Label) {
    match l
    case Work(w, a) => CanAct(s, w, a)
    case Deliver(d, b) => CanDeliver(s, d, b)
    case Orchestrate(o) => CanOrder(s, o)
    case Happen(i) => CanHappen(s, i)
  }

  function Step(s: World, l: Label): World
    requires Enabled(s, l)
  {
    match l
    case Work(w, a) => Act(s, w, a)
    case Deliver(d, b) => DeliverTo(s, d, b)
    case Orchestrate(o) => Obey(s, o)
    case Happen(i) => Suffer(s, i)
  }

  // What each kind of step leaves alone.

  lemma DeliverFrame(s: World, d: Box.DispatcherId, b: Delivery)
    requires CanDeliver(s, d, b)
    ensures
      var t := DeliverTo(s, d, b);
      && t.cfg == s.cfg && t.queue == s.queue && t.idem == s.idem && t.workers == s.workers
      && t.dispatchers.Keys == s.dispatchers.Keys && t.inbox.Keys == s.inbox.Keys
      && (forall e :: e in s.inbox ==> t.inbox[e].envelope == s.inbox[e].envelope)
  {
  }

  lemma ObeyFrame(s: World, o: Order)
    requires CanOrder(s, o)
    ensures
      var t := Obey(s, o);
      && t.cfg == s.cfg && t.idem == s.idem && t.inbox == s.inbox && t.workers == s.workers
      && t.dispatchers == s.dispatchers && t.hist == s.hist
      && (o.Submit? || t.queue == s.queue)
  {
  }

  lemma SufferFrame(s: World, i: Incident)
    requires CanHappen(s, i)
    ensures
      var t := Suffer(s, i);
      && t.cfg == s.cfg && t.idem == s.idem && t.budget == s.budget
      && t.workers.Keys == s.workers.Keys && t.dispatchers.Keys == s.dispatchers.Keys
      && (i.ReclaimEnvelope? || t.inbox == s.inbox)
      && (i.Crash? || t.workers == s.workers)
      && (i.CrashDispatcher? || t.dispatchers == s.dispatchers)
      && (i.Reclaim? || i.Replay? || i.Resolve? || t.queue == s.queue)
      && (i.Reclaim? || i.ReclaimEnvelope? || t.hist == s.hist)
  {
  }

  /** Empty stores, idle workers and dispatchers, a budget nobody has touched. */
  ghost predicate Init(s: World) {
    && s.queue == Q.Queue(map[], map[]) && s.idem == map[] && s.inbox == map[]
    && (forall w :: w in s.workers ==> s.workers[w] == Worker([], Ready))
    && (forall d :: d in s.dispatchers ==> s.dispatchers[d] == Dispatcher([], None))
    && s.budget == Initial(s.budget.live.lastUpdated)
    && s.hist == multiset{}
  }

  function Exec(s: World, ls: seq<Label>): Option<World> {
    if ls == [] then Some(s)
    else
      match Exec(s, ls[..|ls| - 1])
      case None => None
      case Some(mid) =>
        var l := ls[|ls| - 1];
        if Enabled(mid, l) then Some(Step(mid, l)) else None
  }

  lemma ExecAppend(s: World, ls: seq<Label>, l: Label)
    requires Exec(s, ls).Some? && Enabled(Exec(s, ls).value, l)
    ensures Exec(s, ls + [l]) == Some(Step(Exec(s, ls).value, l))
  {
    assert (ls + [l])[..|ls|] == ls;
  }
}
