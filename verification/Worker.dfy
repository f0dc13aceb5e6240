/** The worker as a program: handling a job, and one round of `run_once`, take exactly the moves of the transition
    system that are written out below, and these are a path of it. What holds for every run of the system therefore
    holds for these methods, however many workers run them.
 */
module ExecutionWorkers {
  import opened Base
  import opened ExecutionResults
  import opened Paths
  import opened Pipeline
  import CircuitBreaker
  import RateLimiter
  import Q = ExecutionQueue
  import Idem = Idempotency
  import Box = ResultInbox

  // ---------------------------------------------------------------- store loops as paths

  function ReclaimLabels(order: seq<Q.JobId>, now: Time): seq<Label> {
    if order == [] then [] else ReclaimLabels(order[..|order| - 1], now) + [Happen(Reclaim(order[|order| - 1], now))]
  }

  /** Reclaiming one expired lease after another. */
  lemma {:induction false} ReclaimPath(w: Q.WorkerId, s: World, order: seq<Q.JobId>, now: Time)
    returns (ls: seq<Label>, t: World)
    ensures ls == ReclaimLabels(order, now) && Path(ByWorker(w), s, ls, t)
    ensures t == s.(queue := Q.ReclaimAll(s.queue, order, now), hist := t.hist)
    decreases |order|
  {
    if order == [] {
      ls, t := [], s;
      PathStays(ByWorker(w), s);
    } else {
      var n := |order| - 1;
      var before, mid := ReclaimPath(w, s, order[..n], now);
      var l := Happen(Reclaim(order[n], now));
      PathStep(ByWorker(w), s, before, mid, l);
      ls, t := before + [l], Step(mid, l);
    }
  }

  lemma ReclaimKeepsIndex(q: Q.Queue, order: seq<Q.JobId>, now: Time)
    requires Q.Indexed(q)
    ensures Q.Indexed(Q.ReclaimAll(q, order, now))
  {
    var r := Q.ReclaimAll(q, order, now);
    Q.ReclaimAllContents(q, order, now);
    SameIdentities(q, r);
  }

  lemma SameIdentities(q: Q.Queue, r: Q.Queue)
    requires Q.Indexed(q) && r.index == q.index && r.jobs.Keys == q.jobs.Keys
    requires forall j :: j in q.jobs ==> r.jobs[j].id == q.jobs[j].id && r.jobs[j].intent == q.jobs[j].intent
    ensures Q.Indexed(r)
  {
  }

  function Refs(jobs: seq<Q.Job>): seq<JobRef> {
    seq(|jobs|, i requires 0 <= i < |jobs| => RefOf(jobs[i]))
  }

  ghost predicate Leasable(q: Q.Queue, jobs: seq<Q.Job>, now: Time) {
    && (forall i :: 0 <= i < |jobs| ==> Q.Available(q, jobs[i].id, now) && q.jobs[jobs[i].id] == jobs[i])
    && (forall i, k :: 0 <= i < k < |jobs| ==> jobs[i].id != jobs[k].id)
  }

  lemma BatchIsLeasable(q: Q.Queue, order: seq<Q.JobId>, batch: int, now: Time)
    requires Q.Indexed(q) && Enumerates(order, q.jobs.Keys)
    ensures Leasable(q, Q.ToLease(q, order, batch, now), now)
  {
    var jobs := Q.ToLease(q, order, batch, now);
    Q.BatchIsBest(q, order, batch, now);
    Q.DistinctIds(q, jobs);
  }

  lemma {:induction false} LeaseLeavesOthers(q: Q.Queue, jobs: seq<Q.Job>, w: Q.WorkerId, until: Time, j: Q.JobId)
    requires forall i :: 0 <= i < |jobs| ==> jobs[i].id in q.jobs && jobs[i].id != j
    requires j in q.jobs
    ensures Q.LeaseAll(q, jobs, w, until).jobs[j] == q.jobs[j]
    decreases |jobs|
  {
    if jobs != [] {
      LeaseLeavesOthers(q, jobs[..|jobs| - 1], w, until, j);
    }
  }

  lemma LeaseOne(w: Q.WorkerId, s: World, j: Q.JobId, now: Time, until: Time)
    requires w in s.workers && s.workers[w].pc.Ready? && Q.Available(s.queue, j, now)
    ensures
      var t := Step(s, Work(w, Lease(j, now, until)));
      t == s.(queue := Q.LeaseJob(s.queue, j, w, until), hist := t.hist,
              workers := s.workers[w := Worker(s.workers[w].batch + [RefOf(s.queue.jobs[j])], Ready)])
  {
  }

  lemma RefsAppend(jobs: seq<Q.Job>)
    requires jobs != []
    ensures Refs(jobs) == Refs(jobs[..|jobs| - 1]) + [RefOf(jobs[|jobs| - 1])]
  {
  }

  function LeaseLabels(w: Q.WorkerId, jobs: seq<Q.Job>, now: Time, until: Time): seq<Label> {
    seq(|jobs|, i requires 0 <= i < |jobs| => Work(w, Lease(jobs[i].id, now, until)))
  }

  lemma LeaseLabelsAppend(w: Q.WorkerId, jobs: seq<Q.Job>, now: Time, until: Time)
    requires jobs != []
    ensures LeaseLabels(w, jobs, now, until)
            == LeaseLabels(w, jobs[..|jobs| - 1], now, until) + [Work(w, Lease(jobs[|jobs| - 1].id, now, until))]
  {
  }

  /** The last of a batch is still there when the others have been leased. */
  lemma LastStaysAvailable(q: Q.Queue, jobs: seq<Q.Job>, w: Q.WorkerId, now: Time, until: Time)
    requires jobs != [] && Leasable(q, jobs, now)
    ensures
      var front, last := jobs[..|jobs| - 1], jobs[|jobs| - 1];
      && Leasable(q, front, now)
      && Q.Available(Q.LeasedQueue(q, front, w, until), last.id, now)
      && Q.LeasedQueue(q, front, w, until).jobs[last.id] == last
  {
    LeaseLeavesOthers(q, jobs[..|jobs| - 1], w, until, jobs[|jobs| - 1].id);
  }

  /** Leasing a batch is leasing its jobs one after another. */
  lemma {:induction false} LeasePath(w: Q.WorkerId, s: World, jobs: seq<Q.Job>, now: Time, until: Time)
    returns (ls: seq<Label>, t: World)
    requires w in s.workers && s.workers[w] == Worker([], Ready) && Leasable(s.queue, jobs, now)
    ensures ls == LeaseLabels(w, jobs, now, until) && Path(ByWorker(w), s, ls, t)
    ensures t.cfg == s.cfg && t.idem == s.idem && t.inbox == s.inbox
    ensures t.queue == Q.LeasedQueue(s.queue, jobs, w, until)
    ensures w in t.workers && t.workers[w] == Worker(Refs(jobs), Ready)
    ensures t
            == s.(queue := Q.LeasedQueue(s.queue, jobs, w, until), hist := t.hist,
                  workers := s.workers[w := Worker(Refs(jobs), Ready)])
    decreases |jobs|
  {
    if jobs == [] {
      ls, t := [], s;
      PathStays(ByWorker(w), s);
      assert Refs(jobs) == [];
      assert s.workers[w := Worker([], Ready)] == s.workers;
    } else {
      var n := |jobs| - 1;
      LastStaysAvailable(s.queue, jobs, w, now, until);
      var before, mid := LeasePath(w, s, jobs[..n], now, until);
      var l := Work(w, Lease(jobs[n].id, now, until));
      LeaseOne(w, mid, jobs[n].id, now, until);
      PathStep(ByWorker(w), s, before, mid, l);
      ls, t := before + [l], Step(mid, l);
      RefsAppend(jobs);
      LeaseLabelsAppend(w, jobs, now, until);
      assert s.workers[w := Worker(Refs(jobs[..n]), Ready)][w := Worker(Refs(jobs), Ready)]
             == s.workers[w := Worker(Refs(jobs), Ready)];
    }
  }

  /** r is q with the best batch leased to w. */
  ghost predicate BatchLeased(q: Q.Queue, r: Q.Queue, w: Q.WorkerId, order: seq<Q.JobId>, batch: int,
                              jobs: seq<Q.Job>, now: Time, until: Time)
  {
    && jobs == Q.ToLease(q, order, batch, now) && (forall i :: 0 <= i < |jobs| ==> jobs[i].id in q.jobs)
    && r == Q.LeasedQueue(q, jobs, w, until)
  }

  lemma BatchPath(w: Q.WorkerId, s: World, order: seq<Q.JobId>, batch: int, jobs: seq<Q.Job>, now: Time, until: Time,
                  r: Q.Queue) returns (t: World)
    requires w in s.workers && s.workers[w] == Worker([], Ready) && Q.Indexed(s.queue)
    requires Enumerates(order, s.queue.jobs.Keys)
    requires BatchLeased(s.queue, r, w, order, batch, jobs, now, until)
    ensures Path(ByWorker(w), s, LeaseLabels(w, jobs, now, until), t)
    ensures t.cfg == s.cfg && t.idem == s.idem && t.inbox == s.inbox && t.queue == r
    ensures w in t.workers && t.workers[w] == Worker(Refs(jobs), Ready)
  {
    BatchIsLeasable(s.queue, order, batch, now);
    var ls;
    ls, t := LeasePath(w, s, jobs, now, until);
  }

  // ---------------------------------------------------------------- what the surroundings contribute

  datatype WorkerConfig = WorkerConfig(batchSize: int, visibility: int, staleAfter: int, reclaimInterval: int)

  datatype AdapterAnswer = Returned(result: ExecutionResult) | Raised

  /** Everything one handling of a job takes from outside: clock readings, the intent's platform and chat, the adaptive
      controller's delay (zero without one), the adapter's answer, and the jittered retry time. */
  datatype Surroundings = Surroundings(
    now: Time, platform: string, chat: string, adaptiveDelay: int, claimedAt: Time, calledAt: Time,
    answer: AdapterAnswer, answeredAt: Time, completedAt: Time, retryAt: Time, publishedAt: Time)

  /** An exception counts as an internal failure. */
  function ResultOf(answer: AdapterAnswer): ExecutionResult {
    match answer
    case Returned(result) => result
    case Raised => ExecutionResult(Failed, InternalFailure)
  }

  predicate ShouldRetry(attempts: int, maxAttempts: int) {
    attempts < maxAttempts
  }

  // ---------------------------------------------------------------- the gates, declaratively

  predicate CircuitAdmits(cfg: CircuitBreaker.Config, b: CircuitBreaker.Breaker, x: Surroundings) {
    CircuitBreaker.Admits(cfg, CircuitBreaker.CircuitOf(b, x.platform), x.now)
  }

  function RateVerdict(limits: RateLimiter.Limits, l: RateLimiter.Limiter, x: Surroundings): RateLimiter.Verdict {
    RateLimiter.Allow(l, limits, x.chat, x.now).1
  }

  /** When a held-back job may be tried again; None lets it through. Later gates are not asked. */
  function HeldBackUntil(cfg: CircuitBreaker.Config, b: CircuitBreaker.Breaker,
                         limits: RateLimiter.Limits, l: RateLimiter.Limiter, x: Surroundings): Option<Time>
  {
    if x.adaptiveDelay > 0 then Some(x.now + x.adaptiveDelay)
    else if !CircuitAdmits(cfg, b, x) then Some(x.now + SECOND)
    else if !RateVerdict(limits, l, x).allowed then Some(x.now + RateVerdict(limits, l, x).retryAfter)
    else None
  }

  /** What the breaker hears about an adapter call: successes and environment failures only. */
  function Heard(result: ExecutionResult, now: Time): Option<CircuitBreaker.Op> {
    if result.status.Succeeded? then Some(CircuitBreaker.Success(now))
    else if result.failure.EnvironmentFailure? then Some(CircuitBreaker.Failure(now))
    else None
  }

  function Told(cfg: CircuitBreaker.Config, b: CircuitBreaker.Breaker, x: Surroundings): CircuitBreaker.Breaker {
    match Heard(ResultOf(x.answer), x.now)
    case None => b
    case Some(op) => CircuitBreaker.Do(cfg, b, CircuitBreaker.Call(x.platform, op))
  }

  function Asked(cfg: CircuitBreaker.Config, b: CircuitBreaker.Breaker, x: Surroundings): CircuitBreaker.Breaker {
    if x.adaptiveDelay > 0 then b
    else CircuitBreaker.Do(cfg, b, CircuitBreaker.Call(x.platform, CircuitBreaker.Allow(x.now)))
  }

  /** A probe the rate limiter or an existing claim then stops is never reported back to the breaker. */
  function BreakerAfter(cfg: CircuitBreaker.Config, b: CircuitBreaker.Breaker, limits: RateLimiter.Limits,
                        l: RateLimiter.Limiter, claimed: bool, x: Surroundings): CircuitBreaker.Breaker
  {
    if HeldBackUntil(cfg, b, limits, l, x).Some? || claimed then Asked(cfg, b, x) else Told(cfg, Asked(cfg, b, x), x)
  }

  function LimiterAfter(cfg: CircuitBreaker.Config, b: CircuitBreaker.Breaker, limits: RateLimiter.Limits,
                        l: RateLimiter.Limiter, x: Surroundings): RateLimiter.Limiter
  {
    if x.adaptiveDelay > 0 || !CircuitAdmits(cfg, b, x) then l else RateLimiter.Allow(l, limits, x.chat, x.now).0
  }

  // ---------------------------------------------------------------- the moves for a job, written out

  /** After the adapter's answer; `e` is the id an envelope would get. */
  function EndLabels(w: Q.WorkerId, result: ExecutionResult, attempts: int, maxAttempts: int, x: Surroundings,
                     e: Box.EnvelopeId): seq<Label>
  {
    var publish := Work(w, Publish(e, x.publishedAt));
    if result.status.Succeeded? then [Work(w, MarkDone(x.completedAt)), Work(w, Action.Ack), publish]
    else if !result.failure.EnvironmentFailure? then [Work(w, ClearClaim), Work(w, Action.Ack), publish]
    else if ShouldRetry(attempts, maxAttempts)
    then [Work(w, Decide), Work(w, ClearClaim), Work(w, ReleaseRetry(x.retryAt))]
    else [Work(w, Decide), Work(w, ClearClaim), Work(w, Action.DeadLetter), publish]
  }

  function CallLabels(w: Q.WorkerId, visibility: int, x: Surroundings): seq<Label> {
    [Work(w, KeepAlive(x.calledAt + visibility)), Work(w, CallAdapter(ResultOf(x.answer))),
     Work(w, KeepAlive(x.answeredAt + visibility))]
  }

  /** When somebody has claimed the intent before. */
  function BusyLabels(s: World, w: Q.WorkerId, job: JobRef, x: Surroundings, e: Box.EnvelopeId): seq<Label> {
    if Stale(s, job, x.now) then [Work(w, CheckStale), Work(w, DeadLetterStale), Work(w, Publish(e, x.publishedAt))]
    else [Work(w, CheckStale), Work(w, ReleaseBusy(x.now + SECOND))]
  }

  function ClaimLabels(s: World, w: Q.WorkerId, visibility: int, job: JobRef, x: Surroundings,
                       e: Box.EnvelopeId): seq<Label>
  {
    [Work(w, BeginClaim(x.claimedAt))]
    + if job.intent !in s.idem then
        CallLabels(w, visibility, x) + EndLabels(w, ResultOf(x.answer), AttemptsOf(s, job), s.cfg.maxAttempts, x, e)
      else if Idem.IsDone(s.idem, job.intent) then [Work(w, Action.Ack)]
      else BusyLabels(s, w, job, x, e)
  }

  function JobLabels(s: World, w: Q.WorkerId, visibility: int, job: JobRef, x: Surroundings,
                     heldBackUntil: Option<Time>, e: Box.EnvelopeId): seq<Label>
  {
    [Work(w, Start(x.now))]
    + match heldBackUntil
      case Some(until) => [Work(w, Throttle(until))]
      case None => ClaimLabels(s, w, visibility, job, x, e)
  }

  /** How many envelopes these moves publish: publishing, if it happens, is the last of them. */
  function Published(ls: seq<Label>): nat {
    if ls != [] && ls[|ls| - 1].Work? && ls[|ls| - 1].action.Publish? then 1 else 0
  }

  // ---------------------------------------------------------------- a batch, job after job

  /** The world, and what the worker uses beside it. */
  datatype Scene = Scene(
    world: World, breaker: CircuitBreaker.Breaker, limiter: RateLimiter.Limiter, nextId: Box.EnvelopeId)

  datatype Setup = Setup(id: Q.WorkerId, visibility: int, breaker: CircuitBreaker.Config, limits: RateLimiter.Limits)

  function LabelsIn(u: Setup, sc: Scene, job: JobRef, x: Surroundings): seq<Label> {
    var heldBack := HeldBackUntil(u.breaker, sc.breaker, u.limits, sc.limiter, x);
    JobLabels(sc.world, u.id, u.visibility, job, x, heldBack, sc.nextId)
  }

  function SceneAfter(u: Setup, sc: Scene, job: JobRef, x: Surroundings): Scene {
    var ls := LabelsIn(u, sc, job, x);
    Scene(match Exec(sc.world, ls) case Some(t) => t case None => sc.world,
          BreakerAfter(u.breaker, sc.breaker, u.limits, sc.limiter, job.intent in sc.world.idem, x),
          LimiterAfter(u.breaker, sc.breaker, u.limits, sc.limiter, x),
          sc.nextId + Published(ls))
  }

  /** The moves for a whole batch, and the scene they leave. */
  function BatchLabels(u: Setup, sc: Scene, jobs: seq<Q.Job>, xs: nat -> Surroundings): (seq<Label>, Scene) {
    if jobs == [] then ([], sc)
    else
      var n := |jobs| - 1;
      var (ls, mid) := BatchLabels(u, sc, jobs[..n], xs);
      (ls + LabelsIn(u, mid, RefOf(jobs[n]), xs(n)), SceneAfter(u, mid, RefOf(jobs[n]), xs(n)))
  }

  /** Whether expired leases are to be handed back, and the labels for it. */
  predicate Due(config: WorkerConfig, now: Time, lastReclaim: Time) {
    now - lastReclaim >= config.reclaimInterval
  }

  function DueLabels(config: WorkerConfig, now: Time, lastReclaim: Time, queueNow: Time, inboxNow: Time,
                     queueOrder: seq<Q.JobId>, inboxOrder: seq<Box.EnvelopeId>): seq<Label>
  {
    if Due(config, now, lastReclaim) then ReclaimLabels(queueOrder, queueNow) + ReclaimItemLabels(inboxOrder, inboxNow)
    else []
  }

  /** Starting a job does not change what its claim will find. */
  lemma SameClaim(s: World, started: World, w: Q.WorkerId, visibility: int, job: JobRef, x: Surroundings,
                  e: Box.EnvelopeId)
    requires started.cfg == s.cfg && started.queue == s.queue && started.idem == s.idem
    ensures ClaimLabels(started, w, visibility, job, x, e) == ClaimLabels(s, w, visibility, job, x, e)
  {
  }

  lemma OneMoreJob(u: Setup, sc: Scene, jobs: seq<Q.Job>, n: nat, xs: nat -> Surroundings)
    requires n < |jobs|
    ensures
      var (ls, mid) := BatchLabels(u, sc, jobs[..n], xs);
      BatchLabels(u, sc, jobs[..n + 1], xs)
      == (ls + LabelsIn(u, mid, RefOf(jobs[n]), xs(n)), SceneAfter(u, mid, RefOf(jobs[n]), xs(n)))
  {
    assert jobs[..n + 1][..n] == jobs[..n];
  }

  /** What a round does once expired leases have been handed back: one lease for each job of the best batch, and then
      the moves for each of these jobs in turn, with everything the worker uses ending as these leave it. */
  ghost predicate Handles(u: Setup, config: WorkerConfig, sc: Scene, order: seq<Q.JobId>, leaseNow: Time,
                          xs: nat -> Surroundings, lease: seq<Label>, leased: World, handle: seq<Label>,
                          processed: nat, drained: seq<CircuitBreaker.Transition>, after: Scene)
  {
    var jobs := Q.ToLease(sc.world.queue, order, config.batchSize, leaseNow);
    var (labels, end) := BatchLabels(u, sc.(world := leased), jobs, xs);
    && lease == LeaseLabels(u.id, jobs, leaseNow, leaseNow + config.visibility) && Exec(sc.world, lease) == Some(leased)
    && handle == labels && processed == |jobs|
    && drained == end.breaker.transitions && after == end.(breaker := end.breaker.(transitions := []))
  }

  // ---------------------------------------------------------------- the mutable object

  class ExecutionWorker {
    const id: Q.WorkerId
    const config: WorkerConfig
    const maxAttempts: int
    const queue: Q.InMemoryExecutionQueue
    const inbox: Box.InMemoryExecutionResultInbox
    const store: Idem.InMemoryIdempotencyStore
    const limiter: RateLimiter.InMemorySlidingRateLimiter
    const breaker: CircuitBreaker.InMemoryCircuitBreaker
    var lastReclaim: Time

    constructor (id: Q.WorkerId, config: WorkerConfig, maxAttempts: int, queue: Q.InMemoryExecutionQueue,
                 inbox: Box.InMemoryExecutionResultInbox, store: Idem.InMemoryIdempotencyStore,
                 limiter: RateLimiter.InMemorySlidingRateLimiter, breaker: CircuitBreaker.InMemoryCircuitBreaker,
                 now: Time)
      ensures this.id == id && this.config == config && this.maxAttempts == maxAttempts && lastReclaim == now
      ensures this.queue == queue && this.inbox == inbox && this.store == store
      ensures this.limiter == limiter && this.breaker == breaker
    {
      this.id, this.config, this.maxAttempts := id, config, maxAttempts;
      this.queue, this.inbox, this.store := queue, inbox, store;
      this.limiter, this.breaker := limiter, breaker;
      lastReclaim := now;
    }

    /** The stores hold what the world says they hold, and the world has this worker where it is. */
    ghost predicate At(s: World, worker: Worker)
      reads queue, inbox, store
    {
      && s.cfg.maxAttempts == maxAttempts && s.cfg.staleAfter == config.staleAfter
      && s.queue == queue.State() && s.idem == store.records && s.inbox == inbox.items && inbox.Valid()
      && id in s.workers && s.workers[id] == worker
    }

    ghost function SetupOf(): Setup {
      Setup(id, config.visibility, breaker.cfg, limiter.limits)
    }

    ghost function SceneOf(s: World): Scene
      reads breaker, limiter, inbox
    {
      Scene(s, breaker.State(), limiter.State(), inbox.nextId)
    }

    /** `_publish_terminal_result`: the last move for a job. */
    method PublishTerminalResult(job: JobRef, result: ExecutionResult, x: Surroundings, ghost s: World)
      returns (ghost ls: seq<Label>, ghost t: World)
      requires id in s.workers && At(s, Worker(s.workers[id].batch, Publishing(job, result)))
      modifies inbox
      ensures ls == [Work(id, Publish(old(inbox.nextId), x.publishedAt))] && inbox.nextId == old(inbox.nextId) + 1
      ensures Path(ByWorker(id), s, ls, t) && At(t, Worker(s.workers[id].batch, Ready))
    {
      var e := inbox.AppendEnvelope(EnvelopeOf(job, result, x.publishedAt));
      ghost var l := Work(id, Publish(e, x.publishedAt));
      PathOne(ByWorker(id), s, l);
      ls, t := [l], Step(s, l);
    }

    method AckEnded(job: JobRef, result: ExecutionResult, ghost s: World) returns (ghost t: World)
      requires id in s.workers && At(s, s.workers[id])
      requires s.workers[id].pc == Completing(job, result) || s.workers[id].pc == FailCleared(job, result)
      modifies queue
      ensures Enabled(s, Work(id, Action.Ack)) && t == Step(s, Work(id, Action.Ack))
      ensures At(t, Worker(s.workers[id].batch, Publishing(job, result)))
    {
      var _ := queue.Ack(job.id, id);
      t := Step(s, Work(id, Action.Ack));
    }

    method FinishSuccess(job: JobRef, result: ExecutionResult, x: Surroundings, ghost s: World)
      returns (ghost ls: seq<Label>, ghost t: World)
      requires result.status.Succeeded?
      requires id in s.workers && At(s, Worker(s.workers[id].batch, Called(job, result)))
      modifies store, queue, inbox, breaker
      ensures ls == EndLabels(id, result, AttemptsOf(s, job), maxAttempts, x, old(inbox.nextId))
      ensures inbox.nextId == old(inbox.nextId) + 1
      ensures Path(ByWorker(id), s, ls, t) && At(t, Worker(s.workers[id].batch, Ready))
      ensures breaker.State()
              == CircuitBreaker.Do(breaker.cfg, old(breaker.State()),
                                   CircuitBreaker.Call(x.platform, CircuitBreaker.Success(x.now)))
    {
      ghost var batch, done, ack := s.workers[id].batch, Work(id, MarkDone(x.completedAt)), Work(id, Action.Ack);
      store.CompleteIntent(job.intent, x.completedAt);
      ghost var marked := Step(s, done);
      assert At(marked, Worker(batch, Completing(job, result)));
      ghost var acked := AckEnded(job, result, marked);
      breaker.RecordSuccess(x.platform, x.now);
      ghost var rest;
      rest, t := PublishTerminalResult(job, result, x, acked);
      PathFrom(ByWorker(id), marked, ack, rest, t);
      PathFrom(ByWorker(id), s, done, [ack] + rest, t);
      ls := [done] + ([ack] + rest);
    }

    method RetryLater(job: JobRef, attempts: int, x: Surroundings, ghost s: World)
      returns (ghost ls: seq<Label>, ghost t: World)
      requires id in s.workers && At(s, Worker(s.workers[id].batch, Retrying(job, attempts)))
      modifies store, queue
      ensures ls == [Work(id, ClearClaim), Work(id, ReleaseRetry(x.retryAt))]
      ensures Path(ByWorker(id), s, ls, t) && At(t, Worker(s.workers[id].batch, Ready))
    {
      ghost var release := Work(id, ReleaseRetry(x.retryAt));
      store.Clear(job.intent);
      ghost var cleared := Step(s, Work(id, ClearClaim));
      assert At(cleared, Worker(s.workers[id].batch, RetryCleared(job, attempts)));
      var _ := queue.ReleaseJob(job.id, id, x.retryAt, false);
      t := Step(cleared, release);
      PathOne(ByWorker(id), cleared, release);
      PathFrom(ByWorker(id), s, Work(id, ClearClaim), [release], t);
      ls := [Work(id, ClearClaim)] + [release];
    }

    method GiveUp(job: JobRef, result: ExecutionResult, x: Surroundings, ghost s: World)
      returns (ghost ls: seq<Label>, ghost t: World)
      requires id in s.workers && At(s, Worker(s.workers[id].batch, GivingUp(job, result)))
      modifies store, queue, inbox
      ensures ls
              == [Work(id, ClearClaim), Work(id, Action.DeadLetter),
                  Work(id, Publish(old(inbox.nextId), x.publishedAt))]
      ensures inbox.nextId == old(inbox.nextId) + 1
      ensures Path(ByWorker(id), s, ls, t) && At(t, Worker(s.workers[id].batch, Ready))
    {
      ghost var batch, bury := s.workers[id].batch, Work(id, Action.DeadLetter);
      store.Clear(job.intent);
      ghost var cleared := Step(s, Work(id, ClearClaim));
      assert At(cleared, Worker(batch, GaveUp(job, result)));
      var _ := queue.DeadLetter(job.id, id, Q.AwaitingManualAction);
      ghost var dead := Step(cleared, bury);
      assert At(dead, Worker(batch, Publishing(job, result)));
      ghost var rest;
      rest, t := PublishTerminalResult(job, result, x, dead);
      PathFrom(ByWorker(id), cleared, bury, rest, t);
      PathFrom(ByWorker(id), s, Work(id, ClearClaim), [bury] + rest, t);
      ls := [Work(id, ClearClaim)] + ([bury] + rest);
    }

    /** An environment failure: again later, or no more. */
    method FinishEnvironmentFailure(job: JobRef, result: ExecutionResult, x: Surroundings, ghost s: World)
      returns (ghost ls: seq<Label>, ghost t: World)
      requires !result.status.Succeeded? && result.failure.EnvironmentFailure?
      requires id in s.workers && At(s, Worker(s.workers[id].batch, Called(job, result)))
      modifies store, queue, inbox, breaker
      ensures ls == EndLabels(id, result, AttemptsOf(s, job), maxAttempts, x, old(inbox.nextId))
      ensures inbox.nextId == old(inbox.nextId) + Published(ls)
      ensures Path(ByWorker(id), s, ls, t) && At(t, Worker(s.workers[id].batch, Ready))
      ensures breaker.State()
              == CircuitBreaker.Do(breaker.cfg, old(breaker.State()),
                                   CircuitBreaker.Call(x.platform, CircuitBreaker.Failure(x.now)))
    {
      breaker.RecordFailure(x.platform, x.now);
      var attempts := if job.id in queue.jobs then queue.jobs[job.id].attempts else 0;
      ghost var decided := Step(s, Work(id, Decide));
      ghost var rest;
      if ShouldRetry(attempts, maxAttempts) {
        assert At(decided, Worker(s.workers[id].batch, Retrying(job, attempts)));
        rest, t := RetryLater(job, attempts, x, decided);
      } else {
        assert At(decided, Worker(s.workers[id].batch, GivingUp(job, result)));
        rest, t := GiveUp(job, result, x, decided);
      }
      PathFrom(ByWorker(id), s, Work(id, Decide), rest, t);
      ls := [Work(id, Decide)] + rest;
    }

    /** Any other failure is final. */
    method FinishFinalFailure(job: JobRef, result: ExecutionResult, x: Surroundings, ghost s: World)
      returns (ghost ls: seq<Label>, ghost t: World)
      requires !result.status.Succeeded? && !result.failure.EnvironmentFailure?
      requires id in s.workers && At(s, Worker(s.workers[id].batch, Called(job, result)))
      modifies store, queue, inbox
      ensures ls == EndLabels(id, result, AttemptsOf(s, job), maxAttempts, x, old(inbox.nextId))
      ensures inbox.nextId == old(inbox.nextId) + 1
      ensures Path(ByWorker(id), s, ls, t) && At(t, Worker(s.workers[id].batch, Ready))
    {
      ghost var batch, ack := s.workers[id].batch, Work(id, Action.Ack);
      store.Clear(job.intent);
      ghost var cleared := Step(s, Work(id, ClearClaim));
      assert At(cleared, Worker(batch, FailCleared(job, result)));
      ghost var acked := AckEnded(job, result, cleared);
      ghost var rest;
      rest, t := PublishTerminalResult(job, result, x, acked);
      PathFrom(ByWorker(id), cleared, ack, rest, t);
      PathFrom(ByWorker(id), s, Work(id, ClearClaim), [ack] + rest, t);
      ls := [Work(id, ClearClaim)] + ([ack] + rest);
    }

    method CallBetweenHeartbeats(job: JobRef, x: Surroundings, ghost s: World)
      returns (ghost ls: seq<Label>, ghost t: World)
      requires id in s.workers && At(s, Worker(s.workers[id].batch, Claimed(job)))
      modifies queue
      ensures ls == CallLabels(id, config.visibility, x) && AttemptsOf(t, job) == AttemptsOf(s, job)
      ensures Path(ByWorker(id), s, ls, t) && At(t, Worker(s.workers[id].batch, Called(job, ResultOf(x.answer))))
    {
      ghost var result := ResultOf(x.answer);
      ghost var first, alive;
      first, alive := Beat(job, x.calledAt, s);
      ghost var called := Step(alive, Work(id, CallAdapter(result)));
      assert At(called, Worker(s.workers[id].batch, Called(job, result)));
      ghost var last;
      last, t := Beat(job, x.answeredAt, called);
      PathFrom(ByWorker(id), alive, Work(id, CallAdapter(result)), [last], t);
      PathFrom(ByWorker(id), s, first, [Work(id, CallAdapter(result))] + [last], t);
      ls := [first] + ([Work(id, CallAdapter(result))] + [last]);
    }

    /** Extending the lease of the job in hand changes nothing else. */
    method Beat(job: JobRef, now: Time, ghost s: World) returns (ghost l: Label, ghost t: World)
      requires id in s.workers && At(s, s.workers[id])
      requires (s.workers[id].pc.Claimed? || s.workers[id].pc.Called?) && s.workers[id].pc.job == job
      modifies queue
      ensures l == Work(id, KeepAlive(now + config.visibility)) && Enabled(s, l) && t == Step(s, l)
      ensures Path(ByWorker(id), s, [l], t) && At(t, s.workers[id]) && AttemptsOf(t, job) == AttemptsOf(s, job)
    {
      var _ := queue.ExtendLease(job.id, id, now, config.visibility);
      l := Work(id, KeepAlive(now + config.visibility));
      t := Step(s, l);
      PathOne(ByWorker(id), s, l);
    }

    method FinishByAnswer(job: JobRef, x: Surroundings, ghost s: World)
      returns (ghost ls: seq<Label>, ghost t: World)
      requires id in s.workers && At(s, Worker(s.workers[id].batch, Called(job, ResultOf(x.answer))))
      modifies store, queue, inbox, breaker
      ensures ls == EndLabels(id, ResultOf(x.answer), AttemptsOf(s, job), maxAttempts, x, old(inbox.nextId))
      ensures inbox.nextId == old(inbox.nextId) + Published(ls)
      ensures breaker.State() == Told(breaker.cfg, old(breaker.State()), x)
      ensures Path(ByWorker(id), s, ls, t) && At(t, Worker(s.workers[id].batch, Ready))
    {
      var result := ResultOf(x.answer);
      if result.status.Succeeded? {
        ls, t := FinishSuccess(job, result, x, s);
      } else if result.failure.EnvironmentFailure? {
        ls, t := FinishEnvironmentFailure(job, result, x, s);
      } else {
        ls, t := FinishFinalFailure(job, result, x, s);
      }
    }

    /** The claim was ours: call the adapter between two heartbeats, and finish by its answer. */
    method RunAdapter(job: JobRef, x: Surroundings, ghost s: World)
      returns (ghost ls: seq<Label>, ghost t: World)
      requires id in s.workers && At(s, Worker(s.workers[id].batch, Claimed(job)))
      modifies store, queue, inbox, breaker
      ensures ls == CallLabels(id, config.visibility, x)
                    + EndLabels(id, ResultOf(x.answer), AttemptsOf(s, job), maxAttempts, x, old(inbox.nextId))
      ensures inbox.nextId == old(inbox.nextId) + Published(ls)
      ensures breaker.State() == Told(breaker.cfg, old(breaker.State()), x)
      ensures Path(ByWorker(id), s, ls, t) && At(t, Worker(s.workers[id].batch, Ready))
    {
      ghost var called, rest;
      ls, called := CallBetweenHeartbeats(job, x, s);
      rest, t := FinishByAnswer(job, x, called);
      PathJoin(ByWorker(id), s, ls, called, rest, t);
      ls := ls + rest;
    }

    /** Somebody else's claim stands: dead-letter the job if the claim is stale, try again in a second if not. */
    method LeaveToOther(job: JobRef, x: Surroundings, ghost s: World)
      returns (ghost ls: seq<Label>, ghost t: World)
      requires id in s.workers && At(s, Worker(s.workers[id].batch, Busy(job, x.now)))
      modifies queue, inbox
      ensures ls == BusyLabels(s, id, job, x, old(inbox.nextId)) && inbox.nextId == old(inbox.nextId) + Published(ls)
      ensures Path(ByWorker(id), s, ls, t) && At(t, Worker(s.workers[id].batch, Ready))
    {
      ghost var batch := s.workers[id].batch;
      var record := store.Get(job.intent);
      ghost var checked := Step(s, Work(id, CheckStale));
      ghost var rest;
      if record.Some? && x.now - record.value.updatedAt > config.staleAfter {
        assert At(checked, Worker(batch, BusyStale(job)));
        rest, t := TakeOverStale(job, x, checked);
      } else {
        assert At(checked, Worker(batch, BusyFresh(job)));
        rest, t := LeaveFresh(job, x, checked);
      }
      PathFrom(ByWorker(id), s, Work(id, CheckStale), rest, t);
      ls := [Work(id, CheckStale)] + rest;
    }

    method LeaveFresh(job: JobRef, x: Surroundings, ghost s: World)
      returns (ghost ls: seq<Label>, ghost t: World)
      requires id in s.workers && At(s, Worker(s.workers[id].batch, BusyFresh(job)))
      modifies queue
      ensures ls == [Work(id, ReleaseBusy(x.now + SECOND))]
      ensures Path(ByWorker(id), s, ls, t) && At(t, Worker(s.workers[id].batch, Ready))
    {
      var _ := queue.ReleaseJob(job.id, id, x.now + SECOND, true);
      ghost var l := Work(id, ReleaseBusy(x.now + SECOND));
      PathOne(ByWorker(id), s, l);
      ls, t := [l], Step(s, l);
    }

    method TakeOverStale(job: JobRef, x: Surroundings, ghost s: World)
      returns (ghost ls: seq<Label>, ghost t: World)
      requires id in s.workers && At(s, Worker(s.workers[id].batch, BusyStale(job)))
      modifies queue, inbox
      ensures ls == [Work(id, DeadLetterStale), Work(id, Publish(old(inbox.nextId), x.publishedAt))]
      ensures inbox.nextId == old(inbox.nextId) + 1
      ensures Path(ByWorker(id), s, ls, t) && At(t, Worker(s.workers[id].batch, Ready))
    {
      var _ := queue.DeadLetter(job.id, id, Q.AwaitingManualAction);
      ghost var dead := Step(s, Work(id, DeadLetterStale));
      assert At(dead, Worker(s.workers[id].batch, Publishing(job, STALE_RESULT)));
      ghost var rest;
      rest, t := PublishTerminalResult(job, STALE_RESULT, x, dead);
      PathFrom(ByWorker(id), s, Work(id, DeadLetterStale), rest, t);
      ls := [Work(id, DeadLetterStale)] + rest;
    }

    /** The intent was carried out before: there is nothing to do and nothing to report. */
    method AckDone(job: JobRef, ghost s: World)
      returns (ghost ls: seq<Label>, ghost t: World)
      requires id in s.workers && At(s, Worker(s.workers[id].batch, DoneSeen(job)))
      modifies queue
      ensures ls == [Work(id, Action.Ack)] && Path(ByWorker(id), s, ls, t) && At(t, Worker(s.workers[id].batch, Ready))
    {
      var _ := queue.Ack(job.id, id);
      t := Step(s, Work(id, Action.Ack));
      PathOne(ByWorker(id), s, Work(id, Action.Ack));
      ls := [Work(id, Action.Ack)];
    }

    /** The gates in the order they are asked; a later one is not asked once an earlier one has refused. */
    method PassGates(x: Surroundings) returns (heldBackUntil: Option<Time>)
      modifies limiter, breaker
      ensures heldBackUntil == HeldBackUntil(breaker.cfg, old(breaker.State()), limiter.limits, old(limiter.State()), x)
      ensures breaker.State() == Asked(breaker.cfg, old(breaker.State()), x)
      ensures limiter.State()
              == LimiterAfter(breaker.cfg, old(breaker.State()), limiter.limits, old(limiter.State()), x)
    {
      if x.adaptiveDelay > 0 {
        return Some(x.now + x.adaptiveDelay);
      }
      var admitted := breaker.AllowCall(x.platform, x.now);
      if !admitted {
        return Some(x.now + SECOND);
      }
      var verdict := limiter.AllowCall(x.chat, x.now);
      if !verdict.allowed {
        return Some(x.now + verdict.retryAfter);
      }
      return None;
    }

    /** `_handle_job` from the claim on: the adapter is called exactly when nobody had claimed the intent. */
    method ClaimAndRun(job: JobRef, x: Surroundings, ghost s: World)
      returns (ghost ls: seq<Label>, ghost t: World)
      requires id in s.workers && At(s, Worker(s.workers[id].batch, Started(job, x.now)))
      modifies store, queue, inbox, breaker
      ensures ls == ClaimLabels(s, id, config.visibility, job, x, old(inbox.nextId))
      ensures inbox.nextId == old(inbox.nextId) + Published(ls)
      ensures breaker.State()
              == if job.intent in s.idem then old(breaker.State()) else Told(breaker.cfg, old(breaker.State()), x)
      ensures Path(ByWorker(id), s, ls, t) && At(t, Worker(s.workers[id].batch, Ready))
    {
      var answer := store.BeginIntent(job.intent, x.claimedAt);
      ghost var begin := Work(id, BeginClaim(x.claimedAt));
      ghost var begun := Step(s, begin);
      assert At(begun, Worker(s.workers[id].batch, BeginAnswer(answer, job, x.now)));
      ghost var rest;
      match answer {
        case AlreadyDone => rest, t := AckDone(job, begun);
        case AlreadyInProgress => rest, t := LeaveToOther(job, x, begun);
        case New => rest, t := RunAdapter(job, x, begun);
      }
      PathFrom(ByWorker(id), s, begin, rest, t);
      ls := [begin] + rest;
    }

    method HoldBack(job: JobRef, until: Time, x: Surroundings, ghost s: World)
      returns (ghost ls: seq<Label>, ghost t: World)
      requires id in s.workers && At(s, Worker(s.workers[id].batch, Started(job, x.now)))
      modifies queue
      ensures ls == [Work(id, Throttle(until))] && Path(ByWorker(id), s, ls, t)
      ensures At(t, Worker(s.workers[id].batch, Ready))
    {
      var _ := queue.ReleaseJob(job.id, id, until, true);
      PathOne(ByWorker(id), s, Work(id, Throttle(until)));
      ls, t := [Work(id, Throttle(until))], Step(s, Work(id, Throttle(until)));
    }

    /** `_handle_job`: a job a gate refuses goes back to the queue until the time the gate names; any other is claimed
        and run. The moves are exactly those written out for the job, they are a path of the transition system that
        ends with the stores as they are, and breaker and limiter end as they should. */
    method HandleJob(job: JobRef, x: Surroundings, ghost s: World)
      returns (ghost ls: seq<Label>, ghost t: World)
      requires id in s.workers && At(s, s.workers[id]) && s.workers[id].pc.Ready?
      requires s.workers[id].batch != [] && s.workers[id].batch[0] == job
      modifies store, queue, inbox, limiter, breaker
      ensures ls == LabelsIn(SetupOf(), old(SceneOf(s)), job, x)
      ensures SceneOf(t) == SceneAfter(SetupOf(), old(SceneOf(s)), job, x)
      ensures Path(ByWorker(id), s, ls, t) && At(t, Worker(s.workers[id].batch[1..], Ready))
    {
      ls, t := RunJob(job, x, s);
    }

    method RunJob(job: JobRef, x: Surroundings, ghost s: World)
      returns (ghost ls: seq<Label>, ghost t: World)
      requires id in s.workers && At(s, s.workers[id]) && s.workers[id].pc.Ready?
      requires s.workers[id].batch != [] && s.workers[id].batch[0] == job
      modifies store, queue, inbox, limiter, breaker
      ensures ls == JobLabels(s, id, config.visibility, job, x,
                              HeldBackUntil(breaker.cfg, old(breaker.State()), limiter.limits, old(limiter.State()), x),
                              old(inbox.nextId))
      ensures inbox.nextId == old(inbox.nextId) + Published(ls)
      ensures breaker.State()
              == BreakerAfter(breaker.cfg, old(breaker.State()), limiter.limits, old(limiter.State()),
                              job.intent in s.idem, x)
      ensures limiter.State()
              == LimiterAfter(breaker.cfg, old(breaker.State()), limiter.limits, old(limiter.State()), x)
      ensures Path(ByWorker(id), s, ls, t) && At(t, Worker(s.workers[id].batch[1..], Ready))
    {
      ghost var started := Step(s, Work(id, Start(x.now)));
      assert At(started, Worker(s.workers[id].batch[1..], Started(job, x.now)));
      var heldBackUntil := PassGates(x);
      ghost var rest;
      rest, t := HoldBackOrRun(job, x, heldBackUntil, started);
      SameClaim(s, started, id, config.visibility, job, x, old(inbox.nextId));
      PathFrom(ByWorker(id), s, Work(id, Start(x.now)), rest, t);
      ls := [Work(id, Start(x.now))] + rest;
    }

    method HoldBackOrRun(job: JobRef, x: Surroundings, heldBackUntil: Option<Time>, ghost s: World)
      returns (ghost ls: seq<Label>, ghost t: World)
      requires id in s.workers && At(s, Worker(s.workers[id].batch, Started(job, x.now)))
      modifies store, queue, inbox, breaker
      ensures ls == match heldBackUntil
                    case Some(until) => [Work(id, Throttle(until))]
                    case None => ClaimLabels(s, id, config.visibility, job, x, old(inbox.nextId))
      ensures inbox.nextId == old(inbox.nextId) + Published(ls)
      ensures breaker.State() == if heldBackUntil.Some? || job.intent in s.idem then old(breaker.State())
                                 else Told(breaker.cfg, old(breaker.State()), x)
      ensures Path(ByWorker(id), s, ls, t) && At(t, Worker(s.workers[id].batch, Ready))
    {
      if heldBackUntil.Some? {
        ls, t := HoldBack(job, heldBackUntil.value, x, s);
      } else {
        ls, t := ClaimAndRun(job, x, s);
      }
    }

    /** Hand expired leases back, once in every reclaim interval. */
    method ReclaimIfDue(now: Time, queueNow: Time, inboxNow: Time, queueOrder: seq<Q.JobId>,
                        inboxOrder: seq<Box.EnvelopeId>, ghost s: World)
      returns (ghost ls: seq<Label>, ghost t: World)
      requires id in s.workers && At(s, Worker([], Ready)) && Q.Indexed(queue.State())
      requires Enumerates(queueOrder, queue.jobs.Keys) && Enumerates(inboxOrder, inbox.items.Keys)
      modifies this`lastReclaim, queue, inbox`items
      ensures ls == DueLabels(config, now, old(lastReclaim), queueNow, inboxNow, queueOrder, inboxOrder)
      ensures Path(ByWorker(id), s, ls, t) && At(t, Worker([], Ready)) && Q.Indexed(queue.State())
      ensures queue.jobs.Keys == old(queue.jobs.Keys)
      ensures lastReclaim == if Due(config, now, old(lastReclaim)) then now else old(lastReclaim)
      ensures queue.State()
              == if Due(config, now, old(lastReclaim)) then Q.ReclaimAll(s.queue, queueOrder, queueNow) else s.queue
    {
      PathStays(ByWorker(id), s);
      ls, t := [], s;
      if now - lastReclaim >= config.reclaimInterval {
        ReclaimKeepsIndex(s.queue, queueOrder, queueNow);
        var _ := queue.ReclaimExpired(queueNow, queueOrder);
        ghost var first, mid := ReclaimPath(id, s, queueOrder, queueNow);
        var _ := inbox.ReclaimExpired(inboxNow, inboxOrder);
        ghost var second;
        second, t := ReclaimItemsPath(ByWorker(id), mid, inboxOrder, inboxNow);
        PathJoin(ByWorker(id), s, first, mid, second, t);
        ls := first + second;
        lastReclaim := now;
      }
    }

    method LeaseFromQueue(leaseNow: Time, order: seq<Q.JobId>, ghost q: Q.Queue) returns (jobs: seq<Q.Job>)
      requires q == queue.State() && Q.Indexed(q) && Enumerates(order, q.jobs.Keys)
      modifies queue`jobs
      ensures BatchLeased(q, queue.State(), id, order, config.batchSize, jobs, leaseNow, leaseNow + config.visibility)
    {
      jobs := queue.LeaseBatch(id, config.batchSize, leaseNow, config.visibility, order);
    }

    method LeaseAlong(leaseNow: Time, order: seq<Q.JobId>, ghost s: World) returns (jobs: seq<Q.Job>, ghost t: World)
      requires id in s.workers && s.workers[id] == Worker([], Ready)
      requires s.queue == queue.State() && Q.Indexed(s.queue) && Enumerates(order, s.queue.jobs.Keys)
      modifies queue`jobs
      ensures jobs == Q.ToLease(s.queue, order, config.batchSize, leaseNow)
      ensures Path(ByWorker(id), s, LeaseLabels(id, jobs, leaseNow, leaseNow + config.visibility), t)
      ensures t.cfg == s.cfg && t.idem == s.idem && t.inbox == s.inbox && t.queue == queue.State()
      ensures id in t.workers && t.workers[id] == Worker(Refs(jobs), Ready)
    {
      jobs := LeaseFromQueue(leaseNow, order, s.queue);
      t := BatchPath(id, s, order, config.batchSize, jobs, leaseNow, leaseNow + config.visibility, queue.State());
    }

    method LeaseJobs(leaseNow: Time, order: seq<Q.JobId>, ghost s: World)
      returns (jobs: seq<Q.Job>, ghost ls: seq<Label>, ghost t: World)
      requires id in s.workers && At(s, Worker([], Ready)) && Q.Indexed(queue.State())
      requires Enumerates(order, queue.jobs.Keys)
      modifies queue`jobs
      ensures jobs == Q.ToLease(s.queue, order, config.batchSize, leaseNow)
      ensures ls == LeaseLabels(id, jobs, leaseNow, leaseNow + config.visibility)
      ensures Path(ByWorker(id), s, ls, t) && At(t, Worker(Refs(jobs), Ready))
    {
      jobs, t := LeaseAlong(leaseNow, order, s);
      ls := LeaseLabels(id, jobs, leaseNow, leaseNow + config.visibility);
    }

    method HandleAll(jobs: seq<Q.Job>, xs: nat -> Surroundings, ghost s: World)
      returns (processed: nat, ghost ls: seq<Label>, ghost t: World)
      requires id in s.workers && At(s, Worker(Refs(jobs), Ready))
      modifies store, queue, inbox, limiter, breaker
      ensures processed == |jobs| && (ls, SceneOf(t)) == BatchLabels(SetupOf(), old(SceneOf(s)), jobs, xs)
      ensures Path(ByWorker(id), s, ls, t) && At(t, Worker([], Ready))
    {
      processed, ls, t := 0, [], s;
      PathStays(ByWorker(id), s);
      assert Refs(jobs)[0..] == Refs(jobs);
      while processed < |jobs|
        invariant processed <= |jobs|
        invariant (ls, SceneOf(t)) == BatchLabels(SetupOf(), old(SceneOf(s)), jobs[..processed], xs)
        invariant Path(ByWorker(id), s, ls, t) && At(t, Worker(Refs(jobs)[processed..], Ready))
      {
        assert Refs(jobs)[processed..][1..] == Refs(jobs)[processed + 1..];
        OneMoreJob(SetupOf(), old(SceneOf(s)), jobs, processed, xs);
        ghost var more, next;
        more, next := HandleJob(RefOf(jobs[processed]), xs(processed), t);
        PathJoin(ByWorker(id), s, ls, t, more, next);
        ls, t := ls + more, next;
        processed := processed + 1;
      }
      assert jobs[..|jobs|] == jobs;
    }

    /** `run_once`: the moves are exactly handing back what has expired, if that is due, one lease for each job of the
        best batch, and then the moves for each of these jobs in turn; a worker that starts between jobs ends between
        jobs. */
    method RunOnce(stopped: bool, now: Time, queueNow: Time, inboxNow: Time, leaseNow: Time,
                   queueOrder: seq<Q.JobId>, inboxOrder: seq<Box.EnvelopeId>, xs: nat -> Surroundings, ghost s: World)
      returns (processed: nat, drained: seq<CircuitBreaker.Transition>, ghost ls: seq<Label>, ghost t: World,
               ghost ready: World, ghost lease: seq<Label>, ghost leased: World, ghost handle: seq<Label>)
      requires id in s.workers && At(s, Worker([], Ready)) && Q.Indexed(queue.State())
      requires Enumerates(queueOrder, queue.jobs.Keys) && Enumerates(inboxOrder, inbox.items.Keys)
      modifies this`lastReclaim, queue, inbox, store, limiter, breaker
      ensures Path(ByWorker(id), s, ls, t) && At(t, Worker([], Ready))
      ensures stopped ==> processed == 0 && ls == [] && drained == [] && lastReclaim == old(lastReclaim)
      ensures
        var due := DueLabels(config, now, old(lastReclaim), queueNow, inboxNow, queueOrder, inboxOrder);
        !stopped ==>
          && ls == due + lease + handle && Exec(s, due) == Some(ready)
          && Handles(SetupOf(), config, old(SceneOf(s)).(world := ready), queueOrder, leaseNow, xs,
                     lease, leased, handle, processed, drained, SceneOf(t))
    {
      processed, drained, ls, t, ready, lease, leased, handle := 0, [], [], s, s, [], s, [];
      PathStays(ByWorker(id), s);
      if !stopped {
        ghost var due;
        due, ready := ReclaimIfDue(now, queueNow, inboxNow, queueOrder, inboxOrder, s);
        processed, drained, lease, leased, handle, t := LeaseAndHandle(leaseNow, queueOrder, xs, ready);
        ls := due + lease + handle;
        PathJoinTwo(ByWorker(id), s, due, ready, lease, handle, t);
      }
    }

    method LeaseAndHandle(leaseNow: Time, order: seq<Q.JobId>, xs: nat -> Surroundings, ghost s: World)
      returns (processed: nat, drained: seq<CircuitBreaker.Transition>, ghost lease: seq<Label>, ghost leased: World,
               ghost handle: seq<Label>, ghost t: World)
      requires id in s.workers && At(s, Worker([], Ready)) && Q.Indexed(queue.State())
      requires Enumerates(order, queue.jobs.Keys)
      modifies queue, inbox, store, limiter, breaker
      ensures Path(ByWorker(id), s, lease + handle, t) && At(t, Worker([], Ready))
      ensures Handles(SetupOf(), config, old(SceneOf(s)), order, leaseNow, xs, lease, leased, handle, processed,
                      drained, SceneOf(t))
    {
      var jobs;
      jobs, lease, leased := LeaseJobs(leaseNow, order, s);
      processed, handle, t := HandleAll(jobs, xs, leased);
      drained := breaker.DrainTransitions();
      PathJoin(ByWorker(id), s, lease, leased, handle, t);
    }
  }
}
