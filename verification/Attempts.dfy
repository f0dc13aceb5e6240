/** What every run keeps about the jobs of the queue: one active job per intent, an exact account of
    attempts, and a bound on retries. */
module Attempts {
  import opened Base
  import opened Pipeline
  import Q = ExecutionQueue

  // ---------------------------------------------------------------- the queue's own invariant

  /** r is q with one job moved. */
  predicate MovesOne(q: Q.Queue, r: Q.Queue, j: Q.JobId) {
    j in q.jobs && j in r.jobs && r == q.(jobs := q.jobs[j := r.jobs[j]])
  }

  /** An action moves one job, or none. */
  lemma EffectMovesOne(s: World, w: Q.WorkerId, a: Action)
    requires CanAct(s, w, a)
    ensures EffectOf(s, w, a).queue == s.queue || MovesOne(s.queue, EffectOf(s, w, a).queue, Subject(s, w, a))
  {
  }

  lemma EffectIsMove(s: World, w: Q.WorkerId, a: Action)
    requires CanAct(s, w, a) && MovesOne(s.queue, EffectOf(s, w, a).queue, Subject(s, w, a))
    ensures Q.Moves(s.queue.jobs[Subject(s, w, a)], EffectOf(s, w, a).queue.jobs[Subject(s, w, a)])
  {
  }

  /** Every queue operation either adds a job or moves one. */
  lemma EffectKeepsSound(s: World, w: Q.WorkerId, a: Action)
    requires CanAct(s, w, a) && Q.Sound(s.queue)
    ensures Q.Sound(EffectOf(s, w, a).queue)
  {
    var q, j := EffectOf(s, w, a).queue, Subject(s, w, a);
    EffectMovesOne(s, w, a);
    if q != s.queue {
      EffectIsMove(s, w, a);
      Q.MoveKeepsSound(s.queue, j, q.jobs[j]);
    }
  }

  lemma SufferKeepsSound(s: World, i: Incident)
    requires CanHappen(s, i) && Q.Sound(s.queue)
    ensures Q.Sound(Suffer(s, i).queue)
  {
    var q := Suffer(s, i).queue;
    if i.Replay? {
      Q.ReplayKeepsSound(s.queue, i.job, i.newJob, i.now);
    } else if q != s.queue {
      assert q == s.queue.(jobs := s.queue.jobs[i.job := q.jobs[i.job]]);
      Q.MoveKeepsSound(s.queue, i.job, q.jobs[i.job]);
    }
  }

  lemma StepKeepsSound(s: World, l: Label)
    requires Enabled(s, l) && Q.Sound(s.queue)
    ensures Q.Sound(Step(s, l).queue)
  {
    match l
    case Work(w, a) => EffectKeepsSound(s, w, a);
    case Happen(i) => SufferKeepsSound(s, i);
    case Orchestrate(o) =>
      if o.Submit? {
        Q.EnqueueKeepsSound(s.queue, Q.NewJob(o.job, o.intent, o.domain, Some(Budget.ReservationDelta(o.cost)),
                                              o.priority, 5, o.now));
      }
    case Deliver(d, b) =>
  }

  /** In every run: each queued or leased job is the one its intent's index entry names. */
  lemma {:induction false} QueueStaysSound(s: World, ls: seq<Label>)
    requires Init(s) && Exec(s, ls).Some?
    ensures Q.Sound(Exec(s, ls).value.queue)
    decreases |ls|
  {
    if ls != [] {
      QueueStaysSound(s, ls[..|ls| - 1]);
      StepKeepsSound(Exec(s, ls[..|ls| - 1]).value, ls[|ls| - 1]);
    }
  }

  lemma ActKeepsEnded(s: World, w: Q.WorkerId, a: Action, j: Q.JobId)
    requires CanAct(s, w, a) && j in s.queue.jobs && Q.Ended(s.queue.jobs[j])
    ensures j in EffectOf(s, w, a).queue.jobs && EffectOf(s, w, a).queue.jobs[j] == s.queue.jobs[j]
  {
  }

  lemma SufferKeepsEnded(s: World, i: Incident, j: Q.JobId)
    requires CanHappen(s, i) && j in s.queue.jobs && Q.Ended(s.queue.jobs[j])
    ensures j in Suffer(s, i).queue.jobs && Suffer(s, i).queue.jobs[j].state == s.queue.jobs[j].state
  {
    match i
    case Reclaim(_, _) =>
    case Replay(_, _, _) =>
    case Resolve(_, _) =>
    case _ => assert Suffer(s, i).queue == s.queue;
  }

  /** A completed or dead-lettered job stays what it is; replaying it makes another job. */
  lemma EndedIsAbsorbing(s: World, l: Label, j: Q.JobId)
    requires Enabled(s, l) && j in s.queue.jobs && Q.Ended(s.queue.jobs[j])
    ensures j in Step(s, l).queue.jobs && Step(s, l).queue.jobs[j].state == s.queue.jobs[j].state
  {
    match l
    case Work(w, a) => ActKeepsEnded(s, w, a, j);
    case Happen(i) => SufferKeepsEnded(s, i, j);
    case Orchestrate(o) => assert j in Obey(s, o).queue.jobs && Obey(s, o).queue.jobs[j] == s.queue.jobs[j];
    case Deliver(d, b) => assert DeliverTo(s, d, b).queue == s.queue;
  }

  // ---------------------------------------------------------------- attempt accounting

  function HeldOnce(job: Q.Job): nat {
    if job.state.Queued? then 0 else 1
  }

  /** Attempts are leases less throttle releases: a throttle release undoes its lease exactly. */
  predicate Accounted(job: Q.Job, h: multiset<Event>) {
    && job.attempts == h[RetryReleased(job.id)] + h[LeaseReclaimed(job.id)] + HeldOnce(job)
    && h[LeaseTaken(job.id)]
       == h[ThrottleReleased(job.id)] + h[RetryReleased(job.id)] + h[LeaseReclaimed(job.id)] + HeldOnce(job)
  }

  predicate Unheard(j: Q.JobId, h: multiset<Event>) {
    h[RetryReleased(j)] == 0 && h[LeaseReclaimed(j)] == 0 && h[LeaseTaken(j)] == 0 && h[ThrottleReleased(j)] == 0
  }

  ghost predicate AllAccounted(q: Q.Queue, h: multiset<Event>) {
    && (forall j :: j in q.jobs ==> q.jobs[j].id == j && Accounted(q.jobs[j], h))
    && (forall j :: j !in q.jobs ==> Unheard(j, h))
  }

  /** Events that tell nothing about any job but j. */
  ghost predicate Only(j: Q.JobId, ev: multiset<Event>) {
    forall k :: k != j ==> Unheard(k, ev)
  }

  lemma AccountedUnmoved(job: Q.Job, h: multiset<Event>, ev: multiset<Event>)
    requires Unheard(job.id, ev)
    ensures Accounted(job, h + ev) <==> Accounted(job, h)
  {
  }

  lemma UpdateAccounted(q: Q.Queue, h: multiset<Event>, j: Q.JobId, job: Q.Job, ev: multiset<Event>)
    requires AllAccounted(q, h) && j in q.jobs && job.id == j && Only(j, ev) && Accounted(job, h + ev)
    ensures AllAccounted(q.(jobs := q.jobs[j := job]), h + ev)
  {
    forall k | k in q.jobs && k != j ensures Accounted(q.jobs[k], h + ev) {
      assert Unheard(k, ev);
      AccountedUnmoved(q.jobs[k], h, ev);
    }
    forall k | k !in q.jobs ensures Unheard(k, h + ev) {
      assert Unheard(k, ev) && Unheard(k, h);
    }
  }

  lemma SilentAccounted(q: Q.Queue, h: multiset<Event>, ev: multiset<Event>)
    requires AllAccounted(q, h) && forall k :: Unheard(k, ev)
    ensures AllAccounted(q, h + ev)
  {
    forall k | k in q.jobs ensures Accounted(q.jobs[k], h + ev) {
      assert Unheard(k, ev);
      AccountedUnmoved(q.jobs[k], h, ev);
    }
    forall k | k !in q.jobs ensures Unheard(k, h + ev) {
      assert Unheard(k, ev) && Unheard(k, h);
    }
  }

  /** An action that moves no job tells nothing about any; one that does accounts for it. */
  lemma SilentUnlessMoved(s: World, w: Q.WorkerId, a: Action)
    requires CanAct(s, w, a) && EffectOf(s, w, a).queue == s.queue
    ensures Unheard(Subject(s, w, a), EffectOf(s, w, a).events)
  {
    var j := Subject(s, w, a);
    if Q.Holds(s.queue, j, w) {
      assert s.queue.jobs[j].state.Leased?;
    }
  }

  lemma MovedAccounted(s: World, w: Q.WorkerId, a: Action)
    requires CanAct(s, w, a) && AllAccounted(s.queue, s.hist)
    requires MovesOne(s.queue, EffectOf(s, w, a).queue, Subject(s, w, a))
    ensures
      var e, j := EffectOf(s, w, a), Subject(s, w, a);
      e.queue.jobs[j].id == j && Accounted(e.queue.jobs[j], s.hist + e.events)
  {
    var j := Subject(s, w, a);
    assert s.queue.jobs[j].id == j && Accounted(s.queue.jobs[j], s.hist);
  }

  lemma EventsAboutOne(s: World, w: Q.WorkerId, a: Action)
    requires CanAct(s, w, a)
    ensures Only(Subject(s, w, a), EffectOf(s, w, a).events)
  {
  }

  lemma EffectAccounted(s: World, w: Q.WorkerId, a: Action)
    requires CanAct(s, w, a) && AllAccounted(s.queue, s.hist)
    ensures AllAccounted(EffectOf(s, w, a).queue, s.hist + EffectOf(s, w, a).events)
  {
    var e, j := EffectOf(s, w, a), Subject(s, w, a);
    EffectMovesOne(s, w, a);
    EventsAboutOne(s, w, a);
    if e.queue == s.queue {
      SilentUnlessMoved(s, w, a);
      SilentAccounted(s.queue, s.hist, e.events);
    } else {
      MovedAccounted(s, w, a);
      UpdateAccounted(s.queue, s.hist, j, e.queue.jobs[j], e.events);
    }
  }

  lemma ReplayAccounted(s: World, j: Q.JobId, newJob: Q.JobId, now: Time)
    requires newJob !in s.queue.jobs && AllAccounted(s.queue, s.hist)
    ensures AllAccounted(Q.ReplayDlq(s.queue, j, newJob, now).0, s.hist)
  {
    assert Unheard(newJob, s.hist);
    assert j in s.queue.jobs ==> Accounted(s.queue.jobs[j], s.hist);
  }

  lemma ResolveAccounted(s: World, j: Q.JobId, dlqState: Q.DlqState)
    requires AllAccounted(s.queue, s.hist)
    ensures AllAccounted(Q.ResolveDlq(s.queue, j, dlqState), s.hist)
  {
    assert j in s.queue.jobs ==> Accounted(s.queue.jobs[j], s.hist);
  }

  lemma ReclaimAccounted(s: World, j: Q.JobId, now: Time)
    requires AllAccounted(s.queue, s.hist)
    ensures AllAccounted(Q.ReclaimJob(s.queue, j, now), s.hist + One(Reclaims(s, j, now), LeaseReclaimed(j)))
  {
    if Reclaims(s, j, now) {
      assert Accounted(s.queue.jobs[j], s.hist);
      UpdateAccounted(s.queue, s.hist, j, Q.Reclaimed(s.queue.jobs[j], now), multiset{LeaseReclaimed(j)});
    } else {
      SilentAccounted(s.queue, s.hist, multiset{});
    }
  }

  lemma SufferAccounted(s: World, i: Incident)
    requires CanHappen(s, i) && AllAccounted(s.queue, s.hist)
    ensures AllAccounted(Suffer(s, i).queue, Suffer(s, i).hist)
  {
    match i
    case Reclaim(j, now) => ReclaimAccounted(s, j, now);
    case ReclaimEnvelope(e, now) =>
      SilentAccounted(s.queue, s.hist, One(e in s.inbox && Box.ItemExpired(s.inbox[e], now), ItemReclaimed(e)));
    case Replay(j, newJob, now) => ReplayAccounted(s, j, newJob, now);
    case Resolve(j, dlqState) => ResolveAccounted(s, j, dlqState);
    case Crash(_) =>
    case CrashDispatcher(_) =>
  }

  lemma ObeyAccounted(s: World, o: Order)
    requires CanOrder(s, o) && AllAccounted(s.queue, s.hist)
    ensures AllAccounted(Obey(s, o).queue, Obey(s, o).hist)
  {
    if o.Submit? {
      assert Unheard(o.job, s.hist);
    }
  }

  lemma StepAccounted(s: World, l: Label)
    requires Enabled(s, l) && AllAccounted(s.queue, s.hist)
    ensures AllAccounted(Step(s, l).queue, Step(s, l).hist)
  {
    match l
    case Work(w, a) => EffectAccounted(s, w, a);
    case Happen(i) => SufferAccounted(s, i);
    case Orchestrate(o) => ObeyAccounted(s, o);
    case Deliver(d, b) => DeliverAccounted(s, d, b);
  }

  lemma DeliverAccounted(s: World, d: Id, b: Delivery)
    requires CanDeliver(s, d, b) && AllAccounted(s.queue, s.hist)
    ensures AllAccounted(DeliverTo(s, d, b).queue, DeliverTo(s, d, b).hist)
  {
    match b
    case Take(e, _) => SilentAccounted(s.queue, s.hist, multiset{Taken(d, e)});
    case ApplyNext(_, _) =>
      var e := s.dispatchers[d].batch[0];
      SilentAccounted(s.queue, s.hist, AppliedEvents(d, e, s.inbox[e].envelope));
    case _ =>
  }

  /** In every reachable state a job's attempt count is its retry releases plus the leases taken away from it,
      plus one while it is leased and for good once it has ended. */
  lemma {:induction false} AttemptsAreAccounted(s: World, ls: seq<Label>)
    requires Init(s) && Exec(s, ls).Some?
    ensures AllAccounted(Exec(s, ls).value.queue, Exec(s, ls).value.hist)
    decreases |ls|
  {
    if ls != [] {
      AttemptsAreAccounted(s, ls[..|ls| - 1]);
      StepAccounted(Exec(s, ls[..|ls| - 1]).value, ls[|ls| - 1]);
    }
  }

  // ---------------------------------------------------------------- retries are bounded

  predicate WillRetry(pc: Pc) {
    pc.Retrying? || pc.RetryCleared?
  }

  /** A worker about to retry read the attempt count it will release with, if it still holds the lease. */
  ghost predicate RetryGrounded(s: World) {
    forall w :: w in s.workers && WillRetry(s.workers[w].pc) ==>
                  var pc := s.workers[w].pc;
                  && pc.attempts < s.cfg.maxAttempts
                  && (Q.Holds(s.queue, pc.job.id, w) ==> s.queue.jobs[pc.job.id].attempts == pc.attempts)
  }

  ghost predicate RetriesCapped(s: World) {
    forall j :: s.hist[RetryReleased(j)] <= MaxI(0, s.cfg.maxAttempts - 1)
  }

  /** Nobody comes to hold a lease, and no held job's count moves. */
  ghost predicate NoNewHold(q: Q.Queue, r: Q.Queue, v: Q.WorkerId) {
    forall j :: Q.Holds(r, j, v) ==> Q.Holds(q, j, v) && r.jobs[j].attempts == q.jobs[j].attempts
  }

  lemma SubjectNotNewlyHeld(s: World, w: Q.WorkerId, a: Action, v: Q.WorkerId)
    requires CanAct(s, w, a) && (a.Lease? ==> v != w)
    ensures
      var q, j := EffectOf(s, w, a).queue, Subject(s, w, a);
      Q.Holds(q, j, v) ==> Q.Holds(s.queue, j, v) && q.jobs[j].attempts == s.queue.jobs[j].attempts
  {
  }

  lemma EffectNoNewHold(s: World, w: Q.WorkerId, a: Action, v: Q.WorkerId)
    requires CanAct(s, w, a) && (a.Lease? ==> v != w)
    ensures NoNewHold(s.queue, EffectOf(s, w, a).queue, v)
  {
    EffectMovesOne(s, w, a);
    SubjectNotNewlyHeld(s, w, a, v);
    OneMovedNoNewHold(s.queue, EffectOf(s, w, a).queue, Subject(s, w, a), v);
  }

  lemma OneMovedNoNewHold(q: Q.Queue, r: Q.Queue, j: Q.JobId, v: Q.WorkerId)
    requires r == q || MovesOne(q, r, j)
    requires Q.Holds(r, j, v) ==> Q.Holds(q, j, v) && r.jobs[j].attempts == q.jobs[j].attempts
    ensures NoNewHold(q, r, v)
  {
  }

  lemma ActGrounded(s: World, w: Q.WorkerId, a: Action)
    requires CanAct(s, w, a) && RetryGrounded(s)
    ensures RetryGrounded(Act(s, w, a))
  {
    var t := Act(s, w, a);
    forall v | v in t.workers && WillRetry(t.workers[v].pc)
      ensures t.workers[v].pc.attempts < t.cfg.maxAttempts
      ensures Q.Holds(t.queue, t.workers[v].pc.job.id, v) ==>
                t.queue.jobs[t.workers[v].pc.job.id].attempts == t.workers[v].pc.attempts
    {
      if v != w {
        EffectNoNewHold(s, w, a, v);
      }
    }
  }

  lemma SufferNoNewHold(s: World, i: Incident, v: Q.WorkerId)
    requires CanHappen(s, i)
    ensures NoNewHold(s.queue, Suffer(s, i).queue, v)
  {
    match i
    case Reclaim(_, _) =>
    case Replay(_, _, _) =>
    case Resolve(_, _) =>
    case _ => assert Suffer(s, i).queue == s.queue;
  }

  lemma SufferGrounded(s: World, i: Incident)
    requires CanHappen(s, i) && RetryGrounded(s)
    ensures RetryGrounded(Suffer(s, i))
  {
    var t := Suffer(s, i);
    assert t.cfg == s.cfg;
    forall v | v in t.workers && WillRetry(t.workers[v].pc)
      ensures t.workers[v].pc.attempts < t.cfg.maxAttempts
      ensures Q.Holds(t.queue, t.workers[v].pc.job.id, v) ==>
                t.queue.jobs[t.workers[v].pc.job.id].attempts == t.workers[v].pc.attempts
    {
      assert t.workers[v] == s.workers[v];
      SufferNoNewHold(s, i, v);
    }
  }

  lemma ObeyGrounded(s: World, o: Order)
    requires CanOrder(s, o) && RetryGrounded(s)
    ensures RetryGrounded(Obey(s, o))
  {
    assert forall j, v :: Q.Holds(Obey(s, o).queue, j, v) ==>
               Q.Holds(s.queue, j, v) && Obey(s, o).queue.jobs[j] == s.queue.jobs[j];
  }

  lemma StepGrounded(s: World, l: Label)
    requires Enabled(s, l) && RetryGrounded(s)
    ensures RetryGrounded(Step(s, l))
  {
    match l
    case Work(w, a) => ActGrounded(s, w, a);
    case Happen(i) => SufferGrounded(s, i);
    case Orchestrate(o) => ObeyGrounded(s, o);
    case Deliver(d, b) =>
      assert DeliverTo(s, d, b).queue == s.queue && DeliverTo(s, d, b).workers == s.workers
             && DeliverTo(s, d, b).cfg == s.cfg;
  }

  /** The only step that counts as a retry. */
  lemma RetryEvents(s: World, l: Label, j: Q.JobId)
    requires Enabled(s, l)
    ensures Step(s, l).cfg == s.cfg
    ensures Step(s, l).hist[RetryReleased(j)] == s.hist[RetryReleased(j)]
            + if l.Work? && l.action.ReleaseRetry? && s.workers[l.w].pc.job.id == j && Q.Holds(s.queue, j, l.w)
              then 1 else 0
  {
    match l
    case Work(w, a) => EffectRetryEvents(s, w, a, j);
    case Deliver(d, b) => DeliverRetryEvents(s, d, b, j);
    case Orchestrate(o) => assert Obey(s, o).hist == s.hist && Obey(s, o).cfg == s.cfg;
    case Happen(i) => SufferRetryEvents(s, i, j);
  }

  lemma DeliverRetryEvents(s: World, d: Id, b: Delivery, j: Q.JobId)
    requires CanDeliver(s, d, b)
    ensures DeliverTo(s, d, b).cfg == s.cfg && DeliverTo(s, d, b).hist[RetryReleased(j)] == s.hist[RetryReleased(j)]
  {
  }

  lemma SufferRetryEvents(s: World, i: Incident, j: Q.JobId)
    requires CanHappen(s, i)
    ensures Suffer(s, i).cfg == s.cfg && Suffer(s, i).hist[RetryReleased(j)] == s.hist[RetryReleased(j)]
  {
  }

  lemma EffectRetryEvents(s: World, w: Q.WorkerId, a: Action, j: Q.JobId)
    requires CanAct(s, w, a)
    ensures EffectOf(s, w, a).events[RetryReleased(j)]
            == if a.ReleaseRetry? && s.workers[w].pc.job.id == j && Q.Holds(s.queue, j, w) then 1 else 0
  {
  }

  lemma StepCapped(s: World, l: Label)
    requires Enabled(s, l) && RetryGrounded(s) && RetriesCapped(s) && AllAccounted(s.queue, s.hist)
    ensures RetriesCapped(Step(s, l))
  {
    forall j ensures Step(s, l).hist[RetryReleased(j)] <= MaxI(0, Step(s, l).cfg.maxAttempts - 1) {
      RetryEvents(s, l, j);
      if l.Work? && l.action.ReleaseRetry? && Q.Holds(s.queue, j, l.w) {
        assert Accounted(s.queue.jobs[j], s.hist);
      }
    }
  }

  lemma {:induction false} RunCapped(s: World, ls: seq<Label>)
    requires Init(s) && Exec(s, ls).Some?
    ensures RetryGrounded(Exec(s, ls).value) && RetriesCapped(Exec(s, ls).value) && Exec(s, ls).value.cfg == s.cfg
    decreases |ls|
  {
    if ls != [] {
      var mid := Exec(s, ls[..|ls| - 1]).value;
      RunCapped(s, ls[..|ls| - 1]);
      AttemptsAreAccounted(s, ls[..|ls| - 1]);
      StepGrounded(mid, ls[|ls| - 1]);
      StepCapped(mid, ls[|ls| - 1]);
    }
  }

  /** In every run a job is released for retry at most `max_attempts` - 1 times, and its attempt count exceeds
      `max_attempts` by no more than the number of times its lease was taken away. */
  lemma RetriesAreBounded(s: World, ls: seq<Label>, j: Q.JobId)
    requires Init(s) && Exec(s, ls).Some?
    ensures
      var t := Exec(s, ls).value;
      && t.hist[RetryReleased(j)] <= MaxI(0, s.cfg.maxAttempts - 1)
      && (j in t.queue.jobs ==> t.queue.jobs[j].attempts <= MaxI(1, s.cfg.maxAttempts) + t.hist[LeaseReclaimed(j)])
  {
    RunCapped(s, ls);
    AttemptsAreAccounted(s, ls);
    var t := Exec(s, ls).value;
    assert j in t.queue.jobs ==> Accounted(t.queue.jobs[j], t.hist);
  }
}
