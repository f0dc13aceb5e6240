/** Runs in which nothing goes wrong on the infrastructure side: no lease is taken away, nobody crashes, no dead
    letter is replayed, and intents are submitted once. Adapters may still fail in every way. In such runs each
    job that ends yields exactly one result.
 */
module CleanRuns {
  import opened Base
  import opened Pipeline
  import Budget
  import OnceOnly
  import Q = ExecutionQueue
  import Idem = Idempotency
  import Box = ResultInbox

  predicate CleanStep(s: World, l: Label) {
    match l
    case Work(_, _) => true
    case Deliver(_, _) => true
    case Orchestrate(o) => o.Submit? ==> o.intent !in s.queue.index
    case Happen(i) =>
      match i
      case Resolve(_, _) => true
      case Reclaim(j, now) => !Reclaims(s, j, now)
      case ReclaimEnvelope(e, now) => !(e in s.inbox && Box.ItemExpired(s.inbox[e], now))
      case _ => false
  }

  function CleanExec(s: World, ls: seq<Label>): Option<World> {
    if ls == [] then Some(s)
    else
      match CleanExec(s, ls[..|ls| - 1])
      case None => None
      case Some(mid) =>
        var l := ls[|ls| - 1];
        if Enabled(mid, l) && CleanStep(mid, l) then Some(Step(mid, l)) else None
  }

  lemma {:induction false} CleanRunIsRun(s: World, ls: seq<Label>)
    requires CleanExec(s, ls).Some?
    ensures Exec(s, ls) == CleanExec(s, ls)
    decreases |ls|
  {
    if ls != [] {
      CleanRunIsRun(s, ls[..|ls| - 1]);
    }
  }

  lemma CleanAppend(s: World, ls: seq<Label>, l: Label)
    ensures
      CleanExec(s, ls + [l])
      == match CleanExec(s, ls)
         case None => None
         case Some(mid) => if Enabled(mid, l) && CleanStep(mid, l) then Some(Step(mid, l)) else None
  {
    assert (ls + [l])[..|ls|] == ls;
  }

  /** Clean up to some point, and clean from there on. */
  lemma {:induction false} CleanConcat(s: World, a: seq<Label>, b: seq<Label>)
    ensures CleanExec(s, a + b) == match CleanExec(s, a) case None => None case Some(mid) => CleanExec(mid, b)
    decreases |b|
  {
    if b == [] {
      assert a + b == a;
    } else {
      var n := |b| - 1;
      CleanConcat(s, a, b[..n]);
      assert (a + b)[..|a + b| - 1] == a + b[..n];
    }
  }

  // ---------------------------------------------------------------- jobs and workers

  /** One job per intent, and claims only for intents that have one. */
  ghost predicate OneJobPerIntent(q: Q.Queue, idem: Idem.Records) {
    && (forall j :: j in q.jobs ==> q.jobs[j].id == j && q.jobs[j].intent in q.index && q.index[q.jobs[j].intent] == j)
    && (forall i :: i in idem ==> i in q.index)
  }

  predicate Held(q: Q.Queue, w: Q.WorkerId, ref: JobRef) {
    Q.Holds(q, ref.id, w) && RefOf(q.jobs[ref.id]) == ref
  }

  ghost predicate NotIn(batch: seq<JobRef>, id: Q.JobId) {
    forall k :: 0 <= k < |batch| ==> batch[k].id != id
  }

  ghost predicate BatchClean(q: Q.Queue, idem: Idem.Records, w: Q.WorkerId, batch: seq<JobRef>) {
    && (forall k :: 0 <= k < |batch| ==> Held(q, w, batch[k]) && batch[k].intent !in idem)
    && (forall k, l :: 0 <= k < l < |batch| ==> batch[k].id != batch[l].id)
  }

  /** The job in hand is leased by this worker until its result is about to be published; the branches for a claim
      that was already there are never entered. */
  ghost predicate PcClean(q: Q.Queue, idem: Idem.Records, w: Q.WorkerId, worker: Worker) {
    var pc := worker.pc;
    match pc
    case Ready => true
    case Publishing(job, _) => job.id in q.jobs && Q.Ended(q.jobs[job.id]) && RefOf(q.jobs[job.id]) == job
    case DoneSeen(_) => false
    case Busy(_, _) => false
    case BusyFresh(_) => false
    case BusyStale(_) => false
    case Started(job, _) => Held(q, w, job) && NotIn(worker.batch, job.id) && job.intent !in idem
    case RetryCleared(job, _) => Held(q, w, job) && NotIn(worker.batch, job.id) && job.intent !in idem
    case _ => Held(q, w, pc.job) && NotIn(worker.batch, pc.job.id)
  }

  ghost predicate WorkerClean(q: Q.Queue, idem: Idem.Records, w: Q.WorkerId, worker: Worker) {
    BatchClean(q, idem, w, worker.batch) && PcClean(q, idem, w, worker)
  }

  ghost predicate WorkersClean(s: World) {
    forall w :: w in s.workers ==> WorkerClean(s.queue, s.idem, w, s.workers[w])
  }

  ghost predicate QueuedUnclaimed(q: Q.Queue, idem: Idem.Records) {
    forall j :: j in q.jobs && q.jobs[j].state.Queued? ==> q.jobs[j].intent !in idem
  }

  ghost predicate JobsInv(s: World) {
    OneJobPerIntent(s.queue, s.idem) && WorkersClean(s) && QueuedUnclaimed(s.queue, s.idem)
  }

  // ---------------------------------------------------------------- the acting worker

  lemma LeaseClean(s: World, w: Q.WorkerId, a: Action)
    requires JobsInv(s) && CanAct(s, w, a) && a.Lease?
    ensures WorkerClean(EffectOf(s, w, a).queue, s.idem, w, EffectOf(s, w, a).worker)
  {
    assert WorkerClean(s.queue, s.idem, w, s.workers[w]);
    var batch := s.workers[w].batch;
    assert NotIn(batch, a.job) by {
      forall k | 0 <= k < |batch| ensures batch[k].id != a.job {
        assert Held(s.queue, w, batch[k]);
      }
    }
    var e := EffectOf(s, w, a);
    forall k | 0 <= k < |e.worker.batch|
      ensures Held(e.queue, w, e.worker.batch[k]) && e.worker.batch[k].intent !in s.idem
    {
      if k < |batch| {
        assert Held(s.queue, w, batch[k]);
      }
    }
  }

  lemma StartClean(s: World, w: Q.WorkerId, now: Time)
    requires JobsInv(s) && CanAct(s, w, Start(now))
    ensures WorkerClean(s.queue, s.idem, w, EffectOf(s, w, Start(now)).worker)
  {
    assert WorkerClean(s.queue, s.idem, w, s.workers[w]);
  }

  /** Actions on the job in hand leave the batch as it is: nothing in it is the job in hand. */
  lemma BatchStaysClean(q: Q.Queue, r: Q.Queue, idem: Idem.Records, jdem: Idem.Records, w: Q.WorkerId,
                        batch: seq<JobRef>, j: Q.JobId)
    requires OneJobPerIntent(q, idem) && BatchClean(q, idem, w, batch) && NotIn(batch, j) && j in q.jobs
    requires forall k :: k in q.jobs && k != j ==> k in r.jobs && r.jobs[k] == q.jobs[k]
    requires forall i :: i in jdem ==> i in idem || i == q.jobs[j].intent
    ensures BatchClean(r, jdem, w, batch)
  {
    forall k | 0 <= k < |batch| ensures Held(r, w, batch[k]) && batch[k].intent !in jdem {
      assert Held(q, w, batch[k]) && batch[k].id != j;
    }
  }

  lemma HandClean(s: World, w: Q.WorkerId, a: Action)
    requires JobsInv(s) && OnceOnly.OwnersHoldClaim(s) && CanAct(s, w, a) && !a.Lease? && !a.Start? && !a.Publish?
    ensures PcClean(EffectOf(s, w, a).queue, EffectOf(s, w, a).idem, w, EffectOf(s, w, a).worker)
  {
    assert WorkerClean(s.queue, s.idem, w, s.workers[w]);
    if a.ClearClaim? {
      assert OnceOnly.Owns(s.workers[w].pc, s.workers[w].pc.job.intent);
    }
  }

  /** Which parts of the shared stores an action on the job in hand can reach. */
  lemma HandReach(s: World, w: Q.WorkerId, a: Action)
    requires JobsInv(s) && CanAct(s, w, a) && !a.Lease? && !a.Start?
    ensures
      var e, j := EffectOf(s, w, a), s.workers[w].pc.job.id;
      && j in s.queue.jobs && s.workers[w].pc.job.intent == s.queue.jobs[j].intent
      && e.worker.batch == s.workers[w].batch
      && e.queue.index == s.queue.index && e.queue.jobs.Keys == s.queue.jobs.Keys
      && (forall k :: k in s.queue.jobs && k != j ==> e.queue.jobs[k] == s.queue.jobs[k])
      && RefOf(e.queue.jobs[j]) == RefOf(s.queue.jobs[j])
      && (forall i :: i in e.idem ==> i in s.idem || i == s.queue.jobs[j].intent)
  {
    assert WorkerClean(s.queue, s.idem, w, s.workers[w]);
  }

  lemma ActorClean(s: World, w: Q.WorkerId, a: Action)
    requires JobsInv(s) && OnceOnly.OwnersHoldClaim(s) && CanAct(s, w, a)
    ensures WorkerClean(EffectOf(s, w, a).queue, EffectOf(s, w, a).idem, w, EffectOf(s, w, a).worker)
  {
    if a.Lease? {
      LeaseClean(s, w, a);
    } else if a.Start? {
      StartClean(s, w, a.now);
    } else {
      var e := EffectOf(s, w, a);
      assert WorkerClean(s.queue, s.idem, w, s.workers[w]);
      if !a.Publish? {
        HandReach(s, w, a);
        HandClean(s, w, a);
        BatchStaysClean(s.queue, e.queue, s.idem, e.idem, w, s.workers[w].batch, s.workers[w].pc.job.id);
      }
    }
  }

  // ---------------------------------------------------------------- the others

  /** Another worker does not notice a change to a job it does not hold. */
  lemma OtherWorkerClean(q: Q.Queue, r: Q.Queue, idem: Idem.Records, jdem: Idem.Records, v: Q.WorkerId,
                         worker: Worker, j: Q.JobId)
    requires OneJobPerIntent(q, idem) && WorkerClean(q, idem, v, worker)
    requires j in q.jobs && !Q.Holds(q, j, v) && (Q.Ended(q.jobs[j]) ==> j in r.jobs && r.jobs[j] == q.jobs[j])
    requires forall k :: k in q.jobs && k != j ==> k in r.jobs && r.jobs[k] == q.jobs[k]
    requires forall i :: i in jdem ==> i in idem || i == q.jobs[j].intent
    ensures WorkerClean(r, jdem, v, worker)
  {
    assert NotIn(worker.batch, j) by {
      forall k | 0 <= k < |worker.batch| ensures worker.batch[k].id != j {
        assert Held(q, v, worker.batch[k]);
      }
    }
    BatchStaysClean(q, r, idem, jdem, v, worker.batch, j);
  }

  /** An action changes a job only if the acting worker holds it, or is about to lease it from the queue. */
  lemma SubjectNotOthers(s: World, w: Q.WorkerId, a: Action, v: Q.WorkerId)
    requires JobsInv(s) && CanAct(s, w, a) && v != w && !a.Publish?
    ensures
      var j := Subject(s, w, a);
      j in s.queue.jobs && !Q.Holds(s.queue, j, v) && !Q.Ended(s.queue.jobs[j])
  {
    assert WorkerClean(s.queue, s.idem, w, s.workers[w]);
    if a.Start? {
      assert Held(s.queue, w, s.workers[w].batch[0]);
    }
  }

  lemma ActReach(s: World, w: Q.WorkerId, a: Action)
    requires JobsInv(s) && CanAct(s, w, a)
    ensures
      var e, j := EffectOf(s, w, a), Subject(s, w, a);
      && j in s.queue.jobs
      && e.queue.index == s.queue.index && e.queue.jobs.Keys == s.queue.jobs.Keys
      && (forall k :: k in s.queue.jobs && k != j ==> e.queue.jobs[k] == s.queue.jobs[k])
      && RefOf(e.queue.jobs[j]) == RefOf(s.queue.jobs[j])
      && (forall i :: i in e.idem ==> i in s.idem || i == s.queue.jobs[j].intent)
  {
    if a.Start? {
      assert WorkerClean(s.queue, s.idem, w, s.workers[w]);
      assert Held(s.queue, w, s.workers[w].batch[0]);
    } else if !a.Lease? {
      HandReach(s, w, a);
    }
  }

  lemma ActWorkersClean(s: World, w: Q.WorkerId, a: Action)
    requires JobsInv(s) && OnceOnly.OwnersHoldClaim(s) && CanAct(s, w, a)
    ensures WorkersClean(Act(s, w, a))
  {
    var t, e := Act(s, w, a), EffectOf(s, w, a);
    ActorClean(s, w, a);
    ActReach(s, w, a);
    forall v | v in t.workers ensures WorkerClean(t.queue, t.idem, v, t.workers[v]) {
      if v != w {
        assert WorkerClean(s.queue, s.idem, v, s.workers[v]);
        if !a.Publish? {
          SubjectNotOthers(s, w, a, v);
          OtherWorkerClean(s.queue, e.queue, s.idem, e.idem, v, s.workers[v], Subject(s, w, a));
        }
      }
    }
  }

  /** A job comes back to the queue only with its claim cleared. */
  lemma ActQueuedUnclaimed(s: World, w: Q.WorkerId, a: Action)
    requires JobsInv(s) && CanAct(s, w, a)
    ensures QueuedUnclaimed(EffectOf(s, w, a).queue, EffectOf(s, w, a).idem)
  {
    var e, j := EffectOf(s, w, a), Subject(s, w, a);
    ActReach(s, w, a);
    assert WorkerClean(s.queue, s.idem, w, s.workers[w]);
    SubjectUnclaimed(s, w, a);
    forall k | k in e.queue.jobs && e.queue.jobs[k].state.Queued? ensures e.queue.jobs[k].intent !in e.idem {
      if k != j {
        assert s.queue.jobs[k].intent != s.queue.jobs[j].intent;
      }
    }
  }

  lemma SubjectUnclaimed(s: World, w: Q.WorkerId, a: Action)
    requires JobsInv(s) && CanAct(s, w, a)
    ensures
      var e, j := EffectOf(s, w, a), Subject(s, w, a);
      j in e.queue.jobs && e.queue.jobs[j].state.Queued? ==> e.queue.jobs[j].intent !in e.idem
  {
    assert WorkerClean(s.queue, s.idem, w, s.workers[w]);
    if a.Start? {
      assert Held(s.queue, w, s.workers[w].batch[0]);
    }
  }

  lemma ActJobsInv(s: World, w: Q.WorkerId, a: Action)
    requires JobsInv(s) && OnceOnly.OwnersHoldClaim(s) && CanAct(s, w, a)
    ensures JobsInv(Act(s, w, a))
  {
    ActWorkersClean(s, w, a);
    ActQueuedUnclaimed(s, w, a);
    ActReach(s, w, a);
  }

  // ---------------------------------------------------------------- everybody else

  lemma SubmitJobsInv(s: World, o: Order)
    requires JobsInv(s) && CanOrder(s, o) && o.Submit? && o.intent !in s.queue.index
    ensures JobsInv(Obey(s, o))
  {
    var t := Obey(s, o);
    ObeyFrame(s, o);
    if t.queue != s.queue {
      AddedJobClean(s.queue, s.idem, Q.NewJob(o.job, o.intent, o.domain, Some(Budget.ReservationDelta(o.cost)),
                                              o.priority, 5, o.now));
      forall w | w in t.workers ensures WorkerClean(t.queue, t.idem, w, t.workers[w]) {
        assert WorkerClean(s.queue, s.idem, w, s.workers[w]);
        AddedJobUnnoticed(s.queue, t.queue, s.idem, w, s.workers[w], o.job);
      }
    }
  }

  lemma AddedJobClean(q: Q.Queue, idem: Idem.Records, job: Q.Job)
    requires OneJobPerIntent(q, idem) && QueuedUnclaimed(q, idem) && job.intent !in q.index && job.id !in q.jobs
    ensures OneJobPerIntent(Q.Enqueue(q, job).0, idem) && QueuedUnclaimed(Q.Enqueue(q, job).0, idem)
  {
  }

  lemma AddedJobUnnoticed(q: Q.Queue, r: Q.Queue, idem: Idem.Records, w: Q.WorkerId, worker: Worker, j: Q.JobId)
    requires WorkerClean(q, idem, w, worker) && j !in q.jobs
    requires forall k :: k in q.jobs ==> k in r.jobs && r.jobs[k] == q.jobs[k]
    ensures WorkerClean(r, idem, w, worker)
  {
    forall k | 0 <= k < |worker.batch| ensures Held(r, w, worker.batch[k]) && worker.batch[k].intent !in idem {
      assert Held(q, w, worker.batch[k]);
    }
  }

  lemma ResolveJobsInv(s: World, j: Q.JobId, dlqState: Q.DlqState)
    requires JobsInv(s)
    ensures JobsInv(Suffer(s, Resolve(j, dlqState)))
  {
    var t := Suffer(s, Resolve(j, dlqState));
    forall w | w in t.workers ensures WorkerClean(t.queue, t.idem, w, t.workers[w]) {
      assert WorkerClean(s.queue, s.idem, w, s.workers[w]);
      ResolvedUnnoticed(s.queue, s.idem, w, s.workers[w], j, dlqState);
    }
  }

  lemma ResolvedUnnoticed(q: Q.Queue, idem: Idem.Records, w: Q.WorkerId, worker: Worker, j: Q.JobId,
                          dlqState: Q.DlqState)
    requires WorkerClean(q, idem, w, worker)
    ensures WorkerClean(Q.ResolveDlq(q, j, dlqState), idem, w, worker)
  {
    var r := Q.ResolveDlq(q, j, dlqState);
    forall k | 0 <= k < |worker.batch| ensures Held(r, w, worker.batch[k]) && worker.batch[k].intent !in idem {
      assert Held(q, w, worker.batch[k]);
    }
  }

  /** Clean incidents touch nothing but a dead letter's label. */
  lemma CleanIncident(s: World, i: Incident)
    requires CanHappen(s, i) && CleanStep(s, Happen(i))
    ensures
      var t := Suffer(s, i);
      && t.workers == s.workers && t.dispatchers == s.dispatchers && t.inbox == s.inbox && t.hist == s.hist
      && t.budget == s.budget && t.cfg == s.cfg && t.idem == s.idem
      && t.queue == if i.Resolve? then Q.ResolveDlq(s.queue, i.job, i.dlqState) else s.queue
  {
    assert s.hist + multiset{} == s.hist;
  }

  lemma StepJobsInv(s: World, l: Label)
    requires JobsInv(s) && OnceOnly.OwnersHoldClaim(s) && Enabled(s, l) && CleanStep(s, l)
    ensures JobsInv(Step(s, l))
  {
    match l
    case Work(w, a) => ActJobsInv(s, w, a);
    case Orchestrate(o) =>
      ObeyFrame(s, o);
      if o.Submit? {
        SubmitJobsInv(s, o);
      }
    case Deliver(d, b) => DeliverFrame(s, d, b);
    case Happen(i) =>
      CleanIncident(s, i);
      if i.Resolve? {
        ResolveJobsInv(s, i.job, i.dlqState);
      }
  }

  lemma {:induction false} RunJobsInv(s: World, ls: seq<Label>)
    requires Init(s) && CleanExec(s, ls).Some?
    ensures JobsInv(CleanExec(s, ls).value)
    decreases |ls|
  {
    if ls != [] {
      RunJobsInv(s, ls[..|ls| - 1]);
      CleanRunIsRun(s, ls[..|ls| - 1]);
      OnceOnly.RunKeeps(s, ls[..|ls| - 1]);
      StepJobsInv(CleanExec(s, ls[..|ls| - 1]).value, ls[|ls| - 1]);
    }
  }

  /** At any point of a clean run a claim can only be answered NEW: nobody else has the job, and its claim was cleared
      when it last was queued. */
  lemma BeginAnswersNew(s: World, ls: seq<Label>, w: Q.WorkerId, now: Time)
    requires Init(s) && CleanExec(s, ls).Some? && CanAct(CleanExec(s, ls).value, w, BeginClaim(now))
    ensures
      var t := CleanExec(s, ls).value;
      Idem.Begin(t.idem, t.workers[w].pc.job.intent, now).1.New?
  {
    var t := CleanExec(s, ls).value;
    RunJobsInv(s, ls);
    assert WorkerClean(t.queue, t.idem, w, t.workers[w]);
  }

  // ---------------------------------------------------------------- one result per ended job

  predicate Publishes(worker: Worker, j: Q.JobId) {
    worker.pc.Publishing? && worker.pc.job.id == j
  }

  ghost predicate InHands(s: World, j: Q.JobId) {
    exists w :: w in s.workers && Publishes(s.workers[w], j)
  }

  ghost predicate InInbox(s: World, j: Q.JobId) {
    exists e :: e in s.inbox && s.inbox[e].envelope.job == j
  }

  /** At most one worker is about to publish a job's result. */
  ghost predicate OnePublisher(s: World) {
    forall v, w, j :: v in s.workers && w in s.workers && Publishes(s.workers[v], j) && Publishes(s.workers[w], j) ==>
        v == w
  }

  ghost predicate AboutEnded(s: World) {
    forall e :: e in s.inbox ==>
                  var env := s.inbox[e].envelope;
                  env.job in s.queue.jobs && Q.Ended(s.queue.jobs[env.job])
  }

  ghost predicate NotPublishing(s: World) {
    forall e, w :: e in s.inbox && w in s.workers ==> !Publishes(s.workers[w], s.inbox[e].envelope.job)
  }

  ghost predicate OneEnvelope(s: World) {
    forall e, f :: e in s.inbox && f in s.inbox && s.inbox[e].envelope.job == s.inbox[f].envelope.job ==> e == f
  }

  /** An envelope is about an ended job nobody is still publishing, and no two are about the same one. */
  ghost predicate EnvelopesClean(s: World) {
    AboutEnded(s) && NotPublishing(s) && OneEnvelope(s)
  }

  ghost predicate NoneLost(s: World) {
    forall j :: j in s.queue.jobs && Q.Ended(s.queue.jobs[j]) ==> InHands(s, j) || InInbox(s, j)
  }

  ghost predicate ResultsInv(s: World) {
    OnePublisher(s) && EnvelopesClean(s) && NoneLost(s)
  }

  /** Ending a job and starting to publish its result are one and the same step. */
  lemma EndingIsPublishing(s: World, w: Q.WorkerId, a: Action)
    requires JobsInv(s) && CanAct(s, w, a) && !a.Publish?
    ensures
      var e, j := EffectOf(s, w, a), Subject(s, w, a);
      && j in s.queue.jobs && !Q.Ended(s.queue.jobs[j]) && !s.workers[w].pc.Publishing?
      && (Q.Ended(e.queue.jobs[j]) <==> e.worker.pc.Publishing?)
      && (e.worker.pc.Publishing? ==> e.worker.pc.job.id == j)
  {
    assert WorkerClean(s.queue, s.idem, w, s.workers[w]);
    if a.Start? {
      assert Held(s.queue, w, s.workers[w].batch[0]);
    }
  }

  lemma WorkOnePublisher(s: World, w: Q.WorkerId, a: Action)
    requires JobsInv(s) && OnePublisher(s) && CanAct(s, w, a) && !a.Publish?
    ensures OnePublisher(Act(s, w, a))
  {
    var j := Subject(s, w, a);
    EndingIsPublishing(s, w, a);
    forall v | v in s.workers && v != w ensures !Publishes(s.workers[v], j) {
      assert WorkerClean(s.queue, s.idem, v, s.workers[v]);
    }
    OnePublisherMore(s, Act(s, w, a), w, j);
  }

  /** One worker may begin to publish what no other publishes. */
  lemma OnePublisherMore(s: World, t: World, w: Q.WorkerId, j: Q.JobId)
    requires OnePublisher(s) && w in s.workers && t.workers.Keys == s.workers.Keys
    requires forall v :: v in s.workers && v != w ==> t.workers[v] == s.workers[v] && !Publishes(s.workers[v], j)
    requires forall k :: Publishes(t.workers[w], k) ==> k == j
    ensures OnePublisher(t)
  {
  }

  lemma WorkLeavesInbox(s: World, w: Q.WorkerId, a: Action)
    requires CanAct(s, w, a) && !a.Publish?
    ensures EffectOf(s, w, a).inbox == s.inbox
  {
  }

  /** The subject of an action has not ended, so no envelope is about it. */
  lemma SubjectHasNoEnvelope(s: World, w: Q.WorkerId, a: Action)
    requires JobsInv(s) && AboutEnded(s) && CanAct(s, w, a) && !a.Publish?
    ensures forall e :: e in s.inbox ==> s.inbox[e].envelope.job != Subject(s, w, a)
  {
    EndingIsPublishing(s, w, a);
  }

  lemma WorkAboutEnded(s: World, w: Q.WorkerId, a: Action)
    requires JobsInv(s) && AboutEnded(s) && CanAct(s, w, a) && !a.Publish?
    ensures AboutEnded(Act(s, w, a))
  {
    var q := EffectOf(s, w, a).queue;
    ActReach(s, w, a);
    WorkLeavesInbox(s, w, a);
    SubjectHasNoEnvelope(s, w, a);
    forall e | e in s.inbox
      ensures
        var env := s.inbox[e].envelope;
        env.job in q.jobs && Q.Ended(q.jobs[env.job])
    {
      assert q.jobs[s.inbox[e].envelope.job] == s.queue.jobs[s.inbox[e].envelope.job];
    }
  }

  lemma WorkNotPublishing(s: World, w: Q.WorkerId, a: Action)
    requires JobsInv(s) && AboutEnded(s) && NotPublishing(s) && CanAct(s, w, a) && !a.Publish?
    ensures NotPublishing(Act(s, w, a))
  {
    WorkLeavesInbox(s, w, a);
    SubjectHasNoEnvelope(s, w, a);
    EndingIsPublishing(s, w, a);
  }

  lemma WorkNoneLost(s: World, w: Q.WorkerId, a: Action)
    requires JobsInv(s) && NoneLost(s) && CanAct(s, w, a) && !a.Publish?
    ensures NoneLost(Act(s, w, a))
  {
    var t, j := Act(s, w, a), Subject(s, w, a);
    ActReach(s, w, a);
    EndingIsPublishing(s, w, a);
    assert t.inbox == s.inbox;
    forall k | k in t.queue.jobs && Q.Ended(t.queue.jobs[k]) ensures InHands(t, k) || InInbox(t, k) {
      if k == j {
        assert w in t.workers && Publishes(t.workers[w], k);
      } else if InInbox(s, k) {
        var e :| e in s.inbox && s.inbox[e].envelope.job == k;
        assert e in t.inbox && t.inbox[e].envelope.job == k;
      } else {
        assert InHands(s, k);
        var v :| v in s.workers && Publishes(s.workers[v], k);
        assert v in t.workers && Publishes(t.workers[v], k);
      }
    }
  }

  lemma PublishOnePublisher(s: World, w: Q.WorkerId, e: Box.EnvelopeId, now: Time)
    requires OnePublisher(s) && CanAct(s, w, Publish(e, now))
    ensures OnePublisher(Act(s, w, Publish(e, now)))
  {
    var t := Act(s, w, Publish(e, now));
    assert forall v :: v in s.workers && v != w ==> t.workers[v] == s.workers[v];
    assert t.workers[w].pc.Ready?;
  }

  lemma PublishAboutEnded(s: World, w: Q.WorkerId, e: Box.EnvelopeId, now: Time)
    requires JobsInv(s) && AboutEnded(s) && CanAct(s, w, Publish(e, now))
    ensures AboutEnded(Act(s, w, Publish(e, now)))
  {
    assert WorkerClean(s.queue, s.idem, w, s.workers[w]);
  }

  lemma PublishNotPublishing(s: World, w: Q.WorkerId, e: Box.EnvelopeId, now: Time)
    requires OnePublisher(s) && NotPublishing(s) && CanAct(s, w, Publish(e, now))
    ensures NotPublishing(Act(s, w, Publish(e, now)))
  {
    var t, j := Act(s, w, Publish(e, now)), s.workers[w].pc.job.id;
    assert Publishes(s.workers[w], j) && t.workers[w].pc.Ready?;
    assert forall v :: v in s.workers && v != w ==> t.workers[v] == s.workers[v] && !Publishes(s.workers[v], j);
    assert t.inbox[e].envelope.job == j;
    assert forall f :: f in s.inbox ==> t.inbox[f] == s.inbox[f];
  }

  lemma PublishOneEnvelope(s: World, w: Q.WorkerId, e: Box.EnvelopeId, now: Time)
    requires NotPublishing(s) && OneEnvelope(s) && CanAct(s, w, Publish(e, now))
    ensures OneEnvelope(Act(s, w, Publish(e, now)))
  {
    var t, j := Act(s, w, Publish(e, now)), s.workers[w].pc.job.id;
    assert Publishes(s.workers[w], j);
    assert t.inbox[e].envelope.job == j;
    assert forall f :: f in s.inbox ==> t.inbox[f] == s.inbox[f] && s.inbox[f].envelope.job != j;
  }

  lemma PublishNoneLost(s: World, w: Q.WorkerId, e: Box.EnvelopeId, now: Time)
    requires JobsInv(s) && NoneLost(s) && CanAct(s, w, Publish(e, now))
    ensures NoneLost(Act(s, w, Publish(e, now)))
  {
    var t, j := Act(s, w, Publish(e, now)), s.workers[w].pc.job.id;
    assert t.queue == s.queue;
    forall k | k in t.queue.jobs && Q.Ended(t.queue.jobs[k]) ensures InHands(t, k) || InInbox(t, k) {
      if k == j {
        assert e in t.inbox && t.inbox[e].envelope.job == k;
      } else if InInbox(s, k) {
        var f :| f in s.inbox && s.inbox[f].envelope.job == k;
        assert f in t.inbox && t.inbox[f].envelope.job == k;
      } else {
        assert InHands(s, k);
        var v :| v in s.workers && Publishes(s.workers[v], k);
        assert v in t.workers && Publishes(t.workers[v], k);
      }
    }
  }

  predicate SameResult(before: Q.Job, after: Q.Job) {
    RefOf(after) == RefOf(before) && (Q.Ended(after) <==> Q.Ended(before))
  }

  /** Nothing about results changes when workers and the set of envelopes stay and no job ends. */
  lemma SameResults(s: World, t: World)
    requires ResultsInv(s) && t.workers == s.workers && t.inbox.Keys == s.inbox.Keys
    requires forall e :: e in s.inbox ==> t.inbox[e].envelope == s.inbox[e].envelope
    requires forall j :: j in s.queue.jobs ==> j in t.queue.jobs && SameResult(s.queue.jobs[j], t.queue.jobs[j])
    requires forall j :: j in t.queue.jobs && j !in s.queue.jobs ==> !Q.Ended(t.queue.jobs[j])
    ensures ResultsInv(t)
  {
    forall k | k in t.queue.jobs && Q.Ended(t.queue.jobs[k]) ensures InHands(t, k) || InInbox(t, k) {
      if InInbox(s, k) {
        var e :| e in s.inbox && s.inbox[e].envelope.job == k;
        assert e in t.inbox && t.inbox[e].envelope.job == k;
      } else {
        assert InHands(s, k);
        var v :| v in s.workers && Publishes(s.workers[v], k);
        assert v in t.workers && Publishes(t.workers[v], k);
      }
    }
  }

  lemma ObeyResultsInv(s: World, o: Order)
    requires ResultsInv(s) && CanOrder(s, o)
    ensures ResultsInv(Obey(s, o))
  {
    ObeyFrame(s, o);
    SameResults(s, Obey(s, o));
  }

  lemma ResolveResultsInv(s: World, i: Incident)
    requires ResultsInv(s) && CanHappen(s, i) && CleanStep(s, Happen(i))
    ensures ResultsInv(Suffer(s, i))
  {
    CleanIncident(s, i);
    SameResults(s, Suffer(s, i));
  }

  lemma StepResultsInv(s: World, l: Label)
    requires JobsInv(s) && ResultsInv(s) && Enabled(s, l) && CleanStep(s, l)
    ensures ResultsInv(Step(s, l))
  {
    match l
    case Work(w, a) =>
      if a.Publish? {
        PublishOnePublisher(s, w, a.envelope, a.now);
        PublishAboutEnded(s, w, a.envelope, a.now);
        PublishNotPublishing(s, w, a.envelope, a.now);
        PublishOneEnvelope(s, w, a.envelope, a.now);
        PublishNoneLost(s, w, a.envelope, a.now);
      } else {
        WorkOnePublisher(s, w, a);
        WorkAboutEnded(s, w, a);
        WorkNotPublishing(s, w, a);
        WorkNoneLost(s, w, a);
      }
    case Orchestrate(o) => ObeyResultsInv(s, o);
    case Deliver(d, b) =>
      DeliverFrame(s, d, b);
      SameResults(s, DeliverTo(s, d, b));
    case Happen(i) => ResolveResultsInv(s, i);
  }

  lemma {:induction false} RunResultsInv(s: World, ls: seq<Label>)
    requires Init(s) && CleanExec(s, ls).Some?
    ensures ResultsInv(CleanExec(s, ls).value)
    decreases |ls|
  {
    if ls != [] {
      RunResultsInv(s, ls[..|ls| - 1]);
      RunJobsInv(s, ls[..|ls| - 1]);
      StepResultsInv(CleanExec(s, ls[..|ls| - 1]).value, ls[|ls| - 1]);
    }
  }

  /** In a clean run every job that has ended has exactly one result: one worker is about to publish it, or
      one envelope carries it, and never both; a job that has not ended has none. */
  lemma OneResultPerEndedJob(s: World, ls: seq<Label>, j: Q.JobId)
    requires Init(s) && CleanExec(s, ls).Some? && j in CleanExec(s, ls).value.queue.jobs
    ensures
      var t := CleanExec(s, ls).value;
      && (Q.Ended(t.queue.jobs[j]) <==> InHands(t, j) || InInbox(t, j))
      && !(InHands(t, j) && InInbox(t, j))
      && (forall e, f :: e in t.inbox && f in t.inbox && t.inbox[e].envelope.job == j == t.inbox[f].envelope.job ==>
                           e == f)
  {
    var t := CleanExec(s, ls).value;
    RunResultsInv(s, ls);
    RunJobsInv(s, ls);
    if InHands(t, j) {
      var w :| w in t.workers && Publishes(t.workers[w], j);
      assert WorkerClean(t.queue, t.idem, w, t.workers[w]);
    }
  }
}
