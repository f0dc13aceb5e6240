/** How often a reservation is given back, in every run: once for each application of an envelope that reports a
    failure. A lineage, the jobs of one intent, reserves once; what it still has out is that one reservation less
    these applications, so a second failure envelope, or a second delivery of the first, gives it back twice.
 */
module Rollbacks {
  import opened Base
  import opened Budget
  import opened ExecutionResults
  import opened FiniteSums
  import opened Pipeline
  import opened Reservations
  import Attempts
  import Deliveries = Delivery
  import Q = ExecutionQueue
  import Box = ResultInbox

  // ---------------------------------------------------------------- rollbacks are applications of failures

  predicate FailureAbout(s: World, e: Id, j: Q.JobId) {
    e in s.inbox && s.inbox[e].envelope.job == j && RollsBack(s.inbox[e].envelope)
  }

  ghost function FailuresOf(s: World, j: Q.JobId): Id -> real {
    (e: Id) => if FailureAbout(s, e, j) then Deliveries.TimesApplied(s, e) else 0.0
  }

  ghost predicate GivenBackByFailures(s: World, j: Q.JobId) {
    s.hist[BackToBudget(j)] as real == Sum(s.inbox.Keys, FailuresOf(s, j))
  }

  lemma SameApplications(s: World, t: World, e: Id)
    requires t.dispatchers.Keys == s.dispatchers.Keys
    requires forall d :: t.hist[Applied(d, e)] == s.hist[Applied(d, e)]
    ensures Deliveries.TimesApplied(t, e) == Deliveries.TimesApplied(s, e)
  {
    SumCongruent(s.dispatchers.Keys, Deliveries.AppliedBy(s.hist, e), Deliveries.AppliedBy(t.hist, e));
  }

  lemma NeverApplied(s: World, e: Id)
    requires Deliveries.Inv(s) && e !in s.inbox
    ensures Deliveries.TimesApplied(s, e) == 0.0
  {
    forall d | d in s.dispatchers.Keys ensures Deliveries.AppliedBy(s.hist, e)(d) == 0.0 {
      assert Deliveries.FromBatch(s.hist, d, s.dispatchers[d].batch, e);
    }
    SumOfZeros(s.dispatchers.Keys, Deliveries.AppliedBy(s.hist, e));
  }

  /** Nothing is applied; envelopes stay, and new ones may arrive. */
  ghost predicate NothingApplied(s: World, t: World) {
    && t.dispatchers.Keys == s.dispatchers.Keys
    && (forall e :: e in s.inbox ==> e in t.inbox && t.inbox[e].envelope == s.inbox[e].envelope)
    && (forall d, e :: t.hist[Applied(d, e)] == s.hist[Applied(d, e)])
    && (forall j :: t.hist[BackToBudget(j)] == s.hist[BackToBudget(j)])
  }

  lemma OldFailures(s: World, t: World, j: Q.JobId)
    requires NothingApplied(s, t)
    ensures Sum(s.inbox.Keys, FailuresOf(t, j)) == Sum(s.inbox.Keys, FailuresOf(s, j))
  {
    forall e | e in s.inbox.Keys ensures FailuresOf(s, j)(e) == FailuresOf(t, j)(e) {
      SameApplications(s, t, e);
    }
    SumCongruent(s.inbox.Keys, FailuresOf(s, j), FailuresOf(t, j));
  }

  lemma NewFailures(s: World, t: World, j: Q.JobId)
    requires Deliveries.Inv(s) && NothingApplied(s, t)
    ensures Sum(t.inbox.Keys - s.inbox.Keys, FailuresOf(t, j)) == 0.0
  {
    forall e | e in t.inbox.Keys - s.inbox.Keys ensures FailuresOf(t, j)(e) == 0.0 {
      SameApplications(s, t, e);
      NeverApplied(s, e);
    }
    SumOfZeros(t.inbox.Keys - s.inbox.Keys, FailuresOf(t, j));
  }

  lemma StillGivenBack(s: World, t: World, j: Q.JobId)
    requires Deliveries.Inv(s) && NothingApplied(s, t) && GivenBackByFailures(s, j)
    ensures GivenBackByFailures(t, j)
  {
    OldFailures(s, t, j);
    NewFailures(s, t, j);
    SumExtended(s.inbox.Keys, t.inbox.Keys, FailuresOf(t, j));
  }

  /** What an application that does not raise adds to the history. */
  lemma ApplyHistory(s: World, d: Box.DispatcherId, now: Time, id: Id)
    requires CanDeliver(s, d, ApplyNext(now, id)) && !Raises(s, s.inbox[s.dispatchers[d].batch[0]].envelope)
    ensures
      var t, e := DeliverTo(s, d, ApplyNext(now, id)), s.dispatchers[d].batch[0];
      var env := s.inbox[e].envelope;
      && t.inbox == s.inbox && t.dispatchers.Keys == s.dispatchers.Keys
      && t.hist[Applied(d, e)] == s.hist[Applied(d, e)] + 1
      && (forall c, x :: c != d || x != e ==> t.hist[Applied(c, x)] == s.hist[Applied(c, x)])
      && (forall j ::
            t.hist[BackToBudget(j)] == s.hist[BackToBudget(j)] + if j == env.job && RollsBack(env) then 1 else 0)
  {
  }

  lemma OneMoreApplication(s: World, t: World, d: Box.DispatcherId, e: Id)
    requires d in s.dispatchers && t.dispatchers.Keys == s.dispatchers.Keys
    requires t.hist[Applied(d, e)] == s.hist[Applied(d, e)] + 1
    requires forall c :: c != d ==> t.hist[Applied(c, e)] == s.hist[Applied(c, e)]
    ensures Deliveries.TimesApplied(t, e) == Deliveries.TimesApplied(s, e) + 1.0
  {
    SumUpdate(s.dispatchers.Keys, d, Deliveries.AppliedBy(s.hist, e), Deliveries.AppliedBy(t.hist, e));
  }

  lemma ApplyGivesBack(s: World, d: Box.DispatcherId, now: Time, id: Id, j: Q.JobId)
    requires CanDeliver(s, d, ApplyNext(now, id)) && !Raises(s, s.inbox[s.dispatchers[d].batch[0]].envelope)
    requires GivenBackByFailures(s, j)
    ensures GivenBackByFailures(DeliverTo(s, d, ApplyNext(now, id)), j)
  {
    var t, e := DeliverTo(s, d, ApplyNext(now, id)), s.dispatchers[d].batch[0];
    ApplyHistory(s, d, now, id);
    OneMoreApplication(s, t, d, e);
    forall x | x in s.inbox.Keys && x != e ensures FailuresOf(s, j)(x) == FailuresOf(t, j)(x) {
      SameApplications(s, t, x);
    }
    SumUpdate(s.inbox.Keys, e, FailuresOf(s, j), FailuresOf(t, j));
  }

  predicate Applies(s: World, d: Box.DispatcherId, b: Delivery)
    requires CanDeliver(s, d, b)
  {
    b.ApplyNext? && !Raises(s, s.inbox[s.dispatchers[d].batch[0]].envelope)
  }

  lemma OtherwiseNothingApplied(s: World, d: Box.DispatcherId, b: Delivery)
    requires CanDeliver(s, d, b) && !Applies(s, d, b)
    ensures NothingApplied(s, DeliverTo(s, d, b))
  {
    DeliverFrame(s, d, b);
    var t := DeliverTo(s, d, b);
    assert t.hist == s.hist || (b.Take? && t.hist == s.hist + multiset{Taken(d, b.envelope)});
  }

  lemma DeliverGivesBack(s: World, d: Box.DispatcherId, b: Delivery, j: Q.JobId)
    requires Deliveries.Inv(s) && CanDeliver(s, d, b) && GivenBackByFailures(s, j)
    ensures GivenBackByFailures(DeliverTo(s, d, b), j)
  {
    if Applies(s, d, b) {
      ApplyGivesBack(s, d, b.now, b.eventId, j);
    } else {
      OtherwiseNothingApplied(s, d, b);
      StillGivenBack(s, DeliverTo(s, d, b), j);
    }
  }

  lemma ActAppliesNothing(s: World, w: Q.WorkerId, a: Action)
    requires CanAct(s, w, a)
    ensures NothingApplied(s, Act(s, w, a))
  {
    Deliveries.ActIsAside(s, w, a);
    SilentActions(s, w, a);
  }

  lemma SufferAppliesNothing(s: World, i: Incident)
    requires CanHappen(s, i)
    ensures NothingApplied(s, Suffer(s, i))
  {
    SufferFrame(s, i);
    forall e | e in s.inbox ensures e in Suffer(s, i).inbox && Suffer(s, i).inbox[e].envelope == s.inbox[e].envelope {
      Deliveries.SufferKeepsEnvelopes(s, i, e);
    }
  }

  lemma StepGivesBack(s: World, l: Label, j: Q.JobId)
    requires Deliveries.Inv(s) && Enabled(s, l) && GivenBackByFailures(s, j)
    ensures GivenBackByFailures(Step(s, l), j)
  {
    match l
    case Work(w, a) =>
      ActAppliesNothing(s, w, a);
      StillGivenBack(s, Act(s, w, a), j);
    case Deliver(d, b) => DeliverGivesBack(s, d, b, j);
    case Orchestrate(o) =>
      ObeyFrame(s, o);
      StillGivenBack(s, Obey(s, o), j);
    case Happen(i) =>
      SufferAppliesNothing(s, i);
      StillGivenBack(s, Suffer(s, i), j);
  }

  /** In every run, a job's reservation has been given back exactly as often as envelopes that report its failure have
      been applied. */
  lemma {:induction false} RollbacksAreFailures(s: World, ls: seq<Label>, j: Q.JobId)
    requires Init(s) && Exec(s, ls).Some?
    ensures GivenBackByFailures(Exec(s, ls).value, j)
    decreases |ls|
  {
    if ls == [] {
      SumOfZeros(s.inbox.Keys, FailuresOf(s, j));
    } else {
      RollbacksAreFailures(s, ls[..|ls| - 1], j);
      Deliveries.RunKeeps(s, ls[..|ls| - 1]);
      StepGivesBack(Exec(s, ls[..|ls| - 1]).value, ls[|ls| - 1], j);
    }
  }

  // ---------------------------------------------------------------- a lineage reserves once

  /** The jobs of an intent share one reservation, and one of them at most was submitted. */
  ghost predicate ReservesOnce(q: Q.Queue) {
    forall j, k :: j in q.jobs && k in q.jobs && q.jobs[j].intent == q.jobs[k].intent ==>
                     && q.jobs[j].reservation == q.jobs[k].reservation
                     && (q.jobs[j].parent.None? && q.jobs[k].parent.None? ==> j == k)
  }

  lemma ExtendedReservesOnce(q: Q.Queue, r: Q.Queue)
    requires ReservesOnce(q) && Extends(q, r) && r.jobs.Keys == q.jobs.Keys
    ensures ReservesOnce(r)
  {
    assert forall j :: j in r.jobs ==> RefOf(r.jobs[j]).intent == RefOf(q.jobs[j]).intent
                                       && RefOf(r.jobs[j]).reservation == RefOf(q.jobs[j]).reservation;
  }

  lemma AddedReservesOnce(q: Q.Queue, r: Q.Queue, k: Q.JobId)
    requires ReservesOnce(q) && Extends(q, r) && k !in q.jobs && r.jobs.Keys == q.jobs.Keys + {k}
    requires forall j :: j in q.jobs && q.jobs[j].intent == r.jobs[k].intent ==>
                           q.jobs[j].reservation == r.jobs[k].reservation && r.jobs[k].parent.Some?
    ensures ReservesOnce(r)
  {
    assert forall j :: j in q.jobs ==> RefOf(r.jobs[j]).intent == RefOf(q.jobs[j]).intent
                                       && RefOf(r.jobs[j]).reservation == RefOf(q.jobs[j]).reservation;
  }

  lemma ReplayReservesOnce(s: World, i: Incident)
    requires Traced(s) && ReservesOnce(s.queue) && CanHappen(s, i) && i.Replay? && i.newJob in Suffer(s, i).queue.jobs
    ensures ReservesOnce(Suffer(s, i).queue)
  {
    SufferExtends(s, i);
    SufferKeys(s, i);
    SufferAdds(s, i, i.newJob);
    assert Suffer(s, i).queue.jobs[i.newJob].intent == s.queue.jobs[i.job].intent;
    AddedReservesOnce(s.queue, Suffer(s, i).queue, i.newJob);
  }

  lemma EnqueueReservesOnce(q: Q.Queue, job: Q.Job)
    requires Q.Indexed(q) && ReservesOnce(q) && job.id !in q.jobs
    ensures ReservesOnce(Q.Enqueue(q, job).0)
  {
  }

  lemma StepReservesOnce(s: World, l: Label)
    requires Traced(s) && Q.Sound(s.queue) && ReservesOnce(s.queue) && Enabled(s, l)
    ensures ReservesOnce(Step(s, l).queue)
  {
    match l
    case Work(w, a) =>
      EffectExtends(s, w, a);
      ExtendedReservesOnce(s.queue, EffectOf(s, w, a).queue);
    case Deliver(d, b) => DeliverFrame(s, d, b);
    case Orchestrate(o) =>
      ObeyFrame(s, o);
      if o.Submit? {
        EnqueueReservesOnce(s.queue, Q.NewJob(o.job, o.intent, o.domain, Some(ReservationDelta(o.cost)), o.priority, 5,
                                              o.now));
      }
    case Happen(i) =>
      if i.Replay? && i.newJob in Suffer(s, i).queue.jobs {
        ReplayReservesOnce(s, i);
      } else {
        SufferExtends(s, i);
        SufferKeys(s, i);
        ExtendedReservesOnce(s.queue, Suffer(s, i).queue);
      }
  }

  lemma {:induction false} RunReservesOnce(s: World, ls: seq<Label>)
    requires Init(s) && Exec(s, ls).Some?
    ensures ReservesOnce(Exec(s, ls).value.queue)
    decreases |ls|
  {
    if ls != [] {
      RunReservesOnce(s, ls[..|ls| - 1]);
      RunTraced(s, ls[..|ls| - 1]);
      Attempts.QueueStaysSound(s, ls[..|ls| - 1]);
      StepReservesOnce(Exec(s, ls[..|ls| - 1]).value, ls[|ls| - 1]);
    }
  }

  // ---------------------------------------------------------------- the account of a lineage

  ghost function Lineage(q: Q.Queue, i: Q.IntentId): set<Q.JobId> {
    set j | j in q.jobs && q.jobs[j].intent == i
  }

  predicate FailureAmong(s: World, e: Id, js: set<Q.JobId>) {
    e in s.inbox && s.inbox[e].envelope.job in js && RollsBack(s.inbox[e].envelope)
  }

  /** Applications of envelopes that report a failure of one of these jobs. */
  ghost function FailuresAmong(s: World, js: set<Q.JobId>): Id -> real {
    (e: Id) => if FailureAmong(s, e, js) then Deliveries.TimesApplied(s, e) else 0.0
  }

  function BackOf(s: World): Q.JobId -> real {
    j => s.hist[BackToBudget(j)] as real
  }

  /** A failure among some jobs is about one of them or among the others. */
  lemma FailuresSplit(s: World, js: set<Q.JobId>, j: Q.JobId)
    requires j in js
    ensures Sum(s.inbox.Keys, FailuresAmong(s, js))
            == Sum(s.inbox.Keys, FailuresAmong(s, js - {j})) + Sum(s.inbox.Keys, FailuresOf(s, j))
  {
    SumPlus(s.inbox.Keys, FailuresAmong(s, js - {j}), FailuresOf(s, j), FailuresAmong(s, js));
  }

  lemma {:induction false} FailuresByJob(s: World, js: set<Q.JobId>)
    requires forall j :: j in js ==> GivenBackByFailures(s, j)
    ensures Sum(js, BackOf(s)) == Sum(s.inbox.Keys, FailuresAmong(s, js))
    decreases js
  {
    if js == {} {
      SumOfZeros(s.inbox.Keys, FailuresAmong(s, js));
    } else {
      var j :| j in js;
      FailuresByJob(s, js - {j});
      SumExtract(js, j, BackOf(s));
      FailuresSplit(s, js, j);
    }
  }

  /** How often these failures can have been applied at the most: each once, and once more for every time its lease
      ran out. */
  ghost function MayBeApplied(s: World, js: set<Q.JobId>): Id -> real {
    (e: Id) => if FailureAmong(s, e, js) then 1.0 + s.hist[ItemReclaimed(e)] as real else 0.0
  }

  function SubmittedOf(s: World): Q.JobId -> real {
    j => if j in s.queue.jobs then Submissions(s.queue.jobs[j]) as real else 0.0
  }

  /** How many times a job's reservation is out; this is its factor in `OutOf`. */
  function NetOf(s: World): Q.JobId -> real {
    j => if j in s.queue.jobs then (Submissions(s.queue.jobs[j]) - s.hist[BackToBudget(j)]) as real else 0.0
  }

  /** Every job descends from one that was submitted. */
  lemma {:induction false} RootOf(q: Q.Queue, j: Q.JobId) returns (root: Q.JobId)
    requires Q.Sound(q) && j in q.jobs
    ensures root in q.jobs && q.jobs[root].intent == q.jobs[j].intent && q.jobs[root].parent.None?
    decreases q.jobs[j].version
  {
    if q.jobs[j].parent.None? {
      root := j;
    } else {
      assert Q.HasParent(q, q.jobs[j]);
      root := RootOf(q, q.jobs[j].parent.value);
    }
  }

  lemma SubmittedOnce(s: World, j: Q.JobId)
    requires Q.Sound(s.queue) && ReservesOnce(s.queue) && j in s.queue.jobs
    ensures Sum(Lineage(s.queue, s.queue.jobs[j].intent), SubmittedOf(s)) == 1.0
  {
    var js := Lineage(s.queue, s.queue.jobs[j].intent);
    var root := RootOf(s.queue, j);
    SumExtract(js, root, SubmittedOf(s));
    SumOfZeros(js - {root}, SubmittedOf(s));
  }

  lemma LineageRollbacks(s: World, ls: seq<Label>, js: set<Q.JobId>)
    requires Init(s) && Exec(s, ls).Some?
    ensures
      var t := Exec(s, ls).value;
      Sum(js, BackOf(t)) == Sum(t.inbox.Keys, FailuresAmong(t, js)) <= Sum(t.inbox.Keys, MayBeApplied(t, js))
  {
    var t := Exec(s, ls).value;
    forall k | k in js ensures GivenBackByFailures(t, k) {
      RollbacksAreFailures(s, ls, k);
    }
    FailuresByJob(t, js);
    forall e | e in t.inbox.Keys ensures FailuresAmong(t, js)(e) <= MayBeApplied(t, js)(e) {
      Deliveries.DeliveryIsAccounted(s, ls, e);
    }
    SumMonotone(t.inbox.Keys, FailuresAmong(t, js), MayBeApplied(t, js));
  }

  /** In every run the jobs of an intent share one reservation, and it is out once, less the applications of their
      failures: given back at most once exactly when at most one failure was applied. A failure is applied at most
      once, and once more for each time its envelope's lease ran out. */
  lemma LineageIsAccounted(s: World, ls: seq<Label>, j: Q.JobId)
    requires Init(s) && Exec(s, ls).Some? && j in Exec(s, ls).value.queue.jobs
    ensures
      var t := Exec(s, ls).value;
      var js := Lineage(t.queue, t.queue.jobs[j].intent);
      var failures := Sum(t.inbox.Keys, FailuresAmong(t, js));
      && (forall k :: k in js ==> t.queue.jobs[k].reservation == t.queue.jobs[j].reservation)
      && Sum(js, BackOf(t)) == failures <= Sum(t.inbox.Keys, MayBeApplied(t, js))
      && Sum(js, NetOf(t)) == 1.0 - failures
  {
    var t := Exec(s, ls).value;
    var js := Lineage(t.queue, t.queue.jobs[j].intent);
    Attempts.QueueStaysSound(s, ls);
    RunReservesOnce(s, ls);
    LineageRollbacks(s, ls, js);
    SubmittedOnce(t, j);
    SumPlus(js, NetOf(t), BackOf(t), SubmittedOf(t));
  }

  /** With one failure envelope at most, and that never handed back, a reservation is given back once at most. */
  lemma OneFailureGivesBackOnce(s: World, ls: seq<Label>, j: Q.JobId)
    requires Init(s) && Exec(s, ls).Some? && j in Exec(s, ls).value.queue.jobs
    requires
      var t := Exec(s, ls).value;
      var js := Lineage(t.queue, t.queue.jobs[j].intent);
      && (forall e, f :: FailureAmong(t, e, js) && FailureAmong(t, f, js) ==> e == f)
      && (forall e :: FailureAmong(t, e, js) ==> t.hist[ItemReclaimed(e)] == 0)
    ensures
      var t := Exec(s, ls).value;
      Sum(Lineage(t.queue, t.queue.jobs[j].intent), BackOf(t)) <= 1.0
  {
    var t := Exec(s, ls).value;
    var js := Lineage(t.queue, t.queue.jobs[j].intent);
    LineageIsAccounted(s, ls, j);
    if e :| FailureAmong(t, e, js) {
      SumExtract(t.inbox.Keys, e, MayBeApplied(t, js));
      SumOfZeros(t.inbox.Keys - {e}, MayBeApplied(t, js));
    } else {
      SumOfZeros(t.inbox.Keys, MayBeApplied(t, js));
    }
  }

  // ---------------------------------------------------------------- given back twice

  const REFUSED: ExecutionResult := ExecutionResult(Failed, PolicyFailure)

  /** A run so far: where it started, what was done, where it is. */
  ghost predicate Leads(s: World, ls: seq<Label>, t: World) {
    Exec(s, ls) == Some(t) && t.cfg == s.cfg && t.workers.Keys == s.workers.Keys
    && t.dispatchers.Keys == s.dispatchers.Keys
  }

  lemma Further(s: World, ls: seq<Label>, t: World, l: Label)
    requires Leads(s, ls, t) && Enabled(t, l) && Step(t, l).cfg == t.cfg
    requires Step(t, l).workers.Keys == t.workers.Keys && Step(t, l).dispatchers.Keys == t.dispatchers.Keys
    ensures Leads(s, ls + [l], Step(t, l))
  {
    ExecAppend(s, ls, l);
  }

  /** The worker has the job in hand, and nobody else has anything. */
  ghost predicate InHand(t: World, w: Q.WorkerId, job: JobRef, pc: Pc) {
    && w in t.workers && t.workers[w] == Worker([], pc) && Known(t.queue, job) && t.queue.jobs[job.id].parent.None?
    && t.inbox == map[] && (forall d :: d in t.dispatchers ==> t.dispatchers[d] == Dispatcher([], None))
    && t.hist[BackToBudget(job.id)] == 0 && (forall e :: e in t.budget.ledger ==> e.id == 0)
  }

  lemma LeaseTheJob(s: World, w: Q.WorkerId, job: JobRef) returns (ls: seq<Label>, t: World)
    requires Init(s) && w in s.workers && s.cfg.limit >= 1.0 && job.reservation == Some(ReservationDelta(SMALL))
    ensures Leads(s, ls, t) && InHand(t, w, job, Started(job, 0)) && t.idem == map[]
  {
    var submit := Submit(job.id, job.intent, job.domain, SMALL, 0.0, 0, 0);
    assert Magnitude(ReservationDelta(SMALL)) == 1.0;
    assert CanOrder(s, submit);
    Further(s, [], s, Orchestrate(submit));
    var queued := Obey(s, submit);
    assert queued.queue.jobs == map[job.id := Q.NewJob(job.id, job.intent, job.domain, job.reservation, 0.0, 5, 0)];
    Further(s, [] + [Orchestrate(submit)], queued, Work(w, Lease(job.id, 0, 0)));
    var leased := Act(queued, w, Lease(job.id, 0, 0));
    assert leased.workers[w] == Worker([job], Ready);
    Further(s, [] + [Orchestrate(submit)] + [Work(w, Lease(job.id, 0, 0))], leased, Work(w, Start(0)));
    ls := [] + [Orchestrate(submit)] + [Work(w, Lease(job.id, 0, 0))] + [Work(w, Start(0))];
    t := Act(leased, w, Start(0));
  }

  lemma RefuseTheJob(s: World, before: seq<Label>, mid: World, w: Q.WorkerId, job: JobRef)
    returns (ls: seq<Label>, t: World)
    requires Leads(s, before, mid) && InHand(mid, w, job, Started(job, 0)) && mid.idem == map[]
    ensures Leads(s, ls, t) && InHand(t, w, job, Called(job, REFUSED))
  {
    ls, t := before, mid;
    Further(s, ls, t, Work(w, BeginClaim(0)));
    ls, t := ls + [Work(w, BeginClaim(0))], Act(t, w, BeginClaim(0));
    Further(s, ls, t, Work(w, CallAdapter(REFUSED)));
    ls, t := ls + [Work(w, CallAdapter(REFUSED))], Act(t, w, CallAdapter(REFUSED));
  }

  lemma ClearIt(s: World, before: seq<Label>, mid: World, w: Q.WorkerId, job: JobRef) returns (ls: seq<Label>, t: World)
    requires Leads(s, before, mid) && InHand(mid, w, job, Called(job, REFUSED))
    ensures Leads(s, ls, t) && InHand(t, w, job, FailCleared(job, REFUSED))
  {
    Further(s, before, mid, Work(w, ClearClaim));
    ls, t := before + [Work(w, ClearClaim)], Act(mid, w, ClearClaim);
  }

  lemma AckIt(s: World, before: seq<Label>, mid: World, w: Q.WorkerId, job: JobRef) returns (ls: seq<Label>, t: World)
    requires Leads(s, before, mid) && InHand(mid, w, job, FailCleared(job, REFUSED))
    ensures Leads(s, ls, t) && InHand(t, w, job, Publishing(job, REFUSED))
  {
    Further(s, before, mid, Work(w, Action.Ack));
    ls, t := before + [Work(w, Action.Ack)], Act(mid, w, Action.Ack);
  }

  /** The one envelope there is reports the failure, and both dispatchers hold what they hold. */
  ghost predicate Arrived(t: World, job: JobRef, c: Box.DispatcherId, d: Box.DispatcherId, state: Box.ItemState,
                          first: seq<Box.EnvelopeId>, second: seq<Box.EnvelopeId>)
  {
    && Known(t.queue, job) && t.queue.jobs[job.id].parent.None? && t.hist[BackToBudget(job.id)] == 0
    && t.inbox.Keys == {0} && t.inbox[0].envelope == EnvelopeOf(job, REFUSED, 0) && t.inbox[0].state == state
    && (state.ItemLeased? ==> t.inbox[0].leaseUntil == Some(0))
    && c in t.dispatchers && t.dispatchers[c] == Dispatcher(first, None)
    && d in t.dispatchers && t.dispatchers[d] == Dispatcher(second, None)
    && (forall e :: e in t.budget.ledger ==> e.id == 0)
  }

  lemma PublishIt(s: World, before: seq<Label>, mid: World, w: Q.WorkerId, job: JobRef, c: Box.DispatcherId,
                  d: Box.DispatcherId) returns (ls: seq<Label>, t: World)
    requires Leads(s, before, mid) && InHand(mid, w, job, Publishing(job, REFUSED))
    requires c in mid.dispatchers && d in mid.dispatchers && c != d
    ensures Leads(s, ls, t) && Arrived(t, job, c, d, Box.Pending, [], [])
  {
    Further(s, before, mid, Work(w, Publish(0, 0)));
    ls, t := before + [Work(w, Publish(0, 0))], Act(mid, w, Publish(0, 0));
  }

  lemma TakeOnce(s: World, before: seq<Label>, mid: World, job: JobRef, c: Box.DispatcherId, d: Box.DispatcherId)
    returns (ls: seq<Label>, t: World)
    requires Leads(s, before, mid) && Arrived(mid, job, c, d, Box.Pending, [], []) && c != d
    ensures Leads(s, ls, t) && Arrived(t, job, c, d, Box.ItemLeased, [0], [])
  {
    Further(s, before, mid, Deliver(c, Take(0, 0)));
    ls, t := before + [Deliver(c, Take(0, 0))], DeliverTo(mid, c, Take(0, 0));
  }

  /** The first dispatcher's lease runs out before it applies, and the second takes the envelope too. */
  lemma TakeAgain(s: World, before: seq<Label>, mid: World, job: JobRef, c: Box.DispatcherId, d: Box.DispatcherId)
    returns (ls: seq<Label>, t: World)
    requires Leads(s, before, mid) && Arrived(mid, job, c, d, Box.ItemLeased, [0], []) && c != d
    ensures Leads(s, ls, t) && Arrived(t, job, c, d, Box.ItemLeased, [0], [0])
  {
    Further(s, before, mid, Happen(ReclaimEnvelope(0, 1)));
    ls, t := before + [Happen(ReclaimEnvelope(0, 1))], Suffer(mid, ReclaimEnvelope(0, 1));
    assert Arrived(t, job, c, d, Box.Pending, [0], []);
    Further(s, ls, t, Deliver(d, Take(0, 0)));
    ls, t := ls + [Deliver(d, Take(0, 0))], DeliverTo(t, d, Take(0, 0));
  }

  /** An application that rolls back, in a world like this. */
  lemma GiveBack(s: World, before: seq<Label>, mid: World, job: JobRef, c: Box.DispatcherId, id: Id)
    returns (ls: seq<Label>, t: World)
    requires Leads(s, before, mid) && s.cfg.limit >= 1.0 && job.reservation == Some(ReservationDelta(SMALL))
    requires (forall e :: e in mid.budget.ledger ==> e.id < id) && 0 in mid.inbox
    requires mid.inbox[0].envelope == EnvelopeOf(job, REFUSED, 0)
    requires c in mid.dispatchers && mid.dispatchers[c] == Dispatcher([0], None)
    ensures Leads(s, ls, t) && t.queue == mid.queue && t.inbox == mid.inbox
    ensures forall d :: d in mid.dispatchers && d != c ==> t.dispatchers[d] == mid.dispatchers[d]
    ensures t.hist[BackToBudget(job.id)] == mid.hist[BackToBudget(job.id)] + 1
    ensures forall e :: e in t.budget.ledger ==> e.id <= id
  {
    assert Magnitude(Negate(ReservationDelta(SMALL))) == 1.0;
    assert RollsBack(mid.inbox[0].envelope) && !Raises(mid, mid.inbox[0].envelope);
    Further(s, before, mid, Deliver(c, ApplyNext(0, id)));
    ls, t := before + [Deliver(c, ApplyNext(0, id))], DeliverTo(mid, c, ApplyNext(0, id));
    RollbackHistory(mid, c, 0, id);
  }

  /** An input that shows it: from every start with a worker and two dispatchers there is a run that submits one job
      of an intent and gives its reservation back twice. */
  lemma GivenBackTwice(s: World, w: Q.WorkerId, c: Box.DispatcherId, d: Box.DispatcherId, job: JobRef)
    returns (ls: seq<Label>, t: World)
    requires Init(s) && w in s.workers && c in s.dispatchers && d in s.dispatchers && c != d
    requires s.cfg.limit >= 1.0 && job.reservation == Some(ReservationDelta(SMALL))
    ensures Exec(s, ls) == Some(t) && Known(t.queue, job) && t.queue.jobs[job.id].parent.None?
    ensures t.hist[BackToBudget(job.id)] == 2
  {
    ls, t := LeaseTheJob(s, w, job);
    ls, t := RefuseTheJob(s, ls, t, w, job);
    ls, t := ClearIt(s, ls, t, w, job);
    ls, t := AckIt(s, ls, t, w, job);
    ls, t := PublishIt(s, ls, t, w, job, c, d);
    ls, t := TakeOnce(s, ls, t, job, c, d);
    ls, t := TakeAgain(s, ls, t, job, c, d);
    ls, t := GiveBack(s, ls, t, job, c, 1);
    ls, t := GiveBack(s, ls, t, job, d, 2);
  }
}
