/** The programs and the transition system together: whatever worker, dispatcher or orchestrator program runs next
    from a state that was reached, the result is again reached, so every property of runs holds of it. And the moves
    of a round continue a clean run exactly when the round takes no lease away and submits no intent again.
 */
module Programs {
  import opened Base
  import opened Paths
  import opened Pipeline
  import Budget
  import Attempts
  import Delivery
  import OnceOnly
  import Reservations
  import opened CleanRuns
  import Dispatching
  import ExecutionWorkers
  import Orchestrator
  import Q = ExecutionQueue
  import Box = ResultInbox

  /** One more program run keeps the guarantees, and leaves the stores fit for the next one. */
  lemma ProgramsStayWithinTheRuns(start: World, ls: seq<Label>, s: World, a: Actor, more: seq<Label>, t: World)
    requires Init(start) && Exec(start, ls) == Some(s) && Path(a, s, more, t)
    ensures Exec(start, ls + more) == Some(t)
    ensures forall i :: t.hist[AdapterSucceeded(i)] <= 1
    ensures Q.Sound(t.queue) && Q.Indexed(t.queue)
    ensures forall e :: e in t.inbox ==> t.inbox[e].envelope.reservation.Some?
    ensures forall e :: e in s.inbox ==> e in t.inbox && t.inbox[e].envelope == s.inbox[e].envelope
  {
    ExecConcat(start, ls, more);
    forall i ensures t.hist[AdapterSucceeded(i)] <= 1 {
      OnceOnly.AtMostOneSuccess(start, ls + more, i);
    }
    Attempts.QueueStaysSound(start, ls + more);
    Reservations.RunReserves(start, ls + more);
    EnvelopesOutlive(s, more);
  }

  lemma {:induction false} EnvelopesOutlive(s: World, ls: seq<Label>)
    requires Exec(s, ls).Some?
    ensures
      var t := Exec(s, ls).value;
      forall e :: e in s.inbox ==> e in t.inbox && t.inbox[e].envelope == s.inbox[e].envelope
    decreases |ls|
  {
    if ls != [] {
      var n := |ls| - 1;
      EnvelopesOutlive(s, ls[..n]);
      var mid := Exec(s, ls[..n]).value;
      forall e | e in s.inbox
        ensures e in Step(mid, ls[n]).inbox && Step(mid, ls[n]).inbox[e].envelope == s.inbox[e].envelope
      {
        Delivery.EnvelopesAreKept(mid, ls[n], e);
      }
    }
  }

  // ---------------------------------------------------------------- clean rounds

  /** Moves on the worker's or dispatcher's own behalf: no incident, and nothing the orchestrator orders. */
  predicate OwnMoves(ls: seq<Label>) {
    forall k :: 0 <= k < |ls| ==> ls[k].Work? || ls[k].Deliver?
  }

  lemma {:induction false} OwnMovesAreClean(s: World, ls: seq<Label>)
    requires OwnMoves(ls) && Exec(s, ls).Some?
    ensures CleanExec(s, ls) == Exec(s, ls)
    decreases |ls|
  {
    if ls != [] {
      OwnMovesAreClean(s, ls[..|ls| - 1]);
    }
  }

  predicate JobsQuiet(s: World, order: seq<Q.JobId>, now: Time) {
    forall j :: j in order ==> !Reclaims(s, j, now)
  }

  predicate ItemsQuiet(inbox: Box.Inbox, order: seq<Box.EnvelopeId>, now: Time) {
    forall e :: e in order && e in inbox ==> !Box.ItemExpired(inbox[e], now)
  }

  lemma ReclaimCleanIff(s: World, j: Q.JobId, now: Time)
    ensures CleanStep(s, Happen(Reclaim(j, now))) <==> !Reclaims(s, j, now)
    ensures CleanStep(s, Happen(Reclaim(j, now))) ==> Step(s, Happen(Reclaim(j, now))) == s
  {
    assert s.hist + multiset{} == s.hist;
  }

  lemma ItemReclaimCleanIff(s: World, e: Box.EnvelopeId, now: Time)
    ensures CleanStep(s, Happen(ReclaimEnvelope(e, now))) <==> !(e in s.inbox && Box.ItemExpired(s.inbox[e], now))
    ensures CleanStep(s, Happen(ReclaimEnvelope(e, now))) ==> Step(s, Happen(ReclaimEnvelope(e, now))) == s
  {
    assert s.hist + multiset{} == s.hist;
  }

  /** Handing back expired leases is clean exactly when there are none, and then it changes nothing. */
  lemma {:induction false} ReclaimsCleanIff(s: World, order: seq<Q.JobId>, now: Time)
    ensures CleanExec(s, ExecutionWorkers.ReclaimLabels(order, now))
            == if JobsQuiet(s, order, now) then Some(s) else None
    decreases |order|
  {
    if order != [] {
      var n := |order| - 1;
      ReclaimsCleanIff(s, order[..n], now);
      CleanAppend(s, ExecutionWorkers.ReclaimLabels(order[..n], now), Happen(Reclaim(order[n], now)));
      ReclaimCleanIff(s, order[n], now);
      assert order == order[..n] + [order[n]];
    }
  }

  lemma {:induction false} ItemReclaimsCleanIff(s: World, order: seq<Box.EnvelopeId>, now: Time)
    ensures CleanExec(s, ReclaimItemLabels(order, now)) == if ItemsQuiet(s.inbox, order, now) then Some(s) else None
    decreases |order|
  {
    if order != [] {
      var n := |order| - 1;
      ItemReclaimsCleanIff(s, order[..n], now);
      CleanAppend(s, ReclaimItemLabels(order[..n], now), Happen(ReclaimEnvelope(order[n], now)));
      ItemReclaimCleanIff(s, order[n], now);
      assert order == order[..n] + [order[n]];
    }
  }

  /** Reclaims, and then moves of one's own: clean exactly when the reclaims are. */
  lemma RoundCleanIff(start: World, before: seq<Label>, s: World, reclaims: seq<Label>, own: seq<Label>,
                      more: seq<Label>, t: World, quiet: bool)
    requires CleanExec(start, before) == Some(s) && Exec(s, reclaims + own + more) == Some(t) && OwnMoves(own)
    requires OwnMoves(more)
    requires CleanExec(s, reclaims) == if quiet then Some(s) else None
    ensures CleanExec(start, before + (reclaims + own + more)) == if quiet then Some(t) else None
  {
    var rest := own + more;
    assert reclaims + own + more == reclaims + rest;
    CleanConcat(start, before, reclaims + rest);
    CleanConcat(s, reclaims, rest);
    if quiet {
      CleanRunIsRun(s, reclaims);
      ExecConcat(s, reclaims, rest);
      OwnMovesAreClean(s, rest);
    }
  }

  // ---------------------------------------------------------------- the worker's round

  lemma ClaimIsOwnMoves(s: World, w: Q.WorkerId, visibility: int, job: JobRef, x: ExecutionWorkers.Surroundings,
                        e: Box.EnvelopeId)
    ensures OwnMoves(ExecutionWorkers.ClaimLabels(s, w, visibility, job, x, e))
  {
    assert OwnMoves(ExecutionWorkers.CallLabels(w, visibility, x));
    assert OwnMoves(ExecutionWorkers.EndLabels(w, ExecutionWorkers.ResultOf(x.answer), AttemptsOf(s, job),
                                               s.cfg.maxAttempts, x, e));
    assert OwnMoves(ExecutionWorkers.BusyLabels(s, w, job, x, e));
  }

  lemma JobIsOwnMoves(u: ExecutionWorkers.Setup, sc: ExecutionWorkers.Scene, job: JobRef,
                      x: ExecutionWorkers.Surroundings)
    ensures OwnMoves(ExecutionWorkers.LabelsIn(u, sc, job, x))
  {
    ClaimIsOwnMoves(sc.world, u.id, u.visibility, job, x, sc.nextId);
  }

  lemma {:induction false} BatchIsOwnMoves(u: ExecutionWorkers.Setup, sc: ExecutionWorkers.Scene, jobs: seq<Q.Job>,
                                           xs: nat -> ExecutionWorkers.Surroundings)
    ensures OwnMoves(ExecutionWorkers.BatchLabels(u, sc, jobs, xs).0)
    decreases |jobs|
  {
    if jobs != [] {
      var n := |jobs| - 1;
      BatchIsOwnMoves(u, sc, jobs[..n], xs);
      JobIsOwnMoves(u, ExecutionWorkers.BatchLabels(u, sc, jobs[..n], xs).1, RefOf(jobs[n]), xs(n));
    }
  }

  predicate WorkerQuiet(s: World, config: ExecutionWorkers.WorkerConfig, now: Time, lastReclaim: Time, queueNow: Time,
                        inboxNow: Time, queueOrder: seq<Q.JobId>, inboxOrder: seq<Box.EnvelopeId>)
  {
    ExecutionWorkers.Due(config, now, lastReclaim) ==>
      JobsQuiet(s, queueOrder, queueNow) && ItemsQuiet(s.inbox, inboxOrder, inboxNow)
  }

  lemma DueCleanIff(s: World, config: ExecutionWorkers.WorkerConfig, now: Time, lastReclaim: Time, queueNow: Time,
                    inboxNow: Time, queueOrder: seq<Q.JobId>, inboxOrder: seq<Box.EnvelopeId>)
    ensures CleanExec(s, ExecutionWorkers.DueLabels(config, now, lastReclaim, queueNow, inboxNow,
                                                    queueOrder, inboxOrder))
            == if WorkerQuiet(s, config, now, lastReclaim, queueNow, inboxNow, queueOrder, inboxOrder) then Some(s)
               else None
  {
    CleanConcat(s, ExecutionWorkers.ReclaimLabels(queueOrder, queueNow), ReclaimItemLabels(inboxOrder, inboxNow));
    ReclaimsCleanIff(s, queueOrder, queueNow);
    ItemReclaimsCleanIff(s, inboxOrder, inboxNow);
  }

  /** A worker's round continues a clean run cleanly exactly when no expired lease is handed back in it. */
  lemma WorkerRoundCleanIff(start: World, before: seq<Label>, s: World, config: ExecutionWorkers.WorkerConfig,
                            now: Time, lastReclaim: Time, queueNow: Time, inboxNow: Time, leaseNow: Time,
                            queueOrder: seq<Q.JobId>, inboxOrder: seq<Box.EnvelopeId>, u: ExecutionWorkers.Setup,
                            sc: ExecutionWorkers.Scene, jobs: seq<Q.Job>, xs: nat -> ExecutionWorkers.Surroundings,
                            ls: seq<Label>, t: World)
    requires CleanExec(start, before) == Some(s) && Path(ByWorker(u.id), s, ls, t)
    requires ls == ExecutionWorkers.DueLabels(config, now, lastReclaim, queueNow, inboxNow, queueOrder, inboxOrder)
                   + ExecutionWorkers.LeaseLabels(u.id, jobs, leaseNow, leaseNow + config.visibility)
                   + ExecutionWorkers.BatchLabels(u, sc, jobs, xs).0
    ensures CleanExec(start, before + ls)
            == if WorkerQuiet(s, config, now, lastReclaim, queueNow, inboxNow, queueOrder, inboxOrder) then Some(t)
               else None
  {
    var due := ExecutionWorkers.DueLabels(config, now, lastReclaim, queueNow, inboxNow, queueOrder, inboxOrder);
    var lease := ExecutionWorkers.LeaseLabels(u.id, jobs, leaseNow, leaseNow + config.visibility);
    var handle := ExecutionWorkers.BatchLabels(u, sc, jobs, xs).0;
    BatchIsOwnMoves(u, sc, jobs, xs);
    DueCleanIff(s, config, now, lastReclaim, queueNow, inboxNow, queueOrder, inboxOrder);
    RoundCleanIff(start, before, s, due, lease, handle, t,
                  WorkerQuiet(s, config, now, lastReclaim, queueNow, inboxNow, queueOrder, inboxOrder));
  }

  // ---------------------------------------------------------------- the dispatcher's round

  lemma {:induction false} ApplicationsAreOwnMoves(d: Box.DispatcherId, limit: real, items: seq<Box.Item>,
                                                   cs: nat -> Dispatching.Clock, id: Id)
    ensures OwnMoves(Dispatching.ApplyLabels(d, limit, items, cs, id))
    decreases |items|
  {
    if items != [] {
      ApplicationsAreOwnMoves(d, limit, items[..|items| - 1], cs, id);
    }
  }

  /** A dispatcher's round, finished, stopped or raising, continues a clean run cleanly exactly when it hands no expired
      envelope back. */
  lemma DispatcherRoundCleanIff(start: World, before: seq<Label>, s: World, d: Box.DispatcherId,
                                order: seq<Box.EnvelopeId>, reclaimNow: Time, leased: seq<Box.Item>, until: Time,
                                limit: real, applied: nat, ok: bool, cs: nat -> Dispatching.Clock, id: Id,
                                ls: seq<Label>, t: World)
    requires CleanExec(start, before) == Some(s) && Path(ByDispatcher(d), s, ls, t) && applied <= |leased|
    requires ls == ReclaimItemLabels(order, reclaimNow) + Dispatching.TakeLabels(d, leased, until)
                   + Dispatching.LoopLabels(d, limit, leased, applied, ok, cs, id)
    ensures CleanExec(start, before + ls) == if ItemsQuiet(s.inbox, order, reclaimNow) then Some(t) else None
  {
    var reclaims, take := ReclaimItemLabels(order, reclaimNow), Dispatching.TakeLabels(d, leased, until);
    var loop := Dispatching.LoopLabels(d, limit, leased, applied, ok, cs, id);
    ApplicationsAreOwnMoves(d, limit, leased[..applied], cs, id);
    ItemReclaimsCleanIff(s, order, reclaimNow);
    RoundCleanIff(start, before, s, reclaims, take, loop, t, ItemsQuiet(s.inbox, order, reclaimNow));
  }

  // ---------------------------------------------------------------- the orchestrator's tick

  /** The second move of a tick submits an intent that has a job. */
  predicate Resubmits(s: World, ls: seq<Label>) {
    |ls| > 1 && ls[1].Orchestrate? && ls[1].order.Submit? && ls[1].order.intent in s.queue.index
  }

  ghost predicate Orders(ls: seq<Label>) {
    forall k :: 0 <= k < |ls| ==> ls[k].Orchestrate? && (ls[k].order.Submit? ==> k == 1)
  }

  /** Recovering leaves the queue alone. */
  lemma FirstOrder(s: World, ls: seq<Label>, n: nat)
    requires n < |ls| && n <= 1 && Orders(ls) && Exec(s, ls[..n]).Some?
    ensures Exec(s, ls[..n]).value.queue == s.queue
  {
    if n == 1 {
      assert ls[..1][..0] == [];
      ObeyFrame(s, ls[0].order);
    }
  }

  lemma {:induction false} OrdersCleanIff(s: World, ls: seq<Label>)
    requires Exec(s, ls).Some? && Orders(ls)
    ensures CleanExec(s, ls) == if Resubmits(s, ls) then None else Exec(s, ls)
    decreases |ls|
  {
    if ls != [] {
      var n := |ls| - 1;
      OrdersCleanIff(s, ls[..n]);
      assert Resubmits(s, ls[..n]) <==> n > 1 && Resubmits(s, ls);
      if n <= 1 {
        FirstOrder(s, ls, n);
      }
    }
  }

  /** A tick continues a clean run cleanly exactly when it does not submit an intent again. */
  lemma TickCleanIff(start: World, before: seq<Label>, s: World, recoveryRaises: bool, auctionRaises: bool,
                     winner: Option<nat>, runtimes: seq<Orchestrator.Runtime>,
                     proposals: seq<Option<Orchestrator.Proposal>>, b: Budget.ResourceBudget, newJob: Q.JobId,
                     now: Time, id: Id, next: Id, ls: seq<Label>, t: World)
    requires CleanExec(start, before) == Some(s) && Path(ByOrchestrator, s, ls, t)
    requires |proposals| == |runtimes|
    requires winner.Some? ==>
               winner.value < |runtimes| && Orchestrator.Bid(runtimes[winner.value], proposals[winner.value], b).Some?
    requires ls == Orchestrator.TickLabels(recoveryRaises, auctionRaises,
                                           Orchestrator.AuctionLabels(winner, runtimes, proposals, b, newJob, now,
                                                                      next),
                                           now, id)
    ensures CleanExec(start, before + ls) == if Resubmits(s, ls) then None else Some(t)
  {
    OrdersCleanIff(s, ls);
    CleanConcat(start, before, ls);
  }
}
