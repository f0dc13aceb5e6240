/** Conservation of reservations in clean runs: everything reserved is rolled back, kept by an applied result, waiting
    in the inbox, in a worker's hands, or still held by an active job; each exactly once.
 */
module Conservation {
  import opened Base
  import opened Budget
  import opened CleanRuns
  import opened FiniteSums
  import opened Pipeline
  import opened Reservations
  import Q = ExecutionQueue
  import Box = ResultInbox

  // ---------------------------------------------------------------- envelopes on their way through dispatchers

  predicate Unsettled(s: World, e: Box.EnvelopeId) {
    e in s.inbox && s.hist[Settled(s.inbox[e].envelope.job)] == 0
  }

  ghost predicate BatchHeld(s: World, d: Box.DispatcherId, batch: seq<Box.EnvelopeId>) {
    forall k :: 0 <= k < |batch| ==> Box.HoldsItem(s.inbox, batch[k], d) && Unsettled(s, batch[k])
  }

  /** A dispatcher's batch is leased by it and not yet applied. */
  ghost predicate DispatcherClean(s: World, d: Box.DispatcherId) {
    d in s.dispatchers ==>
      && NoDuplicates(s.dispatchers[d].batch)
      && BatchHeld(s, d, s.dispatchers[d].batch)
      && (s.dispatchers[d].applied.Some? ==>
            s.dispatchers[d].applied.value in s.inbox && !Unsettled(s, s.dispatchers[d].applied.value))
  }

  predicate StateAgrees(s: World, e: Box.EnvelopeId)
    requires e in s.inbox
  {
    (s.inbox[e].state.Pending? ==> Unsettled(s, e)) && (s.inbox[e].state.Processed? ==> !Unsettled(s, e))
  }

  ghost predicate StatesAgree(s: World) {
    forall e :: e in s.inbox ==> StateAgrees(s, e)
  }

  /** A job's result is applied at most once, and only from the inbox. */
  ghost predicate SettledOnce(s: World) {
    forall j :: s.hist[Settled(j)] <= 1 && (s.hist[Settled(j)] > 0 ==> InInbox(s, j))
  }

  predicate RolledBackIff(s: World, e: Box.EnvelopeId)
    requires e in s.inbox
  {
    var env := s.inbox[e].envelope;
    s.hist[BackToBudget(env.job)] == if s.hist[Settled(env.job)] > 0 && RollsBack(env) then 1 else 0
  }

  /** A reservation goes back exactly when the applied result was a failure. */
  ghost predicate RolledBackOnFailure(s: World) {
    && (forall e :: e in s.inbox ==> RolledBackIff(s, e))
    && (forall j :: s.hist[BackToBudget(j)] <= s.hist[Settled(j)])
  }

  ghost predicate AllSubmitted(s: World) {
    forall j :: j in s.queue.jobs ==> s.queue.jobs[j].parent.None?
  }

  ghost predicate DeliveryClean(s: World) {
    (forall d :: DispatcherClean(s, d)) && StatesAgree(s) && SettledOnce(s) && RolledBackOnFailure(s)
  }

  // ---------------------------------------------------------------- steps that apply nothing

  ghost predicate SettlesNothing(s: World, t: World) {
    forall j :: t.hist[Settled(j)] == s.hist[Settled(j)] && t.hist[BackToBudget(j)] == s.hist[BackToBudget(j)]
  }

  lemma StillInInbox(s: World, t: World, j: Q.JobId)
    requires InInbox(s, j) && forall e :: e in s.inbox ==> e in t.inbox && t.inbox[e].envelope == s.inbox[e].envelope
    ensures InInbox(t, j)
  {
    var e :| e in s.inbox && s.inbox[e].envelope.job == j;
    assert e in t.inbox && t.inbox[e].envelope.job == j;
  }

  ghost predicate KeepsEnvelopes(s: World, t: World) {
    forall e :: e in s.inbox ==> e in t.inbox && t.inbox[e].envelope == s.inbox[e].envelope
  }

  /** Envelopes may arrive, but only about jobs that had none. */
  ghost predicate ArrivalsAreNew(s: World, t: World) {
    forall e :: e in t.inbox && e !in s.inbox ==> !InInbox(s, t.inbox[e].envelope.job)
  }

  lemma NothingSettled(s: World, t: World)
    requires SettledOnce(s) && RolledBackOnFailure(s)
    requires SettlesNothing(s, t) && KeepsEnvelopes(s, t) && ArrivalsAreNew(s, t)
    ensures SettledOnce(t) && RolledBackOnFailure(t)
    ensures forall e :: e in s.inbox ==> (Unsettled(t, e) <==> Unsettled(s, e))
    ensures forall e :: e in t.inbox && e !in s.inbox ==> Unsettled(t, e)
  {
    forall j | t.hist[Settled(j)] > 0 ensures InInbox(t, j) {
      StillInInbox(s, t, j);
    }
    forall e | e in t.inbox ensures RolledBackIff(t, e) {
      if e in s.inbox {
        assert RolledBackIff(s, e);
      }
    }
  }

  /** Envelopes and dispatchers stay what they are, or a dispatcher loses what it had. */
  lemma AsideDelivery(s: World, t: World)
    requires DeliveryClean(s) && SettlesNothing(s, t) && t.inbox == s.inbox && t.dispatchers.Keys == s.dispatchers.Keys
    requires forall d :: d in s.dispatchers ==>
                 t.dispatchers[d] == s.dispatchers[d] || t.dispatchers[d] == Dispatcher([], None)
    ensures DeliveryClean(t)
  {
    NothingSettled(s, t);
    forall d ensures DispatcherClean(t, d) {
      assert DispatcherClean(s, d);
    }
    forall e | e in t.inbox ensures StateAgrees(t, e) {
      assert StateAgrees(s, e);
    }
  }

  lemma SilentWork(s: World, w: Q.WorkerId, a: Action)
    requires CanAct(s, w, a)
    ensures SettlesNothing(s, Act(s, w, a))
  {
  }

  /** More envelopes do not disturb a dispatcher. */
  lemma ArrivalDispatcher(s: World, t: World, d: Box.DispatcherId)
    requires DispatcherClean(s, d) && t.dispatchers == s.dispatchers
    requires forall e :: e in s.inbox ==>
                 e in t.inbox && t.inbox[e] == s.inbox[e] && (Unsettled(t, e) <==> Unsettled(s, e))
    ensures DispatcherClean(t, d)
  {
    if d in s.dispatchers {
      forall k | 0 <= k < |s.dispatchers[d].batch|
        ensures Box.HoldsItem(t.inbox, s.dispatchers[d].batch[k], d) && Unsettled(t, s.dispatchers[d].batch[k])
      {
        assert Box.HoldsItem(s.inbox, s.dispatchers[d].batch[k], d);
      }
    }
  }

  /** A published envelope is new, and nothing about its job has been applied before. */
  lemma PublishDelivery(s: World, w: Q.WorkerId, e: Box.EnvelopeId, now: Time)
    requires DeliveryClean(s) && NotPublishing(s) && CanAct(s, w, Publish(e, now))
    ensures DeliveryClean(Act(s, w, Publish(e, now)))
  {
    var t, j := Act(s, w, Publish(e, now)), s.workers[w].pc.job.id;
    SilentWork(s, w, Publish(e, now));
    assert Publishes(s.workers[w], j);
    assert forall f :: f in s.inbox ==> t.inbox[f] == s.inbox[f];
    NothingSettled(s, t);
    forall d ensures DispatcherClean(t, d) {
      assert DispatcherClean(s, d);
      ArrivalDispatcher(s, t, d);
    }
    forall f | f in t.inbox ensures StateAgrees(t, f) {
      assert f in s.inbox ==> StateAgrees(s, f);
    }
  }

  // ---------------------------------------------------------------- dispatcher steps

  lemma QuietDelivery(s: World, d: Box.DispatcherId, b: Delivery)
    requires DeliveryClean(s) && CanDeliver(s, d, b) && !b.ApplyNext?
    ensures
      var t := DeliverTo(s, d, b);
      && SettledOnce(t) && RolledBackOnFailure(t)
      && t.inbox.Keys == s.inbox.Keys && forall e :: Unsettled(t, e) <==> Unsettled(s, e)
  {
    DeliverFrame(s, d, b);
    NothingSettled(s, DeliverTo(s, d, b));
  }

  /** One item changes hands; a batch without it does not notice. */
  lemma BatchStaysHeld(s: World, t: World, d: Box.DispatcherId, batch: seq<Box.EnvelopeId>, x: Box.EnvelopeId)
    requires BatchHeld(s, d, batch) && x !in batch
    requires forall e :: e in s.inbox && e != x ==> e in t.inbox && t.inbox[e] == s.inbox[e]
    requires forall e :: Unsettled(t, e) <==> Unsettled(s, e)
    ensures BatchHeld(t, d, batch)
  {
    forall k | 0 <= k < |batch| ensures Box.HoldsItem(t.inbox, batch[k], d) && Unsettled(t, batch[k]) {
      assert Box.HoldsItem(s.inbox, batch[k], d) && batch[k] in s.inbox;
    }
  }

  lemma TakeReach(s: World, d: Box.DispatcherId, e: Box.EnvelopeId, until: Time)
    requires CanDeliver(s, d, Take(e, until))
    ensures
      var t := DeliverTo(s, d, Take(e, until));
      && t.inbox == Box.LeaseItem(s.inbox, e, d, until)
      && t.dispatchers == s.dispatchers[d := s.dispatchers[d].(batch := s.dispatchers[d].batch + [e])]
  {
  }

  /** The taken envelope was pending, so no batch held it. */
  lemma TakeDispatcher(s: World, t: World, d: Box.DispatcherId, e: Box.EnvelopeId, until: Time, c: Box.DispatcherId)
    requires c in s.dispatchers && DispatcherClean(s, c) && d in s.dispatchers
    requires e in s.inbox && s.inbox[e].state.Pending? && Unsettled(s, e)
    requires t.inbox == Box.LeaseItem(s.inbox, e, d, until)
    requires t.dispatchers == s.dispatchers[d := s.dispatchers[d].(batch := s.dispatchers[d].batch + [e])]
    requires forall f :: Unsettled(t, f) <==> Unsettled(s, f)
    ensures DispatcherClean(t, c)
  {
    var batch := s.dispatchers[c].batch;
    BatchStaysHeld(s, t, c, batch, e);
    if c == d {
      assert t.dispatchers[c].batch == batch + [e];
      assert Box.HoldsItem(t.inbox, e, d);
    }
  }

  lemma TakeDelivery(s: World, d: Box.DispatcherId, e: Box.EnvelopeId, until: Time)
    requires DeliveryClean(s) && CanDeliver(s, d, Take(e, until))
    ensures DeliveryClean(DeliverTo(s, d, Take(e, until)))
  {
    var t := DeliverTo(s, d, Take(e, until));
    QuietDelivery(s, d, Take(e, until));
    TakeReach(s, d, e, until);
    assert StateAgrees(s, e);
    forall c ensures DispatcherClean(t, c) {
      if c in s.dispatchers {
        assert DispatcherClean(s, c);
        TakeDispatcher(s, t, d, e, until, c);
      }
    }
    forall f | f in t.inbox ensures StateAgrees(t, f) {
      assert StateAgrees(s, f);
    }
  }

  lemma AckReach(s: World, d: Box.DispatcherId)
    requires CanDeliver(s, d, AckApplied)
    ensures
      var t := DeliverTo(s, d, AckApplied);
      && (forall e :: e in s.inbox && e != s.dispatchers[d].applied.value ==> e in t.inbox && t.inbox[e] == s.inbox[e])
      && t.dispatchers == s.dispatchers[d := s.dispatchers[d].(applied := None)]
  {
  }

  /** The acknowledged envelope has been applied, so no batch holds it. */
  lemma AckDispatcher(s: World, t: World, d: Box.DispatcherId, v: Box.EnvelopeId, c: Box.DispatcherId)
    requires c in s.dispatchers && DispatcherClean(s, c)
    requires d in s.dispatchers && !Unsettled(s, v)
    requires forall e :: e in s.inbox && e != v ==> e in t.inbox && t.inbox[e] == s.inbox[e]
    requires t.dispatchers == s.dispatchers[d := s.dispatchers[d].(applied := None)]
    requires t.inbox.Keys == s.inbox.Keys && forall e :: Unsettled(t, e) <==> Unsettled(s, e)
    ensures DispatcherClean(t, c)
  {
    var batch := s.dispatchers[c].batch;
    BatchStaysHeld(s, t, c, batch, v);
    assert t.dispatchers[c].batch == batch;
  }

  lemma AckDelivery(s: World, d: Box.DispatcherId)
    requires DeliveryClean(s) && CanDeliver(s, d, AckApplied)
    ensures DeliveryClean(DeliverTo(s, d, AckApplied))
  {
    var t := DeliverTo(s, d, AckApplied);
    QuietDelivery(s, d, AckApplied);
    assert DispatcherClean(s, d);
    AckReach(s, d);
    forall c ensures DispatcherClean(t, c) {
      if c in s.dispatchers {
        assert DispatcherClean(s, c);
        AckDispatcher(s, t, d, s.dispatchers[d].applied.value, c);
      }
    }
    forall f | f in t.inbox ensures StateAgrees(t, f) {
      assert StateAgrees(s, f);
    }
  }

  /** What applying the head of a batch does to the history. */
  lemma ApplyHistory(s: World, d: Box.DispatcherId, now: Time, id: Id)
    requires CanDeliver(s, d, ApplyNext(now, id)) && !Raises(s, s.inbox[s.dispatchers[d].batch[0]].envelope)
    ensures
      var t, e := DeliverTo(s, d, ApplyNext(now, id)), s.dispatchers[d].batch[0];
      var env := s.inbox[e].envelope;
      && t.inbox == s.inbox && t.queue == s.queue
      && t.dispatchers == s.dispatchers[d := Dispatcher(s.dispatchers[d].batch[1..], Some(e))]
      && t.hist[Settled(env.job)] == s.hist[Settled(env.job)] + 1
      && t.hist[BackToBudget(env.job)] == s.hist[BackToBudget(env.job)] + (if RollsBack(env) then 1 else 0)
      && (forall j :: j != env.job ==>
              t.hist[Settled(j)] == s.hist[Settled(j)] && t.hist[BackToBudget(j)] == s.hist[BackToBudget(j)])
  {
  }

  /** Applying e settles e's job and no other: what the dispatchers still hold is about other jobs. */
  lemma OthersStayUnsettled(s: World, d: Box.DispatcherId, now: Time, id: Id, f: Box.EnvelopeId)
    requires OneEnvelope(s) && CanDeliver(s, d, ApplyNext(now, id))
    requires !Raises(s, s.inbox[s.dispatchers[d].batch[0]].envelope)
    requires Unsettled(s, f) && f != s.dispatchers[d].batch[0]
    ensures Unsettled(DeliverTo(s, d, ApplyNext(now, id)), f)
  {
    ApplyHistory(s, d, now, id);
  }

  lemma ApplyDispatchers(s: World, d: Box.DispatcherId, now: Time, id: Id, c: Box.DispatcherId)
    requires DeliveryClean(s) && OneEnvelope(s) && CanDeliver(s, d, ApplyNext(now, id))
    requires !Raises(s, s.inbox[s.dispatchers[d].batch[0]].envelope)
    ensures DispatcherClean(DeliverTo(s, d, ApplyNext(now, id)), c)
  {
    var t, batch := DeliverTo(s, d, ApplyNext(now, id)), s.dispatchers[d].batch;
    ApplyHistory(s, d, now, id);
    assert DispatcherClean(s, c) && DispatcherClean(s, d);
    assert Box.HoldsItem(s.inbox, batch[0], d);
    if c in t.dispatchers {
      var rest := t.dispatchers[c].batch;
      assert c == d ==> rest == batch[1..] && forall k :: 0 <= k < |rest| ==> rest[k] == batch[k + 1];
      forall k | 0 <= k < |rest| ensures Box.HoldsItem(t.inbox, rest[k], c) && Unsettled(t, rest[k]) {
        assert Box.HoldsItem(s.inbox, rest[k], c);
        OthersStayUnsettled(s, d, now, id, rest[k]);
      }
    }
  }

  lemma ApplyPending(s: World, d: Box.DispatcherId, now: Time, id: Id)
    requires DeliveryClean(s) && OneEnvelope(s) && CanDeliver(s, d, ApplyNext(now, id))
    requires !Raises(s, s.inbox[s.dispatchers[d].batch[0]].envelope)
    ensures StatesAgree(DeliverTo(s, d, ApplyNext(now, id)))
  {
    var t, batch := DeliverTo(s, d, ApplyNext(now, id)), s.dispatchers[d].batch;
    ApplyHistory(s, d, now, id);
    assert DispatcherClean(s, d);
    assert Box.HoldsItem(s.inbox, batch[0], d);
    forall f | f in t.inbox ensures StateAgrees(t, f) {
      assert StateAgrees(s, f);
      if Unsettled(s, f) && f != batch[0] {
        OthersStayUnsettled(s, d, now, id, f);
      }
    }
  }

  lemma ApplySettlesOnce(s: World, d: Box.DispatcherId, now: Time, id: Id)
    requires DeliveryClean(s) && OneEnvelope(s) && CanDeliver(s, d, ApplyNext(now, id))
    requires !Raises(s, s.inbox[s.dispatchers[d].batch[0]].envelope)
    ensures SettledOnce(DeliverTo(s, d, ApplyNext(now, id)))
  {
    var t, e := DeliverTo(s, d, ApplyNext(now, id)), s.dispatchers[d].batch[0];
    ApplyHistory(s, d, now, id);
    assert DispatcherClean(s, d);
    assert Unsettled(s, e);
    assert InInbox(t, t.inbox[e].envelope.job);
    forall k | t.hist[Settled(k)] > 0 ensures InInbox(t, k) {
      if k != s.inbox[e].envelope.job {
        StillInInbox(s, t, k);
      }
    }
  }

  lemma ApplyRollsBackFailures(s: World, d: Box.DispatcherId, now: Time, id: Id)
    requires DeliveryClean(s) && OneEnvelope(s) && CanDeliver(s, d, ApplyNext(now, id))
    requires !Raises(s, s.inbox[s.dispatchers[d].batch[0]].envelope)
    ensures RolledBackOnFailure(DeliverTo(s, d, ApplyNext(now, id)))
  {
    var t, e := DeliverTo(s, d, ApplyNext(now, id)), s.dispatchers[d].batch[0];
    ApplyHistory(s, d, now, id);
    assert DispatcherClean(s, d);
    assert Unsettled(s, e) && RolledBackIff(s, e);
    forall f | f in t.inbox ensures RolledBackIff(t, f) {
      assert RolledBackIff(s, f);
    }
  }

  lemma DeliverDelivery(s: World, d: Box.DispatcherId, b: Delivery)
    requires DeliveryClean(s) && OneEnvelope(s) && CanDeliver(s, d, b)
    ensures DeliveryClean(DeliverTo(s, d, b))
  {
    match b
    case Take(e, until) => TakeDelivery(s, d, e, until);
    case AckApplied => AckDelivery(s, d);
    case EndRound => AsideDelivery(s, DeliverTo(s, d, b));
    case ApplyNext(now, id) =>
      if Raises(s, s.inbox[s.dispatchers[d].batch[0]].envelope) {
        AsideDelivery(s, DeliverTo(s, d, b));
      } else {
        forall c ensures DispatcherClean(DeliverTo(s, d, b), c) {
          ApplyDispatchers(s, d, now, id, c);
        }
        ApplyPending(s, d, now, id);
        ApplySettlesOnce(s, d, now, id);
        ApplyRollsBackFailures(s, d, now, id);
      }
  }

  lemma StepDelivery(s: World, l: Label)
    requires DeliveryClean(s) && ResultsInv(s) && Enabled(s, l) && CleanStep(s, l)
    ensures DeliveryClean(Step(s, l))
  {
    match l
    case Work(w, a) =>
      if a.Publish? {
        PublishDelivery(s, w, a.envelope, a.now);
      } else {
        SilentWork(s, w, a);
        WorkLeavesInbox(s, w, a);
        AsideDelivery(s, Act(s, w, a));
      }
    case Deliver(d, b) => DeliverDelivery(s, d, b);
    case Orchestrate(o) =>
      ObeyFrame(s, o);
      AsideDelivery(s, Obey(s, o));
    case Happen(i) =>
      CleanIncident(s, i);
      AsideDelivery(s, Suffer(s, i));
  }

  lemma {:induction false} RunDelivery(s: World, ls: seq<Label>)
    requires Init(s) && CleanExec(s, ls).Some?
    ensures DeliveryClean(CleanExec(s, ls).value)
    decreases |ls|
  {
    if ls != [] {
      RunDelivery(s, ls[..|ls| - 1]);
      RunResultsInv(s, ls[..|ls| - 1]);
      StepDelivery(CleanExec(s, ls[..|ls| - 1]).value, ls[|ls| - 1]);
    }
  }

  // ---------------------------------------------------------------- clean runs submit once and replay nothing

  lemma ObeyAllSubmitted(s: World, o: Order)
    requires AllSubmitted(s) && CanOrder(s, o)
    ensures AllSubmitted(Obey(s, o))
  {
    ObeyFrame(s, o);
  }

  lemma StepAllSubmitted(s: World, l: Label)
    requires AllSubmitted(s) && Traced(s) && Enabled(s, l) && CleanStep(s, l)
    ensures AllSubmitted(Step(s, l))
  {
    match l
    case Work(w, a) => EffectExtends(s, w, a);
    case Deliver(d, b) => DeliverFrame(s, d, b);
    case Orchestrate(o) => ObeyAllSubmitted(s, o);
    case Happen(i) => CleanIncident(s, i);
  }

  lemma {:induction false} CleanRunSubmits(s: World, ls: seq<Label>)
    requires Init(s) && CleanExec(s, ls).Some?
    ensures Exec(s, ls) == CleanExec(s, ls) && IntentsAreNew(s, ls) && AllSubmitted(CleanExec(s, ls).value)
    decreases |ls|
  {
    CleanRunIsRun(s, ls);
    if ls != [] {
      CleanRunSubmits(s, ls[..|ls| - 1]);
      RunTraced(s, ls[..|ls| - 1]);
      StepAllSubmitted(CleanExec(s, ls[..|ls| - 1]).value, ls[|ls| - 1]);
    }
  }

  // ---------------------------------------------------------------- where a reservation is

  datatype Fate =
    | HeldByJob      // the job is queued or leased
    | InHand         // a worker is about to publish the result
    | InTransit      // the result is in the inbox, not yet applied
    | Kept           // the applied result was SUCCESS or PARTIAL
    | GivenBack      // the applied result was FAILED or REJECTED

  ghost function FateOf(s: World, j: Q.JobId): Fate
    requires j in s.queue.jobs
  {
    if Q.Active(s.queue.jobs[j]) then HeldByJob
    else if InHands(s, j) then InHand
    else if s.hist[Settled(j)] == 0 then InTransit
    else if s.hist[BackToBudget(j)] == 0 then Kept
    else GivenBack
  }

  ghost function JobsWith(s: World, f: Fate): set<Q.JobId> {
    set j | j in s.queue.jobs && FateOf(s, j) == f
  }

  function RecordedOf(s: World, p: Part): Q.JobId -> real {
    j => if j in s.queue.jobs then PartOf(Recorded(s.cfg.limit, s.queue.jobs[j].reservation), p) else 0.0
  }

  ghost function Total(s: World, f: Fate, p: Part): real {
    Sum(JobsWith(s, f), RecordedOf(s, p))
  }

  lemma FatesPartition(s: World)
    ensures
      var a, b, c := JobsWith(s, HeldByJob), JobsWith(s, InHand), JobsWith(s, InTransit);
      var d, e := JobsWith(s, Kept), JobsWith(s, GivenBack);
      && a !! b !! c !! d !! e
      && s.queue.jobs.Keys == a + b + c + d + e
  {
    var a, b, c := JobsWith(s, HeldByJob), JobsWith(s, InHand), JobsWith(s, InTransit);
    var d, e := JobsWith(s, Kept), JobsWith(s, GivenBack);
    forall j | j in s.queue.jobs ensures j in a + b + c + d + e {
      match FateOf(s, j)
      case HeldByJob =>
      case InHand =>
      case InTransit =>
      case Kept =>
      case GivenBack =>
    }
  }

  lemma SumOfFive(a: set<Q.JobId>, b: set<Q.JobId>, c: set<Q.JobId>, d: set<Q.JobId>, e: set<Q.JobId>,
                  g: Q.JobId -> real)
    requires a !! b !! c !! d !! e
    ensures Sum(a + b + c + d + e, g) == Sum(a, g) + Sum(b, g) + Sum(c, g) + Sum(d, g) + Sum(e, g)
  {
    SumUnion(a, b, g);
    SumUnion(a + b, c, g);
    SumUnion(a + b + c, d, g);
    SumUnion(a + b + c + d, e, g);
  }

  lemma SumByFate(s: World, g: Q.JobId -> real)
    ensures Sum(s.queue.jobs.Keys, g)
            == Sum(JobsWith(s, HeldByJob), g) + Sum(JobsWith(s, InHand), g) + Sum(JobsWith(s, InTransit), g)
               + Sum(JobsWith(s, Kept), g) + Sum(JobsWith(s, GivenBack), g)
  {
    FatesPartition(s);
    SumOfFive(JobsWith(s, HeldByJob), JobsWith(s, InHand), JobsWith(s, InTransit), JobsWith(s, Kept),
              JobsWith(s, GivenBack), g);
  }

  lemma GivenBackIff(s: World, j: Q.JobId)
    requires j in s.queue.jobs && DeliveryClean(s) && ResultsInv(s)
    ensures s.hist[BackToBudget(j)] == if FateOf(s, j).GivenBack? then 1 else 0
  {
    if s.hist[BackToBudget(j)] > 0 {
      assert InInbox(s, j);
      var e :| e in s.inbox && s.inbox[e].envelope.job == j;
      NotInHand(s, e);
    }
  }

  lemma OutOnce(limit: real, job: Q.Job, back: nat, p: Part)
    requires job.parent.None? && back <= 1
    ensures Out(limit, job, back, p) == if back == 1 then 0.0 else PartOf(Recorded(limit, job.reservation), p)
  {
  }

  /** Only reservations given back are no longer out; each is out once or not at all. */
  lemma OutByFate(s: World, j: Q.JobId, p: Part)
    requires j in s.queue.jobs && DeliveryClean(s) && ResultsInv(s) && AllSubmitted(s)
    ensures OutOf(s, p)(j) == if FateOf(s, j).GivenBack? then 0.0 else RecordedOf(s, p)(j)
  {
    GivenBackIff(s, j);
    OutOnce(s.cfg.limit, s.queue.jobs[j], s.hist[BackToBudget(j)], p);
  }

  lemma NotInHand(s: World, e: Box.EnvelopeId)
    requires ResultsInv(s) && e in s.inbox
    ensures !InHands(s, s.inbox[e].envelope.job) && !Q.Active(s.queue.jobs[s.inbox[e].envelope.job])
  {
  }

  /** Conservation: in every clean run, and for each part of the budget, what the submitted jobs reserved is what was
      given back plus what the ledger still has reserved; and the latter is what results kept, what is on its way
      (in the inbox or in a worker's hands), and what active jobs hold. */
  lemma ReservationsAreConserved(s: World, ls: seq<Label>, p: Part)
    requires Init(s) && CleanExec(s, ls).Some?
    ensures
      var t := CleanExec(s, ls).value;
      var net := PartOf(NetReserved(t.budget.ledger), p);
      && Sum(t.queue.jobs.Keys, RecordedOf(t, p)) == Total(t, GivenBack, p) + net
      && net == Total(t, Kept, p) + Total(t, InTransit, p) + Total(t, InHand, p) + Total(t, HeldByJob, p)
  {
    var t := CleanExec(s, ls).value;
    CleanRunSubmits(s, ls);
    RunDelivery(s, ls);
    RunResultsInv(s, ls);
    LedgerIsAccounted(s, ls, p);
    SumByFate(t, OutOf(t, p));
    SumByFate(t, RecordedOf(t, p));
    OutIsRecorded(t, HeldByJob, p);
    OutIsRecorded(t, InHand, p);
    OutIsRecorded(t, InTransit, p);
    OutIsRecorded(t, Kept, p);
    forall j | j in JobsWith(t, GivenBack) ensures OutOf(t, p)(j) == 0.0 {
      OutByFate(t, j, p);
    }
    SumOfZeros(JobsWith(t, GivenBack), OutOf(t, p));
  }

  lemma OutIsRecorded(s: World, f: Fate, p: Part)
    requires DeliveryClean(s) && ResultsInv(s) && AllSubmitted(s) && !f.GivenBack?
    ensures Sum(JobsWith(s, f), OutOf(s, p)) == Total(s, f, p)
  {
    forall j | j in JobsWith(s, f) ensures OutOf(s, p)(j) == RecordedOf(s, p)(j) {
      OutByFate(s, j, p);
    }
    SumCongruent(JobsWith(s, f), OutOf(s, p), RecordedOf(s, p));
  }

  function SettledFate(applied: bool, env: Box.Envelope): Fate {
    if !applied then InTransit else if RollsBack(env) then GivenBack else Kept
  }

  /** What a fate means: a job past its worker has one envelope in the inbox; the envelope has been applied at most
      once; and the reservation was given back exactly if it was applied and reports FAILED or REJECTED. */
  lemma FateIsInTheInbox(s: World, ls: seq<Label>, e: Box.EnvelopeId)
    requires Init(s) && CleanExec(s, ls).Some? && e in CleanExec(s, ls).value.inbox
    ensures
      var t := CleanExec(s, ls).value;
      var env := t.inbox[e].envelope;
      && env.job in t.queue.jobs && env.reservation == t.queue.jobs[env.job].reservation
      && t.hist[Settled(env.job)] <= 1
      && (t.inbox[e].state.Pending? ==> t.hist[Settled(env.job)] == 0)
      && (t.inbox[e].state.Processed? ==> t.hist[Settled(env.job)] == 1)
      && FateOf(t, env.job) == SettledFate(t.hist[Settled(env.job)] > 0, env)
  {
    var t := CleanExec(s, ls).value;
    CleanRunSubmits(s, ls);
    RunDelivery(s, ls);
    RunResultsInv(s, ls);
    RunTraced(s, ls);
    NotInHand(t, e);
    assert EnvelopeKnown(t.queue, t.inbox[e].envelope) && RolledBackIff(t, e) && StateAgrees(t, e);
  }
}
