/** What the ledger shows of each submission: in every run its event is there exactly when it is within the safety
    limit. Without fail-fast a job over the limit runs all the same, with no reservation behind it.
 */
module Receipts {
  import opened Base
  import opened Budget
  import opened Pipeline
  import opened Reservations
  import BudgetStore
  import Q = ExecutionQueue
  import Box = ResultInbox

  // ---------------------------------------------------------------- the ledger only grows

  ghost predicate WithinLimit(s: World) {
    forall e :: e in s.budget.ledger ==> Magnitude(e.delta) <= s.cfg.limit
  }

  /** Events are only added, and only within the limit. */
  ghost predicate Grows(s: World, t: World) {
    t.cfg == s.cfg && s.budget.ledger <= t.budget.ledger && (WithinLimit(s) ==> WithinLimit(t))
  }

  lemma EmitGrows(st: BudgetStore.Store, limit: real, e: BudgetEvent)
    ensures
      var after := BudgetStore.Emit(st, limit, e).ledger;
      st.ledger <= after && forall x :: x in after ==> x in st.ledger || Magnitude(x.delta) <= limit
  {
  }

  lemma ObeyGrows(s: World, o: Order)
    requires CanOrder(s, o)
    ensures Grows(s, Obey(s, o))
  {
    match o
    case RecoverBudget(now, id) =>
      var d := RecoveryDelta(s.budget.live, now);
      if Recovers(d) {
        EmitGrows(s.budget, s.cfg.limit, BudgetEvent(id, now, Recovered, d.value));
      }
    case Submit(_, _, _, cost, _, now, id) =>
      EmitGrows(s.budget, s.cfg.limit, BudgetEvent(id, now, Reserved, ReservationDelta(cost)));
    case SubmitBlocked(cost, now, id, rb) =>
      var d := ReservationDelta(cost);
      EmitGrows(s.budget, s.cfg.limit, BudgetEvent(id, now, Reserved, d));
      EmitGrows(EmitInto(s.budget, s, id, now, Reserved, d), s.cfg.limit, BudgetEvent(rb, now, RolledBack, Negate(d)));
    case PersistBudget(now) =>
  }

  lemma DeliverGrows(s: World, d: Box.DispatcherId, b: Delivery)
    requires CanDeliver(s, d, b)
    ensures Grows(s, DeliverTo(s, d, b))
  {
    if b.ApplyNext? {
      var env := s.inbox[s.dispatchers[d].batch[0]].envelope;
      if RollsBack(env) {
        EmitGrows(s.budget, s.cfg.limit, BudgetEvent(b.eventId, b.now, RolledBack, Negate(env.reservation.value)));
      }
    }
  }

  lemma StepGrows(s: World, l: Label)
    requires Enabled(s, l)
    ensures Grows(s, Step(s, l))
  {
    match l
    case Work(w, a) =>
    case Deliver(d, b) => DeliverGrows(s, d, b);
    case Orchestrate(o) => ObeyGrows(s, o);
    case Happen(i) => SufferFrame(s, i);
  }

  lemma {:induction false} RunGrows(s: World, ls: seq<Label>, k: nat)
    requires Exec(s, ls).Some? && k <= |ls|
    ensures Exec(s, ls[..k]).Some? && Grows(Exec(s, ls[..k]).value, Exec(s, ls).value)
    decreases |ls|
  {
    if k == |ls| {
      assert ls[..k] == ls;
    } else {
      var n := |ls| - 1;
      assert ls[..n][..k] == ls[..k];
      RunGrows(s, ls[..n], k);
      StepGrows(Exec(s, ls[..n]).value, ls[n]);
    }
  }

  // ---------------------------------------------------------------- submissions and their events

  function ReservedBy(o: Order): BudgetEvent
    requires o.Submit?
  {
    BudgetEvent(o.eventId, o.now, Reserved, ReservationDelta(o.cost))
  }

  /** The step itself: the event is recorded exactly within the limit; a job is made, with its reservation, exactly
      when the intent is new and emitting did not raise. */
  lemma SubmitStep(s: World, o: Order)
    requires CanOrder(s, o) && o.Submit?
    ensures Magnitude(ReservationDelta(o.cost)) <= s.cfg.limit ==> ReservedBy(o) in Obey(s, o).budget.ledger
    ensures o.job in Obey(s, o).queue.jobs
            <==> o.intent !in s.queue.index && !(TooLarge(s, ReservationDelta(o.cost)) && s.cfg.failFast)
    ensures o.job in Obey(s, o).queue.jobs ==>
              Obey(s, o).queue.jobs[o.job].reservation == Some(ReservationDelta(o.cost))
  {
  }

  /** In every run, for every submission in it: the ledger ends up with its event exactly when the cost is within the
      limit, whether the submission made a job or not. */
  lemma SubmissionIsRecordedIff(s: World, ls: seq<Label>, k: nat)
    requires Init(s) && Exec(s, ls).Some? && k < |ls| && ls[k].Orchestrate? && ls[k].order.Submit?
    ensures ReservedBy(ls[k].order) in Exec(s, ls).value.budget.ledger
            <==> Magnitude(ReservationDelta(ls[k].order.cost)) <= s.cfg.limit
  {
    var t, o := Exec(s, ls).value, ls[k].order;
    RunGrows(s, ls, 0);
    assert ls[..0] == [];
    RunGrows(s, ls, k + 1);
    assert ls[..k + 1][..k] == ls[..k];
    var mid := Exec(s, ls[..k]).value;
    RunGrows(s, ls[..k + 1], 0);
    RunGrows(s, ls[..k], 0);
    assert ls[..k][..0] == [];
    SubmitStep(mid, o);
  }

  /** And the job it makes is there for good, with that reservation: over the limit and without fail-fast, a job without
      an event. */
  lemma {:induction false} SubmittedJobStays(s: World, ls: seq<Label>, k: nat)
    requires Init(s) && Exec(s, ls).Some? && k < |ls| && ls[k].Orchestrate? && ls[k].order.Submit?
    requires Exec(s, ls[..k]).Some? && ls[k].order.intent !in Exec(s, ls[..k]).value.queue.index && !s.cfg.failFast
    ensures
      var t := Exec(s, ls).value;
      ls[k].order.job in t.queue.jobs
      && t.queue.jobs[ls[k].order.job].reservation == Some(ReservationDelta(ls[k].order.cost))
    decreases |ls|
  {
    var n := |ls| - 1;
    var before := Exec(s, ls[..n]).value;
    if k == n {
      RunGrows(s, ls[..n], 0);
      assert ls[..n][..0] == [];
      SubmitStep(before, ls[k].order);
    } else {
      assert ls[..n][..k] == ls[..k];
      SubmittedJobStays(s, ls[..n], k);
      RunTraced(s, ls[..n]);
      StepKeepsReservation(before, ls[n], ls[k].order.job);
    }
  }

  lemma StepKeepsReservation(s: World, l: Label, j: Q.JobId)
    requires Traced(s) && Enabled(s, l) && j in s.queue.jobs
    ensures j in Step(s, l).queue.jobs && Step(s, l).queue.jobs[j].reservation == s.queue.jobs[j].reservation
  {
    match l
    case Work(w, a) => EffectKeepsJob(s, w, a, j);
    case Deliver(d, b) => DeliverFrame(s, d, b);
    case Orchestrate(o) => ObeyExtends(s, o);
    case Happen(i) => SufferKeepsJob(s, i, j);
  }

  // ---------------------------------------------------------------- a job without a reservation

  const EVERYTHING: ResourceCost := ResourceCost(100.0, 100.0, 5)

  /** A new budget approves all it has, and that is a delta of 205. */
  lemma EverythingIsApproved(s: World)
    requires Init(s)
    ensures Evaluate(Some(EVERYTHING), s.budget.live).Approved? && Magnitude(ReservationDelta(EVERYTHING)) == 205.0
  {
    assert s.budget.live == DefaultBudget(s.budget.live.lastUpdated);
  }

  /** From every start without fail-fast, any submission that is approved and over the limit makes its job, carrying a
      reservation that the ledger does not have; and with a limit below 205 there is such a submission. */
  lemma JobWithoutReservation(s: World, o: Order)
    requires Init(s) && !s.cfg.failFast && o.Submit?
    requires CanOrder(s, o) && TooLarge(s, ReservationDelta(o.cost))
    ensures
      var t := Exec(s, [Orchestrate(o)]);
      && t.Some? && o.job in t.value.queue.jobs
      && t.value.queue.jobs[o.job].reservation == Some(ReservationDelta(o.cost))
      && t.value.budget.ledger == [] && t.value.budget.live == s.budget.live
  {
    assert [Orchestrate(o)][..0] == [];
    assert Exec(s, []) == Some(s);
    assert Exec(s, [Orchestrate(o)]) == Some(Obey(s, o));
  }

  lemma OverLimitIsReachable(s: World, o: Order)
    requires Init(s) && s.cfg.limit < 205.0 && o.Submit? && o.cost == EVERYTHING
    ensures CanOrder(s, o) && TooLarge(s, ReservationDelta(o.cost))
  {
    EverythingIsApproved(s);
  }

  // ---------------------------------------------------------------- submitting twice

  /** The first of two small submissions: it makes the job, and the budget approves the second. */
  lemma SecondIsEnabled(s: World, first: Order, second: Order)
    requires Init(s) && first.Submit? && second.Submit? && second.job != first.job && second.eventId != first.eventId
    requires first.cost == SMALL && second.cost == SMALL && s.cfg.limit >= 1.0
    ensures CanOrder(s, first) && CanOrder(Obey(s, first), second)
    ensures first.intent in Obey(s, first).queue.index
  {
    assert Magnitude(ReservationDelta(SMALL)) == 1.0;
    assert s.budget.live == DefaultBudget(s.budget.live.lastUpdated) && s.budget.ledger == [];
    assert Obey(s, first).budget.live.energy == 99.0;
    assert Obey(s, first).budget.ledger == [ReservedBy(first)];
  }

  lemma FirstBalances(s: World, o: Order)
    requires Init(s) && CanOrder(s, o) && o.Submit?
    ensures Exec(s, [Orchestrate(o)]) == Some(Obey(s, o)) && Traced(Obey(s, o)) && forall p :: Balances(Obey(s, o), p)
  {
    var ls := [Orchestrate(o)];
    assert ls[..0] == [] && ls[..|ls| - 1] == [];
    assert IntentsAreNew(s, []);
    RunTraced(s, ls);
    forall p ensures Balances(Obey(s, o), p) {
      LedgerIsAccounted(s, ls, p);
    }
  }

  /** From every start an intent can be submitted twice: the second order is enabled, makes no job, and breaks the
      account. */
  lemma SubmittedTwice(s: World, first: Order, second: Order)
    requires Init(s) && first.Submit? && second.Submit? && second.job != first.job && second.eventId != first.eventId
    requires first.cost == SMALL && second.cost == SMALL && s.cfg.limit >= 1.0 && second.intent == first.intent
    ensures
      var t := Exec(s, [Orchestrate(first), Orchestrate(second)]);
      t.Some? && t.value.queue == Obey(s, first).queue && !(forall p :: Balances(t.value, p))
  {
    SecondIsEnabled(s, first, second);
    FirstBalances(s, first);
    ExecAppend(s, [Orchestrate(first)], Orchestrate(second));
    assert [Orchestrate(first)] + [Orchestrate(second)] == [Orchestrate(first), Orchestrate(second)];
    assert Magnitude(ReservationDelta(SMALL)) == 1.0;
    DuplicateSubmissionLeaks(Obey(s, first), second);
  }
}
