/** The adapter succeeds at most once per intent, in every run: any number of workers, leases that expire
    under them, crashes at any point, dead letters replayed again and again.
 */
module OnceOnly {
  import opened Base
  import opened ExecutionResults
  import opened Pipeline
  import Q = ExecutionQueue
  import Idem = Idempotency

  /** Between `begin` answering NEW and the worker's own `complete` or `clear_in_progress`. */
  predicate Owns(pc: Pc, i: Q.IntentId) {
    (pc.Claimed? || pc.Called? || pc.Retrying? || pc.GivingUp?) && pc.job.intent == i
  }

  predicate HasSuccess(pc: Pc) {
    pc.Called? && pc.result.status.Succeeded?
  }

  ghost predicate OwnersHoldClaim(s: World) {
    forall w, i :: w in s.workers && Owns(s.workers[w].pc, i) ==> i in s.idem && s.idem[i].state.InProgress?
  }

  ghost predicate SoleOwner(s: World) {
    forall v, w, i :: v in s.workers && w in s.workers && Owns(s.workers[v].pc, i) && Owns(s.workers[w].pc, i) ==>
        v == w
  }

  /** A success is remembered: by the record once it is DONE, by the owner until then, and by an orphaned record if
      the owner died in between. */
  ghost predicate SuccessRemembered(s: World) {
    forall i :: s.hist[AdapterSucceeded(i)] > 0 ==>
                  && s.hist[AdapterSucceeded(i)] == 1
                  && i in s.idem
                  && forall w :: w in s.workers && Owns(s.workers[w].pc, i) ==> HasSuccess(s.workers[w].pc)
  }

  ghost predicate Inv(s: World) {
    OwnersHoldClaim(s) && SoleOwner(s) && SuccessRemembered(s)
  }

  // ---------------------------------------------------------------- steps that do not touch claims

  /** No claim is made, marked or cleared; at most some owner has let go. */
  ghost predicate Quiet(s: World, t: World) {
    && t.idem == s.idem && t.workers.Keys == s.workers.Keys
    && (forall i :: t.hist[AdapterSucceeded(i)] == s.hist[AdapterSucceeded(i)])
    && (forall w, i :: w in s.workers && Owns(t.workers[w].pc, i) ==>
                         Owns(s.workers[w].pc, i) && (HasSuccess(s.workers[w].pc) ==> HasSuccess(t.workers[w].pc)))
  }

  predicate TouchesClaims(a: Action) {
    a.BeginClaim? || a.CallAdapter? || a.MarkDone? || a.ClearClaim?
  }

  lemma QuietKeeps(s: World, t: World)
    requires Inv(s) && Quiet(s, t)
    ensures Inv(t)
  {
  }

  lemma EffectIsQuiet(s: World, w: Q.WorkerId, a: Action)
    requires CanAct(s, w, a) && !TouchesClaims(a)
    ensures
      var e := EffectOf(s, w, a);
      && e.idem == s.idem
      && (forall i :: e.events[AdapterSucceeded(i)] == 0)
      && (forall i :: Owns(e.worker.pc, i) ==>
                        Owns(s.workers[w].pc, i) && (HasSuccess(s.workers[w].pc) ==> HasSuccess(e.worker.pc)))
  {
  }

  lemma ActIsQuiet(s: World, w: Q.WorkerId, a: Action)
    requires CanAct(s, w, a) && !TouchesClaims(a)
    ensures Quiet(s, Act(s, w, a))
  {
    EffectIsQuiet(s, w, a);
  }

  lemma ObeyIsQuiet(s: World, o: Order)
    requires CanOrder(s, o)
    ensures Quiet(s, Obey(s, o))
  {
  }

  lemma DeliverIsQuiet(s: World, d: Id, b: Delivery)
    requires CanDeliver(s, d, b)
    ensures Quiet(s, DeliverTo(s, d, b))
  {
  }

  lemma SufferIsQuiet(s: World, i: Incident)
    requires CanHappen(s, i)
    ensures Quiet(s, Suffer(s, i))
  {
  }

  lemma OtherStepIsQuiet(s: World, l: Label)
    requires Enabled(s, l) && !l.Work?
    ensures Quiet(s, Step(s, l))
  {
    match l
    case Deliver(d, b) => DeliverIsQuiet(s, d, b);
    case Orchestrate(o) => ObeyIsQuiet(s, o);
    case Happen(i) => SufferIsQuiet(s, i);
  }

  // ---------------------------------------------------------------- steps that do

  lemma BeginKeeps(s: World, w: Q.WorkerId, now: Time)
    requires Inv(s) && CanAct(s, w, BeginClaim(now))
    ensures Inv(Act(s, w, BeginClaim(now)))
  {
    var i := s.workers[w].pc.job.intent;
    assert i !in s.idem ==> s.hist[AdapterSucceeded(i)] == 0;
  }

  lemma CallKeeps(s: World, w: Q.WorkerId, result: ExecutionResult)
    requires Inv(s) && CanAct(s, w, CallAdapter(result))
    ensures Inv(Act(s, w, CallAdapter(result)))
  {
    var i := s.workers[w].pc.job.intent;
    assert Owns(s.workers[w].pc, i);
    assert s.hist[AdapterSucceeded(i)] == 0;
  }

  lemma MarkDoneKeeps(s: World, w: Q.WorkerId, now: Time)
    requires Inv(s) && CanAct(s, w, MarkDone(now))
    ensures Inv(Act(s, w, MarkDone(now)))
  {
    assert Owns(s.workers[w].pc, s.workers[w].pc.job.intent);
  }

  lemma ClearKeeps(s: World, w: Q.WorkerId)
    requires Inv(s) && CanAct(s, w, ClearClaim)
    ensures Inv(Act(s, w, ClearClaim))
  {
    var i := s.workers[w].pc.job.intent;
    assert Owns(s.workers[w].pc, i) && !HasSuccess(s.workers[w].pc);
    assert s.hist[AdapterSucceeded(i)] == 0;
  }

  lemma ActKeeps(s: World, w: Q.WorkerId, a: Action)
    requires Inv(s) && CanAct(s, w, a)
    ensures Inv(Act(s, w, a))
  {
    match a
    case BeginClaim(now) => BeginKeeps(s, w, now);
    case CallAdapter(result) => CallKeeps(s, w, result);
    case MarkDone(now) => MarkDoneKeeps(s, w, now);
    case ClearClaim => ClearKeeps(s, w);
    case _ =>
      ActIsQuiet(s, w, a);
      QuietKeeps(s, Act(s, w, a));
  }

  lemma StepKeeps(s: World, l: Label)
    requires Inv(s) && Enabled(s, l)
    ensures Inv(Step(s, l))
  {
    if l.Work? {
      ActKeeps(s, l.w, l.action);
    } else {
      OtherStepIsQuiet(s, l);
      QuietKeeps(s, Step(s, l));
    }
  }

  lemma {:induction false} RunKeeps(s: World, ls: seq<Label>)
    requires Init(s) && Exec(s, ls).Some?
    ensures Inv(Exec(s, ls).value)
    decreases |ls|
  {
    if ls != [] {
      RunKeeps(s, ls[..|ls| - 1]);
      StepKeeps(Exec(s, ls[..|ls| - 1]).value, ls[|ls| - 1]);
    }
  }

  // ---------------------------------------------------------------- results

  /** In every run the adapter succeeds at most once for an intent. */
  lemma AtMostOneSuccess(s: World, ls: seq<Label>, i: Q.IntentId)
    requires Init(s) && Exec(s, ls).Some?
    ensures Exec(s, ls).value.hist[AdapterSucceeded(i)] <= 1
  {
    RunKeeps(s, ls);
  }

  /** And once it has succeeded it is not called for that intent again, by anybody. */
  lemma NoCallAfterSuccess(s: World, ls: seq<Label>, i: Q.IntentId, w: Q.WorkerId, result: ExecutionResult)
    requires Init(s) && Exec(s, ls).Some?
    requires Exec(s, ls).value.hist[AdapterSucceeded(i)] > 0
    requires CanAct(Exec(s, ls).value, w, CallAdapter(result))
    ensures Exec(s, ls).value.workers[w].pc.job.intent != i
  {
    RunKeeps(s, ls);
    ClaimedHasNotSucceeded(Exec(s, ls).value, w);
  }

  lemma ClaimedHasNotSucceeded(s: World, w: Q.WorkerId)
    requires Inv(s) && w in s.workers && s.workers[w].pc.Claimed?
    ensures s.hist[AdapterSucceeded(s.workers[w].pc.job.intent)] == 0
  {
    assert Owns(s.workers[w].pc, s.workers[w].pc.job.intent);
  }

  /** At most one worker at a time stands between claiming an intent and settling the claim. */
  lemma OneClaimant(s: World, ls: seq<Label>, v: Q.WorkerId, w: Q.WorkerId, i: Q.IntentId)
    requires Init(s) && Exec(s, ls).Some?
    requires v in Exec(s, ls).value.workers && w in Exec(s, ls).value.workers
    requires Owns(Exec(s, ls).value.workers[v].pc, i) && Owns(Exec(s, ls).value.workers[w].pc, i)
    ensures v == w
  {
    RunKeeps(s, ls);
  }

  /** DONE is for good, whatever happens. */
  lemma DoneIsAbsorbing(s: World, l: Label, i: Q.IntentId)
    requires Enabled(s, l) && Idem.IsDone(s.idem, i)
    ensures Idem.IsDone(Step(s, l).idem, i)
  {
    if l.Work? {
      if !TouchesClaims(l.action) {
        EffectIsQuiet(s, l.w, l.action);
      }
    } else {
      OtherStepIsQuiet(s, l);
    }
  }
}
