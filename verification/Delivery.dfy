/** Results are delivered at least once, and how many times exactly is accounted for. */
module Delivery {
  import opened Base
  import opened FiniteSums
  import opened Pipeline
  import Box = ResultInbox

  function TakenBy(h: multiset<Event>, e: Id): Id -> real {
    d => h[Taken(d, e)] as real
  }

  function AppliedBy(h: multiset<Event>, e: Id): Id -> real {
    d => h[Applied(d, e)] as real
  }

  /** How often an envelope was leased, and applied, by any dispatcher. */
  ghost function TimesTaken(s: World, e: Id): real {
    Sum(s.dispatchers.Keys, TakenBy(s.hist, e))
  }

  ghost function TimesApplied(s: World, e: Id): real {
    Sum(s.dispatchers.Keys, AppliedBy(s.hist, e))
  }

  // ---------------------------------------------------------------- invariant

  /** Leases and reclaims of an envelope balance. */
  predicate LeasesBalance(item: Box.Item, taken: real, reclaimed: nat) {
    taken == reclaimed as real + if item.state.Pending? then 0.0 else 1.0
  }

  ghost predicate Balanced(s: World) {
    && (forall e :: e in s.inbox ==> LeasesBalance(s.inbox[e], TimesTaken(s, e), s.hist[ItemReclaimed(e)]))
    && (forall e, d :: e !in s.inbox ==> s.hist[Taken(d, e)] == 0)
    && (forall e :: e !in s.inbox ==> s.hist[ItemReclaimed(e)] == 0)
  }

  /** A dispatcher applies an envelope no more often than it took it. */
  ghost predicate AppliedFromBatch(s: World) {
    forall d, e :: d in s.dispatchers ==> FromBatch(s.hist, d, s.dispatchers[d].batch, e)
  }

  predicate FromBatch(h: multiset<Event>, d: Id, batch: seq<Id>, e: Id) {
    h[Applied(d, e)] + multiset(batch)[e] <= h[Taken(d, e)]
  }

  ghost predicate AppliedBeforeAck(s: World) {
    && (forall d :: d in s.dispatchers && s.dispatchers[d].applied.Some? ==>
                      s.hist[Applied(d, s.dispatchers[d].applied.value)] > 0)
    && (forall e :: e in s.inbox && s.inbox[e].state.Processed? ==> SomeoneApplied(s, e))
  }

  ghost predicate SomeoneApplied(s: World, e: Id) {
    exists d :: d in s.dispatchers && s.hist[Applied(d, e)] > 0
  }

  ghost predicate Inv(s: World) {
    Balanced(s) && AppliedFromBatch(s) && AppliedBeforeAck(s)
  }

  // ---------------------------------------------------------------- steps that do not concern the inbox

  /** Nothing about envelopes changes, except that new ones may arrive and dispatchers may lose what they hold. */
  ghost predicate Aside(s: World, t: World) {
    && t.dispatchers.Keys == s.dispatchers.Keys
    && (forall e :: e in s.inbox ==> e in t.inbox && t.inbox[e] == s.inbox[e])
    && (forall e :: e in t.inbox && e !in s.inbox ==> t.inbox[e].state.Pending?)
    && (forall d, e :: t.hist[Taken(d, e)] == s.hist[Taken(d, e)] && t.hist[Applied(d, e)] == s.hist[Applied(d, e)])
    && (forall e :: t.hist[ItemReclaimed(e)] == s.hist[ItemReclaimed(e)])
    && (forall d :: d in s.dispatchers ==>
            t.dispatchers[d] == s.dispatchers[d] || t.dispatchers[d] == Dispatcher([], None))
  }

  lemma SameTimesTaken(s: World, t: World, e: Id)
    requires t.dispatchers.Keys == s.dispatchers.Keys
    requires forall d :: d in s.dispatchers ==> t.hist[Taken(d, e)] == s.hist[Taken(d, e)]
    ensures TimesTaken(t, e) == TimesTaken(s, e)
  {
    SumCongruent(s.dispatchers.Keys, TakenBy(s.hist, e), TakenBy(t.hist, e));
  }

  lemma NeverTaken(s: World, e: Id)
    requires forall d :: s.hist[Taken(d, e)] == 0
    ensures TimesTaken(s, e) == 0.0
  {
    SumOfZeros(s.dispatchers.Keys, TakenBy(s.hist, e));
  }

  /** Nothing has happened to an envelope that would show in its balance. */
  lemma SameBalance(s: World, t: World, e: Id)
    requires Balanced(s) && e in s.inbox && e in t.inbox && t.dispatchers.Keys == s.dispatchers.Keys
    requires t.inbox[e].state.Pending? <==> s.inbox[e].state.Pending?
    requires forall d :: d in s.dispatchers ==> t.hist[Taken(d, e)] == s.hist[Taken(d, e)]
    requires t.hist[ItemReclaimed(e)] == s.hist[ItemReclaimed(e)]
    ensures LeasesBalance(t.inbox[e], TimesTaken(t, e), t.hist[ItemReclaimed(e)])
  {
    assert LeasesBalance(s.inbox[e], TimesTaken(s, e), s.hist[ItemReclaimed(e)]);
    SameTimesTaken(s, t, e);
  }

  /** Applications are never forgotten. */
  lemma StillApplied(s: World, t: World, e: Id)
    requires SomeoneApplied(s, e) && t.dispatchers.Keys == s.dispatchers.Keys
    requires forall d :: t.hist[Applied(d, e)] >= s.hist[Applied(d, e)]
    ensures SomeoneApplied(t, e)
  {
    var d :| d in s.dispatchers && s.hist[Applied(d, e)] > 0;
    assert d in t.dispatchers && t.hist[Applied(d, e)] > 0;
  }

  lemma AsideBalanced(s: World, t: World)
    requires Balanced(s) && Aside(s, t)
    ensures Balanced(t)
  {
    forall e | e in t.inbox ensures LeasesBalance(t.inbox[e], TimesTaken(t, e), t.hist[ItemReclaimed(e)]) {
      if e in s.inbox {
        SameBalance(s, t, e);
      } else {
        SameTimesTaken(s, t, e);
        NeverTaken(s, e);
      }
    }
  }

  lemma AsideFromBatch(s: World, t: World)
    requires AppliedFromBatch(s) && Aside(s, t)
    ensures AppliedFromBatch(t)
  {
    forall d, e | d in t.dispatchers
      ensures FromBatch(t.hist, d, t.dispatchers[d].batch, e)
    {
      assert FromBatch(s.hist, d, s.dispatchers[d].batch, e);
    }
  }

  lemma AsideApplications(s: World, t: World)
    requires AppliedBeforeAck(s) && Aside(s, t)
    ensures AppliedBeforeAck(t)
  {
    forall e | e in t.inbox && t.inbox[e].state.Processed? ensures SomeoneApplied(t, e) {
      StillApplied(s, t, e);
    }
  }

  lemma AsideKeeps(s: World, t: World)
    requires Inv(s) && Aside(s, t)
    ensures Inv(t)
  {
    AsideBalanced(s, t);
    AsideFromBatch(s, t);
    AsideApplications(s, t);
  }

  lemma EffectIsAside(s: World, w: Id, a: Action)
    requires CanAct(s, w, a)
    ensures
      var e := EffectOf(s, w, a);
      && (forall x :: x in s.inbox ==> x in e.inbox && e.inbox[x] == s.inbox[x])
      && (forall x :: x in e.inbox && x !in s.inbox ==> e.inbox[x].state.Pending?)
      && (forall d, x :: e.events[Taken(d, x)] == 0 && e.events[Applied(d, x)] == 0)
      && (forall x :: e.events[ItemReclaimed(x)] == 0)
  {
  }

  lemma ActIsAside(s: World, w: Id, a: Action)
    requires CanAct(s, w, a)
    ensures Aside(s, Act(s, w, a))
  {
    EffectIsAside(s, w, a);
  }

  lemma ObeyIsAside(s: World, o: Order)
    requires CanOrder(s, o)
    ensures Aside(s, Obey(s, o))
  {
    assert Obey(s, o).inbox == s.inbox && Obey(s, o).hist == s.hist && Obey(s, o).dispatchers == s.dispatchers;
  }

  lemma SufferIsAside(s: World, i: Incident)
    requires CanHappen(s, i) && !i.ReclaimEnvelope?
    ensures Aside(s, Suffer(s, i))
  {
    assert Suffer(s, i).inbox == s.inbox;
    assert Suffer(s, i).hist == s.hist || i.Reclaim?;
  }

  // ---------------------------------------------------------------- steps that do

  lemma TakeBalanced(s: World, d: Id, e: Id, until: Time)
    requires CanDeliver(s, d, Take(e, until)) && Balanced(s)
    ensures Balanced(DeliverTo(s, d, Take(e, until)))
  {
    var t := DeliverTo(s, d, Take(e, until));
    assert t.dispatchers.Keys == s.dispatchers.Keys;
    forall x | x in t.inbox ensures LeasesBalance(t.inbox[x], TimesTaken(t, x), t.hist[ItemReclaimed(x)]) {
      if x == e {
        assert LeasesBalance(s.inbox[x], TimesTaken(s, x), s.hist[ItemReclaimed(x)]);
        SumUpdate(s.dispatchers.Keys, d, TakenBy(s.hist, e), TakenBy(t.hist, e));
      } else {
        SameBalance(s, t, x);
      }
    }
  }

  lemma TakeFromBatch(s: World, d: Id, e: Id, until: Time)
    requires CanDeliver(s, d, Take(e, until)) && AppliedFromBatch(s)
    ensures AppliedFromBatch(DeliverTo(s, d, Take(e, until)))
  {
    var t := DeliverTo(s, d, Take(e, until));
    forall c, x | c in t.dispatchers
      ensures FromBatch(t.hist, c, t.dispatchers[c].batch, x)
    {
      assert FromBatch(s.hist, c, s.dispatchers[c].batch, x);
    }
  }

  lemma TakeApplied(s: World, d: Id, e: Id, until: Time)
    requires CanDeliver(s, d, Take(e, until)) && AppliedBeforeAck(s)
    ensures AppliedBeforeAck(DeliverTo(s, d, Take(e, until)))
  {
    var t := DeliverTo(s, d, Take(e, until));
    assert t.dispatchers.Keys == s.dispatchers.Keys;
    forall x | x in t.inbox && t.inbox[x].state.Processed? ensures SomeoneApplied(t, x) {
      StillApplied(s, t, x);
    }
  }

  /** The applying dispatcher: what it has applied more, it has less in its batch. */
  lemma HeadFromBatch(h: multiset<Event>, d: Id, batch: seq<Id>, env: Box.Envelope, x: Id)
    requires batch != [] && FromBatch(h, d, batch, x)
    ensures FromBatch(h + AppliedEvents(d, batch[0], env), d, batch[1..], x)
  {
    assert batch == [batch[0]] + batch[1..];
    assert multiset(batch)[x] == multiset(batch[1..])[x] + if x == batch[0] then 1 else 0;
  }

  lemma OthersFromBatch(h: multiset<Event>, d: Id, e: Id, env: Box.Envelope, c: Id, batch: seq<Id>, x: Id)
    requires c != d && FromBatch(h, c, batch, x)
    ensures FromBatch(h + AppliedEvents(d, e, env), c, batch, x)
  {
  }

  lemma ApplyFromBatch(s: World, d: Id, now: Time, id: Id)
    requires CanDeliver(s, d, ApplyNext(now, id)) && AppliedFromBatch(s)
    requires !Raises(s, s.inbox[s.dispatchers[d].batch[0]].envelope)
    ensures AppliedFromBatch(DeliverTo(s, d, ApplyNext(now, id)))
  {
    var t, batch := DeliverTo(s, d, ApplyNext(now, id)), s.dispatchers[d].batch;
    var env := s.inbox[batch[0]].envelope;
    forall c, x | c in t.dispatchers ensures FromBatch(t.hist, c, t.dispatchers[c].batch, x) {
      assert FromBatch(s.hist, c, s.dispatchers[c].batch, x);
      if c == d {
        HeadFromBatch(s.hist, d, batch, env, x);
      } else {
        OthersFromBatch(s.hist, d, batch[0], env, c, s.dispatchers[c].batch, x);
      }
    }
  }

  lemma ApplyHistory(s: World, d: Id, now: Time, id: Id)
    requires CanDeliver(s, d, ApplyNext(now, id))
    ensures
      var t := DeliverTo(s, d, ApplyNext(now, id));
      && t.inbox == s.inbox && t.dispatchers.Keys == s.dispatchers.Keys
      && (forall c, x :: t.hist[Taken(c, x)] == s.hist[Taken(c, x)])
      && (forall x :: t.hist[ItemReclaimed(x)] == s.hist[ItemReclaimed(x)])
      && (forall c, x :: t.hist[Applied(c, x)] >= s.hist[Applied(c, x)])
  {
  }

  lemma ApplyBalanced(s: World, t: World)
    requires Balanced(s) && t.inbox == s.inbox && t.dispatchers.Keys == s.dispatchers.Keys
    requires forall c, x :: t.hist[Taken(c, x)] == s.hist[Taken(c, x)]
    requires forall x :: t.hist[ItemReclaimed(x)] == s.hist[ItemReclaimed(x)]
    ensures Balanced(t)
  {
    forall x | x in t.inbox ensures LeasesBalance(t.inbox[x], TimesTaken(t, x), t.hist[ItemReclaimed(x)]) {
      SameBalance(s, t, x);
    }
  }

  lemma ApplyApplications(s: World, d: Id, now: Time, id: Id)
    requires CanDeliver(s, d, ApplyNext(now, id)) && AppliedBeforeAck(s)
    requires !Raises(s, s.inbox[s.dispatchers[d].batch[0]].envelope)
    ensures AppliedBeforeAck(DeliverTo(s, d, ApplyNext(now, id)))
  {
    var t := DeliverTo(s, d, ApplyNext(now, id));
    ApplyHistory(s, d, now, id);
    forall x | x in t.inbox && t.inbox[x].state.Processed? ensures SomeoneApplied(t, x) {
      StillApplied(s, t, x);
    }
  }

  lemma RaiseIsAside(s: World, d: Id, now: Time, id: Id)
    requires CanDeliver(s, d, ApplyNext(now, id)) && Raises(s, s.inbox[s.dispatchers[d].batch[0]].envelope)
    ensures Aside(s, DeliverTo(s, d, ApplyNext(now, id)))
  {
  }

  lemma AckBalanced(s: World, d: Id)
    requires CanDeliver(s, d, AckApplied) && Balanced(s)
    ensures Balanced(DeliverTo(s, d, AckApplied))
  {
    var t := DeliverTo(s, d, AckApplied);
    assert t.inbox.Keys == s.inbox.Keys && t.dispatchers.Keys == s.dispatchers.Keys;
    forall x | x in t.inbox ensures LeasesBalance(t.inbox[x], TimesTaken(t, x), t.hist[ItemReclaimed(x)]) {
      SameBalance(s, t, x);
    }
  }

  lemma AckFromBatch(s: World, d: Id)
    requires CanDeliver(s, d, AckApplied) && AppliedFromBatch(s)
    ensures AppliedFromBatch(DeliverTo(s, d, AckApplied))
  {
    var t := DeliverTo(s, d, AckApplied);
    forall c, x | c in t.dispatchers
      ensures FromBatch(t.hist, c, t.dispatchers[c].batch, x)
    {
      assert FromBatch(s.hist, c, s.dispatchers[c].batch, x);
    }
  }

  lemma AckApplications(s: World, d: Id)
    requires CanDeliver(s, d, AckApplied) && AppliedBeforeAck(s)
    ensures AppliedBeforeAck(DeliverTo(s, d, AckApplied))
  {
    var t := DeliverTo(s, d, AckApplied);
    assert t.hist == s.hist && t.dispatchers.Keys == s.dispatchers.Keys;
    assert SomeoneApplied(s, s.dispatchers[d].applied.value);
    forall x | x in t.inbox && t.inbox[x].state.Processed? ensures SomeoneApplied(t, x) {
      StillApplied(s, t, x);
    }
  }

  lemma ReclaimedBalance(s: World, e: Id, now: Time)
    requires Balanced(s) && e in s.inbox
    ensures
      var t := Suffer(s, ReclaimEnvelope(e, now));
      LeasesBalance(t.inbox[e], TimesTaken(t, e), t.hist[ItemReclaimed(e)])
  {
    assert LeasesBalance(s.inbox[e], TimesTaken(s, e), s.hist[ItemReclaimed(e)]);
    SameTimesTaken(s, Suffer(s, ReclaimEnvelope(e, now)), e);
  }

  lemma ReclaimBalanced(s: World, e: Id, now: Time)
    requires Balanced(s)
    ensures Balanced(Suffer(s, ReclaimEnvelope(e, now)))
  {
    var t := Suffer(s, ReclaimEnvelope(e, now));
    assert t.inbox.Keys == s.inbox.Keys && t.dispatchers == s.dispatchers;
    forall x | x in t.inbox ensures LeasesBalance(t.inbox[x], TimesTaken(t, x), t.hist[ItemReclaimed(x)]) {
      if x == e {
        ReclaimedBalance(s, e, now);
      } else {
        SameBalance(s, t, x);
      }
    }
  }

  lemma ReclaimApplications(s: World, e: Id, now: Time)
    requires AppliedFromBatch(s) && AppliedBeforeAck(s)
    ensures AppliedFromBatch(Suffer(s, ReclaimEnvelope(e, now))) && AppliedBeforeAck(Suffer(s, ReclaimEnvelope(e, now)))
  {
    var t := Suffer(s, ReclaimEnvelope(e, now));
    assert t.dispatchers == s.dispatchers;
    forall d, x | d in t.dispatchers ensures FromBatch(t.hist, d, t.dispatchers[d].batch, x) {
      assert FromBatch(s.hist, d, s.dispatchers[d].batch, x);
    }
    forall x | x in t.inbox && t.inbox[x].state.Processed? ensures SomeoneApplied(t, x) {
      StillApplied(s, t, x);
    }
  }

  lemma DeliverKeeps(s: World, d: Id, b: Delivery)
    requires Inv(s) && CanDeliver(s, d, b)
    ensures Inv(DeliverTo(s, d, b))
  {
    match b
    case Take(e, until) =>
      TakeBalanced(s, d, e, until);
      TakeFromBatch(s, d, e, until);
      TakeApplied(s, d, e, until);
    case ApplyNext(now, id) =>
      if Raises(s, s.inbox[s.dispatchers[d].batch[0]].envelope) {
        RaiseIsAside(s, d, now, id);
        AsideKeeps(s, DeliverTo(s, d, b));
      } else {
        ApplyFromBatch(s, d, now, id);
        ApplyHistory(s, d, now, id);
        ApplyBalanced(s, DeliverTo(s, d, b));
        ApplyApplications(s, d, now, id);
      }
    case AckApplied =>
      AckBalanced(s, d);
      AckFromBatch(s, d);
      AckApplications(s, d);
    case EndRound => AsideKeeps(s, DeliverTo(s, d, b));
  }

  lemma StepKeeps(s: World, l: Label)
    requires Inv(s) && Enabled(s, l)
    ensures Inv(Step(s, l))
  {
    match l
    case Work(w, a) =>
      ActIsAside(s, w, a);
      AsideKeeps(s, Act(s, w, a));
    case Orchestrate(o) =>
      ObeyIsAside(s, o);
      AsideKeeps(s, Obey(s, o));
    case Deliver(d, b) =>
      DeliverKeeps(s, d, b);
    case Happen(i) =>
      if i.ReclaimEnvelope? {
        ReclaimBalanced(s, i.envelope, i.now);
        ReclaimApplications(s, i.envelope, i.now);
      } else {
        SufferIsAside(s, i);
        AsideKeeps(s, Suffer(s, i));
      }
  }

  lemma {:induction false} RunKeeps(s: World, ls: seq<Label>)
    requires Init(s) && Exec(s, ls).Some?
    ensures Inv(Exec(s, ls).value)
    decreases |ls|
  {
    if ls != [] {
      RunKeeps(s, ls[..|ls| - 1]);
      StepKeeps(Exec(s, ls[..|ls| - 1]).value, ls[|ls| - 1]);
    }
  }

  // ---------------------------------------------------------------- results

  /** For every envelope of every run: it was leased once more than it was reclaimed unless it is pending, it was
      applied no more than once per lease, and if it counts as processed it was applied. */
  lemma DeliveryIsAccounted(s: World, ls: seq<Label>, e: Id)
    requires Init(s) && Exec(s, ls).Some? && e in Exec(s, ls).value.inbox
    ensures
      var t := Exec(s, ls).value;
      && TimesTaken(t, e) == t.hist[ItemReclaimed(e)] as real + (if t.inbox[e].state.Pending? then 0.0 else 1.0)
      && TimesApplied(t, e) <= 1.0 + t.hist[ItemReclaimed(e)] as real
      && (t.inbox[e].state.Processed? ==> TimesApplied(t, e) >= 1.0)
  {
    var t := Exec(s, ls).value;
    RunKeeps(s, ls);
    assert LeasesBalance(t.inbox[e], TimesTaken(t, e), t.hist[ItemReclaimed(e)]);
    AppliedAtMostTaken(t, e);
    if t.inbox[e].state.Processed? {
      assert SomeoneApplied(t, e);
      var d :| d in t.dispatchers && t.hist[Applied(d, e)] > 0;
      SummandAtMost(t.dispatchers.Keys, d, AppliedBy(t.hist, e));
    }
  }

  lemma AppliedAtMostTaken(t: World, e: Id)
    requires AppliedFromBatch(t)
    ensures TimesApplied(t, e) <= TimesTaken(t, e)
  {
    forall d | d in t.dispatchers.Keys ensures AppliedBy(t.hist, e)(d) <= TakenBy(t.hist, e)(d) {
      assert FromBatch(t.hist, d, t.dispatchers[d].batch, e);
    }
    SumMonotone(t.dispatchers.Keys, AppliedBy(t.hist, e), TakenBy(t.hist, e));
  }

  /** No step ever drops an envelope or changes what it says. */
  lemma EnvelopesAreKept(s: World, l: Label, e: Id)
    requires Enabled(s, l) && e in s.inbox
    ensures e in Step(s, l).inbox && Step(s, l).inbox[e].envelope == s.inbox[e].envelope
  {
    match l
    case Work(w, a) => EffectIsAside(s, w, a);
    case Orchestrate(o) => ObeyFrame(s, o);
    case Deliver(d, b) => DeliverFrame(s, d, b);
    case Happen(i) => SufferKeepsEnvelopes(s, i, e);
  }

  lemma SufferKeepsEnvelopes(s: World, i: Incident, e: Id)
    requires CanHappen(s, i) && e in s.inbox
    ensures e in Suffer(s, i).inbox && Suffer(s, i).inbox[e].envelope == s.inbox[e].envelope
  {
    SufferFrame(s, i);
  }
}
