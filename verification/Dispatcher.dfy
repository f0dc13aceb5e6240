/** The result dispatcher as a program: one round of `run_once` takes exactly the moves of the transition system that
    are written out below, and these are a path of it.
 */
module Dispatching {
  import opened Base
  import opened Budget
  import opened Paths
  import opened Pipeline
  import Orchestrator
  import Box = ResultInbox

  datatype DispatcherConfig = DispatcherConfig(batchSize: nat, visibility: int, slaMs: int)

  /** Clock readings around one application. */
  datatype Clock = Clock(checkedAt: Time, appliedAt: Time)

  // ---------------------------------------------------------------- store loops as paths

  function Ids(items: seq<Box.Item>): (ids: seq<Box.EnvelopeId>)
    ensures |ids| == |items|
  {
    seq(|items|, i requires 0 <= i < |items| => items[i].id)
  }

  function TakeLabels(d: Box.DispatcherId, items: seq<Box.Item>, until: Time): seq<Label> {
    seq(|items|, i requires 0 <= i < |items| => Deliver(d, Take(items[i].id, until)))
  }

  lemma TakeLabelsAppend(d: Box.DispatcherId, items: seq<Box.Item>, until: Time)
    requires items != []
    ensures TakeLabels(d, items, until)
            == TakeLabels(d, items[..|items| - 1], until) + [Deliver(d, Take(items[|items| - 1].id, until))]
  {
  }

  lemma {:induction false} LeaseLeavesOthers(inbox: Box.Inbox, items: seq<Box.Item>, d: Box.DispatcherId, until: Time,
                                             e: Box.EnvelopeId)
    requires forall i :: 0 <= i < |items| ==> items[i].id in inbox && items[i].id != e
    requires e in inbox
    ensures Box.LeaseItems(inbox, items, d, until)[e] == inbox[e]
    decreases |items|
  {
    if items != [] {
      LeaseLeavesOthers(inbox, items[..|items| - 1], d, until, e);
    }
  }

  ghost predicate SameEnvelopes(s: World, t: World) {
    t.cfg == s.cfg && forall e :: e in s.inbox ==> e in t.inbox && t.inbox[e].envelope == s.inbox[e].envelope
  }

  /** The budget and the queue as they were. */
  predicate SameTarget(s: World, t: World) {
    t.cfg == s.cfg && t.budget == s.budget && t.queue == s.queue
  }

  lemma TakeOne(d: Box.DispatcherId, s: World, e: Box.EnvelopeId, until: Time)
    requires d in s.dispatchers && s.dispatchers[d].applied.None? && e in s.inbox && s.inbox[e].state.Pending?
    ensures
      var t := Step(s, Deliver(d, Take(e, until)));
      t == s.(inbox := Box.LeaseItem(s.inbox, e, d, until), hist := t.hist,
              dispatchers := s.dispatchers[d := Dispatcher(s.dispatchers[d].batch + [e], None)])
  {
  }

  lemma LastStaysPending(inbox: Box.Inbox, items: seq<Box.Item>, d: Box.DispatcherId, until: Time)
    requires items != [] && Box.Leasable(inbox, items)
    ensures
      var front, last := items[..|items| - 1], items[|items| - 1];
      && Box.Leasable(inbox, front)
      && last.id in inbox && Box.LeasedInbox(inbox, front, d, until)[last.id] == last && last.state.Pending?
  {
    LeaseLeavesOthers(inbox, items[..|items| - 1], d, until, items[|items| - 1].id);
  }

  lemma IdsAppend(items: seq<Box.Item>)
    requires items != []
    ensures Ids(items) == Ids(items[..|items| - 1]) + [items[|items| - 1].id]
  {
  }

  /** Leasing a batch is taking its envelopes one after another. */
  lemma {:induction false} TakePath(d: Box.DispatcherId, s: World, items: seq<Box.Item>, until: Time)
    returns (ls: seq<Label>, t: World)
    requires d in s.dispatchers && s.dispatchers[d] == Dispatcher([], None) && Box.Leasable(s.inbox, items)
    ensures ls == TakeLabels(d, items, until) && Path(ByDispatcher(d), s, ls, t)
    ensures t == s.(inbox := Box.LeasedInbox(s.inbox, items, d, until), hist := t.hist,
                    dispatchers := s.dispatchers[d := Dispatcher(Ids(items), None)])
    decreases |items|
  {
    if items == [] {
      ls, t := [], s;
      PathStays(ByDispatcher(d), s);
      assert Ids(items) == [];
      assert s.dispatchers[d := Dispatcher([], None)] == s.dispatchers;
    } else {
      var n := |items| - 1;
      LastStaysPending(s.inbox, items, d, until);
      var before, mid := TakePath(d, s, items[..n], until);
      var l := Deliver(d, Take(items[n].id, until));
      TakeOne(d, mid, items[n].id, until);
      PathStep(ByDispatcher(d), s, before, mid, l);
      ls, t := before + [l], Step(mid, l);
      IdsAppend(items);
      TakeLabelsAppend(d, items, until);
      assert s.dispatchers[d := Dispatcher(Ids(items[..n]), None)][d := Dispatcher(Ids(items), None)]
             == s.dispatchers[d := Dispatcher(Ids(items), None)];
    }
  }

  lemma {:induction false} LeaseKeepsEnvelopes(inbox: Box.Inbox, items: seq<Box.Item>, d: Box.DispatcherId, until: Time)
    requires forall i :: 0 <= i < |items| ==> items[i].id in inbox
    ensures forall e :: e in inbox ==> Box.LeaseItems(inbox, items, d, until)[e].envelope == inbox[e].envelope
    decreases |items|
  {
    if items != [] {
      LeaseKeepsEnvelopes(inbox, items[..|items| - 1], d, until);
    }
  }

  /** r is the inbox with its oldest pending items leased to d. */
  ghost predicate OldestLeased(inbox: Box.Inbox, r: Box.Inbox, d: Box.DispatcherId, order: seq<Box.EnvelopeId>,
                               batch: nat, items: seq<Box.Item>, until: Time)
  {
    && items == Box.OldestPending(inbox, order, batch) && (forall i :: 0 <= i < |items| ==> items[i].id in inbox)
    && r == Box.LeasedInbox(inbox, items, d, until)
  }

  lemma OldestPath(d: Box.DispatcherId, s: World, order: seq<Box.EnvelopeId>, batch: nat, items: seq<Box.Item>,
                   until: Time, r: Box.Inbox) returns (t: World)
    requires d in s.dispatchers && s.dispatchers[d] == Dispatcher([], None) && Box.OwnIds(s.inbox)
    requires NoDuplicates(order)
    requires OldestLeased(s.inbox, r, d, order, batch, items, until)
    ensures Box.Leasable(s.inbox, items) && Path(ByDispatcher(d), s, TakeLabels(d, items, until), t)
    ensures t.inbox == r && SameTarget(s, t) && SameEnvelopes(s, t)
    ensures d in t.dispatchers && t.dispatchers[d] == Dispatcher(Ids(items), None)
  {
    Box.OldestAreLeasable(s.inbox, order, batch);
    LeaseKeepsEnvelopes(s.inbox, items, d, until);
    var ls;
    ls, t := TakePath(d, s, items, until);
  }

  /** The leased copies say what the inbox says. */
  ghost predicate Carries(s: World, items: seq<Box.Item>) {
    forall i :: 0 <= i < |items| ==>
                  items[i].id in s.inbox && s.inbox[items[i].id].envelope == items[i].envelope
                  && items[i].envelope.reservation.Some?
  }

  lemma StillCarries(s: World, t: World, items: seq<Box.Item>)
    requires Carries(s, items) && SameEnvelopes(s, t)
    ensures Carries(t, items)
  {
  }

  lemma {:induction false} ReclaimKeepsEnvelopes(inbox: Box.Inbox, order: seq<Box.EnvelopeId>, now: Time)
    ensures forall e :: e in inbox ==> Box.ReclaimItems(inbox, order, now)[e].envelope == inbox[e].envelope
    decreases |order|
  {
    if order != [] {
      ReclaimKeepsEnvelopes(inbox, order[..|order| - 1], now);
    }
  }

  ghost predicate AllReserve(inbox: Box.Inbox) {
    forall e :: e in inbox ==> inbox[e].envelope.reservation.Some?
  }

  lemma ItemsCarried(s: World, ready: World, taken: World, items: seq<Box.Item>, order: seq<Box.EnvelopeId>, now: Time)
    requires AllReserve(s.inbox) && ready.inbox == Box.ReclaimItems(s.inbox, order, now)
    requires Box.Leasable(ready.inbox, items) && SameEnvelopes(ready, taken)
    ensures Carries(taken, items)
  {
    ReclaimKeepsEnvelopes(s.inbox, order, now);
  }

  // ---------------------------------------------------------------- the moves of a round, written out

  /** Applying an envelope uses up an event id exactly when it rolls a reservation back within the limit. */
  function IdAfter(limit: real, env: Box.Envelope, id: Id): Id {
    if RollsBack(env) && Magnitude(Negate(env.reservation.value)) <= limit then id + 1 else id
  }

  function IdAfterAll(limit: real, items: seq<Box.Item>, id: Id): Id {
    if items == [] then id
    else IdAfter(limit, items[|items| - 1].envelope, IdAfterAll(limit, items[..|items| - 1], id))
  }

  /** Apply and acknowledge, item after item; `id` is the first event id. */
  function ApplyLabels(d: Box.DispatcherId, limit: real, items: seq<Box.Item>, cs: nat -> Clock, id: Id): seq<Label> {
    if items == [] then []
    else
      var n := |items| - 1;
      ApplyLabels(d, limit, items[..n], cs, id)
      + [Deliver(d, ApplyNext(cs(n).appliedAt, IdAfterAll(limit, items[..n], id))), Deliver(d, AckApplied)]
  }

  /** The loop over leased items: it applies the first `applied` of them, and then either comes to an end, which lets
      go of what is left, or raises on the next one. */
  function LoopLabels(d: Box.DispatcherId, limit: real, items: seq<Box.Item>, applied: nat, ok: bool,
                      cs: nat -> Clock, id: Id): seq<Label>
    requires applied <= |items|
  {
    ApplyLabels(d, limit, items[..applied], cs, id)
    + [Deliver(d, if ok then EndRound else ApplyNext(cs(applied).appliedAt, IdAfterAll(limit, items[..applied], id)))]
  }

  lemma OneMoreApplied(d: Box.DispatcherId, limit: real, items: seq<Box.Item>, n: nat, cs: nat -> Clock, id: Id)
    requires n < |items|
    ensures ApplyLabels(d, limit, items[..n + 1], cs, id)
            == ApplyLabels(d, limit, items[..n], cs, id)
               + [Deliver(d, ApplyNext(cs(n).appliedAt, IdAfterAll(limit, items[..n], id))), Deliver(d, AckApplied)]
    ensures IdAfterAll(limit, items[..n + 1], id)
            == IdAfter(limit, items[n].envelope, IdAfterAll(limit, items[..n], id))
  {
    assert items[..n + 1][..n] == items[..n];
  }

  /** How far the loop gets: to the end of the batch or to the stop, unless an item before that raises. */
  ghost predicate Reaches(cfg: Config, items: seq<Box.Item>, stopAt: nat, ok: bool, applied: nat) {
    && applied <= |items| && applied <= stopAt && NoneRaises(cfg, items, applied)
    && (if ok then applied == MinI(|items|, stopAt)
        else applied < |items| && applied < stopAt && OverLimit(cfg, items[applied].envelope))
  }

  /** Applying this envelope raises. */
  predicate OverLimit(cfg: Config, env: Box.Envelope) {
    cfg.failFast && RollsBack(env) && Magnitude(Negate(env.reservation.value)) > cfg.limit
  }

  predicate NoneRaises(cfg: Config, items: seq<Box.Item>, n: nat)
    requires n <= |items|
  {
    forall i :: 0 <= i < n ==> !OverLimit(cfg, items[i].envelope)
  }

  /** One more item applied: the first n + 1 have not raised, or the loop ends here. */
  lemma OneMoreReached(cfg: Config, items: seq<Box.Item>, n: nat, stopAt: nat, ok: bool)
    requires n < |items| && n < stopAt && NoneRaises(cfg, items, n) && ok == !OverLimit(cfg, items[n].envelope)
    ensures if ok then NoneRaises(cfg, items, n + 1) else Reaches(cfg, items, stopAt, ok, n)
  {
  }

  // ---------------------------------------------------------------- late results

  function Latency(env: Box.Envelope, c: Clock): int {
    c.checkedAt - env.receivedAt
  }

  /** What one application adds to the violations, in microseconds. */
  function Late(env: Box.Envelope, c: Clock, slaMs: int): seq<int> {
    if Latency(env, c) > slaMs * 1000 then [Latency(env, c)] else []
  }

  /** The violations after these applications, one after another. */
  function Logged(before: seq<int>, items: seq<Box.Item>, cs: nat -> Clock, slaMs: int): seq<int> {
    if items == [] then before
    else
      var n := |items| - 1;
      Logged(before, items[..n], cs, slaMs) + Late(items[n].envelope, cs(n), slaMs)
  }

  lemma OneMore(before: seq<int>, items: seq<Box.Item>, n: nat, cs: nat -> Clock, slaMs: int)
    requires n < |items|
    ensures Logged(before, items[..n + 1], cs, slaMs)
            == Logged(before, items[..n], cs, slaMs) + Late(items[n].envelope, cs(n), slaMs)
  {
    assert items[..n + 1][..n] == items[..n];
  }

  /** What a dispatcher has to show for a number of applications: its moves, the next event id, the violations. */
  datatype Tally = Tally(ls: seq<Label>, nextId: Id, late: seq<int>)

  function TallyOf(d: Box.DispatcherId, limit: real, slaMs: int, items: seq<Box.Item>, cs: nat -> Clock,
                   before: Tally): Tally
  {
    Tally(ApplyLabels(d, limit, items, cs, before.nextId), IdAfterAll(limit, items, before.nextId),
          Logged(before.late, items, cs, slaMs))
  }

  function TallyAfter(d: Box.DispatcherId, limit: real, slaMs: int, item: Box.Item, c: Clock, before: Tally): Tally {
    Tally(before.ls + [Deliver(d, ApplyNext(c.appliedAt, before.nextId)), Deliver(d, AckApplied)],
          IdAfter(limit, item.envelope, before.nextId), before.late + Late(item.envelope, c, slaMs))
  }

  function RaisedTally(d: Box.DispatcherId, slaMs: int, item: Box.Item, c: Clock, before: Tally): Tally {
    before.(ls := before.ls + [Deliver(d, ApplyNext(c.appliedAt, before.nextId))],
            late := before.late + Late(item.envelope, c, slaMs))
  }

  lemma TallyGrows(d: Box.DispatcherId, limit: real, slaMs: int, items: seq<Box.Item>, n: nat, cs: nat -> Clock,
                   before: Tally)
    requires n < |items|
    ensures TallyOf(d, limit, slaMs, items[..n + 1], cs, before)
            == TallyAfter(d, limit, slaMs, items[n], cs(n), TallyOf(d, limit, slaMs, items[..n], cs, before))
  {
    OneMoreApplied(d, limit, items, n, cs, before.nextId);
    OneMore(before.late, items, n, cs, slaMs);
  }

  /** The tally of the loop: the applications, and, when it raises, the move that does. */
  ghost predicate Shows(tally: Tally, d: Box.DispatcherId, limit: real, slaMs: int, items: seq<Box.Item>,
                        applied: nat, ok: bool, cs: nat -> Clock, before: Tally)
  {
    && (ok ==> applied <= |items| && tally == TallyOf(d, limit, slaMs, items[..applied], cs, before))
    && (!ok ==>
          && applied < |items|
          && tally == RaisedTally(d, slaMs, items[applied], cs(applied),
                                  TallyOf(d, limit, slaMs, items[..applied], cs, before))
                && tally.late == Logged(before.late, items[..applied + 1], cs, slaMs))
  }

  lemma OneMoreShown(tally: Tally, next: Tally, d: Box.DispatcherId, limit: real, slaMs: int, items: seq<Box.Item>,
                     n: nat, ok: bool, cs: nat -> Clock, before: Tally)
    requires n < |items| && Shows(tally, d, limit, slaMs, items, n, true, cs, before)
    requires next
             == if ok then TallyAfter(d, limit, slaMs, items[n], cs(n), tally)
                else RaisedTally(d, slaMs, items[n], cs(n), tally)
    ensures Shows(next, d, limit, slaMs, items, if ok then n + 1 else n, ok, cs, before)
  {
    TallyGrows(d, limit, slaMs, items, n, cs, before);
  }

  // ---------------------------------------------------------------- the mutable object

  class ResultDispatcherService {
    const id: Box.DispatcherId
    const config: DispatcherConfig
    const inbox: Box.InMemoryExecutionResultInbox
    const target: Orchestrator.StrategicOrchestrator
    var slaViolations: seq<int>

    constructor (id: Box.DispatcherId, config: DispatcherConfig, inbox: Box.InMemoryExecutionResultInbox,
                 target: Orchestrator.StrategicOrchestrator)
      ensures this.id == id && this.config == config && this.inbox == inbox && this.target == target
      ensures slaViolations == []
    {
      this.id, this.config, this.inbox, this.target := id, config, inbox, target;
      slaViolations := [];
    }

    /** The world shows this inbox, and this dispatcher where it is. */
    ghost predicate InboxAt(s: World, disp: Dispatcher)
      reads this, inbox
    {
      s.inbox == inbox.items && inbox.Valid() && id in s.dispatchers && s.dispatchers[id] == disp
    }

    ghost predicate At(s: World, disp: Dispatcher)
      reads this, inbox, target, target.ledger, target.backend, target.queue
    {
      target.At(s) && InboxAt(s, disp)
    }

    /** `_apply_one` without the acknowledgement; not ok means that it raised. */
    method ApplyOne(item: Box.Item, c: Clock, ghost s: World)
      returns (ok: bool, ghost t: World, ghost l: Label)
      requires id in s.dispatchers && At(s, Dispatcher(s.dispatchers[id].batch, None))
      requires s.dispatchers[id].batch != [] && s.dispatchers[id].batch[0] == item.id
      requires item.id in s.inbox && s.inbox[item.id].envelope == item.envelope && item.envelope.reservation.Some?
      modifies this`slaViolations, target`budget, target`nextEventId, target`pendingFeedback, target`pendingMeta,
               target.ledger, target.backend
      ensures ok == !Raises(s, item.envelope)
      ensures slaViolations == old(slaViolations) + Late(item.envelope, c, config.slaMs)
      ensures l == Deliver(id, ApplyNext(c.appliedAt, old(target.nextEventId)))
      ensures target.nextEventId == IdAfter(target.limit, item.envelope, old(target.nextEventId))
      ensures Enabled(s, l) && t == Step(s, l) && t.inbox == s.inbox
      ensures At(t, if ok then Dispatcher(s.dispatchers[id].batch[1..], Some(item.id)) else Dispatcher([], None))
    {
      NoteLateness(item, c);
      l := Deliver(id, ApplyNext(c.appliedAt, target.nextEventId));
      t := Step(s, l);
      ok := target.PostExecutionPipeline(Orchestrator.ReportOf(item.envelope), c.appliedAt);
    }

    method NoteLateness(item: Box.Item, c: Clock)
      modifies this`slaViolations
      ensures slaViolations == old(slaViolations) + Late(item.envelope, c, config.slaMs)
    {
      var latency := c.checkedAt - item.envelope.receivedAt;
      if latency > config.slaMs * 1000 {
        slaViolations := slaViolations + [latency];
      }
    }

    /** Apply and acknowledge the head of the batch. */
    method ApplyAndAck(item: Box.Item, c: Clock, ghost s: World)
      returns (ok: bool, ghost ls: seq<Label>, ghost t: World)
      requires id in s.dispatchers && At(s, Dispatcher(s.dispatchers[id].batch, None))
      requires s.dispatchers[id].batch != [] && s.dispatchers[id].batch[0] == item.id
      requires item.id in s.inbox && s.inbox[item.id].envelope == item.envelope && item.envelope.reservation.Some?
      modifies this`slaViolations, target`budget, target`nextEventId, target`pendingFeedback, target`pendingMeta,
               target.ledger, target.backend, inbox`items
      ensures ok == !Raises(s, item.envelope) && Path(ByDispatcher(id), s, ls, t)
      ensures
        var apply := Deliver(id, ApplyNext(c.appliedAt, old(target.nextEventId)));
        ls == if ok then [apply, Deliver(id, AckApplied)] else [apply]
      ensures target.nextEventId == IdAfter(target.limit, item.envelope, old(target.nextEventId))
      ensures slaViolations == old(slaViolations) + Late(item.envelope, c, config.slaMs)
      ensures At(t, Dispatcher(if ok then s.dispatchers[id].batch[1..] else [], None))
      ensures SameEnvelopes(s, t)
    {
      ghost var l;
      ok, t, l := ApplyOne(item, c, s);
      PathOne(ByDispatcher(id), s, l);
      ls := [l];
      if ok {
        ghost var applied, ack := t, Deliver(id, AckApplied);
        var _ := inbox.Ack(item.id, id);
        t := Step(applied, ack);
        PathStep(ByDispatcher(id), s, ls, applied, ack);
        ls := ls + [ack];
      }
    }

    method ApplyNth(items: seq<Box.Item>, n: nat, c: Clock, ghost s: World)
      returns (ok: bool, ghost ls: seq<Label>, ghost t: World)
      requires n < |items| && id in s.dispatchers && At(s, Dispatcher(Ids(items)[n..], None)) && Carries(s, items)
      modifies this`slaViolations, target`budget, target`nextEventId, target`pendingFeedback, target`pendingMeta,
               target.ledger, target.backend, inbox`items
      ensures ok == !OverLimit(s.cfg, items[n].envelope) && Path(ByDispatcher(id), s, ls, t)
      ensures
        var apply := Deliver(id, ApplyNext(c.appliedAt, old(target.nextEventId)));
        ls == if ok then [apply, Deliver(id, AckApplied)] else [apply]
      ensures target.nextEventId == IdAfter(target.limit, items[n].envelope, old(target.nextEventId))
      ensures slaViolations == old(slaViolations) + Late(items[n].envelope, c, config.slaMs)
      ensures At(t, Dispatcher(if ok then Ids(items)[n + 1..] else [], None)) && Carries(t, items) && t.cfg == s.cfg
    {
      assert Ids(items)[n..][0] == items[n].id;
      assert Ids(items)[n..][1..] == Ids(items)[n + 1..];
      ok, ls, t := ApplyAndAck(items[n], c, s);
      StillCarries(s, t, items);
    }

    /** One more turn of the loop, on top of what led to it. */
    method ApplyFurther(items: seq<Box.Item>, n: nat, c: Clock, ghost s: World, ghost ls: seq<Label>, ghost t: World)
      returns (ok: bool, ghost more: seq<Label>, ghost next: World)
      requires Path(ByDispatcher(id), s, ls, t)
      requires n < |items| && id in t.dispatchers && At(t, Dispatcher(Ids(items)[n..], None)) && Carries(t, items)
      modifies this`slaViolations, target`budget, target`nextEventId, target`pendingFeedback, target`pendingMeta,
               target.ledger, target.backend, inbox`items
      ensures ok == !OverLimit(t.cfg, items[n].envelope) && Path(ByDispatcher(id), s, more, next)
      ensures
        var before := Tally(ls, old(target.nextEventId), old(slaViolations));
        var after := Tally(more, target.nextEventId, slaViolations);
        if ok then after == TallyAfter(id, target.limit, config.slaMs, items[n], c, before)
        else after == RaisedTally(id, config.slaMs, items[n], c, before)
      ensures At(next, Dispatcher(if ok then Ids(items)[n + 1..] else [], None)) && Carries(next, items)
      ensures next.cfg == t.cfg
    {
      ghost var step;
      ok, step, next := ApplyNth(items, n, c, t);
      PathJoin(ByDispatcher(id), s, ls, t, step, next);
      more := ls + step;
    }

    /** Where the loop is after `n` applications, none of which has raised. */
    ghost predicate LoopAt(items: seq<Box.Item>, n: nat, cs: nat -> Clock, before: Tally, s: World, ls: seq<Label>,
                           t: World)
      reads this, inbox, target, target.ledger, target.backend, target.queue
    {
      && n <= |items| && NoneRaises(s.cfg, items, n)
      && Path(ByDispatcher(id), s, ls, t) && At(t, Dispatcher(Ids(items)[n..], None)) && Carries(t, items)
      && t.cfg == s.cfg
      && Shows(Tally(ls, target.nextEventId, slaViolations), id, target.limit, config.slaMs, items, n, true, cs, before)
    }

    /** Where it ends: at `n`, or because the next application has raised. */
    ghost predicate LoopEnds(items: seq<Box.Item>, n: nat, ok: bool, cs: nat -> Clock, before: Tally, s: World,
                             ls: seq<Label>, t: World)
      reads this, inbox, target, target.ledger, target.backend, target.queue
    {
      && n <= |items| && Path(ByDispatcher(id), s, ls, t) && At(t, Dispatcher(if ok then Ids(items)[n..] else [], None))
      && Shows(Tally(ls, target.nextEventId, slaViolations), id, target.limit, config.slaMs, items, n, ok, cs, before)
    }

    method Turn(items: seq<Box.Item>, n: nat, cs: nat -> Clock, stopAt: nat, ghost before: Tally,
                ghost s: World, ghost ls: seq<Label>, ghost t: World)
      returns (ok: bool, ghost more: seq<Label>, ghost next: World)
      requires n < |items| && n < stopAt && LoopAt(items, n, cs, before, s, ls, t)
      modifies this`slaViolations, target`budget, target`nextEventId, target`pendingFeedback, target`pendingMeta,
               target.ledger, target.backend, inbox`items
      ensures ok ==> LoopAt(items, n + 1, cs, before, s, more, next)
      ensures !ok ==> LoopEnds(items, n, false, cs, before, s, more, next) && Reaches(s.cfg, items, stopAt, false, n)
    {
      ghost var tally := Tally(ls, target.nextEventId, slaViolations);
      ok, more, next := ApplyFurther(items, n, cs(n), s, ls, t);
      OneMoreReached(s.cfg, items, n, stopAt, ok);
      OneMoreShown(tally, Tally(more, target.nextEventId, slaViolations), id, target.limit, config.slaMs, items, n, ok,
                   cs, before);
    }

    method ApplyLoop(items: seq<Box.Item>, cs: nat -> Clock, stopAt: nat, ghost s: World)
      returns (ok: bool, applied: nat, ghost ls: seq<Label>, ghost t: World)
      requires id in s.dispatchers && At(s, Dispatcher(Ids(items), None)) && Carries(s, items)
      modifies this`slaViolations, target`budget, target`nextEventId, target`pendingFeedback, target`pendingMeta,
               target.ledger, target.backend, inbox`items
      ensures Reaches(s.cfg, items, stopAt, ok, applied)
      ensures LoopEnds(items, applied, ok, cs, Tally([], old(target.nextEventId), old(slaViolations)), s, ls, t)
    {
      ghost var before := Tally([], target.nextEventId, slaViolations);
      ok, applied, ls, t := true, 0, [], s;
      PathStays(ByDispatcher(id), s);
      assert Ids(items)[0..] == Ids(items) && items[..0] == [];
      while applied < |items| && applied < stopAt
        invariant ok && applied <= |items| && applied <= stopAt
        invariant LoopAt(items, applied, cs, before, s, ls, t)
      {
        ok, ls, t := Turn(items, applied, cs, stopAt, before, s, ls, t);
        if !ok {
          return;
        }
        applied := applied + 1;
      }
    }

    /** The loop over the leased envelopes. The stop event is seen before the `stopAt`-th, if there are so many. */
    method ApplyAll(items: seq<Box.Item>, cs: nat -> Clock, stopAt: nat, ghost s: World)
      returns (ok: bool, applied: nat, ghost ls: seq<Label>, ghost t: World)
      requires id in s.dispatchers && At(s, Dispatcher(Ids(items), None)) && Carries(s, items)
      modifies this`slaViolations, target`budget, target`nextEventId, target`pendingFeedback, target`pendingMeta,
               target.ledger, target.backend, inbox`items
      ensures Reaches(s.cfg, items, stopAt, ok, applied)
      ensures ls == LoopLabels(id, target.limit, items, applied, ok, cs, old(target.nextEventId))
      ensures slaViolations
              == Logged(old(slaViolations), items[..if ok then applied else applied + 1], cs, config.slaMs)
      ensures Path(ByDispatcher(id), s, ls, t) && At(t, Dispatcher([], None))
    {
      ok, applied, ls, t := ApplyLoop(items, cs, stopAt, s);
      if ok {
        ls, t := LetGo(s, ls, t);
      }
    }

    /** When the loop is over, stopped or not, the batch is gone; what was not applied stays leased. */
    ghost method LetGo(s: World, ls: seq<Label>, t: World) returns (more: seq<Label>, u: World)
      requires Path(ByDispatcher(id), s, ls, t) && id in t.dispatchers && t.dispatchers[id].applied.None?
      requires At(t, t.dispatchers[id])
      ensures more == ls + [Deliver(id, EndRound)] && Path(ByDispatcher(id), s, more, u) && At(u, Dispatcher([], None))
    {
      var l := Deliver(id, EndRound);
      PathStep(ByDispatcher(id), s, ls, t, l);
      more, u := ls + [l], Step(t, l);
    }

    method LeaseFromInbox(leaseNow: Time, order: seq<Box.EnvelopeId>, ghost before: Box.Inbox)
      returns (items: seq<Box.Item>)
      requires before == inbox.items && inbox.Valid() && Enumerates(order, before.Keys)
      modifies inbox`items
      ensures inbox.Valid()
      ensures OldestLeased(before, inbox.items, id, order, config.batchSize, items, leaseNow + config.visibility)
    {
      items := inbox.LeaseOldest(id, config.batchSize, leaseNow, config.visibility, order);
    }

    method LeaseOldest(leaseNow: Time, order: seq<Box.EnvelopeId>, ghost s: World)
      returns (items: seq<Box.Item>, ghost ls: seq<Label>, ghost t: World)
      requires id in s.dispatchers && InboxAt(s, Dispatcher([], None)) && Enumerates(order, inbox.items.Keys)
      modifies inbox`items
      ensures items == Box.OldestPending(s.inbox, order, config.batchSize) && Box.Leasable(s.inbox, items)
      ensures ls == TakeLabels(id, items, leaseNow + config.visibility)
      ensures Path(ByDispatcher(id), s, ls, t) && InboxAt(t, Dispatcher(Ids(items), None)) && SameTarget(s, t)
      ensures SameEnvelopes(s, t)
    {
      items := LeaseFromInbox(leaseNow, order, s.inbox);
      ls := TakeLabels(id, items, leaseNow + config.visibility);
      t := OldestPath(id, s, order, config.batchSize, items, leaseNow + config.visibility, inbox.items);
    }

    /** Hand back what expired and lease the oldest results. */
    method LeaseResults(reclaimNow: Time, leaseNow: Time, order: seq<Box.EnvelopeId>, ghost s: World)
      returns (items: seq<Box.Item>, ghost ls: seq<Label>, ghost t: World)
      requires id in s.dispatchers && InboxAt(s, Dispatcher([], None)) && Enumerates(order, inbox.items.Keys)
      requires AllReserve(inbox.items)
      modifies inbox`items
      ensures items == Box.OldestPending(Box.ReclaimItems(s.inbox, order, reclaimNow), order, config.batchSize)
      ensures ls == ReclaimItemLabels(order, reclaimNow) + TakeLabels(id, items, leaseNow + config.visibility)
      ensures Path(ByDispatcher(id), s, ls, t) && InboxAt(t, Dispatcher(Ids(items), None)) && SameTarget(s, t)
      ensures Carries(t, items)
    {
      assert AllReserve(s.inbox);
      var _ := inbox.ReclaimExpired(reclaimNow, order);
      ghost var first, ready := ReclaimItemsPath(ByDispatcher(id), s, order, reclaimNow);
      assert InboxAt(ready, Dispatcher([], None));
      ghost var second;
      items, second, t := LeaseOldest(leaseNow, order, ready);
      ItemsCarried(s, ready, t, items, order, reclaimNow);
      PathJoin(ByDispatcher(id), s, first, ready, second, t);
      ls := first + second;
    }

    /** `run_once`: the moves are exactly handing back what expired, taking the oldest results, and applying and
        acknowledging them in turn until the batch is through, the stop comes, or a rollback over the limit raises. */
    method RunOnce(reclaimNow: Time, leaseNow: Time, order: seq<Box.EnvelopeId>, cs: nat -> Clock, stopAt: nat,
                   ghost s: World) returns (ok: bool, applied: nat, ghost ls: seq<Label>, ghost t: World)
      requires id in s.dispatchers && At(s, Dispatcher([], None)) && Enumerates(order, inbox.items.Keys)
      requires AllReserve(inbox.items)
      modifies this`slaViolations, target`budget, target`nextEventId, target`pendingFeedback, target`pendingMeta,
               target.ledger, target.backend, inbox`items
      ensures
        var leased := Box.OldestPending(Box.ReclaimItems(s.inbox, order, reclaimNow), order, config.batchSize);
        && Reaches(s.cfg, leased, stopAt, ok, applied)
        && ls == ReclaimItemLabels(order, reclaimNow) + TakeLabels(id, leased, leaseNow + config.visibility)
                 + LoopLabels(id, target.limit, leased, applied, ok, cs, old(target.nextEventId))
        && slaViolations == Logged(old(slaViolations), leased[..if ok then applied else applied + 1], cs, config.slaMs)
      ensures Path(ByDispatcher(id), s, ls, t) && At(t, Dispatcher([], None))
    {
      var items;
      ghost var first, taken, second;
      items, first, taken := LeaseResults(reclaimNow, leaseNow, order, s);
      ok, applied, second, t := ApplyAll(items, cs, stopAt, taken);
      PathJoin(ByDispatcher(id), s, first, taken, second, t);
      ls := first + second;
    }
  }
}
