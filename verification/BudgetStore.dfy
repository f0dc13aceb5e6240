/** The orchestrator's event-sourced budget: live value, ledger and snapshot, and
    the proof that a restart at any moment gets the live value back.
 */
module BudgetStore {
  import opened Base
  import opened Budget

  datatype Snapshot = Snapshot(budget: ResourceBudget, timestamp: Time, lastEventId: Option<Id>)

  datatype Store = Store(live: ResourceBudget, ledger: seq<BudgetEvent>, snapshot: Option<Snapshot>)

  /** `_emit_budget_event`: an event over the safety limit leaves no trace (and raises under `fail_fast`). */
  function Emit(st: Store, limit: real, e: BudgetEvent): Store {
    if Magnitude(e.delta) > limit then st
    else st.(live := Reduce(st.live, e), ledger := st.ledger + [e])
  }

  function LastId(ledger: seq<BudgetEvent>): Option<Id> {
    if ledger == [] then None else Some(ledger[|ledger| - 1].id)
  }

  function Persist(st: Store, now: Time): Store {
    st.(snapshot := Some(Snapshot(st.live, now, LastId(st.ledger))))
  }

  /** What follows the first event that carries `id`; nothing when there is none. */
  function SuffixAfter(events: seq<BudgetEvent>, id: Id): seq<BudgetEvent> {
    if events == [] then []
    else if events[0].id == id then events[1..]
    else SuffixAfter(events[1..], id)
  }

  function Restore(snapshot: Option<Snapshot>, ledger: seq<BudgetEvent>, now: Time): ResourceBudget {
    match snapshot
    case None => Replay(DefaultBudget(now), ledger)
    case Some(s) =>
      match s.lastEventId
      case None => Replay(s.budget, ledger)
      case Some(id) => Replay(s.budget, SuffixAfter(ledger, id))
  }

  // ---------------------------------------------------------------- runs

  /** A restart is a crash: it may fall between an emit and the next persist. */
  datatype Step = EmitEvent(limit: real, event: BudgetEvent) | PersistAt(now: Time) | Restart(now: Time)

  predicate Fresh(ledger: seq<BudgetEvent>, id: Id) {
    forall e :: e in ledger ==> e.id != id
  }

  predicate Enabled(st: Store, step: Step) {
    step.EmitEvent? ==> Fresh(st.ledger, step.event.id)
  }

  function Apply(st: Store, step: Step): Store {
    match step
    case EmitEvent(limit, event) => Emit(st, limit, event)
    case PersistAt(now) => Persist(st, now)
    case Restart(now) => st.(live := Restore(st.snapshot, st.ledger, now))
  }

  function Initial(now: Time): Store {
    Store(DefaultBudget(now), [], None)
  }

  function Exec(st: Store, steps: seq<Step>): Option<Store> {
    if steps == [] then Some(st)
    else
      match Exec(st, steps[..|steps| - 1])
      case None => None
      case Some(mid) =>
        var last := steps[|steps| - 1];
        if Enabled(mid, last) then Some(Apply(mid, last)) else None
  }

  // ---------------------------------------------------------------- invariant

  ghost predicate DistinctIds(ledger: seq<BudgetEvent>) {
    forall i, j :: 0 <= i < j < |ledger| ==> ledger[i].id != ledger[j].id
  }

  /** The snapshot is the fold of the first k events and says so. */
  ghost predicate Covers(s: Snapshot, ledger: seq<BudgetEvent>, start: Time, k: nat) {
    k <= |ledger| && s.budget == Replay(DefaultBudget(start), ledger[..k]) && s.lastEventId == LastId(ledger[..k])
  }

  /** `start` is the clock value the first default budget was made with. */
  ghost predicate Consistent(st: Store, start: Time) {
    && DistinctIds(st.ledger)
    && st.live == Replay(DefaultBudget(start), st.ledger)
    && (st.snapshot.Some? ==> exists k: nat :: Covers(st.snapshot.value, st.ledger, start, k))
  }

  lemma {:induction false} SuffixOfPrefix(ledger: seq<BudgetEvent>, k: nat)
    requires DistinctIds(ledger) && 0 < k <= |ledger|
    ensures SuffixAfter(ledger, ledger[k - 1].id) == ledger[k..]
    decreases k
  {
    if k > 1 {
      SuffixOfPrefix(ledger[1..], k - 1);
      assert ledger[1..][k - 1..] == ledger[k..];
    }
  }

  lemma RestoreIsLive(st: Store, start: Time, now: Time)
    requires Consistent(st, start)
    ensures st.snapshot.Some? || st.ledger != [] ==> Restore(st.snapshot, st.ledger, now) == st.live
    ensures st.snapshot.None? && st.ledger == [] ==> Restore(st.snapshot, st.ledger, now) == DefaultBudget(now)
  {
    match st.snapshot
    case None =>
      ReplayForgetsStart(DefaultBudget(start), now, st.ledger);
    case Some(s) =>
      var k: nat :| Covers(s, st.ledger, start, k);
      assert st.ledger == st.ledger[..k] + st.ledger[k..];
      ReplayConcat(DefaultBudget(start), st.ledger[..k], st.ledger[k..]);
      if k > 0 {
        SuffixOfPrefix(st.ledger, k);
      } else {
        assert st.ledger[0..] == st.ledger;
      }
  }

  lemma StepConsistent(st: Store, start: Time, step: Step) returns (start': Time)
    requires Consistent(st, start) && Enabled(st, step)
    ensures Consistent(Apply(st, step), start')
    ensures st.snapshot.Some? || st.ledger != [] ==> start' == start
  {
    start' := start;
    match step
    case EmitEvent(limit, e) =>
      if Magnitude(e.delta) <= limit {
        var ledger := st.ledger + [e];
        assert ledger[..|ledger| - 1] == st.ledger;
        if st.snapshot.Some? {
          var k: nat :| Covers(st.snapshot.value, st.ledger, start, k);
          assert ledger[..k] == st.ledger[..k];
          assert Covers(st.snapshot.value, ledger, start, k);
        }
      }
    case PersistAt(now) =>
      assert st.ledger[..|st.ledger|] == st.ledger;
      assert Covers(Persist(st, now).snapshot.value, st.ledger, start, |st.ledger|);
    case Restart(now) =>
      RestoreIsLive(st, start, now);
      if st.snapshot.None? && st.ledger == [] {
        start' := now;
      }
  }

  lemma {:induction false} RunConsistent(begin: Time, steps: seq<Step>) returns (start: Time)
    requires Exec(Initial(begin), steps).Some?
    ensures Consistent(Exec(Initial(begin), steps).value, start)
    decreases |steps|
  {
    if steps == [] {
      start := begin;
    } else {
      var mid := Exec(Initial(begin), steps[..|steps| - 1]).value;
      var before := RunConsistent(begin, steps[..|steps| - 1]);
      start := StepConsistent(mid, before, steps[|steps| - 1]);
    }
  }

  /** In every run of emits, persists and crashes, restoring gives the live budget, and that is the fold of
      the whole ledger; the only thing a restart can change is the clock value of a budget nobody has touched. */
  lemma RestoreEqualsLive(begin: Time, steps: seq<Step>, now: Time)
    requires Exec(Initial(begin), steps).Some?
    ensures
      var st := Exec(Initial(begin), steps).value;
      && (st.snapshot.Some? || st.ledger != [] ==> Restore(st.snapshot, st.ledger, now) == st.live)
      && (st.ledger != [] ==> st.live == Replay(DefaultBudget(now), st.ledger))
      && Restore(st.snapshot, st.ledger, now).(lastUpdated := 0) == st.live.(lastUpdated := 0)
  {
    var st := Exec(Initial(begin), steps).value;
    var start := RunConsistent(begin, steps);
    RestoreIsLive(st, start, now);
    ReplayForgetsStart(DefaultBudget(start), now, st.ledger);
  }

  // ---------------------------------------------------------------- restoring without the event id

  function LevelOf(b: ResourceBudget, p: Part): real {
    match p
    case Energy => b.energy
    case Attention => b.attention
    case Slots => b.slots as real
  }

  function Cap(p: Part): real {
    if p.Slots? then MAX_SLOTS as real else MAX_LEVEL
  }

  function TotalOf(events: seq<BudgetEvent>, p: Part): real {
    if events == [] then 0.0 else TotalOf(events[..|events| - 1], p) + PartOf(events[|events| - 1].delta, p)
  }

  /** The highest level these events can leave behind; there is none if nothing in them recovered. */
  function Ceiling(events: seq<BudgetEvent>, p: Part): Option<real> {
    if events == [] then None
    else
      var e := events[|events| - 1];
      match Ceiling(events[..|events| - 1], p)
      case None => if e.kind.Recovered? then Some(Cap(p)) else None
      case Some(c) =>
        var moved := c + PartOf(e.delta, p);
        Some(if e.kind.Recovered? then MinR(Cap(p), moved) else moved)
  }

  function Capped(level: real, ceiling: Option<real>): real {
    if ceiling.None? then level else MinR(ceiling.value, level)
  }

  /** Replay in closed form: the sum of all deltas, cut off at the ceiling. */
  lemma {:induction false} ReplayLevel(b: ResourceBudget, events: seq<BudgetEvent>, p: Part)
    ensures LevelOf(Replay(b, events), p) == Capped(LevelOf(b, p) + TotalOf(events, p), Ceiling(events, p))
    decreases |events|
  {
    if events != [] {
      ReplayLevel(b, events[..|events| - 1], p);
    }
  }

  lemma {:induction false} ReplayRest(b: ResourceBudget, events: seq<BudgetEvent>)
    ensures
      var r := Replay(b, events);
      && r.energyRate == b.energyRate && r.attentionRate == b.attentionRate && r.slotRate == b.slotRate
      && r.lastUpdated == if events == [] then b.lastUpdated else events[|events| - 1].timestamp
    decreases |events|
  {
    if events != [] {
      ReplayRest(b, events[..|events| - 1]);
    }
  }

  lemma EqualByLevels(a: ResourceBudget, b: ResourceBudget)
    requires a.energyRate == b.energyRate && a.attentionRate == b.attentionRate && a.slotRate == b.slotRate
    requires a.lastUpdated == b.lastUpdated
    ensures a == b <==> forall p :: LevelOf(a, p) == LevelOf(b, p)
  {
    if forall p :: LevelOf(a, p) == LevelOf(b, p) {
      assert LevelOf(a, Energy) == LevelOf(b, Energy);
      assert LevelOf(a, Attention) == LevelOf(b, Attention);
      assert LevelOf(a, Slots) == LevelOf(b, Slots);
    }
  }

  /** Applying these events to their own outcome `level` once more leaves it there. */
  predicate AppliesForFree(events: seq<BudgetEvent>, level: real, p: Part) {
    TotalOf(events, p) == 0.0 || (TotalOf(events, p) > 0.0 && Ceiling(events, p) == Some(level))
  }

  /** Both levels are lifted to these events' ceiling. */
  predicate Swallows(events: seq<BudgetEvent>, a: real, b: real, p: Part) {
    var total := TotalOf(events, p);
    Ceiling(events, p).Some? && a + total >= Ceiling(events, p).value && b + total >= Ceiling(events, p).value
  }

  /** The old events do no harm: applied a second time they change nothing, or later recoveries hide what they
      change. */
  predicate Harmless(before: seq<BudgetEvent>, later: seq<BudgetEvent>, level: real, p: Part) {
    AppliesForFree(before, level, p)
    || Swallows(later, level, Capped(level + TotalOf(before, p), Ceiling(before, p)), p)
  }

  lemma HarmlessLevel(b: ResourceBudget, before: seq<BudgetEvent>, later: seq<BudgetEvent>, p: Part)
    ensures
      var level := LevelOf(Replay(b, before), p);
      LevelOf(Replay(Replay(Replay(b, before), before), later), p) == LevelOf(Replay(Replay(b, before), later), p)
      <==> Harmless(before, later, level, p)
  {
    ReplayLevel(b, before, p);
    ReplayLevel(Replay(b, before), before, p);
    ReplayLevel(Replay(b, before), later, p);
    ReplayLevel(Replay(Replay(b, before), before), later, p);
  }

  /** A backend that loses `last_event_id`, as the file backend does, replays the whole ledger over a snapshot of its
      first k events. That gives the live budget exactly when those events do no harm a second time, level by
      level. */
  lemma RestoreWithoutIdIsRightIff(start: Time, ledger: seq<BudgetEvent>, k: nat, taken: Time, now: Time)
    requires k <= |ledger|
    ensures
      var saved := Replay(DefaultBudget(start), ledger[..k]);
      Restore(Some(Snapshot(saved, taken, None)), ledger, now) == Replay(DefaultBudget(start), ledger)
      <==> forall p :: Harmless(ledger[..k], ledger[k..], LevelOf(saved, p), p)
  {
    var first, before, later := DefaultBudget(start), ledger[..k], ledger[k..];
    var saved := Replay(first, before);
    assert ledger == before + later;
    ReplayConcat(first, before, later);
    ReplayConcat(saved, before, later);
    ReplayRest(first, ledger);
    ReplayRest(first, before);
    ReplayRest(saved, ledger);
    EqualByLevels(Replay(saved, ledger), Replay(first, ledger));
    forall p
      ensures LevelOf(Replay(saved, ledger), p) == LevelOf(Replay(first, ledger), p)
              <==> Harmless(before, later, LevelOf(saved, p), p)
    {
      HarmlessLevel(first, before, later, p);
    }
  }

  predicate NothingRecovered(events: seq<BudgetEvent>) {
    forall e :: e in events ==> !e.kind.Recovered?
  }

  lemma {:induction false} TotalsWithoutRecovery(events: seq<BudgetEvent>, p: Part)
    requires NothingRecovered(events)
    ensures Ceiling(events, p).None? && TotalOf(events, p) == PartOf(NetReserved(events), p)
    decreases |events|
  {
    if events != [] {
      TotalsWithoutRecovery(events[..|events| - 1], p);
      assert events[|events| - 1] in events;
    }
  }

  /** Without recoveries: exactly when the snapshot's reservations and rollbacks cancel out. */
  lemma WithoutRecoveryRightIffBalanced(start: Time, ledger: seq<BudgetEvent>, k: nat, taken: Time, now: Time)
    requires k <= |ledger| && NothingRecovered(ledger)
    ensures
      var saved := Replay(DefaultBudget(start), ledger[..k]);
      Restore(Some(Snapshot(saved, taken, None)), ledger, now) == Replay(DefaultBudget(start), ledger)
      <==> NetReserved(ledger[..k]) == ZERO
  {
    var before, later := ledger[..k], ledger[k..];
    var saved, net := Replay(DefaultBudget(start), before), NetReserved(before);
    RestoreWithoutIdIsRightIff(start, ledger, k, taken, now);
    forall p ensures Harmless(before, later, LevelOf(saved, p), p) <==> PartOf(net, p) == 0.0 {
      TotalsWithoutRecovery(before, p);
      TotalsWithoutRecovery(later, p);
    }
    assert net == ZERO <==> PartOf(net, Energy) == 0.0 && PartOf(net, Attention) == 0.0 && PartOf(net, Slots) == 0.0;
  }

  /** An input that shows it: one reservation, saved, and restored twice over. */
  lemma ForgettingTheEventIdDoublesDeltas(now: Time, id: Id)
    ensures
      var e := BudgetEvent(id, now, Reserved, Delta(-10.0, 0.0, 0));
      var st := Persist(Emit(Initial(now), 50.0, e), now);
      && Restore(st.snapshot, st.ledger, now) == st.live
      && Restore(Some(st.snapshot.value.(lastEventId := None)), st.ledger, now).energy == st.live.energy - 10.0
  {
    var e := BudgetEvent(id, now, Reserved, Delta(-10.0, 0.0, 0));
    assert Magnitude(e.delta) == 10.0;
    assert [e][..0] == [];
    assert Initial(now).ledger + [e] == [e];
    assert Replay(DefaultBudget(now), [e]) == Reduce(DefaultBudget(now), e);
    var live := Reduce(DefaultBudget(now), e);
    assert Replay(live, [e]) == Reduce(Replay(live, []), e);
  }
}
