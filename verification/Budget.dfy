/** The global resource budget: recovery over time, reservation, and the event reducer. */
module Budget {
  import opened Base

  datatype ResourceBudget = ResourceBudget(
    energy: real, attention: real, slots: int, lastUpdated: Time,
    energyRate: real, attentionRate: real, slotRate: real)

  datatype ResourceCost = ResourceCost(energy: real, attention: real, slots: int)

  /** A budget delta. Both producers of slot deltas convert an integer to float, so it stays an integer here. */
  datatype Delta = Delta(energy: real, attention: real, slots: int)

  datatype EventKind = Recovered | Reserved | RolledBack

  datatype BudgetEvent = BudgetEvent(id: Id, timestamp: Time, kind: EventKind, delta: Delta)

  datatype AllocationStatus = Approved | InsufficientEnergy | InsufficientAttention | NoSlots

  /** One of the three levels of a budget. */
  datatype Part = Energy | Attention | Slots

  function PartOf(d: Delta, p: Part): real {
    match p
    case Energy => d.energy
    case Attention => d.attention
    case Slots => d.slots as real
  }

  const ZERO: Delta := Delta(0.0, 0.0, 0)
  const MAX_LEVEL: real := 100.0
  const MAX_SLOTS: int := 10

  function Add(a: Delta, b: Delta): Delta {
    Delta(a.energy + b.energy, a.attention + b.attention, a.slots + b.slots)
  }

  function Negate(d: Delta): Delta {
    Delta(-d.energy, -d.attention, -d.slots)
  }

  /** `sum(abs(v) for v in delta.values())` */
  function Magnitude(d: Delta): real {
    AbsR(d.energy) + AbsR(d.attention) + AbsR(d.slots as real)
  }

  lemma NegatedDelta(d: Delta)
    ensures Magnitude(Negate(d)) == Magnitude(d) && Negate(Negate(d)) == d
  {
  }

  function DefaultBudget(now: Time): ResourceBudget {
    ResourceBudget(100.0, 100.0, 5, now, 10.0, 20.0, 1.0)
  }

  ghost predicate NonNegative(b: ResourceBudget) {
    b.energy >= 0.0 && b.attention >= 0.0 && b.slots >= 0
  }

  ghost predicate NonNegativeRates(b: ResourceBudget) {
    b.energyRate >= 0.0 && b.attentionRate >= 0.0 && b.slotRate >= 0.0
  }

  // ---------------------------------------------------------------- resource manager

  /** What `rate` units an hour yield over `elapsed` microseconds. */
  function Gain(rate: real, elapsed: int): real {
    rate * (elapsed as real / 3_600_000_000.0)
  }

  function Recover(b: ResourceBudget, now: Time): ResourceBudget {
    var elapsed := now - b.lastUpdated;
    if elapsed <= 0 then b
    else b.(energy := MinR(MAX_LEVEL, b.energy + Gain(b.energyRate, elapsed)),
            attention := MinR(MAX_LEVEL, b.attention + Gain(b.attentionRate, elapsed)),
            slots := MinI(MAX_SLOTS, Trunc(b.slots as real + Gain(b.slotRate, elapsed))),
            lastUpdated := now)
  }

  /** None stands for the empty dictionary. */
  function RecoveryDelta(b: ResourceBudget, now: Time): Option<Delta> {
    var elapsed := now - b.lastUpdated;
    if elapsed <= 0 then None
    else Some(Delta(Gain(b.energyRate, elapsed), Gain(b.attentionRate, elapsed), Trunc(Gain(b.slotRate, elapsed))))
  }

  function Evaluate(cost: Option<ResourceCost>, b: ResourceBudget): AllocationStatus {
    if cost.None? then InsufficientAttention
    else if b.slots < cost.value.slots then NoSlots
    else if b.energy < cost.value.energy then InsufficientEnergy
    else if b.attention < cost.value.attention then InsufficientAttention
    else Approved
  }

  function ReservationDelta(cost: ResourceCost): Delta {
    Delta(-cost.energy, -cost.attention, -cost.slots)
  }

  // ---------------------------------------------------------------- reducer

  function Reduce(b: ResourceBudget, e: BudgetEvent): ResourceBudget {
    var energy := b.energy + e.delta.energy;
    var attention := b.attention + e.delta.attention;
    var slots := b.slots + e.delta.slots;
    if e.kind.Recovered? then
      b.(energy := MinR(MAX_LEVEL, energy), attention := MinR(MAX_LEVEL, attention),
         slots := MinI(MAX_SLOTS, slots), lastUpdated := e.timestamp)
    else
      b.(energy := energy, attention := attention, slots := slots, lastUpdated := e.timestamp)
  }

  function Replay(b: ResourceBudget, events: seq<BudgetEvent>): ResourceBudget {
    if events == [] then b
    else Reduce(Replay(b, events[..|events| - 1]), events[|events| - 1])
  }

  lemma {:induction false} ReplayConcat(b: ResourceBudget, p: seq<BudgetEvent>, s: seq<BudgetEvent>)
    ensures Replay(b, p + s) == Replay(Replay(b, p), s)
    decreases |s|
  {
    if s == [] {
      assert p + s == p;
    } else {
      var n := |s| - 1;
      ReplayConcat(b, p, s[..n]);
      assert (p + s)[..|p + s| - 1] == p + s[..n];
    }
  }

  /** Once there is an event, the clock value the default budget was made with no longer matters. */
  lemma {:induction false} ReplayForgetsStart(a: ResourceBudget, t: Time, events: seq<BudgetEvent>)
    ensures Replay(a.(lastUpdated := t), events)
            == Replay(a, events).(lastUpdated := Replay(a.(lastUpdated := t), events).lastUpdated)
    ensures events != [] ==> Replay(a.(lastUpdated := t), events) == Replay(a, events)
  {
    if events != [] {
      ReplayForgetsStart(a, t, events[..|events| - 1]);
    }
  }

  /** The sum of the reservations and rollbacks of a ledger, recoveries left aside. */
  function NetReserved(events: seq<BudgetEvent>): Delta {
    if events == [] then ZERO
    else
      var last := events[|events| - 1];
      var before := NetReserved(events[..|events| - 1]);
      if last.kind.Recovered? then before else Add(before, last.delta)
  }

  lemma NetReservedAppend(events: seq<BudgetEvent>, e: BudgetEvent)
    ensures NetReserved(events + [e])
            == if e.kind.Recovered? then NetReserved(events) else Add(NetReserved(events), e.delta)
  {
    assert (events + [e])[..|events + [e]| - 1] == events;
  }

  // ---------------------------------------------------------------- recovery arithmetic

  lemma GainAdds(rate: real, a: int, b: int)
    ensures Gain(rate, a + b) == Gain(rate, a) + Gain(rate, b)
  {
    var x, y := a as real / 3_600_000_000.0, b as real / 3_600_000_000.0;
    assert (a + b) as real / 3_600_000_000.0 == x + y;
    assert rate * (x + y) == rate * x + rate * y;
  }

  lemma GainNonNegative(rate: real, elapsed: int)
    requires rate >= 0.0 && elapsed >= 0
    ensures Gain(rate, elapsed) >= 0.0
  {
    var x := elapsed as real / 3_600_000_000.0;
    assert x >= 0.0;
    assert rate * x >= 0.0;
  }

  lemma GainGrows(rate: real, a: int, b: int)
    requires rate >= 0.0 && 0 <= a <= b
    ensures 0.0 <= Gain(rate, a) <= Gain(rate, b)
    ensures 0 <= Trunc(Gain(rate, a)) <= Trunc(Gain(rate, b))
  {
    GainAdds(rate, a, b - a);
    GainNonNegative(rate, b - a);
    GainNonNegative(rate, a);
  }

  ghost predicate Integral(x: real) {
    x.Floor as real == x
  }

  /** Recovering through the ledger gives what `recover` computes exactly when truncation commutes with
      adding the whole slots already there: the sum is not negative, or the gain is itself whole. */
  lemma EventPathMatchesRecover(b: ResourceBudget, now: Time, id: Id)
    requires now > b.lastUpdated && b.slotRate >= 0.0
    ensures RecoveryDelta(b, now).Some?
    ensures
      var gain := Gain(b.slotRate, now - b.lastUpdated);
      Reduce(b, BudgetEvent(id, now, Recovered, RecoveryDelta(b, now).value)) == Recover(b, now)
      <==> (b.slots as real + gain >= 0.0 || Integral(gain))
  {
    var gain := Gain(b.slotRate, now - b.lastUpdated);
    GainNonNegative(b.slotRate, now - b.lastUpdated);
    TruncOfSum(b.slots, gain);
  }

  lemma TruncOfSum(n: int, x: real)
    requires x >= 0.0
    ensures Trunc(n as real + x) == n + Trunc(x) <==> (n as real + x >= 0.0 || Integral(x))
    ensures n as real + x < 0.0 ==> n + Trunc(x) < 10 && Trunc(n as real + x) < 10
  {
    if n as real + x >= 0.0 {
      assert (n as real + x).Floor == n + x.Floor;
    } else {
      assert (-(n as real + x)).Floor == -n + (-x).Floor;
    }
  }

  /** With slots never negative the two paths always agree. */
  lemma EventPathIsRecover(b: ResourceBudget, now: Time, id: Id)
    requires now > b.lastUpdated && b.slotRate >= 0.0 && b.slots >= 0
    ensures Reduce(b, BudgetEvent(id, now, Recovered, RecoveryDelta(b, now).value)) == Recover(b, now)
  {
    EventPathMatchesRecover(b, now, id);
    GainNonNegative(b.slotRate, now - b.lastUpdated);
  }

  /** Energy and attention do not notice how elapsed time is cut up; slots can only lose by it. */
  lemma RecoverySplit(b: ResourceBudget, mid: Time, end: Time)
    requires NonNegativeRates(b) && b.slots >= 0 && b.lastUpdated <= mid <= end
    ensures
      var split := Recover(Recover(b, mid), end);
      var whole := Recover(b, end);
      && split.energy == whole.energy
      && split.attention == whole.attention
      && split.slots <= whole.slots
      && split.lastUpdated == whole.lastUpdated
  {
    var a, c := mid - b.lastUpdated, end - mid;
    GainSplit(b.energyRate, a, c);
    GainSplit(b.attentionRate, a, c);
    GainSplit(b.slotRate, a, c);
    assert a + c == end - b.lastUpdated;
    if a > 0 && c > 0 {
      SlotSplit(b.slots, Gain(b.slotRate, a), Gain(b.slotRate, c));
    }
  }

  lemma GainSplit(rate: real, a: int, c: int)
    requires rate >= 0.0 && a >= 0 && c >= 0
    ensures Gain(rate, a + c) == Gain(rate, a) + Gain(rate, c) && Gain(rate, a) >= 0.0 && Gain(rate, c) >= 0.0
  {
    GainAdds(rate, a, c);
    GainNonNegative(rate, a);
    GainNonNegative(rate, c);
  }

  lemma SlotSplit(n: int, x: real, y: real)
    requires n >= 0 && x >= 0.0 && y >= 0.0
    ensures
      var mid := MinI(MAX_SLOTS, Trunc(n as real + x));
      mid >= 0 && MinI(MAX_SLOTS, Trunc(mid as real + y)) <= MinI(MAX_SLOTS, Trunc(n as real + (x + y)))
  {
    var mid := MinI(MAX_SLOTS, Trunc(n as real + x));
    assert mid as real <= n as real + x;
    assert mid as real + y <= n as real + (x + y);
  }

  // ---------------------------------------------------------------- ticking

  function RecoverAtEach(b: ResourceBudget, times: seq<Time>): ResourceBudget {
    if times == [] then b
    else Recover(RecoverAtEach(b, times[..|times| - 1]), times[|times| - 1])
  }

  function LastTick(b: ResourceBudget, times: seq<Time>): Time {
    if times == [] then b.lastUpdated else times[|times| - 1]
  }

  /** Each tick comes after the one before. */
  ghost predicate Rising(b: ResourceBudget, times: seq<Time>) {
    times == [] ||
    var n := |times| - 1;
    Rising(b, times[..n]) && times[n] > LastTick(b, times[..n])
  }

  /** No two ticks are as far apart as one slot takes. */
  ghost predicate CloseTogether(b: ResourceBudget, times: seq<Time>) {
    times == [] ||
    var n := |times| - 1;
    CloseTogether(b, times[..n]) && Gain(b.slotRate, times[n] - LastTick(b, times[..n])) < 1.0
  }

  lemma OneRecovery(b: ResourceBudget, now: Time)
    requires b.slotRate >= 0.0 && 0 <= b.slots <= MAX_SLOTS && b.lastUpdated < now
    ensures
      var after, gain := Recover(b, now), Gain(b.slotRate, now - b.lastUpdated);
      && b.slots <= after.slots <= MAX_SLOTS
      && (gain < 1.0 ==> after.slots == b.slots)
      && (gain >= 1.0 ==> after.slots > b.slots || after.slots == MAX_SLOTS)
      && after.lastUpdated == now && after.slotRate == b.slotRate
  {
    GainNonNegative(b.slotRate, now - b.lastUpdated);
  }

  /** Slots recover exactly when some gap between ticks is worth a whole slot: the time of shorter gaps is lost, however
      many there are. */
  lemma {:induction false} SlotsRecoverIffWholeGap(b: ResourceBudget, times: seq<Time>)
    requires b.slotRate >= 0.0 && 0 <= b.slots < MAX_SLOTS && Rising(b, times)
    ensures RecoverAtEach(b, times).slots == b.slots <==> CloseTogether(b, times)
    ensures b.slots <= RecoverAtEach(b, times).slots <= MAX_SLOTS
    ensures RecoverAtEach(b, times).lastUpdated == LastTick(b, times)
    ensures RecoverAtEach(b, times).slotRate == b.slotRate
  {
    if times != [] {
      var n := |times| - 1;
      SlotsRecoverIffWholeGap(b, times[..n]);
      OneRecovery(RecoverAtEach(b, times[..n]), times[n]);
    }
  }

  // ---------------------------------------------------------------- ticking as the orchestrator does it

  predicate Recovers(d: Option<Delta>) {
    d.Some? && (d.value.energy > 0.0 || d.value.attention > 0.0 || d.value.slots > 0)
  }

  /** What one tick does to the live budget: an event, unless nothing has recovered or it is over the safety limit. */
  function TickRecovery(b: ResourceBudget, now: Time, limit: real): ResourceBudget {
    var d := RecoveryDelta(b, now);
    if Recovers(d) && Magnitude(d.value) <= limit then Reduce(b, BudgetEvent(0, now, Recovered, d.value)) else b
  }

  function RecoverByTicks(b: ResourceBudget, times: seq<Time>, limit: real): ResourceBudget {
    if times == [] then b
    else TickRecovery(RecoverByTicks(b, times[..|times| - 1], limit), times[|times| - 1], limit)
  }

  /** Every recovery of the run stays within the safety limit. */
  ghost predicate NeverOversized(b: ResourceBudget, times: seq<Time>, limit: real) {
    times == [] ||
    var n := |times| - 1;
    var d := RecoveryDelta(RecoverAtEach(b, times[..n]), times[n]);
    NeverOversized(b, times[..n], limit) && (d.Some? ==> Magnitude(d.value) <= limit)
  }

  ghost predicate SameRates(a: ResourceBudget, b: ResourceBudget) {
    a.energyRate == b.energyRate && a.attentionRate == b.attentionRate && a.slotRate == b.slotRate
  }

  lemma GainPositive(rate: real, elapsed: int)
    requires rate > 0.0 && elapsed > 0
    ensures Gain(rate, elapsed) > 0.0
  {
    var x := elapsed as real / 3_600_000_000.0;
    assert x > 0.0;
    assert rate * x > 0.0;
  }

  lemma OneTickRecovery(b: ResourceBudget, now: Time, limit: real)
    requires NonNegativeRates(b) && (b.energyRate > 0.0 || b.attentionRate > 0.0) && b.slots >= 0 && b.lastUpdated < now
    requires Magnitude(RecoveryDelta(b, now).value) <= limit
    ensures TickRecovery(b, now, limit) == Recover(b, now)
    ensures Recover(b, now).slots >= 0 && SameRates(Recover(b, now), b)
  {
    if b.energyRate > 0.0 {
      GainPositive(b.energyRate, now - b.lastUpdated);
    } else {
      GainPositive(b.attentionRate, now - b.lastUpdated);
    }
    GainNonNegative(b.slotRate, now - b.lastUpdated);
    EventPathIsRecover(b, now, 0);
  }

  /** While energy or attention recovers too, so that every tick records an event, and none is over the limit, ticking
      is recovering at each tick; so slots come back exactly when some gap is worth a whole one. */
  lemma {:induction false} TicksRecoverIffWholeGap(b: ResourceBudget, times: seq<Time>, limit: real)
    requires NonNegativeRates(b) && (b.energyRate > 0.0 || b.attentionRate > 0.0)
    requires 0 <= b.slots < MAX_SLOTS && Rising(b, times) && NeverOversized(b, times, limit)
    ensures RecoverByTicks(b, times, limit) == RecoverAtEach(b, times) && SameRates(RecoverAtEach(b, times), b)
    ensures RecoverByTicks(b, times, limit).slots == b.slots <==> CloseTogether(b, times)
  {
    SlotsRecoverIffWholeGap(b, times);
    if times != [] {
      var n := |times| - 1;
      TicksRecoverIffWholeGap(b, times[..n], limit);
      SlotsRecoverIffWholeGap(b, times[..n]);
      OneTickRecovery(RecoverAtEach(b, times[..n]), times[n], limit);
    }
  }

  /** When slots are all that recovers, a tick worth less than a slot records nothing and loses nothing. */
  lemma SlotsAloneWait(b: ResourceBudget, now: Time, limit: real)
    requires b.energyRate == 0.0 && b.attentionRate == 0.0 && b.slotRate >= 0.0
    requires b.lastUpdated < now && Gain(b.slotRate, now - b.lastUpdated) < 1.0
    ensures TickRecovery(b, now, limit) == b
  {
    GainNonNegative(b.slotRate, now - b.lastUpdated);
  }

  /** A recovery too large for the safety limit is dropped, and stays too large at every later time:
      nothing recovers until some other event moves `last_updated`. */
  lemma OversizedRecoveryStaysOversized(b: ResourceBudget, limit: real, now: Time, later: Time)
    requires NonNegativeRates(b) && now <= later
    requires RecoveryDelta(b, now).Some? && Magnitude(RecoveryDelta(b, now).value) > limit
    ensures RecoveryDelta(b, later).Some? && Magnitude(RecoveryDelta(b, later).value) > limit
  {
    var x, y := now - b.lastUpdated, later - b.lastUpdated;
    GainGrows(b.energyRate, x, y);
    GainGrows(b.attentionRate, x, y);
    GainGrows(b.slotRate, x, y);
  }

  // ---------------------------------------------------------------- non-negativity, one event at a time

  lemma RecoveryKeepsNonNegative(b: ResourceBudget, now: Time, id: Id)
    requires NonNegative(b) && NonNegativeRates(b) && RecoveryDelta(b, now).Some?
    ensures NonNegative(Reduce(b, BudgetEvent(id, now, Recovered, RecoveryDelta(b, now).value)))
  {
    GainNonNegative(b.energyRate, now - b.lastUpdated);
    GainNonNegative(b.attentionRate, now - b.lastUpdated);
    GainNonNegative(b.slotRate, now - b.lastUpdated);
  }

  /** A reservation keeps the budget non-negative exactly when the cost was approved against it. */
  lemma ReservationIsSafeIffApproved(b: ResourceBudget, cost: ResourceCost, now: Time, id: Id)
    ensures NonNegative(Reduce(b, BudgetEvent(id, now, Reserved, ReservationDelta(cost))))
            <==> Evaluate(Some(cost), b).Approved?
  {
  }
}
