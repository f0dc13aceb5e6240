/** Competition between trajectories: a unit budget of commitment and a cap on ACTIVE ones. */
module Competition {
  import opened Base
  import opened FiniteSums
  import opened StableSort
  import opened Strategy

  /** A live trajectory after boost and decay, ready to be ranked. */
  datatype Item = Item(trajectory: Trajectory, sortWeight: real, finalWeight: real, finalStatus: Status)

  predicate Live(t: Trajectory) {
    t.status.Active? || t.status.Stalled?
  }

  /** `timedelta.days`: whole days, rounded down. */
  function DaysBetween(earlier: Time, later: Time): int {
    (later - earlier) / DAY
  }

  function Boost(t: Trajectory, outcome: Option<Outcome>, now: Time): real {
    if now - t.lastUpdated < SECOND && outcome == Some(Success) then 0.2
    else if now - t.lastUpdated < SECOND && outcome == Some(Blocked) then -0.2
    else 0.0
  }

  predicate Decays(t: Trajectory, now: Time) {
    t.status.Stalled? && DaysBetween(t.lastUpdated, now) > 7
  }

  function DecayedWeight(t: Trajectory, now: Time): real {
    if Decays(t, now) then MaxR(0.0, t.weight - 0.05 * (DaysBetween(t.lastUpdated, now) - 7) as real) else t.weight
  }

  function Process(t: Trajectory, outcome: Option<Outcome>, now: Time): Item {
    var w := DecayedWeight(t, now);
    Item(t, w + Boost(t, outcome, now), w, if Decays(t, now) && w < 0.1 then Abandoned else t.status)
  }

  function ProcessAll(m: Trajectories, order: seq<string>, outcome: Option<Outcome>, now: Time): seq<Item>
    requires forall k :: k in order ==> k in m
  {
    if order == [] then []
    else
      var n := |order| - 1;
      var before := ProcessAll(m, order[..n], outcome, now);
      if Live(m[order[n]]) then before + [Process(m[order[n]], outcome, now)] else before
  }

  function StatusScore(i: Item): real {
    if i.finalStatus.Active? then 1.0 else 0.0
  }

  /** Ranking: ACTIVE before the rest, then boosted weight, then recency. */
  const ABOVE: (Item, Item) -> bool := (a: Item, b: Item) =>
    StatusScore(a) > StatusScore(b)
    || (StatusScore(a) == StatusScore(b) && a.sortWeight > b.sortWeight)
    || (StatusScore(a) == StatusScore(b) && a.sortWeight == b.sortWeight
        && a.trajectory.lastUpdated > b.trajectory.lastUpdated)

  function Ranking(m: Trajectories, order: seq<string>, outcome: Option<Outcome>, now: Time): seq<Item>
    requires forall k :: k in order ==> k in m
  {
    SortDescending(ProcessAll(m, order, outcome, now), ABOVE)
  }

  /** None is the unbounded cap of STRATEGIC mode. */
  function MaxActive(mode: Mode): Option<nat> {
    match mode
    case Tactical => Some(1)
    case Balanced => Some(2)
    case Strategic => None
  }

  // ---------------------------------------------------------------- allocation

  datatype Grant = Grant(status: Status, weight: real, displaced: bool, capped: bool)

  datatype Allocation = Allocation(budget: real, active: nat, grants: seq<Grant>)

  function GrantNext(item: Item, budget: real, active: nat, cap: Option<nat>): Grant {
    if item.finalStatus.Abandoned? then Grant(Abandoned, item.finalWeight, false, false)
    else
      var displaced := cap.Some? && active >= cap.value && item.finalStatus.Active?;
      var status := if displaced then Stalled else item.finalStatus;
      if budget <= 0.0 then Grant(Abandoned, 0.0, displaced, true)
      else if item.finalWeight > budget then Grant(status, budget, displaced, true)
      else Grant(status, item.finalWeight, displaced, false)
  }

  function AllocateNext(a: Allocation, item: Item, cap: Option<nat>): Allocation {
    var g := GrantNext(item, a.budget, a.active, cap);
    if item.finalStatus.Abandoned? then a.(grants := a.grants + [g])
    else
      Allocation(
        if a.budget <= 0.0 then a.budget else a.budget - g.weight,
        if item.finalStatus.Active? && !g.displaced then a.active + 1 else a.active,
        a.grants + [g])
  }

  function Allocate(items: seq<Item>, cap: Option<nat>): (a: Allocation)
    ensures |a.grants| == |items|
  {
    if items == [] then Allocation(1.0, 0, [])
    else AllocateNext(Allocate(items[..|items| - 1], cap), items[|items| - 1], cap)
  }

  function Updated(t: Trajectory, g: Grant, now: Time): Trajectory {
    if g.status != t.status || g.weight != t.weight then Trajectory(t.id, g.status, g.weight, t.createdAt, now) else t
  }

  function Write(m: Trajectories, items: seq<Item>, grants: seq<Grant>, now: Time): Trajectories
    requires |items| == |grants|
  {
    if items == [] then m
    else
      var n := |items| - 1;
      var t := items[n].trajectory;
      Write(m, items[..n], grants[..n], now)[t.id := Updated(t, grants[n], now)]
  }

  /** Allocation over a given ranking. */
  function CompeteBy(m: Trajectories, ranking: seq<Item>, mode: Mode, now: Time): Trajectories {
    Write(m, ranking, Allocate(ranking, MaxActive(mode)).grants, now)
  }

  function Compete(m: Trajectories, order: seq<string>, mode: Mode, outcome: Option<Outcome>, now: Time): Trajectories
    requires forall k :: k in order ==> k in m
  {
    CompeteBy(m, Ranking(m, order, outcome, now), mode, now)
  }

  // ---------------------------------------------------------------- the ranking

  ghost predicate Setting(m: Trajectories, order: seq<string>) {
    WellKeyed(m) && Enumerates(order, m.Keys)
  }

  ghost predicate IsProcessed(m: Trajectories, item: Item, outcome: Option<Outcome>, now: Time) {
    var id := item.trajectory.id;
    id in m && m[id] == item.trajectory && Live(m[id]) && item == Process(m[id], outcome, now)
  }

  function Ids(items: seq<Item>): (ids: seq<string>)
    ensures |ids| == |items| && forall i :: 0 <= i < |items| ==> ids[i] == items[i].trajectory.id
  {
    seq(|items|, i requires 0 <= i < |items| => items[i].trajectory.id)
  }

  /** The items are the live trajectories of the memory, each of them once. */
  ghost predicate Ranks(m: Trajectories, items: seq<Item>, outcome: Option<Outcome>, now: Time) {
    && (forall i :: 0 <= i < |items| ==> IsProcessed(m, items[i], outcome, now))
    && NoDuplicates(Ids(items))
    && (forall k :: k in m && Live(m[k]) ==> k in Ids(items))
  }

  lemma {:induction false} ProcessAllContents(m: Trajectories, order: seq<string>, outcome: Option<Outcome>, now: Time)
    requires WellKeyed(m) && NoDuplicates(order) && forall k :: k in order ==> k in m
    ensures
      var items := ProcessAll(m, order, outcome, now);
      && (forall i :: 0 <= i < |items| ==> IsProcessed(m, items[i], outcome, now) && items[i].trajectory.id in order)
      && (forall k :: k in order && Live(m[k]) ==> Process(m[k], outcome, now) in items)
      && NoDuplicates(items)
    decreases |order|
  {
    if order != [] {
      var n := |order| - 1;
      ProcessAllContents(m, order[..n], outcome, now);
      assert order == order[..n] + [order[n]];
      assert order[n] !in order[..n];
    }
  }

  lemma RanksReordered(m: Trajectories, raw: seq<Item>, items: seq<Item>, outcome: Option<Outcome>, now: Time)
    requires WellKeyed(m) && NoDuplicates(raw) && multiset(raw) == multiset(items)
    requires forall i :: 0 <= i < |raw| ==> IsProcessed(m, raw[i], outcome, now)
    requires forall k :: k in m && Live(m[k]) ==> Process(m[k], outcome, now) in raw
    ensures Ranks(m, items, outcome, now)
  {
    NoDuplicatesReordered(raw, items);
    forall i | 0 <= i < |items| ensures IsProcessed(m, items[i], outcome, now) {
      assert items[i] in raw;
    }
    forall k | k in m && Live(m[k]) ensures k in Ids(items) {
      var i :| 0 <= i < |items| && items[i] == Process(m[k], outcome, now);
      assert Ids(items)[i] == k;
    }
    forall i, j | 0 <= i < j < |items| ensures Ids(items)[i] != Ids(items)[j] {
      assert items[i] != items[j];
    }
  }

  /** The ranking lists every live trajectory once, best first. */
  lemma RankingRanks(m: Trajectories, order: seq<string>, outcome: Option<Outcome>, now: Time)
    requires Setting(m, order)
    ensures Ranks(m, Ranking(m, order, outcome, now), outcome, now)
    ensures Descending(Ranking(m, order, outcome, now), ABOVE)
  {
    var raw := ProcessAll(m, order, outcome, now);
    ProcessAllContents(m, order, outcome, now);
    SortKeeps(raw, ABOVE);
    SortIsDescending(raw, ABOVE);
    RanksReordered(m, raw, SortDescending(raw, ABOVE), outcome, now);
  }

  // ---------------------------------------------------------------- what is written

  lemma {:induction false} WriteContents(m: Trajectories, items: seq<Item>, grants: seq<Grant>, now: Time)
    requires |items| == |grants| && NoDuplicates(Ids(items))
    requires forall i :: 0 <= i < |items| ==> items[i].trajectory.id in m
    ensures
      var r := Write(m, items, grants, now);
      && r.Keys == m.Keys
      && (forall i :: 0 <= i < |items| ==> r[Ids(items)[i]] == Updated(items[i].trajectory, grants[i], now))
      && (forall k :: k in m && k !in Ids(items) ==> r[k] == m[k])
    decreases |items|
  {
    if items != [] {
      var n := |items| - 1;
      assert Ids(items) == Ids(items[..n]) + [Ids(items)[n]];
      assert Ids(items)[n] !in Ids(items[..n]);
      WriteContents(m, items[..n], grants[..n], now);
    }
  }

  /** Entry by entry: a live trajectory gets its grant, an abandoned one is left alone. */
  lemma EntryOf(m: Trajectories, items: seq<Item>, mode: Mode, outcome: Option<Outcome>, now: Time, k: string)
    returns (i: nat)
    requires WellKeyed(m) && Ranks(m, items, outcome, now) && k in m
    ensures CompeteBy(m, items, mode, now).Keys == m.Keys
    ensures
      var r := CompeteBy(m, items, mode, now);
      if Live(m[k]) then
        && i < |items| && items[i] == Process(m[k], outcome, now)
        && r[k] == Updated(m[k], Allocate(items, MaxActive(mode)).grants[i], now)
      else r[k] == m[k] && k !in Ids(items)
  {
    WriteContents(m, items, Allocate(items, MaxActive(mode)).grants, now);
    if Live(m[k]) {
      i :| 0 <= i < |Ids(items)| && Ids(items)[i] == k;
      assert IsProcessed(m, items[i], outcome, now);
    } else {
      i := 0;
      forall j | 0 <= j < |items| ensures Ids(items)[j] != k {
        assert IsProcessed(m, items[j], outcome, now);
      }
    }
  }

  // ---------------------------------------------------------------- allocation safety

  function LiveWeight(g: Grant): real {
    if g.status.Abandoned? then 0.0 else g.weight
  }

  function GivenOut(grants: seq<Grant>): real {
    if grants == [] then 0.0 else GivenOut(grants[..|grants| - 1]) + LiveWeight(grants[|grants| - 1])
  }

  function CountActive(grants: seq<Grant>): nat {
    if grants == [] then 0
    else CountActive(grants[..|grants| - 1]) + if grants[|grants| - 1].status.Active? then 1 else 0
  }

  /** The unit budget is conserved: what is left plus what the live trajectories hold is one. */
  lemma {:induction false} BudgetConserved(items: seq<Item>, cap: Option<nat>)
    ensures
      var a := Allocate(items, cap);
      && a.budget >= 0.0
      && GivenOut(a.grants) + a.budget == 1.0
      && CountActive(a.grants) <= a.active
      && (cap.Some? ==> a.active <= cap.value)
    decreases |items|
  {
    if items != [] {
      var n := |items| - 1;
      BudgetConserved(items[..n], cap);
      var before, after := Allocate(items[..n], cap), Allocate(items, cap);
      assert after.grants[..n] == before.grants;
    }
  }

  /** A sum over the whole memory is a sum over the ranking when the rest contributes nothing. */
  lemma {:induction false} SumOverRanking(keys: set<string>, ids: seq<string>, grants: seq<Grant>, f: string -> real)
    requires |ids| == |grants| && NoDuplicates(ids) && forall i :: 0 <= i < |ids| ==> ids[i] in keys
    requires forall i :: 0 <= i < |ids| ==> f(ids[i]) == LiveWeight(grants[i])
    requires forall k :: k in keys && k !in ids ==> f(k) == 0.0
    ensures Sum(keys, f) == GivenOut(grants)
    decreases |ids|
  {
    if ids == [] {
      SumOfZeros(keys, f);
    } else {
      var n := |ids| - 1;
      SumExtract(keys, ids[n], f);
      assert ids == ids[..n] + [ids[n]];
      SumOverRanking(keys - {ids[n]}, ids[..n], grants[..n], f);
    }
  }

  /** Counting ACTIVE grants counts the keys they belong to. */
  lemma {:induction false} CountOverRanking(active: set<string>, ids: seq<string>, grants: seq<Grant>)
    requires |ids| == |grants| && NoDuplicates(ids)
    requires forall k :: k in active ==> k in ids
    requires forall i :: 0 <= i < |ids| ==> (grants[i].status.Active? <==> ids[i] in active)
    ensures CountActive(grants) == |active|
    decreases |ids|
  {
    if ids == [] {
      assert active == {};
    } else {
      var n := |ids| - 1;
      assert ids == ids[..n] + [ids[n]];
      CountOverRanking(active - {ids[n]}, ids[..n], grants[..n]);
    }
  }

  ghost function WeightIn(m: Trajectories): string -> real {
    k => if k in m && Live(m[k]) then m[k].weight else 0.0
  }

  ghost function ActiveKeys(m: Trajectories): set<string> {
    set k | k in m && m[k].status.Active?
  }

  /** What competing leaves, key by key. */
  lemma CompeteContents(m: Trajectories, items: seq<Item>, mode: Mode, outcome: Option<Outcome>, now: Time)
    requires WellKeyed(m) && Ranks(m, items, outcome, now)
    ensures
      var r, grants := CompeteBy(m, items, mode, now), Allocate(items, MaxActive(mode)).grants;
      r.Keys == m.Keys && Carried(r, Ids(items), grants)
  {
    var r, grants := CompeteBy(m, items, mode, now), Allocate(items, MaxActive(mode)).grants;
    WriteContents(m, items, grants, now);
    assert forall i :: 0 <= i < |items| ==> IsProcessed(m, items[i], outcome, now) && Ids(items)[i] in m;
    assert forall k :: k in m && k !in Ids(items) ==> r[k] == m[k] && !Live(m[k]);
  }

  lemma LiveSumIsGivenOut(m: Trajectories, items: seq<Item>, mode: Mode, outcome: Option<Outcome>, now: Time)
    requires WellKeyed(m) && Ranks(m, items, outcome, now)
    ensures
      var r := CompeteBy(m, items, mode, now);
      var grants := Allocate(items, MaxActive(mode)).grants;
      && r.Keys == m.Keys
      && Sum(r.Keys, WeightIn(r)) == GivenOut(grants)
      && |ActiveKeys(r)| == CountActive(grants)
  {
    CompeteContents(m, items, mode, outcome, now);
    SumFromContents(CompeteBy(m, items, mode, now), Ids(items), Allocate(items, MaxActive(mode)).grants);
    CountFromContents(CompeteBy(m, items, mode, now), Ids(items), Allocate(items, MaxActive(mode)).grants);
  }

  ghost predicate Carried(r: Trajectories, ids: seq<string>, grants: seq<Grant>) {
    && NoDuplicates(ids) && |ids| == |grants|
    && (forall i :: 0 <= i < |grants| ==>
            ids[i] in r && r[ids[i]].weight == grants[i].weight && r[ids[i]].status == grants[i].status)
    && (forall k :: k in r && k !in ids ==> !Live(r[k]))
  }

  lemma SumFromContents(r: Trajectories, ids: seq<string>, grants: seq<Grant>)
    requires Carried(r, ids, grants)
    ensures Sum(r.Keys, WeightIn(r)) == GivenOut(grants)
  {
    SumOverRanking(r.Keys, ids, grants, WeightIn(r));
  }

  lemma CountFromContents(r: Trajectories, ids: seq<string>, grants: seq<Grant>)
    requires Carried(r, ids, grants)
    ensures |ActiveKeys(r)| == CountActive(grants)
  {
    CountOverRanking(ActiveKeys(r), ids, grants);
  }

  lemma {:induction false} GrantAt(items: seq<Item>, cap: Option<nat>, i: nat)
    requires i < |items|
    ensures
      var before := Allocate(items[..i], cap);
      Allocate(items, cap).grants[i] == GrantNext(items[i], before.budget, before.active, cap)
    decreases |items|
  {
    var n := |items| - 1;
    if i < n {
      GrantAt(items[..n], cap, i);
      assert items[..n][..i] == items[..i];
    } else {
      assert items[..n] == items[..i];
    }
  }

  /** The commitment budget and the ACTIVE cap hold, nothing is lost, and nothing gains weight. */
  lemma AllocationSafe(m: Trajectories, order: seq<string>, mode: Mode, outcome: Option<Outcome>, now: Time)
    requires Setting(m, order)
    ensures
      var r := Compete(m, order, mode, outcome, now);
      && r.Keys == m.Keys && WellKeyed(r)
      && Sum(r.Keys, WeightIn(r)) <= 1.0
      && (MaxActive(mode).Some? ==> |ActiveKeys(r)| <= MaxActive(mode).value)
      && (forall k :: k in m ==> NoGain(m[k], r[k], now))
  {
    var items := Ranking(m, order, outcome, now);
    RankingRanks(m, order, outcome, now);
    SafeBy(m, items, mode, outcome, now);
  }

  /** An abandoned trajectory is untouched, and none ends up with more weight than it had. */
  ghost predicate NoGain(before: Trajectory, after: Trajectory, now: Time) {
    && after.id == before.id && after.createdAt == before.createdAt
    && (!Live(before) ==> after == before)
    && (before.weight >= 0.0 ==> 0.0 <= after.weight <= before.weight)
    && (after != before ==> after.lastUpdated == now)
  }

  lemma SafeBy(m: Trajectories, items: seq<Item>, mode: Mode, outcome: Option<Outcome>, now: Time)
    requires WellKeyed(m) && Ranks(m, items, outcome, now)
    ensures
      var r := CompeteBy(m, items, mode, now);
      && r.Keys == m.Keys && WellKeyed(r)
      && Sum(r.Keys, WeightIn(r)) <= 1.0
      && (MaxActive(mode).Some? ==> |ActiveKeys(r)| <= MaxActive(mode).value)
      && (forall k :: k in m ==> NoGain(m[k], r[k], now))
  {
    LiveSumIsGivenOut(m, items, mode, outcome, now);
    BudgetConserved(items, MaxActive(mode));
    forall k | k in m ensures NoGain(m[k], CompeteBy(m, items, mode, now)[k], now) {
      NoGainAt(m, items, mode, outcome, now, k);
    }
  }

  lemma NoGainAt(m: Trajectories, items: seq<Item>, mode: Mode, outcome: Option<Outcome>, now: Time, k: string)
    requires WellKeyed(m) && Ranks(m, items, outcome, now) && k in m
    ensures k in CompeteBy(m, items, mode, now) && NoGain(m[k], CompeteBy(m, items, mode, now)[k], now)
  {
    var i := EntryOf(m, items, mode, outcome, now, k);
    if Live(m[k]) {
      GrantAt(items, MaxActive(mode), i);
      BudgetConserved(items[..i], MaxActive(mode));
      DecayShrinks(m[k], now);
    }
  }

  lemma DecayShrinks(t: Trajectory, now: Time)
    ensures t.weight >= 0.0 ==> 0.0 <= DecayedWeight(t, now) <= t.weight
    ensures t.weight > 0.0 && Decays(t, now) ==> DecayedWeight(t, now) < t.weight
  {
  }

  // ---------------------------------------------------------------- who loses

  /** As the ranking is worked through the budget never grows and the count of ACTIVE ones never falls. */
  lemma {:induction false} AllocationMonotone(items: seq<Item>, cap: Option<nat>, i: nat, j: nat)
    requires i <= j <= |items|
    requires forall k :: 0 <= k < |items| ==> items[k].finalWeight >= 0.0
    ensures Allocate(items[..j], cap).budget <= Allocate(items[..i], cap).budget
    ensures Allocate(items[..j], cap).active >= Allocate(items[..i], cap).active
    decreases j
  {
    if i < j {
      AllocationMonotone(items, cap, i, j - 1);
      assert items[..j][..j - 1] == items[..j - 1];
    }
  }

  /** Abandoned because nothing was left, not because of decay. */
  predicate Starved(item: Item, g: Grant) {
    !item.finalStatus.Abandoned? && g.status.Abandoned?
  }

  /** The losers are always the lower ranked: whatever stays ACTIVE ranks above whatever the cap displaced, and
      whatever receives weight ranks above whatever is abandoned for lack of budget. */
  lemma LosersRankLast(items: seq<Item>, cap: Option<nat>, i: nat, j: nat)
    requires i < |items| && j < |items|
    requires forall k :: 0 <= k < |items| ==> items[k].finalWeight >= 0.0
    ensures
      var grants := Allocate(items, cap).grants;
      && (grants[i].status.Active? && grants[j].displaced ==> i < j)
      && (LiveWeight(grants[i]) > 0.0 && Starved(items[j], grants[j]) ==> i < j)
  {
    GrantAt(items, cap, i);
    GrantAt(items, cap, j);
    BudgetConserved(items[..i], cap);
    if j < i {
      AllocationMonotone(items, cap, j, i);
    }
  }

  /** The same in terms of the ranking key, for the trajectories of a memory. */
  lemma LosersHaveNoHigherKey(m: Trajectories, order: seq<string>, mode: Mode, outcome: Option<Outcome>, now: Time,
                              i: nat, j: nat)
    requires Setting(m, order) && forall k :: k in m ==> m[k].weight >= 0.0
    requires i < |Ranking(m, order, outcome, now)| && j < |Ranking(m, order, outcome, now)|
    ensures
      var items := Ranking(m, order, outcome, now);
      var grants := Allocate(items, MaxActive(mode)).grants;
      && (grants[i].status.Active? && grants[j].displaced ==> !ABOVE(items[j], items[i]))
      && (LiveWeight(grants[i]) > 0.0 && Starved(items[j], grants[j]) ==> !ABOVE(items[j], items[i]))
  {
    RankingRanks(m, order, outcome, now);
    var items := Ranking(m, order, outcome, now);
    forall k | 0 <= k < |items| ensures items[k].finalWeight >= 0.0 {
      assert IsProcessed(m, items[k], outcome, now);
    }
    LosersRankLast(items, MaxActive(mode), i, j);
  }

  // ---------------------------------------------------------------- idempotence

  /** A memory within the budget and the cap, in which nothing has decayed. */
  ghost predicate Fitting(m: Trajectories, mode: Mode, now: Time) {
    && Sum(m.Keys, WeightIn(m)) <= 1.0
    && (MaxActive(mode).Some? ==> |ActiveKeys(m)| <= MaxActive(mode).value)
    && (forall k :: k in m && Live(m[k]) ==> m[k].weight >= 0.0 && !Decays(m[k], now))
  }

  ghost predicate PositiveLiveWeights(m: Trajectories) {
    forall k :: k in m && Live(m[k]) ==> m[k].weight > 0.0
  }

  /** A memory in which nothing is left to compete for. */
  ghost predicate Settled(m: Trajectories, mode: Mode, now: Time) {
    Fitting(m, mode, now) && PositiveLiveWeights(m)
  }

  ghost predicate LiveWeightsNotNegative(m: Trajectories) {
    forall k :: k in m && Live(m[k]) ==> m[k].weight >= 0.0
  }

  /** One live trajectory and its grant: what keeps its life keeps weight, and decays no further. */
  lemma GrantFits(t: Trajectory, outcome: Option<Outcome>, budget: real, active: nat, cap: Option<nat>, now: Time)
    requires Live(t) && t.weight >= 0.0 && budget >= 0.0
    ensures
      var r := Updated(t, GrantNext(Process(t, outcome, now), budget, active, cap), now);
      Live(r) ==> r.weight >= 0.0 && !Decays(r, now) && (t.weight > 0.0 ==> r.weight > 0.0)
  {
    DecayShrinks(t, now);
    assert DaysBetween(now, now) == 0;
  }

  lemma FitsAt(m: Trajectories, items: seq<Item>, mode: Mode, outcome: Option<Outcome>, now: Time, k: string)
    requires WellKeyed(m) && Ranks(m, items, outcome, now) && k in m && LiveWeightsNotNegative(m)
    ensures k in CompeteBy(m, items, mode, now)
    ensures
      var t := CompeteBy(m, items, mode, now)[k];
      Live(t) ==> t.weight >= 0.0 && !Decays(t, now) && (m[k].weight > 0.0 ==> t.weight > 0.0)
  {
    var i := EntryOf(m, items, mode, outcome, now, k);
    if Live(m[k]) {
      var before := Allocate(items[..i], MaxActive(mode));
      GrantAt(items, MaxActive(mode), i);
      BudgetConserved(items[..i], MaxActive(mode));
      GrantFits(m[k], outcome, before.budget, before.active, MaxActive(mode), now);
    }
  }

  lemma CompeteFits(m: Trajectories, items: seq<Item>, mode: Mode, outcome: Option<Outcome>, now: Time)
    requires WellKeyed(m) && Ranks(m, items, outcome, now) && LiveWeightsNotNegative(m)
    ensures
      var r := CompeteBy(m, items, mode, now);
      Fitting(r, mode, now) && (PositiveLiveWeights(m) ==> PositiveLiveWeights(r))
  {
    SafeBy(m, items, mode, outcome, now);
    var r := CompeteBy(m, items, mode, now);
    forall k | k in r && Live(r[k])
      ensures r[k].weight >= 0.0 && !Decays(r[k], now) && (m[k].weight > 0.0 ==> r[k].weight > 0.0)
    {
      FitsAt(m, items, mode, outcome, now, k);
    }
    if PositiveLiveWeights(m) {
      forall k | k in r && Live(r[k]) ensures r[k].weight > 0.0 {
        assert NoGain(m[k], r[k], now);
      }
    }
  }

  /** What the trajectories of a ranking hold before anything is granted. */
  function Holdings(items: seq<Item>): (gs: seq<Grant>)
    ensures |gs| == |items|
  {
    seq(|items|, i requires 0 <= i < |items| =>
      Grant(items[i].trajectory.status, items[i].trajectory.weight, false, false))
  }

  /** Nothing has decayed. */
  ghost predicate Undecayed(items: seq<Item>) {
    forall i :: 0 <= i < |items| ==>
                  && items[i].finalWeight == items[i].trajectory.weight >= 0.0
                  && items[i].finalStatus == items[i].trajectory.status && Live(items[i].trajectory)
  }

  ghost predicate Stands(items: seq<Item>, i: nat)
    requires i < |items|
  {
    items[i].finalWeight > 0.0 || GivenOut(Holdings(items[..i])) < 1.0
  }

  /** Nothing without weight ranks behind trajectories that hold the whole budget. */
  ghost predicate NoneStarves(items: seq<Item>) {
    forall i :: 0 <= i < |items| ==> Stands(items, i)
  }

  lemma LastStands(items: seq<Item>)
    requires items != []
    ensures NoneStarves(items) <==> NoneStarves(items[..|items| - 1]) && Stands(items, |items| - 1)
  {
    var front := items[..|items| - 1];
    forall i | 0 <= i < |front| ensures Stands(front, i) <==> Stands(items, i) {
      assert front[..i] == items[..i];
    }
  }

  lemma {:induction false} HoldingsShrink(items: seq<Item>)
    requires Undecayed(items) && items != []
    ensures
      var n := |items| - 1;
      && Holdings(items) == Holdings(items[..n]) + [Holdings(items)[n]]
      && GivenOut(Holdings(items)) == GivenOut(Holdings(items[..n])) + items[n].trajectory.weight
      && CountActive(Holdings(items))
         == CountActive(Holdings(items[..n])) + if items[n].finalStatus.Active? then 1 else 0
  {
    assert Holdings(items)[..|items| - 1] == Holdings(items[..|items| - 1]);
  }

  /** The next one is granted what it holds, unless it starves. */
  lemma NextFits(item: Item, before: Allocation, cap: Option<nat>)
    requires item.finalWeight >= 0.0 && Live(item.trajectory) && item.finalStatus == item.trajectory.status
    requires item.finalWeight == item.trajectory.weight <= before.budget
    requires cap.Some? ==> before.active + (if item.finalStatus.Active? then 1 else 0) <= cap.value
    ensures
      var after := AllocateNext(before, item, cap);
      if item.finalWeight > 0.0 || before.budget > 0.0 then
        && after.budget == before.budget - item.finalWeight
        && after.active == before.active + (if item.finalStatus.Active? then 1 else 0)
        && after.grants == before.grants + [Grant(item.trajectory.status, item.trajectory.weight, false, false)]
      else after.grants[|before.grants|].status.Abandoned?
  {
  }

  ghost predicate Fits(items: seq<Item>, cap: Option<nat>) {
    && Undecayed(items)
    && GivenOut(Holdings(items)) <= 1.0
    && (cap.Some? ==> CountActive(Holdings(items)) <= cap.value)
  }

  /** Everyone is granted what they hold. */
  ghost predicate AllHeld(items: seq<Item>, cap: Option<nat>) {
    Allocate(items, cap) == Allocation(1.0 - GivenOut(Holdings(items)), CountActive(Holdings(items)), Holdings(items))
  }

  lemma FrontFits(items: seq<Item>, cap: Option<nat>)
    requires Fits(items, cap) && items != []
    ensures Fits(items[..|items| - 1], cap)
  {
    HoldingsShrink(items);
  }

  lemma HeldNext(items: seq<Item>, cap: Option<nat>)
    requires Fits(items, cap) && items != [] && AllHeld(items[..|items| - 1], cap)
    ensures
      if Stands(items, |items| - 1) then AllHeld(items, cap)
      else Allocate(items, cap).grants[|items| - 1].status.Abandoned?
  {
    var n := |items| - 1;
    HoldingsShrink(items);
    NextFits(items[n], Allocate(items[..n], cap), cap);
  }

  lemma GrantsStay(items: seq<Item>, cap: Option<nat>, i: nat)
    requires i < |items| - 1
    ensures Allocate(items, cap).grants[i] == Allocate(items[..|items| - 1], cap).grants[i]
  {
  }

  /** When everything fits, everyone is granted what they hold, unless something starves. */
  lemma {:induction false} EverythingFits(items: seq<Item>, cap: Option<nat>) returns (starved: nat)
    requires Fits(items, cap)
    ensures
      if NoneStarves(items) then AllHeld(items, cap)
      else starved < |items| && Allocate(items, cap).grants[starved].status.Abandoned?
    decreases |items|
  {
    starved := 0;
    if items != [] {
      var n := |items| - 1;
      FrontFits(items, cap);
      LastStands(items);
      starved := EverythingFits(items[..n], cap);
      if NoneStarves(items[..n]) {
        HeldNext(items, cap);
        if !Stands(items, n) {
          starved := n;
        }
      } else {
        GrantsStay(items, cap, starved);
      }
    }
  }

  lemma HoldingsMatch(m: Trajectories, items: seq<Item>, outcome: Option<Outcome>, now: Time)
    requires WellKeyed(m) && Ranks(m, items, outcome, now)
    ensures GivenOut(Holdings(items)) == Sum(m.Keys, WeightIn(m))
    ensures CountActive(Holdings(items)) == |ActiveKeys(m)|
  {
    assert forall i :: 0 <= i < |items| ==> IsProcessed(m, items[i], outcome, now) && Ids(items)[i] in m;
    SumOverRanking(m.Keys, Ids(items), Holdings(items), WeightIn(m));
    CountOverRanking(ActiveKeys(m), Ids(items), Holdings(items));
  }

  lemma FittingRanked(m: Trajectories, items: seq<Item>, mode: Mode, outcome: Option<Outcome>, now: Time)
    requires WellKeyed(m) && Ranks(m, items, outcome, now) && Fitting(m, mode, now)
    ensures Fits(items, MaxActive(mode))
  {
    HoldingsMatch(m, items, outcome, now);
    forall i | 0 <= i < |items|
      ensures && items[i].finalWeight == items[i].trajectory.weight >= 0.0
              && items[i].finalStatus == items[i].trajectory.status && Live(items[i].trajectory)
    {
      assert IsProcessed(m, items[i], outcome, now);
    }
  }

  lemma HeldIsKept(m: Trajectories, items: seq<Item>, mode: Mode, outcome: Option<Outcome>, now: Time)
    requires WellKeyed(m) && Ranks(m, items, outcome, now)
    requires Allocate(items, MaxActive(mode)).grants == Holdings(items)
    ensures CompeteBy(m, items, mode, now) == m
  {
    WriteContentsKeys(m, items, mode, outcome, now);
    forall k | k in m ensures k in CompeteBy(m, items, mode, now) && CompeteBy(m, items, mode, now)[k] == m[k] {
      var i := EntryOf(m, items, mode, outcome, now, k);
    }
  }

  lemma WriteContentsKeys(m: Trajectories, items: seq<Item>, mode: Mode, outcome: Option<Outcome>, now: Time)
    requires WellKeyed(m) && Ranks(m, items, outcome, now)
    ensures CompeteBy(m, items, mode, now).Keys == m.Keys
  {
    assert forall i :: 0 <= i < |items| ==> IsProcessed(m, items[i], outcome, now);
    WriteContents(m, items, Allocate(items, MaxActive(mode)).grants, now);
  }

  lemma AbandonedIsChange(m: Trajectories, items: seq<Item>, mode: Mode, outcome: Option<Outcome>, now: Time, i: nat)
    requires WellKeyed(m) && Ranks(m, items, outcome, now) && i < |items|
    requires Allocate(items, MaxActive(mode)).grants[i].status.Abandoned?
    ensures CompeteBy(m, items, mode, now) != m
  {
    assert IsProcessed(m, items[i], outcome, now);
    var j := EntryOf(m, items, mode, outcome, now, items[i].trajectory.id);
    assert Ids(items)[i] == Ids(items)[j];
  }

  /** A memory that fits is left exactly as it is if and only if nothing in the ranking starves. */
  lemma FixedIff(m: Trajectories, items: seq<Item>, mode: Mode, outcome: Option<Outcome>, now: Time)
    requires WellKeyed(m) && Ranks(m, items, outcome, now) && Fitting(m, mode, now)
    ensures CompeteBy(m, items, mode, now) == m <==> NoneStarves(items)
  {
    FittingRanked(m, items, mode, outcome, now);
    var starved := EverythingFits(items, MaxActive(mode));
    if NoneStarves(items) {
      HeldIsKept(m, items, mode, outcome, now);
    } else {
      AbandonedIsChange(m, items, mode, outcome, now, starved);
    }
  }

  /** A settled memory is left exactly as it is, whatever the signals and whatever order it is sorted into. */
  lemma SettledIsFixed(m: Trajectories, items: seq<Item>, mode: Mode, outcome: Option<Outcome>, now: Time)
    requires WellKeyed(m) && Ranks(m, items, outcome, now) && Settled(m, mode, now)
    ensures CompeteBy(m, items, mode, now) == m
  {
    forall i | 0 <= i < |items| ensures items[i].finalWeight > 0.0 {
      assert IsProcessed(m, items[i], outcome, now);
    }
    FixedIff(m, items, mode, outcome, now);
  }

  /** A second pass at the same time under the same posture changes nothing if and only if nothing without weight
      ranks behind trajectories that hold the whole budget by then. */
  lemma SecondPassIff(m: Trajectories, order: seq<string>, again: seq<string>, mode: Mode,
                      outcome: Option<Outcome>, outcomeAgain: Option<Outcome>, now: Time)
    requires Setting(m, order) && Enumerates(again, m.Keys) && LiveWeightsNotNegative(m)
    ensures
      var r := Compete(m, order, mode, outcome, now);
      && r.Keys == m.Keys
      && (Compete(r, again, mode, outcomeAgain, now) == r <==> NoneStarves(Ranking(r, again, outcomeAgain, now)))
  {
    var r := Compete(m, order, mode, outcome, now);
    RankingRanks(m, order, outcome, now);
    AllocationSafe(m, order, mode, outcome, now);
    CompeteFits(m, Ranking(m, order, outcome, now), mode, outcome, now);
    RankingRanks(r, again, outcomeAgain, now);
    FixedIff(r, Ranking(r, again, outcomeAgain, now), mode, outcomeAgain, now);
  }

  /** With weight in every live trajectory a second pass never changes anything. */
  lemma CompeteIsIdempotent(m: Trajectories, order: seq<string>, again: seq<string>, mode: Mode,
                            outcome: Option<Outcome>, outcomeAgain: Option<Outcome>, now: Time)
    requires Setting(m, order) && Enumerates(again, m.Keys) && PositiveLiveWeights(m)
    ensures
      var r := Compete(m, order, mode, outcome, now);
      && r.Keys == m.Keys
      && Compete(r, again, mode, outcomeAgain, now) == r
  {
    var r := Compete(m, order, mode, outcome, now);
    RankingRanks(m, order, outcome, now);
    AllocationSafe(m, order, mode, outcome, now);
    CompeteFits(m, Ranking(m, order, outcome, now), mode, outcome, now);
    RankingRanks(r, again, outcomeAgain, now);
    SettledIsFixed(r, Ranking(r, again, outcomeAgain, now), mode, outcomeAgain, now);
  }

  const DISPLACING: Trajectories :=
    map["a" := Trajectory("a", Active, 0.5, 0, 0), "b" := Trajectory("b", Active, 0.0, 0, 0),
        "c" := Trajectory("c", Stalled, 0.5, 0, 0)]

  lemma RankThree(m: Trajectories, now: Time)
    requires m.Keys == {"a", "b", "c"} && Live(m["a"]) && Live(m["b"]) && Live(m["c"])
    ensures
      var a, b, c := Process(m["a"], None, now), Process(m["b"], None, now), Process(m["c"], None, now);
      && (!ABOVE(b, a) && !ABOVE(c, b) ==> Ranking(m, ["a", "b", "c"], None, now) == [a, b, c])
      && (!ABOVE(c, a) && ABOVE(c, b) ==> Ranking(m, ["a", "b", "c"], None, now) == [a, c, b])
  {
    var a, b, c := Process(m["a"], None, now), Process(m["b"], None, now), Process(m["c"], None, now);
    assert ["a"][..0] == [] && ["a", "b"][..1] == ["a"] && ["a", "b", "c"][..2] == ["a", "b"];
    assert ProcessAll(m, [], None, now) == [];
    assert ProcessAll(m, ["a"], None, now) == [a];
    assert ProcessAll(m, ["a", "b"], None, now) == [a, b];
    assert ProcessAll(m, ["a", "b", "c"], None, now) == [a, b, c];
    SortThree(a, b, c);
  }

  lemma SortThree(a: Item, b: Item, c: Item)
    ensures !ABOVE(b, a) && !ABOVE(c, b) ==> SortDescending([a, b, c], ABOVE) == [a, b, c]
    ensures !ABOVE(c, a) && ABOVE(c, b) ==> SortDescending([a, b, c], ABOVE) == [a, c, b]
  {
    assert [a, b, c][1..] == [b, c] && [b, c][1..] == [c] && [c][1..] == [];
    assert Insert(c, [], ABOVE) == [c] && Insert(b, [], ABOVE) == [b];
    assert SortDescending([c], ABOVE) == [c];
    assert Insert(b, [c], ABOVE) == if ABOVE(c, b) then [c, b] else [b, c];
    assert SortDescending([b, c], ABOVE) == Insert(b, [c], ABOVE);
  }

  lemma AllocateThree(x: Item, y: Item, z: Item, cap: Option<nat>)
    ensures
      var u := AllocateNext(Allocation(1.0, 0, []), x, cap);
      Allocate([x, y, z], cap) == AllocateNext(AllocateNext(u, y, cap), z, cap)
  {
    assert [x][..0] == [] && [x, y][..1] == [x] && [x, y, z][..2] == [x, y];
    assert Allocate([], cap) == Allocation(1.0, 0, []);
    assert Allocate([x], cap) == AllocateNext(Allocation(1.0, 0, []), x, cap);
    assert Allocate([x, y], cap) == AllocateNext(Allocate([x], cap), y, cap);
  }

  lemma WriteThree(m: Trajectories, x: Item, y: Item, z: Item, gs: seq<Grant>, now: Time)
    requires |gs| == 3
    ensures Write(m, [x, y, z], gs, now)
            == m[x.trajectory.id := Updated(x.trajectory, gs[0], now)]
                [y.trajectory.id := Updated(y.trajectory, gs[1], now)]
                [z.trajectory.id := Updated(z.trajectory, gs[2], now)]
  {
    assert [x][..0] == [] && [x, y][..1] == [x] && [x, y, z][..2] == [x, y];
    assert gs[..2] == [gs[0], gs[1]] && [gs[0], gs[1]][..1] == [gs[0]] && [gs[0]][..0] == [];
    assert Write(m, [], [], now) == m;
    assert Write(m, [x], [gs[0]], now) == m[x.trajectory.id := Updated(x.trajectory, gs[0], now)];
    assert Write(m, [x, y], [gs[0], gs[1]], now)
        == Write(m, [x], [gs[0]], now)[y.trajectory.id := Updated(y.trajectory, gs[1], now)];
  }

  /** An input: in TACTICAL mode a weightless ACTIVE trajectory is displaced by the first pass, and then ranks last
      and is abandoned by the second. */
  lemma DisplacedThenAbandoned()
    ensures
      var order := ["a", "b", "c"];
      var r := Compete(DISPLACING, order, Tactical, None, 0);
      && r == DISPLACING["b" := Trajectory("b", Stalled, 0.0, 0, 0)]
      && Compete(r, order, Tactical, None, 0) == r["b" := Trajectory("b", Abandoned, 0.0, 0, 0)]
  {
    DisplacedFirst();
    AbandonedNext();
  }

  lemma RewritesOnlyB(m: Trajectories, t: Trajectory)
    requires m.Keys == {"a", "b", "c"}
    ensures m["a" := m["a"]]["b" := t]["c" := m["c"]] == m["b" := t]
  {
  }

  lemma DisplacedFirst()
    ensures Compete(DISPLACING, ["a", "b", "c"], Tactical, None, 0)
            == DISPLACING["b" := Trajectory("b", Stalled, 0.0, 0, 0)]
  {
    RewritesOnlyB(DISPLACING, Trajectory("b", Stalled, 0.0, 0, 0));
    RanksAsListed();
    GrantsDisplacing(DISPLACING, DISPLACING["a"], DISPLACING["b"], DISPLACING["c"]);
  }

  lemma RanksAsListed()
    ensures Ranking(DISPLACING, ["a", "b", "c"], None, 0)
            == [Process(DISPLACING["a"], None, 0), Process(DISPLACING["b"], None, 0), Process(DISPLACING["c"], None, 0)]
  {
    RankThree(DISPLACING, 0);
  }

  lemma GrantsDisplacing(m: Trajectories, a: Trajectory, b: Trajectory, c: Trajectory)
    requires a.status.Active? && a.weight == 0.5 && b.status.Active? && b.weight == 0.0 && c.status.Stalled?
    requires c.weight == 0.5
    requires a.lastUpdated == b.lastUpdated == c.lastUpdated == 0
    ensures CompeteBy(m, [Process(a, None, 0), Process(b, None, 0), Process(c, None, 0)], Tactical, 0)
            == m[a.id := a][b.id := b.(status := Stalled)][c.id := c]
  {
    var x, y, z := Process(a, None, 0), Process(b, None, 0), Process(c, None, 0);
    AllocateThree(x, y, z, Some(1));
    WriteThree(m, x, y, z, Allocate([x, y, z], Some(1)).grants, 0);
    var u := AllocateNext(Allocation(1.0, 0, []), x, Some(1));
    assert u == Allocation(0.5, 1, [Grant(Active, 0.5, false, false)]);
    assert AllocateNext(u, y, Some(1))
           == Allocation(0.5, 1, [Grant(Active, 0.5, false, false), Grant(Stalled, 0.0, true, false)]);
  }

  lemma AbandonedNext()
    ensures
      var r := DISPLACING["b" := Trajectory("b", Stalled, 0.0, 0, 0)];
      Compete(r, ["a", "b", "c"], Tactical, None, 0) == r["b" := Trajectory("b", Abandoned, 0.0, 0, 0)]
  {
    var r := DISPLACING["b" := Trajectory("b", Stalled, 0.0, 0, 0)];
    RankThree(r, 0);
    var x, y, z := Process(r["a"], None, 0), Process(r["c"], None, 0), Process(r["b"], None, 0);
    AllocateThree(x, y, z, Some(1));
    WriteThree(r, x, y, z, Allocate([x, y, z], Some(1)).grants, 0);
  }

  // ---------------------------------------------------------------- the service

  datatype Diagnostics = Diagnostics(displaced: seq<string>, budgetCapped: seq<string>, decayed: seq<string>)

  function DecayedIds(items: seq<Item>): seq<string> {
    if items == [] then []
    else
      var n := |items| - 1;
      DecayedIds(items[..n]) + if items[n].finalStatus.Abandoned? then [items[n].trajectory.id] else []
  }

  /** The ids of the items whose grants satisfy a test, in ranking order. */
  function IdsWhere(items: seq<Item>, grants: seq<Grant>, test: Grant -> bool): seq<string>
    requires |items| == |grants|
  {
    if items == [] then []
    else
      var n := |items| - 1;
      IdsWhere(items[..n], grants[..n], test) + if test(grants[n]) then [items[n].trajectory.id] else []
  }

  const DISPLACED: Grant -> bool := (g: Grant) => g.displaced
  const CAPPED: Grant -> bool := (g: Grant) => g.capped

  lemma {:induction false} IdsWhereContents(items: seq<Item>, grants: seq<Grant>, test: Grant -> bool, k: string)
    requires |items| == |grants|
    ensures k in IdsWhere(items, grants, test)
            <==> exists i :: 0 <= i < |items| && Ids(items)[i] == k && test(grants[i])
    decreases |items|
  {
    if items != [] {
      var n := |items| - 1;
      IdsWhereContents(items[..n], grants[..n], test, k);
      if k in IdsWhere(items[..n], grants[..n], test) {
        var i :| 0 <= i < n && Ids(items[..n])[i] == k && test(grants[..n][i]);
        assert Ids(items)[i] == k && test(grants[i]);
      }
      forall i | 0 <= i < n && Ids(items)[i] == k && test(grants[i])
        ensures k in IdsWhere(items[..n], grants[..n], test)
      {
        assert Ids(items[..n])[i] == k && test(grants[..n][i]);
      }
    }
  }

  /** Boost and decay of one live trajectory. */
  method Rate(t: Trajectory, outcome: Option<Outcome>, now: Time) returns (item: Item)
    requires Live(t)
    ensures item == Process(t, outcome, now)
  {
    var weight, status, boost := t.weight, t.status, 0.0;
    if now - t.lastUpdated < SECOND && outcome.Some? {
      if outcome.value.Success? {
        boost := 0.2;
      } else if outcome.value.Blocked? {
        boost := -0.2;
      }
    }
    if t.status.Stalled? {
      var days := DaysBetween(t.lastUpdated, now);
      if days > 7 {
        weight := MaxR(0.0, weight - 0.05 * (days - 7) as real);
        if weight < 0.1 {
          status := Abandoned;
        }
      }
    }
    item := Item(t, weight + boost, weight, status);
  }

  /** The cap and the budget check for one ranked item. */
  method Grant1(item: Item, budget: real, active: nat, cap: Option<nat>)
    returns (g: Grant, budgetLeft: real, activeNow: nat)
    requires !item.finalStatus.Abandoned?
    ensures g == GrantNext(item, budget, active, cap)
    ensures forall gs ::
              AllocateNext(Allocation(budget, active, gs), item, cap) == Allocation(budgetLeft, activeNow, gs + [g])
  {
    var status, weight, displaced, capped := item.finalStatus, item.finalWeight, false, false;
    budgetLeft, activeNow := budget, active;
    if cap.Some? && active >= cap.value {
      if status.Active? {
        status, displaced := Stalled, true;
      }
    }
    if status.Active? {
      activeNow := activeNow + 1;
    }
    if budget <= 0.0 {
      status, weight, capped := Abandoned, 0.0, true;
    } else if weight > budget {
      weight, budgetLeft, capped := budget, 0.0, true;
    } else {
      budgetLeft := budget - weight;
    }
    g := Grant(status, weight, displaced, capped);
  }

  /** `compete`: rate the live trajectories, rank them, and work through the ranking. */
  method RunCompetition(m: Trajectories, order: seq<string>, mode: Mode, outcome: Option<Outcome>, now: Time)
    returns (r: Trajectories, diagnostics: Diagnostics)
    requires Setting(m, order)
    ensures r == Compete(m, order, mode, outcome, now)
    ensures
      var items := Ranking(m, order, outcome, now);
      var grants := Allocate(items, MaxActive(mode)).grants;
      diagnostics == Diagnostics(IdsWhere(items, grants, DISPLACED), IdsWhere(items, grants, CAPPED),
                                 DecayedIds(ProcessAll(m, order, outcome, now)))
  {
    var processed: seq<Item>, decayed: seq<string> := [], [];
    for i := 0 to |order|
      invariant processed == ProcessAll(m, order[..i], outcome, now)
      invariant decayed == DecayedIds(processed)
    {
      assert order[..i + 1][..i] == order[..i];
      if Live(m[order[i]]) {
        var item := Rate(m[order[i]], outcome, now);
        assert (processed + [item])[..|processed|] == processed;
        processed := processed + [item];
        if item.finalStatus.Abandoned? {
          decayed := decayed + [item.trajectory.id];
        }
      }
    }
    assert order[..|order|] == order;
    RankingRanks(m, order, outcome, now);
    ghost var grants;
    var displaced, capped;
    r, displaced, capped, grants := RunAllocation(m, SortDescending(processed, ABOVE), mode, outcome, now);
    diagnostics := Diagnostics(displaced, capped, decayed);
  }

  method RunAllocation(m: Trajectories, items: seq<Item>, mode: Mode, ghost outcome: Option<Outcome>, now: Time)
    returns (r: Trajectories, displaced: seq<string>, capped: seq<string>, ghost grants: seq<Grant>)
    requires Ranks(m, items, outcome, now)
    ensures grants == Allocate(items, MaxActive(mode)).grants
    ensures r == CompeteBy(m, items, mode, now)
    ensures displaced == IdsWhere(items, grants, DISPLACED) && capped == IdsWhere(items, grants, CAPPED)
  {
    var cap := MaxActive(mode);
    var budget: real, active: nat := 1.0, 0;
    r, displaced, capped, grants := m, [], [], [];
    for i := 0 to |items|
      invariant |grants| == i
      invariant Allocate(items[..i], cap) == Allocation(budget, active, grants)
      invariant r == Write(m, items[..i], grants, now)
      invariant displaced == IdsWhere(items[..i], grants, DISPLACED) && capped == IdsWhere(items[..i], grants, CAPPED)
    {
      var item := items[i];
      var t := item.trajectory;
      ghost var before := grants;
      ghost var g := GrantNext(item, budget, active, cap);
      NextGrant(m, items, i, before, g, cap, now);
      if item.finalStatus.Abandoned? {
        r := r[t.id := Trajectory(t.id, Abandoned, item.finalWeight, t.createdAt, now)];
      } else {
        var granted;
        granted, budget, active := Grant1(item, budget, active, cap);
        if granted.displaced {
          displaced := displaced + [t.id];
        }
        if granted.capped {
          capped := capped + [t.id];
        }
        if granted.status != t.status || granted.weight != t.weight {
          r := r[t.id := Trajectory(t.id, granted.status, granted.weight, t.createdAt, now)];
        } else {
          UnchangedWrite(m, items, i, before, outcome, now);
        }
      }
      grants := before + [g];
    }
    assert items[..|items|] == items;
  }

  /** How the specification goes from one item to the next. */
  lemma NextGrant(m: Trajectories, items: seq<Item>, i: nat, grants: seq<Grant>, g: Grant, cap: Option<nat>, now: Time)
    requires i < |items| && |grants| == i
    ensures
      var t, front, upTo := items[i].trajectory, items[..i], items[..i + 1];
      && Allocate(upTo, cap) == AllocateNext(Allocate(front, cap), items[i], cap)
      && Write(m, upTo, grants + [g], now) == Write(m, front, grants, now)[t.id := Updated(t, g, now)]
      && IdsWhere(upTo, grants + [g], DISPLACED)
         == IdsWhere(front, grants, DISPLACED) + (if g.displaced then [t.id] else [])
      && IdsWhere(upTo, grants + [g], CAPPED) == IdsWhere(front, grants, CAPPED) + (if g.capped then [t.id] else [])
  {
    assert items[..i + 1][..i] == items[..i];
    assert (grants + [g])[..i] == grants;
  }

  /** Writing back a trajectory the loop has not touched yet is no change. */
  lemma UnchangedWrite(m: Trajectories, items: seq<Item>, i: nat, grants: seq<Grant>, outcome: Option<Outcome>,
                       now: Time)
    requires Ranks(m, items, outcome, now) && i < |items| && |grants| == i
    ensures
      var t := items[i].trajectory;
      Write(m, items[..i], grants, now)[t.id := t] == Write(m, items[..i], grants, now)
  {
    var t, done := items[i].trajectory, items[..i];
    assert IsProcessed(m, items[i], outcome, now);
    assert forall k :: 0 <= k < i ==> Ids(done)[k] == Ids(items)[k] && Ids(items)[k] != Ids(items)[i];
    assert forall k :: 0 <= k < i ==> IsProcessed(m, items[k], outcome, now);
    WriteContents(m, done, grants, now);
  }
}
