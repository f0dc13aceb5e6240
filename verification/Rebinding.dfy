/** Reflection on stalled and abandoned trajectories, and the rebinding of their commitment. */
module Rebinding {
  import opened Base
  import opened FiniteSums
  import opened Strategy

  datatype ReflectionOutcome = Retry | Transform | Abandon

  datatype Cause = Policy | Environment | Resource | UnknownCause

  datatype StrategicReflection = StrategicReflection(
    trajectoryId: string, outcome: ReflectionOutcome, cause: Cause, confidenceAdjustment: real)

  datatype TrajectoryRebinding = TrajectoryRebinding(
    sourceId: string, targetId: string, transferred: real, cause: Cause)

  const SETTLING_TIME: int := 60 * SECOND

  // ---------------------------------------------------------------- reflection

  predicate Reflects(t: Trajectory, now: Time) {
    !t.status.Active? && now - t.lastUpdated >= SETTLING_TIME
  }

  function InferCause(t: Trajectory, path: PathStatus): Cause {
    if path.abandonment.Hard? then Policy
    else if path.abandonment.Soft? then Environment
    else if t.weight < 0.1 then Resource
    else UnknownCause
  }

  function ReflectOn(t: Trajectory, paths: Paths, mode: Mode): StrategicReflection {
    var cause := InferCause(t, GetStatus(paths, [t.id]));
    if mode.Tactical? then StrategicReflection(t.id, Abandon, cause, -0.05)
    else
      match cause
      case Policy => StrategicReflection(t.id, Abandon, cause, -0.1)
      case Environment =>
        if mode.Strategic? then StrategicReflection(t.id, Transform, cause, 0.05)
        else StrategicReflection(t.id, Abandon, cause, 0.0)
      case Resource => StrategicReflection(t.id, Transform, cause, 0.0)
      case UnknownCause =>
        StrategicReflection(t.id, if t.status.Stalled? then Retry else Abandon, cause, 0.0)
  }

  function Reflect(ts: Trajectories, order: seq<string>, paths: Paths, mode: Mode, now: Time): seq<StrategicReflection>
    requires forall k :: k in order ==> k in ts
  {
    if order == [] then []
    else
      var n := |order| - 1;
      Reflect(ts, order[..n], paths, mode, now)
      + if Reflects(ts[order[n]], now) then [ReflectOn(ts[order[n]], paths, mode)] else []
  }

  // ---------------------------------------------------------------- rebinding

  /** `max(active, key=weight)`: the first of the heaviest. */
  function HeaviestActive(ts: Trajectories, order: seq<string>): (best: Option<Trajectory>)
    requires forall k :: k in order ==> k in ts
    ensures best.Some? ==> best.value.status.Active? && exists k :: k in order && ts[k] == best.value
    ensures forall k :: k in order && ts[k].status.Active? ==> best.Some? && ts[k].weight <= best.value.weight
  {
    if order == [] then None
    else
      var n := |order| - 1;
      var best := HeaviestActive(ts, order[..n]);
      var t := ts[order[n]];
      if t.status.Active? && (best.None? || t.weight > best.value.weight) then Some(t) else best
  }

  function Drained(t: Trajectory, now: Time): Trajectory {
    t.(status := Abandoned, weight := 0.0, lastUpdated := now)
  }

  function Boosted(t: Trajectory, amount: real, now: Time): Trajectory {
    t.(weight := MinR(1.0, t.weight + amount), lastUpdated := now)
  }

  datatype Progress = Progress(trajectories: Trajectories, rebindings: seq<TrajectoryRebinding>)

  predicate Transfers(r: StrategicReflection, source: Trajectory, target: Option<Trajectory>) {
    r.outcome.Transform? && target.Some? && source.id != target.value.id
  }

  function RebindOne(ts: Trajectories, target: Option<Trajectory>, p: Progress, r: StrategicReflection,
                     mode: Mode, now: Time): Progress
  {
    if r.trajectoryId !in ts then p
    else
      var source := ts[r.trajectoryId];
      if mode.Tactical? then
        if r.outcome.Abandon? && !source.status.Abandoned? then
          p.(trajectories := p.trajectories[source.id := Drained(source, now)])
        else p
      else if Transfers(r, source, target) then
        var amount := source.weight * 0.8;
        var drained := p.trajectories[source.id := Drained(source, now)];
        var current := if target.value.id in drained then drained[target.value.id] else target.value;
        Progress(drained[target.value.id := Boosted(current, amount, now)],
                 p.rebindings + [TrajectoryRebinding(source.id, target.value.id, amount, r.cause)])
      else if r.outcome.Retry? then
        p.(trajectories := p.trajectories[source.id := source.(status := Active, lastUpdated := now)])
      else if r.outcome.Abandon? && (!source.status.Abandoned? || source.weight > 0.0) then
        p.(trajectories := p.trajectories[source.id := Drained(source, now)])
      else p
  }

  function RebindAll(ts: Trajectories, target: Option<Trajectory>, reflections: seq<StrategicReflection>,
                     mode: Mode, now: Time): Progress
  {
    if reflections == [] then Progress(ts, [])
    else
      var n := |reflections| - 1;
      RebindOne(ts, target, RebindAll(ts, target, reflections[..n], mode, now), reflections[n], mode, now)
  }

  function Rebind(ts: Trajectories, order: seq<string>, reflections: seq<StrategicReflection>, mode: Mode,
                  now: Time): Progress
    requires forall k :: k in order ==> k in ts
  {
    RebindAll(ts, HeaviestActive(ts, order), reflections, mode, now)
  }

  // ---------------------------------------------------------------- what reflection promises to rebinding

  /** The reflections name distinct trajectories of the memory, none of them ACTIVE. */
  ghost predicate Reflected(ts: Trajectories, reflections: seq<StrategicReflection>, now: Time) {
    && (forall i :: 0 <= i < |reflections| ==>
                      var id := reflections[i].trajectoryId;
                      id in ts && Reflects(ts[id], now))
    && (forall i, j :: 0 <= i < j < |reflections| ==> reflections[i].trajectoryId != reflections[j].trajectoryId)
  }

  lemma {:induction false} ReflectReflects(ts: Trajectories, order: seq<string>, paths: Paths, mode: Mode, now: Time)
    requires WellKeyed(ts) && NoDuplicates(order) && forall k :: k in order ==> k in ts
    ensures
      var rs := Reflect(ts, order, paths, mode, now);
      && Reflected(ts, rs, now)
      && (forall i :: 0 <= i < |rs| ==>
              rs[i].trajectoryId in order && rs[i] == ReflectOn(ts[rs[i].trajectoryId], paths, mode))
    decreases |order|
  {
    if order != [] {
      var n := |order| - 1;
      ReflectReflects(ts, order[..n], paths, mode, now);
      assert order == order[..n] + [order[n]];
      assert order[n] !in order[..n];
    }
  }

  // ---------------------------------------------------------------- no commitment is created

  ghost function WeightOf(ts: Trajectories): string -> real {
    k => if k in ts then ts[k].weight else 0.0
  }

  /** The weight of every trajectory together, abandoned ones included. */
  ghost function TotalWeight(ts: Trajectories): real {
    Sum(ts.Keys, WeightOf(ts))
  }

  lemma TotalAfterWrite(ts: Trajectories, k: string, t: Trajectory)
    requires k in ts
    ensures TotalWeight(ts[k := t]) == TotalWeight(ts) - ts[k].weight + t.weight
  {
    assert ts[k := t].Keys == ts.Keys;
    SumUpdate(ts.Keys, k, WeightOf(ts), WeightOf(ts[k := t]));
  }

  /** A fifth of every transformed source is lost, which is a quarter of what was transferred. */
  function Loss(rebindings: seq<TrajectoryRebinding>): real {
    if rebindings == [] then 0.0
    else Loss(rebindings[..|rebindings| - 1]) + rebindings[|rebindings| - 1].transferred / 4.0
  }

  ghost predicate TargetOf(ts: Trajectories, target: Option<Trajectory>) {
    target.Some? ==> target.value.id in ts && ts[target.value.id] == target.value && target.value.status.Active?
  }

  predicate IsTarget(target: Option<Trajectory>, k: string) {
    target.Some? && target.value.id == k
  }

  /** The ids the reflections so far are about. */
  function IdsOf(rs: seq<StrategicReflection>): set<string> {
    if rs == [] then {} else IdsOf(rs[..|rs| - 1]) + {rs[|rs| - 1].trajectoryId}
  }

  lemma {:induction false} IdsOfContents(rs: seq<StrategicReflection>, k: string)
    ensures k in IdsOf(rs) <==> exists i :: 0 <= i < |rs| && rs[i].trajectoryId == k
    decreases |rs|
  {
    if rs != [] {
      IdsOfContents(rs[..|rs| - 1], k);
    }
  }

  /** What the loop keeps about the entries: only the target and the ids seen so far have moved. */
  ghost predicate Framed(ts: Trajectories, target: Option<Trajectory>, done: set<string>, now: Trajectories) {
    && now.Keys == ts.Keys && WellKeyed(now)
    && (forall k :: k in ts && !IsTarget(target, k) && k !in done ==> now[k] == ts[k])
  }

  ghost predicate ActiveKept(ts: Trajectories, now: Trajectories)
    requires now.Keys == ts.Keys
  {
    forall k :: k in ts && ts[k].status.Active? ==> now[k].status.Active? && now[k].weight >= ts[k].weight
  }

  lemma LossAppend(rbs: seq<TrajectoryRebinding>, rb: TrajectoryRebinding)
    ensures Loss(rbs + [rb]) == Loss(rbs) + rb.transferred / 4.0
  {
    assert (rbs + [rb])[..|rbs|] == rbs;
  }

  ghost predicate Step(ts: Trajectories, target: Option<Trajectory>, done: set<string>, p: Progress,
                       r: StrategicReflection)
  {
    && WellKeyed(ts) && TargetOf(ts, target) && Framed(ts, target, done, p.trajectories)
    && r.trajectoryId in ts && !IsTarget(target, r.trajectoryId) && r.trajectoryId !in done
    && !ts[r.trajectoryId].status.Active?
  }

  lemma StepFramed(ts: Trajectories, target: Option<Trajectory>, done: set<string>, p: Progress,
                   r: StrategicReflection, mode: Mode, now: Time)
    requires Step(ts, target, done, p, r)
    ensures Framed(ts, target, done + {r.trajectoryId}, RebindOne(ts, target, p, r, mode, now).trajectories)
  {
  }

  lemma StepKeepsActive(ts: Trajectories, target: Option<Trajectory>, done: set<string>, p: Progress,
                        r: StrategicReflection, mode: Mode, now: Time)
    requires Step(ts, target, done, p, r) && UnitWeights(ts) && UnitWeights(p.trajectories)
    requires ActiveKept(ts, p.trajectories)
    ensures
      var q := RebindOne(ts, target, p, r, mode, now);
      q.trajectories.Keys == ts.Keys && UnitWeights(q.trajectories) && ActiveKept(ts, q.trajectories)
  {
  }

  /** Both ends of a transfer together. */
  lemma TransferTotal(before: Trajectories, source: string, target: string, drained: Trajectory, boosted: Trajectory)
    requires source in before && target in before && source != target
    ensures TotalWeight(before[source := drained][target := boosted])
            == TotalWeight(before) - before[source].weight - before[target].weight + drained.weight + boosted.weight
  {
    TotalAfterWrite(before, source, drained);
    TotalAfterWrite(before[source := drained], target, boosted);
  }

  lemma TransferLoses(ts: Trajectories, target: Trajectory, p: Progress, r: StrategicReflection, mode: Mode, now: Time)
    requires !mode.Tactical? && r.trajectoryId in ts && Transfers(r, ts[r.trajectoryId], Some(target))
    requires WellKeyed(ts) && p.trajectories.Keys == ts.Keys && target.id in ts
    requires p.trajectories[r.trajectoryId] == ts[r.trajectoryId]
    ensures
      var q := RebindOne(ts, Some(target), p, r, mode, now);
      TotalWeight(q.trajectories) + Loss(q.rebindings) <= TotalWeight(p.trajectories) + Loss(p.rebindings)
  {
    var source := ts[r.trajectoryId];
    var amount := source.weight * 0.8;
    var boosted := Boosted(p.trajectories[target.id], amount, now);
    assert boosted.weight <= p.trajectories[target.id].weight + amount;
    TransferTotal(p.trajectories, source.id, target.id, Drained(source, now), boosted);
    LossAppend(p.rebindings, TrajectoryRebinding(source.id, target.id, amount, r.cause));
  }

  lemma StepLoses(ts: Trajectories, target: Option<Trajectory>, done: set<string>, p: Progress,
                  r: StrategicReflection, mode: Mode, now: Time)
    requires Step(ts, target, done, p, r) && UnitWeights(ts)
    ensures
      var q := RebindOne(ts, target, p, r, mode, now);
      TotalWeight(q.trajectories) + Loss(q.rebindings) <= TotalWeight(p.trajectories) + Loss(p.rebindings)
  {
    var source := ts[r.trajectoryId];
    assert p.trajectories[source.id] == source;
    if !mode.Tactical? && Transfers(r, source, target) {
      TransferLoses(ts, target.value, p, r, mode, now);
    } else {
      TotalAfterWrite(p.trajectories, source.id, Drained(source, now));
      TotalAfterWrite(p.trajectories, source.id, source.(status := Active, lastUpdated := now));
    }
  }

  lemma NotYetSeen(ts: Trajectories, target: Option<Trajectory>, rs: seq<StrategicReflection>, now: Time)
    requires rs != [] && TargetOf(ts, target) && Reflected(ts, rs, now)
    ensures
      var r := rs[|rs| - 1];
      r.trajectoryId in ts && r.trajectoryId !in IdsOf(rs[..|rs| - 1]) && !IsTarget(target, r.trajectoryId)
      && !ts[r.trajectoryId].status.Active?
  {
    assert Reflects(ts[rs[|rs| - 1].trajectoryId], now);
    IdsOfContents(rs[..|rs| - 1], rs[|rs| - 1].trajectoryId);
  }

  lemma {:induction false} RebindAllConserves(ts: Trajectories, target: Option<Trajectory>,
                                              rs: seq<StrategicReflection>, mode: Mode, now: Time)
    requires WellKeyed(ts) && UnitWeights(ts) && TargetOf(ts, target) && Reflected(ts, rs, now)
    ensures
      var p := RebindAll(ts, target, rs, mode, now);
      && Framed(ts, target, IdsOf(rs), p.trajectories) && UnitWeights(p.trajectories)
      && ActiveKept(ts, p.trajectories)
      && TotalWeight(p.trajectories) + Loss(p.rebindings) <= TotalWeight(ts)
    decreases |rs|
  {
    if rs != [] {
      var n := |rs| - 1;
      var p := RebindAll(ts, target, rs[..n], mode, now);
      RebindAllConserves(ts, target, rs[..n], mode, now);
      NotYetSeen(ts, target, rs, now);
      StepFramed(ts, target, IdsOf(rs[..n]), p, rs[n], mode, now);
      StepKeepsActive(ts, target, IdsOf(rs[..n]), p, rs[n], mode, now);
      StepLoses(ts, target, IdsOf(rs[..n]), p, rs[n], mode, now);
    }
  }

  /** Rebinding after reflection creates no commitment: the total falls by at least a fifth of every transformed
      source, every weight stays in [0, 1], and no ACTIVE trajectory loses weight or status. */
  lemma RebindingCreatesNoCommitment(ts: Trajectories, order: seq<string>, paths: Paths, mode: Mode, now: Time)
    requires WellKeyed(ts) && UnitWeights(ts) && Enumerates(order, ts.Keys)
    ensures
      var p := Rebind(ts, order, Reflect(ts, order, paths, mode, now), mode, now);
      && p.trajectories.Keys == ts.Keys && WellKeyed(p.trajectories) && UnitWeights(p.trajectories)
      && TotalWeight(p.trajectories) <= TotalWeight(ts) - Loss(p.rebindings)
      && ActiveKept(ts, p.trajectories)
  {
    ReflectReflects(ts, order, paths, mode, now);
    RebindAllConserves(ts, HeaviestActive(ts, order), Reflect(ts, order, paths, mode, now), mode, now);
  }

  // ---------------------------------------------------------------- what each trajectory becomes

  /** A reflection that makes rebinding rewrite its trajectory without reporting it: a retry, an abandonment. */
  predicate Unreported(ts: Trajectories, target: Option<Trajectory>, r: StrategicReflection, mode: Mode) {
    && r.trajectoryId in ts
    && var source := ts[r.trajectoryId];
       if mode.Tactical? then r.outcome.Abandon? && !source.status.Abandoned?
       else !Transfers(r, source, target)
            && (r.outcome.Retry? || (r.outcome.Abandon? && (!source.status.Abandoned? || source.weight > 0.0)))
  }

  function SilentIds(ts: Trajectories, target: Option<Trajectory>, rs: seq<StrategicReflection>,
                     mode: Mode): set<string>
  {
    if rs == [] then {}
    else
      var r := rs[|rs| - 1];
      SilentIds(ts, target, rs[..|rs| - 1], mode) + if Unreported(ts, target, r, mode) then {r.trajectoryId} else {}
  }

  function ReportedIds(rbs: seq<TrajectoryRebinding>): set<string> {
    if rbs == [] then {}
    else ReportedIds(rbs[..|rbs| - 1]) + {rbs[|rbs| - 1].sourceId, rbs[|rbs| - 1].targetId}
  }

  lemma ReportedAppend(rbs: seq<TrajectoryRebinding>, rb: TrajectoryRebinding)
    ensures ReportedIds(rbs + [rb]) == ReportedIds(rbs) + {rb.sourceId, rb.targetId}
  {
    assert (rbs + [rb])[..|rbs|] == rbs;
  }

  /** A trajectory differs from where it started only if it was one end of a reported rebinding or silently
      rewritten, never both; and a silent rewrite always shows, in the time stamp at least. */
  ghost predicate Traced(ts: Trajectories, p: Progress, silent: set<string>, now: Time) {
    && p.trajectories.Keys == ts.Keys
    && (forall k :: k in ts && k !in ReportedIds(p.rebindings) && k !in silent ==> p.trajectories[k] == ts[k])
    && (forall k :: k in silent ==> k in ts && k !in ReportedIds(p.rebindings) && p.trajectories[k].lastUpdated == now)
  }

  ghost predicate TracedIds(ts: Trajectories, target: Option<Trajectory>, done: set<string>, p: Progress,
                            silent: set<string>)
  {
    && silent <= done
    && (forall k :: k in ReportedIds(p.rebindings) ==> k in ts && (k in done || IsTarget(target, k)))
  }

  lemma TransferTraced(ts: Trajectories, target: Trajectory, done: set<string>, p: Progress, silent: set<string>,
                       r: StrategicReflection, mode: Mode, now: Time)
    requires Step(ts, Some(target), done, p, r) && Traced(ts, p, silent, now)
    requires TracedIds(ts, Some(target), done, p, silent) && target.id !in done
    requires !mode.Tactical? && Transfers(r, ts[r.trajectoryId], Some(target))
    ensures
      var q := RebindOne(ts, Some(target), p, r, mode, now);
      Traced(ts, q, silent, now) && TracedIds(ts, Some(target), done + {r.trajectoryId}, q, silent)
  {
    var source := ts[r.trajectoryId];
    var rb := TrajectoryRebinding(source.id, target.id, source.weight * 0.8, r.cause);
    ReportedAppend(p.rebindings, rb);
    assert RebindOne(ts, Some(target), p, r, mode, now).rebindings == p.rebindings + [rb];
  }

  lemma StepTraced(ts: Trajectories, target: Option<Trajectory>, done: set<string>, p: Progress, silent: set<string>,
                   r: StrategicReflection, mode: Mode, now: Time)
    requires Step(ts, target, done, p, r) && Traced(ts, p, silent, now) && TracedIds(ts, target, done, p, silent)
    requires forall k :: k in done ==> !IsTarget(target, k)
    ensures
      var q := RebindOne(ts, target, p, r, mode, now);
      var after := silent + if Unreported(ts, target, r, mode) then {r.trajectoryId} else {};
      Traced(ts, q, after, now) && TracedIds(ts, target, done + {r.trajectoryId}, q, after)
  {
    var source := ts[r.trajectoryId];
    if !mode.Tactical? && Transfers(r, source, target) {
      TransferTraced(ts, target.value, done, p, silent, r, mode, now);
      assert silent + {} == silent;
    } else {
      var q := RebindOne(ts, target, p, r, mode, now);
      assert q.rebindings == p.rebindings;
      assert Unreported(ts, target, r, mode) ==>
               q.trajectories == p.trajectories[source.id := q.trajectories[source.id]]
                                                 && q.trajectories[source.id].lastUpdated == now;
      assert !Unreported(ts, target, r, mode) ==> q.trajectories == p.trajectories;
    }
  }

  lemma {:induction false} RebindAllTraced(ts: Trajectories, target: Option<Trajectory>,
                                           rs: seq<StrategicReflection>, mode: Mode, now: Time)
    requires WellKeyed(ts) && TargetOf(ts, target) && Reflected(ts, rs, now)
    ensures
      var p := RebindAll(ts, target, rs, mode, now);
      && Framed(ts, target, IdsOf(rs), p.trajectories)
      && Traced(ts, p, SilentIds(ts, target, rs, mode), now)
      && TracedIds(ts, target, IdsOf(rs), p, SilentIds(ts, target, rs, mode))
      && (forall k :: k in IdsOf(rs) ==> !IsTarget(target, k))
    decreases |rs|
  {
    if rs != [] {
      var n := |rs| - 1;
      var p := RebindAll(ts, target, rs[..n], mode, now);
      RebindAllTraced(ts, target, rs[..n], mode, now);
      NotYetSeen(ts, target, rs, now);
      StepFramed(ts, target, IdsOf(rs[..n]), p, rs[n], mode, now);
      StepTraced(ts, target, IdsOf(rs[..n]), p, SilentIds(ts, target, rs[..n], mode), rs[n], mode, now);
    }
  }

  // ---------------------------------------------------------------- the services

  method RunReflection(ts: Trajectories, order: seq<string>, paths: Paths, mode: Mode, now: Time)
    returns (reflections: seq<StrategicReflection>)
    requires forall k :: k in order ==> k in ts
    ensures reflections == Reflect(ts, order, paths, mode, now)
  {
    reflections := [];
    for i := 0 to |order|
      invariant reflections == Reflect(ts, order[..i], paths, mode, now)
    {
      assert order[..i + 1][..i] == order[..i];
      var t := ts[order[i]];
      if !t.status.Active? && now - t.lastUpdated >= SETTLING_TIME {
        var path := GetStatus(paths, [t.id]);
        var cause := UnknownCause;
        if path.abandonment.Hard? {
          cause := Policy;
        } else if path.abandonment.Soft? {
          cause := Environment;
        } else if t.weight < 0.1 {
          cause := Resource;
        }
        var outcome, adjustment := Abandon, 0.0;
        if mode.Tactical? {
          adjustment := -0.05;
        } else if cause.Policy? {
          adjustment := -0.1;
        } else if cause.Environment? {
          if mode.Strategic? {
            outcome, adjustment := Transform, 0.05;
          }
        } else if cause.Resource? {
          outcome := Transform;
        } else if t.status.Stalled? {
          outcome := Retry;
        }
        reflections := reflections + [StrategicReflection(t.id, outcome, cause, adjustment)];
      }
    }
    assert order[..|order|] == order;
  }

  method RunRebinding(ts: Trajectories, order: seq<string>, reflections: seq<StrategicReflection>, mode: Mode,
                      now: Time) returns (r: Trajectories, rebindings: seq<TrajectoryRebinding>)
    requires forall k :: k in order ==> k in ts
    ensures Progress(r, rebindings) == Rebind(ts, order, reflections, mode, now)
  {
    var target := HeaviestActive(ts, order);
    r, rebindings := ts, [];
    for i := 0 to |reflections|
      invariant Progress(r, rebindings) == RebindAll(ts, target, reflections[..i], mode, now)
    {
      assert reflections[..i + 1][..i] == reflections[..i];
      var reflection := reflections[i];
      if reflection.trajectoryId in ts {
        var source := ts[reflection.trajectoryId];
        if mode.Tactical? {
          if reflection.outcome.Abandon? && !source.status.Abandoned? {
            r := r[source.id := Drained(source, now)];
          }
        } else if reflection.outcome.Transform? && target.Some? && source.id != target.value.id {
          var amount := source.weight * 0.8;
          r := r[source.id := Drained(source, now)];
          var current := if target.value.id in r then r[target.value.id] else target.value;
          r := r[target.value.id := Boosted(current, amount, now)];
          rebindings := rebindings + [TrajectoryRebinding(source.id, target.value.id, amount, reflection.cause)];
        } else if reflection.outcome.Retry? {
          r := r[source.id := source.(status := Active, lastUpdated := now)];
        } else if reflection.outcome.Abandon? {
          if !source.status.Abandoned? || source.weight > 0.0 {
            r := r[source.id := Drained(source, now)];
          }
        }
      }
    }
    assert reflections[..|reflections|] == reflections;
  }
}
