/** What any run of ticks keeps: the posture in its bounds, every weight in [0, 1], and the total commitment. The
    competition holds live weights to 1, and a context by itself stays there; with at least two other domains'
    trajectories in its memory, what rebinding brings back out of abandoned ones can come on top.
 */
module Commitment {
  import opened Base
  import opened FiniteSums
  import opened Strategy
  import opened ExecutionResults
  import opened Feedback
  import opened LifeLoop
  import opened Contexts
  import Competition
  import Learning
  import Rebinding
  import Replay
  import Restart

  ghost function AbandonedIn(m: Trajectories): string -> real {
    k => if k in m && !Competition.Live(m[k]) then m[k].weight else 0.0
  }

  ghost function LiveTotal(m: Trajectories): real {
    Sum(m.Keys, Competition.WeightIn(m))
  }

  ghost function AbandonedTotal(m: Trajectories): real {
    Sum(m.Keys, AbandonedIn(m))
  }

  lemma TotalSplits(m: Trajectories)
    requires UnitWeights(m)
    ensures Rebinding.TotalWeight(m) == LiveTotal(m) + AbandonedTotal(m) && AbandonedTotal(m) >= 0.0
  {
    SumPlus(m.Keys, Competition.WeightIn(m), AbandonedIn(m), Rebinding.WeightOf(m));
    SumNonNegative(m.Keys, AbandonedIn(m));
  }

  lemma LocalKeepsUnit(st: State, i: Input)
    requires UnitWeights(st.trajectories)
    ensures UnitWeights(Local(st, i))
  {
  }

  lemma CompetitionKeepsUnit(st: State, i: Input)
    requires Ready(st, i) && UnitWeights(st.trajectories)
    ensures UnitWeights(Trajectories1(st, i)) && LiveTotal(Trajectories1(st, i)) <= 1.0
  {
    var before, after := Local(st, i), Trajectories1(st, i);
    LocalKeepsUnit(st, i);
    Competition.AllocationSafe(before, i.order, Posture1(st, i).mode, Some(Interpret(i.result).outcome), i.now);
    forall k | k in after ensures 0.0 <= after[k].weight <= 1.0 {
      assert Competition.NoGain(before[k], after[k], i.now);
    }
  }

  // ---------------------------------------------------------------- what rebinding does to the live total

  function LiveOf(t: Trajectory): real {
    if Competition.Live(t) then t.weight else 0.0
  }

  lemma LiveAfterWrite(m: Trajectories, k: string, t: Trajectory)
    requires k in m
    ensures LiveTotal(m[k := t]) == LiveTotal(m) - LiveOf(m[k]) + LiveOf(t)
  {
    assert m[k := t].Keys == m.Keys;
    SumUpdate(m.Keys, k, Competition.WeightIn(m), Competition.WeightIn(m[k := t]));
  }

  predicate Moves(ts: Trajectories, target: Option<Trajectory>, r: Rebinding.StrategicReflection, mode: Mode) {
    r.trajectoryId in ts && !mode.Tactical? && Rebinding.Transfers(r, ts[r.trajectoryId], target)
  }

  predicate Drains(ts: Trajectories, target: Option<Trajectory>, r: Rebinding.StrategicReflection, mode: Mode) {
    r.trajectoryId in ts && (Moves(ts, target, r, mode) || r.outcome.Abandon?)
  }

  function MovedBy(ts: Trajectories, target: Option<Trajectory>, r: Rebinding.StrategicReflection, mode: Mode): real {
    if Moves(ts, target, r, mode) then ts[r.trajectoryId].weight else 0.0
  }

  function DrainedBy(ts: Trajectories, target: Option<Trajectory>, r: Rebinding.StrategicReflection, mode: Mode): real {
    if Drains(ts, target, r, mode) then LiveOf(ts[r.trajectoryId]) else 0.0
  }

  /** The weight of everything that is transformed into the target. */
  function Transformed(ts: Trajectories, target: Option<Trajectory>, rs: seq<Rebinding.StrategicReflection>,
                       mode: Mode): real
  {
    if rs == [] then 0.0
    else Transformed(ts, target, rs[..|rs| - 1], mode) + MovedBy(ts, target, rs[|rs| - 1], mode)
  }

  /** The live weight of everything that is drained: stalled trajectories transformed or abandoned. */
  function DrainedLive(ts: Trajectories, target: Option<Trajectory>, rs: seq<Rebinding.StrategicReflection>,
                       mode: Mode): real
  {
    if rs == [] then 0.0
    else DrainedLive(ts, target, rs[..|rs| - 1], mode) + DrainedBy(ts, target, rs[|rs| - 1], mode)
  }

  /** What the target weighs once that much has been transformed into it: four fifths arrive, up to 1. */
  function Lifted(weight: real, transformed: real): real {
    MinR(1.0, weight + 0.8 * transformed)
  }

  function Gained(target: Option<Trajectory>, transformed: real): real {
    if target.None? then 0.0 else Lifted(target.value.weight, transformed) - target.value.weight
  }

  ghost predicate TargetLifted(target: Option<Trajectory>, transformed: real, m: Trajectories) {
    && transformed >= 0.0
    && (target.Some? ==> target.value.id in m && m[target.value.id].status.Active?
                         && m[target.value.id].weight == Lifted(target.value.weight, transformed))
    && (target.None? ==> transformed == 0.0)
  }

  lemma LiftedTwice(weight: real, transformed: real, more: real)
    requires weight <= 1.0 && transformed >= 0.0 && more >= 0.0
    ensures MinR(1.0, Lifted(weight, transformed) + more * 0.8) == Lifted(weight, transformed + more)
  {
  }

  /** One reflection that transforms its trajectory. */
  lemma TransferLive(ts: Trajectories, target: Trajectory, m: Trajectories, source: Trajectory, transformed: real,
                     now: Time)
    requires source.id in m && m[source.id] == source && target.id in m && source.id != target.id
    requires !source.status.Active?
    requires 0.0 <= source.weight && target.weight <= 1.0 && TargetLifted(Some(target), transformed, m)
    ensures
      var after := m[source.id := Rebinding.Drained(source, now)]
                    [target.id := Rebinding.Boosted(m[target.id], source.weight * 0.8, now)];
      && TargetLifted(Some(target), transformed + source.weight, after)
      && LiveTotal(after)
         == LiveTotal(m) + Gained(Some(target), transformed + source.weight) - Gained(Some(target), transformed)
                             - LiveOf(source)
  {
    var drained := m[source.id := Rebinding.Drained(source, now)];
    LiveAfterWrite(m, source.id, Rebinding.Drained(source, now));
    LiveAfterWrite(drained, target.id, Rebinding.Boosted(m[target.id], source.weight * 0.8, now));
    LiftedTwice(target.weight, transformed, source.weight);
  }

  /** One reflection that does not. */
  lemma KeepLive(ts: Trajectories, target: Option<Trajectory>, done: set<string>, p: Rebinding.Progress,
                 r: Rebinding.StrategicReflection, mode: Mode, now: Time)
    requires Rebinding.Step(ts, target, done, p, r) && !Moves(ts, target, r, mode) && UnitWeights(ts)
    requires r.outcome.Retry? ==> ts[r.trajectoryId].status.Stalled? && !mode.Tactical?
    ensures
      var q := Rebinding.RebindOne(ts, target, p, r, mode, now).trajectories;
      && LiveTotal(q) == LiveTotal(p.trajectories) - DrainedBy(ts, target, r, mode)
      && (target.Some? ==> q[target.value.id] == p.trajectories[target.value.id])
  {
    var source := ts[r.trajectoryId];
    assert p.trajectories[source.id] == source;
    LiveAfterWrite(p.trajectories, source.id, Rebinding.Drained(source, now));
    LiveAfterWrite(p.trajectories, source.id, source.(status := Active, lastUpdated := now));
  }

  /** Reflection retries stalled trajectories only, and nothing in TACTICAL mode. */
  ghost predicate RetriesStalled(ts: Trajectories, rs: seq<Rebinding.StrategicReflection>, mode: Mode) {
    forall j :: 0 <= j < |rs| && rs[j].outcome.Retry? ==>
                  rs[j].trajectoryId in ts && ts[rs[j].trajectoryId].status.Stalled? && !mode.Tactical?
  }

  lemma OneRebindingLive(ts: Trajectories, target: Option<Trajectory>, done: set<string>, p: Rebinding.Progress,
                         r: Rebinding.StrategicReflection, mode: Mode, now: Time, transformed: real)
    requires Rebinding.Step(ts, target, done, p, r) && UnitWeights(ts)
    requires r.outcome.Retry? ==> ts[r.trajectoryId].status.Stalled? && !mode.Tactical?
    requires TargetLifted(target, transformed, p.trajectories)
    ensures
      var q := Rebinding.RebindOne(ts, target, p, r, mode, now).trajectories;
      var more := transformed + MovedBy(ts, target, r, mode);
      && TargetLifted(target, more, q)
      && LiveTotal(q)
         == LiveTotal(p.trajectories) + Gained(target, more) - Gained(target, transformed)
            - DrainedBy(ts, target, r, mode)
  {
    if Moves(ts, target, r, mode) {
      TransferLive(ts, target.value, p.trajectories, ts[r.trajectoryId], transformed, now);
    } else {
      KeepLive(ts, target, done, p, r, mode, now);
    }
  }

  lemma LastStep(ts: Trajectories, target: Option<Trajectory>, rs: seq<Rebinding.StrategicReflection>, mode: Mode,
                 now: Time)
    requires rs != [] && WellKeyed(ts) && Rebinding.TargetOf(ts, target) && Rebinding.Reflected(ts, rs, now)
    ensures
      var front := rs[..|rs| - 1];
      var done := Rebinding.RebindAll(ts, target, front, mode, now);
      Rebinding.Step(ts, target, Rebinding.IdsOf(front), done, rs[|rs| - 1])
  {
    Rebinding.RebindAllTraced(ts, target, rs[..|rs| - 1], mode, now);
    Rebinding.NotYetSeen(ts, target, rs, now);
  }

  /** The live total after rebinding, exactly: what the target gains, less the live weight that is drained. */
  lemma {:induction false} RebindAllLive(ts: Trajectories, target: Option<Trajectory>,
                                         rs: seq<Rebinding.StrategicReflection>, mode: Mode, now: Time)
    requires WellKeyed(ts) && UnitWeights(ts) && Rebinding.TargetOf(ts, target) && Rebinding.Reflected(ts, rs, now)
    requires RetriesStalled(ts, rs, mode)
    ensures
      var m := Rebinding.RebindAll(ts, target, rs, mode, now).trajectories;
      && TargetLifted(target, Transformed(ts, target, rs, mode), m)
      && LiveTotal(m)
         == LiveTotal(ts) + Gained(target, Transformed(ts, target, rs, mode)) - DrainedLive(ts, target, rs, mode)
    decreases |rs|
  {
    if rs != [] {
      var n := |rs| - 1;
      RebindAllLive(ts, target, rs[..n], mode, now);
      LastStep(ts, target, rs, mode, now);
      OneRebindingLive(ts, target, Rebinding.IdsOf(rs[..n]), Rebinding.RebindAll(ts, target, rs[..n], mode, now),
                       rs[n], mode, now, Transformed(ts, target, rs[..n], mode));
    }
  }

  /** What a memory's target stands to gain by reflection and rebinding, and what will be drained. */
  function GainAhead(ts: Trajectories, order: seq<string>, paths: Paths, mode: Mode, now: Time): real
    requires forall k :: k in order ==> k in ts
  {
    var target := Rebinding.HeaviestActive(ts, order);
    Gained(target, Transformed(ts, target, Rebinding.Reflect(ts, order, paths, mode, now), mode))
  }

  function DrainAhead(ts: Trajectories, order: seq<string>, paths: Paths, mode: Mode, now: Time): real
    requires forall k :: k in order ==> k in ts
  {
    DrainedLive(ts, Rebinding.HeaviestActive(ts, order), Rebinding.Reflect(ts, order, paths, mode, now), mode)
  }

  /** Rebinding commits more than 1 exactly when the memory before it, with what its heaviest ACTIVE trajectory stands
      to gain and without the live weight about to be drained, is more than 1. */
  lemma RebindingOvercommitsIff(ts: Trajectories, order: seq<string>, paths: Paths, mode: Mode, now: Time)
    requires WellKeyed(ts) && UnitWeights(ts) && Enumerates(order, ts.Keys)
    ensures
      var after := Rebinding.Rebind(ts, order, Rebinding.Reflect(ts, order, paths, mode, now), mode, now).trajectories;
      && LiveTotal(after)
         == LiveTotal(ts) + GainAhead(ts, order, paths, mode, now) - DrainAhead(ts, order, paths, mode, now)
      && (LiveTotal(after) > 1.0
          <==> GainAhead(ts, order, paths, mode, now) > 1.0 - LiveTotal(ts) + DrainAhead(ts, order, paths, mode, now))
  {
    var rs := Rebinding.Reflect(ts, order, paths, mode, now);
    Rebinding.ReflectReflects(ts, order, paths, mode, now);
    forall j | 0 <= j < |rs| && rs[j].outcome.Retry? ensures ts[rs[j].trajectoryId].status.Stalled? && !mode.Tactical? {
      assert rs[j] == Rebinding.ReflectOn(ts[rs[j].trajectoryId], paths, mode);
    }
    RebindAllLive(ts, Rebinding.HeaviestActive(ts, order), rs, mode, now);
  }

  /** One tick: the competition leaves at most 1 alive, and rebinding changes that by exactly what it moves and
      drains. */
  lemma TickCommitment(st: State, i: Input)
    requires Ready(st, i) && UnitWeights(st.trajectories)
    ensures UnitWeights(Next(st, i).trajectories)
    ensures
      var ts, mode := Trajectories1(st, i), Posture1(st, i).mode;
      && LiveTotal(ts) <= 1.0
      && LiveTotal(Next(st, i).trajectories)
         == LiveTotal(ts) + GainAhead(ts, i.order, Paths1(st, i), mode, i.now)
            - DrainAhead(ts, i.order, Paths1(st, i), mode, i.now)
    ensures LiveTotal(Next(st, i).trajectories)
            <= 1.0 + AbandonedTotal(Trajectories1(st, i)) - Rebinding.Loss(Rebound(st, i).rebindings)
  {
    var ts := Trajectories1(st, i);
    CompetitionKeepsUnit(st, i);
    Rebinding.RebindingCreatesNoCommitment(ts, i.order, Paths1(st, i), Posture1(st, i).mode, i.now);
    RebindingOvercommitsIff(ts, i.order, Paths1(st, i), Posture1(st, i).mode, i.now);
    TotalSplits(ts);
    TotalSplits(Next(st, i).trajectories);
  }

  // ---------------------------------------------------------------- when a tick overcommits

  lemma {:induction false} SomethingMoves(ts: Trajectories, target: Option<Trajectory>,
                                          rs: seq<Rebinding.StrategicReflection>, mode: Mode) returns (j: nat)
    requires Transformed(ts, target, rs, mode) != 0.0
    ensures j < |rs| && Moves(ts, target, rs[j], mode)
    decreases |rs|
  {
    var n := |rs| - 1;
    if Moves(ts, target, rs[n], mode) {
      j := n;
    } else {
      j := SomethingMoves(ts, target, rs[..n], mode);
    }
  }

  lemma {:induction false} DrainedAtLeast(ts: Trajectories, target: Option<Trajectory>,
                                          rs: seq<Rebinding.StrategicReflection>, mode: Mode, j: nat)
    requires UnitWeights(ts) && j < |rs|
    ensures DrainedLive(ts, target, rs, mode) >= DrainedBy(ts, target, rs[j], mode)
    ensures DrainedLive(ts, target, rs, mode) >= 0.0
    decreases |rs|
  {
    var n := |rs| - 1;
    if n > 0 {
      DrainedAtLeast(ts, target, rs[..n], mode, if j < n then j else 0);
    }
  }

  lemma {:induction false} DrainedNonNegative(ts: Trajectories, target: Option<Trajectory>,
                                              rs: seq<Rebinding.StrategicReflection>, mode: Mode)
    requires UnitWeights(ts)
    ensures DrainedLive(ts, target, rs, mode) >= 0.0
    decreases |rs|
  {
    if rs != [] {
      DrainedAtLeast(ts, target, rs, mode, 0);
    }
  }

  lemma TwoLive(ts: Trajectories, a: string, b: string)
    requires a in ts && b in ts && a != b && |ts.Keys| <= 2
    ensures LiveTotal(ts) == LiveOf(ts[a]) + LiveOf(ts[b])
  {
    var f := Competition.WeightIn(ts);
    assert ts.Keys == {a, b} + (ts.Keys - {a, b});
    assert |ts.Keys| == |{a, b}| + |ts.Keys - {a, b}|;
    SumExtract(ts.Keys, a, f);
    SumExtract(ts.Keys - {a}, b, f);
    assert ts.Keys - {a} - {b} == {};
  }

  lemma CardinalityMonotone<T>(a: set<T>, b: set<T>)
    requires a <= b
    ensures |a| <= |b|
  {
    assert b == a + (b - a);
  }

  /** With two trajectories at the most, what moves into the target leaves nothing live beside it. */
  lemma TwoStayWithin(ts: Trajectories, target: Option<Trajectory>, rs: seq<Rebinding.StrategicReflection>, mode: Mode)
    requires WellKeyed(ts) && UnitWeights(ts) && Rebinding.TargetOf(ts, target) && LiveTotal(ts) <= 1.0
    requires |ts.Keys| <= 2
    ensures LiveTotal(ts) + Gained(target, Transformed(ts, target, rs, mode)) - DrainedLive(ts, target, rs, mode) <= 1.0
  {
    DrainedNonNegative(ts, target, rs, mode);
    if Transformed(ts, target, rs, mode) != 0.0 {
      var j := SomethingMoves(ts, target, rs, mode);
      DrainedAtLeast(ts, target, rs, mode, j);
      TwoLive(ts, target.value.id, rs[j].trajectoryId);
    }
  }

  /** A tick that leaves more than 1 committed needs a memory with two trajectories beside the context's own, or three
      without it: the heaviest ACTIVE one, another live one, and one to be transformed. */
  lemma OvercommittingNeedsThree(st: State, i: Input)
    requires Ready(st, i) && UnitWeights(st.trajectories) && LiveTotal(Next(st, i).trajectories) > 1.0
    ensures |Trajectories1(st, i).Keys| >= 3
    ensures |st.trajectories.Keys - {i.domain}| >= 2
  {
    var ts, mode := Trajectories1(st, i), Posture1(st, i).mode;
    CompetitionKeepsUnit(st, i);
    if |ts.Keys| <= 2 {
      TwoStayWithin(ts, Rebinding.HeaviestActive(ts, i.order), Reflections(st, i), mode);
      TickCommitment(st, i);
    }
    assert ts.Keys <= (st.trajectories.Keys - {i.domain}) + {i.domain};
    CardinalityMonotone(ts.Keys, (st.trajectories.Keys - {i.domain}) + {i.domain});
  }

  /** In every run of a context, saves and restarts included, the live commitment is at most 1 and every weight in
      [0, 1]. */
  lemma {:induction false} OwnRunsCommitAtMostOne(c: StrategicContext, steps: seq<Restart.Step>)
    requires Restart.Run(c, steps).Some? && Restart.OneDomain(steps, c.domain)
    ensures
      var ts := Restart.Run(c, steps).value.loop.live.trajectories;
      UnitWeights(ts) && LiveTotal(ts) <= 1.0
    decreases |steps|
  {
    if steps != [] {
      var front, s := steps[..|steps| - 1], steps[|steps| - 1];
      OwnRunsCommitAtMostOne(c, front);
      Restart.OwnRun(c, front);
      OwnStepCommitment(Restart.Run(c, front).value, s, c.domain);
    }
  }

  lemma OwnStepCommitment(tr: Restart.Track, s: Restart.Step, domain: string)
    requires Restart.Inv(tr) && Restart.NothingLost(tr, domain) && Restart.CanStep(tr.loop, s)
    requires UnitWeights(tr.loop.live.trajectories) && LiveTotal(tr.loop.live.trajectories) <= 1.0
    ensures
      var ts := Restart.DoStep(tr.loop, s).live.trajectories;
      UnitWeights(ts) && LiveTotal(ts) <= 1.0
  {
    match s
    case Feedback(t) =>
      OwnTick(tr.loop.live, t.input);
      CompetitionKeepsUnit(tr.loop.live, t.input);
    case Idle(_) =>
    case Form(_) =>
    case Learn(_) =>
    case Register(_) =>
      Restart.RestartOf(tr);
      Restart.MirrorsAll(Replay.Restore(tr.loop.snapshot, tr.loop.ledger).value, tr.loop.live);
  }

  lemma TickPosture(st: State, i: Input)
    requires Ready(st, i)
    ensures Bounded(Next(st, i).posture)
    ensures st.posture.mode.Tactical? ==> !Next(st, i).posture.mode.Strategic?
    ensures st.posture.mode.Strategic? ==> !Next(st, i).posture.mode.Tactical?
  {
  }

  /** What moves a state: a tick with feedback, or what is learned after a tick. */
  datatype Move = Ticks(input: Input) | Learns(signal: Learning.Signal)

  ghost function RunMoves(moves: seq<Move>): Option<State> {
    if moves == [] then Some(BLANK)
    else
      match RunMoves(moves[..|moves| - 1])
      case None => None
      case Some(st) =>
        match moves[|moves| - 1]
        case Ticks(i) => if Ready(st, i) then Some(Next(st, i)) else None
        case Learns(signal) => Some(st.(posture := Learning.Learned(st.posture, signal)))
  }

  /** In every run of ticks and learning, whatever the results: the posture stays in its bounds, and every trajectory
      stays under its own id with a weight in [0, 1]. */
  lemma {:induction false} TicksStayBounded(moves: seq<Move>)
    requires RunMoves(moves).Some?
    ensures
      var st := RunMoves(moves).value;
      Bounded(st.posture) && WellKeyed(st.trajectories) && UnitWeights(st.trajectories)
    decreases |moves|
  {
    if moves != [] {
      var n := |moves| - 1;
      var st := RunMoves(moves[..n]).value;
      TicksStayBounded(moves[..n]);
      match moves[n]
      case Ticks(i) =>
        TickCommitment(st, i);
        TickPosture(st, i);
        ReboundTraced(st, i);
      case Learns(signal) => Learning.LearningStaysBounded(st.posture, signal);
    }
  }
}
