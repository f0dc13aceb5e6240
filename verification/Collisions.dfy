/** When a context's restart can lose a trajectory: exactly when another context with another domain has the same key.
    The runs that show it begin with nothing stored.
 */
module Collisions {
  import opened Base
  import opened FiniteSums
  import opened Strategy
  import opened ExecutionResults
  import opened Feedback
  import opened Replay
  import opened LifeLoop
  import opened Contexts
  import opened Restart
  import Competition
  import Rebinding

  // ---------------------------------------------------------------- making a tick happen

  function Numbered(payloads: seq<Payload>, from: Id, now: Time): seq<StrategicEvent> {
    seq(|payloads|, j requires 0 <= j < |payloads| =>
      StrategicEvent(from + j, now, payloads[j].eventType, payloads[j].details))
  }

  ghost predicate InNumber(events: seq<StrategicEvent>) {
    forall j :: 0 <= j < |events| ==> events[j].id == j
  }

  lemma NumberedRecords(payloads: seq<Payload>, from: Id, now: Time)
    ensures Records(Numbered(payloads, from, now), payloads)
  {
  }

  lemma NumberedFollow(ledger: seq<StrategicEvent>, payloads: seq<Payload>, now: Time)
    requires InNumber(ledger)
    ensures InNumber(ledger + Numbered(payloads, |ledger|, now))
    ensures DistinctIds(ledger + Numbered(payloads, |ledger|, now))
  {
    var all := ledger + Numbered(payloads, |ledger|, now);
    forall j | 0 <= j < |all| ensures all[j].id == j {
    }
  }

  ghost function TickFor(l: Loop, i: Input): Tick
    requires Ready(l.live, i)
  {
    Tick(i, Numbered(Emitted(l.live, i), |l.ledger|, i.now), false)
  }

  lemma TickIsPossible(l: Loop, i: Input)
    requires InNumber(l.ledger) && Ready(l.live, i) && i.domain == l.context.domain
    ensures CanTick(l, TickFor(l, i)) && InNumber(DoTick(l, TickFor(l, i)).ledger)
  {
    NumberedRecords(Emitted(l.live, i), |l.ledger|, i.now);
    NumberedFollow(l.ledger, Emitted(l.live, i), i.now);
  }

  lemma RunAppend(c: StrategicContext, steps: seq<Step>, s: Step)
    requires Run(c, steps).Some? && CanStep(Run(c, steps).value.loop, s)
    ensures Run(c, steps + [s]) == Some(DoTrack(Run(c, steps).value, s))
  {
    assert (steps + [s])[..|steps|] == steps;
  }

  // ---------------------------------------------------------------- a memory of one trajectory

  lemma OneSettles(t: Trajectory, mode: Mode, now: Time)
    requires Competition.Live(t) && 0.0 < t.weight <= 1.0 && !Competition.Decays(t, now)
    ensures Competition.Settled(map[t.id := t], mode, now)
  {
    var m := map[t.id := t];
    assert m.Keys == {t.id};
    SumExtract(m.Keys, t.id, Competition.WeightIn(m));
    assert m.Keys - {t.id} == {};
    assert Competition.ActiveKeys(m) <= {t.id};
    SubsetOfOne(Competition.ActiveKeys(m), t.id);
  }

  lemma SubsetOfOne(s: set<string>, x: string)
    requires s <= {x}
    ensures |s| <= 1
  {
    if x in s {
      assert s == {x};
    } else {
      assert s == {};
    }
  }

  lemma OneCompetes(t: Trajectory, mode: Mode, outcome: Option<Outcome>, now: Time)
    requires Competition.Live(t) && 0.0 < t.weight <= 1.0 && !Competition.Decays(t, now)
    ensures Competition.Compete(map[t.id := t], [t.id], mode, outcome, now) == map[t.id := t]
  {
    var m := map[t.id := t];
    OneSettles(t, mode, now);
    Competition.RankingRanks(m, [t.id], outcome, now);
    Competition.SettledIsFixed(m, Competition.Ranking(m, [t.id], outcome, now), mode, outcome, now);
  }

  /** Paths nobody has given up keep the mode away from TACTICAL. */
  ghost predicate NoneAbandoned(paths: Paths) {
    forall k :: k in paths ==> paths[k].abandonment.NoAbandonment?
  }

  lemma {:induction false} NothingToCount(paths: Paths, order: seq<PathKey>, now: Time)
    requires NoneAbandoned(paths) && forall k :: k in order ==> k in paths
    ensures forall s :: s in Recent(paths, order, now) ==> s.abandonment.NoAbandonment?
    decreases |order|
  {
    if order != [] {
      NothingToCount(paths, order[..|order| - 1], now);
    }
  }

  lemma {:induction false} CountsNothing(statuses: seq<PathStatus>, level: Abandonment)
    requires (forall s :: s in statuses ==> s.abandonment.NoAbandonment?) && !level.NoAbandonment?
    ensures CountAbandoned(statuses, level) == 0
    decreases |statuses|
  {
    if statuses != [] {
      CountsNothing(statuses[..|statuses| - 1], level);
      assert statuses[|statuses| - 1] in statuses;
    }
  }

  lemma CalmHorizon(p: Posture, paths: Paths, order: seq<PathKey>, now: Time)
    requires NoneAbandoned(paths) && (forall k :: k in order ==> k in paths)
    requires !p.mode.Tactical? && p.confidenceBaseline >= 0.1
    ensures !EvaluateHorizon(p, paths, order, now).mode.Tactical?
  {
    var recent := Recent(paths, order, now);
    NothingToCount(paths, order, now);
    CountsNothing(recent, Soft);
    CountsNothing(recent, Hard);
    if recent != [] {
      var density := MinR(1.0, CountFailures(recent) as real / (|recent| as real * 3.0));
      assert Health(p, recent) == Clamp(0.0, 1.0, 1.0 - density * 0.3 + (p.confidenceBaseline - 0.5) * 0.2);
    }
  }

  // ---------------------------------------------------------------- the run

  const ACTION := "act"

  /** The context's one trajectory, one path, and a mode that is not TACTICAL. */
  ghost predicate Alone(st: State, t: Trajectory, failures: nat) {
    && st.trajectories == map[t.id := t] && st.paths.Keys == {[t.id, ACTION]}
    && NoneAbandoned(st.paths) && st.paths[[t.id, ACTION]].failureCount == failures
    && !st.posture.mode.Tactical?
  }

  function At(id: string, status: Status, weight: real): Trajectory {
    Trajectory(id, status, weight, 0, 0)
  }

  function FirstTicks(domain: string, result: ExecutionResult): Input {
    Input(result, domain, ACTION, 0, [domain], [[domain, ACTION]])
  }

  const DONE: ExecutionResult := ExecutionResult(Succeeded, NoFailure)
  const HOSTILE: ExecutionResult := ExecutionResult(Failed, EnvironmentFailure)
  const PUZZLING: ExecutionResult := ExecutionResult(Failed, NoFailure)

  /** A tick at time 0 that leaves one settled trajectory. */
  lemma AloneAfter(st: State, i: Input, t: Trajectory, failures: nat)
    requires Ready(st, i) && i.domain == t.id && i.order == [t.id] && i.now == 0 && i.action == ACTION
    requires OwnOnly(st, t.id)
    requires Local(st, i) == map[t.id := t] && Competition.Live(t) && 0.0 < t.weight <= 1.0 && t.lastUpdated == 0
    requires st.paths.Keys <= {[t.id, ACTION]} && NoneAbandoned(st.paths) && !st.posture.mode.Tactical?
    requires Paths1(st, i)[Key(i)].failureCount == failures && Paths1(st, i)[Key(i)].abandonment.NoAbandonment?
    ensures Alone(Next(st, i), t, failures)
  {
    OwnTick(st, i);
    OneCompetes(t, Posture1(st, i).mode, Some(Interpret(i.result).outcome), 0);
    CalmHorizon(Posture1(st, i), Paths1(st, i), i.pathOrder, 0);
  }

  lemma FirstSuccess(domain: string)
    requires domain != ""
    ensures Ready(BLANK, FirstTicks(domain, DONE))
    ensures Alone(Next(BLANK, FirstTicks(domain, DONE)), At(domain, Active, 0.1), 0)
  {
    var i := FirstTicks(domain, DONE);
    assert Local(BLANK, i) == map[domain := At(domain, Active, 0.1)];
    assert Paths1(BLANK, i).Keys == {[domain, ACTION]};
    AloneAfter(BLANK, i, At(domain, Active, 0.1), 0);
  }

  lemma SecondSuccess(st: State, domain: string)
    requires Alone(st, At(domain, Active, 0.1), 0)
    ensures Ready(st, FirstTicks(domain, DONE))
    ensures Alone(Next(st, FirstTicks(domain, DONE)), At(domain, Active, 0.15), 0)
  {
    var i := FirstTicks(domain, DONE);
    assert Local(st, i) == map[domain := At(domain, Active, 0.15)];
    assert Paths1(st, i).Keys == {[domain, ACTION]};
    AloneAfter(st, i, At(domain, Active, 0.15), 0);
  }

  lemma ThenHostile(st: State, domain: string)
    requires Alone(st, At(domain, Active, 0.15), 0)
    ensures Ready(st, FirstTicks(domain, HOSTILE))
    ensures Alone(Next(st, FirstTicks(domain, HOSTILE)), At(domain, Stalled, 0.14), 1)
  {
    var i := FirstTicks(domain, HOSTILE);
    assert Local(st, i) == map[domain := At(domain, Stalled, 0.14)];
    assert Paths1(st, i).Keys == {[domain, ACTION]};
    AloneAfter(st, i, At(domain, Stalled, 0.14), 1);
  }

  function LaterTick(own: string, other: string): Input {
    Input(PUZZLING, own, ACTION, Rebinding.SETTLING_TIME, [other], [[other, ACTION], [own, ACTION]])
  }

  lemma OneReflects(t: Trajectory, paths: Paths, mode: Mode, now: Time)
    requires Rebinding.Reflects(t, now)
    ensures Rebinding.Reflect(map[t.id := t], [t.id], paths, mode, now) == [Rebinding.ReflectOn(t, paths, mode)]
  {
    assert [t.id][..0] == [];
    assert Rebinding.Reflect(map[t.id := t], [], paths, mode, now) == [];
  }

  lemma OneSilent(ts: Trajectories, target: Option<Trajectory>, r: Rebinding.StrategicReflection, mode: Mode)
    requires Rebinding.Unreported(ts, target, r, mode)
    ensures Rebinding.SilentIds(ts, target, [r], mode) == {r.trajectoryId}
  {
    assert [r][..0] == [];
    assert Rebinding.SilentIds(ts, target, [], mode) == {};
  }

  /** A stalled trajectory of some weight whose path nobody has tried is retried. */
  lemma StalledIsRetried(id: string, paths: Paths, mode: Mode)
    requires [id] !in paths && !mode.Tactical?
    ensures
      var r := Rebinding.ReflectOn(At(id, Stalled, 0.14), paths, mode);
      r.trajectoryId == id && forall target :: Rebinding.Unreported(map[id := At(id, Stalled, 0.14)], target, r, mode)
  {
  }

  lemma LaterIsReady(st: State, own: string, other: string)
    requires Alone(st, At(other, Stalled, 0.14), 1) && own != other
    ensures
      var i := LaterTick(own, other);
      && Ready(st, i) && Trajectories1(st, i) == st.trajectories && [other] !in Paths1(st, i)
  {
    var i, t := LaterTick(own, other), At(other, Stalled, 0.14);
    assert [other, ACTION][0] == other && [own, ACTION][0] == own;
    assert Paths1(st, i).Keys == {[other, ACTION], [own, ACTION]};
    assert Local(st, i) == map[other := t];
    OneCompetes(t, Posture1(st, i).mode, Some(Interpret(i.result).outcome), i.now);
    assert |[other]| == 1 && |[other, ACTION]| == 2 && |[own, ACTION]| == 2;
  }

  /** A minute later another domain ticks over that memory: its trajectory is retried, and no event says so. */
  lemma OtherIsRetried(st: State, own: string, other: string)
    requires Alone(st, At(other, Stalled, 0.14), 1) && own != other
    ensures Ready(st, LaterTick(own, other)) && other in Silent(st, LaterTick(own, other))
    ensures !Nameless(st, LaterTick(own, other))
  {
    var i, t := LaterTick(own, other), At(other, Stalled, 0.14);
    LaterIsReady(st, own, other);
    var paths, mode := Paths1(st, i), Posture1(st, i).mode;
    OneReflects(t, paths, mode, i.now);
    StalledIsRetried(other, paths, mode);
    OneSilent(map[other := t], Rebinding.HeaviestActive(map[other := t], [other]), Rebinding.ReflectOn(t, paths, mode),
              mode);
  }

  lemma StepAlong(c: StrategicContext, steps: seq<Step>, i: Input) returns (more: seq<Step>)
    requires Run(c, steps).Some? && InNumber(Run(c, steps).value.loop.ledger)
    requires Ready(Run(c, steps).value.loop.live, i) && i.domain == Run(c, steps).value.loop.context.domain
    ensures more == steps + [Feedback(TickFor(Run(c, steps).value.loop, i))]
    ensures Run(c, more) == Some(TrackTick(Run(c, steps).value, TickFor(Run(c, steps).value.loop, i)))
    ensures InNumber(Run(c, more).value.loop.ledger)
    ensures Run(c, more).value.loop.live == Next(Run(c, steps).value.loop.live, i)
    ensures Run(c, more).value.loop.context == Run(c, steps).value.loop.context
    ensures Run(c, more).value.loop.snapshot == Run(c, steps).value.loop.snapshot
  {
    var l := Run(c, steps).value.loop;
    TickIsPossible(l, i);
    RunAppend(c, steps, Feedback(TickFor(l, i)));
    more := steps + [Feedback(TickFor(l, i))];
  }

  /** This context runs, everything is on the ledger, and a restart would lose nothing. */
  ghost predicate StandsAt(tr: Track, own: StrategicContext) {
    && InNumber(tr.loop.ledger) && tr.loop.context == own && tr.loop.snapshot == None
    && !tr.badEver && InLine(tr)
    && tr.lostEver == {} && tr.lostSince == {} && tr.lostBefore == {}
  }

  lemma RunHasInv(c: StrategicContext, steps: seq<Step>)
    requires Run(c, steps).Some?
    ensures Inv(Run(c, steps).value)
  {
    ColdInv(c);
    RunKeeps(ColdTrack(c), steps);
  }

  ghost predicate NoneFormed(steps: seq<Step>) {
    forall k :: 0 <= k < |steps| ==> !steps[k].Form?
  }

  /** A context after some of its ticks, in the place of c. */
  ghost predicate Stands(c: StrategicContext, steps: seq<Step>, own: StrategicContext) {
    Run(c, steps).Some? && NoneFormed(steps) && StandsAt(Run(c, steps).value, own)
  }

  /** A tick that rewrites nothing silently. */
  lemma StandsOn(tr: Track, own: StrategicContext, i: Input)
    requires Inv(tr) && StandsAt(tr, own) && Ready(tr.loop.live, i) && i.domain == own.domain
    requires Silent(tr.loop.live, i) == {} && !Nameless(tr.loop.live, i)
    ensures CanTick(tr.loop, TickFor(tr.loop, i)) && StandsAt(TrackTick(tr, TickFor(tr.loop, i)), own)
  {
    var t := TickFor(tr.loop, i);
    TickIsPossible(tr.loop, i);
    TickRecalls(tr, t);
    TickCarries(tr.loop.live, i, t.events);
    PostureConcat(tr.loop.ledger, t.events);
  }

  lemma TickOn(c: StrategicContext, steps: seq<Step>, own: StrategicContext, i: Input) returns (more: seq<Step>)
    requires Stands(c, steps, own) && Ready(Run(c, steps).value.loop.live, i) && i.domain == own.domain
    requires Silent(Run(c, steps).value.loop.live, i) == {} && !Nameless(Run(c, steps).value.loop.live, i)
    ensures Stands(c, more, own) && Run(c, more).value.loop.live == Next(Run(c, steps).value.loop.live, i)
  {
    RunHasInv(c, steps);
    StandsOn(Run(c, steps).value, own, i);
    more := StepAlong(c, steps, i);
  }

  lemma OwnTickOn(c: StrategicContext, steps: seq<Step>, own: StrategicContext, i: Input) returns (more: seq<Step>)
    requires Stands(c, steps, own) && Ready(Run(c, steps).value.loop.live, i) && i.domain == own.domain
    requires own.domain != "" && OwnOnly(Run(c, steps).value.loop.live, own.domain)
    ensures Stands(c, more, own) && Run(c, more).value.loop.live == Next(Run(c, steps).value.loop.live, i)
  {
    OwnTick(Run(c, steps).value.loop.live, i);
    more := TickOn(c, steps, own, i);
  }

  /** Three ticks of a context that has done nothing yet. */
  lemma ThreeTicks(c: StrategicContext, before: seq<Step>, own: StrategicContext) returns (steps: seq<Step>)
    requires Stands(c, before, own) && Run(c, before).value.loop.live == BLANK && own.domain != ""
    ensures Stands(c, steps, own) && Alone(Run(c, steps).value.loop.live, At(own.domain, Stalled, 0.14), 1)
  {
    FirstSuccess(own.domain);
    steps := OwnTickOn(c, before, own, FirstTicks(own.domain, DONE));
    SecondSuccess(Run(c, steps).value.loop.live, own.domain);
    steps := OwnTickOn(c, steps, own, FirstTicks(own.domain, DONE));
    ThenHostile(Run(c, steps).value.loop.live, own.domain);
    steps := OwnTickOn(c, steps, own, FirstTicks(own.domain, HOSTILE));
  }

  /** Another context comes in, and finds what there is. */
  lemma TakeOver(c: StrategicContext, before: seq<Step>, own: StrategicContext, d: StrategicContext)
    returns (steps: seq<Step>)
    requires Stands(c, before, own) && StoreKey(d) == StoreKey(own)
    ensures Stands(c, steps, d) && Run(c, steps).value.loop.live == Run(c, before).value.loop.live
  {
    var tr := Run(c, before).value;
    RunHasInv(c, before);
    RestartOf(tr);
    MirrorsAll(Restore(tr.loop.snapshot, tr.loop.ledger).value, tr.loop.live);
    RunAppend(c, before, Register(d));
    steps := before + [Register(d)];
  }

  lemma Begin(c: StrategicContext)
    ensures Stands(c, [], c) && Run(c, []).value.loop.live == BLANK
  {
  }

  /** The second context retries the first one's trajectory a minute later, without an event; the next restart has it
      stalled as before. */
  lemma RetriedAndLost(c: StrategicContext, before: seq<Step>, own: StrategicContext, d: StrategicContext)
    returns (steps: seq<Step>)
    requires Stands(c, before, own) && Alone(Run(c, before).value.loop.live, At(own.domain, Stalled, 0.14), 1)
    requires Collides(own, d)
    ensures Run(c, steps).Some? && !Poisoned(Run(c, steps).value) && own.domain in Lost(Run(c, steps).value)
  {
    steps := TakeOver(c, before, own, d);
    OtherIsRetried(Run(c, steps).value.loop.live, d.domain, own.domain);
    steps := StepAlong(c, steps, LaterTick(d.domain, own.domain));
  }

  /** An input: two contexts with one key. One is registered in the other's place, finds its trajectory, and rewrites
      it without an event. */
  lemma CollisionLoses(c: StrategicContext, d: StrategicContext) returns (steps: seq<Step>)
    requires Collides(c, d)
    ensures Run(c, steps).Some? && !Poisoned(Run(c, steps).value) && Lost(Run(c, steps).value) != {}
  {
    Begin(c);
    if c.domain != "" {
      steps := ThreeTicks(c, [], c);
      steps := RetriedAndLost(c, steps, c, d);
    } else {
      steps := TakeOver(c, [], c, d);
      steps := ThreeTicks(c, steps, d);
      steps := RetriedAndLost(c, steps, d, c);
    }
  }

  /** Another input: with an empty domain, the event of the first success cannot be replayed. */
  lemma NamelessContextFails(c: StrategicContext) returns (steps: seq<Step>)
    requires c.domain == ""
    ensures Run(c, steps).Some? && Restore(Run(c, steps).value.loop.snapshot, Run(c, steps).value.loop.ledger).Err?
  {
    var i := FirstTicks("", DONE);
    assert Local(BLANK, i) == map["" := At("", Active, 0.1)];
    assert Paths1(BLANK, i).Keys == {["", ACTION]};
    assert Nameless(BLANK, i);
    steps := StepAlong(c, [], i);
    RestartLosesExactly(c, steps);
  }

  // ---------------------------------------------------------------- results

  ghost predicate LosesAfter(c: StrategicContext, steps: seq<Step>) {
    && Run(c, steps).Some?
    && var l := Run(c, steps).value.loop;
       var r := Restore(l.snapshot, l.ledger);
       r.Ok? && r.value.trajectories != l.live.trajectories
  }

  /** Some run that begins with nothing stored about c ends where a restart succeeds and does not give the live
      trajectories. */
  ghost predicate CanLose(c: StrategicContext) {
    exists steps :: LosesAfter(c, steps)
  }

  /** A restart can lose a trajectory exactly when another context with another domain has the same key; paths it never
      loses. */
  lemma ContextCanLoseIff(c: StrategicContext)
    ensures CanLose(c) <==> Collidable(c)
  {
    if Collidable(c) {
      var d :| Collides(c, d);
      var steps := CollisionLoses(c, d);
      var tr := Run(c, steps).value;
      RestartLosesExactly(c, steps);
      LossShows(Restore(tr.loop.snapshot, tr.loop.ledger).value, tr.loop.live, Lost(tr));
      assert LosesAfter(c, steps);
    } else {
      forall steps | Run(c, steps).Some? ensures !LosesAfter(c, steps) {
        UncollidableIsOneDomain(c, steps);
        RestartKeepsMemory(c, steps);
      }
    }
  }

  /** With plain country, region and goal: exactly when its domain has a slash in it. */
  lemma PlainContextCanLoseIff(c: StrategicContext)
    requires PlainParts(c)
    ensures CanLose(c) <==> '/' in c.domain
  {
    ContextCanLoseIff(c);
    CollidableIffSlash(c);
  }
}
