/** The pure services one feedback tick calls: interpretation, adaptation, trajectory update, horizon shift. */
module Feedback {
  import opened Base
  import opened Strategy
  import opened ExecutionResults
  import Competition

  function Interpret(result: ExecutionResult): (s: Signals)
    ensures s.outcome != NoOutcome
  {
    match result.status
    case Succeeded => Signals(Success, 0.2, 0.1, 0.5)
    case Failed =>
      (match result.failure
       case EnvironmentFailure => Signals(HostileEnv, -0.1, 0.3, 1.5)
       case InternalFailure => Signals(Unstable, -0.05, 0.0, 1.0)
       case _ => Signals(Unknown, 0.0, 0.0, 1.0))
    case Rejected =>
      if result.failure.PolicyFailure? then Signals(Blocked, -0.2, -0.4, 0.3) else Signals(Unknown, 0.0, 0.0, 1.0)
    case PartiallyDone => Signals(Partial, 0.05, 0.2, 1.2)
  }

  function Clamp(lo: real, hi: real, x: real): real {
    MaxR(lo, MinR(hi, x))
  }

  predicate Bounded(p: Posture) {
    0.1 <= p.confidenceBaseline <= 1.0 && 0.1 <= p.riskTolerance <= 0.9 && 0.5 <= p.persistenceFactor <= 2.0
  }

  function AdaptPosture(p: Posture, s: Signals): Posture {
    var riskDelta := s.riskReassessment * 0.1;
    p.(confidenceBaseline := Clamp(0.1, 1.0, p.confidenceBaseline + s.confidenceDelta * 0.1),
       riskTolerance := Clamp(0.1, 0.9, p.riskTolerance + if riskDelta < 0.0 then riskDelta * 1.5 else riskDelta),
       persistenceFactor := Clamp(0.5, 2.0, p.persistenceFactor + (s.persistenceBias - 1.0) * 0.1))
  }

  function AdaptPath(status: PathStatus, s: Signals, now: Time): PathStatus {
    match s.outcome
    case Success => PathStatus(0, Success, NoAbandonment, now, None)
    case Blocked => PathStatus(status.failureCount + 1, Blocked, Hard, now, None)
    case HostileEnv =>
      var failures := status.failureCount + 1;
      if failures >= 3 then PathStatus(failures, HostileEnv, Soft, now, Some(now + DAY))
      else PathStatus(failures, HostileEnv, status.abandonment, now, status.cooldownUntil)
    case _ => status.(lastOutcome := s.outcome, lastUpdated := now)
  }

  function AdaptPaths(paths: Paths, key: PathKey, s: Signals, now: Time): Paths {
    paths[key := AdaptPath(GetStatus(paths, key), s, now)]
  }

  // ---------------------------------------------------------------- trajectory update

  function UpdateStatus(t: Trajectory, s: Signals, weight: real): Status {
    match s.outcome
    case Success => if t.status.Abandoned? then Abandoned else Active
    case HostileEnv => if weight < 0.2 then Stalled else t.status
    case Blocked => if weight < 0.1 then Abandoned else t.status
    case _ => t.status
  }

  function UpdateOne(t: Trajectory, s: Signals, now: Time): Trajectory {
    var weight :=
      match s.outcome
      case Success => MinR(1.0, t.weight + 0.05)
      case HostileEnv => MaxR(0.0, t.weight - 0.02)
      case Blocked => MaxR(0.0, t.weight - 0.1)
      case _ => t.weight;
    Trajectory(t.id, UpdateStatus(t, s, weight),
               if s.persistenceBias > 1.0 then MinR(1.0, weight + 0.01) else weight, t.createdAt, now)
  }

  /** The trajectory of the context itself, before the competition. */
  function UpdateLocal(ts: Trajectories, s: Signals, domain: string, now: Time): Trajectories {
    if domain in ts then ts[domain := UpdateOne(ts[domain], s, now)]
    else if s.outcome.Success? then ts[domain := Trajectory(domain, Active, 0.1, now, now)]
    else ts
  }

  function UpdateTrajectories(ts: Trajectories, order: seq<string>, s: Signals, domain: string, mode: Mode,
                              now: Time): Trajectories
    requires forall k :: k in order ==> k in UpdateLocal(ts, s, domain, now)
  {
    Competition.Compete(UpdateLocal(ts, s, domain, now), order, mode, Some(s.outcome), now)
  }

  // ---------------------------------------------------------------- horizon shift

  const HORIZON_WINDOW: int := 14 * DAY

  function Recent(paths: Paths, order: seq<PathKey>, now: Time): seq<PathStatus>
    requires forall k :: k in order ==> k in paths
  {
    if order == [] then []
    else
      var n := |order| - 1;
      Recent(paths, order[..n], now)
      + if paths[order[n]].lastUpdated >= now - HORIZON_WINDOW then [paths[order[n]]] else []
  }

  function CountAbandoned(statuses: seq<PathStatus>, level: Abandonment): nat {
    if statuses == [] then 0
    else
      var n := |statuses| - 1;
      CountAbandoned(statuses[..n], level) + if statuses[n].abandonment == level then 1 else 0
  }

  function CountFailures(statuses: seq<PathStatus>): int {
    if statuses == [] then 0
    else CountFailures(statuses[..|statuses| - 1]) + statuses[|statuses| - 1].failureCount
  }

  function Health(p: Posture, recent: seq<PathStatus>): real
    requires recent != []
  {
    var n := |recent| as real;
    var abandonment := (CountAbandoned(recent, Soft) as real + CountAbandoned(recent, Hard) as real * 2.0) / n;
    var density := MinR(1.0, CountFailures(recent) as real / (n * 3.0));
    Clamp(0.0, 1.0, 1.0 - abandonment * 0.5 - density * 0.3 + (p.confidenceBaseline - 0.5) * 0.2)
  }

  function ShiftMode(mode: Mode, health: real): Mode {
    match mode
    case Balanced => if health < 0.4 then Tactical else if health > 0.85 then Strategic else Balanced
    case Tactical => if health > 0.6 then Balanced else Tactical
    case Strategic => if health < 0.75 then Balanced else Strategic
  }

  function EvaluateHorizon(p: Posture, paths: Paths, order: seq<PathKey>, now: Time): (q: Posture)
    requires forall k :: k in order ==> k in paths
    ensures q == p.(mode := q.mode)
    ensures p.mode.Tactical? ==> !q.mode.Strategic?
    ensures p.mode.Strategic? ==> !q.mode.Tactical?
  {
    var recent := Recent(paths, order, now);
    if recent == [] then p else p.(mode := ShiftMode(p.mode, Health(p, recent)))
  }

  // ---------------------------------------------------------------- what a path's status remembers

  /** A path tried with these outcomes, one after another. */
  function StatusAfter(history: seq<Signals>, times: seq<Time>): PathStatus
    requires |times| == |history|
  {
    if history == [] then UNTRIED
    else
      var n := |history| - 1;
      AdaptPath(StatusAfter(history[..n], times[..n]), history[n], times[n])
  }

  predicate IsFailure(s: Signals) {
    s.outcome.Blocked? || s.outcome.HostileEnv?
  }

  /** Failures, and policy blocks among them, since the last success. */
  function FailuresSince(history: seq<Signals>): nat {
    if history == [] then 0
    else
      var n := |history| - 1;
      if history[n].outcome.Success? then 0 else FailuresSince(history[..n]) + if IsFailure(history[n]) then 1 else 0
  }

  function BlocksSince(history: seq<Signals>): nat {
    if history == [] then 0
    else
      var n := |history| - 1;
      if history[n].outcome.Success? then 0
      else BlocksSince(history[..n]) + if history[n].outcome.Blocked? then 1 else 0
  }

  /** Whether the failure that set the level last was a policy block. */
  predicate EndsHard(history: seq<Signals>) {
    history != [] &&
    var n := |history| - 1;
    match history[n].outcome
    case Success => false
    case Blocked => true
    case HostileEnv => FailuresSince(history) < 3 && EndsHard(history[..n])
    case _ => EndsHard(history[..n])
  }

  /** A status is a reading of the path's history since its last success: how many failures there were; whether the
      path is abandoned, which takes a policy block or a third failure with a hostile environment in it; and how
      hard. A third failure that is the environment's softens a policy block. */
  lemma {:induction false} StatusReadsHistory(history: seq<Signals>, times: seq<Time>)
    requires |times| == |history|
    ensures
      var s := StatusAfter(history, times);
      && s.failureCount == FailuresSince(history) >= BlocksSince(history)
      && (s.abandonment.NoAbandonment? <==> BlocksSince(history) == 0 && FailuresSince(history) < 3)
      && (s.abandonment.Hard? <==> EndsHard(history))
      && (s.cooldownUntil.Some? ==> s.abandonment.Soft?)
      && (EndsHard(history) ==> BlocksSince(history) > 0)
    decreases |history|
  {
    if history != [] {
      var n := |history| - 1;
      StatusReadsHistory(history[..n], times[..n]);
    }
  }

  // ---------------------------------------------------------------- the two ends of the health scale

  lemma {:induction false} AllAbandoned(statuses: seq<PathStatus>, level: Abandonment)
    ensures (forall i :: 0 <= i < |statuses| ==> statuses[i].abandonment == level) ==>
                CountAbandoned(statuses, level) == |statuses|
    ensures (forall i :: 0 <= i < |statuses| ==> statuses[i].abandonment != level) ==>
                CountAbandoned(statuses, level) == 0
    decreases |statuses|
  {
    if statuses != [] {
      AllAbandoned(statuses[..|statuses| - 1], level);
    }
  }

  lemma {:induction false} FailuresCounted(statuses: seq<PathStatus>)
    ensures (forall i :: 0 <= i < |statuses| ==> statuses[i].failureCount >= 0) ==> CountFailures(statuses) >= 0
    ensures (forall i :: 0 <= i < |statuses| ==> statuses[i].failureCount == 0) ==> CountFailures(statuses) == 0
    decreases |statuses|
  {
    if statuses != [] {
      FailuresCounted(statuses[..|statuses| - 1]);
    }
  }

  ghost predicate Flawless(recent: seq<PathStatus>) {
    forall i :: 0 <= i < |recent| ==> recent[i].failureCount == 0 && recent[i].abandonment.NoAbandonment?
  }

  ghost predicate Ruined(recent: seq<PathStatus>) {
    forall i :: 0 <= i < |recent| ==> recent[i].failureCount >= 0 && recent[i].abandonment.Hard?
  }

  lemma FlawlessHealth(p: Posture, recent: seq<PathStatus>)
    requires recent != [] && 0.1 <= p.confidenceBaseline <= 1.0 && Flawless(recent)
    ensures Health(p, recent) >= 0.92
  {
    AllAbandoned(recent, Soft);
    AllAbandoned(recent, Hard);
    FailuresCounted(recent);
    var n := |recent| as real;
    assert (0.0 + 0.0 * 2.0) / n == 0.0 && 0.0 / (n * 3.0) == 0.0;
  }

  lemma RuinedHealth(p: Posture, recent: seq<PathStatus>)
    requires recent != [] && 0.1 <= p.confidenceBaseline <= 1.0 && Ruined(recent)
    ensures Health(p, recent) <= 0.1
  {
    AllAbandoned(recent, Soft);
    AllAbandoned(recent, Hard);
    FailuresCounted(recent);
    var n := |recent| as real;
    assert (0.0 + n * 2.0) / n == 2.0;
    DensityNotNegative(CountFailures(recent), n);
  }

  lemma DensityNotNegative(failures: int, n: real)
    requires failures >= 0 && n > 0.0
    ensures failures as real / (n * 3.0) >= 0.0
  {
  }

  /** A flawless recent past moves the mode one step up, a ruined one a step down; neither skips BALANCED. */
  lemma ModeFollowsHealth(p: Posture, recent: seq<PathStatus>)
    requires recent != [] && 0.1 <= p.confidenceBaseline <= 1.0
    ensures Flawless(recent) ==>
              ShiftMode(p.mode, Health(p, recent)) == if p.mode.Tactical? then Balanced else Strategic
    ensures Ruined(recent) ==> ShiftMode(p.mode, Health(p, recent)) == if p.mode.Strategic? then Balanced else Tactical
  {
    if Flawless(recent) {
      FlawlessHealth(p, recent);
    }
    if Ruined(recent) {
      RuinedHealth(p, recent);
    }
  }
}
