/** Step 9 of the orchestrator's tick: what is learned moves the posture of the tick's human, and no event says so. */
module Learning {
  import opened Base
  import opened Strategy
  import opened Feedback
  import opened Contexts
  import Replay
  import Restart

  datatype Signal = Signal(avoidRisk: bool, reduceExploration: bool, policyPressure: bool, deadlock: bool, bias: real)

  datatype Policy = Policy(enabled: bool, maxDelta: real, cooldownTicks: int, requireStability: bool)

  const DEFAULT_POLICY: Policy := Policy(true, 0.1, 10, true)

  const NOTHING: Signal := Signal(false, false, false, false, 0.0)

  /** What one recent success comes to. */
  const RECENT_SUCCESS: Signal := Signal(false, false, false, false, 0.1)

  /** Whether, and how much of, a signal is applied. */
  function Resolve(s: Signal, policy: Policy, locked: bool, stable: bool, ticksSinceFailure: int): Signal {
    if !policy.enabled || locked then NOTHING
    else if policy.requireStability && !stable then NOTHING
    else if ticksSinceFailure < policy.cooldownTicks then NOTHING
    else s.(bias := MaxR(-policy.maxDelta, MinR(policy.maxDelta, s.bias)))
  }

  function Learned(p: Posture, s: Signal): Posture {
    var risk :=
      if s.avoidRisk then MaxR(0.1, p.riskTolerance - 0.05)
      else if s.reduceExploration then MaxR(0.1, p.riskTolerance - 0.02)
      else p.riskTolerance;
    var confidence :=
      if s.deadlock then MaxR(0.1, p.confidenceBaseline - 0.05)
      else if s.policyPressure then MaxR(0.1, p.confidenceBaseline - 0.02)
      else p.confidenceBaseline;
    p.(riskTolerance := MaxR(0.1, MinR(0.9, risk + s.bias * 0.1)),
       confidenceBaseline := confidence,
       persistenceFactor := if s.deadlock then MaxR(0.5, p.persistenceFactor - 0.1) else p.persistenceFactor)
  }

  // ---------------------------------------------------------------- what learning keeps

  /** Learning keeps the bounds that feedback keeps. */
  lemma LearningStaysBounded(p: Posture, s: Signal)
    requires Bounded(p)
    ensures Bounded(Learned(p, s)) && Learned(p, s).mode == p.mode
  {
  }

  // ---------------------------------------------------------------- the drift, and what a restart makes of it

  /** The posture after n ticks that each see a recent success. */
  function Drifted(n: nat): Posture {
    if n == 0 then DEFAULT_POSTURE
    else Learned(Drifted(n - 1), Resolve(RECENT_SUCCESS, DEFAULT_POLICY, false, true, 100))
  }

  lemma {:induction false} DriftOf(n: nat)
    ensures Drifted(n) == DEFAULT_POSTURE.(riskTolerance := MinR(0.9, 0.5 + 0.01 * n as real))
    decreases n
  {
    if n > 0 {
      DriftOf(n - 1);
      assert n as real == (n - 1) as real + 1.0;
    }
  }

  /** The steps of n ticks of a new context that do nothing but learn. */
  function Drift(n: nat): seq<Restart.Step> {
    if n == 0 then [] else Drift(n - 1) + [Restart.Idle(false), Restart.Learn(Drifted(n))]
  }

  lemma {:induction false} DriftRuns(c: StrategicContext, n: nat)
    ensures Restart.Run(c, Drift(n)).Some?
    ensures
      var tr := Restart.Run(c, Drift(n)).value;
      && tr.loop.live.posture == Drifted(n) && tr.recorded == DEFAULT_POSTURE
      && tr.loop.snapshot == None && tr.loop.ledger == []
    decreases n
  {
    if n > 0 {
      var before, idle := Drift(n - 1), Restart.Idle(false);
      DriftRuns(c, n - 1);
      assert (before + [idle])[..|before + [idle]| - 1] == before;
      Restart.LearningIsNotRecorded(c, before + [idle], Drifted(n));
      assert Drift(n) == before + [idle] + [Restart.Learn(Drifted(n))];
    }
  }

  /** An input: after n ticks that saw a recent success the risk tolerance has risen by a hundredth at each, up to
      0.9; the next restart succeeds and puts it back to one half. */
  lemma DriftIsForgotten(c: StrategicContext, n: nat)
    requires n > 0
    ensures
      var run := Restart.Run(c, Drift(n));
      && run.Some? && run.value.loop.live.posture.riskTolerance == MinR(0.9, 0.5 + 0.01 * n as real) > 0.5
      && Replay.Restore(run.value.loop.snapshot, run.value.loop.ledger) == Ok(DEFAULT_BUNDLE)
  {
    DriftRuns(c, n);
    DriftOf(n);
  }
}
