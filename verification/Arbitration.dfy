/** Priority of an execution intent, starvation of a context, and the arbitrator that picks one winner a tick. */
module Arbitration {
  import opened Base
  import opened StableSort

  datatype MemoryContext = MemoryContext(
    riskBias: real, cooldownRequired: bool, explorationSuppressed: bool, priorityModifier: real)

  function ComputePriority(risk: real, starvation: real, memory: Option<MemoryContext>): real {
    var base := risk * 10.0 + starvation * 2.0;
    match memory
    case None => MaxR(0.0, base)
    case Some(m) =>
      var biasPenalty := if m.riskBias < 0.0 then risk * AbsR(m.riskBias) * 5.0 else 0.0;
      var explorationPenalty := if m.explorationSuppressed && risk > 0.5 then 5.0 else 0.0;
      MaxR(0.0, (base - (biasPenalty + explorationPenalty)) * m.priorityModifier)
  }

  function UpdateStarvation(starvation: real, isWinner: bool, hasIntent: bool): real {
    if isWinner then 0.0
    else if hasIntent then MinR(10.0, starvation + 1.0)
    else MaxR(0.0, starvation - 0.1)
  }

  datatype Candidate = Candidate(context: nat, priority: real)

  const HIGHER: (Candidate, Candidate) -> bool := (a: Candidate, b: Candidate) => a.priority > b.priority

  function Select(candidates: seq<Candidate>): (winner: Option<Candidate>)
  {
    if candidates == [] then None
    else
      SortKeeps(candidates, HIGHER);
      Some(SortDescending(candidates, HIGHER)[0])
  }

  /** The winner is the first candidate of the highest priority, and nothing else is. */
  lemma SelectsFirstHighest(candidates: seq<Candidate>, w: nat)
    requires w < |candidates|
    requires forall i, j :: 0 <= i < j < |candidates| ==> candidates[i].context != candidates[j].context
    ensures Select(candidates) == Some(candidates[w])
            <==> && (forall i :: 0 <= i < |candidates| ==> candidates[i].priority <= candidates[w].priority)
                 && (forall i :: 0 <= i < w ==> candidates[i].priority < candidates[w].priority)
  {
    assert StrictWeakOrder(HIGHER);
    var v := HeadIsFirstGreatest(candidates, HIGHER);
    assert v != w ==> candidates[v] != candidates[w];
  }
}
