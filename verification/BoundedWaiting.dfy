/** How long can a context that wants to act lose the arbitration?

    Every context asks at every tick, the memory context is neutral and the execution gate
    lets the winner through. With n <= 6 contexts nobody loses n + 5 ticks in a row, whatever
    the risks and whatever the scores at the start; n + 4 losses do happen from n = 2 on; with 7
    contexts or more the last of them can lose for ever.
 */
module BoundedWaiting {
  import opened Base
  import opened Arbitration

  datatype Demand = Demand(risk: real, memory: Option<MemoryContext>)

  predicate Neutral(d: Demand) {
    && 0.0 <= d.risk <= 1.0
    && (d.memory.Some? ==> d.memory.value.riskBias >= 0.0
                           && !d.memory.value.explorationSuppressed && d.memory.value.priorityModifier == 1.0)
  }

  type Scores = seq<real>
  type Round = seq<Demand>

  function Priority(scores: Scores, round: Round, i: nat): real
    requires i < |scores| == |round|
  {
    ComputePriority(round[i].risk, scores[i], round[i].memory)
  }

  function Candidates(scores: Scores, round: Round): seq<Candidate>
    requires |scores| == |round|
  {
    seq(|scores|, i requires 0 <= i < |scores| => Candidate(i, Priority(scores, round, i)))
  }

  function Winner(scores: Scores, round: Round): (w: nat)
    requires 0 < |scores| == |round|
    ensures w < |scores|
    ensures forall i :: 0 <= i < |scores| ==> Priority(scores, round, i) <= Priority(scores, round, w)
  {
    var cs := Candidates(scores, round);
    WinnerIsHighest(scores, round);
    Select(cs).value.context
  }

  lemma WinnerIsHighest(scores: Scores, round: Round)
    requires 0 < |scores| == |round|
    ensures Select(Candidates(scores, round)).Some?
    ensures
      var w := Select(Candidates(scores, round)).value.context;
      && w < |scores|
      && (forall i :: 0 <= i < |scores| ==> Priority(scores, round, i) <= Priority(scores, round, w))
      && (forall i :: 0 <= i < w ==> Priority(scores, round, i) < Priority(scores, round, w))
  {
    var cs := Candidates(scores, round);
    var v := StableSort.HeadIsFirstGreatest(cs, HIGHER);
    SelectsFirstHighest(cs, v);
    assert cs[v].context == v;
    forall i | 0 <= i < |scores|
      ensures Priority(scores, round, i) <= Priority(scores, round, v)
    {
      assert !HIGHER(cs[i], cs[v]);
    }
    forall i | 0 <= i < v
      ensures Priority(scores, round, i) < Priority(scores, round, v)
    {
      assert HIGHER(cs[v], cs[i]);
    }
  }

  /** One tick of `update_starvation` when every context had an intent. */
  function Tick(scores: Scores, round: Round): (next: Scores)
    requires 0 < |scores| == |round|
    ensures |next| == |scores|
  {
    var w := Winner(scores, round);
    seq(|scores|, i requires 0 <= i < |scores| => UpdateStarvation(scores[i], i == w, true))
  }

  ghost predicate Contended(n: nat, rounds: seq<Round>) {
    forall t :: 0 <= t < |rounds| ==> |rounds[t]| == n && forall i :: 0 <= i < n ==> Neutral(rounds[t][i])
  }

  /** The scores before tick t. */
  function ScoresAt(start: Scores, rounds: seq<Round>, t: nat): (scores: Scores)
    requires 0 < |start| && t <= |rounds|
    requires forall u :: 0 <= u < |rounds| ==> |rounds[u]| == |start|
    ensures |scores| == |start|
  {
    if t == 0 then start else Tick(ScoresAt(start, rounds, t - 1), rounds[t - 1])
  }

  function WinnerAt(start: Scores, rounds: seq<Round>, t: nat): (w: nat)
    requires 0 < |start| && t < |rounds|
    requires forall u :: 0 <= u < |rounds| ==> |rounds[u]| == |start|
    ensures w < |start|
  {
    Winner(ScoresAt(start, rounds, t), rounds[t])
  }

  // ---------------------------------------------------------------- the bound

  ghost predicate Setting(start: Scores, rounds: seq<Round>) {
    0 < |start| && Contended(|start|, rounds) && forall i :: 0 <= i < |start| ==> start[i] >= 0.0
  }

  lemma {:induction false} ScoresStayNonNegative(start: Scores, rounds: seq<Round>, t: nat, i: nat)
    requires Setting(start, rounds) && t <= |rounds| && i < |start|
    ensures ScoresAt(start, rounds, t)[i] >= 0.0
    decreases t
  {
    if t > 0 {
      ScoresStayNonNegative(start, rounds, t - 1, i);
    }
  }

  /** A context that keeps losing climbs by one a tick, up to ten. */
  lemma {:induction false} LoserClimbs(start: Scores, rounds: seq<Round>, c: nat, t: nat)
    requires Setting(start, rounds) && c < |start| && t <= |rounds|
    requires forall u :: 0 <= u < t ==> WinnerAt(start, rounds, u) != c
    ensures ScoresAt(start, rounds, t)[c] >= MinR(10.0, t as real)
    decreases t
  {
    if t > 0 {
      LoserClimbs(start, rounds, c, t - 1);
      assert WinnerAt(start, rounds, t - 1) != c;
      assert ScoresAt(start, rounds, t)[c] == UpdateStarvation(ScoresAt(start, rounds, t - 1)[c], false, true);
    }
  }

  /** A context that won at tick u has at most t - u - 1 at tick t. */
  lemma {:induction false} WinnerRestarts(start: Scores, rounds: seq<Round>, u: nat, t: nat)
    requires Setting(start, rounds) && u < t <= |rounds|
    ensures ScoresAt(start, rounds, t)[WinnerAt(start, rounds, u)] <= (t - u - 1) as real
    decreases t
  {
    if t > u + 1 {
      WinnerRestarts(start, rounds, u, t - 1);
    }
  }

  /** Whoever beats a context that has lost from the start must itself be starved, within the reach of risk. */
  lemma BeatingNeedsStarvation(start: Scores, rounds: seq<Round>, c: nat, t: nat)
    requires Setting(start, rounds) && c < |start| && t < |rounds| && t <= 10
    requires forall u :: 0 <= u < t ==> WinnerAt(start, rounds, u) != c
    ensures ScoresAt(start, rounds, t)[WinnerAt(start, rounds, t)] >= t as real - 5.0
  {
    var scores, w := ScoresAt(start, rounds, t), WinnerAt(start, rounds, t);
    LoserClimbs(start, rounds, c, t);
    ScoresStayNonNegative(start, rounds, t, w);
    NeutralPriority(rounds[t][w], scores[w]);
    NeutralPriority(rounds[t][c], scores[c]);
    assert Priority(scores, rounds[t], c) <= Priority(scores, rounds[t], w);
  }

  lemma NeutralPriority(d: Demand, starvation: real)
    requires Neutral(d) && starvation >= 0.0
    ensures 2.0 * starvation <= ComputePriority(d.risk, starvation, d.memory) <= 10.0 + 2.0 * starvation
  {
  }

  /** c is never chosen in these ticks. */
  ghost predicate Loses(start: Scores, rounds: seq<Round>, c: nat) {
    && Setting(start, rounds) && c < |start|
    && forall t :: 0 <= t < |rounds| ==> WinnerAt(start, rounds, t) != c
  }

  /** Who wins at each tick. */
  function Winners(start: Scores, rounds: seq<Round>): seq<nat>
    requires 0 < |start| && forall u :: 0 <= u < |rounds| ==> |rounds[u]| == |start|
  {
    seq(|rounds|, t requires 0 <= t < |rounds| => WinnerAt(start, rounds, t))
  }

  lemma LateWinnersDiffer(start: Scores, rounds: seq<Round>, c: nat, u: nat, t: nat)
    requires Loses(start, rounds, c) && 5 <= u < t < |rounds| && t <= 10
    ensures Winners(start, rounds)[u] != Winners(start, rounds)[t]
  {
    BeatingNeedsStarvation(start, rounds, c, t);
    WinnerRestarts(start, rounds, u, t);
  }

  lemma LoserIsNoWinner(start: Scores, rounds: seq<Round>, c: nat, t: nat)
    requires Loses(start, rounds, c) && t < |rounds|
    ensures Winners(start, rounds)[t] < |start| && Winners(start, rounds)[t] != c
  {
  }

  lemma NoDuplicatesInTail(ws: seq<nat>, k: nat)
    requires k <= |ws| && forall u, t :: k <= u < t < |ws| ==> ws[u] != ws[t]
    ensures NoDuplicates(ws[k..])
  {
  }

  lemma {:induction false} Pigeonhole(ws: seq<nat>, pool: set<nat>)
    requires forall i :: 0 <= i < |ws| ==> ws[i] in pool
    requires NoDuplicates(ws)
    ensures |ws| <= |pool|
    decreases |ws|
  {
    if ws != [] {
      forall i | 0 <= i < |ws[1..]| ensures ws[1..][i] in pool - {ws[0]} {
        assert ws[1..][i] == ws[i + 1];
      }
      Pigeonhole(ws[1..], pool - {ws[0]});
    }
  }

  function Range(n: nat): (r: set<nat>)
    ensures forall i: nat :: i in r <==> i < n
    ensures |r| == n
  {
    if n == 0 then {} else Range(n - 1) + {n - 1}
  }

  /** Nobody loses n + 5 ticks in a row: the winners of the last n ticks would all have to be different, and there are
      only n - 1 others. */
  lemma NobodyLosesLong(start: Scores, rounds: seq<Round>, c: nat)
    requires c < |start| <= 6 && |rounds| == |start| + 5
    ensures !Loses(start, rounds, c)
  {
    if Loses(start, rounds, c) {
      var ws := Winners(start, rounds);
      forall u, t | 5 <= u < t < |ws| ensures ws[u] != ws[t] {
        LateWinnersDiffer(start, rounds, c, u, t);
      }
      NoDuplicatesInTail(ws, 5);
      forall i | 0 <= i < |ws[5..]| ensures ws[5..][i] in Range(|start|) - {c} {
        LoserIsNoWinner(start, rounds, c, i + 5);
      }
      Pigeonhole(ws[5..], Range(|start|) - {c});
    }
  }

  /** With at most six contexts, each of them wins at least once in every n + 5 consecutive ticks. */
  lemma EveryContextWins(start: Scores, rounds: seq<Round>, c: nat)
    requires Setting(start, rounds) && c < |start| <= 6 && |rounds| == |start| + 5
    ensures exists t :: 0 <= t < |rounds| && WinnerAt(start, rounds, t) == c
  {
    NobodyLosesLong(start, rounds, c);
  }

  // ---------------------------------------------------------------- the bound is sharp

  /** k contexts of risk 1, and the others of risk 0. */
  function HighRiskRound(k: nat, n: nat): (round: Round)
    ensures |round| == n
  {
    seq(n, i => Demand(if i < k then 1.0 else 0.0, None))
  }

  function HighRiskRounds(k: nat, n: nat, ticks: nat): (rounds: seq<Round>)
    ensures |rounds| == ticks && Contended(n, rounds)
  {
    seq(ticks, t => HighRiskRound(k, n))
  }

  function Zeros(n: nat): (scores: Scores)
    ensures |scores| == n
  {
    seq(n, i => 0.0)
  }

  /** Whose turn it is at tick t. */
  function Turn(k: nat, t: nat): (p: nat)
    requires k > 0
    ensures p < k && (t < k ==> p == t)
  {
    if t == 0 then 0 else if Turn(k, t - 1) + 1 == k then 0 else Turn(k, t - 1) + 1
  }

  function RotatingScore(k: nat, t: nat, i: nat): real
    requires 0 < k
  {
    var p := Turn(k, t);
    if i >= k then MinR(10.0, t as real)
    else if i < p then (p - 1 - i) as real
    else if t < k then t as real
    else (p - 1 - i + k) as real
  }

  lemma RotatingWinner(k: nat, n: nat, t: nat, scores: Scores)
    requires 1 <= k <= 6 && k < n && (k == 6 || t <= k + 4)
    requires |scores| == n && forall i :: 0 <= i < n ==> scores[i] == RotatingScore(k, t, i)
    ensures Winner(scores, HighRiskRound(k, n)) == Turn(k, t)
  {
    var round, p := HighRiskRound(k, n), Turn(k, t);
    WinnerIsHighest(scores, round);
    forall i | 0 <= i < n
      ensures i != p ==> Priority(scores, round, i) <= Priority(scores, round, p)
      ensures i < p ==> Priority(scores, round, i) < Priority(scores, round, p)
    {
    }
  }

  lemma {:induction false} Rotation(k: nat, n: nat, ticks: nat, t: nat)
    requires 1 <= k <= 6 && k < n && t <= ticks && (k == 6 || ticks <= k + 5)
    ensures forall i :: 0 <= i < n ==>
                          ScoresAt(Zeros(n), HighRiskRounds(k, n, ticks), t)[i] == RotatingScore(k, t, i)
    decreases t
  {
    if t > 0 {
      Rotation(k, n, ticks, t - 1);
      var before := ScoresAt(Zeros(n), HighRiskRounds(k, n, ticks), t - 1);
      RotatingWinner(k, n, t - 1, before);
      assert HighRiskRounds(k, n, ticks)[t - 1] == HighRiskRound(k, n);
    }
  }

  /** Behind k <= 6 contexts of risk 1, contexts of risk 0 lose from a cold start: k + 5 ticks in a row whatever k
      is. */
  lemma LowRiskLoses(k: nat, n: nat, ticks: nat, t: nat, c: nat)
    requires 1 <= k <= 6 && k < n && t < ticks && (k == 6 || ticks <= k + 5) && k <= c < n
    ensures Setting(Zeros(n), HighRiskRounds(k, n, ticks))
    ensures WinnerAt(Zeros(n), HighRiskRounds(k, n, ticks), t) != c
  {
    Rotation(k, n, ticks, t);
    RotatingWinner(k, n, t, ScoresAt(Zeros(n), HighRiskRounds(k, n, ticks), t));
  }

  /** The bound is sharp: with two to six contexts n + 4 losses in a row do happen. */
  lemma BoundIsSharp(n: nat)
    requires 2 <= n <= 6
    ensures Loses(Zeros(n), HighRiskRounds(n - 1, n, n + 4), n - 1)
  {
    var rounds := HighRiskRounds(n - 1, n, n + 4);
    forall t | 0 <= t < |rounds| ensures WinnerAt(Zeros(n), rounds, t) != n - 1 {
      LowRiskLoses(n - 1, n, n + 4, t, n - 1);
    }
  }

  /** With seven contexts or more there is no bound: the last of them can lose any number of ticks in a row. */
  lemma LastContextStarves(n: nat, ticks: nat)
    requires n >= 7
    ensures |HighRiskRounds(6, n, ticks)| == ticks && Loses(Zeros(n), HighRiskRounds(6, n, ticks), n - 1)
  {
    var rounds := HighRiskRounds(6, n, ticks);
    forall t | 0 <= t < |rounds| ensures WinnerAt(Zeros(n), rounds, t) != n - 1 {
      LowRiskLoses(6, n, ticks, t, n - 1);
    }
  }

  /** Some number of ticks is enough for everybody, whatever the scores and risks. */
  ghost predicate HasBound(n: nat) {
    exists ticks: nat :: IsBound(n, ticks)
  }

  ghost predicate IsBound(n: nat, ticks: nat) {
    forall start, rounds, c: nat :: |start| == n && |rounds| == ticks ==> !Loses(start, rounds, c)
  }

  /** Waiting is bounded exactly when at most six contexts contend. */
  lemma BoundedIffAtMostSix(n: nat)
    ensures HasBound(n) <==> n <= 6
  {
    if n <= 6 {
      forall start: Scores, rounds: seq<Round>, c: nat | |start| == n && |rounds| == n + 5
        ensures !Loses(start, rounds, c)
      {
        if c < n {
          NobodyLosesLong(start, rounds, c);
        }
      }
      assert IsBound(n, n + 5);
    } else {
      forall ticks: nat ensures !IsBound(n, ticks) {
        LastContextStarves(n, ticks);
      }
    }
  }
}
