/** The bound on waiting, about the orchestrator's own ticks: when everybody's bid is admitted, the orchestrator's
    bids, winner and starvation update are those of the contended ticks for which the bound is proved.
 */
module Fairness {
  import opened Arbitration
  import opened Base
  import Budget
  import BoundedWaiting
  import opened Orchestrator

  /** Every context is asked, in order. */
  function Everybody(n: nat): seq<nat> {
    seq(n, i requires 0 <= i < n => i)
  }

  function Scores(runtimes: seq<Runtime>): BoundedWaiting.Scores {
    seq(|runtimes|, i requires 0 <= i < |runtimes| => runtimes[i].starvation)
  }

  ghost predicate Asks(r: Runtime, p: Option<Proposal>, b: Budget.ResourceBudget) {
    && r.active && Bid(r, p, b).Some? && !p.value.denied
    && BoundedWaiting.Neutral(DemandOf(p.value))
  }

  function DemandOf(p: Proposal): BoundedWaiting.Demand {
    BoundedWaiting.Demand(p.risk, Some(p.memory))
  }

  /** Everybody is awake, asks for something that can be afforded, with a neutral memory, and would not be denied. */
  ghost predicate Contended(runtimes: seq<Runtime>, proposals: seq<Option<Proposal>>, b: Budget.ResourceBudget) {
    0 < |runtimes| == |proposals| && forall i :: 0 <= i < |runtimes| ==> Asks(runtimes[i], proposals[i], b)
  }

  function RoundOf(proposals: seq<Option<Proposal>>): BoundedWaiting.Round
    requires forall i :: 0 <= i < |proposals| ==> proposals[i].Some?
  {
    seq(|proposals|, i requires 0 <= i < |proposals| => DemandOf(proposals[i].value))
  }

  lemma {:induction false} BidsOfFirst(runtimes: seq<Runtime>, proposals: seq<Option<Proposal>>,
                                       b: Budget.ResourceBudget, k: nat)
    requires Contended(runtimes, proposals, b) && k <= |runtimes|
    ensures Bids(Everybody(k), runtimes, proposals, b)
            == BoundedWaiting.Candidates(Scores(runtimes), RoundOf(proposals))[..k]
    decreases k
  {
    if k > 0 {
      BidsOfFirst(runtimes, proposals, b, k - 1);
      assert Everybody(k)[..k - 1] == Everybody(k - 1);
      assert Asks(runtimes[k - 1], proposals[k - 1], b);
    }
  }

  lemma ContendedWinner(runtimes: seq<Runtime>, proposals: seq<Option<Proposal>>, b: Budget.ResourceBudget)
    requires Contended(runtimes, proposals, b)
    ensures
      var bids := Bids(Everybody(|runtimes|), runtimes, proposals, b);
      && bids == BoundedWaiting.Candidates(Scores(runtimes), RoundOf(proposals))
      && WinnerOf(bids, proposals) == Some(BoundedWaiting.Winner(Scores(runtimes), RoundOf(proposals)))
  {
    var n := |runtimes|;
    BidsOfFirst(runtimes, proposals, b, n);
    var bids := Bids(Everybody(n), runtimes, proposals, b);
    assert bids == BoundedWaiting.Candidates(Scores(runtimes), RoundOf(proposals));
    BoundedWaiting.WinnerIsHighest(Scores(runtimes), RoundOf(proposals));
    assert Asks(runtimes[Select(bids).value.context], proposals[Select(bids).value.context], b);
  }

  /** What a tick that does not raise does to the contexts. */
  ghost predicate Ticks(before: seq<Runtime>, proposals: seq<Option<Proposal>>, b: Budget.ResourceBudget,
                        winner: Option<nat>, after: seq<Runtime>)
    requires |proposals| == |before|
  {
    var bids := Bids(Everybody(|before|), before, proposals, b);
    winner == WinnerOf(bids, proposals) && Updated(before, after, winner, bids)
  }

  /** A contended tick of the orchestrator is a tick of the model the bound is about. */
  lemma ContendedTick(before: seq<Runtime>, proposals: seq<Option<Proposal>>, b: Budget.ResourceBudget,
                      winner: Option<nat>, after: seq<Runtime>)
    requires Contended(before, proposals, b) && Ticks(before, proposals, b, winner, after)
    ensures winner == Some(BoundedWaiting.Winner(Scores(before), RoundOf(proposals)))
    ensures Scores(after) == BoundedWaiting.Tick(Scores(before), RoundOf(proposals))
  {
    ContendedWinner(before, proposals, b);
    var bids := Bids(Everybody(|before|), before, proposals, b);
    forall i | 0 <= i < |before|
      ensures Scores(after)[i] == BoundedWaiting.Tick(Scores(before), RoundOf(proposals))[i]
    {
      assert UpdatedOne(before[i], after[i], i, winner, bids);
      assert Asks(before[i], proposals[i], b);
      assert bids[i] in bids && bids[i].context == i;
    }
  }

  /** One contended tick after another: what was proposed and could be afforded, who won, and the contexts before and
      after. */
  datatype TickRecord = TickRecord(
    runtimes: seq<Runtime>, proposals: seq<Option<Proposal>>, budget: Budget.ResourceBudget, winner: Option<nat>)

  ghost predicate ContendedTicks(n: nat, ticks: seq<TickRecord>) {
    && (forall t :: 0 <= t < |ticks| ==>
                      |ticks[t].runtimes| == n && Contended(ticks[t].runtimes, ticks[t].proposals, ticks[t].budget))
    && (forall t :: 0 <= t < |ticks| ==>
                      var r := ticks[t];
                      r.winner == WinnerOf(Bids(Everybody(n), r.runtimes, r.proposals, r.budget), r.proposals))
    && (forall t :: 0 < t < |ticks| ==>
                      var r := ticks[t - 1];
                      Ticks(r.runtimes, r.proposals, r.budget, r.winner, ticks[t].runtimes))
  }

  ghost function Rounds(n: nat, ticks: seq<TickRecord>): (rounds: seq<BoundedWaiting.Round>)
    requires ContendedTicks(n, ticks)
    ensures |rounds| == |ticks| && BoundedWaiting.Contended(n, rounds)
  {
    var rounds := seq(|ticks|, t requires 0 <= t < |ticks| => RoundAt(n, ticks, t));
    rounds
  }

  ghost function RoundAt(n: nat, ticks: seq<TickRecord>, t: nat): (round: BoundedWaiting.Round)
    requires ContendedTicks(n, ticks) && t < |ticks|
    ensures |round| == n && forall i :: 0 <= i < n ==> BoundedWaiting.Neutral(round[i])
  {
    assert forall i :: 0 <= i < n ==> Asks(ticks[t].runtimes[i], ticks[t].proposals[i], ticks[t].budget);
    RoundOf(ticks[t].proposals)
  }

  lemma {:induction false} ScoresFollow(n: nat, ticks: seq<TickRecord>, t: nat)
    requires ContendedTicks(n, ticks) && t < |ticks| && 0 < n
    ensures Scores(ticks[t].runtimes) == BoundedWaiting.ScoresAt(Scores(ticks[0].runtimes), Rounds(n, ticks), t)
    decreases t
  {
    if t > 0 {
      var last := ticks[t - 1];
      ScoresFollow(n, ticks, t - 1);
      ContendedTick(last.runtimes, last.proposals, last.budget, last.winner, ticks[t].runtimes);
      assert Rounds(n, ticks)[t - 1] == RoundAt(n, ticks, t - 1);
    }
  }

  lemma WinnersFollow(n: nat, ticks: seq<TickRecord>, t: nat)
    requires ContendedTicks(n, ticks) && t < |ticks| && 0 < n
    ensures ticks[t].winner == Some(BoundedWaiting.WinnerAt(Scores(ticks[0].runtimes), Rounds(n, ticks), t))
  {
    ScoresFollow(n, ticks, t);
    ContendedWinner(ticks[t].runtimes, ticks[t].proposals, ticks[t].budget);
    assert Rounds(n, ticks)[t] == RoundAt(n, ticks, t);
  }

  /** Of at most six contexts that all bid, each is the orchestrator's winner within n + 5 ticks. */
  lemma EveryContextWinsTicks(n: nat, ticks: seq<TickRecord>, c: nat)
    requires ContendedTicks(n, ticks) && c < n <= 6 && |ticks| == n + 5
    requires forall i :: 0 <= i < n ==> ticks[0].runtimes[i].starvation >= 0.0
    ensures exists t :: 0 <= t < |ticks| && ticks[t].winner == Some(c)
  {
    var start, rounds := Scores(ticks[0].runtimes), Rounds(n, ticks);
    BoundedWaiting.EveryContextWins(start, rounds, c);
    var t :| 0 <= t < |rounds| && BoundedWaiting.WinnerAt(start, rounds, t) == c;
    WinnersFollow(n, ticks, t);
  }
}
