/** When a tick can leave a context with more than 1 committed: exactly when two other domains share its key. What is
    in a context's memory after any run, whoever takes part, comes from the domains that share it; and a run of three
    of them, from nothing stored, overcommits.
 */
module Overcommitment {
  import opened Base
  import opened FiniteSums
  import opened Strategy
  import opened ExecutionResults
  import opened Feedback
  import opened Replay
  import opened LifeLoop
  import opened Contexts
  import opened Restart
  import opened Collisions
  import opened Commitment
  import Competition
  import Rebinding

  // ---------------------------------------------------------------- what a shared memory holds

  /** A domain of a context with this key. */
  ghost predicate Peer(key: string, domain: string) {
    exists d :: StoreKey(d) == key && d.domain == domain
  }

  /** Trajectories of domains with this key, with weights in [0, 1]. */
  ghost predicate OfPeers(ts: Trajectories, key: string) {
    forall k :: k in ts ==> Peer(key, k) && 0.0 <= ts[k].weight <= 1.0
  }

  lemma TickOfPeers(st: State, i: Input, key: string)
    requires Ready(st, i) && OfPeers(st.trajectories, key) && Peer(key, i.domain)
    ensures OfPeers(Trajectories1(st, i), key) && OfPeers(Next(st, i).trajectories, key)
  {
    CompetitionKeepsUnit(st, i);
    TickCommitment(st, i);
    ReboundTraced(st, i);
    assert forall k :: k in Local(st, i) ==> k in st.trajectories || k == i.domain;
  }

  lemma ReportOfPeers(st: State, i: Input, f: Effect, key: string)
    requires Ready(st, i) && Carries(st, i, f)
    requires OfPeers(Trajectories1(st, i), key) && OfPeers(Next(st, i).trajectories, key)
    ensures OfPeers(f.trajectories, key)
  {
    var now := st.trajectories + f.trajectories;
    forall k | k in f.trajectories ensures Peer(key, k) && 0.0 <= f.trajectories[k].weight <= 1.0 {
      assert k in now && now[k] == f.trajectories[k];
    }
  }

  /** Whatever a restart could read is of peers. */
  ghost predicate StoredOfPeers(tr: Track, key: string) {
    var l := tr.loop;
    && StoreKey(l.context) == key && OfPeers(l.live.trajectories, key)
    && (l.snapshot.Some? ==> OfPeers(l.snapshot.value.trajectories, key))
    && (!tr.badEver ==> OfPeers(EffectOf(l.ledger).trajectories, key))
    && (FromSave(l) && !tr.badSince && tr.savedAt <= |l.ledger| ==>
          OfPeers(EffectOf(l.ledger[tr.savedAt..]).trajectories, key))
  }

  lemma MoreOfPeers(part: seq<StrategicEvent>, events: seq<StrategicEvent>, key: string)
    requires AllWellFormed(part) && AllWellFormed(events)
    requires OfPeers(EffectOf(part).trajectories, key) && OfPeers(EffectOf(events).trajectories, key)
    ensures OfPeers(EffectOf(part + events).trajectories, key)
  {
    EffectsConcat(part, events);
  }

  lemma TickEventsOfPeers(l: Loop, t: Tick, key: string)
    requires CanTick(l, t) && OfPeers(l.live.trajectories, key) && StoreKey(l.context) == key
    ensures OfPeers(Next(l.live, t.input).trajectories, key)
    ensures !Nameless(l.live, t.input) ==> AllWellFormed(t.events) && OfPeers(EffectOf(t.events).trajectories, key)
  {
    assert Peer(key, t.input.domain);
    TickOfPeers(l.live, t.input, key);
    TickCarries(l.live, t.input, t.events);
    if !Nameless(l.live, t.input) {
      ReportOfPeers(l.live, t.input, EffectOf(t.events), key);
    }
  }

  lemma LedgerOfPeers(tr: Track, t: Tick, key: string)
    requires Inv(tr) && StoredOfPeers(tr, key) && CanTick(tr.loop, t) && !TrackTick(tr, t).badEver
    ensures OfPeers(EffectOf(tr.loop.ledger + t.events).trajectories, key)
  {
    TickEventsOfPeers(tr.loop, t, key);
    MoreOfPeers(tr.loop.ledger, t.events, key);
  }

  lemma SuffixOfPeers(tr: Track, t: Tick, key: string)
    requires Inv(tr) && StoredOfPeers(tr, key) && CanTick(tr.loop, t) && !t.save
    requires FromSave(tr.loop) && !TrackTick(tr, t).badSince
    ensures tr.savedAt <= |tr.loop.ledger|
    ensures OfPeers(EffectOf((tr.loop.ledger + t.events)[tr.savedAt..]).trajectories, key)
  {
    TickEventsOfPeers(tr.loop, t, key);
    SuffixGrows(tr.loop.ledger, t.events, tr.savedAt);
    MoreOfPeers(tr.loop.ledger[tr.savedAt..], t.events, key);
  }

  lemma NothingOfPeers(ledger: seq<StrategicEvent>, key: string)
    ensures OfPeers(EffectOf(ledger[|ledger|..]).trajectories, key)
  {
    assert ledger[|ledger|..] == [];
    assert EffectOf([]).trajectories == map[];
  }

  lemma TickStoresOfPeers(tr: Track, t: Tick, key: string)
    requires Inv(tr) && StoredOfPeers(tr, key) && CanTick(tr.loop, t)
    ensures StoredOfPeers(TrackTick(tr, t), key)
  {
    var next := TrackTick(tr, t);
    assert OfPeers(next.loop.live.trajectories, key) by {
      TickEventsOfPeers(tr.loop, t, key);
    }
    assert !next.badEver ==> OfPeers(EffectOf(next.loop.ledger).trajectories, key) by {
      if !next.badEver {
        LedgerOfPeers(tr, t, key);
      }
    }
    if NamesEvent(t) {
      NothingOfPeers(next.loop.ledger, key);
    } else if FromSave(next.loop) && !next.badSince {
      SuffixOfPeers(tr, t, key);
    }
  }

  lemma OverwrittenOfPeers(b: Bundle, f: Effect, key: string)
    requires OfPeers(b.trajectories, key) && OfPeers(f.trajectories, key)
    ensures OfPeers(Overwrite(b, f).trajectories, key)
  {
  }

  lemma RestoredOfPeers(tr: Track, d: StrategicContext, key: string)
    requires Inv(tr) && StoredOfPeers(tr, key) && CanStep(tr.loop, Register(d))
    ensures StoredOfPeers(DoTrack(tr, Register(d)), key)
  {
    var l := tr.loop;
    RestartOf(tr);
    if FromSave(l) {
      OverwrittenOfPeers(l.snapshot.value, EffectOf(l.ledger[tr.savedAt..]), key);
    } else {
      OverwrittenOfPeers(DEFAULT_BUNDLE, EffectOf(l.ledger), key);
    }
  }

  lemma StepStoresOfPeers(tr: Track, s: Step, key: string)
    requires Inv(tr) && StoredOfPeers(tr, key) && CanStep(tr.loop, s)
    ensures StoredOfPeers(DoTrack(tr, s), key)
  {
    match s
    case Feedback(t) => TickStoresOfPeers(tr, t, key);
    case Idle(_) =>
    case Form(_) =>
    case Learn(_) =>
    case Register(d) => RestoredOfPeers(tr, d, key);
  }

  lemma {:induction false} RunStoresOfPeers(c: StrategicContext, steps: seq<Step>)
    requires Run(c, steps).Some?
    ensures Inv(Run(c, steps).value) && StoredOfPeers(Run(c, steps).value, StoreKey(c))
    decreases |steps|
  {
    if steps == [] {
      ColdInv(c);
      assert EffectOf([]).trajectories == map[];
    } else {
      var front, s := steps[..|steps| - 1], steps[|steps| - 1];
      RunStoresOfPeers(c, front);
      StepKeeps(Run(c, front).value, s);
      StepStoresOfPeers(Run(c, front).value, s, StoreKey(c));
    }
  }

  /** After any run, with any contexts registered in each other's place: every trajectory in memory is under the
      domain of a context with this key, with a weight in [0, 1], restarts included. */
  lemma RunsStayAmongPeers(c: StrategicContext, steps: seq<Step>)
    requires Run(c, steps).Some?
    ensures OfPeers(Run(c, steps).value.loop.live.trajectories, StoreKey(c))
  {
    RunStoresOfPeers(c, steps);
  }

  // ---------------------------------------------------------------- it takes three

  /** A tick after this run leaves more than 1 committed. */
  ghost predicate Overcommits(c: StrategicContext, steps: seq<Step>, t: Tick) {
    && Run(c, steps).Some? && CanTick(Run(c, steps).value.loop, t)
    && LiveTotal(Next(Run(c, steps).value.loop.live, t.input).trajectories) > 1.0
  }

  ghost predicate CanOvercommit(c: StrategicContext) {
    exists steps, t :: Overcommits(c, steps, t)
  }

  ghost predicate TwoOthers(c: StrategicContext, d: StrategicContext, e: StrategicContext) {
    Collides(c, d) && Collides(c, e) && d.domain != e.domain
  }

  lemma PickTwo(s: set<string>) returns (a: string, b: string)
    requires |s| >= 2
    ensures a in s && b in s && a != b
  {
    a :| a in s;
    assert |s - {a}| >= 1;
    b :| b in s - {a};
  }

  /** Of three domains with one key, two are others. */
  lemma OthersAmong(c: StrategicContext, x: StrategicContext, y: StrategicContext, z: StrategicContext)
    returns (d: StrategicContext, e: StrategicContext)
    requires StoreKey(x) == StoreKey(y) == StoreKey(z) == StoreKey(c)
    requires x.domain != y.domain && y.domain != z.domain && x.domain != z.domain
    ensures TwoOthers(c, d, e)
  {
    if x.domain == c.domain {
      d, e := y, z;
    } else if y.domain == c.domain {
      d, e := x, z;
    } else {
      d, e := x, y;
    }
  }

  lemma OvercommittingTakesTwoOthers(c: StrategicContext, steps: seq<Step>, t: Tick)
    returns (d: StrategicContext, e: StrategicContext)
    requires Overcommits(c, steps, t)
    ensures TwoOthers(c, d, e)
  {
    var l, key := Run(c, steps).value.loop, StoreKey(c);
    RunStoresOfPeers(c, steps);
    OvercommittingNeedsThree(l.live, t.input);
    var a, b := PickTwo(l.live.trajectories.Keys - {t.input.domain});
    assert Peer(key, a) && Peer(key, b);
    var x :| StoreKey(x) == key && x.domain == a;
    var y :| StoreKey(y) == key && y.domain == b;
    d, e := OthersAmong(c, l.context, x, y);
  }

  // ---------------------------------------------------------------- a tick that the competition leaves alone

  function PathsOf(order: seq<string>): (ps: seq<PathKey>)
    ensures |ps| == |order| && forall j :: 0 <= j < |order| ==> ps[j] == [order[j], ACTION]
  {
    seq(|order|, j requires 0 <= j < |order| => [order[j], ACTION])
  }

  function Ticks(result: ExecutionResult, domain: string, now: Time, order: seq<string>): Input {
    Input(result, domain, ACTION, now, order, PathsOf(order))
  }

  /** One trajectory and one path for each of these domains. */
  ghost predicate Peopled(st: State, order: seq<string>) {
    && WellKeyed(st.trajectories) && Enumerates(order, st.trajectories.Keys)
    && Enumerates(PathsOf(order), st.paths.Keys)
  }

  lemma StaysPeopled(st: State, i: Input)
    requires Ready(st, i) && i.pathOrder == PathsOf(i.order)
    ensures Peopled(Next(st, i), i.order)
  {
    ReboundTraced(st, i);
  }

  lemma PathsEnumerate(order: seq<string>, k: string)
    ensures [k, ACTION] in PathsOf(order) <==> k in order
    ensures NoDuplicates(order) ==> NoDuplicates(PathsOf(order))
  {
    if k in order {
      var j :| 0 <= j < |order| && order[j] == k;
      assert PathsOf(order)[j] == [k, ACTION];
    }
    if [k, ACTION] in PathsOf(order) {
      var j :| 0 <= j < |order| && PathsOf(order)[j] == [k, ACTION];
      assert [order[j], ACTION][0] == k;
    }
    forall i, j | 0 <= i < j < |order| && NoDuplicates(order) ensures PathsOf(order)[i] != PathsOf(order)[j] {
      assert PathsOf(order)[i][0] != PathsOf(order)[j][0];
    }
  }

  lemma OldIsReady(st: State, result: ExecutionResult, domain: string, now: Time, order: seq<string>)
    requires Peopled(st, order) && domain in order
    ensures Ready(st, Ticks(result, domain, now, order))
  {
    PathsEnumerate(order, domain);
    var i := Ticks(result, domain, now, order);
    assert Local(st, i).Keys == st.trajectories.Keys && Paths1(st, i).Keys == st.paths.Keys;
  }

  lemma NewIsReady(st: State, domain: string, order: seq<string>)
    requires Peopled(st, order) && domain !in order
    ensures Ready(st, Ticks(DONE, domain, 0, order + [domain]))
  {
    var more := order + [domain];
    var i := Ticks(DONE, domain, 0, more);
    PathsEnumerate(more, domain);
    assert PathsOf(more) == PathsOf(order) + [[domain, ACTION]];
    assert Local(st, i).Keys == st.trajectories.Keys + {domain};
    assert Paths1(st, i).Keys == st.paths.Keys + {[domain, ACTION]};
  }

  /** Nothing to compete for, nothing to reflect on. */
  lemma QuietTick(st: State, i: Input)
    requires Ready(st, i) && Competition.Settled(Local(st, i), Posture1(st, i).mode, i.now)
    requires forall k :: k in Local(st, i) ==> !Rebinding.Reflects(Local(st, i)[k], i.now)
    ensures Next(st, i).trajectories == Trajectories1(st, i) == Local(st, i) && Silent(st, i) == {}
  {
    Uncontested(st, i);
    NothingReflects(Trajectories1(st, i), i.order, Paths1(st, i), Posture1(st, i).mode, i.now);
  }

  lemma Uncontested(st: State, i: Input)
    requires Ready(st, i) && Competition.Settled(Local(st, i), Posture1(st, i).mode, i.now)
    ensures Trajectories1(st, i) == Local(st, i)
  {
    var ts, outcome := Local(st, i), Some(Interpret(i.result).outcome);
    Competition.RankingRanks(ts, i.order, outcome, i.now);
    Competition.SettledIsFixed(ts, Competition.Ranking(ts, i.order, outcome, i.now), Posture1(st, i).mode, outcome,
                               i.now);
  }

  // ---------------------------------------------------------------- one more trajectory

  /** Nothing here decays, and at the start nothing is reflected on. */
  ghost predicate Resting(ts: Trajectories) {
    && WellKeyed(ts)
    && forall k :: k in ts ==>
           ts[k].lastUpdated == 0 && !ts[k].status.Stalled? && (ts[k].status.Active? ==> ts[k].weight > 0.0)
  }

  lemma LiveAfterAdd(ts: Trajectories, t: Trajectory)
    requires t.id !in ts
    ensures LiveTotal(ts[t.id := t]) == LiveTotal(ts) + LiveOf(t)
  {
    var m := ts[t.id := t];
    assert m.Keys == ts.Keys + {t.id};
    SumInsert(ts.Keys, t.id, Competition.WeightIn(m));
    SumCongruent(ts.Keys, Competition.WeightIn(ts), Competition.WeightIn(m));
  }

  lemma ActiveAfterAdd(ts: Trajectories, t: Trajectory)
    requires t.id !in ts
    ensures |Competition.ActiveKeys(ts[t.id := t])| <= |Competition.ActiveKeys(ts)| + 1
  {
    var before, after := Competition.ActiveKeys(ts), Competition.ActiveKeys(ts[t.id := t]);
    assert after <= before + {t.id};
    CardinalityMonotone(after, before + {t.id});
  }

  /** Two ACTIVE trajectories and a whole budget are room enough, except in TACTICAL mode. */
  lemma RoomForOne(ts: Trajectories, t: Trajectory, mode: Mode, now: Time)
    requires Resting(ts) && t.id !in ts && !t.status.Stalled? && (t.status.Active? ==> t.weight > 0.0)
    requires LiveTotal(ts) + LiveOf(t) <= 1.0 && |Competition.ActiveKeys(ts)| <= 1 && !mode.Tactical?
    ensures Competition.Settled(ts[t.id := t], mode, now)
  {
    LiveAfterAdd(ts, t);
    ActiveAfterAdd(ts, t);
  }

  // ---------------------------------------------------------------- the mode while others succeed

  /** One path was blocked once, the others are flawless. */
  ghost predicate OneBlocked(paths: Paths, blocked: PathKey) {
    && blocked in paths && paths[blocked].abandonment.Hard? && paths[blocked].failureCount == 1
    && (forall p :: p in paths ==> paths[p].lastUpdated >= 0)
    && (forall p :: p in paths && p != blocked ==> paths[p].abandonment.NoAbandonment? && paths[p].failureCount == 0)
  }

  ghost predicate Steady(st: State, s: string) {
    && !st.posture.mode.Tactical? && 0.5 <= st.posture.confidenceBaseline <= 1.0 && OneBlocked(st.paths, [s, ACTION])
  }

  lemma {:induction false} CountsOne(paths: Paths, order: seq<PathKey>, blocked: PathKey)
    requires OneBlocked(paths, blocked) && NoDuplicates(order) && forall p :: p in order ==> p in paths
    ensures
      var recent, count := Recent(paths, order, 0), if blocked in order then 1 else 0;
      && |recent| == |order| && CountAbandoned(recent, Soft) == 0
      && CountAbandoned(recent, Hard) == CountFailures(recent) == count
    decreases |order|
  {
    if order != [] {
      var n := |order| - 1;
      assert order == order[..n] + [order[n]];
      CountsOne(paths, order[..n], blocked);
      var before := Recent(paths, order[..n], 0);
      assert (before + [paths[order[n]]])[..|before|] == before;
    }
  }

  lemma FairHealth(p: Posture, recent: seq<PathStatus>)
    requires |recent| >= 2 && p.confidenceBaseline >= 0.5
    requires CountAbandoned(recent, Soft) == 0 && CountAbandoned(recent, Hard) == CountFailures(recent) == 1
    ensures Health(p, recent) >= 0.4
  {
    var n := |recent| as real;
    HalfAtMost(n);
    assert (0 as real + 1 as real * 2.0) / n == 2.0 / n;
  }

  lemma HalfAtMost(n: real)
    requires n >= 2.0
    ensures 2.0 / n <= 1.0 && 1.0 / (n * 3.0) <= 1.0 / 6.0
  {
  }

  lemma FairHorizon(p: Posture, paths: Paths, order: seq<PathKey>, blocked: PathKey, other: PathKey)
    requires OneBlocked(paths, blocked) && Enumerates(order, paths.Keys) && other in paths && other != blocked
    requires !p.mode.Tactical? && p.confidenceBaseline >= 0.5
    ensures !EvaluateHorizon(p, paths, order, 0).mode.Tactical?
  {
    CountsOne(paths, order, blocked);
    TwoInOrder(order, blocked, other);
    FairHealth(p, Recent(paths, order, 0));
  }

  lemma SuccessUnblocks(st: State, i: Input, s: string)
    requires OneBlocked(st.paths, [s, ACTION]) && i.result == DONE && i.now == 0 && i.action == ACTION && i.domain != s
    ensures OneBlocked(Paths1(st, i), [s, ACTION]) && [i.domain, ACTION] != [s, ACTION]
    ensures [i.domain, ACTION] in Paths1(st, i)
  {
    assert [s, ACTION][0] == s && [i.domain, ACTION][0] == i.domain;
  }

  lemma SuccessKeepsSteady(st: State, i: Input, s: string)
    requires Ready(st, i) && Steady(st, s) && i.result == DONE && i.now == 0 && i.action == ACTION && i.domain != s
    ensures Steady(Next(st, i), s)
  {
    SuccessUnblocks(st, i, s);
    FairHorizon(Posture1(st, i), Paths1(st, i), i.pathOrder, [s, ACTION], [i.domain, ACTION]);
  }

  lemma TwoInOrder<K>(order: seq<K>, a: K, b: K)
    requires a in order && b in order && a != b
    ensures |order| >= 2
  {
  }

  // ---------------------------------------------------------------- a trajectory grows

  /** d has a trajectory of this weight beside the others. */
  ghost predicate Growing(st: State, s: string, others: Trajectories, d: string, w: real, order: seq<string>) {
    && Peopled(st, order) && d !in others && st.trajectories == others[d := At(d, Active, w)] && Steady(st, s)
  }

  ghost predicate RoomFor(others: Trajectories, w: real) {
    Resting(others) && LiveTotal(others) + w <= 1.0 && |Competition.ActiveKeys(others)| <= 1
  }

  lemma SuccessGrows(st: State, s: string, others: Trajectories, d: string, w: real, order: seq<string>)
    requires Ready(st, Ticks(DONE, d, 0, order)) && Steady(st, s) && d != s
    requires Local(st, Ticks(DONE, d, 0, order)) == others[d := At(d, Active, w)] && d !in others
    requires RoomFor(others, w) && w > 0.0
    ensures
      var i := Ticks(DONE, d, 0, order);
      && Trajectories1(st, i) == Local(st, i) && Silent(st, i) == {}
      && Growing(Next(st, i), s, others, d, w, order)
  {
    var i := Ticks(DONE, d, 0, order);
    RoomForOne(others, At(d, Active, w), Posture1(st, i).mode, 0);
    QuietTick(st, i);
    StaysPeopled(st, i);
    SuccessKeepsSteady(st, i, s);
  }

  /** What a success does at the start: nothing else changes. */
  ghost predicate Grown(st: State, i: Input, s: string, others: Trajectories, w: real) {
    && Ready(st, i) && Silent(st, i) == {} && (i.domain != "" ==> !Nameless(st, i))
    && Growing(Next(st, i), s, others, i.domain, w, i.order)
  }

  lemma GrowsFirst(st: State, s: string, d: string, w: real, order: seq<string>)
    requires Peopled(st, order) && d !in order && Steady(st, s) && d != s && w == 0.1 && RoomFor(st.trajectories, w)
    ensures Grown(st, Ticks(DONE, d, 0, order + [d]), s, st.trajectories, w)
  {
    NewIsReady(st, d, order);
    SuccessGrows(st, s, st.trajectories, d, w, order + [d]);
  }

  lemma LocalGrows(st: State, others: Trajectories, d: string, w: real, order: seq<string>)
    requires st.trajectories == others[d := At(d, Active, w)] && w + 0.05 <= 1.0
    ensures Local(st, Ticks(DONE, d, 0, order)) == others[d := At(d, Active, w + 0.05)]
  {
    assert UpdateOne(At(d, Active, w), Interpret(DONE), 0) == At(d, Active, w + 0.05);
  }

  lemma GrowsMore(st: State, s: string, others: Trajectories, d: string, w: real, next: real, order: seq<string>)
    requires Growing(st, s, others, d, w, order) && d != s && w > 0.0 && next == w + 0.05 && RoomFor(others, next)
    ensures Grown(st, Ticks(DONE, d, 0, order), s, others, next)
  {
    var i := Ticks(DONE, d, 0, order);
    IsInOrder(st, order, d);
    OldIsReady(st, DONE, d, 0, order);
    NotMoreThanAll(others, next);
    LocalGrows(st, others, d, w, order);
    SuccessGrows(st, s, others, d, next, order);
    OthersAreNamed(st, i, others, w);
  }

  lemma IsInOrder(st: State, order: seq<string>, d: string)
    requires Peopled(st, order) && d in st.trajectories
    ensures d in order
  {
  }

  lemma OthersAreNamed(st: State, i: Input, others: Trajectories, w: real)
    requires Ready(st, i) && Trajectories1(st, i) == others[i.domain := At(i.domain, Active, w + 0.05)]
    requires st.trajectories == others[i.domain := At(i.domain, Active, w)]
    ensures i.domain != "" ==> !Nameless(st, i)
  {
  }

  lemma NotMoreThanAll(others: Trajectories, w: real)
    requires RoomFor(others, w)
    ensures w <= 1.0
  {
    SumNonNegative(others.Keys, Competition.WeightIn(others));
  }

  /** A context that runs, and whose ledger can be replayed if asked for. */
  ghost predicate Walks(c: StrategicContext, steps: seq<Step>, own: StrategicContext, sound: bool) {
    Run(c, steps).Some? && NoneFormed(steps) && WalksAt(Run(c, steps).value, own, sound)
  }

  ghost predicate WalksAt(tr: Track, own: StrategicContext, sound: bool) {
    InNumber(tr.loop.ledger) && tr.loop.context == own && (sound ==> StandsAt(tr, own))
  }

  lemma WalksFurther(tr: Track, own: StrategicContext, sound: bool, i: Input)
    requires Inv(tr) && WalksAt(tr, own, sound) && Ready(tr.loop.live, i) && i.domain == own.domain
    requires Silent(tr.loop.live, i) == {} && (sound ==> !Nameless(tr.loop.live, i))
    ensures CanTick(tr.loop, TickFor(tr.loop, i)) && WalksAt(TrackTick(tr, TickFor(tr.loop, i)), own, sound)
  {
    TickIsPossible(tr.loop, i);
    if sound {
      StandsOn(tr, own, i);
    }
  }

  lemma WalkOn(c: StrategicContext, steps: seq<Step>, own: StrategicContext, sound: bool, i: Input)
    returns (more: seq<Step>)
    requires Walks(c, steps, own, sound) && Ready(Run(c, steps).value.loop.live, i) && i.domain == own.domain
    requires Silent(Run(c, steps).value.loop.live, i) == {} && (sound ==> !Nameless(Run(c, steps).value.loop.live, i))
    ensures Walks(c, more, own, sound) && Run(c, more).value.loop.live == Next(Run(c, steps).value.loop.live, i)
  {
    RunHasInv(c, steps);
    WalksFurther(Run(c, steps).value, own, sound, i);
    more := StepAlong(c, steps, i);
  }

  /** A tick that can be replayed if asked for, and rewrites nothing silently. */
  ghost predicate Leads(st: State, i: Input, sound: bool, next: State) {
    Ready(st, i) && Silent(st, i) == {} && (sound ==> !Nameless(st, i)) && Next(st, i) == next
  }

  /** The same input over and over leads through these states. */
  ghost predicate LeadsThrough(states: seq<State>, i: Input, sound: bool) {
    states != [] && forall k :: 0 <= k < |states| - 1 ==> Leads(states[k], i, sound, states[k + 1])
  }

  lemma {:induction false} RepeatOn(c: StrategicContext, steps: seq<Step>, own: StrategicContext, sound: bool, i: Input,
                                    states: seq<State>) returns (more: seq<Step>)
    requires Walks(c, steps, own, sound) && i.domain == own.domain
    requires LeadsThrough(states, i, sound) && Run(c, steps).value.loop.live == states[0]
    ensures Walks(c, more, own, sound) && Run(c, more).value.loop.live == states[|states| - 1]
    decreases |states|
  {
    if |states| == 1 {
      more := steps;
    } else {
      var n := |states| - 1;
      more := RepeatOn(c, steps, own, sound, i, states[..n]);
      assert Leads(states[n - 1], i, sound, states[n]);
      more := WalkOn(c, more, own, sound, i);
    }
  }

  function Successes(n: nat): real {
    0.05 + 0.05 * n as real
  }

  lemma LessRoomNeeded(others: Trajectories, n: nat)
    requires n > 1 && RoomFor(others, Successes(n))
    ensures RoomFor(others, Successes(n - 1)) && Successes(n - 1) + 0.05 == Successes(n) && Successes(n - 1) > 0.0
  {
  }

  lemma OneStep(st: State, i: Input, sound: bool, next: State) returns (states: seq<State>)
    requires Leads(st, i, sound, next)
    ensures states == [st, next] && LeadsThrough(states, i, sound)
  {
    states := [st, next];
  }

  lemma OneMore(states: seq<State>, i: Input, sound: bool, next: State)
    requires LeadsThrough(states, i, sound) && Leads(states[|states| - 1], i, sound, next)
    ensures LeadsThrough(states + [next], i, sound)
  {
  }

  /** These states are led through by n successes of d. */
  ghost predicate GrownBy(states: seq<State>, st: State, s: string, d: string, order: seq<string>, sound: bool,
                          n: nat)
  {
    && LeadsThrough(states, Ticks(DONE, d, 0, order + [d]), sound) && states[0] == st
    && Growing(states[|states| - 1], s, st.trajectories, d, Successes(n), order + [d])
  }

  lemma GrowOnce(st: State, s: string, d: string, order: seq<string>, sound: bool, n: nat) returns (states: seq<State>)
    requires n == 1 && Peopled(st, order) && Steady(st, s) && d !in order && d != s
    requires RoomFor(st.trajectories, Successes(n)) && (sound ==> d != "")
    ensures GrownBy(states, st, s, d, order, sound, n)
  {
    var i := Ticks(DONE, d, 0, order + [d]);
    assert Successes(n) == 0.1;
    GrowsFirst(st, s, d, Successes(n), order);
    states := OneStep(st, i, sound, Next(st, i));
  }

  lemma GrowAgain(states: seq<State>, st: State, s: string, d: string, order: seq<string>, sound: bool, n: nat)
    returns (more: seq<State>)
    requires n > 1 && GrownBy(states, st, s, d, order, sound, n - 1) && d != s
    requires RoomFor(st.trajectories, Successes(n)) && (sound ==> d != "")
    ensures GrownBy(more, st, s, d, order, sound, n)
  {
    var i, last := Ticks(DONE, d, 0, order + [d]), states[|states| - 1];
    LessRoomNeeded(st.trajectories, n);
    GrowsMore(last, s, st.trajectories, d, Successes(n - 1), Successes(n), order + [d]);
    OneMore(states, i, sound, Next(last, i));
    more := states + [Next(last, i)];
  }

  /** After n successes in a row, a new domain's trajectory weighs 0.05 + 0.05 n. */
  lemma {:induction false} Grow(st: State, s: string, d: string, order: seq<string>, sound: bool, n: nat)
    returns (states: seq<State>)
    requires n >= 1 && Peopled(st, order) && Steady(st, s) && d !in order && d != s
    requires RoomFor(st.trajectories, Successes(n)) && (sound ==> d != "")
    ensures GrownBy(states, st, s, d, order, sound, n)
    decreases n
  {
    if n == 1 {
      states := GrowOnce(st, s, d, order, sound, n);
    } else {
      LessRoomNeeded(st.trajectories, n);
      states := Grow(st, s, d, order, sound, n - 1);
      states := GrowAgain(states, st, s, d, order, sound, n);
    }
  }

  // ---------------------------------------------------------------- the blocked one

  const BLOCKED: ExecutionResult := ExecutionResult(Rejected, PolicyFailure)

  /** Two successes of a context by itself: no failure, and STRATEGIC mode. */
  ghost predicate Flourishing(st: State, d: string, confidence: real) {
    st.posture.mode.Strategic? && confidence <= st.posture.confidenceBaseline <= 1.0 && st.paths.Keys == {[d, ACTION]}
  }

  lemma OnePath(p: Posture, key: PathKey, status: PathStatus)
    requires status.lastUpdated == 0
    ensures EvaluateHorizon(p, map[key := status], [key], 0).mode == ShiftMode(p.mode, Health(p, [status]))
  {
    var paths := map[key := status];
    assert [key][..0] == [];
    assert Recent(paths, [], 0) == [];
    assert Recent(paths, [key], 0) == [status];
  }

  lemma SuccessFlourishes(st: State, d: string, confidence: real)
    requires (st == BLANK && confidence == 0.5) || Flourishing(st, d, confidence)
    requires 0.5 <= confidence <= 0.9 && Ready(st, FirstTicks(d, DONE))
    ensures Flourishing(Next(st, FirstTicks(d, DONE)), d, confidence + 0.02)
  {
    var i := FirstTicks(d, DONE);
    var status := PathStatus(0, Success, NoAbandonment, 0, None);
    assert Paths1(st, i) == map[[d, ACTION] := status];
    OnePath(Posture1(st, i), [d, ACTION], status);
    ModeFollowsHealth(Posture1(st, i), [status]);
  }

  lemma BlockedLocally(st: State, d: string)
    requires Alone(st, At(d, Active, 0.15), 0)
    ensures
      var i := FirstTicks(d, BLOCKED);
      && Ready(st, i) && Local(st, i) == map[d := At(d, Abandoned, 0.05)]
      && Paths1(st, i) == map[[d, ACTION] := PathStatus(1, Blocked, Hard, 0, None)]
  {
    assert UpdateOne(At(d, Active, 0.15), Interpret(BLOCKED), 0) == At(d, Abandoned, 0.05);
  }

  lemma OneAbandoned(d: string, w: real, mode: Mode)
    requires !mode.Tactical?
    ensures
      var ts := map[d := At(d, Abandoned, w)];
      LiveTotal(ts) == 0.0 && Competition.ActiveKeys(ts) == {} && Resting(ts) && Competition.Settled(ts, mode, 0)
  {
    var ts := map[d := At(d, Abandoned, w)];
    SumOfZeros(ts.Keys, Competition.WeightIn(ts));
    assert |Competition.ActiveKeys(ts)| == 0;
  }

  /** A policy block gives the trajectory up, and takes the mode no further down than BALANCED. */
  lemma BlockedEnds(st: State, d: string)
    requires Alone(st, At(d, Active, 0.15), 0) && Flourishing(st, d, 0.54)
    ensures
      var i := FirstTicks(d, BLOCKED);
      && Ready(st, i) && Next(st, i).trajectories == map[d := At(d, Abandoned, 0.05)]
      && Steady(Next(st, i), d) && Peopled(Next(st, i), [d])
  {
    var i := FirstTicks(d, BLOCKED);
    BlockedLocally(st, d);
    OneAbandoned(d, 0.05, Posture1(st, i).mode);
    QuietTick(st, i);
    assert PathsOf([d]) == [[d, ACTION]];
    StaysPeopled(st, i);
  }

  lemma BlockedRun(c: StrategicContext, s: StrategicContext) returns (steps: seq<Step>)
    requires StoreKey(s) == StoreKey(c) && s.domain != ""
    ensures Stands(c, steps, s)
    ensures
      var st := Run(c, steps).value.loop.live;
      && st.trajectories == map[s.domain := At(s.domain, Abandoned, 0.05)]
      && Steady(st, s.domain) && Peopled(st, [s.domain])
  {
    var d := s.domain;
    Begin(c);
    steps := TakeOver(c, [], c, s);
    FirstSuccess(d);
    SuccessFlourishes(BLANK, d, 0.5);
    steps := OwnTickOn(c, steps, s, FirstTicks(d, DONE));
    var st := Run(c, steps).value.loop.live;
    SecondSuccess(st, d);
    SuccessFlourishes(st, d, 0.52);
    steps := OwnTickOn(c, steps, s, FirstTicks(d, DONE));
    st := Run(c, steps).value.loop.live;
    BlockedEnds(st, d);
    steps := OwnTickOn(c, steps, s, FirstTicks(d, BLOCKED));
  }

  // ---------------------------------------------------------------- the third one's tick

  function Given(s: string): Trajectories {
    map[s := At(s, Abandoned, 0.05)]
  }

  function Half(s: string, t: string): Trajectories {
    Given(s)[t := At(t, Active, 0.5)]
  }

  function Crowd(s: string, t: string, l: string, now: Time): Trajectories {
    Half(s, t)[l := At(l, Active, 0.5).(lastUpdated := now)]
  }

  lemma HalfHasRoom(s: string, t: string)
    requires s != t
    ensures RoomFor(Given(s), 0.5) && RoomFor(Half(s, t), 0.5) && LiveTotal(Half(s, t)) == 0.5
  {
    OneAbandoned(s, 0.05, Balanced);
    LiveAfterAdd(Given(s), At(t, Active, 0.5));
    ActiveAfterAdd(Given(s), At(t, Active, 0.5));
  }

  lemma CrowdIsSettled(s: string, t: string, l: string, mode: Mode, now: Time)
    requires s != t && t != l && s != l && !mode.Tactical?
    ensures Competition.Settled(Crowd(s, t, l, now), mode, now) && LiveTotal(Crowd(s, t, l, now)) == 1.0
  {
    var x := At(l, Active, 0.5).(lastUpdated := now);
    HalfHasRoom(s, t);
    RoomForOne(Half(s, t), x, mode, now);
    LiveAfterAdd(Half(s, t), x);
  }

  const LATER: Time := Rebinding.SETTLING_TIME

  lemma GivenIsReflected(s: string, t: string, l: string, paths: Paths, mode: Mode)
    requires s != t && t != l && s != l
    ensures
      var ts := Crowd(s, t, l, LATER);
      Rebinding.Reflect(ts, [s, t, l], paths, mode, LATER) == [Rebinding.ReflectOn(At(s, Abandoned, 0.05), paths, mode)]
  {
    var ts := Crowd(s, t, l, LATER);
    assert [s][..0] == [] && [s, t][..1] == [s] && [s, t, l][..2] == [s, t];
    assert Rebinding.Reflect(ts, [], paths, mode, LATER) == [];
    assert Rebinding.Reflect(ts, [s], paths, mode, LATER) == [Rebinding.ReflectOn(At(s, Abandoned, 0.05), paths, mode)];
    assert Rebinding.Reflect(ts, [s, t], paths, mode, LATER) == Rebinding.Reflect(ts, [s], paths, mode, LATER);
  }

  /** The one that was given up is transformed into an ACTIVE one. */
  lemma GivenComesBack(s: string, t: string, l: string, paths: Paths, mode: Mode)
    requires s != t && t != l && s != l && !mode.Tactical? && [s] !in paths
    ensures
      var ts := Crowd(s, t, l, LATER);
      GainAhead(ts, [s, t, l], paths, mode, LATER) == 0.04 && DrainAhead(ts, [s, t, l], paths, mode, LATER) == 0.0
  {
    var ts, r := Crowd(s, t, l, LATER), Rebinding.ReflectOn(At(s, Abandoned, 0.05), paths, mode);
    var target := Rebinding.HeaviestActive(ts, [s, t, l]);
    GivenIsReflected(s, t, l, paths, mode);
    assert t in [s, t, l] && ts[t].status.Active?;
    assert target.Some? && target.value.weight == 0.5 && target.value.id != s;
    assert [r][..0] == [];
    assert Transformed(ts, target, [], mode) == 0.0 && DrainedLive(ts, target, [], mode) == 0.0;
    assert Moves(ts, target, r, mode);
  }

  /** An input to reflection and rebinding: a memory that commits exactly 1 commits more after them, because abandoned
      commitment comes back. */
  lemma AbandonedWeightReturns(s: string, t: string, l: string, paths: Paths, mode: Mode)
    requires s != t && t != l && s != l && !mode.Tactical? && [s] !in paths
    ensures
      var ts, order := Crowd(s, t, l, LATER), [s, t, l];
      var rs := Rebinding.Reflect(ts, order, paths, mode, LATER);
      && LiveTotal(ts) == 1.0
      && LiveTotal(Rebinding.Rebind(ts, order, rs, mode, LATER).trajectories) == 1.04
  {
    CrowdIsSettled(s, t, l, mode, LATER);
    GivenComesBack(s, t, l, paths, mode);
    RebindingOvercommitsIff(Crowd(s, t, l, LATER), [s, t, l], paths, mode, LATER);
  }

  lemma PuzzledLocally(st: State, s: string, t: string, l: string)
    requires st.trajectories == Crowd(s, t, l, 0) && Peopled(st, [s, t, l])
    ensures
      var i := Ticks(PUZZLING, l, LATER, [s, t, l]);
      Ready(st, i) && Local(st, i) == Crowd(s, t, l, LATER) && [s] !in Paths1(st, i)
  {
    var i := Ticks(PUZZLING, l, LATER, [s, t, l]);
    OldIsReady(st, PUZZLING, l, LATER, [s, t, l]);
    assert UpdateOne(At(l, Active, 0.5), Interpret(PUZZLING), LATER) == At(l, Active, 0.5).(lastUpdated := LATER);
    assert forall p :: p in PathsOf([s, t, l]) ==> |p| == 2;
    assert |[s]| == 1;
  }

  lemma CrowdOvercommits(st: State, s: string, t: string, l: string)
    requires st.trajectories == Crowd(s, t, l, 0) && Peopled(st, [s, t, l]) && !st.posture.mode.Tactical?
    requires s != t && t != l && s != l
    ensures
      var i := Ticks(PUZZLING, l, LATER, [s, t, l]);
      Ready(st, i) && LiveTotal(Next(st, i).trajectories) == 1.04
  {
    var i := Ticks(PUZZLING, l, LATER, [s, t, l]);
    PuzzledLocally(st, s, t, l);
    CrowdIsSettled(s, t, l, Posture1(st, i).mode, LATER);
    Uncontested(st, i);
    AbandonedWeightReturns(s, t, l, Paths1(st, i), Posture1(st, i).mode);
  }

  /** The run has come to this memory, after s was blocked. */
  ghost predicate ComesTo(c: StrategicContext, steps: seq<Step>, own: StrategicContext, sound: bool, ts: Trajectories,
                          s: string, order: seq<string>)
  {
    && Walks(c, steps, own, sound)
    && var st := Run(c, steps).value.loop.live;
       st.trajectories == ts && Steady(st, s) && Peopled(st, order)
  }

  lemma NineSuccesses(ts: Trajectories)
    requires RoomFor(ts, 0.5)
    ensures Successes(9) == 0.5 && RoomFor(ts, Successes(9))
  {
  }

  /** Nine successes make a half. */
  lemma GrowHalf(c: StrategicContext, before: seq<Step>, own: StrategicContext, sound: bool, ts: Trajectories,
                 s: string, order: seq<string>) returns (steps: seq<Step>)
    requires ComesTo(c, before, own, sound, ts, s, order) && own.domain !in order && own.domain != s && RoomFor(ts, 0.5)
    requires sound ==> own.domain != ""
    ensures ComesTo(c, steps, own, sound, ts[own.domain := At(own.domain, Active, 0.5)], s, order + [own.domain])
  {
    NineSuccesses(ts);
    var states := Grow(Run(c, before).value.loop.live, s, own.domain, order, sound, 9);
    steps := RepeatOn(c, before, own, sound, Ticks(DONE, own.domain, 0, order + [own.domain]), states);
  }

  lemma ComesOver(c: StrategicContext, before: seq<Step>, own: StrategicContext, d: StrategicContext, sound: bool,
                  ts: Trajectories, s: string, order: seq<string>) returns (steps: seq<Step>)
    requires ComesTo(c, before, own, true, ts, s, order) && StoreKey(d) == StoreKey(own)
    ensures ComesTo(c, steps, d, sound, ts, s, order)
  {
    steps := TakeOver(c, before, own, d);
  }

  lemma HalfRun(c: StrategicContext, s: StrategicContext, t: StrategicContext) returns (steps: seq<Step>)
    requires StoreKey(s) == StoreKey(t) == StoreKey(c) && s.domain != "" && t.domain != "" && s.domain != t.domain
    ensures ComesTo(c, steps, t, true, Half(s.domain, t.domain), s.domain, [s.domain] + [t.domain])
  {
    HalfHasRoom(s.domain, t.domain);
    steps := BlockedRun(c, s);
    steps := ComesOver(c, steps, s, t, true, Given(s.domain), s.domain, [s.domain]);
    steps := GrowHalf(c, steps, t, true, Given(s.domain), s.domain, [s.domain]);
  }

  lemma CrowdRun(c: StrategicContext, before: seq<Step>, t: StrategicContext, l: StrategicContext, ts: Trajectories,
                 s: string, order: seq<string>) returns (steps: seq<Step>)
    requires ComesTo(c, before, t, true, ts, s, order) && StoreKey(t) == StoreKey(l) && RoomFor(ts, 0.5)
    requires l.domain !in order && l.domain != s
    ensures ComesTo(c, steps, l, false, ts[l.domain := At(l.domain, Active, 0.5)], s, order + [l.domain])
  {
    steps := ComesOver(c, before, t, l, false, ts, s, order);
    steps := GrowHalf(c, steps, l, false, ts, s, order);
  }

  lemma CrowdAtFirst(s: string, t: string, l: string)
    ensures Crowd(s, t, l, 0) == Half(s, t)[l := At(l, Active, 0.5)] && [s] + [t] + [l] == [s, t, l]
  {
  }

  lemma LastTick(c: StrategicContext, steps: seq<Step>, l: StrategicContext, s: string, t: string) returns (tick: Tick)
    requires s != t && t != l.domain && s != l.domain
    requires ComesTo(c, steps, l, false, Half(s, t)[l.domain := At(l.domain, Active, 0.5)], s, [s] + [t] + [l.domain])
    ensures Overcommits(c, steps, tick)
    ensures LiveTotal(Next(Run(c, steps).value.loop.live, tick.input).trajectories) == 1.04
  {
    var loop, i := Run(c, steps).value.loop, Ticks(PUZZLING, l.domain, LATER, [s, t, l.domain]);
    CrowdAtFirst(s, t, l.domain);
    CrowdOvercommits(loop.live, s, t, l.domain);
    TickIsPossible(loop, i);
    tick := TickFor(loop, i);
  }

  /** An input: three contexts with one key. The first is blocked and gives up 0.05; the others grow to a half each;
      and a minute later a tick of the last brings what was given up back into one of them. */
  lemma ThreeOvercommit(c: StrategicContext, s: StrategicContext, t: StrategicContext, l: StrategicContext)
    returns (steps: seq<Step>, tick: Tick)
    requires StoreKey(s) == StoreKey(t) == StoreKey(l) == StoreKey(c) && s.domain != "" && t.domain != ""
    requires s.domain != t.domain && t.domain != l.domain && s.domain != l.domain
    ensures Overcommits(c, steps, tick) && NoneFormed(steps)
    ensures LiveTotal(Next(Run(c, steps).value.loop.live, tick.input).trajectories) == 1.04
  {
    steps := HalfRun(c, s, t);
    HalfHasRoom(s.domain, t.domain);
    steps := CrowdRun(c, steps, t, l, Half(s.domain, t.domain), s.domain, [s.domain] + [t.domain]);
    tick := LastTick(c, steps, l, s.domain, t.domain);
  }

  /** A tick can leave a context more than 1 committed, in a run from nothing stored, exactly when two other domains
      share its key. */
  lemma CanOvercommitIff(c: StrategicContext)
    ensures CanOvercommit(c) <==> exists d, e :: TwoOthers(c, d, e)
  {
    if CanOvercommit(c) {
      var steps, t :| Overcommits(c, steps, t);
      var d, e := OvercommittingTakesTwoOthers(c, steps, t);
    }
    if d, e :| TwoOthers(c, d, e) {
      var steps, t;
      if c.domain == "" {
        steps, t := ThreeOvercommit(c, d, e, c);
      } else if d.domain == "" {
        steps, t := ThreeOvercommit(c, c, e, d);
      } else {
        steps, t := ThreeOvercommit(c, c, d, e);
      }
    }
  }
}
