/** Step 2 of the life loop: a feedback tick changes the strategic state and records events about the change.
    How much of the change do the events carry?
 */
module LifeLoop {
  import opened Base
  import opened Strategy
  import opened ExecutionResults
  import opened Feedback
  import opened Replay
  import Competition
  import opened Contexts
  import Rebinding

  datatype State = State(posture: Posture, paths: Paths, trajectories: Trajectories)

  /** What a tick is told. `order` and `pathOrder` are the dictionaries' iteration orders. */
  datatype Input = Input(
    result: ExecutionResult, domain: string, action: string, now: Time,
    order: seq<string>, pathOrder: seq<PathKey>)

  function Key(i: Input): PathKey {
    [i.domain, i.action]
  }

  // ---------------------------------------------------------------- the stages of a tick

  function Posture1(st: State, i: Input): Posture {
    AdaptPosture(st.posture, Interpret(i.result))
  }

  function Paths1(st: State, i: Input): Paths {
    AdaptPaths(st.paths, Key(i), Interpret(i.result), i.now)
  }

  function Local(st: State, i: Input): Trajectories {
    UpdateLocal(st.trajectories, Interpret(i.result), i.domain, i.now)
  }

  ghost predicate Ready(st: State, i: Input) {
    && WellKeyed(st.trajectories)
    && Enumerates(i.order, Local(st, i).Keys)
    && Enumerates(i.pathOrder, Paths1(st, i).Keys)
  }

  /** After the local update and the competition, before reflection. */
  function Trajectories1(st: State, i: Input): (ts: Trajectories)
    requires Ready(st, i)
    ensures WellKeyed(ts) && ts.Keys == Local(st, i).Keys
  {
    Competition.AllocationSafe(Local(st, i), i.order, Posture1(st, i).mode, Some(Interpret(i.result).outcome), i.now);
    UpdateTrajectories(st.trajectories, i.order, Interpret(i.result), i.domain, Posture1(st, i).mode, i.now)
  }

  function Reflections(st: State, i: Input): seq<Rebinding.StrategicReflection>
    requires Ready(st, i)
  {
    Rebinding.Reflect(Trajectories1(st, i), i.order, Paths1(st, i), Posture1(st, i).mode, i.now)
  }

  function Rebound(st: State, i: Input): Rebinding.Progress
    requires Ready(st, i)
  {
    Rebinding.Rebind(Trajectories1(st, i), i.order, Reflections(st, i), Posture1(st, i).mode, i.now)
  }

  function Posture2(st: State, i: Input): Posture
    requires Ready(st, i)
  {
    EvaluateHorizon(Posture1(st, i), Paths1(st, i), i.pathOrder, i.now)
  }

  function Next(st: State, i: Input): State
    requires Ready(st, i)
  {
    State(Posture2(st, i), Paths1(st, i), Rebound(st, i).trajectories)
  }

  // ---------------------------------------------------------------- the events of a tick

  /** An event without its id and time stamp. */
  datatype Payload = Payload(eventType: EventType, details: Details)

  function AdaptationEvents(st: State, i: Input): seq<Payload> {
    if Posture1(st, i) == st.posture then []
    else [Payload(StrategyAdaptation, NO_DETAILS.(postureAfter := Present(Posture1(st, i))))]
  }

  function PathEvents(st: State, i: Input): seq<Payload> {
    var after := GetStatus(Paths1(st, i), Key(i));
    if GetStatus(st.paths, Key(i)) == after then []
    else [Payload(PathAbandonment, NO_DETAILS.(pathKey := Present(Key(i)), pathStatusAfter := Present(after)))]
  }

  predicate Changed(before: Trajectories, after: Trajectories, k: string)
    requires k in after
  {
    k !in before || before[k] != after[k]
  }

  function UpdateOf(before: Trajectories, after: Trajectories, k: string): seq<Payload>
    requires k in after
  {
    if Changed(before, after, k)
    then [Payload(TrajectoryUpdate, NO_DETAILS.(trajectoryId := Present(k), trajectoryAfter := Present(after[k])))]
    else []
  }

  function UpdateEvents(before: Trajectories, after: Trajectories, order: seq<string>): seq<Payload>
    requires forall k :: k in order ==> k in after
  {
    if order == [] then []
    else
      var n := |order| - 1;
      UpdateEvents(before, after, order[..n]) + UpdateOf(before, after, order[n])
  }

  function ReflectionEvents(rs: seq<Rebinding.StrategicReflection>): seq<Payload> {
    if rs == [] then [] else ReflectionEvents(rs[..|rs| - 1]) + [Payload(Reflection, NO_DETAILS.(hasOther := true))]
  }

  /** Both ends are reported with the value they have when rebinding is over. */
  function RebindingPayload(rb: Rebinding.TrajectoryRebinding, final: Trajectories): Payload
    requires rb.sourceId in final && rb.targetId in final
  {
    Payload(EventType.Rebinding, NO_DETAILS.(sourceAfter := Present(final[rb.sourceId]),
                                             targetAfter := Present(final[rb.targetId])))
  }

  function RebindingEvents(rbs: seq<Rebinding.TrajectoryRebinding>, final: Trajectories): seq<Payload>
    requires forall j :: 0 <= j < |rbs| ==> rbs[j].sourceId in final && rbs[j].targetId in final
  {
    if rbs == [] then []
    else
      RebindingEvents(rbs[..|rbs| - 1], final) + [RebindingPayload(rbs[|rbs| - 1], final)]
  }

  function HorizonEvents(st: State, i: Input): seq<Payload>
    requires Ready(st, i)
  {
    if Posture2(st, i).mode == Posture1(st, i).mode then []
    else [Payload(HorizonShift, NO_DETAILS.(postureAfter := Present(Posture2(st, i))))]
  }

  ghost predicate EndsKnown(rbs: seq<Rebinding.TrajectoryRebinding>, ts: Trajectories) {
    forall j :: 0 <= j < |rbs| ==> rbs[j].sourceId in ts && rbs[j].targetId in ts
  }

  lemma {:induction false} ReportedEnds(rbs: seq<Rebinding.TrajectoryRebinding>, ts: Trajectories)
    requires forall k :: k in Rebinding.ReportedIds(rbs) ==> k in ts
    ensures EndsKnown(rbs, ts)
    decreases |rbs|
  {
    if rbs != [] {
      ReportedEnds(rbs[..|rbs| - 1], ts);
    }
  }

  /** What rebinding did, in the terms of the rebinding module. */
  lemma ReboundTraced(st: State, i: Input)
    requires Ready(st, i)
    ensures
      var ts, p := Trajectories1(st, i), Rebound(st, i);
      && p.trajectories.Keys == ts.Keys && WellKeyed(p.trajectories)
      && Rebinding.Traced(ts, p, Silent(st, i), i.now)
      && (forall k :: k in Rebinding.ReportedIds(p.rebindings) ==> k in ts)
      && (forall k :: k in Silent(st, i) ==> Rebinding.Reflects(ts[k], i.now))
      && EndsKnown(p.rebindings, p.trajectories)
  {
    var ts, rs, mode := Trajectories1(st, i), Reflections(st, i), Posture1(st, i).mode;
    var target := Rebinding.HeaviestActive(ts, i.order);
    Rebinding.ReflectReflects(ts, i.order, Paths1(st, i), mode, i.now);
    Rebinding.RebindAllTraced(ts, target, rs, mode, i.now);
    forall k | k in Silent(st, i) ensures Rebinding.Reflects(ts[k], i.now) {
      Rebinding.IdsOfContents(rs, k);
    }
    ReportedEnds(Rebound(st, i).rebindings, Rebound(st, i).trajectories);
  }

  /** The trajectories that rebinding rewrites without an event: retried or abandoned ones. */
  function Silent(st: State, i: Input): set<string>
    requires Ready(st, i)
  {
    Rebinding.SilentIds(Trajectories1(st, i), Rebinding.HeaviestActive(Trajectories1(st, i), i.order),
                        Reflections(st, i), Posture1(st, i).mode)
  }

  function ReboundEvents(st: State, i: Input): seq<Payload>
    requires Ready(st, i)
  {
    ReboundTraced(st, i);
    RebindingEvents(Rebound(st, i).rebindings, Rebound(st, i).trajectories)
  }

  function LateEvents(st: State, i: Input): seq<Payload>
    requires Ready(st, i)
  {
    ReboundEvents(st, i) + HorizonEvents(st, i)
  }

  function TrajectoryEvents(st: State, i: Input): seq<Payload>
    requires Ready(st, i)
  {
    UpdateEvents(st.trajectories, Trajectories1(st, i), i.order)
  }

  function MiddleEvents(st: State, i: Input): seq<Payload>
    requires Ready(st, i)
  {
    TrajectoryEvents(st, i) + (ReflectionEvents(Reflections(st, i)) + LateEvents(st, i))
  }

  /** Everything a tick records, in order. */
  function Emitted(st: State, i: Input): seq<Payload>
    requires Ready(st, i)
  {
    AdaptationEvents(st, i) + (PathEvents(st, i) + MiddleEvents(st, i))
  }

  lemma EmittedInOrder(st: State, i: Input)
    requires Ready(st, i)
    ensures Emitted(st, i) == AdaptationEvents(st, i) + PathEvents(st, i) + TrajectoryEvents(st, i)
                              + ReflectionEvents(Reflections(st, i)) + ReboundEvents(st, i) + HorizonEvents(st, i)
  {
    Reassociate(AdaptationEvents(st, i), PathEvents(st, i), TrajectoryEvents(st, i),
                ReflectionEvents(Reflections(st, i)), ReboundEvents(st, i), HorizonEvents(st, i));
  }

  lemma Reassociate<T>(a: seq<T>, b: seq<T>, c: seq<T>, d: seq<T>, e: seq<T>, f: seq<T>)
    ensures a + (b + (c + (d + (e + f)))) == a + b + c + d + e + f
  {
  }

  /** The events are these payloads, whatever ids they were given. */
  ghost predicate Records(events: seq<StrategicEvent>, payloads: seq<Payload>) {
    && |events| == |payloads|
    && forall j :: 0 <= j < |events| ==>
           events[j].eventType == payloads[j].eventType && events[j].details == payloads[j].details
  }

  // ---------------------------------------------------------------- folding the events back

  function StateOf(b: Bundle): State {
    State(b.posture, b.paths, b.trajectories)
  }

  predicate Holds(b: Bundle, st: State) {
    b.posture == st.posture && b.paths == st.paths && b.trajectories == st.trajectories
  }

  lemma SplitRecords(events: seq<StrategicEvent>, a: seq<Payload>, c: seq<Payload>)
    requires Records(events, a + c)
    ensures Records(events[..|a|], a) && Records(events[|a|..], c)
    ensures events == events[..|a|] + events[|a|..]
  {
    assert forall j :: 0 <= j < |a| ==> (a + c)[j] == a[j];
    assert forall j :: 0 <= j < |c| ==> (a + c)[|a| + j] == c[j];
  }

  lemma FoldOptional(b: Bundle, events: seq<StrategicEvent>, payloads: seq<Payload>)
    requires Records(events, payloads) && |payloads| <= 1
    ensures payloads == [] ==> Fold(b, events) == Ok(b)
    ensures payloads != [] ==> Fold(b, events) == ReplayOne(b, events[0])
  {
    if payloads != [] {
      assert events[..0] == [];
    }
  }

  /** Only the trajectories named in `done` have moved, to their new values. */
  ghost predicate MovedTo(b: Bundle, r: Bundle, after: Trajectories, done: set<string>) {
    && r.posture == b.posture && r.paths == b.paths
    && r.trajectories.Keys == b.trajectories.Keys + done
    && done <= after.Keys
    && (forall k :: k in done ==> r.trajectories[k] == after[k])
    && (forall k :: k in b.trajectories && k !in done ==> r.trajectories[k] == b.trajectories[k])
  }

  lemma LastInOrder(order: seq<string>)
    requires order != [] && NoDuplicates(order)
    ensures
      var front, k := order[..|order| - 1], order[|order| - 1];
      && NoDuplicates(front) && k !in front && (forall x :: x in front ==> x in order)
      && (set x | x in order) == (set x | x in front) + {k}
  {
    assert order == order[..|order| - 1] + [order[|order| - 1]];
  }

  lemma {:induction false} FoldUpdates(b: Bundle, after: Trajectories, order: seq<string>, events: seq<StrategicEvent>)
    requires (forall k :: k in order ==> k in after) && NoDuplicates(order)
    requires Records(events, UpdateEvents(b.trajectories, after, order))
    ensures Fold(b, events).Ok? <==> !("" in order && Changed(b.trajectories, after, ""))
    ensures Fold(b, events).Ok? ==> MovedTo(b, Fold(b, events).value, after, set k | k in order)
    decreases |order|
  {
    if order == [] {
      assert events == [];
    } else {
      var front, k := order[..|order| - 1], order[|order| - 1];
      LastInOrder(order);
      var before := UpdateEvents(b.trajectories, after, front);
      SplitRecords(events, before, UpdateOf(b.trajectories, after, k));
      FoldUpdates(b, after, front, events[..|before|]);
      FoldFrontAndLast(b, after, (set x | x in front), k, events, |before|);
    }
  }

  lemma FoldFrontAndLast(b: Bundle, after: Trajectories, done: set<string>, k: string, events: seq<StrategicEvent>,
                         m: nat)
    requires m <= |events| && k in after && k !in done
    requires Fold(b, events[..m]).Ok? ==> MovedTo(b, Fold(b, events[..m]).value, after, done)
    requires Records(events[m..], UpdateOf(b.trajectories, after, k))
    ensures Fold(b, events).Ok? <==> Fold(b, events[..m]).Ok? && !(k == "" && Changed(b.trajectories, after, k))
    ensures Fold(b, events).Ok? ==> MovedTo(b, Fold(b, events).value, after, done + {k})
  {
    assert events == events[..m] + events[m..];
    FoldConcat(b, events[..m], events[m..]);
    if Fold(b, events[..m]).Ok? {
      FoldLastUpdate(b, Fold(b, events[..m]).value, after, done, k, events[m..]);
    }
  }

  lemma FoldLastUpdate(b: Bundle, mid: Bundle, after: Trajectories, done: set<string>, k: string,
                       events: seq<StrategicEvent>)
    requires MovedTo(b, mid, after, done) && k in after && k !in done
    requires Records(events, UpdateOf(b.trajectories, after, k))
    ensures Fold(mid, events).Ok? <==> !(k == "" && Changed(b.trajectories, after, k))
    ensures Fold(mid, events).Ok? ==> MovedTo(b, Fold(mid, events).value, after, done + {k})
  {
    FoldOptional(mid, events, UpdateOf(b.trajectories, after, k));
    OneUpdate(b, mid, after, done, k, events);
  }

  lemma OneUpdate(b: Bundle, mid: Bundle, after: Trajectories, done: set<string>, k: string,
                  events: seq<StrategicEvent>)
    requires MovedTo(b, mid, after, done) && k in after && k !in done
    requires |events| <= 1 && (events == [] <==> !Changed(b.trajectories, after, k))
    requires events != [] ==> events[0].eventType == TrajectoryUpdate
    requires events != [] ==>
               events[0].details == NO_DETAILS.(trajectoryId := Present(k), trajectoryAfter := Present(after[k]))
    ensures events != [] && k != "" ==>
              ReplayOne(mid, events[0]).Ok? && MovedTo(b, ReplayOne(mid, events[0]).value, after, done + {k})
    ensures events != [] && k == "" ==> ReplayOne(mid, events[0]).Err?
    ensures events == [] ==> MovedTo(b, mid, after, done + {k})
  {
  }

  lemma {:induction false} FoldReflections(b: Bundle, rs: seq<Rebinding.StrategicReflection>,
                                           events: seq<StrategicEvent>)
    requires Records(events, ReflectionEvents(rs))
    ensures Fold(b, events).Ok? && Fold(b, events).value == b.(lastEventId := Fold(b, events).value.lastEventId)
    decreases |rs|
  {
    if rs == [] {
      assert events == [];
    } else {
      var before := ReflectionEvents(rs[..|rs| - 1]);
      SplitRecords(events, before, ReflectionEvents(rs)[|before|..]);
      FoldReflections(b, rs[..|rs| - 1], events[..|before|]);
    }
  }

  /** Only the reported ends have moved, to their final values. */
  ghost predicate ReboundTo(b: Bundle, r: Bundle, final: Trajectories, reported: set<string>) {
    && r.posture == b.posture && r.paths == b.paths && r.trajectories.Keys == final.Keys == b.trajectories.Keys
    && forall k :: k in final ==> r.trajectories[k] == if k in reported then final[k] else b.trajectories[k]
  }

  lemma OneRebinding(b: Bundle, mid: Bundle, final: Trajectories, reported: set<string>,
                     rb: Rebinding.TrajectoryRebinding, e: StrategicEvent)
    requires ReboundTo(b, mid, final, reported) && WellKeyed(final) && rb.sourceId in final && rb.targetId in final
    requires Payload(e.eventType, e.details) == RebindingPayload(rb, final)
    ensures ReplayOne(mid, e).Ok? && ReboundTo(b, ReplayOne(mid, e).value, final, reported + {rb.sourceId, rb.targetId})
  {
  }

  lemma {:induction false} FoldRebindings(b: Bundle, rbs: seq<Rebinding.TrajectoryRebinding>, final: Trajectories,
                                          events: seq<StrategicEvent>)
    requires EndsKnown(rbs, final) && WellKeyed(final)
    requires b.trajectories.Keys == final.Keys
    requires Records(events, RebindingEvents(rbs, final))
    ensures Fold(b, events).Ok? && ReboundTo(b, Fold(b, events).value, final, Rebinding.ReportedIds(rbs))
    decreases |rbs|
  {
    if rbs == [] {
      assert events == [];
    } else {
      var n, m := |rbs| - 1, |events| - 1;
      SplitRecords(events, RebindingEvents(rbs[..n], final), [RebindingPayload(rbs[n], final)]);
      FoldRebindings(b, rbs[..n], final, events[..m]);
      OneRebinding(b, Fold(b, events[..m]).value, final, Rebinding.ReportedIds(rbs[..n]), rbs[n], events[m]);
    }
  }

  // ---------------------------------------------------------------- fidelity

  /** The bundle that replaying the events of one tick over the state before it produces. */
  ghost predicate ReplaysTo(r: Bundle, st: State, i: Input)
    requires Ready(st, i)
  {
    var live, before := Next(st, i), Trajectories1(st, i);
    && r.posture == live.posture
    && r.paths == live.paths
    && r.trajectories.Keys == live.trajectories.Keys == before.Keys
    && (forall k :: k in live.trajectories ==> (r.trajectories[k] == live.trajectories[k] <==> k !in Silent(st, i)))
    && (forall k :: k in live.trajectories && k in Silent(st, i) ==> r.trajectories[k] == before[k])
  }

  /** An empty trajectory id is the one thing the reducer refuses. */
  predicate Nameless(st: State, i: Input)
    requires Ready(st, i)
  {
    "" in Trajectories1(st, i) && Changed(st.trajectories, Trajectories1(st, i), "")
  }

  lemma PathsFollow(st: State, i: Input)
    ensures PathEvents(st, i) == [] ==> Paths1(st, i) == st.paths
  {
    if PathEvents(st, i) == [] {
      assert Key(i) in st.paths;
      assert st.paths[Key(i) := st.paths[Key(i)]] == st.paths;
    }
  }

  /** Take one segment of the events off the front. */
  lemma FoldSegment(b: Bundle, events: seq<StrategicEvent>, a: seq<Payload>, rest: seq<Payload>)
    requires Records(events, a + rest)
    ensures Records(events[..|a|], a) && Records(events[|a|..], rest)
    ensures Fold(b, events) == (match Fold(b, events[..|a|]) case Err => Err case Ok(mid) => Fold(mid, events[|a|..]))
  {
    SplitRecords(events, a, rest);
    FoldConcat(b, events[..|a|], events[|a|..]);
  }

  lemma LateFidelity(st: State, i: Input, b: Bundle, events: seq<StrategicEvent>)
    requires Ready(st, i) && Records(events, LateEvents(st, i))
    requires Holds(b, State(Posture1(st, i), Paths1(st, i), Trajectories1(st, i)))
    ensures Fold(b, events).Ok? && ReplaysTo(Fold(b, events).value, st, i)
  {
    ReboundTraced(st, i);
    var p := Rebound(st, i);
    var rebinding := RebindingEvents(p.rebindings, p.trajectories);
    FoldSegment(b, events, rebinding, HorizonEvents(st, i));
    FoldRebindings(b, p.rebindings, p.trajectories, events[..|rebinding|]);
    AfterHorizon(st, i, Fold(b, events[..|rebinding|]).value, events[|rebinding|..]);
  }

  lemma AfterUpdates(st: State, i: Input, b: Bundle, events: seq<StrategicEvent>)
    requires Ready(st, i) && Records(events, TrajectoryEvents(st, i))
    requires Holds(b, State(Posture1(st, i), Paths1(st, i), st.trajectories))
    ensures Fold(b, events).Ok? <==> !Nameless(st, i)
    ensures Fold(b, events).Ok? ==>
              Holds(Fold(b, events).value, State(Posture1(st, i), Paths1(st, i), Trajectories1(st, i)))
  {
    var after := Trajectories1(st, i);
    FoldUpdates(b, after, i.order, events);
    LocalKeepsKeys(st, i);
    if Fold(b, events).Ok? {
      var r := Fold(b, events).value;
      assert (set k | k in i.order) == after.Keys;
      assert r.trajectories.Keys == after.Keys;
      assert r.trajectories == after;
    }
  }

  lemma AfterReflections(b: Bundle, rs: seq<Rebinding.StrategicReflection>, late: seq<Payload>,
                         events: seq<StrategicEvent>) returns (r: Bundle, rest: seq<StrategicEvent>)
    requires Records(events, ReflectionEvents(rs) + late)
    ensures r == b.(lastEventId := r.lastEventId) && Records(rest, late) && Fold(b, events) == Fold(r, rest)
  {
    var n := |ReflectionEvents(rs)|;
    FoldSegment(b, events, ReflectionEvents(rs), late);
    FoldReflections(b, rs, events[..n]);
    r, rest := Fold(b, events[..n]).value, events[n..];
  }

  lemma MiddleFidelity(st: State, i: Input, b: Bundle, events: seq<StrategicEvent>)
    requires Ready(st, i) && Records(events, MiddleEvents(st, i))
    requires Holds(b, State(Posture1(st, i), Paths1(st, i), st.trajectories))
    ensures Fold(b, events).Ok? <==> !Nameless(st, i)
    ensures Fold(b, events).Ok? ==> ReplaysTo(Fold(b, events).value, st, i)
  {
    var n := |TrajectoryEvents(st, i)|;
    FoldSegment(b, events, TrajectoryEvents(st, i), ReflectionEvents(Reflections(st, i)) + LateEvents(st, i));
    AfterUpdates(st, i, b, events[..n]);
    if Fold(b, events[..n]).Ok? {
      var mid, rest := AfterReflections(Fold(b, events[..n]).value, Reflections(st, i), LateEvents(st, i), events[n..]);
      LateFidelity(st, i, mid, rest);
    }
  }

  /** Folding the events that one feedback tick emits over the state before it gives the live state after it:
      posture and path memory exactly, and every trajectory except those rewritten without an event, which
      keep the value they had before rebinding and therefore always differ. */
  lemma EmissionFidelity(st: State, i: Input, b: Bundle, events: seq<StrategicEvent>)
    requires Ready(st, i) && Holds(b, st) && Records(events, Emitted(st, i))
    ensures Fold(b, events).Ok? <==> !Nameless(st, i)
    ensures Fold(b, events).Ok? ==> ReplaysTo(Fold(b, events).value, st, i)
  {
    var m, n := |AdaptationEvents(st, i)|, |PathEvents(st, i)|;
    FoldSegment(b, events, AdaptationEvents(st, i), PathEvents(st, i) + MiddleEvents(st, i));
    var b1 := AfterAdaptation(st, i, b, events[..m]);
    var rest := events[m..];
    FoldSegment(b1, rest, PathEvents(st, i), MiddleEvents(st, i));
    var b2 := AfterPath(st, i, b1, rest[..n]);
    MiddleFidelity(st, i, b2, rest[n..]);
  }

  lemma LocalKeepsKeys(st: State, i: Input)
    ensures st.trajectories.Keys <= Local(st, i).Keys
  {
  }

  lemma AfterAdaptation(st: State, i: Input, b: Bundle, events: seq<StrategicEvent>) returns (r: Bundle)
    requires Holds(b, st) && Records(events, AdaptationEvents(st, i))
    ensures Fold(b, events) == Ok(r)
    ensures Holds(r, st.(posture := Posture1(st, i)))
  {
    FoldOptional(b, events, AdaptationEvents(st, i));
    r := Fold(b, events).value;
  }

  lemma AfterPath(st: State, i: Input, b: Bundle, events: seq<StrategicEvent>) returns (r: Bundle)
    requires Holds(b, st.(posture := Posture1(st, i))) && Records(events, PathEvents(st, i))
    ensures Fold(b, events) == Ok(r)
    ensures Holds(r, State(Posture1(st, i), Paths1(st, i), st.trajectories))
  {
    FoldOptional(b, events, PathEvents(st, i));
    PathsFollow(st, i);
    r := Fold(b, events).value;
  }

  lemma AfterHorizon(st: State, i: Input, b: Bundle, events: seq<StrategicEvent>)
    requires Ready(st, i) && Records(events, HorizonEvents(st, i)) && b.posture == Posture1(st, i)
    ensures Fold(b, events).Ok? && Fold(b, events).value.posture == Posture2(st, i)
    ensures Fold(b, events).value.paths == b.paths && Fold(b, events).value.trajectories == b.trajectories
  {
    FoldOptional(b, events, HorizonEvents(st, i));
  }

  // ---------------------------------------------------------------- a context's own trajectory

  /** The update stamps the context's own trajectory, so it is too young to be reflected on. */
  lemma OwnIsFresh(st: State, i: Input)
    requires Ready(st, i) && i.domain in Trajectories1(st, i)
    ensures Trajectories1(st, i)[i.domain].lastUpdated == i.now
  {
    Competition.AllocationSafe(Local(st, i), i.order, Posture1(st, i).mode, Some(Interpret(i.result).outcome), i.now);
    assert Competition.NoGain(Local(st, i)[i.domain], Trajectories1(st, i)[i.domain], i.now);
  }

  /** Only trajectories other than the context's own are rewritten silently, and they were there before. */
  lemma SilentAreForeign(st: State, i: Input, k: string)
    requires Ready(st, i) && k in Silent(st, i)
    ensures k != i.domain && k in st.trajectories
  {
    ReboundTraced(st, i);
    assert Rebinding.Reflects(Trajectories1(st, i)[k], i.now);
    if k == i.domain {
      OwnIsFresh(st, i);
    }
  }

  ghost predicate OwnOnly(st: State, domain: string) {
    st.trajectories.Keys <= {domain}
  }

  lemma {:induction false} NothingReflects(ts: Trajectories, order: seq<string>, paths: Paths, mode: Mode, now: Time)
    requires forall k :: k in order ==> k in ts && !Rebinding.Reflects(ts[k], now)
    ensures Rebinding.Reflect(ts, order, paths, mode, now) == []
    decreases |order|
  {
    if order != [] {
      NothingReflects(ts, order[..|order| - 1], paths, mode, now);
    }
  }

  /** In a memory of its own trajectory only, a context's tick reflects on nothing, so rebinding leaves everything as
      the competition left it. */
  lemma OwnTick(st: State, i: Input)
    requires Ready(st, i) && OwnOnly(st, i.domain)
    ensures OwnOnly(Next(st, i), i.domain) && Reflections(st, i) == [] && Silent(st, i) == {}
    ensures Next(st, i).trajectories == Trajectories1(st, i)
    ensures Nameless(st, i) ==> i.domain == ""
  {
    if i.domain in Trajectories1(st, i) {
      OwnIsFresh(st, i);
    }
    NothingReflects(Trajectories1(st, i), i.order, Paths1(st, i), Posture1(st, i).mode, i.now);
  }

  // ---------------------------------------------------------------- runs of ticks

  /** A context's loop: its live state, and the ledger and the snapshot that are stored under its key. */
  datatype Loop = Loop(context: StrategicContext, live: State, ledger: seq<StrategicEvent>, snapshot: Option<Bundle>)

  const COMMITMENT_FORMED: EventType := Disallowed("COMMITMENT_FORMED")

  predicate Commits(e: StrategicEvent) {
    e.eventType == COMMITMENT_FORMED
  }

  /** A tick with feedback. */
  datatype Tick = Tick(input: Input, events: seq<StrategicEvent>, save: bool)

  const BLANK: State := State(DEFAULT_POSTURE, map[], map[])

  function Cold(c: StrategicContext): Loop {
    Loop(c, BLANK, [], None)
  }

  function LastId(events: seq<StrategicEvent>): Option<Id> {
    if events == [] then None else Some(events[|events| - 1].id)
  }

  /** `_persist_state`: only an event of this very tick can lend the snapshot its id. */
  function SnapshotOf(st: State, events: seq<StrategicEvent>): Bundle {
    Bundle(st.posture, st.paths, st.trajectories, None, LastId(events), "1.1")
  }

  /** A loop is ticked with its own context only, which gives trajectory and path their names. */
  ghost predicate CanTick(l: Loop, t: Tick) {
    && t.input.domain == l.context.domain
    && Ready(l.live, t.input) && Records(t.events, Emitted(l.live, t.input)) && DistinctIds(l.ledger + t.events)
  }

  ghost function DoTick(l: Loop, t: Tick): Loop
    requires CanTick(l, t)
  {
    var live := Next(l.live, t.input);
    Loop(l.context, live, l.ledger + t.events, if t.save then Some(SnapshotOf(live, t.events)) else l.snapshot)
  }

  // ---------------------------------------------------------------- the loop itself

  lemma RecordsAppend(events: seq<StrategicEvent>, payloads: seq<Payload>, e: StrategicEvent)
    requires Records(events, payloads)
    ensures Records(events + [e], payloads + [Payload(e.eventType, e.details)])
  {
  }

  lemma PrefixOfPrefix(a: seq<StrategicEvent>, b: seq<StrategicEvent>, c: seq<StrategicEvent>)
    requires |a| <= |b| <= |c| && b[..|a|] == a && c[..|b|] == b
    ensures c[..|a|] == a
  {
    assert c[..|b|][..|a|] == c[..|a|];
  }

  class Runtime {
    const context: StrategicContext
    var posture: Posture
    var paths: Paths
    var trajectories: Trajectories
    var ledger: seq<StrategicEvent>
    var snapshot: Option<Bundle>
    var nextId: Id

    constructor (context: StrategicContext)
      ensures Valid() && this.context == context && Live() == BLANK && ledger == [] && snapshot == None
    {
      this.context := context;
      posture, paths, trajectories := DEFAULT_POSTURE, map[], map[];
      ledger, snapshot, nextId := [], None, 0;
    }

    ghost function Live(): State
      reads this
    {
      State(posture, paths, trajectories)
    }

    /** Event ids are never used twice. */
    ghost predicate Valid()
      reads this
    {
      DistinctIds(ledger) && forall e :: e in ledger ==> e.id < nextId
    }

    method EmitEvent(eventType: EventType, details: Details, now: Time, ghost since: nat, ghost payloads: seq<Payload>)
      requires Valid() && since <= |ledger| && Records(ledger[since..], payloads)
      modifies this`ledger, this`nextId
      ensures Valid() && |ledger| == |old(ledger)| + 1 && ledger[..|old(ledger)|] == old(ledger)
      ensures since <= |ledger| && Records(ledger[since..], payloads + [Payload(eventType, details)])
    {
      var e := StrategicEvent(nextId, now, eventType, details);
      RecordsAppend(ledger[since..], payloads, e);
      assert (ledger + [e])[since..] == ledger[since..] + [e];
      ledger, nextId := ledger + [e], nextId + 1;
    }

    /** The persistence check of a tick without feedback: no event of this tick can lend the snapshot its id. */
    method IdleTick(save: bool)
      modifies this`snapshot
      ensures snapshot == if save then Some(SnapshotOf(Live(), [])) else old(snapshot)
    {
      if save {
        snapshot := Some(SnapshotOf(State(posture, paths, trajectories), []));
      }
    }

    /** A tick that goes on to form a commitment records that too, under a type that replay does not allow. */
    method RecordCommitment(now: Time)
      requires Valid()
      modifies this`ledger, this`nextId
      ensures Valid() && |ledger| == |old(ledger)| + 1 && ledger[..|old(ledger)|] == old(ledger)
      ensures Commits(ledger[|old(ledger)|])
    {
      EmitEvent(COMMITMENT_FORMED, NO_DETAILS.(hasOther := true), now, |ledger|, []);
    }

    /** `restore`; not ok means that replay raised, before anything was changed. */
    method RestoreState() returns (ok: bool)
      modifies this`posture, this`paths, this`trajectories
      ensures ok == Restore(snapshot, ledger).Ok?
      ensures Live() == if ok then StateOf(Restore(snapshot, ledger).value) else old(Live())
    {
      var r := Restore(snapshot, ledger);
      ok := r.Ok?;
      if ok {
        posture, paths, trajectories := r.value.posture, r.value.paths, r.value.trajectories;
      }
    }

    /** Step 2 of `tick` with feedback, and the persistence check after it. */
    method FeedbackTick(i: Input, save: bool)
      requires Valid() && Ready(Live(), i) && i.domain == context.domain
      modifies this
      ensures Valid() && Live() == Next(old(Live()), i)
      ensures |old(ledger)| <= |ledger| && ledger[..|old(ledger)|] == old(ledger)
      ensures Records(ledger[|old(ledger)|..], Emitted(old(Live()), i))
      ensures snapshot == if save then Some(SnapshotOf(Live(), ledger[|old(ledger)|..])) else old(snapshot)
    {
      var n := |ledger|;
      var finalPosture, newPaths, final := AdaptAndEmit(i);
      posture, paths, trajectories := finalPosture, newPaths, final;
      if save {
        snapshot := Some(SnapshotOf(State(posture, paths, trajectories), ledger[n..]));
      }
    }

    method AdaptAndEmit(i: Input) returns (finalPosture: Posture, newPaths: Paths, final: Trajectories)
      requires Valid() && Ready(Live(), i)
      modifies this`ledger, this`nextId
      ensures Valid() && State(finalPosture, newPaths, final) == Next(Live(), i)
      ensures |old(ledger)| <= |ledger| && ledger[..|old(ledger)|] == old(ledger)
      ensures Records(ledger[|old(ledger)|..], Emitted(Live(), i))
    {
      ghost var st, first := Live(), ledger;
      var s := Interpret(i.result);
      var newPosture := AdaptPosture(posture, s);
      newPaths := AdaptPaths(paths, Key(i), s, i.now);
      EmitAdaptation(newPosture, newPaths, i);
      ghost var second := ledger;
      final, finalPosture := UpdateAndRebind(newPosture, newPaths, i, st, |first|);
      PrefixOfPrefix(first, second, ledger);
    }

    method EmitAdaptation(newPosture: Posture, newPaths: Paths, i: Input)
      requires Valid() && newPosture == Posture1(Live(), i) && newPaths == Paths1(Live(), i)
      modifies this`ledger, this`nextId
      ensures Valid() && |old(ledger)| <= |ledger| && ledger[..|old(ledger)|] == old(ledger)
      ensures Records(ledger[|old(ledger)|..], AdaptationEvents(Live(), i) + PathEvents(Live(), i))
    {
      ghost var n, out: seq<Payload> := |ledger|, [];
      if newPosture != posture {
        EmitEvent(StrategyAdaptation, NO_DETAILS.(postureAfter := Present(newPosture)), i.now, n, out);
        out := out + AdaptationEvents(Live(), i);
      }
      var oldStatus, newStatus := GetStatus(paths, Key(i)), GetStatus(newPaths, Key(i));
      if oldStatus != newStatus {
        var details := NO_DETAILS.(pathKey := Present(Key(i)), pathStatusAfter := Present(newStatus));
        EmitEvent(PathAbandonment, details, i.now, n, out);
        out := out + PathEvents(Live(), i);
      }
      assert out == AdaptationEvents(Live(), i) + PathEvents(Live(), i);
    }

    method UpdateAndRebind(newPosture: Posture, newPaths: Paths, i: Input, ghost st: State, ghost since: nat)
      returns (final: Trajectories, finalPosture: Posture)
      requires Valid() && st == Live() && Ready(st, i) && newPosture == Posture1(st, i) && newPaths == Paths1(st, i)
      requires since <= |ledger| && Records(ledger[since..], AdaptationEvents(st, i) + PathEvents(st, i))
      modifies this`ledger, this`nextId
      ensures Valid() && |old(ledger)| <= |ledger| && ledger[..|old(ledger)|] == old(ledger)
      ensures Records(ledger[since..], Emitted(st, i))
      ensures final == Next(st, i).trajectories && finalPosture == Next(st, i).posture
    {
      ghost var early, first := AdaptationEvents(st, i) + PathEvents(st, i), ledger;
      var updated, reflections := UpdateAndReflect(newPosture, newPaths, i, st, since, early);
      ghost var second := ledger;
      final := RebindAndEmit(updated, reflections, newPosture, i, st, since,
                             early + TrajectoryEvents(st, i) + ReflectionEvents(reflections));
      finalPosture := EmitHorizon(newPosture, newPaths, i, st, since,
                                  early + TrajectoryEvents(st, i) + ReflectionEvents(reflections) + ReboundEvents(st,
                                                                                                                  i));
      EmittedInOrder(st, i);
      PrefixOfPrefix(first, second, ledger);
    }

    method UpdateAndReflect(newPosture: Posture, newPaths: Paths, i: Input, ghost st: State, ghost since: nat,
                            ghost payloads: seq<Payload>)
      returns (updated: Trajectories, reflections: seq<Rebinding.StrategicReflection>)
      requires Valid() && st == Live() && Ready(st, i) && newPosture == Posture1(st, i) && newPaths == Paths1(st, i)
      requires since <= |ledger| && Records(ledger[since..], payloads)
      modifies this`ledger, this`nextId
      ensures Valid() && |old(ledger)| <= |ledger| && ledger[..|old(ledger)|] == old(ledger)
      ensures since <= |ledger|
      ensures Records(ledger[since..], payloads + TrajectoryEvents(st, i) + ReflectionEvents(reflections))
      ensures updated == Trajectories1(st, i) && reflections == Reflections(st, i)
    {
      ghost var first := ledger;
      updated := UpdateAndCompete(newPosture, i, st, since, payloads);
      ghost var second := ledger;
      reflections := Rebinding.RunReflection(updated, i.order, newPaths, newPosture.mode, i.now);
      EmitReflections(reflections, i.now, since, payloads + TrajectoryEvents(st, i));
      PrefixOfPrefix(first, second, ledger);
    }

    method UpdateAndCompete(newPosture: Posture, i: Input, ghost st: State, ghost since: nat,
                            ghost payloads: seq<Payload>) returns (updated: Trajectories)
      requires Valid() && st == Live() && Ready(st, i) && newPosture == Posture1(st, i)
      requires since <= |ledger| && Records(ledger[since..], payloads)
      modifies this`ledger, this`nextId
      ensures Valid() && |old(ledger)| <= |ledger| && ledger[..|old(ledger)|] == old(ledger)
      ensures since <= |ledger| && Records(ledger[since..], payloads + TrajectoryEvents(st, i))
      ensures updated == Trajectories1(st, i)
    {
      var s := Interpret(i.result);
      var local := UpdateLocal(trajectories, s, i.domain, i.now);
      var diagnostics;
      updated, diagnostics := Competition.RunCompetition(local, i.order, newPosture.mode, Some(s.outcome), i.now);
      ghost var updates := EmitUpdates(updated, i, st, since, payloads);
    }

    method RebindAndEmit(updated: Trajectories, reflections: seq<Rebinding.StrategicReflection>, newPosture: Posture,
                         i: Input, ghost st: State, ghost since: nat, ghost payloads: seq<Payload>)
      returns (final: Trajectories)
      requires Valid() && Ready(st, i) && newPosture == Posture1(st, i)
      requires updated == Trajectories1(st, i) && reflections == Reflections(st, i)
      requires since <= |ledger| && Records(ledger[since..], payloads)
      modifies this`ledger, this`nextId
      ensures Valid() && |old(ledger)| <= |ledger| && ledger[..|old(ledger)|] == old(ledger)
      ensures since <= |ledger| && Records(ledger[since..], payloads + ReboundEvents(st, i))
      ensures final == Next(st, i).trajectories
    {
      var rebindings;
      final, rebindings := Rebinding.RunRebinding(updated, i.order, reflections, newPosture.mode, i.now);
      ReboundTraced(st, i);
      EmitRebindings(rebindings, final, i.now, since, payloads);
    }

    method EmitHorizon(newPosture: Posture, newPaths: Paths, i: Input, ghost st: State,
                       ghost since: nat, ghost payloads: seq<Payload>)
      returns (finalPosture: Posture)
      requires Valid() && since <= |ledger| && Records(ledger[since..], payloads)
      requires Ready(st, i) && newPosture == Posture1(st, i) && newPaths == Paths1(st, i)
      modifies this`ledger, this`nextId
      ensures Valid() && |old(ledger)| <= |ledger| && ledger[..|old(ledger)|] == old(ledger)
      ensures since <= |ledger| && Records(ledger[since..], payloads + HorizonEvents(st, i))
      ensures finalPosture == Posture2(st, i)
    {
      finalPosture := EvaluateHorizon(newPosture, newPaths, i.pathOrder, i.now);
      if finalPosture.mode != newPosture.mode {
        EmitEvent(HorizonShift, NO_DETAILS.(postureAfter := Present(finalPosture)), i.now, since, payloads);
      } else {
        assert payloads + [] == payloads;
      }
    }

    method EmitUpdates(updated: Trajectories, i: Input, ghost st: State, ghost since: nat, ghost payloads: seq<Payload>)
      returns (ghost added: seq<Payload>)
      requires Valid() && since <= |ledger| && Records(ledger[since..], payloads)
      requires st == Live() && Ready(st, i) && updated == Trajectories1(st, i)
      modifies this`ledger, this`nextId
      ensures Valid() && |old(ledger)| <= |ledger| && ledger[..|old(ledger)|] == old(ledger)
      ensures added == TrajectoryEvents(st, i)
      ensures since <= |ledger| && Records(ledger[since..], payloads + added)
    {
      added := [];
      assert payloads + added == payloads;
      for j := 0 to |i.order|
        invariant Valid() && |old(ledger)| <= |ledger| && ledger[..|old(ledger)|] == old(ledger)
        invariant added == UpdateEvents(trajectories, updated, i.order[..j])
        invariant Records(ledger[since..], payloads + added)
      {
        assert i.order[..j + 1][..j] == i.order[..j];
        EmitUpdate(i.order[j], updated, i.now, since, payloads, added);
        added := added + UpdateOf(trajectories, updated, i.order[j]);
      }
      assert i.order[..|i.order|] == i.order;
    }

    method EmitUpdate(k: string, updated: Trajectories, now: Time, ghost since: nat, ghost payloads: seq<Payload>,
                      ghost added: seq<Payload>)
      requires Valid() && since <= |ledger| && Records(ledger[since..], payloads + added) && k in updated
      modifies this`ledger, this`nextId
      ensures Valid() && |old(ledger)| <= |ledger| && ledger[..|old(ledger)|] == old(ledger)
      ensures Records(ledger[since..], payloads + (added + UpdateOf(trajectories, updated, k)))
    {
      assert payloads + (added + UpdateOf(trajectories, updated, k))
             == payloads + added + UpdateOf(trajectories, updated, k);
      if k !in trajectories || trajectories[k] != updated[k] {
        var details := NO_DETAILS.(trajectoryId := Present(k), trajectoryAfter := Present(updated[k]));
        EmitEvent(TrajectoryUpdate, details, now, since, payloads + added);
      } else {
        assert payloads + added + [] == payloads + added;
      }
    }

    method EmitReflections(rs: seq<Rebinding.StrategicReflection>, now: Time, ghost since: nat,
                           ghost payloads: seq<Payload>)
      requires Valid() && since <= |ledger| && Records(ledger[since..], payloads)
      modifies this`ledger, this`nextId
      ensures Valid() && |old(ledger)| <= |ledger| && ledger[..|old(ledger)|] == old(ledger)
      ensures since <= |ledger| && Records(ledger[since..], payloads + ReflectionEvents(rs))
    {
      assert payloads + [] == payloads;
      for j := 0 to |rs|
        invariant Valid() && |old(ledger)| <= |ledger| && ledger[..|old(ledger)|] == old(ledger)
        invariant Records(ledger[since..], payloads + ReflectionEvents(rs[..j]))
      {
        assert rs[..j + 1][..j] == rs[..j];
        EmitEvent(Reflection, NO_DETAILS.(hasOther := true), now, since, payloads + ReflectionEvents(rs[..j]));
        assert payloads + ReflectionEvents(rs[..j + 1])
            == payloads + ReflectionEvents(rs[..j]) + [Payload(Reflection, NO_DETAILS.(hasOther := true))];
      }
      assert rs[..|rs|] == rs;
    }

    method EmitRebindings(rbs: seq<Rebinding.TrajectoryRebinding>, final: Trajectories, now: Time,
                          ghost since: nat, ghost payloads: seq<Payload>)
      requires Valid() && since <= |ledger| && Records(ledger[since..], payloads) && EndsKnown(rbs, final)
      modifies this`ledger, this`nextId
      ensures Valid() && |old(ledger)| <= |ledger| && ledger[..|old(ledger)|] == old(ledger)
      ensures since <= |ledger| && Records(ledger[since..], payloads + RebindingEvents(rbs, final))
    {
      assert payloads + [] == payloads;
      for j := 0 to |rbs|
        invariant Valid() && |old(ledger)| <= |ledger| && ledger[..|old(ledger)|] == old(ledger)
        invariant Records(ledger[since..], payloads + RebindingEvents(rbs[..j], final))
      {
        assert rbs[..j + 1][..j] == rbs[..j];
        var details := NO_DETAILS.(sourceAfter := Present(final[rbs[j].sourceId]),
                                   targetAfter := Present(final[rbs[j].targetId]));
        EmitEvent(EventType.Rebinding, details, now, since, payloads + RebindingEvents(rbs[..j], final));
        assert payloads + RebindingEvents(rbs[..j + 1], final)
            == payloads + RebindingEvents(rbs[..j], final) + [Payload(EventType.Rebinding, details)];
      }
      assert rbs[..|rbs|] == rbs;
    }
  }
}
