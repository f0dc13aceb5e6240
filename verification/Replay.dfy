/** Reducers over strategic events, and restoring a context from a snapshot and its ledger. */
module Replay {
  import opened Base
  import opened Strategy

  // ---------------------------------------------------------------- reducers

  function ReducePosture(b: Bundle, e: StrategicEvent): Result<Bundle> {
    if e.details.postureAfter.Present? then
      Ok(b.(posture := e.details.postureAfter.value, lastEventId := Some(e.id)))
    else Err
  }

  function ReduceTrajectoryUpdate(b: Bundle, e: StrategicEvent): Result<Bundle> {
    var d := e.details;
    if d.trajectoryAfter.Present? && d.trajectoryId.Present? && d.trajectoryId.value != "" then
      Ok(b.(trajectories := b.trajectories[d.trajectoryId.value := d.trajectoryAfter.value],
            lastEventId := Some(e.id)))
    else Err
  }

  function ReducePathAbandonment(b: Bundle, e: StrategicEvent): Result<Bundle> {
    var d := e.details;
    if d.pathKey.Present? && d.pathKey.value != [] && d.pathStatusAfter.Present? then
      Ok(b.(paths := b.paths[d.pathKey.value := d.pathStatusAfter.value], lastEventId := Some(e.id)))
    else Err
  }

  function ReduceRebinding(b: Bundle, e: StrategicEvent): Result<Bundle> {
    var d := e.details;
    if d.sourceAfter.Present? && d.targetAfter.Present? then
      var source, target := d.sourceAfter.value, d.targetAfter.value;
      Ok(b.(trajectories := b.trajectories[source.id := source][target.id := target], lastEventId := Some(e.id)))
    else Err
  }

  function Reduce(b: Bundle, e: StrategicEvent): Result<Bundle> {
    match e.eventType
    case StrategyAdaptation => ReducePosture(b, e)
    case HorizonShift => ReducePosture(b, e)
    case TrajectoryUpdate => ReduceTrajectoryUpdate(b, e)
    case PathAbandonment => ReducePathAbandonment(b, e)
    case Rebinding => ReduceRebinding(b, e)
    case Reflection => Ok(b.(lastEventId := Some(e.id)))
    case Disallowed(_) => Err
  }

  /** One step of the engine: the allow-list and the empty-details check come before the reducer. */
  function ReplayOne(b: Bundle, e: StrategicEvent): Result<Bundle> {
    if e.eventType.Disallowed? || e.details == NO_DETAILS then Err else Reduce(b, e)
  }

  function Fold(b: Bundle, events: seq<StrategicEvent>): Result<Bundle> {
    if events == [] then Ok(b)
    else
      match Fold(b, events[..|events| - 1])
      case Err => Err
      case Ok(mid) => ReplayOne(mid, events[|events| - 1])
  }

  // ---------------------------------------------------------------- restore

  function SuffixAfter(events: seq<StrategicEvent>, id: Id): seq<StrategicEvent> {
    if events == [] then []
    else if events[0].id == id then events[1..]
    else SuffixAfter(events[1..], id)
  }

  function Replayed(snapshot: Option<Bundle>, history: seq<StrategicEvent>): seq<StrategicEvent> {
    if snapshot.None? || snapshot.value.lastEventId.None? then history
    else SuffixAfter(history, snapshot.value.lastEventId.value)
  }

  function Restore(snapshot: Option<Bundle>, history: seq<StrategicEvent>): Result<Bundle> {
    Fold(if snapshot.None? then DEFAULT_BUNDLE else snapshot.value, Replayed(snapshot, history))
  }

  // ---------------------------------------------------------------- the fold as one overwrite

  /** Whether an event can be replayed is a matter of the event alone. */
  predicate WellFormed(e: StrategicEvent) {
    var d := e.details;
    match e.eventType
    case StrategyAdaptation => d.postureAfter.Present?
    case HorizonShift => d.postureAfter.Present?
    case TrajectoryUpdate => d.trajectoryAfter.Present? && d.trajectoryId.Present? && d.trajectoryId.value != ""
    case PathAbandonment => d.pathKey.Present? && d.pathKey.value != [] && d.pathStatusAfter.Present?
    case Rebinding => d.sourceAfter.Present? && d.targetAfter.Present?
    case Reflection => d != NO_DETAILS
    case Disallowed(_) => false
  }

  ghost predicate AllWellFormed(events: seq<StrategicEvent>) {
    forall e :: e in events ==> WellFormed(e)
  }

  /** What a sequence of events leaves behind, whatever it starts from: the last value written to each place. */
  datatype Effect = Effect(
    posture: Option<Posture>, paths: Paths, trajectories: Trajectories, lastEventId: Option<Id>)

  function EffectOf(events: seq<StrategicEvent>): Effect {
    if events == [] then Effect(None, map[], map[], None)
    else
      var before := EffectOf(events[..|events| - 1]);
      var e := events[|events| - 1];
      var d := e.details;
      var after := before.(lastEventId := Some(e.id));
      if !WellFormed(e) then after
      else
        match e.eventType
        case StrategyAdaptation => after.(posture := Some(d.postureAfter.value))
        case HorizonShift => after.(posture := Some(d.postureAfter.value))
        case TrajectoryUpdate =>
          after.(trajectories := after.trajectories[d.trajectoryId.value := d.trajectoryAfter.value])
        case PathAbandonment => after.(paths := after.paths[d.pathKey.value := d.pathStatusAfter.value])
        case Rebinding =>
          after.(trajectories := after.trajectories[d.sourceAfter.value.id := d.sourceAfter.value]
                                 [d.targetAfter.value.id := d.targetAfter.value])
        case _ => after
  }

  function Overwrite(b: Bundle, f: Effect): Bundle {
    b.(posture := if f.posture.Some? then f.posture.value else b.posture,
       paths := b.paths + f.paths,
       trajectories := b.trajectories + f.trajectories,
       lastEventId := if f.lastEventId.Some? then f.lastEventId else b.lastEventId)
  }

  lemma {:induction false} FoldIsOverwrite(b: Bundle, events: seq<StrategicEvent>)
    ensures Fold(b, events) == if AllWellFormed(events) then Ok(Overwrite(b, EffectOf(events))) else Err
    decreases |events|
  {
    if events == [] {
      assert Overwrite(b, EffectOf([])) == b;
    } else {
      var n := |events| - 1;
      var e := events[n];
      FoldIsOverwrite(b, events[..n]);
      assert events == events[..n] + [e];
      if AllWellFormed(events[..n]) && WellFormed(e) {
        var before, after := EffectOf(events[..n]), EffectOf(events);
        OneOverwrite(b, before, e);
      }
    }
  }

  lemma OneOverwrite(b: Bundle, f: Effect, e: StrategicEvent)
    requires WellFormed(e)
    ensures ReplayOne(Overwrite(b, f), e).Ok?
    ensures e.details != NO_DETAILS
    ensures
      var d := e.details;
      var r := ReplayOne(Overwrite(b, f), e).value;
      var g := f.(lastEventId := Some(e.id));
      match e.eventType
      case StrategyAdaptation => r == Overwrite(b, g.(posture := Some(d.postureAfter.value)))
      case HorizonShift => r == Overwrite(b, g.(posture := Some(d.postureAfter.value)))
      case TrajectoryUpdate =>
        r == Overwrite(b, g.(trajectories := f.trajectories[d.trajectoryId.value := d.trajectoryAfter.value]))
      case PathAbandonment =>
        r == Overwrite(b, g.(paths := f.paths[d.pathKey.value := d.pathStatusAfter.value]))
      case Rebinding =>
        r == Overwrite(b, g.(trajectories := f.trajectories[d.sourceAfter.value.id := d.sourceAfter.value]
                                               [d.targetAfter.value.id := d.targetAfter.value]))
      case _ => r == Overwrite(b, g)
  {
    var d := e.details;
    match e.eventType
    case TrajectoryUpdate =>
      assert (b.trajectories + f.trajectories)[d.trajectoryId.value := d.trajectoryAfter.value]
          == b.trajectories + f.trajectories[d.trajectoryId.value := d.trajectoryAfter.value];
    case PathAbandonment =>
      assert (b.paths + f.paths)[d.pathKey.value := d.pathStatusAfter.value]
          == b.paths + f.paths[d.pathKey.value := d.pathStatusAfter.value];
    case Rebinding =>
      var s, t := d.sourceAfter.value, d.targetAfter.value;
      assert (b.trajectories + f.trajectories)[s.id := s][t.id := t]
          == b.trajectories + f.trajectories[s.id := s][t.id := t];
    case _ =>
  }

  lemma {:induction false} FoldConcat(b: Bundle, p: seq<StrategicEvent>, s: seq<StrategicEvent>)
    ensures Fold(b, p + s) == (match Fold(b, p) case Err => Err case Ok(mid) => Fold(mid, s))
    decreases |s|
  {
    if s == [] {
      assert p + s == p;
    } else {
      var n := |s| - 1;
      FoldConcat(b, p, s[..n]);
      assert (p + s)[..|p + s| - 1] == p + s[..n];
    }
  }

  /** Replaying the same events again over their own result changes nothing. */
  lemma FoldTwice(b: Bundle, events: seq<StrategicEvent>, mid: Bundle, cleared: Bundle)
    requires Fold(b, events) == Ok(mid)
    requires cleared == mid.(lastEventId := None)
    ensures Fold(mid, events) == Ok(mid)
    ensures events != [] ==> Fold(cleared, events) == Ok(mid)
  {
    FoldIsOverwrite(b, events);
    FoldIsOverwrite(mid, events);
    FoldIsOverwrite(cleared, events);
    var f := EffectOf(events);
    assert b.paths + f.paths + f.paths == b.paths + f.paths;
    assert b.trajectories + f.trajectories + f.trajectories == b.trajectories + f.trajectories;
  }

  // ---------------------------------------------------------------- replay integrity

  ghost predicate DistinctIds(events: seq<StrategicEvent>) {
    forall i, j :: 0 <= i < j < |events| ==> events[i].id != events[j].id
  }

  lemma {:induction false} SuffixOfPrefix(events: seq<StrategicEvent>, k: nat)
    requires DistinctIds(events) && 0 < k <= |events|
    ensures SuffixAfter(events, events[k - 1].id) == events[k..]
    decreases k
  {
    if k > 1 {
      SuffixOfPrefix(events[1..], k - 1);
      assert events[1..][k - 1..] == events[k..];
    }
  }

  /** Restoring is insensitive to where the snapshot was taken: a snapshot of any prefix, with or without
      its event id, restores to the fold of the whole history. */
  lemma SnapshotPositionIsIrrelevant(p: seq<StrategicEvent>, s: seq<StrategicEvent>)
    requires DistinctIds(p + s) && Fold(DEFAULT_BUNDLE, p).Ok?
    ensures
      var snapshot := Fold(DEFAULT_BUNDLE, p).value;
      && Restore(Some(snapshot), p + s) == Restore(None, p + s)
      && Restore(Some(snapshot.(lastEventId := None)), p + s) == Restore(None, p + s)
  {
    var snapshot := Fold(DEFAULT_BUNDLE, p).value;
    var cleared := snapshot.(lastEventId := None);
    FoldConcat(DEFAULT_BUNDLE, p, s);
    FoldConcat(cleared, p, s);
    FoldTwice(DEFAULT_BUNDLE, p, snapshot, cleared);
    if p == [] {
      assert p + s == s;
      assert snapshot == cleared == DEFAULT_BUNDLE;
    } else {
      LastIdOfFold(DEFAULT_BUNDLE, p);
      SuffixOfPrefix(p + s, |p|);
      assert (p + s)[|p| - 1] == p[|p| - 1];
      assert (p + s)[|p|..] == s;
    }
  }

  lemma LastIdOfFold(b: Bundle, events: seq<StrategicEvent>)
    requires events != [] && Fold(b, events).Ok?
    ensures Fold(b, events).value.lastEventId == Some(events[|events| - 1].id)
  {
  }

  /** Restoring fails exactly when something in the replayed part is not well formed. */
  lemma RestoreFailsIffPoisoned(snapshot: Option<Bundle>, history: seq<StrategicEvent>)
    ensures Restore(snapshot, history) == Err <==> exists e :: e in Replayed(snapshot, history) && !WellFormed(e)
  {
    FoldIsOverwrite(if snapshot.None? then DEFAULT_BUNDLE else snapshot.value, Replayed(snapshot, history));
  }

  /** A snapshot whose event id the ledger does not contain is returned as it is: the gap goes unnoticed. */
  lemma {:induction false} GapIsSilent(snapshot: Bundle, history: seq<StrategicEvent>)
    requires snapshot.lastEventId.Some?
    requires forall e :: e in history ==> e.id != snapshot.lastEventId.value
    ensures Restore(Some(snapshot), history) == Ok(snapshot)
  {
    NothingAfterMissing(history, snapshot.lastEventId.value);
  }

  lemma {:induction false} NothingAfterMissing(events: seq<StrategicEvent>, id: Id)
    requires forall e :: e in events ==> e.id != id
    ensures SuffixAfter(events, id) == []
    decreases |events|
  {
    if events != [] {
      NothingAfterMissing(events[1..], id);
    }
  }

  // ---------------------------------------------------------------- the engine

  /** The stores the engine reads: snapshots and histories, keyed by context. */
  class StrategicReplayEngine {
    var snapshots: map<string, Bundle>
    var histories: map<string, seq<StrategicEvent>>

    constructor ()
      ensures snapshots == map[] && histories == map[]
    {
      snapshots, histories := map[], map[];
    }

    ghost function History(context: string): seq<StrategicEvent>
      reads this
    {
      if context in histories then histories[context] else []
    }

    ghost function Snapshot(context: string): Option<Bundle>
      reads this
    {
      if context in snapshots then Some(snapshots[context]) else None
    }

    method Record(context: string, e: StrategicEvent)
      modifies this`histories
      ensures History(context) == old(History(context)) + [e]
      ensures forall c :: c != context ==> History(c) == old(History(c))
    {
      if context !in histories {
        histories := histories[context := []];
      }
      histories := histories[context := histories[context] + [e]];
    }

    method Save(context: string, b: Bundle)
      modifies this`snapshots
      ensures Snapshot(context) == Some(b)
      ensures forall c :: c != context ==> Snapshot(c) == old(Snapshot(c))
    {
      snapshots := snapshots[context := b];
    }

    /** Only this context's own snapshot and history are looked at. */
    method RestoreContext(context: string) returns (r: Result<Bundle>)
      ensures r == Restore(Snapshot(context), History(context))
    {
      var history := if context in histories then histories[context] else [];
      var current := if context in snapshots then snapshots[context] else DEFAULT_BUNDLE;
      var lastId := if context in snapshots then snapshots[context].lastEventId else None;

      var replayEvents := [];
      if lastId.None? {
        replayEvents := history;
      } else {
        var foundSnapshot := false;
        for i := 0 to |history|
          invariant !foundSnapshot ==>
                      replayEvents == []
                      && SuffixAfter(history, lastId.value) == SuffixAfter(history[i..], lastId.value)
          invariant foundSnapshot ==> replayEvents + history[i..] == SuffixAfter(history, lastId.value)
        {
          if foundSnapshot {
            replayEvents := replayEvents + [history[i]];
          } else if history[i].id == lastId.value {
            foundSnapshot := true;
          }
          assert history[i..] == [history[i]] + history[i + 1..];
        }
        assert history[|history|..] == [];
      }
      assert replayEvents == Replayed(Snapshot(context), history);

      ghost var base := current;
      for i := 0 to |replayEvents|
        invariant Fold(base, replayEvents[..i]) == Ok(current)
      {
        assert replayEvents[..i + 1][..i] == replayEvents[..i];
        match ReplayOne(current, replayEvents[i])
        case Err =>
          assert Fold(base, replayEvents[..i + 1]) == Err;
          assert replayEvents == replayEvents[..i + 1] + replayEvents[i + 1..];
          FoldConcat(base, replayEvents[..i + 1], replayEvents[i + 1..]);
          return Err;
        case Ok(next) =>
          current := next;
      }
      assert replayEvents[..|replayEvents|] == replayEvents;
      return Ok(current);
    }
  }
}
