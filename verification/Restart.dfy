/** Restarts: what a context's loop reconstructs after any run, and exactly what it loses.

    A run is any sequence of ticks with feedback, ticks without, commitments formed, postures learned, and
    registrations, which restore. A tick's events do not carry what rebinding rewrites silently, nothing carries
    what is learned, and replay refuses the event of a commitment. A snapshot that names an event of its own tick
    makes up for what came before it; after one that does not, the whole ledger is replayed over it. A context by
    itself never loses a path or a trajectory: its own trajectory is never rewritten silently. It takes another
    domain's trajectory in the same place to lose one, and that takes two contexts whose keys collide. But every
    context loses what its human learns.
 */
module Restart {
  import opened Base
  import opened Strategy
  import opened Replay
  import opened LifeLoop
  import opened Contexts
  import Rebinding

  // ---------------------------------------------------------------- silent rewrites

  /** What a silent rewrite leaves: a trajectory that no further reflection rewrites silently. */
  predicate Rested(t: Trajectory) {
    t.status.Active? || (t.status.Abandoned? && t.weight <= 0.0)
  }

  lemma {:induction false} SilentSource(ts: Trajectories, target: Option<Trajectory>,
                                        rs: seq<Rebinding.StrategicReflection>, mode: Mode, k: string)
    returns (j: nat)
    requires k in Rebinding.SilentIds(ts, target, rs, mode)
    ensures j < |rs| && rs[j].trajectoryId == k && Rebinding.Unreported(ts, target, rs[j], mode)
    decreases |rs|
  {
    var n := |rs| - 1;
    if Rebinding.Unreported(ts, target, rs[n], mode) && rs[n].trajectoryId == k {
      j := n;
    } else {
      j := SilentSource(ts, target, rs[..n], mode, k);
    }
  }

  lemma UnreportedIsRestless(ts: Trajectories, target: Option<Trajectory>, k: string, paths: Paths, mode: Mode,
                             now: Time)
    requires k in ts && Rebinding.Reflects(ts[k], now)
    requires Rebinding.Unreported(ts, target, Rebinding.ReflectOn(ts[k], paths, mode), mode) && ts[k].id == k
    ensures !Rested(ts[k])
  {
  }

  /** Only trajectories that are not at rest are rewritten silently. */
  lemma SilentWereRestless(st: State, i: Input, k: string)
    requires Ready(st, i) && k in Silent(st, i)
    ensures k in Trajectories1(st, i) && !Rested(Trajectories1(st, i)[k])
  {
    var ts, rs, mode := Trajectories1(st, i), Reflections(st, i), Posture1(st, i).mode;
    var j := SilentSource(ts, Rebinding.HeaviestActive(ts, i.order), rs, mode, k);
    Rebinding.ReflectReflects(ts, i.order, Paths1(st, i), mode, i.now);
    assert Rebinding.Reflects(ts[rs[j].trajectoryId], i.now);
    assert rs[j] == Rebinding.ReflectOn(ts[k], Paths1(st, i), mode);
    UnreportedIsRestless(ts, Rebinding.HeaviestActive(ts, i.order), k, Paths1(st, i), mode, i.now);
  }

  ghost predicate AllRest(m: Trajectories, ks: set<string>) {
    forall k :: k in ks ==> k in m && Rested(m[k])
  }

  lemma StepRests(ts: Trajectories, target: Option<Trajectory>, done: set<string>, p: Rebinding.Progress,
                  silent: set<string>, r: Rebinding.StrategicReflection, mode: Mode, now: Time)
    requires Rebinding.Step(ts, target, done, p, r) && silent <= done && AllRest(p.trajectories, silent)
    requires forall k :: k in done ==> !Rebinding.IsTarget(target, k)
    ensures
      var after := silent + if Rebinding.Unreported(ts, target, r, mode) then {r.trajectoryId} else {};
      AllRest(Rebinding.RebindOne(ts, target, p, r, mode, now).trajectories, after)
  {
  }

  lemma {:induction false} RewrittenRest(ts: Trajectories, target: Option<Trajectory>,
                                         rs: seq<Rebinding.StrategicReflection>, mode: Mode, now: Time)
    requires WellKeyed(ts) && Rebinding.TargetOf(ts, target) && Rebinding.Reflected(ts, rs, now)
    ensures AllRest(Rebinding.RebindAll(ts, target, rs, mode, now).trajectories,
                    Rebinding.SilentIds(ts, target, rs, mode))
    decreases |rs|
  {
    if rs != [] {
      var n := |rs| - 1;
      RewrittenRest(ts, target, rs[..n], mode, now);
      Rebinding.RebindAllTraced(ts, target, rs[..n], mode, now);
      Rebinding.NotYetSeen(ts, target, rs, now);
      StepRests(ts, target, Rebinding.IdsOf(rs[..n]), Rebinding.RebindAll(ts, target, rs[..n], mode, now),
                Rebinding.SilentIds(ts, target, rs[..n], mode), rs[n], mode, now);
    }
  }

  /** ... and a silent rewrite leaves them at rest. */
  lemma SilentRest(st: State, i: Input)
    requires Ready(st, i)
    ensures AllRest(Next(st, i).trajectories, Silent(st, i))
  {
    var ts := Trajectories1(st, i);
    Rebinding.ReflectReflects(ts, i.order, Paths1(st, i), Posture1(st, i).mode, i.now);
    RewrittenRest(ts, Rebinding.HeaviestActive(ts, i.order), Reflections(st, i), Posture1(st, i).mode, i.now);
  }

  /** Every silent rewrite follows a reflection, which is recorded; so a tick without events rewrites nothing. */
  lemma NoEventsNothingSilent(st: State, i: Input)
    requires Ready(st, i) && Emitted(st, i) == []
    ensures Silent(st, i) == {} && !Nameless(st, i)
  {
    assert MiddleEvents(st, i) == [];
    assert ReflectionEvents(Reflections(st, i)) == [];
    var b := Bundle(st.posture, st.paths, st.trajectories, None, None, "1.1");
    EmissionFidelity(st, i, b, []);
  }

  // ---------------------------------------------------------------- one tick, over any bundle

  /** The trajectories these events say something about. */
  function Reported(events: seq<StrategicEvent>): set<string> {
    EffectOf(events).trajectories.Keys
  }

  /** b has the live memory, except for exactly the trajectories in `lost`, which the live state has at rest. */
  ghost predicate Mirrors(b: Bundle, st: State, lost: set<string>) {
    && b.paths == st.paths && b.trajectories.Keys == st.trajectories.Keys
    && WellKeyed(b.trajectories) && lost <= st.trajectories.Keys && AllRest(st.trajectories, lost)
    && (forall k :: k in st.trajectories ==> (b.trajectories[k] == st.trajectories[k] <==> k !in lost))
  }

  /** What a tick's events write, over the state they were recorded in. */
  ghost predicate Carries(st: State, i: Input, f: Effect)
    requires Ready(st, i)
  {
    var next, now := Next(st, i), st.trajectories + f.trajectories;
    && next.posture == (if f.posture.Some? then f.posture.value else st.posture)
    && next.paths == st.paths + f.paths && WellKeyed(f.trajectories)
    && now.Keys == next.trajectories.Keys == Trajectories1(st, i).Keys
    && (forall k :: k in now ==> (now[k] == next.trajectories[k] <==> k !in Silent(st, i)))
    && (forall k :: k in now && k in Silent(st, i) ==> now[k] == Trajectories1(st, i)[k])
  }

  lemma TickCarries(st: State, i: Input, events: seq<StrategicEvent>)
    requires Ready(st, i) && Records(events, Emitted(st, i))
    ensures AllWellFormed(events) <==> !Nameless(st, i)
    ensures !Nameless(st, i) ==> Carries(st, i, EffectOf(events))
  {
    var b := Bundle(st.posture, st.paths, st.trajectories, None, None, "1.1");
    EmissionFidelity(st, i, b, events);
    FoldIsOverwrite(b, events);
    if !Nameless(st, i) {
      ReboundTraced(st, i);
      ReportsAreKeyed(b, EffectOf(events), Next(st, i).trajectories, Trajectories1(st, i));
    }
  }

  lemma ReportsAreKeyed(b: Bundle, f: Effect, live: Trajectories, before: Trajectories)
    requires WellKeyed(live) && WellKeyed(before)
    requires forall k :: k in f.trajectories ==>
                           || (k in live && f.trajectories[k] == live[k])
                           || (k in before && f.trajectories[k] == before[k])
    ensures WellKeyed(f.trajectories)
  {
  }

  function LostAfter(lost: set<string>, reported: set<string>, silent: set<string>): set<string> {
    (lost - reported) + silent
  }

  /** After a tick, a trajectory is lost exactly if the tick rewrote it silently, or it was lost and the tick did not
      report it. */
  lemma LostAt(b: Bundle, st: State, lost: set<string>, i: Input, f: Effect, k: string)
    requires Mirrors(b, st, lost) && Ready(st, i) && Carries(st, i, f) && k in Next(st, i).trajectories
    ensures k in Overwrite(b, f).trajectories
    ensures Overwrite(b, f).trajectories[k] == Next(st, i).trajectories[k]
            <==> k !in LostAfter(lost, f.trajectories.Keys, Silent(st, i))
    ensures k in LostAfter(lost, f.trajectories.Keys, Silent(st, i)) ==> Rested(Next(st, i).trajectories[k])
  {
    var now := st.trajectories + f.trajectories;
    assert k in now;
    SilentRest(st, i);
    if k in Silent(st, i) {
      SilentWereRestless(st, i, k);
    }
  }

  lemma MirrorTick(b: Bundle, st: State, lost: set<string>, i: Input, f: Effect)
    requires Mirrors(b, st, lost) && Ready(st, i) && Carries(st, i, f)
    ensures Mirrors(Overwrite(b, f), Next(st, i), LostAfter(lost, f.trajectories.Keys, Silent(st, i)))
  {
    var r, next, after := Overwrite(b, f), Next(st, i), LostAfter(lost, f.trajectories.Keys, Silent(st, i));
    forall k | k in next.trajectories
      ensures k in r.trajectories && (r.trajectories[k] == next.trajectories[k] <==> k !in after)
      ensures k in after ==> Rested(next.trajectories[k])
    {
      LostAt(b, st, lost, i, f, k);
    }
    SameKeysAfter(b, st, lost, i, f);
    OverwriteKeyed(b, f);
  }

  lemma SameKeysAfter(b: Bundle, st: State, lost: set<string>, i: Input, f: Effect)
    requires Mirrors(b, st, lost) && Ready(st, i) && Carries(st, i, f)
    ensures Overwrite(b, f).trajectories.Keys == Next(st, i).trajectories.Keys
    ensures LostAfter(lost, f.trajectories.Keys, Silent(st, i)) <= Next(st, i).trajectories.Keys
  {
    assert Overwrite(b, f).trajectories.Keys == b.trajectories.Keys + f.trajectories.Keys;
    assert b.trajectories.Keys + f.trajectories.Keys == (st.trajectories + f.trajectories).Keys;
    SilentRest(st, i);
  }

  lemma OverwriteKeyed(b: Bundle, f: Effect)
    requires WellKeyed(b.trajectories) && WellKeyed(f.trajectories)
    ensures WellKeyed(Overwrite(b, f).trajectories)
  {
  }

  lemma OverwriteTwice(b: Bundle, p: seq<StrategicEvent>, s: seq<StrategicEvent>)
    requires AllWellFormed(p) && AllWellFormed(s)
    ensures Overwrite(b, EffectOf(p + s)) == Overwrite(Overwrite(b, EffectOf(p)), EffectOf(s))
  {
    FoldIsOverwrite(b, p + s);
    FoldIsOverwrite(b, p);
    FoldIsOverwrite(Overwrite(b, EffectOf(p)), s);
    FoldConcat(b, p, s);
    WellFormedConcat(p, s);
  }

  // ---------------------------------------------------------------- runs

  /** What a context's loop goes through. A commitment is formed at the end of a tick, after the persistence check.
      What the orchestrator learns becomes its human's posture after that, and no event says so; nor does one when the
      human is shared with another context, or replaced. A registration, in a new process or after the context was
      removed, restores whatever is stored under the context's key; it goes through only if that can be replayed. */
  datatype Step =
    | Feedback(tick: Tick)
    | Idle(save: bool)
    | Form(event: StrategicEvent)
    | Learn(posture: Posture)
    | Register(context: StrategicContext)

  ghost predicate CanStep(l: Loop, s: Step) {
    match s
    case Feedback(t) => CanTick(l, t)
    case Idle(_) => true
    case Form(e) => Commits(e) && DistinctIds(l.ledger + [e])
    case Learn(_) => true
    case Register(c) => StoreKey(c) == StoreKey(l.context) && Restore(l.snapshot, l.ledger).Ok?
  }

  ghost function DoStep(l: Loop, s: Step): Loop
    requires CanStep(l, s)
  {
    match s
    case Feedback(t) => DoTick(l, t)
    case Idle(save) => if save then l.(snapshot := Some(SnapshotOf(l.live, []))) else l
    case Form(e) => l.(ledger := l.ledger + [e])
    case Learn(p) => l.(live := l.live.(posture := p))
    case Register(c) => l.(context := c, live := StateOf(Restore(l.snapshot, l.ledger).value))
  }

  /** A run, with what a restart would lose if it replayed the whole ledger, or from the last save that named an
      event; and whether what it would replay cannot be replayed. `lostBefore` is what replaying the whole ledger
      would have lost at that save already, unless reported since: whatever a registration loses after such a save,
      this is all that the ledger itself still gets wrong about the state it restored. `recorded` is the posture a
      restart finds. */
  datatype Track = Track(
    loop: Loop, savedAt: nat, lostEver: set<string>, lostSince: set<string>, lostBefore: set<string>,
    badEver: bool, badSince: bool, recorded: Posture)

  /** The posture these events leave behind, if they say anything about it. */
  function PostureIn(events: seq<StrategicEvent>): Option<Posture> {
    EffectOf(events).posture
  }

  function Or(p: Option<Posture>, otherwise: Posture): Posture {
    if p.Some? then p.value else otherwise
  }

  predicate NamesEvent(t: Tick) {
    t.save && t.events != []
  }

  predicate FromSave(l: Loop) {
    l.snapshot.Some? && l.snapshot.value.lastEventId.Some?
  }

  ghost function TrackTick(tr: Track, t: Tick): Track
    requires CanTick(tr.loop, t)
  {
    var silent, reported, bad := Silent(tr.loop.live, t.input), Reported(t.events), Nameless(tr.loop.live, t.input);
    var next, ever := DoTick(tr.loop, t), LostAfter(tr.lostEver, reported, silent);
    if NamesEvent(t) then Track(next, |next.ledger|, ever, {}, ever, tr.badEver || bad, false, next.live.posture)
    else
      Track(next, tr.savedAt, ever, LostAfter(tr.lostSince, reported, silent), tr.lostBefore - reported,
            tr.badEver || bad, tr.badSince || bad,
            if t.save then SavedOver(next) else Or(PostureIn(t.events), tr.recorded))
  }

  /** A snapshot without an event id has the whole ledger replayed over it, whose last word on the posture counts. */
  function SavedOver(l: Loop): Posture {
    Or(PostureIn(l.ledger), l.live.posture)
  }

  ghost function DoTrack(tr: Track, s: Step): Track
    requires CanStep(tr.loop, s)
  {
    var next := DoStep(tr.loop, s);
    match s
    case Feedback(t) => TrackTick(tr, t)
    case Idle(save) => tr.(loop := next, recorded := if save then SavedOver(next) else tr.recorded)
    case Form(_) => tr.(loop := next, badEver := true, badSince := true)
    case Learn(_) => tr.(loop := next)
    case Register(_) =>
      tr.(loop := next, lostSince := {}, lostEver := if FromSave(tr.loop) then tr.lostBefore else {})
  }

  function ColdTrack(c: StrategicContext): Track {
    Track(Cold(c), 0, {}, {}, {}, false, false, DEFAULT_POSTURE)
  }

  ghost function RunFrom(tr: Track, steps: seq<Step>): Option<Track> {
    if steps == [] then Some(tr)
    else
      match RunFrom(tr, steps[..|steps| - 1])
      case None => None
      case Some(mid) =>
        var s := steps[|steps| - 1];
        if CanStep(mid.loop, s) then Some(DoTrack(mid, s)) else None
  }

  /** A run that begins with a context nothing is stored about. */
  ghost function Run(c: StrategicContext, steps: seq<Step>): Option<Track> {
    RunFrom(ColdTrack(c), steps)
  }

  /** The trajectories a restart gets wrong. */
  function Lost(tr: Track): set<string> {
    if FromSave(tr.loop) then tr.lostSince else tr.lostEver
  }

  predicate Poisoned(tr: Track) {
    if FromSave(tr.loop) then tr.badSince else tr.badEver
  }

  // ---------------------------------------------------------------- invariant

  /** These events, replayed over b. */
  ghost predicate ReplayedOver(b: Bundle, part: seq<StrategicEvent>, st: State, lost: set<string>, bad: bool) {
    && (AllWellFormed(part) <==> !bad)
    && (!bad ==> Mirrors(Overwrite(b, EffectOf(part)), st, lost))
  }

  /** The whole ledger, replayed over nothing. */
  ghost predicate FullReplay(l: Loop, lost: set<string>, bad: bool) {
    ReplayedOver(DEFAULT_BUNDLE, l.ledger, l.live, lost, bad)
  }

  /** What follows position k, replayed over the snapshot. */
  ghost predicate SuffixReplay(l: Loop, k: nat, lost: set<string>, bad: bool) {
    && l.snapshot.Some? && 0 < k <= |l.ledger| && l.snapshot.value.lastEventId == Some(l.ledger[k - 1].id)
    && ReplayedOver(l.snapshot.value, l.ledger[k..], l.live, lost, bad)
  }

  /** Replaying f over s leaves nothing of s. */
  ghost predicate Covers(f: Effect, s: Bundle) {
    s.paths.Keys <= f.paths.Keys && s.trajectories.Keys <= f.trajectories.Keys
  }

  /** The two replays, of everything and of what follows the save over it, next to each other. */
  ghost predicate Apart(b: Bundle, all: seq<StrategicEvent>, suffix: seq<StrategicEvent>, before: set<string>) {
    Mirrors(Overwrite(DEFAULT_BUNDLE, EffectOf(all)), StateOf(Overwrite(b, EffectOf(suffix))), before)
  }

  ghost predicate ReplaysApart(l: Loop, k: nat, before: set<string>) {
    l.snapshot.Some? && k <= |l.ledger| && Apart(l.snapshot.value, l.ledger, l.ledger[k..], before)
  }

  function Replayed(l: Loop, savedAt: nat): seq<StrategicEvent> {
    if FromSave(l) && savedAt <= |l.ledger| then l.ledger[savedAt..] else l.ledger
  }

  function ReplayBase(l: Loop): Posture {
    if l.snapshot.Some? then l.snapshot.value.posture else DEFAULT_POSTURE
  }

  /** The posture of a restart: the last one in the replayed part, or else the snapshot's, or else the default. */
  function Recalled(l: Loop, savedAt: nat): Posture {
    Or(PostureIn(Replayed(l, savedAt)), ReplayBase(l))
  }

  ghost predicate Inv(tr: Track) {
    var l := tr.loop;
    && DistinctIds(l.ledger) && FullReplay(l, tr.lostEver, tr.badEver) && tr.recorded == Recalled(l, tr.savedAt)
    && (FromSave(l) ==> SuffixReplay(l, tr.savedAt, tr.lostSince, tr.badSince))
    && (FromSave(l) && !tr.badEver ==> ReplaysApart(l, tr.savedAt, tr.lostBefore))
    && (!FromSave(l) && l.snapshot.Some? && !tr.badEver ==> Covers(EffectOf(l.ledger), l.snapshot.value))
  }

  lemma WellFormedConcat(p: seq<StrategicEvent>, s: seq<StrategicEvent>)
    ensures AllWellFormed(p + s) <==> AllWellFormed(p) && AllWellFormed(s)
  {
    assert forall e :: e in p + s <==> e in p || e in s;
  }

  /** One more tick at the end of what is replayed. */
  lemma ReplayTick(b: Bundle, part: seq<StrategicEvent>, st: State, lost: set<string>, i: Input,
                   events: seq<StrategicEvent>)
    requires AllWellFormed(part) && Mirrors(Overwrite(b, EffectOf(part)), st, lost)
    requires Ready(st, i) && Records(events, Emitted(st, i)) && !Nameless(st, i)
    ensures Mirrors(Overwrite(b, EffectOf(part + events)), Next(st, i),
                    LostAfter(lost, Reported(events), Silent(st, i)))
  {
    TickCarries(st, i, events);
    OverwriteTwice(b, part, events);
    MirrorTick(Overwrite(b, EffectOf(part)), st, lost, i, EffectOf(events));
  }

  lemma ReplayedTick(b: Bundle, part: seq<StrategicEvent>, st: State, lost: set<string>, bad: bool, i: Input,
                     events: seq<StrategicEvent>)
    requires ReplayedOver(b, part, st, lost, bad) && Ready(st, i) && Records(events, Emitted(st, i))
    ensures ReplayedOver(b, part + events, Next(st, i), LostAfter(lost, Reported(events), Silent(st, i)),
                         bad || Nameless(st, i))
  {
    TickCarries(st, i, events);
    WellFormedConcat(part, events);
    if !bad && !Nameless(st, i) {
      ReplayTick(b, part, st, lost, i, events);
    }
  }

  lemma FullReplayTick(l: Loop, t: Tick, lost: set<string>, bad: bool)
    requires CanTick(l, t) && FullReplay(l, lost, bad)
    ensures FullReplay(DoTick(l, t), LostAfter(lost, Reported(t.events), Silent(l.live, t.input)),
                       bad || Nameless(l.live, t.input))
  {
    ReplayedTick(DEFAULT_BUNDLE, l.ledger, l.live, lost, bad, t.input, t.events);
  }

  lemma SuffixReplayTick(l: Loop, t: Tick, k: nat, lost: set<string>, bad: bool)
    requires CanTick(l, t) && SuffixReplay(l, k, lost, bad) && !t.save
    ensures SuffixReplay(DoTick(l, t), k, LostAfter(lost, Reported(t.events), Silent(l.live, t.input)),
                         bad || Nameless(l.live, t.input))
  {
    assert (l.ledger + t.events)[k..] == l.ledger[k..] + t.events;
    ReplayedTick(l.snapshot.value, l.ledger[k..], l.live, lost, bad, t.input, t.events);
  }

  lemma NothingOverwritten(b: Bundle, st: State)
    requires Holds(b, st) && WellKeyed(b.trajectories)
    ensures Mirrors(Overwrite(b, EffectOf([])), st, {})
  {
    assert b.paths + map[] == b.paths && b.trajectories + map[] == b.trajectories;
  }

  /** A save that names an event is the live state, and nothing follows it yet. */
  lemma SavedReplay(l: Loop, t: Tick)
    requires CanTick(l, t) && NamesEvent(t)
    ensures SuffixReplay(DoTick(l, t), |DoTick(l, t).ledger|, {}, false)
  {
    var next := DoTick(l, t);
    ReboundTraced(l.live, t.input);
    assert next.ledger[|next.ledger|..] == [];
    NothingOverwritten(next.snapshot.value, next.live);
  }

  lemma CoversLive(l: Loop, lost: set<string>)
    requires FullReplay(l, lost, false)
    ensures Covers(EffectOf(l.ledger), SnapshotOf(l.live, []))
  {
    var f := EffectOf(l.ledger);
    assert map[] + f.paths == f.paths && map[] + f.trajectories == f.trajectories;
  }

  lemma EffectsConcat(p: seq<StrategicEvent>, s: seq<StrategicEvent>)
    requires AllWellFormed(p) && AllWellFormed(s)
    ensures
      var f, g, h := EffectOf(p), EffectOf(s), EffectOf(p + s);
      h.paths == f.paths + g.paths && h.trajectories == f.trajectories + g.trajectories
  {
    OverwriteTwice(DEFAULT_BUNDLE, p, s);
    EffectShows(EffectOf(p));
    EffectShows(EffectOf(p + s));
  }

  lemma EffectShows(f: Effect)
    ensures Overwrite(DEFAULT_BUNDLE, f).paths == f.paths && Overwrite(DEFAULT_BUNDLE, f).trajectories == f.trajectories
  {
    assert map[] + f.paths == f.paths && map[] + f.trajectories == f.trajectories;
  }

  /** The last word on the posture is the later one, if there is one. */
  lemma {:induction false} PostureConcat(p: seq<StrategicEvent>, s: seq<StrategicEvent>)
    ensures PostureIn(p + s) == if PostureIn(s).Some? then PostureIn(s) else PostureIn(p)
    decreases |s|
  {
    if s == [] {
      assert p + s == p;
    } else {
      var n := |s| - 1;
      PostureConcat(p, s[..n]);
      assert (p + s)[..|p + s| - 1] == p + s[..n];
    }
  }

  lemma CoversGrow(b: Bundle, p: seq<StrategicEvent>, s: seq<StrategicEvent>)
    requires AllWellFormed(p) && AllWellFormed(s) && Covers(EffectOf(p), b)
    ensures Covers(EffectOf(p + s), b)
  {
    EffectsConcat(p, s);
  }

  lemma CoveredReplay(b: Bundle, f: Effect)
    requires Covers(f, b)
    ensures Overwrite(b, f).paths == Overwrite(DEFAULT_BUNDLE, f).paths
    ensures Overwrite(b, f).trajectories == Overwrite(DEFAULT_BUNDLE, f).trajectories
  {
    assert b.paths + f.paths == map[] + f.paths && b.trajectories + f.trajectories == map[] + f.trajectories;
  }

  /** What both replays read further, they agree on. */
  lemma OverwriteBoth(a: Bundle, b: Bundle, f: Effect, lost: set<string>)
    requires Mirrors(a, StateOf(b), lost) && WellKeyed(f.trajectories)
    ensures Mirrors(Overwrite(a, f), StateOf(Overwrite(b, f)), lost - f.trajectories.Keys)
  {
  }

  lemma ReadFurther(b: Bundle, all: seq<StrategicEvent>, suffix: seq<StrategicEvent>, events: seq<StrategicEvent>,
                    before: set<string>)
    requires AllWellFormed(all) && AllWellFormed(suffix) && AllWellFormed(events)
    requires WellKeyed(EffectOf(events).trajectories)
    requires Apart(b, all, suffix, before)
    ensures Apart(b, all + events, suffix + events, before - Reported(events))
  {
    OverwriteTwice(DEFAULT_BUNDLE, all, events);
    OverwriteTwice(b, suffix, events);
    OverwriteBoth(Overwrite(DEFAULT_BUNDLE, EffectOf(all)), Overwrite(b, EffectOf(suffix)), EffectOf(events), before);
  }

  lemma SuffixGrows(all: seq<StrategicEvent>, events: seq<StrategicEvent>, k: nat)
    requires k <= |all|
    ensures (all + events)[k..] == all[k..] + events
    ensures AllWellFormed(all) ==> AllWellFormed(all[k..])
  {
  }

  lemma ApartTick(l: Loop, t: Tick, k: nat, before: set<string>)
    requires CanTick(l, t) && !t.save && ReplaysApart(l, k, before) && AllWellFormed(l.ledger)
    requires !Nameless(l.live, t.input)
    ensures ReplaysApart(DoTick(l, t), k, before - Reported(t.events))
  {
    TickCarries(l.live, t.input, t.events);
    SuffixGrows(l.ledger, t.events, k);
    ReadFurther(l.snapshot.value, l.ledger, l.ledger[k..], t.events, before);
  }

  lemma NothingReadYet(b: Bundle)
    ensures StateOf(Overwrite(b, EffectOf([]))) == StateOf(b)
  {
    assert b.paths + map[] == b.paths && b.trajectories + map[] == b.trajectories;
  }

  lemma SavedApart(l: Loop, t: Tick, ever: set<string>)
    requires CanTick(l, t) && NamesEvent(t) && FullReplay(DoTick(l, t), ever, false)
    ensures ReplaysApart(DoTick(l, t), |DoTick(l, t).ledger|, ever)
  {
    var next := DoTick(l, t);
    assert next.ledger[|next.ledger|..] == [];
    NothingReadYet(next.snapshot.value);
  }

  lemma CoversTick(tr: Track, t: Tick)
    requires Inv(tr) && CanTick(tr.loop, t) && !NamesEvent(t) && !TrackTick(tr, t).badEver
    requires !FromSave(TrackTick(tr, t).loop) && TrackTick(tr, t).loop.snapshot.Some?
    ensures Covers(EffectOf(TrackTick(tr, t).loop.ledger), TrackTick(tr, t).loop.snapshot.value)
  {
    var l, next := tr.loop, DoTick(tr.loop, t);
    FullReplayTick(l, t, tr.lostEver, tr.badEver);
    if t.save {
      CoversLive(next, TrackTick(tr, t).lostEver);
    } else {
      TickCarries(l.live, t.input, t.events);
      CoversGrow(l.snapshot.value, l.ledger, t.events);
    }
  }

  /** More events at the end of what is replayed. */
  lemma RecallFurther(l: Loop, next: Loop, savedAt: nat, events: seq<StrategicEvent>)
    requires next.ledger == l.ledger + events && next.snapshot == l.snapshot && (FromSave(l) ==> savedAt <= |l.ledger|)
    ensures Recalled(next, savedAt) == Or(PostureIn(events), Recalled(l, savedAt))
  {
    var part := Replayed(l, savedAt);
    assert Replayed(next, savedAt) == part + events;
    PostureConcat(part, events);
  }

  /** What a tick does to the posture a restart finds. */
  lemma TickRecalls(tr: Track, t: Tick)
    requires Inv(tr) && CanTick(tr.loop, t)
    ensures TrackTick(tr, t).recorded == Recalled(TrackTick(tr, t).loop, TrackTick(tr, t).savedAt)
  {
    var next := DoTick(tr.loop, t);
    if NamesEvent(t) {
      assert next.ledger[|next.ledger|..] == [];
    } else if !t.save {
      RecallFurther(tr.loop, next, tr.savedAt, t.events);
    }
  }

  lemma TickKeeps(tr: Track, t: Tick)
    requires Inv(tr) && CanTick(tr.loop, t)
    ensures Inv(TrackTick(tr, t))
  {
    FullReplayTick(tr.loop, t, tr.lostEver, tr.badEver);
    TickRecalls(tr, t);
    var next := TrackTick(tr, t);
    if NamesEvent(t) {
      SavedReplay(tr.loop, t);
      if !next.badEver {
        SavedApart(tr.loop, t, next.lostEver);
      }
    } else if FromSave(next.loop) {
      SuffixReplayTick(tr.loop, t, tr.savedAt, tr.lostSince, tr.badSince);
      if !next.badEver {
        ApartTick(tr.loop, t, tr.savedAt, tr.lostBefore);
      }
    } else if next.loop.snapshot.Some? && !next.badEver {
      CoversTick(tr, t);
    }
  }

  /** A save without an event of its tick is the live state, and replaying everything over it leaves nothing of it. */
  lemma IdleKeeps(tr: Track, save: bool)
    requires Inv(tr)
    ensures Inv(DoTrack(tr, Idle(save)))
  {
    if save && !tr.badEver {
      CoversLive(tr.loop, tr.lostEver);
    }
  }

  lemma MirrorsItself(b: Bundle)
    requires WellKeyed(b.trajectories)
    ensures Mirrors(b, StateOf(b), {})
  {
  }

  lemma RegisterKeeps(tr: Track, c: StrategicContext)
    requires Inv(tr) && CanStep(tr.loop, Register(c))
    ensures Inv(DoTrack(tr, Register(c)))
  {
    RestartOf(tr);
    var l := tr.loop;
    MirrorsItself(Restore(l.snapshot, l.ledger).value);
    if !tr.badEver && !FromSave(l) && l.snapshot.Some? {
      CoveredReplay(l.snapshot.value, EffectOf(l.ledger));
    }
  }

  lemma CommitmentIsRefused(part: seq<StrategicEvent>, e: StrategicEvent)
    requires Commits(e)
    ensures !AllWellFormed(part + [e])
  {
    assert e in part + [e];
  }

  lemma SaysNothing(e: StrategicEvent)
    requires Commits(e)
    ensures PostureIn([e]).None?
  {
    var es := [e];
    assert es[..|es| - 1] == [];
    assert EffectOf([]) == Effect(None, map[], map[], None);
    assert EffectOf(es) == EffectOf([]).(lastEventId := Some(e.id));
  }

  /** Nothing that holds a commitment can be replayed. */
  lemma FormKeeps(tr: Track, e: StrategicEvent)
    requires Inv(tr) && CanStep(tr.loop, Form(e))
    ensures Inv(DoTrack(tr, Form(e)))
  {
    var l := tr.loop;
    CommitmentIsRefused(l.ledger, e);
    SaysNothing(e);
    RecallFurther(l, DoStep(l, Form(e)), tr.savedAt, [e]);
    if FromSave(l) {
      CommitmentIsRefused(l.ledger[tr.savedAt..], e);
      SuffixGrows(l.ledger, [e], tr.savedAt);
    }
  }

  lemma StepKeeps(tr: Track, s: Step)
    requires Inv(tr) && CanStep(tr.loop, s)
    ensures Inv(DoTrack(tr, s))
  {
    match s
    case Feedback(t) => TickKeeps(tr, t);
    case Idle(save) => IdleKeeps(tr, save);
    case Form(e) => FormKeeps(tr, e);
    case Learn(_) =>
    case Register(c) => RegisterKeeps(tr, c);
  }

  lemma ColdInv(c: StrategicContext)
    ensures Inv(ColdTrack(c))
  {
    assert EffectOf([]) == Effect(None, map[], map[], None);
  }

  lemma {:induction false} RunKeeps(tr: Track, steps: seq<Step>)
    requires Inv(tr) && RunFrom(tr, steps).Some?
    ensures Inv(RunFrom(tr, steps).value)
    decreases |steps|
  {
    if steps != [] {
      RunKeeps(tr, steps[..|steps| - 1]);
      StepKeeps(RunFrom(tr, steps[..|steps| - 1]).value, steps[|steps| - 1]);
    }
  }

  // ---------------------------------------------------------------- what a restart loses

  /** What a restart gives, and what is replayed for it. */
  lemma RestartOf(tr: Track)
    requires Inv(tr)
    ensures
      var l := tr.loop;
      var r := Restore(l.snapshot, l.ledger);
      && (r.Ok? <==> !Poisoned(tr))
      && (r.Ok? ==> Mirrors(r.value, l.live, Lost(tr)) && r.value.posture == tr.recorded)
      && (r.Ok? && FromSave(l) ==>
            tr.savedAt <= |l.ledger| && r.value == Overwrite(l.snapshot.value, EffectOf(l.ledger[tr.savedAt..])))
      && (r.Ok? && !FromSave(l) ==> SameMemory(r.value, Overwrite(DEFAULT_BUNDLE, EffectOf(l.ledger))))
  {
    var l := tr.loop;
    if FromSave(l) {
      SuffixOfPrefix(l.ledger, tr.savedAt);
      FoldIsOverwrite(l.snapshot.value, l.ledger[tr.savedAt..]);
    } else if l.snapshot.Some? {
      FoldIsOverwrite(l.snapshot.value, l.ledger);
      if !tr.badEver {
        CoveredReplay(l.snapshot.value, EffectOf(l.ledger));
      }
    } else {
      FoldIsOverwrite(DEFAULT_BUNDLE, l.ledger);
    }
  }

  predicate SameMemory(a: Bundle, b: Bundle) {
    a.paths == b.paths && a.trajectories == b.trajectories
  }

  /** After any run: a restart succeeds exactly when what it replays holds no commitment and no change of a trajectory
      with the empty id. Then it has the recorded posture, the live paths, and exactly the live trajectories that were
      not rewritten silently, without a report since, in the part it replays: since the last save if that names an
      event, and ever if it does not or there is none. */
  lemma RestartLosesExactly(c: StrategicContext, steps: seq<Step>)
    requires Run(c, steps).Some?
    ensures
      var tr := Run(c, steps).value;
      var r := Restore(tr.loop.snapshot, tr.loop.ledger);
      && (r.Ok? <==> !Poisoned(tr))
      && (r.Ok? ==> r.value.posture == tr.recorded && Mirrors(r.value, tr.loop.live, Lost(tr)))
  {
    ColdInv(c);
    RunKeeps(ColdTrack(c), steps);
    RestartOf(Run(c, steps).value);
  }

  ghost predicate Reconstructs(l: Loop) {
    var r := Restore(l.snapshot, l.ledger);
    r.Ok? && Holds(r.value, l.live)
  }

  /** Paths and trajectories as they are. */
  ghost predicate HasMemory(b: Bundle, st: State) {
    b.paths == st.paths && b.trajectories == st.trajectories
  }

  lemma MirrorsAll(b: Bundle, st: State)
    requires Mirrors(b, st, {})
    ensures HasMemory(b, st)
  {
    assert forall k :: k in st.trajectories ==> b.trajectories[k] == st.trajectories[k];
  }

  /** So a restart reconstructs the live state exactly when nothing it replays is refused, no trajectory is lost to
      it, and the recorded posture is the live one. */
  lemma RestartReconstructsLiveStateIff(c: StrategicContext, steps: seq<Step>)
    requires Run(c, steps).Some?
    ensures
      var tr := Run(c, steps).value;
      Reconstructs(tr.loop) <==> !Poisoned(tr) && Lost(tr) == {} && tr.recorded == tr.loop.live.posture
  {
    RestartLosesExactly(c, steps);
    var tr := Run(c, steps).value;
    if !Poisoned(tr) {
      LossShows(Restore(tr.loop.snapshot, tr.loop.ledger).value, tr.loop.live, Lost(tr));
    }
  }

  lemma LossShows(b: Bundle, st: State, lost: set<string>)
    requires Mirrors(b, st, lost)
    ensures HasMemory(b, st) <==> lost == {}
  {
    if lost == {} {
      MirrorsAll(b, st);
    } else {
      var k :| k in lost;
      assert k in st.trajectories && b.trajectories[k] != st.trajectories[k];
    }
  }

  /** A registration makes what it restored the live state, so a further restart reconstructs that. Against a replay
      of the whole ledger, all that is lost afterwards is what was lost before the save it started from, if it started
      from one that names an event, and nothing otherwise. The posture becomes the recorded one: what was learned is
      gone. */
  lemma RegistrationSettles(c: StrategicContext, steps: seq<Step>, d: StrategicContext)
    requires Run(c, steps).Some? && CanStep(Run(c, steps).value.loop, Register(d))
    ensures
      var tr, next := Run(c, steps).value, DoTrack(Run(c, steps).value, Register(d));
      && Reconstructs(next.loop) && next.loop.live.posture == tr.recorded
      && (!next.badEver ==> Mirrors(Overwrite(DEFAULT_BUNDLE, EffectOf(next.loop.ledger)), next.loop.live,
                                    if FromSave(tr.loop) then tr.lostBefore else {}))
  {
    ColdInv(c);
    RunKeeps(ColdTrack(c), steps);
    var next := DoTrack(Run(c, steps).value, Register(d));
    RestartOf(Run(c, steps).value);
    StepKeeps(Run(c, steps).value, Register(d));
    RestartOf(next);
    MirrorsAll(Restore(next.loop.snapshot, next.loop.ledger).value, next.loop.live);
  }

  /** A step whose change is wholly carried by its events, and whose save, if it has one, names one of them. */
  ghost predicate Clean(l: Loop, s: Step)
    requires CanStep(l, s)
  {
    match s
    case Feedback(t) => Silent(l.live, t.input) == {} && !Nameless(l.live, t.input) && (t.save ==> t.events != [])
    case Idle(save) => !save
    case Form(_) => false
    case Learn(p) => p == l.live.posture
    case Register(_) => true
  }

  ghost predicate AllClean(tr: Track, steps: seq<Step>)
    requires RunFrom(tr, steps).Some?
  {
    steps == [] ||
    var front := steps[..|steps| - 1];
    AllClean(tr, front) && Clean(RunFrom(tr, front).value.loop, steps[|steps| - 1])
  }

  /** A restart would start from a save that names an event, and lose nothing. */
  ghost predicate Saved(tr: Track) {
    && Inv(tr) && FromSave(tr.loop) && tr.lostSince == {} && !tr.badSince && tr.recorded == tr.loop.live.posture
  }

  lemma CleanStepSaved(tr: Track, s: Step)
    requires Saved(tr) && CanStep(tr.loop, s) && Clean(tr.loop, s)
    ensures Saved(DoTrack(tr, s))
  {
    StepKeeps(tr, s);
    RestartOf(tr);
    if s.Feedback? {
      TickCarries(tr.loop.live, s.tick.input, s.tick.events);
    }
  }

  lemma {:induction false} CleanKeepsSaved(tr: Track, steps: seq<Step>)
    requires Saved(tr) && RunFrom(tr, steps).Some? && AllClean(tr, steps)
    ensures Saved(RunFrom(tr, steps).value)
    decreases |steps|
  {
    if steps != [] {
      CleanKeepsSaved(tr, steps[..|steps| - 1]);
      CleanStepSaved(RunFrom(tr, steps[..|steps| - 1]).value, steps[|steps| - 1]);
    }
  }

  lemma RepairedFrom(saved: Track, more: seq<Step>)
    requires Saved(saved) && RunFrom(saved, more).Some? && AllClean(saved, more)
    ensures Reconstructs(RunFrom(saved, more).value.loop)
  {
    var tr := RunFrom(saved, more).value;
    CleanKeepsSaved(saved, more);
    RestartOf(tr);
    MirrorsAll(Restore(tr.loop.snapshot, tr.loop.ledger).value, tr.loop.live);
  }

  lemma SaveNamed(tr: Track, save: Tick) returns (saved: Track)
    requires Inv(tr) && CanTick(tr.loop, save) && NamesEvent(save)
    ensures saved == DoTrack(tr, Feedback(save)) && Saved(saved)
  {
    saved := DoTrack(tr, Feedback(save));
    StepKeeps(tr, Feedback(save));
  }

  /** A save that names an event repairs whatever came before: from there on, through any clean steps, a restart
      reconstructs the live state. */
  lemma SaveRepairs(c: StrategicContext, before: seq<Step>, save: Tick, saved: Track, more: seq<Step>)
    requires Run(c, before).Some? && CanTick(Run(c, before).value.loop, save) && NamesEvent(save)
    requires saved == DoTrack(Run(c, before).value, Feedback(save))
    requires RunFrom(saved, more).Some? && AllClean(saved, more)
    ensures Reconstructs(RunFrom(saved, more).value.loop)
  {
    ColdInv(c);
    RunKeeps(ColdTrack(c), before);
    var same := SaveNamed(Run(c, before).value, save);
    RepairedFrom(saved, more);
  }

  /** A save in a tick without events. */
  predicate SavesWithoutEvent(s: Step) {
    match s
    case Feedback(t) => t.save && t.events == []
    case Idle(save) => save
    case _ => false
  }

  /** Such a save undoes the repair: a restart after it loses whatever was ever lost and not reported since, and fails
      if anything in the ledger cannot be replayed. Of what was learned it keeps the posture exactly if no event has
      ever said anything about a posture. */
  lemma EventlessSaveLoses(c: StrategicContext, before: seq<Step>, save: Step)
    requires Run(c, before).Some? && CanStep(Run(c, before).value.loop, save) && SavesWithoutEvent(save)
    ensures
      var tr, l := Run(c, before).value, DoStep(Run(c, before).value.loop, save);
      var r := Restore(l.snapshot, l.ledger);
      && (r.Ok? <==> !tr.badEver)
      && (r.Ok? ==> Mirrors(r.value, l.live, tr.lostEver) && r.value.posture == Or(PostureIn(l.ledger), l.live.posture))
  {
    var tr := Run(c, before).value;
    ColdInv(c);
    RunKeeps(ColdTrack(c), before);
    StepKeeps(tr, save);
    RestartOf(DoTrack(tr, save));
    if save.Feedback? {
      NoEventsNothingSilent(tr.loop.live, save.tick.input);
      assert EffectOf([]).trajectories.Keys == {};
    }
  }

  // ---------------------------------------------------------------- a context by itself

  /** All registrations are of contexts with this domain. */
  ghost predicate OneDomain(steps: seq<Step>, domain: string) {
    forall k :: 0 <= k < |steps| && steps[k].Register? ==> steps[k].context.domain == domain
  }

  ghost predicate NothingLost(tr: Track, domain: string) {
    && tr.loop.context.domain == domain && OwnOnly(tr.loop.live, domain)
    && tr.lostEver == {} && tr.lostSince == {} && tr.lostBefore == {}
  }

  lemma OwnStep(tr: Track, s: Step, domain: string)
    requires Inv(tr) && NothingLost(tr, domain) && CanStep(tr.loop, s) && (s.Register? ==> s.context.domain == domain)
    ensures NothingLost(DoTrack(tr, s), domain)
  {
    match s
    case Feedback(t) => OwnTick(tr.loop.live, t.input);
    case Idle(_) =>
    case Form(_) =>
    case Learn(_) =>
    case Register(_) => RestartOf(tr);
  }

  lemma {:induction false} OwnRun(c: StrategicContext, steps: seq<Step>)
    requires Run(c, steps).Some? && OneDomain(steps, c.domain)
    ensures Inv(Run(c, steps).value) && NothingLost(Run(c, steps).value, c.domain)
    decreases |steps|
  {
    ColdInv(c);
    if steps != [] {
      var front, s := steps[..|steps| - 1], steps[|steps| - 1];
      OwnRun(c, front);
      OwnStep(Run(c, front).value, s, c.domain);
      StepKeeps(Run(c, front).value, s);
    }
  }

  predicate SavesNamed(s: Step) {
    s.Feedback? && NamesEvent(s.tick)
  }

  /** The last save, if there was one, names an event. */
  predicate LastSaveNames(steps: seq<Step>) {
    steps != [] &&
    var s := steps[|steps| - 1];
    SavesNamed(s) || (!SavesWithoutEvent(s) && LastSaveNames(steps[..|steps| - 1]))
  }

  predicate FormedSince(steps: seq<Step>) {
    steps != [] &&
    var s := steps[|steps| - 1];
    s.Form? || (!SavesNamed(s) && FormedSince(steps[..|steps| - 1]))
  }

  predicate FormedEver(steps: seq<Step>) {
    steps != [] && (steps[|steps| - 1].Form? || FormedEver(steps[..|steps| - 1]))
  }

  /** A restart has a commitment to replay: one formed since the last save, if that names an event, and any
      otherwise. */
  predicate CommitmentToReplay(steps: seq<Step>) {
    if LastSaveNames(steps) then FormedSince(steps) else FormedEver(steps)
  }

  lemma OwnStepReplays(tr: Track, s: Step, domain: string)
    requires NothingLost(tr, domain) && domain != "" && CanStep(tr.loop, s)
    ensures
      var next := DoTrack(tr, s);
      && next.badEver == (tr.badEver || s.Form?)
      && next.badSince == (s.Form? || (!SavesNamed(s) && tr.badSince))
      && FromSave(next.loop) == (SavesNamed(s) || (!SavesWithoutEvent(s) && FromSave(tr.loop)))
  {
    if s.Feedback? {
      OwnTick(tr.loop.live, s.tick.input);
    }
  }

  lemma {:induction false} OwnRunReplays(c: StrategicContext, steps: seq<Step>)
    requires Run(c, steps).Some? && OneDomain(steps, c.domain) && c.domain != ""
    ensures
      var tr := Run(c, steps).value;
      tr.badEver == FormedEver(steps) && tr.badSince == FormedSince(steps) && FromSave(tr.loop) == LastSaveNames(steps)
    decreases |steps|
  {
    if steps != [] {
      var front := steps[..|steps| - 1];
      OwnRun(c, front);
      OwnRunReplays(c, front);
      OwnStepReplays(Run(c, front).value, steps[|steps| - 1], c.domain);
    }
  }

  /** A context's restart never loses a path or a trajectory: after every run of ticks with feedback and without,
      saves at any of them, commitments, learning and registrations, as long as no context of another domain is
      registered in its place, a restart that succeeds gives the live memory, and the recorded posture. */
  lemma RestartKeepsMemory(c: StrategicContext, steps: seq<Step>)
    requires Run(c, steps).Some? && OneDomain(steps, c.domain)
    ensures
      var tr := Run(c, steps).value;
      var r := Restore(tr.loop.snapshot, tr.loop.ledger);
      r.Ok? ==> HasMemory(r.value, tr.loop.live) && r.value.posture == tr.recorded
  {
    var tr := Run(c, steps).value;
    OwnRun(c, steps);
    RestartOf(tr);
    if Restore(tr.loop.snapshot, tr.loop.ledger).Ok? {
      MirrorsAll(Restore(tr.loop.snapshot, tr.loop.ledger).value, tr.loop.live);
    }
  }

  /** It reconstructs the live state exactly when it has no commitment to replay and the recorded posture is the live
      one. */
  lemma RestartReconstructsContextIff(c: StrategicContext, steps: seq<Step>)
    requires Run(c, steps).Some? && OneDomain(steps, c.domain) && c.domain != ""
    ensures
      var tr := Run(c, steps).value;
      Reconstructs(tr.loop) <==> !CommitmentToReplay(steps) && tr.recorded == tr.loop.live.posture
  {
    OwnRun(c, steps);
    OwnRunReplays(c, steps);
    RestartOf(Run(c, steps).value);
    RestartKeepsMemory(c, steps);
  }

  // ---------------------------------------------------------------- learning and commitments

  /** Learning changes the live posture and nothing that a restart reads. */
  lemma LearningIsNotRecorded(c: StrategicContext, steps: seq<Step>, p: Posture)
    requires Run(c, steps).Some?
    ensures Run(c, steps + [Learn(p)]) == Some(DoTrack(Run(c, steps).value, Learn(p)))
    ensures
      var tr, next := Run(c, steps).value, Run(c, steps + [Learn(p)]).value;
      && Restore(next.loop.snapshot, next.loop.ledger) == Restore(tr.loop.snapshot, tr.loop.ledger)
      && next.recorded == tr.recorded && next.loop.live == tr.loop.live.(posture := p)
  {
    assert (steps + [Learn(p)])[..|steps|] == steps;
  }

  /** A tick with feedback brings the record in line exactly when it says something about the posture, or saves with an
      event, or had nothing to bring in line. */
  lemma TickRecordsPosture(tr: Track, t: Tick)
    requires Inv(tr) && CanTick(tr.loop, t) && !Nameless(tr.loop.live, t.input) && !SavesWithoutEvent(Feedback(t))
    ensures
      var next := TrackTick(tr, t);
      next.recorded == next.loop.live.posture
      <==> NamesEvent(t) || PostureIn(t.events).Some? || tr.recorded == tr.loop.live.posture
  {
    TickCarries(tr.loop.live, t.input, t.events);
  }

  /** An input: whatever else than the default is learned about a new context's human, the next restart succeeds and has
      forgotten it. */
  lemma LearnedIsForgotten(c: StrategicContext, p: Posture)
    requires p != DEFAULT_POSTURE
    ensures
      var run := Run(c, [Learn(p)]);
      && run.Some? && run.value.loop.live.posture == p && !Reconstructs(run.value.loop)
      && Restore(run.value.loop.snapshot, run.value.loop.ledger) == Ok(DEFAULT_BUNDLE)
  {
    assert [] + [Learn(p)] == [Learn(p)];
    LearningIsNotRecorded(c, [], p);
  }

  /** An input: after a commitment, and nothing else, no restart succeeds. */
  lemma CommitmentStopsRestart(c: StrategicContext, e: StrategicEvent)
    requires Commits(e)
    ensures
      var run := Run(c, [Form(e)]);
      && run.Some? && CommitmentToReplay([Form(e)])
      && Restore(run.value.loop.snapshot, run.value.loop.ledger).Err?
  {
    assert [Form(e)][..0] == [];
    assert Run(c, []) == Some(ColdTrack(c));
    RestartLosesExactly(c, [Form(e)]);
  }

  // ---------------------------------------------------------------- a context that neither commits nor learns

  ghost predicate OnlyTicks(steps: seq<Step>) {
    forall k :: 0 <= k < |steps| ==> !steps[k].Form? && !steps[k].Learn?
  }

  lemma {:induction false} NothingFormed(steps: seq<Step>)
    requires OnlyTicks(steps)
    ensures !FormedEver(steps) && !FormedSince(steps)
    decreases |steps|
  {
    if steps != [] {
      NothingFormed(steps[..|steps| - 1]);
    }
  }

  /** The record, and the ledger by itself, have the live posture. */
  ghost predicate InLine(tr: Track) {
    tr.recorded == tr.loop.live.posture == Or(PostureIn(tr.loop.ledger), DEFAULT_POSTURE)
  }

  lemma StepInLine(tr: Track, s: Step, domain: string)
    requires Inv(tr) && InLine(tr) && NothingLost(tr, domain) && domain != ""
    requires CanStep(tr.loop, s) && !s.Form? && !s.Learn?
    ensures InLine(DoTrack(tr, s))
  {
    match s
    case Feedback(t) =>
      OwnTick(tr.loop.live, t.input);
      TickCarries(tr.loop.live, t.input, t.events);
      PostureConcat(tr.loop.ledger, t.events);
    case Idle(_) =>
    case Register(_) => RestartOf(tr);
  }

  lemma {:induction false} RunInLine(c: StrategicContext, steps: seq<Step>)
    requires Run(c, steps).Some? && OneDomain(steps, c.domain) && c.domain != "" && OnlyTicks(steps)
    ensures InLine(Run(c, steps).value)
    decreases |steps|
  {
    if steps != [] {
      var front := steps[..|steps| - 1];
      OwnRun(c, front);
      RunInLine(c, front);
      StepInLine(Run(c, front).value, steps[|steps| - 1], c.domain);
    }
  }

  /** A restart always reconstructs the live state of a context that has formed no commitment and learned nothing. */
  lemma RestartReconstructsContext(c: StrategicContext, steps: seq<Step>)
    requires Run(c, steps).Some? && OneDomain(steps, c.domain) && c.domain != "" && OnlyTicks(steps)
    ensures Reconstructs(Run(c, steps).value.loop)
  {
    NothingFormed(steps);
    RunInLine(c, steps);
    RestartReconstructsContextIff(c, steps);
  }

  // ---------------------------------------------------------------- keys

  /** All registrations are of contexts stored under this key. */
  ghost predicate UnderKey(steps: seq<Step>, key: string) {
    forall k :: 0 <= k < |steps| && steps[k].Register? ==> StoreKey(steps[k].context) == key
  }

  lemma StepKeepsKey(l: Loop, s: Step, key: string)
    requires CanStep(l, s) && StoreKey(l.context) == key
    ensures StoreKey(DoStep(l, s).context) == key && UnderKey([s], key)
  {
  }

  lemma LastUnderKey(steps: seq<Step>, key: string)
    requires steps != [] && UnderKey(steps[..|steps| - 1], key) && UnderKey([steps[|steps| - 1]], key)
    ensures UnderKey(steps, key)
  {
    forall k | 0 <= k < |steps| && steps[k].Register? ensures StoreKey(steps[k].context) == key {
      assert k < |steps| - 1 ==> steps[k] == steps[..|steps| - 1][k];
      assert [steps[|steps| - 1]][0] == steps[|steps| - 1];
    }
  }

  lemma {:induction false} KeysStay(c: StrategicContext, steps: seq<Step>, key: string)
    requires Run(c, steps).Some? && key == StoreKey(c)
    ensures StoreKey(Run(c, steps).value.loop.context) == key && UnderKey(steps, key)
    decreases |steps|
  {
    if steps != [] {
      var front, s := steps[..|steps| - 1], steps[|steps| - 1];
      KeysStay(c, front, key);
      StepKeepsKey(Run(c, front).value.loop, s, key);
      LastUnderKey(steps, key);
    }
  }

  lemma UncollidableIsOneDomain(c: StrategicContext, steps: seq<Step>)
    requires Run(c, steps).Some? && !Collidable(c)
    ensures OneDomain(steps, c.domain)
  {
    KeysStay(c, steps, StoreKey(c));
    forall k | 0 <= k < |steps| && steps[k].Register? ensures steps[k].context.domain == c.domain {
      assert !Collides(c, steps[k].context);
    }
  }
}
