/** The circuit breaker: one small automaton per key, read against the whole trace of calls made on it. */
module CircuitBreaker {
  import opened Base

  datatype Config = Config(threshold: int, window: int, cooldown: int, halfOpenSuccesses: int)

  datatype CircuitState = Closed | Open | HalfOpen

  datatype Circuit = Circuit(state: CircuitState, openedAt: Option<Time>, failures: seq<Time>,
                             successes: int, probing: bool)

  const FRESH: Circuit := Circuit(Closed, None, [], 0, false)

  datatype Op = Allow(at: Time) | Success(at: Time) | Failure(at: Time)

  /** `[x for x in failures if x >= cutoff]` */
  function Keep(fs: seq<Time>, cutoff: Time): seq<Time> {
    if fs == [] then []
    else Keep(fs[..|fs| - 1], cutoff) + if fs[|fs| - 1] >= cutoff then [fs[|fs| - 1]] else []
  }

  predicate CooledDown(cfg: Config, c: Circuit, now: Time) {
    c.openedAt.Some? && now - c.openedAt.value >= cfg.cooldown
  }

  predicate Admits(cfg: Config, c: Circuit, now: Time) {
    match c.state
    case Closed => true
    case Open => CooledDown(cfg, c, now)
    case HalfOpen => !c.probing
  }

  function Step(cfg: Config, c: Circuit, op: Op): Circuit {
    match op
    case Allow(now) =>
      (match c.state
       case Closed => c
       case Open => if CooledDown(cfg, c, now) then c.(state := HalfOpen, probing := true) else c
       case HalfOpen => c.(probing := true))
    case Success(now) =>
      (match c.state
       case Closed => c.(failures := [])
       case Open => c
       case HalfOpen =>
         if c.successes + 1 >= cfg.halfOpenSuccesses
         then c.(state := Closed, probing := false, failures := [], successes := 0)
         else c.(probing := false, successes := c.successes + 1))
    case Failure(now) =>
      if c.state.HalfOpen? then c.(state := Open, probing := false, openedAt := Some(now), successes := 0)
      else
        var failures := Keep(c.failures, now - cfg.window) + [now];
        if c.state.Closed? && |failures| >= cfg.threshold
        then c.(state := Open, failures := failures, openedAt := Some(now))
        else c.(failures := failures)
  }

  function Run(cfg: Config, ops: seq<Op>): Circuit {
    if ops == [] then FRESH else Step(cfg, Run(cfg, ops[..|ops| - 1]), ops[|ops| - 1])
  }

  function StateAfter(cfg: Config, ops: seq<Op>): CircuitState {
    Run(cfg, ops).state
  }

  lemma RunAppend(cfg: Config, ops: seq<Op>, op: Op)
    ensures Run(cfg, ops + [op]) == Step(cfg, Run(cfg, ops), op)
  {
    assert (ops + [op])[..|ops|] == ops;
  }

  // ---------------------------------------------------------------- opening

  /** The failures reported since the last success that left the breaker closed; nothing is ever forgotten. */
  function FailuresSinceReset(cfg: Config, ops: seq<Op>): seq<Time> {
    if ops == [] then []
    else
      var before := FailuresSinceReset(cfg, ops[..|ops| - 1]);
      match ops[|ops| - 1]
      case Allow(_) => before
      case Failure(at) => before + [at]
      case Success(_) => if StateAfter(cfg, ops).Closed? then [] else before
  }

  ghost predicate UpTo(ops: seq<Op>, now: Time) {
    && (forall i, j :: 0 <= i < j < |ops| ==> ops[i].at <= ops[j].at)
    && (forall i :: 0 <= i < |ops| ==> ops[i].at <= now)
  }

  lemma {:induction false} KeepTwice(fs: seq<Time>, a: Time, b: Time)
    requires a <= b
    ensures Keep(Keep(fs, a), b) == Keep(fs, b)
    decreases |fs|
  {
    if fs != [] {
      var n := |fs| - 1;
      KeepTwice(fs[..n], a, b);
      if fs[n] >= a {
        assert Keep(fs, a)[..|Keep(fs, a)| - 1] == Keep(fs[..n], a);
      } else {
        assert Keep(fs, a) == Keep(fs[..n], a) && Keep(fs, b) == Keep(fs[..n], b);
      }
    }
  }

  lemma KeepAppend(fs: seq<Time>, t: Time, cutoff: Time)
    ensures Keep(fs + [t], cutoff) == Keep(fs, cutoff) + if t >= cutoff then [t] else []
  {
    assert (fs + [t])[..|fs|] == fs;
  }

  /** The trimmed list and the full one agree on every window that has not yet begun to slide past it. */
  ghost predicate SameRecent(kept: seq<Time>, all: seq<Time>, horizon: Time) {
    forall c: Time :: c >= horizon ==> Keep(kept, c) == Keep(all, c)
  }

  lemma FailureKeepsRecent(kept: seq<Time>, all: seq<Time>, horizon: Time, now: Time, window: int)
    requires SameRecent(kept, all, horizon) && horizon <= now - window
    ensures SameRecent(Keep(kept, now - window) + [now], all + [now], now - window)
  {
    forall c: Time | c >= now - window ensures Keep(Keep(kept, now - window) + [now], c) == Keep(all + [now], c) {
      KeepAppend(Keep(kept, now - window), now, c);
      KeepAppend(all, now, c);
      KeepTwice(kept, now - window, c);
    }
  }

  lemma {:induction false} ClosedRemembersRecentFailures(cfg: Config, ops: seq<Op>, now: Time)
    requires UpTo(ops, now)
    ensures StateAfter(cfg, ops).Closed? ==>
              SameRecent(Run(cfg, ops).failures, FailuresSinceReset(cfg, ops), now - cfg.window)
    decreases |ops|
  {
    if ops != [] {
      var before, op := ops[..|ops| - 1], ops[|ops| - 1];
      var c := Run(cfg, before);
      ClosedRemembersRecentFailures(cfg, before, op.at);
      if c.state.Closed? && op.Failure? {
        FailureKeepsRecent(c.failures, FailuresSinceReset(cfg, before), op.at - cfg.window, op.at, cfg.window);
      }
    }
  }

  /** A closed breaker opens exactly when, counting this one, the failures since the last reset that fall inside
      the window reach the threshold. */
  lemma OpensIffThreshold(cfg: Config, ops: seq<Op>, now: Time)
    requires UpTo(ops, now) && StateAfter(cfg, ops).Closed?
    ensures StateAfter(cfg, ops + [Failure(now)]).Open?
            <==> |Keep(FailuresSinceReset(cfg, ops), now - cfg.window)| + 1 >= cfg.threshold
    ensures !StateAfter(cfg, ops + [Failure(now)]).Open? ==> StateAfter(cfg, ops + [Failure(now)]).Closed?
  {
    var c := Run(cfg, ops);
    ClosedRemembersRecentFailures(cfg, ops, now);
    FailureInClosed(cfg, c, now);
    assert Keep(c.failures, now - cfg.window) == Keep(FailuresSinceReset(cfg, ops), now - cfg.window);
    RunAppend(cfg, ops, Failure(now));
  }

  lemma FailureInClosed(cfg: Config, c: Circuit, now: Time)
    requires c.state.Closed?
    ensures Step(cfg, c, Failure(now)).state
            == if |Keep(c.failures, now - cfg.window)| + 1 >= cfg.threshold then Open else Closed
  {
  }

  // ---------------------------------------------------------------- cooling down

  /** When the breaker last turned OPEN. */
  function LastOpening(cfg: Config, ops: seq<Op>): Option<Time> {
    if ops == [] then None
    else
      var before := ops[..|ops| - 1];
      if !StateAfter(cfg, before).Open? && StateAfter(cfg, ops).Open? then Some(ops[|ops| - 1].at)
      else LastOpening(cfg, before)
  }

  lemma {:induction false} OpenedAtIsLastOpening(cfg: Config, ops: seq<Op>)
    ensures Run(cfg, ops).openedAt == LastOpening(cfg, ops)
    ensures StateAfter(cfg, ops).Open? || StateAfter(cfg, ops).HalfOpen? ==> LastOpening(cfg, ops).Some?
    decreases |ops|
  {
    if ops != [] {
      OpenedAtIsLastOpening(cfg, ops[..|ops| - 1]);
    }
  }

  /** An open breaker admits a call exactly when the cooldown has passed since it opened. */
  lemma OpenAdmitsIffCooledDown(cfg: Config, ops: seq<Op>, now: Time)
    requires StateAfter(cfg, ops).Open?
    ensures LastOpening(cfg, ops).Some?
    ensures Admits(cfg, Run(cfg, ops), now) <==> now - LastOpening(cfg, ops).value >= cfg.cooldown
  {
    OpenedAtIsLastOpening(cfg, ops);
  }

  // ---------------------------------------------------------------- probing

  lemma {:induction false} ProbeOutstanding(cfg: Config, ops: seq<Op>, more: seq<Op>)
    requires StateAfter(cfg, ops).HalfOpen? && Run(cfg, ops).probing
    requires forall i :: 0 <= i < |more| ==> more[i].Allow?
    ensures StateAfter(cfg, ops + more).HalfOpen? && Run(cfg, ops + more).probing
    decreases |more|
  {
    if more == [] {
      assert ops + more == ops;
    } else {
      var n := |more| - 1;
      ProbeOutstanding(cfg, ops, more[..n]);
      assert ops + more == ops + more[..n] + [more[n]];
      RunAppend(cfg, ops + more[..n], more[n]);
    }
  }

  /** After a call admitted as a probe, nothing more is admitted until an outcome has been recorded. */
  lemma OneProbeAtATime(cfg: Config, ops: seq<Op>, now: Time, more: seq<Op>, later: Time)
    requires Admits(cfg, Run(cfg, ops), now) && !StateAfter(cfg, ops).Closed?
    requires forall i :: 0 <= i < |more| ==> more[i].Allow?
    ensures !Admits(cfg, Run(cfg, ops + [Allow(now)] + more), later)
  {
    RunAppend(cfg, ops, Allow(now));
    ProbeOutstanding(cfg, ops + [Allow(now)], more);
  }

  /** Successes recorded since the breaker became HALF_OPEN. */
  function ProbeSuccesses(cfg: Config, ops: seq<Op>): nat {
    if ops == [] then 0
    else
      var before := ops[..|ops| - 1];
      if !StateAfter(cfg, before).HalfOpen? then 0
      else ProbeSuccesses(cfg, before) + if ops[|ops| - 1].Success? then 1 else 0
  }

  lemma {:induction false} SuccessesCounted(cfg: Config, ops: seq<Op>)
    ensures StateAfter(cfg, ops).HalfOpen? ==> Run(cfg, ops).successes == ProbeSuccesses(cfg, ops)
    ensures !StateAfter(cfg, ops).HalfOpen? ==> Run(cfg, ops).successes == 0
    decreases |ops|
  {
    if ops != [] {
      SuccessesCounted(cfg, ops[..|ops| - 1]);
    }
  }

  /** A half-open breaker closes exactly on the success that completes the required number. */
  lemma ClosesIffEnoughSuccesses(cfg: Config, ops: seq<Op>, now: Time)
    requires StateAfter(cfg, ops).HalfOpen?
    ensures StateAfter(cfg, ops + [Success(now)]).Closed? <==> ProbeSuccesses(cfg, ops) + 1 >= cfg.halfOpenSuccesses
    ensures StateAfter(cfg, ops + [Failure(now)]).Open?
  {
    SuccessesCounted(cfg, ops);
    RunAppend(cfg, ops, Success(now));
    RunAppend(cfg, ops, Failure(now));
  }

  // ---------------------------------------------------------------- the transition log

  datatype Edge = Edge(previous: CircuitState, current: CircuitState)

  function EdgeOf(cfg: Config, c: Circuit, op: Op): seq<Edge> {
    var after := Step(cfg, c, op);
    if after.state == c.state then [] else [Edge(c.state, after.state)]
  }

  function Log(cfg: Config, ops: seq<Op>): seq<Edge> {
    if ops == [] then []
    else Log(cfg, ops[..|ops| - 1]) + EdgeOf(cfg, Run(cfg, ops[..|ops| - 1]), ops[|ops| - 1])
  }

  predicate Legal(e: Edge) {
    e in {Edge(Closed, Open), Edge(Open, HalfOpen), Edge(HalfOpen, Open), Edge(HalfOpen, Closed)}
  }

  /** A path of legal moves from one state to another. */
  ghost predicate Path(log: seq<Edge>, from: CircuitState, to: CircuitState) {
    if log == [] then from == to
    else
      var last := log[|log| - 1];
      Legal(last) && last.current == to && Path(log[..|log| - 1], from, last.previous)
  }

  /** The log is an unbroken path from CLOSED to where the breaker is now. */
  lemma {:induction false} LogIsPath(cfg: Config, ops: seq<Op>)
    ensures Path(Log(cfg, ops), Closed, StateAfter(cfg, ops))
    decreases |ops|
  {
    if ops != [] {
      var before, op := ops[..|ops| - 1], ops[|ops| - 1];
      LogIsPath(cfg, before);
      var e := EdgeOf(cfg, Run(cfg, before), op);
      if e == [] {
        assert Log(cfg, before) + [] == Log(cfg, before);
      } else {
        assert (Log(cfg, before) + e)[..|Log(cfg, before)|] == Log(cfg, before);
      }
    }
  }

  // ---------------------------------------------------------------- many keys

  datatype Transition = Transition(key: string, edge: Edge, at: Time)

  datatype Call = Call(key: string, op: Op)

  datatype Breaker = Breaker(circuits: map<string, Circuit>, transitions: seq<Transition>)

  function CircuitOf(b: Breaker, key: string): Circuit {
    if key in b.circuits then b.circuits[key] else FRESH
  }

  function TransitionsOf(key: string, edges: seq<Edge>, at: Time): seq<Transition> {
    if edges == [] then [] else [Transition(key, edges[0], at)]
  }

  function Do(cfg: Config, b: Breaker, call: Call): Breaker {
    var c := CircuitOf(b, call.key);
    Breaker(b.circuits[call.key := Step(cfg, c, call.op)],
            b.transitions + TransitionsOf(call.key, EdgeOf(cfg, c, call.op), call.op.at))
  }

  function DoAll(cfg: Config, calls: seq<Call>): Breaker {
    if calls == [] then Breaker(map[], [])
    else Do(cfg, DoAll(cfg, calls[..|calls| - 1]), calls[|calls| - 1])
  }

  function OpsOf(calls: seq<Call>, key: string): seq<Op> {
    if calls == [] then []
    else OpsOf(calls[..|calls| - 1], key) + if calls[|calls| - 1].key == key then [calls[|calls| - 1].op] else []
  }

  function EdgesFor(log: seq<Transition>, key: string): seq<Edge> {
    if log == [] then []
    else EdgesFor(log[..|log| - 1], key) + if log[|log| - 1].key == key then [log[|log| - 1].edge] else []
  }

  /** Keys do not interfere: each has the circuit and the log that its own calls alone would give it. */
  lemma {:induction false} KeysAreIndependent(cfg: Config, calls: seq<Call>, key: string)
    ensures CircuitOf(DoAll(cfg, calls), key) == Run(cfg, OpsOf(calls, key))
    ensures EdgesFor(DoAll(cfg, calls).transitions, key) == Log(cfg, OpsOf(calls, key))
    decreases |calls|
  {
    if calls != [] {
      var before, call := calls[..|calls| - 1], calls[|calls| - 1];
      KeysAreIndependent(cfg, before, key);
      var b := DoAll(cfg, before);
      var added := TransitionsOf(call.key, EdgeOf(cfg, CircuitOf(b, call.key), call.op), call.op.at);
      if added != [] {
        assert (b.transitions + added)[..|b.transitions|] == b.transitions;
      } else {
        assert b.transitions + added == b.transitions;
      }
      if call.key == key {
        RunAppend(cfg, OpsOf(before, key), call.op);
        assert (OpsOf(before, key) + [call.op])[..|OpsOf(before, key)|] == OpsOf(before, key);
      } else {
        assert OpsOf(before, key) + [] == OpsOf(before, key);
      }
    }
  }

  // ---------------------------------------------------------------- the mutable object

  class InMemoryCircuitBreaker {
    const cfg: Config
    var circuits: map<string, Circuit>
    var transitions: seq<Transition>

    constructor (cfg: Config)
      ensures this.cfg == cfg && State() == Breaker(map[], [])
    {
      this.cfg := cfg;
      circuits, transitions := map[], [];
    }

    ghost function State(): Breaker
      reads this
    {
      Breaker(circuits, transitions)
    }

    method MoveTo(key: string, target: CircuitState, now: Time)
      requires key in circuits
      modifies this
      ensures circuits == old(circuits)[key := old(circuits[key]).(state := target)]
      ensures transitions == old(transitions) + [Transition(key, Edge(old(circuits[key]).state, target), now)]
    {
      transitions := transitions + [Transition(key, Edge(circuits[key].state, target), now)];
      circuits := circuits[key := circuits[key].(state := target)];
    }

    method SetDefault(key: string)
      modifies this`circuits
      ensures key in circuits && circuits == old(circuits)[key := CircuitOf(old(State()), key)]
    {
      if key !in circuits {
        circuits := circuits[key := FRESH];
      }
    }

    method AllowCall(key: string, now: Time) returns (admitted: bool)
      modifies this
      ensures State() == Do(cfg, old(State()), Call(key, Allow(now)))
      ensures admitted == Admits(cfg, CircuitOf(old(State()), key), now)
    {
      SetDefault(key);
      var c := circuits[key];
      if c.state.Closed? {
        return true;
      }
      if c.state.Open? {
        if c.openedAt.Some? && now - c.openedAt.value >= cfg.cooldown {
          MoveTo(key, HalfOpen, now);
          circuits := circuits[key := circuits[key].(probing := false)];
        } else {
          return false;
        }
      }
      if circuits[key].probing {
        return false;
      }
      circuits := circuits[key := circuits[key].(probing := true)];
      return true;
    }

    method RecordSuccess(key: string, now: Time)
      modifies this
      ensures State() == Do(cfg, old(State()), Call(key, Success(now)))
    {
      SetDefault(key);
      var c := circuits[key];
      if c.state.Closed? {
        circuits := circuits[key := c.(failures := [])];
      } else if c.state.HalfOpen? {
        circuits := circuits[key := c.(probing := false, successes := c.successes + 1)];
        if circuits[key].successes >= cfg.halfOpenSuccesses {
          MoveTo(key, Closed, now);
          circuits := circuits[key := circuits[key].(failures := [], successes := 0)];
        }
      }
    }

    method RecordFailure(key: string, now: Time)
      modifies this
      ensures State() == Do(cfg, old(State()), Call(key, Failure(now)))
    {
      SetDefault(key);
      var c := circuits[key];
      if c.state.HalfOpen? {
        circuits := circuits[key := c.(probing := false)];
        MoveTo(key, Open, now);
        circuits := circuits[key := circuits[key].(openedAt := Some(now), successes := 0)];
        return;
      }
      circuits := circuits[key := c.(failures := Keep(c.failures, now - cfg.window) + [now])];
      if c.state.Closed? && |circuits[key].failures| >= cfg.threshold {
        MoveTo(key, Open, now);
        circuits := circuits[key := circuits[key].(openedAt := Some(now))];
      }
    }

    method DrainTransitions() returns (drained: seq<Transition>)
      modifies this`transitions
      ensures drained == old(transitions) && transitions == []
    {
      drained := transitions;
      transitions := [];
    }
  }
}
