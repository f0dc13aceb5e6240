/** Paths of the transition system that belong to one of its programs. */
module Paths {
  import opened Base
  import opened Pipeline
  import Q = ExecutionQueue
  import Box = ResultInbox

  datatype Actor = ByWorker(worker: Q.WorkerId) | ByDispatcher(dispatcher: Box.DispatcherId) | ByOrchestrator

  /** The steps a program takes: its own moves, and handing expired leases back. */
  predicate DoneBy(a: Actor, l: Label) {
    match l
    case Work(w, _) => a == ByWorker(w)
    case Deliver(d, _) => a == ByDispatcher(d)
    case Orchestrate(_) => a == ByOrchestrator
    case Happen(i) => match i
      case Reclaim(_, _) => a.ByWorker?
      case ReclaimEnvelope(_, _) => !a.ByOrchestrator?
      case _ => false
  }

  ghost predicate Path(a: Actor, s: World, ls: seq<Label>, t: World) {
    Exec(s, ls) == Some(t) && forall k :: 0 <= k < |ls| ==> DoneBy(a, ls[k])
  }

  lemma {:induction false} ExecConcat(s: World, a: seq<Label>, b: seq<Label>)
    requires Exec(s, a).Some?
    ensures Exec(s, a + b) == Exec(Exec(s, a).value, b)
    decreases |b|
  {
    if b == [] {
      assert a + b == a;
    } else {
      var n := |b| - 1;
      ExecConcat(s, a, b[..n]);
      assert (a + b)[..|a + b| - 1] == a + b[..n];
    }
  }

  lemma PathStays(a: Actor, s: World)
    ensures Path(a, s, [], s)
  {
  }

  lemma PathStep(a: Actor, s: World, ls: seq<Label>, t: World, l: Label)
    requires Path(a, s, ls, t) && Enabled(t, l) && DoneBy(a, l)
    ensures Path(a, s, ls + [l], Step(t, l))
  {
    ExecAppend(s, ls, l);
  }

  lemma PathJoin(a: Actor, s: World, first: seq<Label>, t: World, second: seq<Label>, u: World)
    requires Path(a, s, first, t) && Path(a, t, second, u)
    ensures Path(a, s, first + second, u)
  {
    ExecConcat(s, first, second);
  }

  lemma PathJoinTwo(a: Actor, s: World, first: seq<Label>, t: World, second: seq<Label>, third: seq<Label>, u: World)
    requires Path(a, s, first, t) && Path(a, t, second + third, u)
    ensures Path(a, s, first + second + third, u)
  {
    PathJoin(a, s, first, t, second + third, u);
    assert first + (second + third) == first + second + third;
  }

  lemma PathOne(a: Actor, s: World, l: Label)
    requires Enabled(s, l) && DoneBy(a, l)
    ensures Path(a, s, [l], Step(s, l))
  {
    PathStays(a, s);
    PathStep(a, s, [], s, l);
    assert [] + [l] == [l];
  }

  /** One step, and a path from where it leads. */
  lemma PathFrom(a: Actor, s: World, l: Label, rest: seq<Label>, u: World)
    requires Enabled(s, l) && DoneBy(a, l) && Path(a, Step(s, l), rest, u)
    ensures Path(a, s, [l] + rest, u)
  {
    PathOne(a, s, l);
    PathJoin(a, s, [l], Step(s, l), rest, u);
  }

  function ReclaimItemLabels(order: seq<Box.EnvelopeId>, now: Time): seq<Label> {
    if order == [] then []
    else ReclaimItemLabels(order[..|order| - 1], now) + [Happen(ReclaimEnvelope(order[|order| - 1], now))]
  }

  /** Handing expired envelopes back, one after another. */
  lemma {:induction false} ReclaimItemsPath(a: Actor, s: World, order: seq<Box.EnvelopeId>, now: Time)
    returns (ls: seq<Label>, t: World)
    requires !a.ByOrchestrator?
    ensures ls == ReclaimItemLabels(order, now) && Path(a, s, ls, t)
    ensures t == s.(inbox := Box.ReclaimItems(s.inbox, order, now), hist := t.hist)
    decreases |order|
  {
    if order == [] {
      ls, t := [], s;
      PathStays(a, s);
    } else {
      var n := |order| - 1;
      var before, mid := ReclaimItemsPath(a, s, order[..n], now);
      var l := Happen(ReclaimEnvelope(order[n], now));
      PathStep(a, s, before, mid, l);
      ls, t := before + [l], Step(mid, l);
    }
  }
}
