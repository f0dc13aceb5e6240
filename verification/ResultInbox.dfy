/** The inbox of execution results, between the workers and the dispatcher. */
module ResultInbox {
  import opened Base
  import opened Budget
  import opened ExecutionResults
  import opened StableSort

  type EnvelopeId = Id
  type DispatcherId = Id

  datatype ItemState = Pending | ItemLeased | Processed

  datatype Envelope = Envelope(job: Id, intent: Id, domain: string, reservation: Option<Delta>,
                               result: ExecutionResult, receivedAt: Time)

  datatype Item = Item(id: EnvelopeId, envelope: Envelope, state: ItemState,
                       leasedBy: Option<DispatcherId>, leaseUntil: Option<Time>)

  type Inbox = map<EnvelopeId, Item>

  function Append(inbox: Inbox, id: EnvelopeId, envelope: Envelope): Inbox {
    inbox[id := Item(id, envelope, Pending, None, None)]
  }

  function LeaseItem(inbox: Inbox, id: EnvelopeId, d: DispatcherId, until: Time): Inbox
    requires id in inbox
  {
    inbox[id := inbox[id].(state := ItemLeased, leasedBy := Some(d), leaseUntil := Some(until))]
  }

  predicate HoldsItem(inbox: Inbox, id: EnvelopeId, d: DispatcherId) {
    id in inbox && inbox[id].state.ItemLeased? && inbox[id].leasedBy == Some(d)
  }

  function AckItem(inbox: Inbox, id: EnvelopeId, d: DispatcherId): Inbox {
    if HoldsItem(inbox, id, d) then inbox[id := inbox[id].(state := Processed)] else inbox
  }

  predicate ItemExpired(item: Item, now: Time) {
    item.state.ItemLeased? && item.leaseUntil.Some? && item.leaseUntil.value < now
  }

  function ReclaimItem(inbox: Inbox, id: EnvelopeId, now: Time): Inbox {
    if id in inbox && ItemExpired(inbox[id], now)
    then inbox[id := inbox[id].(state := Pending, leasedBy := None, leaseUntil := None)]
    else inbox
  }

  function ReclaimItems(inbox: Inbox, order: seq<EnvelopeId>, now: Time): (r: Inbox)
    ensures r.Keys == inbox.Keys
  {
    if order == [] then inbox else ReclaimItem(ReclaimItems(inbox, order[..|order| - 1], now), order[|order| - 1], now)
  }

  const EARLIER: (Item, Item) -> bool := (a: Item, b: Item) => a.envelope.receivedAt < b.envelope.receivedAt

  function PendingItems(inbox: Inbox, order: seq<EnvelopeId>): seq<Item> {
    if order == [] then []
    else
      var n := |order| - 1;
      PendingItems(inbox, order[..n])
      + if order[n] in inbox && inbox[order[n]].state.Pending? then [inbox[order[n]]] else []
  }

  /** The oldest pending items, at most `batch` of them. */
  function OldestPending(inbox: Inbox, order: seq<EnvelopeId>, batch: nat): (items: seq<Item>)
  {
    var sorted := SortDescending(PendingItems(inbox, order), EARLIER);
    sorted[..MinI(|sorted|, batch)]
  }

  function LeaseItems(inbox: Inbox, items: seq<Item>, d: DispatcherId, until: Time): (r: Inbox)
    requires forall i :: 0 <= i < |items| ==> items[i].id in inbox
    ensures r.Keys == inbox.Keys
  {
    if items == [] then inbox
    else LeaseItem(LeaseItems(inbox, items[..|items| - 1], d, until), items[|items| - 1].id, d, until)
  }

  function LeasedInbox(inbox: Inbox, items: seq<Item>, d: DispatcherId, until: Time): Inbox
    requires forall i :: 0 <= i < |items| ==> items[i].id in inbox
  {
    LeaseItems(inbox, items, d, until)
  }

  ghost predicate OwnIds(inbox: Inbox) {
    forall e :: e in inbox ==> inbox[e].id == e
  }

  lemma {:induction false} PendingContents(inbox: Inbox, order: seq<EnvelopeId>)
    requires OwnIds(inbox) && NoDuplicates(order)
    ensures
      var items := PendingItems(inbox, order);
      && NoDuplicates(items)
      && (forall i :: 0 <= i < |items| ==> items[i].id in inbox && inbox[items[i].id] == items[i]
                                           && items[i].state.Pending? && items[i].id in order)
    decreases |order|
  {
    if order != [] {
      var n := |order| - 1;
      PendingContents(inbox, order[..n]);
      assert order == order[..n] + [order[n]];
      assert order[n] !in order[..n];
    }
  }

  lemma {:induction false} PendingComplete(inbox: Inbox, order: seq<EnvelopeId>, e: EnvelopeId)
    requires e in order && e in inbox && inbox[e].state.Pending?
    ensures inbox[e] in PendingItems(inbox, order)
    decreases |order|
  {
    var n := |order| - 1;
    if order[n] == e {
      assert PendingItems(inbox, order)[|PendingItems(inbox, order[..n])|] == inbox[e];
    } else {
      assert e in order[..n];
      PendingComplete(inbox, order[..n], e);
    }
  }

  /** Taking the front of a sorted list leaves nothing earlier behind. */
  lemma FrontIsOldest(ps: seq<Item>, n: nat, i: nat, item: Item)
    requires n <= |SortDescending(ps, EARLIER)| && i < n && item in ps
    requires EARLIER(item, SortDescending(ps, EARLIER)[i])
    ensures item in SortDescending(ps, EARLIER)[..n]
  {
    var sorted := SortDescending(ps, EARLIER);
    SortKeeps(ps, EARLIER);
    SortIsDescending(ps, EARLIER);
    assert item in multiset(sorted);
    var k :| 0 <= k < |sorted| && sorted[k] == item;
    assert k <= i;
    assert sorted[..n][k] == item;
  }

  /** Pending items, all different. */
  ghost predicate Leasable(inbox: Inbox, items: seq<Item>) {
    && (forall i, j :: 0 <= i < j < |items| ==> items[i].id != items[j].id)
    && (forall i :: 0 <= i < |items| ==>
            items[i].id in inbox && inbox[items[i].id] == items[i] && items[i].state.Pending?)
  }

  lemma OldestAreLeasable(inbox: Inbox, order: seq<EnvelopeId>, batch: nat)
    requires OwnIds(inbox) && NoDuplicates(order)
    ensures Leasable(inbox, OldestPending(inbox, order, batch))
  {
    var ps := PendingItems(inbox, order);
    var sorted := SortDescending(ps, EARLIER);
    PendingContents(inbox, order);
    SortKeeps(ps, EARLIER);
    NoDuplicatesReordered(ps, sorted);
    forall i | 0 <= i < |sorted|
      ensures sorted[i].id in inbox && inbox[sorted[i].id] == sorted[i] && sorted[i].state.Pending?
    {
      assert sorted[i] in ps;
    }
  }

  /** A lease takes as many pending items as it asks for and there are, in the order in which they were received, and
      leaves no pending item behind that was received before one it took. */
  lemma OldestArePending(inbox: Inbox, order: seq<EnvelopeId>, batch: nat)
    requires OwnIds(inbox) && Enumerates(order, inbox.Keys)
    ensures
      var items := OldestPending(inbox, order, batch);
      && Leasable(inbox, items) && |items| == MinI(|PendingItems(inbox, order)|, batch)
      && (forall i, j :: 0 <= i < j < |items| ==> items[i].envelope.receivedAt <= items[j].envelope.receivedAt)
      && (forall e, i :: e in inbox && inbox[e].state.Pending? && 0 <= i < |items| && inbox[e] !in items ==>
                           items[i].envelope.receivedAt <= inbox[e].envelope.receivedAt)
  {
    var ps, items := PendingItems(inbox, order), OldestPending(inbox, order, batch);
    OldestAreLeasable(inbox, order, batch);
    SortKeeps(ps, EARLIER);
    SortIsDescending(ps, EARLIER);
    forall e, i | e in inbox && inbox[e].state.Pending? && 0 <= i < |items| && inbox[e] !in items
      ensures items[i].envelope.receivedAt <= inbox[e].envelope.receivedAt
    {
      PendingComplete(inbox, order, e);
      if EARLIER(inbox[e], items[i]) {
        FrontIsOldest(ps, |items|, i, inbox[e]);
      }
    }
  }

  class InMemoryExecutionResultInbox {
    var items: Inbox
    var nextId: EnvelopeId

    constructor ()
      ensures Valid() && items == map[]
    {
      items, nextId := map[], 0;
    }

    /** Envelope ids are never used twice. */
    ghost predicate Valid()
      reads this
    {
      OwnIds(items) && forall e :: e in items ==> e < nextId
    }

    method AppendEnvelope(envelope: Envelope) returns (id: EnvelopeId)
      requires Valid()
      modifies this
      ensures Valid() && id == old(nextId) && nextId == id + 1
      ensures id !in old(items) && items == Append(old(items), id, envelope)
    {
      id := nextId;
      items := items[id := Item(id, envelope, Pending, None, None)];
      nextId := nextId + 1;
    }

    method LeaseOldest(d: DispatcherId, batch: nat, now: Time, visibility: int, order: seq<EnvelopeId>)
      returns (leased: seq<Item>)
      requires Valid() && Enumerates(order, items.Keys)
      modifies this`items
      ensures Valid() && leased == OldestPending(old(items), order, batch)
      ensures forall i :: 0 <= i < |leased| ==> leased[i].id in old(items)
      ensures items == LeasedInbox(old(items), leased, d, now + visibility)
    {
      var pending := CollectPending(order);
      var sorted := SortDescending(pending, EARLIER);
      leased := sorted[..MinI(|sorted|, batch)];
      OldestAreLeasable(items, order, batch);
      LeaseChosen(leased, d, now + visibility);
    }

    method CollectPending(order: seq<EnvelopeId>) returns (pending: seq<Item>)
      requires forall e :: e in order ==> e in items
      ensures pending == PendingItems(items, order)
    {
      pending := [];
      for i := 0 to |order|
        invariant pending == PendingItems(items, order[..i])
      {
        assert order[..i + 1][..i] == order[..i];
        if items[order[i]].state.Pending? {
          pending := pending + [items[order[i]]];
        }
      }
      assert order[..|order|] == order;
    }

    method LeaseChosen(chosen: seq<Item>, d: DispatcherId, until: Time)
      requires Valid() && forall i, j :: 0 <= i < j < |chosen| ==> chosen[i].id != chosen[j].id
      requires forall i :: 0 <= i < |chosen| ==> chosen[i].id in items && items[chosen[i].id] == chosen[i]
      modifies this`items
      ensures Valid() && forall i :: 0 <= i < |chosen| ==> chosen[i].id in old(items)
      ensures items == LeasedInbox(old(items), chosen, d, until)
    {
      ghost var before := items;
      for i := 0 to |chosen|
        invariant Valid()
        invariant items == LeaseItems(before, chosen[..i], d, until)
        invariant forall k :: i <= k < |chosen| ==> items[chosen[k].id] == chosen[k]
      {
        assert chosen[..i + 1][..i] == chosen[..i];
        items := items[chosen[i].id := chosen[i].(state := ItemLeased, leasedBy := Some(d), leaseUntil := Some(until))];
      }
      assert chosen[..|chosen|] == chosen;
    }

    method Ack(e: EnvelopeId, d: DispatcherId) returns (ok: bool)
      requires Valid()
      modifies this`items
      ensures Valid() && ok == HoldsItem(old(items), e, d) && items == AckItem(old(items), e, d)
    {
      if e !in items {
        return false;
      }
      if !items[e].state.ItemLeased? || items[e].leasedBy != Some(d) {
        return false;
      }
      items := items[e := items[e].(state := Processed)];
      return true;
    }

    method ReclaimExpired(now: Time, order: seq<EnvelopeId>) returns (count: nat)
      requires Valid() && Enumerates(order, items.Keys)
      modifies this`items
      ensures Valid() && items == ReclaimItems(old(items), order, now)
    {
      count := 0;
      ghost var before := items;
      for i := 0 to |order|
        invariant Valid() && items == ReclaimItems(before, order[..i], now)
      {
        assert order[..i + 1][..i] == order[..i];
        var item := items[order[i]];
        if item.state.ItemLeased? && item.leaseUntil.Some? && item.leaseUntil.value < now {
          items := items[order[i] := item.(state := Pending, leasedBy := None, leaseUntil := None)];
          count := count + 1;
        }
      }
      assert order[..|order|] == order;
    }
  }
}
