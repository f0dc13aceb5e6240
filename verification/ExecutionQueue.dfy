/** The execution queue: leases, releases, dead letters and their replay. */
module ExecutionQueue {
  import opened Base
  import opened Budget
  import opened StableSort

  type JobId = Id
  type IntentId = Id
  type WorkerId = Id

  datatype JobState = Queued | Leased | Completed | DeadLettered

  datatype DlqState = AwaitingManualAction | Terminal | Replayed | Resolved

  /** A job record. `reservation` is None for an empty delta dictionary. */
  datatype Job = Job(
    id: JobId, intent: IntentId, domain: string, reservation: Option<Delta>,
    state: JobState, priority: real, availableAt: Time, createdAt: Time,
    leasedBy: Option<WorkerId>, leaseUntil: Option<Time>,
    attempts: int, maxAttempts: int, version: int, parent: Option<JobId>, dlqState: Option<DlqState>)

  datatype Queue = Queue(jobs: map<JobId, Job>, index: map<IntentId, JobId>)

  function NewJob(id: JobId, intent: IntentId, domain: string, reservation: Option<Delta>, priority: real,
                  maxAttempts: int, now: Time): Job
  {
    Job(id, intent, domain, reservation, Queued, priority, now, now, None, None, 0, maxAttempts, 1, None, None)
  }

  predicate Active(job: Job) {
    job.state.Queued? || job.state.Leased?
  }

  predicate Ended(job: Job) {
    job.state.Completed? || job.state.DeadLettered?
  }

  // ---------------------------------------------------------------- operations

  function Enqueue(q: Queue, job: Job): (Queue, JobId) {
    if job.intent in q.index then (q, q.index[job.intent])
    else (Queue(q.jobs[job.id := job], q.index[job.intent := job.id]), job.id)
  }

  predicate Available(q: Queue, j: JobId, now: Time) {
    j in q.jobs && q.jobs[j].state.Queued? && q.jobs[j].availableAt <= now
  }

  function LeaseJob(q: Queue, j: JobId, w: WorkerId, until: Time): Queue
    requires j in q.jobs
  {
    q.(jobs := q.jobs[j := q.jobs[j].(state := Leased, leasedBy := Some(w), leaseUntil := Some(until),
                                      attempts := q.jobs[j].attempts + 1)])
  }

  /** The guard of every operation on a leased job. */
  predicate Holds(q: Queue, j: JobId, w: WorkerId) {
    j in q.jobs && q.jobs[j].state.Leased? && q.jobs[j].leasedBy == Some(w)
  }

  function Heartbeat(q: Queue, j: JobId, w: WorkerId, until: Time): Queue {
    if Holds(q, j, w) then q.(jobs := q.jobs[j := q.jobs[j].(leaseUntil := Some(until))]) else q
  }

  function AckSuccess(q: Queue, j: JobId, w: WorkerId): Queue {
    if Holds(q, j, w)
    then q.(jobs := q.jobs[j := q.jobs[j].(state := Completed, leasedBy := None, leaseUntil := None)])
    else q
  }

  function Release(q: Queue, j: JobId, w: WorkerId, availableAt: Time, decrement: bool): Queue {
    if Holds(q, j, w)
    then
      var attempts := q.jobs[j].attempts;
      q.(jobs := q.jobs[j := q.jobs[j].(state := Queued, leasedBy := None, leaseUntil := None,
                                        availableAt := availableAt,
                                        attempts := if decrement && attempts > 0 then attempts - 1 else attempts)])
    else q
  }

  function MoveToDlq(q: Queue, j: JobId, w: WorkerId, dlqState: DlqState): Queue {
    if Holds(q, j, w)
    then q.(jobs := q.jobs[j := q.jobs[j].(state := DeadLettered, dlqState := Some(dlqState),
                                           leasedBy := None, leaseUntil := None)])
    else q
  }

  predicate Expired(job: Job, now: Time) {
    job.state.Leased? && job.leaseUntil.Some? && job.leaseUntil.value < now
  }

  function Reclaimed(job: Job, now: Time): Job {
    job.(state := Queued, leasedBy := None, leaseUntil := None, availableAt := now)
  }

  function ReclaimJob(q: Queue, j: JobId, now: Time): Queue {
    if j in q.jobs && Expired(q.jobs[j], now) then q.(jobs := q.jobs[j := Reclaimed(q.jobs[j], now)]) else q
  }

  /** The job a dead letter's intent is already being retried by, if there is one. */
  function OtherActive(q: Queue, j: JobId): Option<JobId>
    requires j in q.jobs
  {
    var intent := q.jobs[j].intent;
    if intent in q.index && q.index[intent] in q.jobs && q.jobs[q.index[intent]].id != j
       && Active(q.jobs[q.index[intent]])
    then Some(q.index[intent]) else None
  }

  function ReplayJob(original: Job, newId: JobId, now: Time): Job {
    NewJob(newId, original.intent, original.domain, original.reservation, original.priority, original.maxAttempts, now)
    .(version := original.version + 1, parent := Some(original.id))
  }

  /** `newId` is the id a replay job would get. */
  function ReplayDlq(q: Queue, j: JobId, newId: JobId, now: Time): (Queue, Option<JobId>) {
    if j !in q.jobs || !q.jobs[j].state.DeadLettered? then (q, None)
    else if OtherActive(q, j).Some? then (q, OtherActive(q, j))
    else
      var original := q.jobs[j];
      (Queue(q.jobs[j := original.(dlqState := Some(Replayed))][newId := ReplayJob(original, newId, now)],
             q.index[original.intent := newId]),
       Some(newId))
  }

  function ResolveDlq(q: Queue, j: JobId, dlqState: DlqState): Queue {
    if (dlqState.Terminal? || dlqState.Resolved?) && j in q.jobs && q.jobs[j].state.DeadLettered?
    then q.(jobs := q.jobs[j := q.jobs[j].(dlqState := Some(dlqState))])
    else q
  }

  // ---------------------------------------------------------------- one active job per intent

  ghost predicate Indexed(q: Queue) {
    && (forall j :: j in q.jobs ==> q.jobs[j].id == j && q.jobs[j].intent in q.index)
    && (forall i :: i in q.index ==> q.index[i] in q.jobs && q.jobs[q.index[i]].intent == i)
  }

  ghost predicate OneActive(q: Queue) {
    forall j :: j in q.jobs && Active(q.jobs[j]) ==> q.jobs[j].intent in q.index && q.index[q.jobs[j].intent] == j
  }

  ghost predicate HasParent(q: Queue, job: Job) {
    && job.parent.Some? && job.parent.value in q.jobs
    && var p := q.jobs[job.parent.value];
       p.state.DeadLettered? && p.intent == job.intent && p.version == job.version - 1
  }

  ghost predicate Lineage(q: Queue) {
    forall j :: j in q.jobs ==>
                  && q.jobs[j].version >= 1
                  && (if q.jobs[j].version == 1 then q.jobs[j].parent.None? else HasParent(q, q.jobs[j]))
  }

  ghost predicate Sound(q: Queue) {
    Indexed(q) && OneActive(q) && Lineage(q)
  }

  /** Two active jobs never share an intent. */
  lemma ActiveJobIsUnique(q: Queue, a: JobId, b: JobId)
    requires Sound(q) && a in q.jobs && b in q.jobs
    requires Active(q.jobs[a]) && Active(q.jobs[b]) && q.jobs[a].intent == q.jobs[b].intent
    ensures a == b
  {
  }

  /** Every update other than adding a job: the job keeps its identity and never leaves an end state. */
  ghost predicate Moves(before: Job, after: Job) {
    && after.id == before.id && after.intent == before.intent && after.reservation == before.reservation
    && after.version == before.version && after.parent == before.parent
    && (Ended(before) ==> after.state == before.state)
  }

  lemma MoveKeepsLineage(q: Queue, j: JobId, after: Job)
    requires Lineage(q) && j in q.jobs && Moves(q.jobs[j], after)
    ensures Lineage(q.(jobs := q.jobs[j := after]))
  {
    var r := q.(jobs := q.jobs[j := after]);
    forall k | k in r.jobs
      ensures r.jobs[k].version >= 1
      ensures if r.jobs[k].version == 1 then r.jobs[k].parent.None? else HasParent(r, r.jobs[k])
    {
      var before := q.jobs[k];
      assert r.jobs[k].parent == before.parent && r.jobs[k].version == before.version
             && r.jobs[k].intent == before.intent;
      if before.version != 1 {
        assert HasParent(q, before);
        var p := before.parent.value;
        assert r.jobs[p].state == q.jobs[p].state && r.jobs[p].version == q.jobs[p].version;
      }
    }
  }

  lemma MoveKeepsSound(q: Queue, j: JobId, after: Job)
    requires Sound(q) && j in q.jobs && Moves(q.jobs[j], after)
    ensures Sound(q.(jobs := q.jobs[j := after]))
  {
    MoveKeepsLineage(q, j, after);
    MoveKeepsIndex(q, j, after);
  }

  lemma MoveKeepsIndex(q: Queue, j: JobId, after: Job)
    requires Indexed(q) && OneActive(q) && j in q.jobs && Moves(q.jobs[j], after)
    ensures
      var r := q.(jobs := q.jobs[j := after]);
      Indexed(r) && OneActive(r)
  {
    assert Active(after) ==> Active(q.jobs[j]);
  }

  lemma AddKeepsLineage(q: Queue, job: Job)
    requires Lineage(q) && job.id !in q.jobs && job.version >= 1
    requires if job.version == 1 then job.parent.None? else HasParent(q, job)
    ensures Lineage(Queue(q.jobs[job.id := job], q.index[job.intent := job.id]))
  {
    var r := Queue(q.jobs[job.id := job], q.index[job.intent := job.id]);
    forall k | k in r.jobs
      ensures r.jobs[k].version >= 1
      ensures if r.jobs[k].version == 1 then r.jobs[k].parent.None? else HasParent(r, r.jobs[k])
    {
      if k != job.id && q.jobs[k].version != 1 {
        assert HasParent(q, q.jobs[k]);
      }
    }
  }

  /** A new job may take over the index entry of its intent when no job of that intent is active. */
  lemma AddKeepsSound(q: Queue, job: Job)
    requires Sound(q) && job.id !in q.jobs && job.version >= 1
    requires if job.version == 1 then job.parent.None? else HasParent(q, job)
    requires forall k :: k in q.jobs && Active(q.jobs[k]) ==> q.jobs[k].intent != job.intent
    ensures Sound(Queue(q.jobs[job.id := job], q.index[job.intent := job.id]))
  {
    AddKeepsLineage(q, job);
  }

  lemma EnqueueKeepsSound(q: Queue, job: Job)
    requires Sound(q) && job.id !in q.jobs
    requires job.state.Queued? && job.version == 1 && job.parent.None?
    ensures Sound(Enqueue(q, job).0)
  {
    if job.intent !in q.index {
      AddKeepsSound(q, job);
    }
  }

  lemma ReplayKeepsSound(q: Queue, j: JobId, newId: JobId, now: Time)
    requires Sound(q) && newId !in q.jobs
    ensures Sound(ReplayDlq(q, j, newId, now).0)
  {
    if j in q.jobs && q.jobs[j].state.DeadLettered? && OtherActive(q, j).None? {
      var original := q.jobs[j];
      var marked := q.(jobs := q.jobs[j := original.(dlqState := Some(Replayed))]);
      MoveKeepsSound(q, j, marked.jobs[j]);
      var replay := ReplayJob(original, newId, now);
      assert HasParent(marked, replay);
      assert forall k :: k in marked.jobs && Active(marked.jobs[k]) ==> k in q.jobs && Active(q.jobs[k]);
      AddKeepsSound(marked, replay);
    }
  }

  /** The dead letters a job descends from, nearest first. */
  ghost function Ancestors(q: Queue, j: JobId): seq<JobId>
    requires Sound(q) && j in q.jobs
    decreases q.jobs[j].version
  {
    if q.jobs[j].parent.None? then [] else [q.jobs[j].parent.value] + Ancestors(q, q.jobs[j].parent.value)
  }

  /** Parent chains end: a job of version v descends from v - 1 dead letters of the same intent, all different. */
  lemma {:induction false} AncestryIsFinite(q: Queue, j: JobId)
    requires Sound(q) && j in q.jobs
    ensures |Ancestors(q, j)| == q.jobs[j].version - 1
    ensures forall i :: 0 <= i < |Ancestors(q, j)| ==>
                          var a := Ancestors(q, j)[i];
                          && a in q.jobs && q.jobs[a].state.DeadLettered? && q.jobs[a].intent == q.jobs[j].intent
                          && q.jobs[a].version == q.jobs[j].version - 1 - i
    ensures NoDuplicates(Ancestors(q, j))
    decreases q.jobs[j].version
  {
    if q.jobs[j].parent.Some? {
      AncestryIsFinite(q, q.jobs[j].parent.value);
    }
  }

  // ---------------------------------------------------------------- leasing a batch

  /** Higher priority first, then older. */
  const BEFORE: (Job, Job) -> bool := (a: Job, b: Job) =>
    a.priority > b.priority || (a.priority == b.priority && a.createdAt < b.createdAt)

  function Candidates(q: Queue, order: seq<JobId>, now: Time): seq<Job> {
    if order == [] then []
    else
      var n := |order| - 1;
      Candidates(q, order[..n], now) + if Available(q, order[n], now) then [q.jobs[order[n]]] else []
  }

  /** Where the slice `[:batch]` ends. */
  function SliceEnd(length: nat, batch: int): (n: nat)
    ensures n <= length
  {
    if batch >= 0 then MinI(length, batch) else MaxI(0, length + batch)
  }

  function ToLease(q: Queue, order: seq<JobId>, batch: int, now: Time): seq<Job> {
    var sorted := SortDescending(Candidates(q, order, now), BEFORE);
    sorted[..SliceEnd(|sorted|, batch)]
  }

  function LeaseAll(q: Queue, jobs: seq<Job>, w: WorkerId, until: Time): (r: Queue)
    requires forall i :: 0 <= i < |jobs| ==> jobs[i].id in q.jobs
    ensures r.jobs.Keys == q.jobs.Keys
  {
    if jobs == [] then q else LeaseJob(LeaseAll(q, jobs[..|jobs| - 1], w, until), jobs[|jobs| - 1].id, w, until)
  }

  function LeasedQueue(q: Queue, jobs: seq<Job>, w: WorkerId, until: Time): Queue
    requires forall i :: 0 <= i < |jobs| ==> jobs[i].id in q.jobs
  {
    LeaseAll(q, jobs, w, until)
  }

  lemma {:induction false} CandidatesContents(q: Queue, order: seq<JobId>, now: Time)
    requires Indexed(q) && NoDuplicates(order)
    ensures
      var cs := Candidates(q, order, now);
      && (forall i :: 0 <= i < |cs| ==> Available(q, cs[i].id, now) && q.jobs[cs[i].id] == cs[i] && cs[i].id in order)
      && (forall j :: j in order && Available(q, j, now) ==> q.jobs[j] in cs)
      && NoDuplicates(cs)
    decreases |order|
  {
    if order != [] {
      var n := |order| - 1;
      CandidatesContents(q, order[..n], now);
      assert order == order[..n] + [order[n]];
      assert order[n] !in order[..n];
    }
  }

  /** Taking the front of a sorted list leaves nothing better behind. */
  lemma FrontIsBest(cs: seq<Job>, n: nat, i: nat, job: Job)
    requires n <= |SortDescending(cs, BEFORE)| && i < n && job in cs
    requires BEFORE(job, SortDescending(cs, BEFORE)[i])
    ensures job in SortDescending(cs, BEFORE)[..n]
  {
    var sorted := SortDescending(cs, BEFORE);
    SortKeeps(cs, BEFORE);
    SortIsDescending(cs, BEFORE);
    assert job in multiset(sorted);
    var k :| 0 <= k < |sorted| && sorted[k] == job;
    assert k <= i;
    assert sorted[..n][k] == job;
  }

  ghost predicate BestOf(q: Queue, taken: seq<Job>, now: Time) {
    && NoDuplicates(taken)
    && (forall i :: 0 <= i < |taken| ==> Available(q, taken[i].id, now) && q.jobs[taken[i].id] == taken[i])
    && (forall j, i :: j in q.jobs && Available(q, j, now) && 0 <= i < |taken| ==>
                         BEFORE(q.jobs[j], taken[i]) ==> q.jobs[j] in taken)
  }

  /** A batch is the best of what is available: different jobs, as many as asked for and there are, and no job
      left behind comes before one that was taken. */
  lemma BatchIsBest(q: Queue, order: seq<JobId>, batch: int, now: Time)
    requires Indexed(q) && Enumerates(order, q.jobs.Keys)
    ensures |ToLease(q, order, batch, now)| == SliceEnd(|Candidates(q, order, now)|, batch)
    ensures BestOf(q, ToLease(q, order, batch, now), now)
  {
    var cs := Candidates(q, order, now);
    CandidatesContents(q, order, now);
    SortKeeps(cs, BEFORE);
    BestOfSorted(q, cs, SliceEnd(|cs|, batch), now);
  }

  lemma BestOfSorted(q: Queue, cs: seq<Job>, n: nat, now: Time)
    requires forall i :: 0 <= i < |cs| ==> Available(q, cs[i].id, now) && q.jobs[cs[i].id] == cs[i]
    requires forall j :: j in q.jobs && Available(q, j, now) ==> q.jobs[j] in cs
    requires NoDuplicates(cs) && n <= |SortDescending(cs, BEFORE)|
    ensures BestOf(q, SortDescending(cs, BEFORE)[..n], now)
  {
    var sorted := SortDescending(cs, BEFORE);
    var taken := sorted[..n];
    SortKeeps(cs, BEFORE);
    NoDuplicatesReordered(cs, sorted);
    forall i | 0 <= i < |taken| ensures Available(q, taken[i].id, now) && q.jobs[taken[i].id] == taken[i] {
      assert sorted[i] in cs;
    }
    forall j, i | j in q.jobs && Available(q, j, now) && 0 <= i < |taken| && BEFORE(q.jobs[j], taken[i])
      ensures q.jobs[j] in taken
    {
      FrontIsBest(cs, n, i, q.jobs[j]);
    }
  }

  lemma BatchIsLeasable(q: Queue, order: seq<JobId>, batch: int, now: Time)
    requires Indexed(q) && Enumerates(order, q.jobs.Keys)
    ensures
      var taken := ToLease(q, order, batch, now);
      NoDuplicates(taken) && forall i :: 0 <= i < |taken| ==> taken[i].id in q.jobs && q.jobs[taken[i].id] == taken[i]
  {
    BatchIsBest(q, order, batch, now);
  }

  lemma DistinctIds(q: Queue, jobs: seq<Job>)
    requires NoDuplicates(jobs) && forall i :: 0 <= i < |jobs| ==> jobs[i].id in q.jobs && q.jobs[jobs[i].id] == jobs[i]
    ensures forall i, j :: 0 <= i < j < |jobs| ==> jobs[i].id != jobs[j].id
  {
  }

  // ---------------------------------------------------------------- reclaiming

  function ReclaimAll(q: Queue, order: seq<JobId>, now: Time): (r: Queue)
    ensures r.jobs.Keys == q.jobs.Keys && r.index == q.index
  {
    if order == [] then q else ReclaimJob(ReclaimAll(q, order[..|order| - 1], now), order[|order| - 1], now)
  }

  lemma {:induction false} ReclaimAllContents(q: Queue, order: seq<JobId>, now: Time)
    ensures
      var r := ReclaimAll(q, order, now);
      forall j :: j in q.jobs ==>
        r.jobs[j] == if j in order && Expired(q.jobs[j], now) then Reclaimed(q.jobs[j], now) else q.jobs[j]
    decreases |order|
  {
    if order != [] {
      var n := |order| - 1;
      ReclaimAllContents(q, order[..n], now);
      assert order == order[..n] + [order[n]];
    }
  }

  // ---------------------------------------------------------------- the mutable object

  class InMemoryExecutionQueue {
    var jobs: map<JobId, Job>
    var index: map<IntentId, JobId>

    constructor ()
      ensures State() == Queue(map[], map[])
    {
      jobs, index := map[], map[];
    }

    ghost function State(): Queue
      reads this
    {
      Queue(jobs, index)
    }

    method EnqueueJob(job: Job) returns (id: JobId)
      modifies this
      ensures (State(), id) == Enqueue(old(State()), job)
    {
      if job.intent in index {
        return index[job.intent];
      }
      jobs := jobs[job.id := job];
      index := index[job.intent := job.id];
      return job.id;
    }

    /** Lease up to `batch` available jobs, best first. */
    method LeaseBatch(w: WorkerId, batch: int, now: Time, visibility: int, order: seq<JobId>) returns (leased: seq<Job>)
      requires Indexed(State()) && Enumerates(order, jobs.Keys)
      modifies this`jobs
      ensures leased == ToLease(old(State()), order, batch, now)
      ensures forall i :: 0 <= i < |leased| ==> leased[i].id in old(jobs)
      ensures State() == LeasedQueue(old(State()), leased, w, now + visibility)
    {
      leased := ChooseBest(batch, now, order);
      BatchIsLeasable(State(), order, batch, now);
      LeaseChosen(leased, w, now + visibility);
    }

    method ChooseBest(batch: int, now: Time, order: seq<JobId>) returns (chosen: seq<Job>)
      requires forall j :: j in order ==> j in jobs
      ensures chosen == ToLease(State(), order, batch, now)
    {
      var candidates := CollectAvailable(now, order);
      var sorted := SortDescending(candidates, BEFORE);
      chosen := sorted[..SliceEnd(|sorted|, batch)];
    }

    method CollectAvailable(now: Time, order: seq<JobId>) returns (candidates: seq<Job>)
      requires forall j :: j in order ==> j in jobs
      ensures candidates == Candidates(State(), order, now)
    {
      candidates := [];
      for i := 0 to |order|
        invariant candidates == Candidates(State(), order[..i], now)
      {
        assert order[..i + 1][..i] == order[..i];
        var job := jobs[order[i]];
        if job.state.Queued? && job.availableAt <= now {
          candidates := candidates + [job];
        }
      }
      assert order[..|order|] == order;
    }

    method LeaseChosen(chosen: seq<Job>, w: WorkerId, until: Time)
      requires NoDuplicates(chosen)
      requires forall i :: 0 <= i < |chosen| ==> chosen[i].id in jobs && jobs[chosen[i].id] == chosen[i]
      modifies this`jobs
      ensures forall i :: 0 <= i < |chosen| ==> chosen[i].id in old(jobs)
      ensures State() == LeasedQueue(old(State()), chosen, w, until)
    {
      ghost var q := State();
      DistinctIds(q, chosen);
      for i := 0 to |chosen|
        invariant State() == LeaseAll(q, chosen[..i], w, until)
        invariant forall k :: i <= k < |chosen| ==> chosen[k].id in jobs && jobs[chosen[k].id] == chosen[k]
      {
        assert chosen[..i + 1][..i] == chosen[..i];
        var job := chosen[i];
        jobs := jobs[job.id := job.(state := Leased, leasedBy := Some(w), leaseUntil := Some(until),
                                    attempts := job.attempts + 1)];
      }
      assert chosen[..|chosen|] == chosen;
    }

    method ExtendLease(j: JobId, w: WorkerId, now: Time, visibility: int) returns (ok: bool)
      modifies this`jobs
      ensures ok == Holds(old(State()), j, w) && State() == Heartbeat(old(State()), j, w, now + visibility)
    {
      if j !in jobs || !jobs[j].state.Leased? || jobs[j].leasedBy != Some(w) {
        return false;
      }
      jobs := jobs[j := jobs[j].(leaseUntil := Some(now + visibility))];
      return true;
    }

    method Ack(j: JobId, w: WorkerId) returns (ok: bool)
      modifies this`jobs
      ensures ok == Holds(old(State()), j, w) && State() == AckSuccess(old(State()), j, w)
    {
      if j !in jobs || !jobs[j].state.Leased? || jobs[j].leasedBy != Some(w) {
        return false;
      }
      jobs := jobs[j := jobs[j].(state := Completed, leasedBy := None, leaseUntil := None)];
      return true;
    }

    method ReleaseJob(j: JobId, w: WorkerId, availableAt: Time, decrementAttempt: bool) returns (ok: bool)
      modifies this`jobs
      ensures ok == Holds(old(State()), j, w) && State() == Release(old(State()), j, w, availableAt, decrementAttempt)
    {
      if j !in jobs || !jobs[j].state.Leased? || jobs[j].leasedBy != Some(w) {
        return false;
      }
      var job := jobs[j].(state := Queued, leasedBy := None, leaseUntil := None, availableAt := availableAt);
      if decrementAttempt && job.attempts > 0 {
        job := job.(attempts := job.attempts - 1);
      }
      jobs := jobs[j := job];
      return true;
    }

    method DeadLetter(j: JobId, w: WorkerId, dlqState: DlqState) returns (ok: bool)
      modifies this`jobs
      ensures ok == Holds(old(State()), j, w) && State() == MoveToDlq(old(State()), j, w, dlqState)
    {
      if j !in jobs || !jobs[j].state.Leased? || jobs[j].leasedBy != Some(w) {
        return false;
      }
      jobs := jobs[j := jobs[j].(state := DeadLettered, dlqState := Some(dlqState), leasedBy := None,
                                 leaseUntil := None)];
      return true;
    }

    method ReclaimExpired(now: Time, order: seq<JobId>) returns (reclaimed: nat)
      requires Enumerates(order, jobs.Keys)
      modifies this`jobs
      ensures State() == ReclaimAll(old(State()), order, now)
      ensures jobs.Keys == old(jobs.Keys)
      ensures forall j :: j in jobs ==>
                  jobs[j] == if Expired(old(jobs)[j], now) then Reclaimed(old(jobs)[j], now) else old(jobs)[j]
    {
      reclaimed := 0;
      ghost var q := State();
      for i := 0 to |order|
        invariant State() == ReclaimAll(q, order[..i], now)
      {
        assert order[..i + 1][..i] == order[..i];
        var j := order[i];
        if jobs[j].state.Leased? && jobs[j].leaseUntil.Some? && jobs[j].leaseUntil.value < now {
          jobs := jobs[j := jobs[j].(state := Queued, leasedBy := None, leaseUntil := None, availableAt := now)];
          reclaimed := reclaimed + 1;
        }
      }
      assert order[..|order|] == order;
      ReclaimAllContents(q, order, now);
    }

    method ReplayDeadLetter(j: JobId, newId: JobId, now: Time) returns (r: Option<JobId>)
      modifies this
      ensures (State(), r) == ReplayDlq(old(State()), j, newId, now)
    {
      if j !in jobs || !jobs[j].state.DeadLettered? {
        return None;
      }
      var original := jobs[j];
      if original.intent in index && index[original.intent] in jobs {
        var existing := jobs[index[original.intent]];
        if existing.id != j && (existing.state.Queued? || existing.state.Leased?) {
          return Some(index[original.intent]);
        }
      }
      jobs := jobs[j := original.(dlqState := Some(Replayed))];
      jobs := jobs[newId := ReplayJob(original, newId, now)];
      index := index[original.intent := newId];
      return Some(newId);
    }

    method ResolveDeadLetter(j: JobId, dlqState: DlqState) returns (ok: bool)
      modifies this`jobs
      ensures State() == ResolveDlq(old(State()), j, dlqState)
      ensures ok <==> (dlqState.Terminal? || dlqState.Resolved?) && j in old(jobs) && old(jobs)[j].state.DeadLettered?
    {
      if !(dlqState.Terminal? || dlqState.Resolved?) {
        return false;
      }
      if j !in jobs || !jobs[j].state.DeadLettered? {
        return false;
      }
      jobs := jobs[j := jobs[j].(dlqState := Some(dlqState))];
      return true;
    }
  }
}
