/** The lease manager: Assign, Renew, ReapExpired and Release over the leases/byTask pair of maps. */
module Leasing {
  import opened Model
  import opened IndexedHeap
  import opened Queues
  import opened Store

  datatype LeaseMaps = LeaseMaps(leases: map<string, Lease>, byTask: map<string, string>)

  // ---------- what each operation does ----------

  function WithLease(lm: LeaseMaps, l: Lease): LeaseMaps {
    LeaseMaps(lm.leases[l.id := l], lm.byTask[l.taskId := l.id])
  }

  /** Release deletes the task's binding whichever lease it points at. */
  function Released(lm: LeaseMaps, leaseId: string): LeaseMaps {
    if leaseId !in lm.leases then lm
    else LeaseMaps(lm.leases - {leaseId}, lm.byTask - {lm.leases[leaseId].taskId})
  }

  function CurrentLease(lm: LeaseMaps, taskId: string): Option<Lease> {
    if taskId in lm.byTask && lm.byTask[taskId] in lm.leases then Some(lm.leases[lm.byTask[taskId]]) else None
  }

  datatype AssignResult = NoReadyTask | TaskMissing | NoWorker | Assigned(lease: Lease)

  /**
   id is the entry Assign settles on and rest what it leaves queued: the entries
   dropped on the way belong to tasks that are not ready and come no later than
   id, and nothing left comes before id.
   */
  ghost predicate Settles(ts: Tasks, q: Contents, id: string, rest: Contents) {
    && id in q && id !in rest && (id in ts ==> ts[id].state == Ready)
    && (forall k :: k in rest ==> k in q && rest[k] == q[k] && !ReadyLess(q[k], q[id]))
    && (forall k :: k in q && k !in rest && k != id ==> k in ts && ts[k].state != Ready && !ReadyLess(q[id], q[k]))
  }

  /**
   c is what is left of q once some entries of tasks that are not ready are gone, none of them later than what is left.
   */
  ghost predicate Dropped(ts: Tasks, q: Contents, c: Contents) {
    && (forall k :: k in c ==> k in q && c[k] == q[k])
    && (forall k :: k in q && k !in c ==> k in ts && ts[k].state != Ready)
    && (forall k, m :: k in q && k !in c && m in c ==> !ReadyLess(c[m], q[k]))
  }

  lemma NoneDropped(ts: Tasks, q: Contents)
    ensures Dropped(ts, q, q)
  {
  }

  lemma DropForemost(ts: Tasks, q: Contents, c: Contents, id: string)
    requires Dropped(ts, q, c) && Foremost(ReadyLess, c, id)
    ensures id in c && |c - {id}| < |c|
    ensures if id in ts && ts[id].state != Ready then Dropped(ts, q, c - {id}) else Settles(ts, q, id, c - {id})
  {
  }

  /** A failed pick takes the task to leased and back to ready, two versions up, and queues it again. */
  ghost predicate RolledBack(ts: Tasks, q: Contents, ts': Tasks, q': Contents, now: int, id: string) {
    && id in ts
    && ts' == ts[id := ts[id].(version := ts[id].version + 2)]
    && exists rest :: Settles(ts, q, id, rest) && q' == rest[id := Item(id, ts[id].priority, now)]
  }

  lemma RollsBack(ts: Tasks, q: Contents, id: string, rest: Contents, now: int)
    requires id in ts && ts[id].state == Ready && Settles(ts, q, id, rest)
    ensures id !in rest
    ensures var mid := Transitioned(ts, id, Ready, Leased, -1);
      RolledBack(ts, q, Transitioned(mid, id, Leased, Ready, mid[id].version),
        rest[id := Item(id, ts[id].priority, now)], now, id)
  {
    var mid := Transitioned(ts, id, Ready, Leased, -1);
    assert Transitioned(mid, id, Leased, Ready, mid[id].version) == ts[id := ts[id].(version := ts[id].version + 2)];
  }

  lemma AllDropped(ts: Tasks, q: Contents, c: Contents)
    requires Dropped(ts, q, c)
    ensures c == map[] ==> forall k :: k in q ==> k in ts && ts[k].state != Ready
  {
  }

  ghost predicate AssignSpec(ts: Tasks, q: Contents, lm: LeaseMaps, ts': Tasks, q': Contents, lm': LeaseMaps,
                             now: int, ttl: int, worker: Option<string>, leaseId: string, r: AssignResult) {
    match r
    case NoReadyTask =>
      ts' == ts && lm' == lm && q' == map[] && forall k :: k in q ==> k in ts && ts[k].state != Ready
    case TaskMissing =>
      ts' == ts && lm' == lm && exists id :: id !in ts && Settles(ts, q, id, q')
    case NoWorker =>
      worker.None? && lm' == lm && exists id :: RolledBack(ts, q, ts', q', now, id)
    case Assigned(l) =>
      && worker.Some? && l.taskId in ts && Settles(ts, q, l.taskId, q')
      && ts' == ts[l.taskId := Moved(ts[l.taskId], Leased)]
      && l == Lease(leaseId, l.taskId, worker.value, ts'[l.taskId].version, now + ttl)
      && lm' == WithLease(lm, l)
  }

  /**
   No ready task's entry has a higher priority than the one that is leased, nor
   the same priority and an earlier time.
   */
  ghost predicate FirstOfReady(ts: Tasks, q: Contents, id: string) {
    && id in q
    && forall k :: k in q && k in ts && ts[k].state == Ready ==>
         || q[k].priority < q[id].priority
         || (q[k].priority == q[id].priority && q[id].at <= q[k].at)
  }

  lemma SettlesOnFirst(ts: Tasks, q: Contents, id: string, rest: Contents)
    requires Settles(ts, q, id, rest)
    ensures FirstOfReady(ts, q, id)
  {
  }

  /** Some entries are gone: the one for id, and none of another ready task. */
  ghost predicate TakenOff(ts: Tasks, q: Contents, q': Contents, id: string) {
    && id !in q' && (forall k :: k in q' ==> k in q && q'[k] == q[k])
    && forall k :: k in q && k !in q' && k != id ==> k in ts && ts[k].state != Ready
  }

  /** What a grant does, field by field. */
  ghost predicate GrantsLease(ts: Tasks, q: Contents, lm: LeaseMaps, ts': Tasks, q': Contents, lm': LeaseMaps, now: int,
                              ttl: int, worker: Option<string>, leaseId: string, l: Lease) {
    && TakenOff(ts, q, q', l.taskId)
    && l.id == leaseId && worker == Some(l.workerId) && l.deadline == now + ttl
    && l.taskId in ts && FirstOfReady(ts, q, l.taskId)
    && var t := ts[l.taskId];
    && t.state == Ready && l.taskVersion == t.version + 1
    && ts' == ts[l.taskId := t.(state := Leased, version := t.version + 1)]
    && lm'.leases == lm.leases[leaseId := l] && lm'.byTask == lm.byTask[l.taskId := leaseId]
  }

  /** A failed pick leaves the best ready task ready, two versions on and queued as of now. */
  ghost predicate PutsBack(ts: Tasks, q: Contents, ts': Tasks, q': Contents, now: int, id: string) {
    && id in ts && ts[id].state == Ready && FirstOfReady(ts, q, id)
    && ts' == ts[id := ts[id].(version := ts[id].version + 2)]
    && id in q' && q'[id] == Item(id, ts[id].priority, now) && TakenOff(ts, q, q' - {id}, id)
  }

  lemma RollBackPutsBack(ts: Tasks, q: Contents, ts': Tasks, q': Contents, now: int, id: string)
    requires RolledBack(ts, q, ts', q', now, id)
    ensures PutsBack(ts, q, ts', q', now, id)
  {
    hide FirstOfReady;
    var rest :| Settles(ts, q, id, rest) && q' == rest[id := Item(id, ts[id].priority, now)];
    SettlesOnFirst(ts, q, id, rest);
    assert q' - {id} == rest;
  }

  /** What Assign's answer says about the store, the queue and the lease maps, in numbers. */
  ghost predicate AssignSays(ts: Tasks, q: Contents, lm: LeaseMaps, ts': Tasks, q': Contents, lm': LeaseMaps, now: int,
                             ttl: int, worker: Option<string>, leaseId: string, r: AssignResult) {
    match r
    case NoReadyTask =>
      ts' == ts && lm' == lm && q' == map[] && forall k :: k in q ==> k in ts && ts[k].state != Ready
    case TaskMissing =>
      ts' == ts && lm' == lm && exists id :: id in q && id !in ts && TakenOff(ts, q, q', id)
    case NoWorker =>
      worker.None? && lm' == lm && exists id :: PutsBack(ts, q, ts', q', now, id)
    case Assigned(l) =>
      GrantsLease(ts, q, lm, ts', q', lm', now, ttl, worker, leaseId, l)
  }

  lemma SpecSays(ts: Tasks, q: Contents, lm: LeaseMaps, ts': Tasks, q': Contents, lm': LeaseMaps, now: int,
      ttl: int, worker: Option<string>, leaseId: string, r: AssignResult)
    requires AssignSpec(ts, q, lm, ts', q', lm', now, ttl, worker, leaseId, r)
    ensures AssignSays(ts, q, lm, ts', q', lm', now, ttl, worker, leaseId, r)
  {
    hide FirstOfReady, RolledBack, PutsBack;
    match r
    case NoReadyTask =>
    case TaskMissing =>
      var id :| id !in ts && Settles(ts, q, id, q');
      assert TakenOff(ts, q, q', id);
    case NoWorker =>
      var id :| RolledBack(ts, q, ts', q', now, id);
      RollBackPutsBack(ts, q, ts', q', now, id);
    case Assigned(l) =>
      SettlesOnFirst(ts, q, l.taskId, q');
  }

  lemma FindsNothing(ts: Tasks, q: Contents, c: Contents, lm: LeaseMaps, now: int, ttl: int, worker: Option<string>,
      leaseId: string)
    requires Dropped(ts, q, c) && c == map[]
    ensures AssignSpec(ts, q, lm, ts, c, lm, now, ttl, worker, leaseId, NoReadyTask)
  {
    hide Dropped;
    AllDropped(ts, q, c);
  }

  lemma FindsMissing(ts: Tasks, q: Contents, id: string, rest: Contents, lm: LeaseMaps, now: int, ttl: int,
      worker: Option<string>, leaseId: string)
    requires id !in ts && Settles(ts, q, id, rest)
    ensures AssignSpec(ts, q, lm, ts, rest, lm, now, ttl, worker, leaseId, TaskMissing)
  {
    hide Settles;
  }

  datatype RenewResult = Renewed | LeaseNotFound | OtherWorker | TaskGone | Stale

  function RenewOutcome(ts: Tasks, lm: LeaseMaps, leaseId: string, workerId: string): RenewResult {
    if leaseId !in lm.leases then LeaseNotFound
    else
      var l := lm.leases[leaseId];
      if l.workerId != workerId then OtherWorker
      else if l.taskId !in ts then TaskGone
      else if ts[l.taskId].version != l.taskVersion then Stale
      else Renewed
  }

  function RenewedMaps(ts: Tasks, lm: LeaseMaps, leaseId: string, workerId: string, deadline: int): LeaseMaps {
    match RenewOutcome(ts, lm, leaseId, workerId)
    case Renewed => lm.(leases := lm.leases[leaseId := lm.leases[leaseId].(deadline := deadline)])
    case Stale => Released(lm, leaseId)
    case _ => lm
  }

  predicate Expired(l: Lease, now: int) {
    l.deadline < now
  }

  function Late(lm: LeaseMaps, now: int): set<string> {
    set id | id in lm.leases && Expired(lm.leases[id], now)
  }

  function TasksOf(leases: map<string, Lease>, ids: set<string>): set<string> {
    set id | id in ids && id in leases :: leases[id].taskId
  }

  /** The leases that survive a reap, and the bindings of tasks that lost none. */
  function Unexpired(lm: LeaseMaps, now: int): LeaseMaps {
    LeaseMaps(lm.leases - Late(lm, now), lm.byTask - TasksOf(lm.leases, Late(lm, now)))
  }

  /** The task is still leased at the version of the lease. */
  predicate Holds(ts: Tasks, l: Lease) {
    l.taskId in ts && ts[l.taskId].state == Leased && ts[l.taskId].version == l.taskVersion
  }

  /** The tasks that a list of expired leases gives back. */
  function Given(ts: Tasks, expired: seq<Lease>): (ids: set<string>)
    ensures forall id :: id in ids ==> id in ts && ts[id].state == Leased
  {
    if expired == [] then {}
    else
      var l := expired[|expired| - 1];
      Given(ts, expired[..|expired| - 1]) + (if Holds(ts, l) then {l.taskId} else {})
  }

  /** Some lease is past its deadline and its task is still leased at its version. */
  ghost predicate HeldLate(ts: Tasks, leases: map<string, Lease>, now: int, id: string) {
    && id in ts && ts[id].state == Leased
    && exists k :: k in leases && leases[k].deadline < now && leases[k].taskId == id
                   && leases[k].taskVersion == ts[id].version
  }

  /** What a reap does to one lease, one binding and one task, in numbers. */
  ghost predicate ReapsOne(ts: Tasks, q: Contents, lm: LeaseMaps, ts': Tasks, q': Contents, lm': LeaseMaps, now: int,
                        id: string) {
    && (id in lm'.leases <==> id in lm.leases && lm.leases[id].deadline >= now)
    && (id in lm'.leases ==> lm'.leases[id] == lm.leases[id])
    && (id in lm'.byTask <==>
          id in lm.byTask && forall k :: k in lm.leases && lm.leases[k].deadline < now ==> lm.leases[k].taskId != id)
    && (id in lm'.byTask ==> lm'.byTask[id] == lm.byTask[id])
    && (id in ts' <==> id in ts)
    && (id in ts ==>
          var t := ts[id];
          ts'[id] == if HeldLate(ts, lm.leases, now, id) then t.(state := Ready, version := t.version + 1) else t)
    && (id in q' <==> id in q || HeldLate(ts, lm.leases, now, id))
    && (id in q' ==> q'[id] == if id in q then q[id] else Item(id, ts[id].priority, now))
  }

  lemma ReapSays(ts: Tasks, q: Contents, lm: LeaseMaps, now: int, id: string)
    ensures var ids := Reapable(ts, lm, now);
      && (id in ids <==> HeldLate(ts, lm.leases, now, id))
      && ReapsOne(ts, q, lm, ReadyAgain(ts, ids), Enqueued(ts, q, ids, now), Unexpired(lm, now), now, id)
  {
    hide HeldLate;
    ReapableSays(ts, lm, now, id);
    UnboundSays(lm, now, id);
  }

  lemma ReapableSays(ts: Tasks, lm: LeaseMaps, now: int, id: string)
    ensures id in Reapable(ts, lm, now) <==> HeldLate(ts, lm.leases, now, id)
    ensures id in Reapable(ts, lm, now) ==> id in ts
  {
    if HeldLate(ts, lm.leases, now, id) {
      var k :| k in lm.leases && lm.leases[k].deadline < now && lm.leases[k].taskId == id
        && lm.leases[k].taskVersion == ts[id].version;
      assert k in Late(lm, now) && Holds(ts, lm.leases[k]);
    }
  }

  lemma UnboundSays(lm: LeaseMaps, now: int, id: string)
    ensures id in TasksOf(lm.leases, Late(lm, now)) <==>
        exists k :: k in lm.leases && lm.leases[k].deadline < now && lm.leases[k].taskId == id
  {
    if k :| k in lm.leases && lm.leases[k].deadline < now && lm.leases[k].taskId == id {
      assert k in Late(lm, now);
    }
  }

  /** The tasks a reap takes back. */
  function Reapable(ts: Tasks, lm: LeaseMaps, now: int): set<string> {
    set id | id in Late(lm, now) && Holds(ts, lm.leases[id]) :: lm.leases[id].taskId
  }

  function ReadyAgain(ts: Tasks, ids: set<string>): Tasks {
    map id | id in ts :: if id in ids then Moved(ts[id], Ready) else ts[id]
  }

  /** expired holds the leases of ids in some order. */
  ghost predicate ListsLeases(leases: map<string, Lease>, ids: set<string>, expired: seq<Lease>) {
    && (forall id :: id in ids ==> id in leases && leases[id] in expired)
    && (forall i :: 0 <= i < |expired| ==> exists id :: id in ids && id in leases && leases[id] == expired[i])
  }

  lemma ListsOneMore(leases: map<string, Lease>, ids: set<string>, expired: seq<Lease>, id: string)
    requires ListsLeases(leases, ids, expired) && id in leases
    ensures ListsLeases(leases, ids + {id}, expired + [leases[id]])
    ensures TasksOf(leases, ids + {id}) == TasksOf(leases, ids) + {leases[id].taskId}
  {
    var more := expired + [leases[id]];
    assert more[|expired|] == leases[id];
    forall i | 0 <= i < |more| ensures exists k :: k in ids + {id} && k in leases && leases[k] == more[i] {
      if i < |expired| {
        var k :| k in ids && k in leases && leases[k] == expired[i];
        assert k in ids + {id} && leases[k] == more[i];
      } else {
        assert id in ids + {id} && leases[id] == more[i];
      }
    }
  }

  lemma {:induction false} GivenHas(ts: Tasks, expired: seq<Lease>, t: string)
    ensures t in Given(ts, expired) <==>
        exists i :: 0 <= i < |expired| && Holds(ts, expired[i]) && expired[i].taskId == t
  {
    if expired != [] {
      var front := expired[..|expired| - 1];
      GivenHas(ts, front, t);
      forall i | 0 <= i < |front| ensures front[i] == expired[i] {
      }
      if t in Given(ts, front) {
        var i :| 0 <= i < |front| && Holds(ts, front[i]) && front[i].taskId == t;
        assert Holds(ts, expired[i]);
      }
    }
  }

  /** Whatever order the expired leases come in, the tasks given back are the reapable ones. */
  lemma GivenIsReapable(ts: Tasks, lm: LeaseMaps, now: int, expired: seq<Lease>)
    requires ListsLeases(lm.leases, Late(lm, now), expired)
    ensures Given(ts, expired) == Reapable(ts, lm, now)
  {
    forall t ensures t in Given(ts, expired) <==> t in Reapable(ts, lm, now) {
      GivenHas(ts, expired, t);
      if t in Reapable(ts, lm, now) {
        var id :| id in Late(lm, now) && Holds(ts, lm.leases[id]) && lm.leases[id].taskId == t;
        var i :| 0 <= i < |expired| && expired[i] == lm.leases[id];
        assert Holds(ts, expired[i]);
      }
    }
  }

  lemma NoneListed(leases: map<string, Lease>)
    ensures ListsLeases(leases, {}, []) && TasksOf(leases, {}) == {}
  {
  }

  /** The tasks and the ready queue once the tasks in ids have been given back. */
  ghost predicate GivenBack(ts: Tasks, q: Contents, ids: set<string>, now: int, ts': Tasks, q': Contents) {
    ts' == ReadyAgain(ts, ids) && q' == Enqueued(ts, q, ids, now)
  }

  lemma NoneGivenBack(ts: Tasks, q: Contents, now: int)
    ensures GivenBack(ts, q, {}, now, ts, q)
  {
  }

  /** Whether an expired lease still holds its task can be read off the store as it is by then. */
  lemma GiveOneBack(ts: Tasks, q: Contents, ids: set<string>, now: int, mid: Tasks, c: Contents, l: Lease)
    requires forall id :: id in ids ==> id in ts && ts[id].state == Leased
    requires GivenBack(ts, q, ids, now, mid, c)
    ensures if Holds(mid, l) then
              && Holds(ts, l) && l.taskId !in ids
              && GivenBack(ts, q, ids + {l.taskId}, now, mid[l.taskId := Moved(mid[l.taskId], Ready)],
                           Added(c, Item(l.taskId, mid[l.taskId].priority, now)))
            else Holds(ts, l) ==> ids + {l.taskId} == ids
  {
    if Holds(mid, l) {
      assert ReadyAgain(ts, ids + {l.taskId}) == mid[l.taskId := Moved(mid[l.taskId], Ready)];
    }
  }

  class LeaseManager {
    const store: TaskStore
    const ready: ReadyQueue
    const metrics: Metrics
    const ttl: int
    var leases: map<string, Lease>
    var byTask: map<string, string>

    constructor (store: TaskStore, ready: ReadyQueue, metrics: Metrics, ttl: int)
      ensures this.store == store && this.ready == ready && this.metrics == metrics && this.ttl == ttl
      ensures leases == map[] && byTask == map[]
    {
      this.store, this.ready, this.metrics, this.ttl := store, ready, metrics, ttl;
      leases, byTask := map[], map[];
    }

    ghost function Maps(): LeaseMaps
      reads this
    {
      LeaseMaps(leases, byTask)
    }

    ghost predicate Valid()
      reads this, store, ready, ready.heap
    {
      store.Valid() && ready.Valid() && PendingIndexed(store.tasks, store.byTime)
    }

    /** The pick and the lease id are the picker's and the generator's answers, should they be asked. */
    method Assign(now: int, worker: Option<string>, leaseId: string) returns (r: AssignResult)
      requires Valid()
      modifies this, store, ready, ready.heap
      ensures Valid()
      ensures AssignSpec(old(store.tasks), old(ready.Contents), old(Maps()), store.tasks, ready.Contents, Maps(),
                         now, ttl, worker, leaseId, r)
      ensures AssignSays(old(store.tasks), old(ready.Contents), old(Maps()), store.tasks, ready.Contents, Maps(),
                         now, ttl, worker, leaseId, r)
    {
      hide ReadyQueue.Valid, TaskStore.Valid, PendingIndexed, Dropped, Foremost, Settles, AssignSpec, ReadyLess,
        Represents, Consistent, Maps, AssignSays;
      ghost var ts, q := store.tasks, ready.Contents;
      NoneDropped(ts, q);
      while true
        invariant Valid() && store.tasks == ts && Maps() == old(Maps()) && Dropped(ts, q, ready.Contents)
        decreases |ready.Contents|
      {
        ghost var c := ready.Contents;
        var entry := ready.Pop();
        if entry.None? {
          FindsNothing(ts, q, c, Maps(), now, ttl, worker, leaseId);
          SpecSays(ts, q, Maps(), ts, c, Maps(), now, ttl, worker, leaseId, NoReadyTask);
          return NoReadyTask;
        }
        var id := entry.value.item.taskId;
        DropForemost(ts, q, c, id);
        var moved := store.Transition(id, Ready, Leased, -1);
        if moved.Missing? {
          FindsMissing(ts, q, id, ready.Contents, Maps(), now, ttl, worker, leaseId);
          SpecSays(ts, q, Maps(), ts, ready.Contents, Maps(), now, ttl, worker, leaseId, TaskMissing);
          return TaskMissing;
        }
        if moved.Refused? {
          continue;
        }
        r := Hand(moved.task, now, worker, leaseId, ts, q);
        SpecSays(ts, q, old(Maps()), store.tasks, ready.Contents, Maps(), now, ttl, worker, leaseId, r);
        return;
      }
    }

    /** What Assign does with the task it has just moved to leased. */
    method Hand(t: Task, now: int, worker: Option<string>, leaseId: string, ghost ts: Tasks, ghost q: Contents)
      returns (r: AssignResult)
      requires Valid() && t.id in ts && t == Moved(ts[t.id], Leased) && store.tasks == ts[t.id := t]
      requires ts[t.id].state == Ready && Settles(ts, q, t.id, ready.Contents)
      modifies this, store, ready, ready.heap
      ensures Valid()
      ensures AssignSpec(ts, q, old(Maps()), store.tasks, ready.Contents, Maps(), now, ttl, worker, leaseId, r)
    {
      hide ReadyQueue.Valid, TaskStore.Valid, PendingIndexed, Settles, RolledBack;
      if worker.None? {
        PutBack(t, now, ts, q);
        return NoWorker;
      }
      var lease := Lease(leaseId, t.id, worker.value, t.version, now + ttl);
      leases := leases[lease.id := lease];
      byTask := byTask[t.id := lease.id];
      return Assigned(lease);
    }

    /** Assign's rollback when no worker is found. */
    method PutBack(t: Task, now: int, ghost ts: Tasks, ghost q: Contents)
      requires Valid() && t.id in ts && t == Moved(ts[t.id], Leased) && store.tasks == ts[t.id := t]
      requires ts[t.id].state == Ready && Settles(ts, q, t.id, ready.Contents)
      modifies store, ready, ready.heap
      ensures Valid() && RolledBack(ts, q, store.tasks, ready.Contents, now, t.id)
    {
      hide ReadyQueue.Valid, TaskStore.Valid, PendingIndexed, Settles, RolledBack;
      ghost var rest := ready.Contents;
      RollsBack(ts, q, t.id, rest, now);
      var _ := store.Transition(t.id, Leased, Ready, t.version);
      var _ := ready.Push(t.id, t.priority, now);
    }

    /** Extends a lease that is still its task's; a stale one is dropped. */
    method Renew(leaseId: string, workerId: string, now: int) returns (r: RenewResult)
      requires store.Valid()
      modifies this
      ensures r == RenewOutcome(store.tasks, old(Maps()), leaseId, workerId)
      ensures Maps() == RenewedMaps(store.tasks, old(Maps()), leaseId, workerId, now + ttl)
      ensures r.Renewed? || r.Stale? <==>
        leaseId in old(leases) && old(leases)[leaseId].workerId == workerId
          && old(leases)[leaseId].taskId in store.tasks
      ensures r.Renewed? || r.Stale? ==>
        var l := old(leases)[leaseId];
        && (r.Renewed? <==> store.tasks[l.taskId].version == l.taskVersion)
        && leases == (if r.Renewed? then old(leases)[leaseId := l.(deadline := now + ttl)] else old(leases) - {leaseId})
        && byTask == if r.Renewed? then old(byTask) else old(byTask) - {l.taskId}
      ensures r.LeaseNotFound? <==> leaseId !in old(leases)
      ensures r.OtherWorker? <==> leaseId in old(leases) && old(leases)[leaseId].workerId != workerId
      ensures !r.Renewed? && !r.Stale? ==> leases == old(leases) && byTask == old(byTask)
    {
      if leaseId !in leases {
        return LeaseNotFound;
      }
      var lease := leases[leaseId];
      if lease.workerId != workerId {
        return OtherWorker;
      }
      var task := store.Get(lease.taskId);
      if task.None? {
        return TaskGone;
      }
      if task.value.version != lease.taskVersion {
        leases := leases - {leaseId};
        byTask := byTask - {task.value.id};
        return Stale;
      }
      leases := leases[leaseId := lease.(deadline := now + ttl)];
      return Renewed;
    }

    method Current(taskId: string) returns (l: Option<Lease>)
      ensures l == CurrentLease(Maps(), taskId)
      ensures l.Some? <==> taskId in byTask && byTask[taskId] in leases
      ensures l.Some? ==> l.value == leases[byTask[taskId]]
    {
      if taskId !in byTask {
        return None;
      }
      var leaseId := byTask[taskId];
      if leaseId !in leases {
        return None;
      }
      return Some(leases[leaseId]);
    }

    method Release(leaseId: string)
      modifies this
      ensures Maps() == Released(old(Maps()), leaseId)
      ensures leases == old(leases) - {leaseId}
      ensures byTask == if leaseId in old(leases) then old(byTask) - {old(leases)[leaseId].taskId} else old(byTask)
    {
      if leaseId !in leases {
        return;
      }
      var lease := leases[leaseId];
      leases := leases - {leaseId};
      byTask := byTask - {lease.taskId};
    }

    /** Drops every expired lease and gives its task back to the ready queue if the task is still held. */
    method ReapExpired(now: int) returns (reaped: seq<string>)
      requires Valid()
      modifies this, store, ready, ready.heap, metrics
      ensures Valid()
      ensures Maps() == Unexpired(old(Maps()), now)
      ensures var ids := Reapable(old(store.tasks), old(Maps()), now);
        && store.tasks == ReadyAgain(old(store.tasks), ids)
        && ready.Contents == Enqueued(old(store.tasks), old(ready.Contents), ids, now)
        && metrics.counters == old(metrics.counters).(expired := old(metrics.counters).expired + |ids|)
        && |reaped| == |ids| && forall id :: id in reaped <==> id in ids
      ensures forall id ::
        ReapsOne(old(store.tasks), old(ready.Contents), old(Maps()), store.tasks, ready.Contents, Maps(), now, id)
      ensures metrics.counters.expired == old(metrics.counters).expired + |reaped|
      ensures forall id :: id in reaped <==> HeldLate(old(store.tasks), old(leases), now, id)
    {
      hide ReadyQueue.Valid, TaskStore.Valid, PendingIndexed, Reapable, Enqueued, ReadyAgain, Given, ReapsOne, HeldLate;
      var expired := DropExpired(now);
      GivenIsReapable(store.tasks, old(Maps()), now, expired);
      reaped := GiveBack(expired, now);
      forall id
        ensures ReapsOne(old(store.tasks), old(ready.Contents), old(Maps()), store.tasks, ready.Contents, Maps(), now,
            id)
        ensures id in reaped <==> HeldLate(old(store.tasks), old(leases), now, id)
      {
        ReapSays(old(store.tasks), old(ready.Contents), old(Maps()), now, id);
      }
    }

    /** ReapExpired under its mutex. */
    method DropExpired(now: int) returns (expired: seq<Lease>)
      modifies this
      ensures Maps() == Unexpired(old(Maps()), now)
      ensures ListsLeases(old(leases), Late(old(Maps()), now), expired)
    {
      hide ListsLeases, TasksOf;
      expired := [];
      var keys := leases.Keys;
      ghost var late: set<string> := {};
      NoneListed(leases);
      while keys != {}
        invariant keys <= old(leases).Keys && late <= Late(old(Maps()), now)
        invariant leases == old(leases) - late && byTask == old(byTask) - TasksOf(old(leases), late)
        invariant ListsLeases(old(leases), late, expired)
        invariant late !! keys && Late(old(Maps()), now) <= late + keys
        decreases keys
      {
        var id := NextKey(keys);
        var lease := leases[id];
        if lease.deadline < now {
          ListsOneMore(old(leases), late, expired, id);
          expired := expired + [lease];
          leases := leases - {id};
          byTask := byTask - {lease.taskId};
          late := late + {id};
        }
        keys := keys - {id};
      }
      assert late == Late(old(Maps()), now);
    }

    /** The rest of ReapExpired. */
    method GiveBack(expired: seq<Lease>, now: int) returns (reaped: seq<string>)
      requires Valid()
      modifies store, ready, ready.heap, metrics
      ensures Valid()
      ensures var ids := Given(old(store.tasks), expired);
        && store.tasks == ReadyAgain(old(store.tasks), ids)
        && ready.Contents == Enqueued(old(store.tasks), old(ready.Contents), ids, now)
        && metrics.counters == old(metrics.counters).(expired := old(metrics.counters).expired + |ids|)
        && |reaped| == |ids| && forall id :: id in reaped <==> id in ids
    {
      hide ReadyQueue.Valid, TaskStore.Valid, PendingIndexed, Enqueued, ReadyAgain, Added, Holds;
      ghost var ts, q, c := store.tasks, ready.Contents, metrics.counters;
      NoneGivenBack(ts, q, now);
      reaped := [];
      for i := 0 to |expired|
        invariant Valid() && GivenBack(ts, q, Given(ts, expired[..i]), now, store.tasks, ready.Contents)
        invariant metrics.counters == c.(expired := c.expired + |reaped|)
        invariant |reaped| == |Given(ts, expired[..i])| && forall id :: id in reaped <==> id in Given(ts, expired[..i])
      {
        assert expired[..i + 1][..i] == expired[..i];
        var lease := expired[i];
        GiveOneBack(ts, q, Given(ts, expired[..i]), now, store.tasks, ready.Contents, lease);
        var again := TakeBack(lease, now);
        if again {
          reaped := reaped + [lease.taskId];
        }
      }
      assert expired[..|expired|] == expired;
    }

    /** One round of that loop: the task goes back to the ready queue if the lease still holds it. */
    method TakeBack(lease: Lease, now: int) returns (again: bool)
      requires Valid()
      modifies store, ready, ready.heap, metrics
      ensures Valid()
      ensures again == Holds(old(store.tasks), lease)
      ensures !again ==>
        && store.tasks == old(store.tasks) && ready.Contents == old(ready.Contents)
        && metrics.counters == old(metrics.counters)
      ensures again ==>
        && store.tasks == old(store.tasks)[lease.taskId := Moved(old(store.tasks)[lease.taskId], Ready)]
        && ready.Contents == Added(old(ready.Contents),
             Item(lease.taskId, old(store.tasks)[lease.taskId].priority, now))
        && metrics.counters == old(metrics.counters).(expired := old(metrics.counters).expired + 1)
    {
      hide ReadyQueue.Valid, TaskStore.Valid, PendingIndexed;
      var t := store.Get(lease.taskId);
      if t.None? {
        return false;
      }
      if t.value.state != Leased || t.value.version != lease.taskVersion {
        return false;
      }
      var updated := store.Transition(lease.taskId, Leased, Ready, t.value.version);
      if !updated.MovedTo? {
        return false;
      }
      var _ := ready.Push(updated.task.id, updated.task.priority, now);
      metrics.counters := metrics.counters.(expired := metrics.counters.expired + 1);
      return true;
    }
  }
}
