/** The result pipeline: one reported result becomes a success, a retry or a dead task. */
module Execution {
  import opened Model
  import opened Queues
  import opened Store
  import opened Records
  import opened Dispatch
  import opened Leasing

  /** Everything the components share. */
  datatype System = System(board: Board, lm: LeaseMaps, records: History, counters: Counters)

  /** What a worker reports about one execution; recordId is the generator's answer. */
  datatype Report = Report(status: string, message: string, startedAt: int, finishedAt: int, recordId: string)

  const SUCCESS := "success"

  /** The lease is the task's current one and no state change has happened since it was granted. */
  predicate Accepts(s: System, l: Lease) {
    && l.taskId in s.board.tasks
    && var current := CurrentLease(s.lm, l.taskId);
    && current.Some? && current.value.id == l.id && current.value.taskVersion == s.board.tasks[l.taskId].version
  }

  function RecordOf(l: Lease, r: Report): ExecutionRecord {
    ExecutionRecord(r.recordId, l.taskId, l.workerId, r.status, r.startedAt, r.finishedAt, r.message)
  }

  /** The record is kept and counted before the outcome is applied. */
  function Noted(s: System, l: Lease, r: Report): (n: System)
    ensures n.board == s.board && n.lm == s.lm
  {
    s.(records := Appended(s.records, RecordOf(l, r)),
       counters := if r.status == SUCCESS then s.counters.(recorded := s.counters.recorded + 1)
                   else s.counters.(recorded := s.counters.recorded + 1, failed := s.counters.failed + 1))
  }

  function Succeeds(s: System, l: Lease): System
    requires l.taskId in s.board.tasks
  {
    s.(board := s.board.(tasks := s.board.tasks[l.taskId := Moved(s.board.tasks[l.taskId], Succeeded)]),
       counters := s.counters.(executed := s.counters.executed + 1),
       lm := Released(s.lm, l.id))
  }

  /** A retry consumes one attempt, waits in the delayed queue and gives up the lease. */
  function Retries(s: System, l: Lease, next: int): System
    requires l.taskId in s.board.tasks
  {
    var t := s.board.tasks[l.taskId];
    s.(board := s.board.(tasks := s.board.tasks[l.taskId := RetriedTask(t, next)],
                         delayed := KeepEarlier(s.board.delayed, IndexedHeap.Item(l.taskId, t.priority, next))),
       lm := Released(s.lm, l.id))
  }

  function Dies(s: System, l: Lease): System
    requires l.taskId in s.board.tasks
  {
    s.(board := s.board.(tasks := s.board.tasks[l.taskId := Moved(s.board.tasks[l.taskId], Dead)]),
       lm := Released(s.lm, l.id))
  }

  datatype ResultOutcome = Applied(task: Task) | NoSuchTask | StaleResult

  /** RecordResult as a whole; only a retry does not look at the task's state. */
  function Recorded(s: System, l: Lease, r: Report, retryDelay: int): System {
    if !Accepts(s, l) then s
    else
      var t, n := s.board.tasks[l.taskId], Noted(s, l, r);
      if r.status != SUCCESS && t.retriesLeft > 0 then Retries(n, l, r.finishedAt + retryDelay)
      else if t.state != Leased then n
      else if r.status == SUCCESS then Succeeds(n, l)
      else Dies(n, l)
  }

  function RecordOutcome(s: System, l: Lease, r: Report, retryDelay: int): ResultOutcome {
    if l.taskId !in s.board.tasks then NoSuchTask
    else if !Accepts(s, l) then StaleResult
    else
      var t := s.board.tasks[l.taskId];
      if (r.status == SUCCESS || t.retriesLeft <= 0) && t.state != Leased then StaleResult
      else Applied(Recorded(s, l, r, retryDelay).board.tasks[l.taskId])
  }

  // ---------- a result, field by field ----------

  /** The lease is the one recorded for its task, and the task is still at its version. */
  predicate IsCurrent(s: System, l: Lease) {
    && l.taskId in s.board.tasks && l.taskId in s.lm.byTask && s.lm.byTask[l.taskId] in s.lm.leases
    && var current := s.lm.leases[s.lm.byTask[l.taskId]];
    && current.id == l.id && current.taskVersion == s.board.tasks[l.taskId].version
  }

  /** The record says who ran the task, and what the report says. */
  predicate Tells(rec: ExecutionRecord, l: Lease, r: Report) {
    && rec.id == r.recordId && rec.taskId == l.taskId && rec.workerId == l.workerId
    && rec.status == r.status && rec.message == r.message
    && rec.startedAt == r.startedAt && rec.finishedAt == r.finishedAt
  }

  /** The task's history has one more record, the last, and no other task's has changed. */
  ghost predicate AddsRecord(was: History, now: History, l: Lease, r: Report) {
    && (forall id :: id != l.taskId ==> HistoryOf(now, id) == HistoryOf(was, id))
    && var (h, h') := (HistoryOf(was, l.taskId), HistoryOf(now, l.taskId));
    && |h'| == |h| + 1 && h'[..|h|] == h && Tells(h'[|h|], l, r)
  }

  /** What an accepted result does to the task: a retry, its end, or nothing when it is no longer leased. */
  ghost predicate SettlesTask(b: Board, b': Board, l: Lease, r: Report, retryDelay: int)
    requires l.taskId in b.tasks
  {
    var (id, t, next) := (l.taskId, b.tasks[l.taskId], r.finishedAt + retryDelay);
    if r.status != "success" && t.retriesLeft > 0 then
      && b'.tasks == b.tasks[id := t.(state := Ready, version := t.version + 1, retriesLeft := t.retriesLeft - 1,
                                      nextRunAt := next)]
      && b' == b.(tasks := b'.tasks, delayed := b'.delayed)
      && b'.delayed.Keys == b.delayed.Keys + {id}
      && (forall k :: k in b.delayed && k != id ==> b'.delayed[k] == b.delayed[k])
      && b'.delayed[id] == (if id !in b.delayed then IndexedHeap.Item(id, t.priority, next)
                            else if b.delayed[id].at < next then b.delayed[id] else b.delayed[id].(at := next))
    else if t.state == Leased then
      b' == b.(tasks := b.tasks[id := t.(state := if r.status == "success" then Succeeded else Dead,
                                         version := t.version + 1)])
    else b' == b
  }

  /** The outcome reaches the store. */
  predicate Lands(t: Task, r: Report) {
    t.state == Leased || (r.status != "success" && t.retriesLeft > 0)
  }

  /** What it does to the lease and the counters. */
  ghost predicate SettlesLease(s: System, d: System, l: Lease, r: Report)
    requires l.taskId in s.board.tasks
  {
    var (lands, success, c) := (Lands(s.board.tasks[l.taskId], r), r.status == "success", s.counters);
    && d.lm.leases == (if lands then s.lm.leases - {l.id} else s.lm.leases)
    && d.lm.byTask == (if lands && l.id in s.lm.leases then s.lm.byTask - {s.lm.leases[l.id].taskId} else s.lm.byTask)
    && d.counters == Counters(c.executed + (if success && lands then 1 else 0), c.failed + (if success then 0 else 1),
                              c.expired, c.recorded + 1)
  }

  /** A result is taken just when its lease is current, and then with all that follows. */
  lemma ResultSays(s: System, l: Lease, r: Report, retryDelay: int)
    ensures var d := Recorded(s, l, r, retryDelay);
      if IsCurrent(s, l) then
        && AddsRecord(s.records, d.records, l, r) && SettlesTask(s.board, d.board, l, r, retryDelay)
        && SettlesLease(s, d, l, r)
      else d == s
  {
    hide AddsRecord, SettlesTask, SettlesLease, Recorded;
    if IsCurrent(s, l) {
      RecordSays(s, l, r, retryDelay);
      TaskSays(s, l, r, retryDelay);
      LeaseSays(s, l, r, retryDelay);
    } else {
      NotCurrent(s, l, r, retryDelay);
    }
  }

  lemma NotCurrent(s: System, l: Lease, r: Report, retryDelay: int)
    requires !IsCurrent(s, l)
    ensures Recorded(s, l, r, retryDelay) == s
  {
  }

  lemma RecordSays(s: System, l: Lease, r: Report, retryDelay: int)
    requires IsCurrent(s, l)
    ensures AddsRecord(s.records, Recorded(s, l, r, retryDelay).records, l, r)
  {
    hide Released, KeepEarlier;
  }

  lemma TaskSays(s: System, l: Lease, r: Report, retryDelay: int)
    requires IsCurrent(s, l)
    ensures SettlesTask(s.board, Recorded(s, l, r, retryDelay).board, l, r, retryDelay)
  {
    hide Noted, Released;
  }

  lemma LeaseSays(s: System, l: Lease, r: Report, retryDelay: int)
    requires IsCurrent(s, l)
    ensures SettlesLease(s, Recorded(s, l, r, retryDelay), l, r)
  {
    hide KeepEarlier, Appended, RecordOf;
  }

  class ResultManager {
    const store: TaskStore
    const records: RecordStore
    const leases: LeaseManager
    const scheduler: Scheduler
    const metrics: Metrics
    const retryDelay: int

    constructor (store: TaskStore, records: RecordStore, leases: LeaseManager, scheduler: Scheduler, metrics: Metrics,
        retryDelay: int)
      ensures this.store == store && this.records == records && this.leases == leases
      ensures this.scheduler == scheduler && this.metrics == metrics && this.retryDelay == retryDelay
    {
      this.store, this.records, this.leases, this.scheduler := store, records, leases, scheduler;
      this.metrics, this.retryDelay := metrics, retryDelay;
    }

    ghost predicate Wired() {
      && scheduler.store == store && leases.store == store
      && leases.ready == scheduler.ready && leases.metrics == metrics
    }

    ghost predicate Valid()
      reads scheduler, store, scheduler.store, scheduler.ready, scheduler.ready.heap, scheduler.delayed,
          scheduler.delayed.heap
    {
      Wired() && scheduler.Valid()
    }

    ghost function View(): System
      reads scheduler, scheduler.store, scheduler.ready, scheduler.delayed, leases, records, metrics
    {
      System(scheduler.View(), leases.Maps(), records.records, metrics.counters)
    }

    method RecordResult(l: Lease, r: Report) returns (outcome: ResultOutcome)
      requires Valid()
      modifies store, records, leases, scheduler.delayed, scheduler.delayed.heap, metrics
      ensures Valid()
      ensures View() == Recorded(old(View()), l, r, retryDelay)
      ensures outcome == RecordOutcome(old(View()), l, r, retryDelay)
      ensures if IsCurrent(old(View()), l) then
                && AddsRecord(old(records.records), records.records, l, r)
                && SettlesTask(old(scheduler.View()), scheduler.View(), l, r, retryDelay)
                && SettlesLease(old(View()), View(), l, r)
              else View() == old(View())
      ensures outcome.Applied? <==> IsCurrent(old(View()), l) && Lands(old(store.tasks)[l.taskId], r)
      ensures outcome.Applied? ==> l.taskId in store.tasks && outcome.task == store.tasks[l.taskId]
      ensures outcome.NoSuchTask? <==> l.taskId !in old(store.tasks)
    {
      hide TaskStore.Valid, ReadyQueue.Valid, DelayedQueue.Valid, Consistent, PendingIndexed, Noted, Released,
        KeepEarlier, AddsRecord, SettlesTask, SettlesLease;
      ResultSays(View(), l, r, retryDelay);
      var t := store.Get(l.taskId);
      if t.None? {
        return NoSuchTask;
      }
      var task := t.value;
      var current := leases.Current(l.taskId);
      if current.None? || current.value.id != l.id || current.value.taskVersion != task.version {
        return StaleResult;
      }
      Note(l, r);
      if r.status == SUCCESS {
        outcome := Succeed(l, task);
      } else if task.retriesLeft > 0 {
        outcome := Retry(l, task, r.finishedAt + retryDelay);
      } else {
        outcome := Bury(l, task);
      }
    }

    method Note(l: Lease, r: Report)
      requires Valid()
      modifies records, metrics
      ensures Valid() && View() == Noted(old(View()), l, r)
    {
      hide TaskStore.Valid, ReadyQueue.Valid, DelayedQueue.Valid, PendingIndexed, Appended;
      records.Append(RecordOf(l, r));
      metrics.counters := metrics.counters.(recorded := metrics.counters.recorded + 1);
      if r.status != SUCCESS {
        metrics.counters := metrics.counters.(failed := metrics.counters.failed + 1);
      }
    }

    method Retry(l: Lease, task: Task, next: int) returns (outcome: ResultOutcome)
      requires Valid() && l.taskId in store.tasks && task == store.tasks[l.taskId] && task.id == l.taskId
          && task.retriesLeft > 0
      modifies store, leases, scheduler.delayed, scheduler.delayed.heap
      ensures Valid() && View() == Retries(old(View()), l, next)
      ensures outcome == Applied(store.tasks[l.taskId])
    {
      hide TaskStore.Valid, ReadyQueue.Valid, DelayedQueue.Valid, Consistent, PendingIndexed, Released, KeepEarlier;
      var retried := store.Retry(task.id, next, task.version);
      if !retried.MovedTo? {
        return StaleResult;
      }
      scheduler.ScheduleRetry(task.id, next, retried.task.priority);
      leases.Release(l.id);
      return Applied(retried.task);
    }

    method Succeed(l: Lease, task: Task) returns (outcome: ResultOutcome)
      requires Valid() && l.taskId in store.tasks && task == store.tasks[l.taskId] && task.id == l.taskId
      modifies store, leases, metrics
      ensures Valid() && View() == if task.state == Leased then Succeeds(old(View()), l) else old(View())
      ensures outcome == if task.state == Leased then Applied(store.tasks[l.taskId]) else StaleResult
    {
      hide TaskStore.Valid, ReadyQueue.Valid, DelayedQueue.Valid, Consistent, PendingIndexed, Released;
      var moved := store.Transition(task.id, Leased, Succeeded, task.version);
      if !moved.MovedTo? {
        return StaleResult;
      }
      metrics.counters := metrics.counters.(executed := metrics.counters.executed + 1);
      leases.Release(l.id);
      return Applied(moved.task);
    }

    method Bury(l: Lease, task: Task) returns (outcome: ResultOutcome)
      requires Valid() && l.taskId in store.tasks && task == store.tasks[l.taskId] && task.id == l.taskId
      modifies store, leases
      ensures Valid() && View() == if task.state == Leased then Dies(old(View()), l) else old(View())
      ensures outcome == if task.state == Leased then Applied(store.tasks[l.taskId]) else StaleResult
    {
      hide TaskStore.Valid, ReadyQueue.Valid, DelayedQueue.Valid, Consistent, PendingIndexed, Released;
      var moved := store.Transition(task.id, Leased, Dead, task.version);
      if !moved.MovedTo? {
        return StaleResult;
      }
      leases.Release(l.id);
      return Applied(moved.task);
    }
  }
}
