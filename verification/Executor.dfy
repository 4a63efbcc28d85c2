/** The executor: claim a task, run its handler, report the outcome. */
module Worker {
  import opened Model
  import opened Queues
  import opened Store
  import opened Leasing
  import opened Execution

  /** Assign on everything that is shared. */
  ghost predicate AssignStep(s: System, s': System, now: int, ttl: int, worker: Option<string>, leaseId: string,
      r: AssignResult) {
    && AssignSpec(s.board.tasks, s.board.ready, s.lm, s'.board.tasks, s'.board.ready, s'.lm, now, ttl, worker, leaseId,
         r)
    && s' == s.(board := s.board.(tasks := s'.board.tasks, ready := s'.board.ready), lm := s'.lm)
  }

  /** A worker's report; the lease is released even when the result is refused. */
  function Finished(s: System, l: Lease, r: Report, retryDelay: int): System {
    var done := Recorded(s, l, r, retryDelay);
    if RecordOutcome(s, l, r, retryDelay).Applied? then done else done.(lm := Released(done.lm, l.id))
  }

  datatype RunResult = HandlerRequired | Unassigned(reason: AssignResult) | Ran(task: Task) | Lost

  class Executor {
    const store: TaskStore
    const leases: LeaseManager
    const results: ResultManager

    constructor (store: TaskStore, leases: LeaseManager, results: ResultManager)
      ensures this.store == store && this.leases == leases && this.results == results
    {
      this.store, this.leases, this.results := store, leases, results;
    }

    ghost predicate Valid()
      reads results.scheduler, results.store, results.scheduler.store
      reads results.scheduler.ready, results.scheduler.ready.heap, results.scheduler.delayed,
          results.scheduler.delayed.heap
    {
      results.store == store && results.leases == leases && results.Valid()
    }

    /** mid is what the handler ran against. */
    method RunNext(hasHandler: bool, now: int, worker: Option<string>, leaseId: string, report: Report)
      returns (r: RunResult, ghost mid: System)
      requires Valid()
      modifies store, leases, leases.ready, leases.ready.heap
      modifies results.records, results.scheduler.delayed, results.scheduler.delayed.heap, results.metrics
      ensures Valid()
      ensures r.HandlerRequired? <==> !hasHandler
      ensures match r
              case HandlerRequired => results.View() == mid == old(results.View())
              case Unassigned(reason) =>
                !reason.Assigned? && AssignStep(old(results.View()), mid, now, leases.ttl, worker, leaseId, reason)
                  && results.View() == mid
              case _ =>
                exists l :: AssignStep(old(results.View()), mid, now, leases.ttl, worker, leaseId, Assigned(l))
                  && results.View() == Finished(mid, l, report, results.retryDelay)
                  && (r.Ran? ==> RecordOutcome(mid, l, report, results.retryDelay) == Applied(r.task))
                  && (r.Lost? ==> !RecordOutcome(mid, l, report, results.retryDelay).Applied?)
    {
      hide TaskStore.Valid, ReadyQueue.Valid, DelayedQueue.Valid, PendingIndexed, AssignSpec, AssignSays, Recorded,
        RecordOutcome, Released;
      mid := results.View();
      if !hasHandler {
        r := HandlerRequired;
        return;
      }
      var a := leases.Assign(now, worker, leaseId);
      mid := results.View();
      if !a.Assigned? {
        r := Unassigned(a);
        return;
      }
      var l := a.lease;
      var t := store.Get(l.taskId);
      if t.None? {
        NoTaskNoResult(mid, l, report, results.retryDelay);
        leases.Release(l.id);
        r := Lost;
        return;
      }
      var outcome := results.RecordResult(l, report);
      if !outcome.Applied? {
        leases.Release(l.id);
        r := Lost;
        return;
      }
      r := Ran(outcome.task);
    }
  }

  lemma NoTaskNoResult(s: System, l: Lease, r: Report, retryDelay: int)
    requires l.taskId !in s.board.tasks
    ensures Recorded(s, l, r, retryDelay) == s && RecordOutcome(s, l, r, retryDelay) == NoSuchTask
  {
  }
}
