/** The domain types shared by every component. Times and durations are nanosecond counts. */
module Model {

  datatype Option<+T> = None | Some(value: T)

  datatype TaskState = Pending | Ready | Leased | Succeeded | Dead | Canceled {
    predicate Terminal() {
      Succeeded? || Dead? || Canceled?
    }
  }

  datatype TriggerSpec = TriggerSpec(kind: string, runAt: int, cron: string)

  datatype Task = Task(
    id: string,
    name: string,
    handler: string,
    payload: string,
    priority: int,
    timeout: int,
    maxRetries: int,
    retriesLeft: int,
    state: TaskState,
    version: int,
    nextRunAt: int,
    trigger: TriggerSpec)

  type Tasks = map<string, Task>

  datatype ExecutionRecord = ExecutionRecord(
    id: string, taskId: string, workerId: string, status: string,
    startedAt: int, finishedAt: int, message: string)

  /** metrics.Metrics */
  datatype Counters = Counters(executed: int, failed: int, expired: int, recorded: int)

  class Metrics {
    var counters: Counters

    constructor ()
      ensures counters == Counters(0, 0, 0, 0)
    {
      counters := Counters(0, 0, 0, 0);
    }
  }

  datatype Lease = Lease(id: string, taskId: string, workerId: string, taskVersion: int, deadline: int)

  datatype StoreError = IdRequired | NotFound | DuplicateName | Conflict | AlreadyCanceled

  /** Go walks a map in an unspecified order: the next key is any of those left. */
  method NextKey<T>(keys: set<T>) returns (key: T)
    requires keys != {}
    ensures key in keys
  {
    key :| key in keys;
  }
}
