/**
 The same system one mutex critical section at a time. A thread's program
 counter carries the local variables it still needs; each step is one locked
 call on one component, given by the same functions as the components' methods.
 */
module LockSteps {
  import opened Model
  import opened IndexedHeap
  import opened Queues
  import opened Store
  import opened Records
  import opened Dispatch
  import opened Leasing
  import opened Execution
  import TaskLife
  import Protocol
  import CronParse

  /**
   granted remembers every lease as it was granted, drawn every task id ever
   stored; renewing is the lease mutex held across a store read.
   */
  datatype Shared = Shared(
    board: Board, names: map<string, string>, lm: LeaseMaps, records: History, counters: Counters,
    granted: map<string, Lease>, drawn: set<string>, renewing: bool)

  function SystemOf(s: Shared): System {
    System(s.board, s.lm, s.records, s.counters)
  }

  function WithSystem(s: Shared, sys: System): Shared {
    s.(board := sys.board, lm := sys.lm, records := sys.records, counters := sys.counters)
  }

  datatype Pc =
    | Idle
    // Assign
    | Popping(now: int)
    | Popped(now: int, id: string)
    | Picking(now: int, t: Task)
    | PuttingBack(now: int, t: Task)
    // RecordResult and the executor's release
    | Reporting(l: Lease, r: Report)
    | Checking(l: Lease, r: Report, t: Task)
    | Applying(l: Lease, r: Report, t: Task)
    | Delaying(l: Lease, t: Task)
    | Releasing(l: Lease)
    // ReapExpired
    | Reaping(now: int)
    | Reclaiming(now: int, expired: seq<Lease>)
    | Retaking(now: int, l: Lease, t: Task, expired: seq<Lease>)
    // Tick
    | Ticking(now: int)
    | Firing(now: int, due: seq<string>)
    | Forgetting(now: int, id: string, due: seq<string>)
    | Marking(now: int, id: string, due: seq<string>)
    | Advancing(now: int, id: string, next: int, due: seq<string>)
    | Indexing(now: int, id: string, next: int, due: seq<string>)
    | Promoting(now: int, entries: seq<string>)
    // TriggerNow
    | Triggering(now: int, id: string)
    | Prodding(now: int, t: Task)
    // Cancel
    | Canceling(id: string)
    | Stopping(t: Task)
    | Unqueueing(id: string)
    | Undelaying(id: string)
    | Untracking(id: string)
    // registration from its Track on, a cron update, and a batch's rollback
    | Tracking(t: Task)
    | Editing(id: string, cron: string, now: int)
    | Saving(t: Task)
    | Discarding(id: string)
    // Renew
    | Renewing(leaseId: string, workerId: string, now: int)
    | Comparing(l: Lease, t: Task, now: int)
    // a push to the ready queue, then on
    | Pushing(now: int, t: Task, rest: Pc)

  // ---------- the program points of each call ----------

  predicate InAssign(pc: Pc) {
    pc.Popping? || pc.Popped? || pc.Picking? || pc.PuttingBack?
  }

  predicate InResult(pc: Pc) {
    pc.Reporting? || pc.Checking? || pc.Applying? || pc.Delaying? || pc.Releasing?
  }

  predicate InReap(pc: Pc) {
    pc.Reaping? || pc.Reclaiming? || pc.Retaking?
  }

  predicate InTick(pc: Pc) {
    pc.Ticking? || pc.Firing? || pc.Forgetting? || pc.Marking? || pc.Advancing? || pc.Indexing? || pc.Promoting?
  }

  predicate InTrigger(pc: Pc) {
    pc.Triggering? || pc.Prodding?
  }

  predicate InCancel(pc: Pc) {
    pc.Canceling? || pc.Stopping? || pc.Unqueueing? || pc.Undelaying? || pc.Untracking?
  }

  predicate InSave(pc: Pc) {
    pc.Editing? || pc.Saving? || pc.Tracking? || pc.Discarding?
  }

  predicate InRenew(pc: Pc) {
    pc.Renewing? || pc.Comparing?
  }

  // ---------- the sections ----------

  /** The calls a thread may begin; a result can be reported for any lease ever granted, by anyone and repeatedly. */
  predicate Begins(s: Shared, pc: Pc) {
    match pc
    case Popping(_) | Reaping(_) | Ticking(_) | Triggering(_, _) | Canceling(_) => true
    case Renewing(_, _, _) | Discarding(_) => true
    case Editing(_, cron, _) => CronParse.Compiled(cron).Some?
    case Reporting(l, _) => l.id in s.granted && s.granted[l.id] == l
    case _ => false
  }

  predicate Accepted(s: Shared, t: Task) {
    SaveError(s.board.tasks, s.names, t).None?
  }

  /** An accepted Save. */
  function Stored(s: Shared, t: Task): Shared {
    With(s, Saved(s.board.tasks, t)).(names := SavedNames(s.board.tasks, s.names, t))
  }

  /** A Delete. */
  function Discarded(s: Shared, id: string): Shared {
    if id in s.board.tasks then With(s, s.board.tasks - {id}).(names := s.names - {s.board.tasks[id].name}) else s
  }

  /** A registration's Save, of a new id; one that is refused is no step. */
  ghost predicate Registers(s: Shared, s': Shared, t: Task) {
    t.id !in s.drawn && t.state == Pending && Accepted(s, t) && s' == Stored(s, t).(drawn := s.drawn + {t.id})
  }

  /** The lists' elements are the ids, each once. */
  ghost predicate ListsIds(ids: seq<string>, all: set<string>) {
    Distinct(ids) && forall id :: id in ids <==> id in all
  }

  function With(s: Shared, ts: Tasks): Shared {
    s.(board := s.board.(tasks := ts))
  }

  function Granted(s: Shared, l: Lease): Shared {
    s.(lm := WithLease(s.lm, l), granted := s.granted[l.id := l])
  }

  /** The lease is the task's current one, granted on the version that the report has read. */
  predicate Confirms(lm: LeaseMaps, l: Lease, t: Task) {
    var current := CurrentLease(lm, l.taskId);
    current.Some? && current.value.id == l.id && current.value.taskVersion == t.version
  }

  /** The result is recorded and counted, which no section looks at. */
  function Written(s: Shared, l: Lease, r: Report): Shared {
    var n := Noted(SystemOf(s), l, r);
    s.(records := n.records, counters := n.counters)
  }

  predicate WouldRetry(r: Report, t: Task) {
    r.status != SUCCESS && t.retriesLeft > 0
  }

  /** The state that a result ends its task in when it is not retried. */
  function Ending(r: Report): TaskState {
    if r.status == SUCCESS then Succeeded else Dead
  }

  function Counting(s: Shared, executed: int, expired: int): Shared {
    s.(counters := s.counters.(executed := s.counters.executed + executed, expired := s.counters.expired + expired))
  }

  function Pushed(s: Shared, t: Task, now: int): Shared {
    s.(board := s.board.(ready := Added(s.board.ready, Item(t.id, t.priority, now))))
  }

  ghost predicate AssignSection(ttl: int, s: Shared, pc: Pc, s': Shared, pc': Pc)
    requires InAssign(pc)
  {
    var ts := s.board.tasks;
    match pc
    case Popping(now) =>
      if s.board.ready == map[] then s' == s && pc' == Idle
      else
        && pc'.Popped? && pc'.now == now && Foremost(ReadyLess, s.board.ready, pc'.id)
        && s' == s.(board := s.board.(ready := s.board.ready - {pc'.id}))
    case Popped(now, id) =>
      && s' == With(s, Transitioned(ts, id, Ready, Leased, -1))
      && pc' == if id !in ts then Idle
                else if CanMove(ts, id, Ready, -1) then Picking(now, s'.board.tasks[id])
                else Popping(now)
    case Picking(now, t) =>
      || (s' == s && pc' == PuttingBack(now, t))
      || (!s.renewing && pc' == Idle && exists l ::
            && s' == Granted(s, l) && l.id !in s.granted
            && l == Lease(l.id, t.id, l.workerId, t.version, now + ttl))
    case PuttingBack(now, t) =>
      s' == With(s, Transitioned(ts, t.id, Leased, Ready, t.version)) && pc' == Pushing(now, t, Idle)
  }

  ghost predicate ResultSection(delay: int, s: Shared, pc: Pc, s': Shared, pc': Pc)
    requires InResult(pc)
  {
    var ts := s.board.tasks;
    match pc
    case Reporting(l, r) =>
      s' == s && pc' == if l.taskId in ts then Checking(l, r, ts[l.taskId]) else Releasing(l)
    case Checking(l, r, t) =>
      && !s.renewing
      && (if Confirms(s.lm, l, t) then s' == Written(s, l, r) && pc' == Applying(l, r, t)
          else s' == s && pc' == Releasing(l))
    case Applying(l, r, t) =>
      if WouldRetry(r, t) then
        && s' == With(s, Retried(ts, t.id, r.finishedAt + delay, t.version))
        && pc' == if CanRetry(ts, t.id, t.version) then Delaying(l, s'.board.tasks[t.id]) else Releasing(l)
      else
        && s' == Counting(
          With(s, Transitioned(ts, t.id, Leased, Ending(r), t.version)),
          if Ending(r) == Succeeded && CanMove(ts, t.id, Leased, t.version) then 1 else 0, 0)
        && pc' == Releasing(l)
    case Delaying(l, t) =>
      s' == s.(board := s.board.(delayed := KeepEarlier(s.board.delayed, Item(t.id, t.priority, t.nextRunAt))))
        && pc' == Releasing(l)
    case Releasing(l) =>
      !s.renewing && s' == s.(lm := Released(s.lm, l.id)) && pc' == Idle
  }

  ghost predicate ReapSection(s: Shared, pc: Pc, s': Shared, pc': Pc)
    requires InReap(pc)
  {
    var ts := s.board.tasks;
    match pc
    case Reaping(now) =>
      && !s.renewing && s' == s.(lm := Unexpired(s.lm, now))
      && pc'.Reclaiming? && pc'.now == now && ListsLeases(s.lm.leases, Late(s.lm, now), pc'.expired)
    case Reclaiming(now, expired) =>
      && s' == s
      && (if expired == [] then pc' == Idle
          else
            var l := expired[0];
            pc' == if Holds(ts, l) then Retaking(now, l, ts[l.taskId], expired[1..]) else Reclaiming(now, expired[1..]))
    case Retaking(now, l, t, expired) =>
      && s' == Counting(With(s, Transitioned(ts, l.taskId, Leased, Ready, t.version)), 0,
        if CanMove(ts, l.taskId, Leased, t.version) then 1 else 0)
      && pc' == if CanMove(ts, l.taskId, Leased, t.version)
           then Pushing(now, s'.board.tasks[l.taskId], Reclaiming(now, expired))
                else Reclaiming(now, expired)
  }

  ghost predicate TickSection(s: Shared, pc: Pc, s': Shared, pc': Pc)
    requires InTick(pc)
  {
    var ts := s.board.tasks;
    match pc
    case Ticking(now) =>
      s' == s && pc'.Firing? && pc'.now == now && ListsIds(pc'.due, DueIds(s.board.nextFire, now))
    case Firing(now, due) =>
      if due == [] then
        && s' == s.(board := s.board.(delayed := After(s.board.delayed, now)))
        && pc'.Promoting? && pc'.now == now && ListsIds(pc'.entries, DueDelayed(s.board.delayed, now))
      else
        var id, rest := due[0], due[1..];
        && s' == s
        && pc' == if id !in ts then Forgetting(now, id, rest) else if ts[id].state == Pending
             then Marking(now, id, rest) else Firing(now, rest)
    case Forgetting(now, id, due) =>
      s' == s.(board := s.board.(nextFire := s.board.nextFire - {id})) && pc' == Firing(now, due)
    case Marking(now, id, due) =>
      && s' == With(s, Transitioned(ts, id, Pending, Ready, -1))
      && (if CanMove(ts, id, Pending, -1) then
            var t := s'.board.tasks[id];
            pc' == Pushing(now, t, if Recurs(t) then Advancing(now, id, NextRun(t, now), due) else Firing(now, due))
          else pc' == Firing(now, due))
    case Advancing(now, id, next, due) =>
      && s' == With(s, Rescheduled(ts, id, next))
      && pc' == if id in ts then Indexing(now, id, next, due) else Firing(now, due)
    case Indexing(now, id, next, due) =>
      s' == s.(board := s.board.(nextFire := s.board.nextFire[id := next])) && pc' == Firing(now, due)
    case Promoting(now, entries) =>
      && s' == s
      && (if entries == [] then pc' == Idle
          else
            var id, rest := entries[0], entries[1..];
            pc' == if id in ts && ts[id].state == Ready then Pushing(now, ts[id], Promoting(now, rest))
              else Promoting(now, rest))
  }

  ghost predicate TriggerSection(s: Shared, pc: Pc, s': Shared, pc': Pc)
    requires InTrigger(pc)
  {
    var ts := s.board.tasks;
    match pc
    case Triggering(now, id) =>
      s' == s && pc' == if id in ts && Triggerable(ts[id]) then Prodding(now, ts[id]) else Idle
    case Prodding(now, t) =>
      && s' == With(s, Transitioned(ts, t.id, Pending, Ready, -1))
      && pc' == Pushing(now, if CanMove(ts, t.id, Pending, -1) then s'.board.tasks[t.id] else t, Idle)
  }

  ghost predicate CancelSection(s: Shared, pc: Pc, s': Shared, pc': Pc)
    requires InCancel(pc)
  {
    var ts := s.board.tasks;
    match pc
    case Canceling(id) =>
      s' == s && pc' == if id in ts && !ts[id].state.Terminal() then Stopping(ts[id]) else Idle
    case Stopping(t) =>
      && s' == With(s, Transitioned(ts, t.id, t.state, Canceled, t.version))
      && pc' == if CanMove(ts, t.id, t.state, t.version) then Unqueueing(t.id) else Idle
    case Unqueueing(id) =>
      s' == s.(board := s.board.(ready := s.board.ready - {id})) && pc' == Undelaying(id)
    case Undelaying(id) =>
      s' == s.(board := s.board.(delayed := s.board.delayed - {id})) && pc' == Untracking(id)
    case Untracking(id) =>
      s' == s.(board := s.board.(nextFire := s.board.nextFire - {id})) && pc' == Idle
  }

  /**
   A cron update writes back every field it read, whatever has happened since;
   should the task have been discarded meanwhile, Save inserts it again.
   */
  ghost predicate SaveSection(s: Shared, pc: Pc, s': Shared, pc': Pc)
    requires InSave(pc)
  {
    var ts := s.board.tasks;
    match pc
    case Editing(id, cron, now) =>
      s' == s && pc' == if id in ts
        && ts[id].trigger.kind == "cron" then Saving(Protocol.Rewritten(ts[id], cron, now)) else Idle
    case Saving(t) =>
      if Accepted(s, t) then s' == Stored(s, t) && pc' == Tracking(t) else s' == s && pc' == Idle
    case Tracking(t) =>
      s' == s.(board := Tracked(s.board, t)) && pc' == Idle
    case Discarding(id) =>
      s' == Discarded(s, id) && pc' == Idle
  }

  /** Renew keeps the lease mutex while it reads the store. */
  ghost predicate RenewSection(ttl: int, s: Shared, pc: Pc, s': Shared, pc': Pc)
    requires InRenew(pc)
  {
    match pc
    case Renewing(leaseId, workerId, now) =>
      && !s.renewing
      && (if leaseId in s.lm.leases && s.lm.leases[leaseId].workerId == workerId
           && s.lm.leases[leaseId].taskId in s.board.tasks then
            var l := s.lm.leases[leaseId];
            s' == s.(renewing := true) && pc' == Comparing(l, s.board.tasks[l.taskId], now)
          else s' == s && pc' == Idle)
    case Comparing(l, t, now) =>
      && pc' == Idle
      && s' == s.(renewing := false,
                  lm := if t.version != l.taskVersion then Released(s.lm, l.id)
                        else s.lm.(leases := s.lm.leases[l.id := l.(deadline := now + ttl)]))
  }

  /** One critical section of one thread. */
  ghost predicate Section(cfg: TaskLife.Config, s: Shared, pc: Pc, s': Shared, pc': Pc) {
    if pc.Idle? then (Begins(s, pc') && s' == s) || (pc'.Tracking? && Registers(s, s', pc'.t))
    else if pc.Pushing? then s' == Pushed(s, pc.t, pc.now) && pc' == pc.rest
    else if InAssign(pc) then AssignSection(cfg.ttl, s, pc, s', pc')
    else if InResult(pc) then ResultSection(cfg.retryDelay, s, pc, s', pc')
    else if InReap(pc) then ReapSection(s, pc, s', pc')
    else if InTick(pc) then TickSection(s, pc, s', pc')
    else if InTrigger(pc) then TriggerSection(s, pc, s', pc')
    else if InCancel(pc) then CancelSection(s, pc, s', pc')
    else if InSave(pc) then SaveSection(s, pc, s', pc')
    else RenewSection(cfg.ttl, s, pc, s', pc')
  }
}
