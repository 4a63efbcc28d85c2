/** The whole system, one public call at a time. */
module Protocol {
  import opened Model
  import opened IndexedHeap
  import opened Queues
  import opened Store
  import opened Records
  import opened CronNext
  import opened CronParse
  import opened Dispatch
  import opened Leasing
  import opened Execution
  import opened Worker
  import opened TaskLife

  /**
   The system with its history: a note per registered task, every task id ever
   drawn, the task of every lease id ever drawn, and the last instant seen.
   */
  datatype World = World(sys: System, notes: map<string, Note>, drawn: set<string>, owner: map<string, string>,
      clock: int)

  /** One public call, with what its environment answered. */
  datatype Op =
    | Register(t: Task)
    | AbortBatch(stale: map<string, int>)
    | UpdateCron(id: string, cron: string, now: int)
    | CancelTask(id: string)
    | TriggerNow(id: string, now: int)
    | Tick(now: int)
    | Assign(now: int, worker: Option<string>, leaseId: string, r: AssignResult)
    | Finish(lease: Lease, report: Execution.Report)
    | Renew(leaseId: string, workerId: string, now: int)
    | ReapExpired(now: int)
    | Purge(cutoff: int)

  // ---------- one call ----------

  /** What the caller and the generators guarantee; a call that is refused before it changes anything is no step. */
  ghost predicate Allowed(w: World, op: Op) {
    var ts := w.sys.board.tasks;
    match op
    case Register(t) => t.id !in w.drawn && t.state == Pending && t.retriesLeft == t.maxRetries >= 0
    case AbortBatch(stale) => stale.Keys !! w.drawn
    case UpdateCron(id, cron, now) =>
      && id in ts && ts[id].state != Canceled && ts[id].trigger.kind == "cron" && Compiled(cron).Some? && w.clock <= now
    case CancelTask(id) => true
    case TriggerNow(_, now) => w.clock <= now
    case Tick(now) => w.clock <= now
    case Assign(now, _, leaseId, _) => w.clock <= now && leaseId !in w.owner
    case Finish(l, _) => l.id in w.owner && w.owner[l.id] == l.taskId
    case Renew(_, _, now) => w.clock <= now
    case ReapExpired(now) => w.clock <= now
    case Purge(_) => true
  }

  ghost function Rewritten(t: Task, cron: string, now: int): Task {
    t.(trigger := t.trigger.(cron := cron), nextRunAt := if Compiled(cron).Some?
      then Upcoming(Compiled(cron).value, now) else now)
  }

  /** The components' own specifications, put together. */
  ghost predicate Does(cfg: Config, s: System, op: Op, s': System) {
    match op
    case Register(t) => s' == s.(board := Tracked(s.board.(tasks := Saved(s.board.tasks, t)), t))
    case AbortBatch(stale) => s' == s.(board := s.board.(nextFire := s.board.nextFire + stale))
    case UpdateCron(id, cron, now) =>
      && id in s.board.tasks
      && var t := Rewritten(s.board.tasks[id], cron, now);
      s' == s.(board := Tracked(s.board.(tasks := Saved(s.board.tasks, t)), t))
    case CancelTask(id) => s' == s.(board := CanceledOn(s.board, id))
    case TriggerNow(id, now) => s' == s.(board := Triggered(s.board, id, now))
    case Tick(now) => s' == s.(board := Ticked(s.board, now))
    case Assign(now, worker, leaseId, r) => AssignStep(s, s', now, cfg.ttl, worker, leaseId, r)
    case Finish(l, report) => s' == Finished(s, l, report, cfg.retryDelay)
    case Renew(leaseId, workerId, now) =>
      s' == s.(lm := RenewedMaps(s.board.tasks, s.lm, leaseId, workerId, now + cfg.ttl))
    case ReapExpired(now) =>
      var ids := Reapable(s.board.tasks, s.lm, now);
      s' == s.(board := s.board.(tasks := ReadyAgain(s.board.tasks, ids),
        ready := Enqueued(s.board.tasks, s.board.ready, ids, now)),
               lm := Unexpired(s.lm, now),
               counters := s.counters.(expired := s.counters.expired + |ids|))
    case Purge(cutoff) => Purged(s.records, s'.records, cutoff) && s' == s.(records := s'.records)
  }

  // ---------- what a call does to one task ----------

  function LifeIn(s: System, note: Note, id: string): Life {
    var b := s.board;
    Life(if id in b.tasks then Some(b.tasks[id]) else None,
         id in b.ready,
         if id in b.delayed then Some(b.delayed[id].at) else None,
         if id in b.nextFire then Some(b.nextFire[id]) else None,
         CurrentLease(s.lm, id),
         note)
  }

  function NoteOf(w: World, id: string): Note {
    if id in w.notes then w.notes[id] else BLANK
  }

  function LifeOf(w: World, id: string): Life {
    LifeIn(w.sys, NoteOf(w, id), id)
  }

  /** The move that a call from s to s' makes on a task. */
  ghost function MoveOf(cfg: Config, s: System, op: Op, s': System, id: string): Move {
    var a := LifeIn(s, BLANK, id);
    match op
    case Register(t) => if t.id == id then Enroll(t) else Stay
    case AbortBatch(stale) => if id in stale then Reindex(Some(stale[id])) else Stay
    case UpdateCron(k, cron, now) =>
      if k == id && a.task.Some? then
        var t := Rewritten(a.task.value, cron, now);
        Edit(t.trigger, t.nextRunAt)
      else Stay
    case CancelTask(k) => if k == id && CancelOutcome(s.board, id) == Done then Cancel else Stay
    case TriggerNow(k, _) => if k == id && TriggerOutcome(s.board, id) == Done then Trigger else Stay
    case Tick(now) =>
      if a.task.Some? then TickAt(now)
      else if a.fires.Some? && a.fires.value <= now then Reindex(None)
      else Stay
    case Assign(now, _, _, r) => AssignMove(s, s', now, r, id)
    case Finish(l, report) =>
      if l.taskId != id then Stay
      else if Accepts(s, l) then Move.Report(l, report)
      else if a.lease.Some? && a.lease.value.id == l.id then LoseLease
      else Stay
    case Renew(leaseId, workerId, now) =>
      if a.lease.Some? && a.lease.value.id == leaseId
        then RenewMove(RenewOutcome(s.board.tasks, s.lm, leaseId, workerId), now + cfg.ttl)
      else Stay
    case ReapExpired(now) =>
      if a.lease.Some? && Expired(a.lease.value, now) then
        if Holds(s.board.tasks, a.lease.value) then Move.Reap(now) else LoseLease
      else Stay
    case Purge(_) => Stay
  }

  function AssignMove(s: System, s': System, now: int, r: AssignResult, id: string): Move {
    match r
    case Assigned(l) => if l.taskId == id then Lend(l, now) else Stay
    case NoWorker =>
      if id in s.board.tasks && id in s'.board.tasks && s'.board.tasks[id] != s.board.tasks[id] then RollBack else Stay
    case _ => Stay
  }

  function RenewMove(r: RenewResult, deadline: int): Move {
    match r
    case Renewed => Extend(deadline)
    case Stale => LoseLease
    case _ => Stay
  }

  /** The history after a call: each task's note follows the task's move. */
  ghost function NotesAfter(cfg: Config, w: World, op: Op, s': System): map<string, Note> {
    map id | id in s'.board.tasks ::
      var (a, m) := (LifeOf(w, id), MoveOf(cfg, w.sys, op, s', id));
      if Enabled(id, a, m) then TaskLife.Next(cfg, a, m).note else a.note
  }

  function Drawn(op: Op): set<string> {
    match op
    case Register(t) => {t.id}
    case AbortBatch(stale) => stale.Keys
    case _ => {}
  }

  function Owners(owner: map<string, string>, op: Op): map<string, string> {
    if op.Assign? && op.r.Assigned? then owner[op.r.lease.id := op.r.lease.taskId] else owner
  }

  function ClockAfter(clock: int, op: Op): int {
    if op.UpdateCron? || op.TriggerNow? || op.Tick? || op.Assign? || op.Renew? || op.ReapExpired? then op.now else clock
  }

  ghost predicate Step(cfg: Config, w: World, op: Op, w': World) {
    && Allowed(w, op)
    && Does(cfg, w.sys, op, w'.sys)
    && w' == World(w'.sys, NotesAfter(cfg, w, op, w'.sys), w.drawn + Drawn(op), Owners(w.owner, op),
         ClockAfter(w.clock, op))
  }

  // ---------- the invariant ----------

  /** leases and byTask are each other's inverse. */
  ghost predicate Paired(lm: LeaseMaps) {
    && (forall id :: id in lm.leases ==>
          lm.leases[id].id == id && lm.leases[id].taskId in lm.byTask && lm.byTask[lm.leases[id].taskId] == id)
    && (forall t :: t in lm.byTask ==> lm.byTask[t] in lm.leases && lm.leases[lm.byTask[t]].taskId == t)
  }

  ghost predicate Owned(lm: LeaseMaps, owner: map<string, string>) {
    forall id :: id in lm.leases ==> id in owner && owner[id] == lm.leases[id].taskId
  }

  ghost predicate Inv(w: World) {
    && Paired(w.sys.lm) && Owned(w.sys.lm, w.owner)
    && w.notes.Keys == w.sys.board.tasks.Keys <= w.drawn
    && forall id :: Sound(id, LifeOf(w, id), w.clock)
  }

  // ---------- the lease maps ----------

  ghost predicate NoNewLease(lm: LeaseMaps, lm': LeaseMaps) {
    forall id :: id in lm'.leases ==> id in lm.leases && lm'.leases[id].taskId == lm.leases[id].taskId
  }

  lemma GrantKeepsPairs(lm: LeaseMaps, l: Lease, id: string)
    requires Paired(lm) && l.id !in lm.leases && l.taskId !in lm.byTask
    ensures Paired(WithLease(lm, l))
    ensures CurrentLease(WithLease(lm, l), id) == if id == l.taskId then Some(l) else CurrentLease(lm, id)
  {
  }

  lemma ReleaseKeepsPairs(lm: LeaseMaps, leaseId: string, id: string)
    requires Paired(lm)
    ensures Paired(Released(lm, leaseId)) && NoNewLease(lm, Released(lm, leaseId))
    ensures var l := CurrentLease(lm, id);
      CurrentLease(Released(lm, leaseId), id) == if l.Some? && l.value.id == leaseId then None else l
  {
  }

  lemma ExtendKeepsPairs(lm: LeaseMaps, leaseId: string, deadline: int, id: string)
    requires Paired(lm) && leaseId in lm.leases
    ensures var (l, after) :=
              (CurrentLease(lm, id), lm.(leases := lm.leases[leaseId := lm.leases[leaseId].(deadline := deadline)]));
      && Paired(after) && NoNewLease(lm, after)
      && CurrentLease(after, id) == if l.Some? && l.value.id == leaseId then Some(l.value.(deadline := deadline)) else l
  {
  }

  lemma ReapKeepsPairs(lm: LeaseMaps, now: int, id: string)
    requires Paired(lm)
    ensures Paired(Unexpired(lm, now)) && NoNewLease(lm, Unexpired(lm, now))
    ensures var l := CurrentLease(lm, id);
      CurrentLease(Unexpired(lm, now), id) == if l.Some? && Expired(l.value, now) then None else l
  {
    var after := Unexpired(lm, now);
    forall t | t in lm.byTask ensures t in after.byTask <==> !Expired(lm.leases[lm.byTask[t]], now) {
      var k := lm.byTask[t];
      if Expired(lm.leases[k], now) {
        assert k in Late(lm, now);
      }
    }
  }

  // ---------- each call makes its moves ----------

  /** From s to s' the task makes the call's move. */
  ghost predicate Follows(cfg: Config, s: System, op: Op, s': System, id: string, note: Note) {
    var (a, m) := (LifeIn(s, note, id), MoveOf(cfg, s, op, s', id));
    Enabled(id, a, m) && var b := TaskLife.Next(cfg, a, m); LifeIn(s', b.note, id) == b
  }

  lemma RegisterFollows(cfg: Config, s: System, op: Op, s': System, id: string, note: Note)
    requires op.Register? && Does(cfg, s, op, s') && op.t.id !in s.board.tasks
    requires op.t.state == Pending && op.t.retriesLeft == op.t.maxRetries >= 0
    ensures Follows(cfg, s, op, s', id, note)
  {
  }

  lemma AbortFollows(cfg: Config, s: System, op: Op, s': System, id: string, note: Note)
    requires op.AbortBatch? && Does(cfg, s, op, s') && op.stale.Keys !! s.board.tasks.Keys
    ensures Follows(cfg, s, op, s', id, note)
  {
  }

  lemma UpdateFollows(cfg: Config, s: System, op: Op, s': System, id: string, note: Note)
    requires op.UpdateCron? && Does(cfg, s, op, s') && s.board.tasks[op.id].state != Canceled
        && s.board.tasks[op.id].id == op.id
    ensures Follows(cfg, s, op, s', id, note)
  {
    hide Compiled;
    var t := Rewritten(s.board.tasks[op.id], op.cron, op.now);
    assert Saved(s.board.tasks, t) == s.board.tasks[op.id := t.(version := t.version + 1)];
    assert s' == s.(board := s.board.(tasks := s'.board.tasks, nextFire := s.board.nextFire[op.id := t.nextRunAt]));
    hide Saved, Tracked, Does, Rewritten;
  }

  lemma CancelFollows(cfg: Config, s: System, op: Op, s': System, id: string, note: Note)
    requires op.CancelTask? && Does(cfg, s, op, s')
    ensures Follows(cfg, s, op, s', id, note)
  {
  }

  lemma TriggerFollows(cfg: Config, s: System, op: Op, s': System, id: string, note: Note)
    requires op.TriggerNow? && Does(cfg, s, op, s')
    ensures Follows(cfg, s, op, s', id, note)
  {
  }

  lemma TickFollows(cfg: Config, s: System, op: Op, s': System, id: string, note: Note)
    requires op.Tick? && Does(cfg, s, op, s') && Placed(id, LifeIn(s, note, id))
    ensures Follows(cfg, s, op, s', id, note)
  {
    hide Follows, Ticked, Placed, LifeIn, MoveOf;
    TickDoes(cfg, s, op, s');
    if id in s.board.tasks {
      StoredTicks(cfg, s, op, s', id, note);
    } else {
      UnstoredTicks(cfg, s, op, s', id, note);
    }
  }

  lemma TickDoes(cfg: Config, s: System, op: Op, s': System)
    requires op.Tick? && Does(cfg, s, op, s')
    ensures s' == s.(board := Ticked(s.board, op.now))
  {
    hide Ticked;
  }

  lemma StoredTicks(cfg: Config, s: System, op: Op, s': System, id: string, note: Note)
    requires op.Tick? && s' == s.(board := Ticked(s.board, op.now)) && id in s.board.tasks
    ensures Follows(cfg, s, op, s', id, note)
  {
    hide CurrentLease, NextRun, Recurs;
  }

  lemma UnstoredTicks(cfg: Config, s: System, op: Op, s': System, id: string, note: Note)
    requires op.Tick? && s' == s.(board := Ticked(s.board, op.now)) && id !in s.board.tasks
        && Placed(id, LifeIn(s, note, id))
    ensures Follows(cfg, s, op, s', id, note)
  {
    hide CurrentLease, NextRun, Recurs;
  }

  /** An accepted result is always applied: RecordResult's later checks cannot fail. */
  lemma AcceptedIsApplied(cfg: Config, s: System, l: Lease, r: Execution.Report, note: Note)
    requires Accepts(s, l) && Fenced(l.taskId, LifeIn(s, note, l.taskId))
    ensures s.board.tasks[l.taskId].state == Leased
    ensures RecordOutcome(s, l, r, cfg.retryDelay).Applied?
    ensures Finished(s, l, r, cfg.retryDelay) == Recorded(s, l, r, cfg.retryDelay)
  {
    hide Recorded, Released;
  }

  lemma ReportFollows(cfg: Config, s: System, op: Op, s': System, id: string, note: Note)
    requires op.Finish? && Paired(s.lm) && Accepts(s, op.lease) && s.board.tasks[op.lease.taskId].state == Leased
    requires s' == Recorded(s, op.lease, op.report, cfg.retryDelay)
    ensures Follows(cfg, s, op, s', id, note)
  {
    hide Follows, Paired, Recorded, Released, CurrentLease;
    ReleaseKeepsPairs(s.lm, op.lease.id, id);
    RecordedMaps(s, op.lease, op.report, cfg.retryDelay);
    if id == op.lease.taskId {
      TaskReports(cfg, s, op, s', note);
    } else {
      CurrentIsKept(s.lm, id);
      CurrentIsKept(s.lm, op.lease.taskId);
      OtherReports(cfg, s, op, s', id, note);
    }
  }

  lemma RecordedMaps(s: System, l: Lease, r: Execution.Report, retryDelay: int)
    requires Accepts(s, l) && s.board.tasks[l.taskId].state == Leased
    ensures Recorded(s, l, r, retryDelay).lm == Released(s.lm, l.id)
  {
    hide Noted, Released, CurrentLease;
  }

  lemma TaskReports(cfg: Config, s: System, op: Op, s': System, note: Note)
    requires op.Finish? && Accepts(s, op.lease) && s.board.tasks[op.lease.taskId].state == Leased
    requires s' == Recorded(s, op.lease, op.report, cfg.retryDelay) && CurrentLease(s'.lm, op.lease.taskId).None?
    ensures Follows(cfg, s, op, s', op.lease.taskId, note)
  {
    assert MoveOf(cfg, s, op, s', op.lease.taskId) == Move.Report(op.lease, op.report);
    hide Noted, Released, MoveOf, ReportedNote;
  }

  lemma OtherReports(cfg: Config, s: System, op: Op, s': System, id: string, note: Note)
    requires op.Finish? && Accepts(s, op.lease) && s.board.tasks[op.lease.taskId].state == Leased
        && id != op.lease.taskId
    requires s' == Recorded(s, op.lease, op.report, cfg.retryDelay) && CurrentLease(s'.lm, id) == CurrentLease(s.lm, id)
    ensures Follows(cfg, s, op, s', id, note)
  {
    hide Noted, Released, CurrentLease, Follows;
    StayFollows(cfg, s, op, s', id, note);
  }

  lemma FinishFollows(cfg: Config, s: System, op: Op, s': System, id: string, note: Note, other: Note)
    requires op.Finish? && Does(cfg, s, op, s') && Paired(s.lm)
    requires Placed(id, LifeIn(s, note, id)) && Fenced(id, LifeIn(s, note, id))
        && Fenced(op.lease.taskId, LifeIn(s, other, op.lease.taskId))
    requires op.lease.id in s.lm.leases ==> s.lm.leases[op.lease.id].taskId == op.lease.taskId
    ensures Follows(cfg, s, op, s', id, note)
  {
    if Accepts(s, op.lease) {
      hide Follows, Placed, Fenced, Recorded, Paired, Released, LifeIn, Accepts, CurrentLease;
      AcceptedIsApplied(cfg, s, op.lease, op.report, other);
      ReportFollows(cfg, s, op, s', id, note);
    } else {
      ReleaseKeepsPairs(s.lm, op.lease.id, id);
    }
  }

  lemma RenewFollows(cfg: Config, s: System, op: Op, s': System, id: string, note: Note)
    requires op.Renew? && Does(cfg, s, op, s') && Paired(s.lm)
    ensures Follows(cfg, s, op, s', id, note)
  {
    hide Paired, Released, CurrentLease, Follows;
    ReleaseKeepsPairs(s.lm, op.leaseId, id);
    if op.leaseId in s.lm.leases {
      ExtendKeepsPairs(s.lm, op.leaseId, op.now + cfg.ttl, id);
    }
    CurrentIsKept(s.lm, id);
    TaskRenewed(cfg, s, op, s', id, note, RenewOutcome(s.board.tasks, s.lm, op.leaseId, op.workerId));
  }

  /** Current finds exactly the recorded leases. */
  lemma CurrentIffRecorded(lm: LeaseMaps, l: Lease)
    requires Paired(lm)
    ensures CurrentLease(lm, l.taskId) == Some(l) <==> l.id in lm.leases && lm.leases[l.id] == l
  {
  }

  lemma CurrentIsKept(lm: LeaseMaps, id: string)
    requires Paired(lm)
    ensures var l := CurrentLease(lm, id);
      l.Some? ==> l.value.id in lm.leases && lm.leases[l.value.id] == l.value && l.value.taskId == id
  {
  }

  lemma TaskRenewed(cfg: Config, s: System, op: Op, s': System, id: string, note: Note, r: RenewResult)
    requires op.Renew? && s'.board == s.board && r == RenewOutcome(s.board.tasks, s.lm, op.leaseId, op.workerId)
    requires var (l, l') := (CurrentLease(s.lm, id), CurrentLease(s'.lm, id));
      && (l.Some? ==> l.value.id in s.lm.leases && s.lm.leases[l.value.id] == l.value && l.value.taskId == id)
      && l' == if l.None? || l.value.id != op.leaseId then l
               else if r.Renewed? then Some(l.value.(deadline := op.now + cfg.ttl))
               else if r.Stale? then None
               else l
    ensures Follows(cfg, s, op, s', id, note)
  {
    hide CurrentLease;
  }

  /** The tasks a reap takes back are those whose current lease has expired and still holds. */
  lemma ReapableIsCurrent(ts: Tasks, lm: LeaseMaps, now: int, id: string)
    requires Paired(lm)
    ensures id in Reapable(ts, lm, now) <==>
        CurrentLease(lm, id).Some? && Expired(CurrentLease(lm, id).value, now) && Holds(ts, CurrentLease(lm, id).value)
  {
    if id in lm.byTask && Expired(lm.leases[lm.byTask[id]], now) {
      assert lm.byTask[id] in Late(lm, now);
    }
  }

  lemma ReapFollows(cfg: Config, s: System, op: Op, s': System, id: string, note: Note)
    requires op.ReapExpired? && Does(cfg, s, op, s')
    requires Paired(s.lm) && Placed(id, LifeIn(s, note, id)) && Fenced(id, LifeIn(s, note, id))
    ensures Follows(cfg, s, op, s', id, note)
  {
    hide Reapable, Unexpired, Follows, ReadyAgain, Enqueued;
    ReapKeepsPairs(s.lm, op.now, id);
    ReapableIsCurrent(s.board.tasks, s.lm, op.now, id);
    TaskReaped(cfg, s, op, s', id, note, Reapable(s.board.tasks, s.lm, op.now));
  }

  lemma TaskReaped(cfg: Config, s: System, op: Op, s': System, id: string, note: Note, ids: set<string>)
    requires op.ReapExpired? && Placed(id, LifeIn(s, note, id)) && Fenced(id, LifeIn(s, note, id))
    requires s'.board == s.board.(tasks := ReadyAgain(s.board.tasks, ids),
        ready := Enqueued(s.board.tasks, s.board.ready, ids, op.now))
    requires var (l, l') := (CurrentLease(s.lm, id), CurrentLease(s'.lm, id));
      && (l' == if l.Some? && Expired(l.value, op.now) then None else l)
      && (l.Some? ==> l.value.taskId == id)
      && (id in ids <==> l.Some? && Expired(l.value, op.now) && Holds(s.board.tasks, l.value))
    ensures Follows(cfg, s, op, s', id, note)
  {
    hide CurrentLease;
    var l := CurrentLease(s.lm, id);
    if l.None? || !Expired(l.value, op.now) {
      StayFollows(cfg, s, op, s', id, note);
    } else {
      assert MoveOf(cfg, s, op, s', id) == if id in ids then Move.Reap(op.now) else LoseLease;
      hide MoveOf;
    }
  }

  ghost predicate OnlyReady(ts: Tasks, q: Contents) {
    forall k :: k in q ==> k in ts && ts[k].state == Ready
  }

  /** With only ready tasks queued, Assign skips nothing: it settles on the foremost entry. */
  lemma SettlesOnForemost(ts: Tasks, q: Contents, id: string, rest: Contents)
    requires OnlyReady(ts, q) && Settles(ts, q, id, rest)
    ensures id in q && id in ts && ts[id].state == Ready && rest == q - {id} && Foremost(ReadyLess, q, id)
  {
    assert forall k :: k in q - {id} ==> k in rest;
  }

  lemma AssignFollows(cfg: Config, s: System, op: Op, s': System, id: string, note: Note)
    requires op.Assign? && Does(cfg, s, op, s') && Paired(s.lm) && OnlyReady(s.board.tasks, s.board.ready)
    requires op.r.Assigned? ==> op.leaseId !in s.lm.leases && op.r.lease.taskId !in s.lm.byTask
    ensures Follows(cfg, s, op, s', id, note)
  {
    var ts, q, q' := s.board.tasks, s.board.ready, s'.board.ready;
    match op.r
    case NoReadyTask =>
      NothingReadyFollows(cfg, s, op, s', id, note);
    case TaskMissing =>
      assert false;
    case NoWorker =>
      RollBackFollows(cfg, s, op, s', id, note);
    case Assigned(l) =>
      SettlesOnForemost(ts, q, l.taskId, q');
      LendFollows(cfg, s, op, s', id, note);
  }

  lemma StayFollows(cfg: Config, s: System, op: Op, s': System, id: string, note: Note)
    requires MoveOf(cfg, s, op, s', id) == Stay && LifeIn(s', note, id) == LifeIn(s, note, id)
    ensures Follows(cfg, s, op, s', id, note)
  {
    hide MoveOf;
  }

  lemma NothingReadyFollows(cfg: Config, s: System, op: Op, s': System, id: string, note: Note)
    requires op.Assign? && op.r.NoReadyTask? && Does(cfg, s, op, s') && OnlyReady(s.board.tasks, s.board.ready)
    ensures Follows(cfg, s, op, s', id, note)
  {
    assert s.board.ready == map[];
    assert s' == s;
    StayFollows(cfg, s, op, s', id, note);
  }

  lemma RollBackFollows(cfg: Config, s: System, op: Op, s': System, id: string, note: Note)
    requires op.Assign? && op.r.NoWorker? && AssignStep(s, s', op.now, cfg.ttl, op.worker, op.leaseId, op.r)
    requires OnlyReady(s.board.tasks, s.board.ready)
    ensures Follows(cfg, s, op, s', id, note)
  {
    hide Follows, Settles, OnlyReady, Foremost, CurrentLease, MoveOf, LifeIn;
    var ts, q := s.board.tasks, s.board.ready;
    var k :| RolledBack(ts, q, s'.board.tasks, s'.board.ready, op.now, k);
    var rest :| Settles(ts, q, k, rest) && s'.board.ready == rest[k := Item(k, ts[k].priority, op.now)];
    SettlesOnForemost(ts, q, k, rest);
    OneRollsBack(cfg, s, op, s', id, note, k);
  }

  lemma OneRollsBack(cfg: Config, s: System, op: Op, s': System, id: string, note: Note, k: string)
    requires op.Assign? && op.r.NoWorker? && k in s.board.ready && k in s.board.tasks && s.board.tasks[k].state == Ready
    requires var (ts, q) := (s.board.tasks, s.board.ready);
      s' == s.(board := s.board.(tasks := ts[k := ts[k].(version := ts[k].version + 2)],
                                 ready := (q - {k})[k := Item(k, ts[k].priority, op.now)]))
    ensures Follows(cfg, s, op, s', id, note)
  {
    assert MoveOf(cfg, s, op, s', id) == if id == k then RollBack else Stay;
    hide MoveOf, CurrentLease;
  }

  lemma LendFollows(cfg: Config, s: System, op: Op, s': System, id: string, note: Note)
    requires op.Assign? && op.r.Assigned? && Does(cfg, s, op, s') && Paired(s.lm)
    requires var l := op.r.lease;
      && op.leaseId !in s.lm.leases && l.taskId !in s.lm.byTask
      && l.taskId in s.board.ready && s.board.tasks[l.taskId].state == Ready
      && s'.board.ready == s.board.ready - {l.taskId}
    ensures Follows(cfg, s, op, s', id, note)
  {
    hide Settles, Paired, WithLease, CurrentLease;
    GrantKeepsPairs(s.lm, op.r.lease, id);
  }

  lemma PurgeFollows(cfg: Config, s: System, op: Op, s': System, id: string, note: Note)
    requires op.Purge? && Does(cfg, s, op, s')
    ensures Follows(cfg, s, op, s', id, note)
  {
    StayFollows(cfg, s, op, s', id, note);
  }

  // ---------- every call keeps the invariant ----------

  lemma QueuedAreReady(w: World)
    requires Inv(w)
    ensures OnlyReady(w.sys.board.tasks, w.sys.board.ready)
  {
    hide Fenced, Accounted, Budgeted, BackedOff, Paired, Owned;
    forall k | k in w.sys.board.ready ensures k in w.sys.board.tasks && w.sys.board.tasks[k].state == Ready {
      assert Placed(k, LifeOf(w, k));
    }
  }

  /** Every call makes, on every task, the move that MoveOf names. */
  lemma CallsMove(cfg: Config, w: World, op: Op, w': World, id: string)
    requires Inv(w) && Step(cfg, w, op, w')
    ensures Follows(cfg, w.sys, op, w'.sys, id, NoteOf(w, id))
  {
    hide Follows, Does, Paired, Owned, Fenced, Accounted, Budgeted, BackedOff, LifeIn;
    var s, s', note := w.sys, w'.sys, NoteOf(w, id);
    assert Sound(id, LifeOf(w, id), w.clock);
    match op
    case Register(t) => RegisterFollows(cfg, s, op, s', id, note);
    case AbortBatch(stale) => AbortFollows(cfg, s, op, s', id, note);
    case UpdateCron(k, cron, now) =>
      StoredUnderId(w, k);
      UpdateFollows(cfg, s, op, s', id, note);
    case CancelTask(k) => CancelFollows(cfg, s, op, s', id, note);
    case TriggerNow(k, now) => TriggerFollows(cfg, s, op, s', id, note);
    case Tick(now) => TickFollows(cfg, s, op, s', id, note);
    case Assign(now, worker, leaseId, r) =>
      QueuedAreReady(w);
      if r.Assigned? {
        Unleased(cfg, w, op, w');
      }
      AssignFollows(cfg, s, op, s', id, note);
    case Finish(l, report) =>
      assert Sound(l.taskId, LifeOf(w, l.taskId), w.clock);
      OwnedLease(w, l.id);
      FinishFollows(cfg, s, op, s', id, note, NoteOf(w, l.taskId));
    case Renew(leaseId, workerId, now) => RenewFollows(cfg, s, op, s', id, note);
    case ReapExpired(now) => ReapFollows(cfg, s, op, s', id, note);
    case Purge(cutoff) => PurgeFollows(cfg, s, op, s', id, note);
  }

  lemma StoredUnderId(w: World, id: string)
    requires Inv(w) && id in w.sys.board.tasks
    ensures w.sys.board.tasks[id].id == id
  {
    assert Sound(id, LifeOf(w, id), w.clock);
  }

  lemma OwnedLease(w: World, leaseId: string)
    requires Inv(w)
    ensures leaseId in w.sys.lm.leases ==> leaseId in w.owner && w.owner[leaseId] == w.sys.lm.leases[leaseId].taskId
  {
  }

  /** The lease that Assign grants is new, and its task has none. */
  lemma Unleased(cfg: Config, w: World, op: Op, w': World)
    requires Inv(w) && Step(cfg, w, op, w') && op.Assign? && op.r.Assigned?
    ensures op.leaseId !in w.sys.lm.leases && op.r.lease.taskId !in w.sys.lm.byTask
    ensures op.r.lease.id == op.leaseId
  {
    hide Accounted, Budgeted, BackedOff, Enabled;
    QueuedAreReady(w);
    var id := op.r.lease.taskId;
    assert Sound(id, LifeOf(w, id), w.clock);
    SettlesOnForemost(w.sys.board.tasks, w.sys.board.ready, id, w'.sys.board.ready);
  }

  lemma LifeAfter(cfg: Config, w: World, op: Op, w': World, id: string)
    requires Inv(w) && Step(cfg, w, op, w')
    ensures var m := MoveOf(cfg, w.sys, op, w'.sys, id);
      Moves(cfg, id, LifeOf(w, id), m, LifeOf(w', id)) && InTime(m, w.clock, w'.clock)
  {
    hide Does, Paired, Owned, Fenced, Accounted, Budgeted, BackedOff, MoveOf, Enabled, TaskLife.Next, Allowed;
    CallsMove(cfg, w, op, w', id);
    var (a, m) := (LifeOf(w, id), MoveOf(cfg, w.sys, op, w'.sys, id));
    assert Sound(id, a, w.clock);
    MovesInTime(cfg, w, op, w', id);
    KeepsPlaced(cfg, id, a, m);
  }

  lemma MovesInTime(cfg: Config, w: World, op: Op, w': World, id: string)
    requires Step(cfg, w, op, w')
    ensures InTime(MoveOf(cfg, w.sys, op, w'.sys, id), w.clock, w'.clock)
  {
    hide Does;
  }

  lemma FinishReleases(s: System, l: Lease, r: Execution.Report, retryDelay: int)
    ensures Finished(s, l, r, retryDelay).lm == Released(s.lm, l.id)
  {
    hide Noted;
  }

  /** Only a grant adds a lease, and every other call keeps the maps paired too. */
  lemma MapsKept(cfg: Config, w: World, op: Op, w': World)
    requires Inv(w) && Step(cfg, w, op, w')
    ensures Paired(w'.sys.lm)
    ensures if op.Assign?
        && op.r.Assigned? then w'.sys.lm == WithLease(w.sys.lm, op.r.lease) else NoNewLease(w.sys.lm, w'.sys.lm)
  {
    hide Paired, NoNewLease, Owned, Sound, MapsAfter, Does, NotesAfter;
    MapsOf(cfg, w.sys, op, w'.sys);
    if op.Assign? && op.r.Assigned? {
      Unleased(cfg, w, op, w');
    }
    MapsAfterPaired(cfg, w.sys, op);
  }

  /** The lease maps after a call. */
  function MapsAfter(cfg: Config, s: System, op: Op): LeaseMaps {
    match op
    case Assign(_, _, _, Assigned(l)) => WithLease(s.lm, l)
    case Finish(l, _) => Released(s.lm, l.id)
    case Renew(leaseId, workerId, now) => RenewedMaps(s.board.tasks, s.lm, leaseId, workerId, now + cfg.ttl)
    case ReapExpired(now) => Unexpired(s.lm, now)
    case _ => s.lm
  }

  lemma MapsOf(cfg: Config, s: System, op: Op, s': System)
    requires Does(cfg, s, op, s')
    ensures s'.lm == MapsAfter(cfg, s, op)
  {
    hide Released, Unexpired, RenewedMaps, Recorded, RecordOutcome, Rewritten, Ticked, Settles, Purged;
    if op.Finish? {
      FinishReleases(s, op.lease, op.report, cfg.retryDelay);
    }
  }

  lemma MapsAfterPaired(cfg: Config, s: System, op: Op)
    requires Paired(s.lm)
    requires op.Assign? && op.r.Assigned? ==> op.r.lease.id !in s.lm.leases && op.r.lease.taskId !in s.lm.byTask
    ensures Paired(MapsAfter(cfg, s, op))
    ensures if op.Assign? && op.r.Assigned? then MapsAfter(cfg, s, op) == WithLease(s.lm, op.r.lease)
            else NoNewLease(s.lm, MapsAfter(cfg, s, op))
  {
    hide Paired, NoNewLease, Released, Unexpired;
    NoneNew(s.lm);
    match op
    case Assign(_, _, _, r) =>
      if r.Assigned? {
        GrantKeepsPairs(s.lm, r.lease, "");
      }
    case Finish(l, _) => ReleaseKeepsPairs(s.lm, l.id, "");
    case Renew(leaseId, _, now) =>
      ReleaseKeepsPairs(s.lm, leaseId, "");
      if leaseId in s.lm.leases {
        ExtendKeepsPairs(s.lm, leaseId, now + cfg.ttl, "");
      }
    case ReapExpired(now) => ReapKeepsPairs(s.lm, now, "");
    case _ =>
  }

  lemma NoneNew(lm: LeaseMaps)
    ensures NoNewLease(lm, lm)
  {
  }

  lemma StillOwned(lm: LeaseMaps, lm': LeaseMaps, owner: map<string, string>)
    requires Owned(lm, owner) && NoNewLease(lm, lm')
    ensures Owned(lm', owner)
  {
  }

  lemma GrantOwned(lm: LeaseMaps, l: Lease, owner: map<string, string>)
    requires Owned(lm, owner)
    ensures l.id !in owner ==> Owned(WithLease(lm, l), owner[l.id := l.taskId])
  {
  }

  lemma PairsKept(cfg: Config, w: World, op: Op, w': World)
    requires Inv(w) && Step(cfg, w, op, w')
    ensures Paired(w'.sys.lm) && Owned(w'.sys.lm, w'.owner)
  {
    hide Does, Paired, Sound, Owned, NoNewLease, WithLease;
    MapsKept(cfg, w, op, w');
    if op.Assign? && op.r.Assigned? {
      Unleased(cfg, w, op, w');
      GrantOwned(w.sys.lm, op.r.lease, w.owner);
    } else {
      StillOwned(w.sys.lm, w'.sys.lm, w.owner);
    }
  }

  lemma SoundKept(cfg: Config, w: World, op: Op, w': World, id: string)
    requires Inv(w) && Step(cfg, w, op, w')
    ensures Sound(id, LifeOf(w', id), w'.clock)
  {
    hide Does, Paired, Owned, Placed, Fenced, Accounted, Budgeted, BackedOff, Enabled, TaskLife.Next, MoveOf;
    LifeAfter(cfg, w, op, w', id);
    assert Sound(id, LifeOf(w, id), w.clock);
    MovesKeepSound(cfg, id, LifeOf(w, id), MoveOf(cfg, w.sys, op, w'.sys, id), w.clock, w'.clock);
  }

  lemma InvKept(cfg: Config, w: World, op: Op, w': World)
    requires Inv(w) && Step(cfg, w, op, w')
    ensures Inv(w')
  {
    hide Does, Paired, Owned, Sound, LifeIn, Allowed;
    PairsKept(cfg, w, op, w');
    forall id ensures Sound(id, LifeOf(w', id), w'.clock) {
      SoundKept(cfg, w, op, w', id);
    }
    forall id | id in w'.sys.board.tasks ensures id in w'.drawn {
      OnlyRegisterAdds(cfg, w, op, w', id);
    }
  }

  lemma OnlyRegisterAdds(cfg: Config, w: World, op: Op, w': World, id: string)
    requires Inv(w) && Step(cfg, w, op, w')
    ensures id in w'.sys.board.tasks <==> id in w.sys.board.tasks || (op.Register? && op.t.id == id)
  {
    hide Does, Inv, Enabled, TaskLife.Next, Allowed;
    LifeAfter(cfg, w, op, w', id);
    OnlyEnrollAdds(cfg, id, LifeOf(w, id), MoveOf(cfg, w.sys, op, w'.sys, id));
  }
}
