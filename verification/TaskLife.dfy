/**
 One task as the whole system sees it, and every way a call can move it. All
 the protocol's promises about a single task are invariants of these moves.
 */
module TaskLife {
  import opened Model
  import opened Store
  import opened Dispatch
  import opened Leasing
  import opened Execution

  datatype Config = Config(ttl: int, retryDelay: int)

  datatype Grant = Grant(lease: Lease, at: int)

  /** How a grant ended; deadline is the last one the lease was given. */
  datatype End = ByResult(leaseId: string) | ByReap(leaseId: string, deadline: int, at: int)

  /**
   What has happened to a task so far. due is the back-off its last failure
   asked for, until a tick has reached it; edited tells that the task was
   saved while leased, rushed that it was triggered while it waited.
   */
  datatype Note = Note(
    grants: seq<Grant>,
    ends: seq<End>,
    written: seq<ExecutionRecord>,
    deadline: int,
    due: Option<int>,
    edited: bool,
    rushed: bool,
    canceledLeased: bool)

  const BLANK := Note([], [], [], 0, None, false, false, false)

  /** A task with its queue entries, its index entry, its current lease and its history. */
  datatype Life = Life(
    task: Option<Task>,
    queued: bool,
    waits: Option<int>,
    fires: Option<int>,
    lease: Option<Lease>,
    note: Note)

  // ---------- counting ----------

  function Failures(s: seq<ExecutionRecord>): (n: nat)
    ensures n <= |s|
  {
    if s == [] then 0
    else Failures(s[..|s| - 1]) + if s[|s| - 1].status == SUCCESS then 0 else 1
  }

  function Reaps(s: seq<End>): (n: nat)
    ensures n <= |s|
  {
    if s == [] then 0
    else Reaps(s[..|s| - 1]) + if s[|s| - 1].ByReap? then 1 else 0
  }

  lemma FailuresMore(s: seq<ExecutionRecord>, rec: ExecutionRecord)
    ensures Failures(s + [rec]) == Failures(s) + if rec.status == SUCCESS then 0 else 1
  {
    assert (s + [rec])[..|s|] == s;
  }

  lemma ReapsMore(s: seq<End>, e: End)
    ensures Reaps(s + [e]) == Reaps(s) + if e.ByReap? then 1 else 0
  {
    assert (s + [e])[..|s|] == s;
  }

  // ---------- what holds of every task ----------

  /** Where a task is found depends on its state; a ready one is always queued or waiting. */
  ghost predicate Placed(id: string, a: Life) {
    match a.task
    case None => !a.queued && a.waits.None? && a.lease.None? && a.note == BLANK
    case Some(t) =>
      && t.id == id
      && (a.queued ==> t.state == Ready)
      && (a.waits.Some? ==> t.state != Pending)
      && (t.state == Ready ==> a.queued || a.waits.Some?)
      && (t.state == Pending ==> a.fires == Some(t.nextRunAt))
  }

  /** A lease belongs to a leased or a canceled task, and matches its version only while the task is leased. */
  ghost predicate Fenced(id: string, a: Life) {
    a.task.Some? ==>
      var t, n := a.task.value, a.note;
      && (forall i :: 0 <= i < |n.grants| ==>
            n.grants[i].lease.taskId == id && n.grants[i].lease.taskVersion <= t.version)
      && (forall i :: 0 <= i < |n.grants| && n.grants[i].lease.taskVersion == t.version ==>
            t.state == Leased && i == |n.grants| - 1)
      && (a.lease.Some? ==>
          && (t.state == Leased || t.state == Canceled)
          && |n.grants| > 0 && n.grants[|n.grants| - 1].lease.(deadline := n.deadline) == a.lease.value)
      && (n.edited ==> t.state == Leased || t.state == Canceled)
      && (t.state == Leased ==> if n.edited then a.lease.Some? ==> a.lease.value.taskVersion < t.version
                                else a.lease.Some? && a.lease.value.taskVersion == t.version)
  }

  /** Every grant but the last has ended, in order, and a reap came after the deadline and before the next grant. */
  ghost predicate Accounted(a: Life, clock: int) {
    a.task.Some? ==>
      var t, n := a.task.value, a.note;
      && |n.grants| == |n.ends| + (if t.state == Leased || n.canceledLeased then 1 else 0)
      && (n.canceledLeased ==> t.state == Canceled)
      && |n.ends| == |n.written| + Reaps(n.ends)
      && (forall i :: 0 <= i < |n.grants| ==> n.grants[i].at <= clock)
      && (forall i :: 0 <= i < |n.ends| ==> EndsInTime(n, i, clock))
  }

  ghost predicate EndsInTime(n: Note, i: nat, clock: int)
    requires i < |n.ends| <= |n.grants|
  {
    && n.ends[i].leaseId == n.grants[i].lease.id
    && (n.ends[i].ByReap? ==>
        && n.ends[i].deadline < n.ends[i].at <= clock
        && (i + 1 < |n.grants| ==> n.ends[i].at <= n.grants[i + 1].at))
  }

  /** Failures use up the retries and one more is death; at most one success, and only as the end. */
  ghost predicate Budgeted(a: Life) {
    a.task.Some? ==>
      var t, n := a.task.value, a.note;
      && Failures(n.written) + t.retriesLeft == t.maxRetries + (if t.state == Dead then 1 else 0)
      && |n.written| - Failures(n.written) == (if t.state == Succeeded then 1 else 0)
      && t.retriesLeft >= 0
  }

  /** Unless it was rushed, a failed task waits for the time its failure asked for, and is nowhere else. */
  ghost predicate BackedOff(a: Life) {
    a.task.Some? && !a.note.rushed ==>
      && a.waits == a.note.due
      && (a.waits.Some? ==> a.task.value.state == Ready && !a.queued)
  }

  ghost predicate Sound(id: string, a: Life, clock: int) {
    Placed(id, a) && Fenced(id, a) && Accounted(a, clock) && Budgeted(a) && BackedOff(a)
  }

  // ---------- the moves ----------

  datatype Move =
    | Stay
    | Enroll(t: Task)
    | Reindex(fires: Option<int>)
    | TickAt(now: int)
    | Edit(trigger: TriggerSpec, next: int)
    | Cancel
    | Trigger
    | Lend(lease: Lease, now: int)
    | RollBack
    | Report(lease: Lease, report: Execution.Report)
    | LoseLease
    | Extend(deadline: int)
    | Reap(now: int)

  /** When a move can happen. */
  ghost predicate Enabled(id: string, a: Life, m: Move) {
    match m
    case Stay => true
    case Enroll(t) => a.task.None? && t.id == id && t.state == Pending && t.retriesLeft == t.maxRetries >= 0
    case Reindex(_) => a.task.None?
    case TickAt(_) => a.task.Some?
    case Edit(_, _) => a.task.Some? && a.task.value.state != Canceled
    case Cancel => a.task.Some? && !a.task.value.state.Terminal()
    case Trigger => a.task.Some? && Triggerable(a.task.value)
    case Lend(l, _) =>
      && a.task.Some? && a.task.value.state == Ready && a.queued
      && l.taskId == id && l.taskVersion == a.task.value.version + 1
    case RollBack => a.task.Some? && a.task.value.state == Ready && a.queued
    case Report(l, _) =>
      && a.task.Some? && a.lease.Some? && a.lease.value.id == l.id && l.taskId == id
      && a.lease.value.taskVersion == a.task.value.version
    case LoseLease => a.task.Some? && a.lease.Some? && a.lease.value.taskVersion != a.task.value.version
    case Extend(_) => a.task.Some? && a.lease.Some?
    case Reap(now) =>
      && a.task.Some? && a.lease.Some? && Expired(a.lease.value, now)
      && a.task.value.state == Leased && a.lease.value.taskVersion == a.task.value.version
  }

  ghost function TickedLife(a: Life, now: int): Life
    requires a.task.Some?
  {
    var t := a.task.value;
    var fired := t.state == Pending && a.fires.Some? && a.fires.value <= now;
    var popped := a.waits.Some? && a.waits.value <= now;
    var t' := if fired then FiredTask(t, now) else t;
    Life(Some(t'),
         a.queued || fired || (popped && t'.state == Ready),
         if popped then None else a.waits,
         if fired && Recurs(t) then Some(NextRun(t, now)) else a.fires,
         a.lease,
         TickedNote(a.note, now))
  }

  function TickedNote(n: Note, now: int): Note {
    if n.due.Some? && n.due.value <= now then n.(due := None) else n
  }

  function ReportedNote(n: Note, t: Task, l: Lease, r: Execution.Report, retryDelay: int): Note {
    n.(written := n.written + [RecordOf(l, r)],
       ends := n.ends + [ByResult(l.id)],
       due := if r.status != SUCCESS && t.retriesLeft > 0 then Some(r.finishedAt + retryDelay) else n.due)
  }

  /** A retry keeps an earlier waiting time. */
  function Earlier(waits: Option<int>, at: int): Option<int> {
    if waits.Some? && waits.value <= at then waits else Some(at)
  }

  function ReportedLife(a: Life, l: Lease, r: Execution.Report, retryDelay: int): Life
    requires a.task.Some?
  {
    var t := a.task.value;
    var b := a.(lease := None, note := ReportedNote(a.note, t, l, r, retryDelay));
    if r.status == SUCCESS then b.(task := Some(Moved(t, Succeeded)))
    else if t.retriesLeft > 0 then
      b.(task := Some(RetriedTask(t, r.finishedAt + retryDelay)), waits := Earlier(a.waits, r.finishedAt + retryDelay))
    else b.(task := Some(Moved(t, Dead)))
  }

  /** Where a move takes a task. */
  ghost function Next(cfg: Config, a: Life, m: Move): Life
    requires !m.Stay? && !m.Enroll? && !m.Reindex? ==> a.task.Some?
    requires m.Lend? || m.Report? || m.Reap? ==> a.task.Some?
    requires m.Extend? || m.Reap? ==> a.lease.Some?
  {
    match m
    case Stay => a
    case Enroll(t) => a.(task := Some(t.(version := 1)), fires := Some(t.nextRunAt), note := BLANK)
    case Reindex(fires) => a.(fires := fires)
    case TickAt(now) => TickedLife(a, now)
    case Edit(trigger, next) =>
      var t := a.task.value;
      a.(task := Some(t.(trigger := trigger, nextRunAt := next, version := t.version + 1)), fires := Some(next),
         note := if t.state == Leased then a.note.(edited := true) else a.note)
    case Cancel =>
      var t := a.task.value;
      a.(task := Some(Moved(t, Canceled)), queued := false, waits := None, fires := None,
         note := a.note.(due := None, canceledLeased := t.state == Leased))
    case Trigger =>
      var t := a.task.value;
      a.(task := Some(if t.state == Pending then Moved(t, Ready) else t), queued := true,
         note := if a.waits.Some? then a.note.(rushed := true) else a.note)
    case Lend(l, now) =>
      a.(task := Some(Moved(a.task.value, Leased)), queued := false, lease := Some(l),
         note := a.note.(grants := a.note.grants + [Grant(l, now)], deadline := l.deadline))
    case RollBack =>
      a.(task := Some(a.task.value.(version := a.task.value.version + 2)))
    case Report(l, r) => ReportedLife(a, l, r, cfg.retryDelay)
    case LoseLease => a.(lease := None)
    case Extend(deadline) =>
      a.(lease := Some(a.lease.value.(deadline := deadline)), note := a.note.(deadline := deadline))
    case Reap(now) =>
      a.(task := Some(Moved(a.task.value, Ready)), queued := true, lease := None,
         note := a.note.(ends := a.note.ends + [ByReap(a.lease.value.id, a.note.deadline, now)]))
  }

  ghost predicate Moves(cfg: Config, id: string, a: Life, m: Move, b: Life) {
    Enabled(id, a, m) && b == Next(cfg, a, m)
  }

  // ---------- every move keeps everything ----------

  lemma KeepsPlaced(cfg: Config, id: string, a: Life, m: Move)
    requires Enabled(id, a, m) && Placed(id, a) && Fenced(id, a)
    ensures Placed(id, Next(cfg, a, m))
  {
  }

  lemma KeepsFenced(cfg: Config, id: string, a: Life, m: Move)
    requires Enabled(id, a, m) && Placed(id, a) && Fenced(id, a)
    ensures Fenced(id, Next(cfg, a, m))
  {
    hide Enabled, Placed, Fenced, Next;
    if m.Lend? {
      LendKeepsFenced(cfg, id, a, m);
    } else {
      OthersKeepFenced(cfg, id, a, m);
    }
  }

  lemma LendKeepsFenced(cfg: Config, id: string, a: Life, m: Move)
    requires m.Lend? && Enabled(id, a, m) && Fenced(id, a)
    ensures Fenced(id, Next(cfg, a, m))
  {
    hide TickedLife, ReportedLife;
  }

  lemma OthersKeepFenced(cfg: Config, id: string, a: Life, m: Move)
    requires !m.Lend? && Enabled(id, a, m) && Placed(id, a) && Fenced(id, a)
    ensures Fenced(id, Next(cfg, a, m))
  {
    hide NextRun, RecordOf;
  }

  lemma KeepsBudget(cfg: Config, id: string, a: Life, m: Move)
    requires Enabled(id, a, m) && Fenced(id, a) && Budgeted(a)
    ensures Budgeted(Next(cfg, a, m))
  {
    hide Enabled, Fenced, Budgeted, Next;
    if m.Report? {
      ReportKeepsBudget(cfg, id, a, m);
    } else {
      OthersKeepBudget(cfg, id, a, m);
    }
  }

  lemma ReportKeepsBudget(cfg: Config, id: string, a: Life, m: Move)
    requires m.Report? && Enabled(id, a, m) && Fenced(id, a) && Budgeted(a)
    ensures Budgeted(Next(cfg, a, m))
  {
    hide Failures, TickedLife;
    FailuresMore(a.note.written, RecordOf(m.lease, m.report));
  }

  lemma OthersKeepBudget(cfg: Config, id: string, a: Life, m: Move)
    requires !m.Report? && Enabled(id, a, m) && Fenced(id, a) && Budgeted(a)
    ensures Budgeted(Next(cfg, a, m))
  {
    hide Failures, ReportedLife, NextRun;
  }

  lemma KeepsBackedOff(cfg: Config, id: string, a: Life, m: Move)
    requires Enabled(id, a, m) && Placed(id, a) && Fenced(id, a) && BackedOff(a)
    ensures BackedOff(Next(cfg, a, m))
  {
  }

  /** The instant a move carries, if any. */
  predicate InTime(m: Move, clock: int, clock': int) {
    clock <= clock' && (m.Lend? || m.Reap? ==> clock <= m.now <= clock')
  }

  lemma KeepsAccounts(cfg: Config, id: string, a: Life, m: Move, clock: int, clock': int)
    requires Enabled(id, a, m) && Fenced(id, a) && Accounted(a, clock) && InTime(m, clock, clock')
    ensures Accounted(Next(cfg, a, m), clock')
  {
    hide Enabled, Fenced, Accounted, Next;
    if m.Lend? {
      LendKeepsAccounts(cfg, id, a, m, clock, clock');
    } else if m.Report? {
      ReportKeepsAccounts(cfg, id, a, m, clock, clock');
    } else if m.Reap? {
      ReapKeepsAccounts(cfg, id, a, m, clock, clock');
    } else {
      OthersKeepAccounts(cfg, id, a, m, clock, clock');
    }
  }

  lemma EndsLast(n: Note, n': Note, clock: int, clock': int)
    requires n.ends == n'.ends && n.grants <= n'.grants && |n.ends| <= |n.grants| && clock <= clock'
    requires forall i :: 0 <= i < |n.ends| ==> EndsInTime(n, i, clock)
    requires |n.grants| < |n'.grants| ==> |n.ends| == |n.grants| && clock <= n'.grants[|n.grants|].at
    ensures forall i :: 0 <= i < |n'.ends| ==> EndsInTime(n', i, clock')
  {
    forall i | 0 <= i < |n'.ends| ensures EndsInTime(n', i, clock') {
      assert EndsInTime(n, i, clock);
    }
  }

  lemma EndsMore(n: Note, n': Note, e: End, clock: int, clock': int)
    requires n'.ends == n.ends + [e] && n'.grants == n.grants && |n.grants| == |n.ends| + 1 && clock <= clock'
    requires forall i :: 0 <= i < |n.ends| ==> EndsInTime(n, i, clock)
    requires e.leaseId == n.grants[|n.ends|].lease.id && (e.ByReap? ==> e.deadline < e.at <= clock')
    ensures forall i :: 0 <= i < |n'.ends| ==> EndsInTime(n', i, clock')
    ensures Reaps(n'.ends) == Reaps(n.ends) + if e.ByReap? then 1 else 0
  {
    hide Reaps;
    ReapsMore(n.ends, e);
    forall i | 0 <= i < |n'.ends| ensures EndsInTime(n', i, clock') {
      assert i < |n.ends| ==> EndsInTime(n, i, clock);
    }
  }

  lemma LendKeepsAccounts(cfg: Config, id: string, a: Life, m: Move, clock: int, clock': int)
    requires m.Lend? && Enabled(id, a, m) && Accounted(a, clock) && InTime(m, clock, clock')
    ensures Accounted(Next(cfg, a, m), clock')
  {
    hide Reaps, EndsInTime, TickedLife, ReportedLife;
    EndsLast(a.note, Next(cfg, a, m).note, clock, clock');
  }

  lemma ReportKeepsAccounts(cfg: Config, id: string, a: Life, m: Move, clock: int, clock': int)
    requires m.Report? && Enabled(id, a, m) && Fenced(id, a) && Accounted(a, clock) && InTime(m, clock, clock')
    ensures Accounted(Next(cfg, a, m), clock')
  {
    hide Reaps, EndsInTime, TickedLife, RecordOf;
    EndsMore(a.note, Next(cfg, a, m).note, ByResult(m.lease.id), clock, clock');
  }

  lemma ReapKeepsAccounts(cfg: Config, id: string, a: Life, m: Move, clock: int, clock': int)
    requires m.Reap? && Enabled(id, a, m) && Fenced(id, a) && Accounted(a, clock) && InTime(m, clock, clock')
    ensures Accounted(Next(cfg, a, m), clock')
  {
    hide Reaps, EndsInTime, TickedLife, ReportedLife;
    EndsMore(a.note, Next(cfg, a, m).note, ByReap(a.lease.value.id, a.note.deadline, m.now), clock, clock');
  }

  lemma OthersKeepAccounts(cfg: Config, id: string, a: Life, m: Move, clock: int, clock': int)
    requires !m.Lend? && !m.Report? && !m.Reap?
    requires Enabled(id, a, m) && Fenced(id, a) && Accounted(a, clock) && InTime(m, clock, clock')
    ensures Accounted(Next(cfg, a, m), clock')
  {
    hide EndsInTime, ReportedLife, NextRun, Recurs;
    if a.task.Some? {
      EndsLast(a.note, Next(cfg, a, m).note, clock, clock');
    }
  }

  lemma OnlyEnrollAdds(cfg: Config, id: string, a: Life, m: Move)
    requires Enabled(id, a, m)
    ensures Next(cfg, a, m).task.Some? <==> a.task.Some? || m.Enroll?
  {
  }

  lemma MovesKeepSound(cfg: Config, id: string, a: Life, m: Move, clock: int, clock': int)
    requires Enabled(id, a, m) && Sound(id, a, clock) && InTime(m, clock, clock')
    ensures Sound(id, Next(cfg, a, m), clock')
  {
    hide Placed, Fenced, Accounted, Budgeted, BackedOff, Enabled, Next;
    KeepsPlaced(cfg, id, a, m);
    KeepsFenced(cfg, id, a, m);
    KeepsAccounts(cfg, id, a, m, clock, clock');
    KeepsBudget(cfg, id, a, m);
    KeepsBackedOff(cfg, id, a, m);
  }
}
