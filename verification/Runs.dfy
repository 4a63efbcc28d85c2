/** What every run of public calls guarantees. */
module Runs {
  import opened Model
  import opened Dispatch
  import opened Leasing
  import opened Execution
  import opened TaskLife
  import opened Protocol

  function Empty(start: int): World {
    World(System(Board(map[], map[], map[], map[]), LeaseMaps(map[], map[]), map[], Counters(0, 0, 0, 0)), map[], {},
      map[], start)
  }

  /** ops[i] takes ws[i] to ws[i + 1], and nothing was there before the first. */
  ghost predicate Run(cfg: Config, ws: seq<World>, ops: seq<Op>) {
    && |ws| == |ops| + 1
    && ws[0] == Empty(ws[0].clock)
    && forall i :: 0 <= i < |ops| ==> Step(cfg, ws[i], ops[i], ws[i + 1])
  }

  lemma EmptyInv(start: int)
    ensures Inv(Empty(start))
  {
  }

  lemma {:induction false} RunInv(cfg: Config, ws: seq<World>, ops: seq<Op>, i: nat)
    requires Run(cfg, ws, ops) && i < |ws|
    ensures Inv(ws[i])
  {
    hide Inv, Step;
    if i == 0 {
      EmptyInv(ws[0].clock);
    } else {
      RunInv(cfg, ws, ops, i - 1);
      InvKept(cfg, ws[i - 1], ops[i - 1], ws[i]);
    }
  }

  function StateOf(w: World, id: string): Option<TaskState> {
    if id in w.sys.board.tasks then Some(w.sys.board.tasks[id].state) else None
  }

  lemma {:induction false} ClockRuns(cfg: Config, ws: seq<World>, ops: seq<Op>, i: nat, j: nat)
    requires Run(cfg, ws, ops) && i <= j < |ws|
    ensures ws[i].clock <= ws[j].clock
    decreases j
  {
    hide Does;
    if i < j {
      ClockRuns(cfg, ws, ops, i, j - 1);
      assert Step(cfg, ws[j - 1], ops[j - 1], ws[j]);
    }
  }

  lemma StepClock(cfg: Config, w: World, op: Op, w': World)
    requires Step(cfg, w, op, w')
    ensures op.ReapExpired? || op.Assign? || op.Tick? ==> w.clock <= op.now == w'.clock
  {
    hide Does;
  }

  // ---------- mutual exclusion ----------

  predicate Grants(op: Op, id: string) {
    op.Assign? && op.r.Assigned? && op.r.lease.taskId == id
  }

  function LeaseIdOf(op: Op): string {
    if op.Assign? then op.leaseId else ""
  }

  /** The call ends the lease: its result is accepted, or it is reaped past its deadline. */
  predicate EndsLease(w: World, op: Op, id: string, leaseId: string) {
    var l := CurrentLease(w.sys.lm, id);
    && l.Some? && l.value.id == leaseId
    && match op
       case Finish(lease, _) => lease.id == leaseId && lease.taskId == id && Accepts(w.sys, lease)
       case ReapExpired(now) => l.value.deadline < now && Holds(w.sys.board.tasks, l.value)
       case _ => false
  }

  /** The lease is the task's latest grant and has not ended. */
  ghost predicate Open(w: World, id: string, leaseId: string) {
    OpenNote(NoteOf(w, id), leaseId)
  }

  predicate OpenNote(n: Note, leaseId: string) {
    |n.grants| == |n.ends| + 1 && n.grants[|n.ends|].lease.id == leaseId
  }

  lemma OpenUntilMoved(cfg: Config, id: string, a: Life, m: Move, clock: int, leaseId: string)
    requires Enabled(id, a, m) && Fenced(id, a) && Accounted(a, clock) && a.task.Some? && OpenNote(a.note, leaseId)
    ensures var n := TaskLife.Next(cfg, a, m).note;
      OpenNote(n, leaseId) || ((m.Report? || m.Reap?) && a.lease.Some? && a.lease.value.id == leaseId)
  {
  }

  lemma OpenUntilEnded(cfg: Config, w: World, op: Op, w': World, id: string, leaseId: string)
    requires Inv(w) && Step(cfg, w, op, w') && Open(w, id, leaseId)
    ensures Open(w', id, leaseId) || EndsLease(w, op, id, leaseId)
  {
    hide Does, Paired, Owned, Placed, Fenced, Accounted, Budgeted, BackedOff, Allowed, Enabled, TaskLife.Next,
      Rewritten;
    LifeAfter(cfg, w, op, w', id);
    assert Sound(id, LifeOf(w, id), w.clock);
    OpenUntilMoved(cfg, id, LifeOf(w, id), MoveOf(cfg, w.sys, op, w'.sys, id), w.clock, leaseId);
  }

  lemma GrantOpens(cfg: Config, w: World, op: Op, w': World, id: string)
    requires Inv(w) && Step(cfg, w, op, w') && Grants(op, id)
    ensures StateOf(w, id) == Some(Ready) && Open(w', id, LeaseIdOf(op))
    ensures forall leaseId :: !Open(w, id, leaseId)
  {
    hide Does, Paired, Owned, Placed, Budgeted, BackedOff, Allowed;
    LifeAfter(cfg, w, op, w', id);
    Unleased(cfg, w, op, w');
    assert Sound(id, LifeOf(w, id), w.clock);
  }

  lemma {:induction false} EndBetween(cfg: Config, ws: seq<World>, ops: seq<Op>, i: nat, j: nat, id: string,
      leaseId: string) returns (k: nat)
    requires Run(cfg, ws, ops) && i <= j < |ws| && Open(ws[i], id, leaseId) && !Open(ws[j], id, leaseId)
    ensures i <= k < j && EndsLease(ws[k], ops[k], id, leaseId)
    decreases j - i
  {
    hide Step, Open, EndsLease, Inv;
    RunInv(cfg, ws, ops, i);
    OpenUntilEnded(cfg, ws[i], ops[i], ws[i + 1], id, leaseId);
    if EndsLease(ws[i], ops[i], id, leaseId) {
      k := i;
    } else {
      k := EndBetween(cfg, ws, ops, i + 1, j, id, leaseId);
    }
  }

  /**
   Between two grants of a task the first one ended: its result was accepted,
   or it was reaped when its last deadline had passed, no later than the second grant.
   */
  lemma MutualExclusion(cfg: Config, ws: seq<World>, ops: seq<Op>, i: nat, j: nat, id: string)
    requires Run(cfg, ws, ops) && i < j < |ops| && Grants(ops[i], id) && Grants(ops[j], id)
    ensures exists k :: i < k < j && EndsLease(ws[k], ops[k], id, LeaseIdOf(ops[i]))
              && (ops[k].ReapExpired? ==> ops[k].now <= ops[j].now)
  {
    hide Inv, Open, EndsLease, Step;
    RunInv(cfg, ws, ops, i);
    RunInv(cfg, ws, ops, j);
    GrantOpens(cfg, ws[i], ops[i], ws[i + 1], id);
    GrantOpens(cfg, ws[j], ops[j], ws[j + 1], id);
    var k := EndBetween(cfg, ws, ops, i + 1, j, id, LeaseIdOf(ops[i]));
    StepClock(cfg, ws[k], ops[k], ws[k + 1]);
    StepClock(cfg, ws[j], ops[j], ws[j + 1]);
    ClockRuns(cfg, ws, ops, k + 1, j);
  }

  /** A task has at most one recorded lease, the one that byTask finds for it. */
  lemma OneLeasePerTask(cfg: Config, ws: seq<World>, ops: seq<Op>, n: nat, leaseId: string)
    requires Run(cfg, ws, ops) && n < |ws| && leaseId in ws[n].sys.lm.leases
    ensures var (lm, l) := (ws[n].sys.lm, ws[n].sys.lm.leases[leaseId]);
      && l.id == leaseId && CurrentLease(lm, l.taskId) == Some(l)
      && (forall k :: k in lm.leases && lm.leases[k].taskId == l.taskId ==> k == leaseId)
      && (forall t :: t in lm.byTask ==> CurrentLease(lm, t).Some? && CurrentLease(lm, t).value.taskId == t)
  {
    hide Step, Sound, Owned;
    RunInv(cfg, ws, ops, n);
  }

  // ---------- a lease ends once ----------

  /** The lease id was drawn and its lease is no longer recorded. */
  predicate Gone(w: World, leaseId: string) {
    leaseId in w.owner && leaseId !in w.sys.lm.leases
  }

  lemma EndRemoves(cfg: Config, w: World, op: Op, w': World, id: string, leaseId: string)
    requires Inv(w) && Step(cfg, w, op, w') && EndsLease(w, op, id, leaseId)
    ensures Gone(w', leaseId)
  {
    hide Sound, Rewritten, Ticked, Recorded, RecordOutcome, Accepts;
    if op.Finish? {
      FinishReleases(w.sys, op.lease, op.report, cfg.retryDelay);
    }
  }

  lemma GoneStays(cfg: Config, w: World, op: Op, w': World, leaseId: string)
    requires Inv(w) && Step(cfg, w, op, w') && Gone(w, leaseId)
    ensures Gone(w', leaseId)
  {
    hide Does, Sound, Paired, Owned;
    MapsKept(cfg, w, op, w');
    if op.Assign? && op.r.Assigned? {
      Unleased(cfg, w, op, w');
    }
  }

  lemma {:induction false} GoneForGood(cfg: Config, ws: seq<World>, ops: seq<Op>, i: nat, j: nat, leaseId: string)
    requires Run(cfg, ws, ops) && i <= j < |ws| && Gone(ws[i], leaseId)
    ensures Gone(ws[j], leaseId)
    decreases j
  {
    hide Step, Inv, Gone;
    if i < j {
      GoneForGood(cfg, ws, ops, i, j - 1, leaseId);
      RunInv(cfg, ws, ops, j - 1);
      GoneStays(cfg, ws[j - 1], ops[j - 1], ws[j], leaseId);
    }
  }

  /** No lease yields two results, a result and a reap, or two reaps. */
  lemma EndsOnce(cfg: Config, ws: seq<World>, ops: seq<Op>, i: nat, j: nat, id: string, other: string, leaseId: string)
    requires Run(cfg, ws, ops) && i < j < |ops| && EndsLease(ws[i], ops[i], id, leaseId)
    ensures !EndsLease(ws[j], ops[j], other, leaseId)
  {
    hide Step, Inv;
    RunInv(cfg, ws, ops, i);
    RunInv(cfg, ws, ops, j);
    EndRemoves(cfg, ws[i], ops[i], ws[i + 1], id, leaseId);
    GoneForGood(cfg, ws, ops, i + 1, j, leaseId);
    CurrentIsRecorded(ws[j], other);
  }

  lemma CurrentIsRecorded(w: World, id: string)
    requires Inv(w)
    ensures var l := CurrentLease(w.sys.lm, id); l.Some? ==> l.value.id in w.sys.lm.leases && l.value.taskId == id
  {
  }

  // ---------- back-off ----------

  /** A failure that leaves the task a retry. */
  predicate FailsFor(w: World, op: Op, id: string) {
    && op.Finish? && op.lease.taskId == id && Accepts(w.sys, op.lease)
    && op.report.status != SUCCESS && w.sys.board.tasks[id].retriesLeft > 0
  }

  /** TriggerNow on a task that is waiting. */
  predicate Rushes(w: World, op: Op, id: string) {
    op.TriggerNow? && op.id == id && id in w.sys.board.delayed
  }

  ghost predicate NeverRushed(ws: seq<World>, ops: seq<Op>, id: string, j: nat)
    requires |ws| == |ops| + 1 && j <= |ops|
  {
    forall k :: 0 <= k < j ==> !Rushes(ws[k], ops[k], id)
  }

  lemma MoveNotRushed(cfg: Config, id: string, a: Life, m: Move)
    requires Enabled(id, a, m) && !a.note.rushed && !(m.Trigger? && a.waits.Some?)
    ensures !TaskLife.Next(cfg, a, m).note.rushed
  {
  }

  lemma NotRushed(cfg: Config, w: World, op: Op, w': World, id: string)
    requires Inv(w) && Step(cfg, w, op, w') && !NoteOf(w, id).rushed && !Rushes(w, op, id)
    ensures !NoteOf(w', id).rushed
  {
    hide Does, Inv, Allowed, Rewritten, Enabled, TaskLife.Next;
    LifeAfter(cfg, w, op, w', id);
    MoveNotRushed(cfg, id, LifeOf(w, id), MoveOf(cfg, w.sys, op, w'.sys, id));
  }

  lemma {:induction false} NeverRushedNote(cfg: Config, ws: seq<World>, ops: seq<Op>, id: string, j: nat)
    requires Run(cfg, ws, ops) && j <= |ops| && NeverRushed(ws, ops, id, j)
    ensures !NoteOf(ws[j], id).rushed
  {
    hide Step, Inv, Rushes;
    if j > 0 {
      NeverRushedNote(cfg, ws, ops, id, j - 1);
      RunInv(cfg, ws, ops, j - 1);
      NotRushed(cfg, ws[j - 1], ops[j - 1], ws[j], id);
    }
  }

  /** Still waiting for the instant, or canceled in the meantime. */
  predicate Waiting(w: World, id: string, at: int) {
    NoteOf(w, id).due == Some(at) || StateOf(w, id) == Some(Canceled)
  }

  predicate Reaches(op: Op, at: int) {
    op.Tick? && op.now >= at
  }

  predicate LifeWaits(a: Life, at: int) {
    a.note.due == Some(at) || (a.task.Some? && a.task.value.state == Canceled)
  }

  lemma MoveWaits(cfg: Config, id: string, a: Life, m: Move, at: int)
    requires Enabled(id, a, m) && Placed(id, a) && Fenced(id, a) && BackedOff(a) && !a.note.rushed && LifeWaits(a, at)
    ensures LifeWaits(TaskLife.Next(cfg, a, m), at) || (m.TickAt? && m.now >= at)
  {
  }

  lemma WaitsUntilReached(cfg: Config, w: World, op: Op, w': World, id: string, at: int)
    requires Inv(w) && Step(cfg, w, op, w') && !NoteOf(w, id).rushed && Waiting(w, id, at)
    ensures Waiting(w', id, at) || Reaches(op, at)
  {
    hide Does, Paired, Owned, Placed, Fenced, Accounted, Budgeted, BackedOff, Allowed, Rewritten, Enabled,
      TaskLife.Next;
    LifeAfter(cfg, w, op, w', id);
    assert Sound(id, LifeOf(w, id), w.clock);
    MoveWaits(cfg, id, LifeOf(w, id), MoveOf(cfg, w.sys, op, w'.sys, id), at);
  }

  lemma FailureWaits(cfg: Config, w: World, op: Op, w': World, id: string)
    requires Inv(w) && Step(cfg, w, op, w') && FailsFor(w, op, id)
    ensures Waiting(w', id, op.report.finishedAt + cfg.retryDelay)
  {
    hide Does, Paired, Owned, Placed, Fenced, Accounted, Budgeted, BackedOff, Allowed, Rewritten;
    LifeAfter(cfg, w, op, w', id);
  }

  /** A granted task waits for nothing. */
  lemma GrantedNotWaiting(cfg: Config, w: World, op: Op, w': World, id: string, at: int)
    requires Inv(w) && Step(cfg, w, op, w') && Grants(op, id) && !NoteOf(w, id).rushed
    ensures !Waiting(w, id, at)
  {
    hide Does, Paired, Owned, Accounted, Budgeted, Allowed, TaskLife.Next;
    LifeAfter(cfg, w, op, w', id);
    assert Sound(id, LifeOf(w, id), w.clock);
  }

  lemma {:induction false} ReachedBetween(cfg: Config, ws: seq<World>, ops: seq<Op>, i: nat, j: nat, id: string,
      at: int) returns (k: nat)
    requires Run(cfg, ws, ops) && i <= j < |ws| && NeverRushed(ws, ops, id, j)
    requires Waiting(ws[i], id, at) && !Waiting(ws[j], id, at)
    ensures i <= k < j && Reaches(ops[k], at)
    decreases j - i
  {
    hide Step, Inv, Waiting, Rushes, Reaches;
    RunInv(cfg, ws, ops, i);
    NeverRushedNote(cfg, ws, ops, id, i);
    WaitsUntilReached(cfg, ws[i], ops[i], ws[i + 1], id, at);
    if Reaches(ops[i], at) {
      k := i;
    } else {
      k := ReachedBetween(cfg, ws, ops, i + 1, j, id, at);
    }
  }

  /** A failed task that is never rushed is granted again only after a tick at or past its back-off. */
  lemma Backoff(cfg: Config, ws: seq<World>, ops: seq<Op>, i: nat, j: nat, id: string)
    requires Run(cfg, ws, ops) && i < j < |ops| && NeverRushed(ws, ops, id, j)
    requires FailsFor(ws[i], ops[i], id) && Grants(ops[j], id)
    ensures exists k :: i < k < j && Reaches(ops[k], ops[i].report.finishedAt + cfg.retryDelay)
  {
    hide Step, Inv, Waiting, Rushes, Reaches;
    RunInv(cfg, ws, ops, i);
    RunInv(cfg, ws, ops, j);
    NeverRushedNote(cfg, ws, ops, id, j);
    var at := ops[i].report.finishedAt + cfg.retryDelay;
    FailureWaits(cfg, ws[i], ops[i], ws[i + 1], id);
    GrantedNotWaiting(cfg, ws[j], ops[j], ws[j + 1], id, at);
    var k := ReachedBetween(cfg, ws, ops, i + 1, j, id, at);
  }
}
