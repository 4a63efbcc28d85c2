/** What becomes of leased, ready and due tasks. */
module Progress {
  import opened Model
  import opened IndexedHeap
  import opened Queues
  import opened Store
  import opened CronNext
  import opened CronParse
  import opened Dispatch
  import opened Leasing
  import opened Execution
  import opened TaskLife
  import opened Protocol
  import opened Runs

  // ---------- no task is stuck in leased, unless it was saved there ----------

  /** UpdateCron saves a task that is leased. */
  predicate EditsLeased(w: World, op: Op, id: string) {
    op.UpdateCron? && op.id == id && StateOf(w, id) == Some(Leased)
  }

  ghost predicate NeverEdited(ws: seq<World>, ops: seq<Op>, id: string, j: nat)
    requires |ws| == |ops| + 1 && j <= |ops|
  {
    forall k :: 0 <= k < j ==> !EditsLeased(ws[k], ops[k], id)
  }

  lemma MoveEdits(cfg: Config, id: string, a: Life, m: Move)
    requires Enabled(id, a, m)
    ensures TaskLife.Next(cfg, a, m).note.edited ==> a.note.edited || (m.Edit? && a.task.value.state == Leased)
    ensures m.Edit? && a.task.value.state == Leased ==> TaskLife.Next(cfg, a, m).note.edited
    ensures a.note.edited && !m.Enroll? ==> TaskLife.Next(cfg, a, m).note.edited
  {
  }

  lemma EditsAreNoted(cfg: Config, w: World, op: Op, w': World, id: string)
    requires Inv(w) && Step(cfg, w, op, w')
    ensures NoteOf(w', id).edited <==> NoteOf(w, id).edited || EditsLeased(w, op, id)
  {
    hide Step, Sound, Paired, Owned, MoveOf, Enabled, TaskLife.Next;
    LifeAfter(cfg, w, op, w', id);
    BlankOrStored(w, id);
    var m := MoveOf(cfg, w.sys, op, w'.sys, id);
    EditMoves(cfg, w.sys, op, w'.sys, id);
    MoveEdits(cfg, id, LifeOf(w, id), m);
    EnrollsAnew(id, LifeOf(w, id), m);
  }

  lemma BlankOrStored(w: World, id: string)
    requires Inv(w)
    ensures id in w.sys.board.tasks || NoteOf(w, id) == BLANK
  {
    hide Sound;
  }

  lemma EditMoves(cfg: Config, s: System, op: Op, s': System, id: string)
    ensures MoveOf(cfg, s, op, s', id).Edit? <==> op.UpdateCron? && op.id == id && id in s.board.tasks
  {
    hide Rewritten, Accepts, Holds;
  }

  lemma EnrollsAnew(id: string, a: Life, m: Move)
    requires Enabled(id, a, m)
    ensures m.Enroll? ==> a.task.None?
  {
  }

  lemma {:induction false} NeverEditedNote(cfg: Config, ws: seq<World>, ops: seq<Op>, id: string, j: nat)
    requires Run(cfg, ws, ops) && j <= |ops|
    ensures NeverEdited(ws, ops, id, j) <==> !NoteOf(ws[j], id).edited
  {
    hide Step, Inv, EditsLeased;
    if j > 0 {
      NeverEditedNote(cfg, ws, ops, id, j - 1);
      RunInv(cfg, ws, ops, j - 1);
      EditsAreNoted(cfg, ws[j - 1], ops[j - 1], ws[j], id);
    }
  }

  /** A leased task has a recorded lease at its very version exactly when it was never saved while leased. */
  lemma LeasedHasLease(cfg: Config, ws: seq<World>, ops: seq<Op>, id: string, j: nat)
    requires Run(cfg, ws, ops) && j <= |ops| && StateOf(ws[j], id) == Some(Leased)
    ensures var l := CurrentLease(ws[j].sys.lm, id);
      l.Some? && Holds(ws[j].sys.board.tasks, l.value) <==> NeverEdited(ws, ops, id, j)
  {
    hide Step, Inv, EditsLeased;
    NeverEditedNote(cfg, ws, ops, id, j);
    RunInv(cfg, ws, ops, j);
    LeasedHolds(ws[j], id);
  }

  lemma LeasedHolds(w: World, id: string)
    requires Inv(w) && StateOf(w, id) == Some(Leased)
    ensures var l := CurrentLease(w.sys.lm, id);
      l.Some? && Holds(w.sys.board.tasks, l.value) <==> !NoteOf(w, id).edited
  {
    assert Sound(id, LifeOf(w, id), w.clock);
    CurrentIsRecorded(w, id);
  }

  /** After a reap every leased task is within its deadline. */
  lemma NoneStuck(cfg: Config, ws: seq<World>, ops: seq<Op>, id: string, i: nat)
    requires Run(cfg, ws, ops) && i < |ops| && ops[i].ReapExpired? && NeverEdited(ws, ops, id, i)
    requires StateOf(ws[i + 1], id) == Some(Leased)
    ensures var l := CurrentLease(ws[i + 1].sys.lm, id);
      l.Some? && Holds(ws[i + 1].sys.board.tasks, l.value) && l.value.deadline >= ops[i].now
  {
    hide Step, Inv, Holds;
    NeverEditedNote(cfg, ws, ops, id, i);
    RunInv(cfg, ws, ops, i);
    EditsAreNoted(cfg, ws[i], ops[i], ws[i + 1], id);
    RunInv(cfg, ws, ops, i + 1);
    LeasedHolds(ws[i + 1], id);
    NoneLate(cfg, ws[i], ops[i], ws[i + 1], id);
  }

  lemma NoneLate(cfg: Config, w: World, op: Op, w': World, id: string)
    requires Inv(w) && Step(cfg, w, op, w') && op.ReapExpired?
    ensures var l := CurrentLease(w'.sys.lm, id); l.Some? ==> l.value.deadline >= op.now
  {
    hide Sound, Reapable, ReadyAgain, Enqueued, CurrentLease, Unexpired, Owned, Paired, NotesAfter;
    ReapKeepsPairs(w.sys.lm, op.now, id);
  }

  // ---------- the task that was ----------

  /** Saved while leased: leased until someone cancels it. */
  predicate Stranded(w: World, id: string) {
    NoteOf(w, id).edited && (StateOf(w, id) == Some(Leased) || StateOf(w, id) == Some(Canceled))
  }

  lemma StrandedMoves(cfg: Config, id: string, a: Life, m: Move)
    requires Enabled(id, a, m) && Placed(id, a) && Fenced(id, a) && a.note.edited && a.task.Some?
    ensures var b := TaskLife.Next(cfg, a, m);
      b.task.Some? && (b.task.value.state == Leased || b.task.value.state == Canceled) && !m.Report? && !m.Reap?
  {
  }

  lemma StrandedStep(cfg: Config, w: World, op: Op, w': World, id: string)
    requires Inv(w) && Step(cfg, w, op, w') && Stranded(w, id)
    ensures Stranded(w', id)
    ensures forall leaseId :: !EndsLease(w, op, id, leaseId)
  {
    hide Does, Paired, Owned, Placed, Fenced, Accounted, Budgeted, BackedOff, Rewritten, Enabled, TaskLife.Next,
      Allowed;
    LifeAfter(cfg, w, op, w', id);
    assert Sound(id, LifeOf(w, id), w.clock);
    EditsAreNoted(cfg, w, op, w', id);
    StrandedMoves(cfg, id, LifeOf(w, id), MoveOf(cfg, w.sys, op, w'.sys, id));
    StrandedHoldsNothing(w, id);
  }

  lemma StrandedHoldsNothing(w: World, id: string)
    requires Inv(w) && Stranded(w, id)
    ensures var l := CurrentLease(w.sys.lm, id); l.Some? ==> !Holds(w.sys.board.tasks, l.value)
    ensures forall l: Lease :: l.taskId == id ==> !Accepts(w.sys, l)
  {
    assert Sound(id, LifeOf(w, id), w.clock);
    CurrentIsRecorded(w, id);
  }

  /** A task saved while leased never yields a result and is never reaped. */
  lemma {:induction false} StrandedForGood(cfg: Config, ws: seq<World>, ops: seq<Op>, i: nat, j: nat, id: string)
    requires Run(cfg, ws, ops) && i < j < |ws| && EditsLeased(ws[i], ops[i], id)
    ensures Stranded(ws[j], id)
    ensures j < |ops| ==> forall leaseId :: !EndsLease(ws[j], ops[j], id, leaseId)
    decreases j
  {
    hide Step, Inv, Stranded, EndsLease, EditsLeased;
    RunInv(cfg, ws, ops, j - 1);
    RunInv(cfg, ws, ops, j);
    if i + 1 == j {
      EditStrands(cfg, ws[i], ops[i], ws[i + 1], id);
    } else {
      StrandedForGood(cfg, ws, ops, i, j - 1, id);
      StrandedStep(cfg, ws[j - 1], ops[j - 1], ws[j], id);
    }
    if j < |ops| {
      StrandedStep(cfg, ws[j], ops[j], ws[j + 1], id);
    }
  }

  lemma EditStrands(cfg: Config, w: World, op: Op, w': World, id: string)
    requires Inv(w) && Step(cfg, w, op, w') && EditsLeased(w, op, id)
    ensures Stranded(w', id) && StateOf(w', id) == Some(Leased)
  {
    hide Paired, Owned, Sound, Rewritten, NotesAfter;
    EditsAreNoted(cfg, w, op, w', id);
    StoredUnderId(w, id);
    RewrittenId(w.sys.board.tasks[id], op.cron, op.now);
  }

  lemma RewrittenId(t: Task, cron: string, now: int)
    ensures Rewritten(t, cron, now).id == t.id && Rewritten(t, cron, now).state == t.state
  {
  }

  /** A reap past the lease's deadline leaves the stranded task leased without a lease. */
  lemma StrandedWithoutLease(cfg: Config, w: World, op: Op, w': World, id: string)
    requires Inv(w) && Step(cfg, w, op, w') && op.ReapExpired? && Stranded(w, id) && StateOf(w, id) == Some(Leased)
    requires var l := CurrentLease(w.sys.lm, id); l.Some? ==> l.value.deadline < op.now
    ensures StateOf(w', id) == Some(Leased) && CurrentLease(w'.sys.lm, id).None?
  {
    hide Sound, ReadyAgain, Enqueued, CurrentLease, Unexpired, Owned, Paired, NotesAfter, Reapable;
    ReapKeepsPairs(w.sys.lm, op.now, id);
    ReapableIsCurrent(w.sys.board.tasks, w.sys.lm, op.now, id);
    StrandedHoldsNothing(w, id);
    UnreapedStay(w.sys.board.tasks, Reapable(w.sys.board.tasks, w.sys.lm, op.now), id);
  }

  ghost function Advance(cfg: Config, w: World, op: Op, s': System): World {
    World(s', NotesAfter(cfg, w, op, s'), w.drawn + Drawn(op), Owners(w.owner, op), ClockAfter(w.clock, op))
  }

  /** The only queued task, ready, is leased. */
  lemma AssignOnly(cfg: Config, w: World, id: string, leaseId: string) returns (op: Op, w': World)
    requires var b := w.sys.board;
      id in b.tasks && b.tasks[id].state == Ready && b.ready.Keys == {id} && leaseId !in w.owner
    ensures op.Assign? && Step(cfg, w, op, w')
    ensures StateOf(w', id) == Some(Leased) && w'.sys.board.tasks[id].trigger == w.sys.board.tasks[id].trigger
    ensures CurrentLease(w'.sys.lm, id).Some? && CurrentLease(w'.sys.lm, id).value.deadline == w.clock + cfg.ttl
    ensures w'.clock == w.clock
  {
    hide NotesAfter, Settles, WithLease, CurrentLease;
    var b := w.sys.board;
    var l := Lease(leaseId, id, "w", b.tasks[id].version + 1, w.clock + cfg.ttl);
    op := Op.Assign(w.clock, Some("w"), leaseId, Assigned(l));
    OnlyOneSettles(b.tasks, b.ready, id);
    GrantIsCurrent(w.sys.lm, l);
    w' := Advance(cfg, w, op,
      w.sys.(board := b.(tasks := b.tasks[id := Moved(b.tasks[id], Leased)], ready := map[]),
      lm := WithLease(w.sys.lm, l)));
  }

  lemma OnlyOneSettles(ts: Tasks, q: Contents, id: string)
    requires id in ts && ts[id].state == Ready && q.Keys == {id}
    ensures Settles(ts, q, id, map[])
  {
  }

  /** A cron task as its registration builds it. */
  ghost function CronTask(id: string, cron: string, retries: nat, now: int): Task
    requires Compiled(cron).Some?
  {
    Task(id, id, "echo", "", 0, 1_000_000, retries, retries, Pending, 0, Upcoming(Compiled(cron).value, now),
      TriggerSpec("cron", 0, cron))
  }

  lemma RegisterSteps(cfg: Config, w: World, t: Task) returns (w': World)
    requires t.id !in w.drawn && t.state == Pending && t.retriesLeft == t.maxRetries >= 0
    ensures Step(cfg, w, Register(t), w') && w'.clock == w.clock && w'.owner == w.owner
    ensures w'.sys == w.sys.(board := Tracked(w.sys.board.(tasks := Saved(w.sys.board.tasks, t)), t))
  {
    hide NotesAfter, Tracked, Saved;
    w' := Advance(cfg, w, Register(t), w.sys.(board := Tracked(w.sys.board.(tasks := Saved(w.sys.board.tasks, t)), t)));
  }

  lemma TriggerSteps(cfg: Config, w: World, id: string) returns (w': World)
    ensures Step(cfg, w, Op.TriggerNow(id, w.clock), w') && w'.clock == w.clock && w'.owner == w.owner
    ensures w'.sys == w.sys.(board := Triggered(w.sys.board, id, w.clock))
  {
    hide NotesAfter, Triggered;
    w' := Advance(cfg, w, Op.TriggerNow(id, w.clock), w.sys.(board := Triggered(w.sys.board, id, w.clock)));
  }

  /** A run of one registration, trigger and grant leaves a leased task. */
  lemma LeasedRun(cfg: Config, t: Task) returns (ws: seq<World>, ops: seq<Op>)
    requires t.state == Pending && t.retriesLeft == t.maxRetries >= 0
    ensures Run(cfg, ws, ops) && |ops| == 3
    ensures StateOf(ws[3], t.id) == Some(Leased) && ws[3].sys.board.tasks[t.id].trigger == t.trigger
    ensures var l := CurrentLease(ws[3].sys.lm, t.id); l.Some? && l.value.deadline == ws[3].clock + cfg.ttl
  {
    hide Step, CurrentLease, Triggered, Tracked, Saved;
    var w0 := Empty(0);
    var w1 := RegisterSteps(cfg, w0, t);
    var w2 := TriggerSteps(cfg, w1, t.id);
    OnlyQueued(w0.sys.board, t);
    var op, w3 := AssignOnly(cfg, w2, t.id, "l");
    ws, ops := [w0, w1, w2, w3], [Register(t), Op.TriggerNow(t.id, 0), op];
    assert Step(cfg, w0, ops[0], w1) && Step(cfg, w1, ops[1], w2) && Step(cfg, w2, ops[2], w3);
  }

  lemma OnlyQueued(b: Board, t: Task)
    requires b.tasks == map[] && b.ready == map[] && t.state == Pending
    ensures var q := Triggered(Tracked(b.(tasks := Saved(b.tasks, t)), t), t.id, 0);
      && t.id in q.tasks && q.tasks[t.id].state == Ready && q.tasks[t.id].trigger == t.trigger && q.ready.Keys == {t.id}
  {
  }

  /** A cron update of a leased task strands it. */
  lemma EditSteps(cfg: Config, w: World, id: string, cron: string) returns (op: Op, w': World)
    requires Inv(w) && StateOf(w, id) == Some(Leased) && w.sys.board.tasks[id].trigger.kind == "cron"
        && Compiled(cron).Some?
    ensures Step(cfg, w, op, w') && Inv(w') && Stranded(w', id) && StateOf(w', id) == Some(Leased)
    ensures w'.sys.lm == w.sys.lm && w'.clock == w.clock
  {
    hide NotesAfter, Compiled, Rewritten, Inv, Stranded, Tracked, Saved;
    var b, t := w.sys.board, Rewritten(w.sys.board.tasks[id], cron, w.clock);
    op := UpdateCron(id, cron, w.clock);
    w' := Advance(cfg, w, op, w.sys.(board := Tracked(b.(tasks := Saved(b.tasks, t)), t)));
    EditStrands(cfg, w, op, w', id);
    InvKept(cfg, w, op, w');
  }

  /** The stranded state is reachable: update the cron expression of that task and let its lease expire. */
  lemma StrandingRun(cfg: Config, first: string, cron: string) returns (ws: seq<World>, ops: seq<Op>)
    requires Compiled(first).Some? && Compiled(cron).Some? && cfg.ttl >= 0
    ensures Run(cfg, ws, ops) && StateOf(ws[|ops|], "a") == Some(Leased) && CurrentLease(ws[|ops|].sys.lm, "a").None?
  {
    hide Step, Inv, Compiled, Stranded, Reaped, Upcoming, CurrentLease;
    var ws3, ops3 := LeasedRun(cfg, CronTask("a", first, 0, 0));
    RunInv(cfg, ws3, ops3, 3);
    var op4, w4 := EditSteps(cfg, ws3[3], "a", cron);
    var now := w4.clock + cfg.ttl + 1;
    var w5 := Reaped(cfg, w4, now);
    ReapSteps(cfg, w4, now);
    StrandedWithoutLease(cfg, w4, Op.ReapExpired(now), w5, "a");
    ws, ops := ws3 + [w4] + [w5], ops3 + [op4] + [Op.ReapExpired(now)];
    RunLonger(cfg, ws3, ops3, op4, w4);
    RunLonger(cfg, ws3 + [w4], ops3 + [op4], Op.ReapExpired(now), w5);
  }

  lemma RunLonger(cfg: Config, ws: seq<World>, ops: seq<Op>, op: Op, w: World)
    requires Run(cfg, ws, ops) && Step(cfg, ws[|ops|], op, w)
    ensures Run(cfg, ws + [w], ops + [op])
  {
    hide Step;
  }

  /** The world after a reap at now. */
  ghost function Reaped(cfg: Config, w: World, now: int): World {
    var (s, ids) := (w.sys, Reapable(w.sys.board.tasks, w.sys.lm, now));
    var b := s.board.(tasks := ReadyAgain(s.board.tasks, ids),
      ready := Enqueued(s.board.tasks, s.board.ready, ids, now));
    Advance(cfg, w, Op.ReapExpired(now),
      s.(board := b, lm := Unexpired(s.lm, now), counters := s.counters.(expired := s.counters.expired + |ids|)))
  }

  lemma ReapSteps(cfg: Config, w: World, now: int)
    requires w.clock <= now
    ensures Step(cfg, w, Op.ReapExpired(now), Reaped(cfg, w, now))
  {
    hide NotesAfter, Reapable, ReadyAgain, Enqueued, Unexpired;
  }

  lemma UnreapedStay(ts: Tasks, ids: set<string>, id: string)
    requires id !in ids && id in ts
    ensures id in ReadyAgain(ts, ids) && ReadyAgain(ts, ids)[id] == ts[id]
  {
  }

  // ---------- ready tasks and Assign ----------

  /** A ready task is in the ready queue or in the delayed queue, and nothing else is in the ready queue. */
  lemma ReadyIsQueued(w: World, id: string)
    requires Inv(w)
    ensures StateOf(w, id) == Some(Ready) ==> id in w.sys.board.ready || id in w.sys.board.delayed
    ensures id in w.sys.board.ready ==> StateOf(w, id) == Some(Ready)
  {
    hide Paired, Owned, Fenced, Accounted, Budgeted, BackedOff;
    assert Placed(id, LifeOf(w, id));
  }

  lemma GrantIsCurrent(lm: LeaseMaps, l: Lease)
    ensures CurrentLease(WithLease(lm, l), l.taskId) == Some(l)
    ensures l.taskId !in lm.byTask ==> CurrentLease(lm, l.taskId).None?
  {
  }

  lemma NoneMissing(ts: Tasks, q: Contents, rest: Contents)
    requires OnlyReady(ts, q)
    ensures !exists id :: id !in ts && Settles(ts, q, id, rest)
  {
  }

  lemma RollBackTakes(w: World, w': World, now: int)
    requires var (b, b') := (w.sys.board, w'.sys.board);
      OnlyReady(b.tasks, b.ready) && exists id :: RolledBack(b.tasks, b.ready, b'.tasks, b'.ready, now, id)
    ensures w'.sys.board.ready.Keys == w.sys.board.ready.Keys
    ensures forall id :: StateOf(w', id) == StateOf(w, id)
  {
    hide Settles, Foremost, OnlyReady;
    var ts, q, q' := w.sys.board.tasks, w.sys.board.ready, w'.sys.board.ready;
    var k :| RolledBack(ts, q, w'.sys.board.tasks, q', now, k);
    var rest :| Settles(ts, q, k, rest) && q' == rest[k := Item(k, ts[k].priority, now)];
    SettlesOnForemost(ts, q, k, rest);
  }

  lemma ForemostIsIn(c: Contents, id: string)
    requires Foremost(ReadyLess, c, id)
    ensures id in c
  {
  }

  /** What Assign does on a reachable system: it takes the best entry of the whole queue, or nothing. */
  lemma AssignTakesForemost(cfg: Config, w: World, op: Op, w': World)
    requires Inv(w) && Step(cfg, w, op, w') && op.Assign?
    ensures var (b, b') := (w.sys.board, w'.sys.board);
      match op.r
      case TaskMissing => false
      case NoReadyTask => b.ready == map[] && w'.sys == w.sys
      case NoWorker =>
        && op.worker.None? && w'.sys.lm == w.sys.lm && b'.ready.Keys == b.ready.Keys
        && forall id :: StateOf(w', id) == StateOf(w, id)
      case Assigned(l) =>
        && l.taskId in b.ready && b'.ready == b.ready - {l.taskId}
        && var first := b.ready[l.taskId];
        && (forall k :: k in b.ready ==>
              || b.ready[k].priority < first.priority
              || (b.ready[k].priority == first.priority && first.at <= b.ready[k].at))
        && StateOf(w, l.taskId) == Some(Ready) && Holds(b'.tasks, l)
        && CurrentLease(w'.sys.lm, l.taskId) == Some(l) && CurrentLease(w.sys.lm, l.taskId).None?
        && l.deadline == op.now + cfg.ttl
  {
    hide Inv, NotesAfter, Settles, Foremost, WithLease, Allowed, CurrentLease, RolledBack;
    QueuedAreReady(w);
    match op.r
    case NoReadyTask =>
    case TaskMissing =>
      NoneMissing(w.sys.board.tasks, w.sys.board.ready, w'.sys.board.ready);
    case NoWorker =>
      RollBackTakes(w, w', op.now);
    case Assigned(l) =>
      Unleased(cfg, w, op, w');
      SettlesOnForemost(w.sys.board.tasks, w.sys.board.ready, l.taskId, w'.sys.board.ready);
      FirstInOrder(w.sys.board.ready, l.taskId);
      ForemostIsIn(w.sys.board.ready, l.taskId);
      GrantIsCurrent(w.sys.lm, l);
  }

  // ---------- Tick ----------

  ghost predicate FireTimesKept(b: Board) {
    forall id :: id in b.tasks && b.tasks[id].state == Pending ==>
      id in b.nextFire && b.nextFire[id] == b.tasks[id].nextRunAt
  }

  lemma FireTimes(w: World)
    requires Inv(w)
    ensures FireTimesKept(w.sys.board)
  {
    hide Paired, Owned, Fenced, Accounted, Budgeted, BackedOff;
    forall id | id in w.sys.board.tasks && w.sys.board.tasks[id].state == Pending
      ensures id in w.sys.board.nextFire && w.sys.board.nextFire[id] == w.sys.board.tasks[id].nextRunAt
    {
      assert Placed(id, LifeOf(w, id));
    }
  }

  lemma TickFires(b: Board, now: int)
    requires FireTimesKept(b)
    ensures PendingIn(b.tasks, DueIds(b.nextFire, now)) == Due(b.tasks, now)
    ensures var b' := Ticked(b, now);
      && (forall id :: id in b.tasks ==>
            id in b'.tasks && b'.tasks[id].state == if id in Due(b.tasks, now) then Ready else b.tasks[id].state)
      && Due(b'.tasks, now) == {} && FireTimesKept(b')
  {
    hide NextRun, Recurs, Promoted, Enqueued, After;
    assert PendingIn(b.tasks, DueIds(b.nextFire, now)) == Due(b.tasks, now);
    PromotedOnlyQueues(Fired(b, DueIds(b.nextFire, now), now).(delayed := After(b.delayed, now)),
      DueDelayed(b.delayed, now), now);
  }

  lemma PromotedOnlyQueues(b: Board, out: set<string>, now: int)
    ensures Promoted(b, out, now) == b.(ready := Enqueued(b.tasks, b.ready, ReadyIn(b.tasks, out), now))
  {
  }

  lemma EnqueuedKeys(ts: Tasks, c: Contents, ids: set<string>, now: int)
    requires ids <= ts.Keys
    ensures Enqueued(ts, c, ids, now).Keys == c.Keys + ids
  {
  }

  lemma TickQueues(b: Board, now: int, due: set<string>)
    requires due == PendingIn(b.tasks, DueIds(b.nextFire, now))
    ensures var b' := Ticked(b, now);
      && b'.ready.Keys == b.ready.Keys + due + ReadyIn(b.tasks, DueDelayed(b.delayed, now))
      && DueDelayed(b'.delayed, now) == {}
  {
    hide NextRun, Recurs, Enqueued;
    var fired := Fired(b, DueIds(b.nextFire, now), now);
    var out := DueDelayed(b.delayed, now);
    EnqueuedKeys(b.tasks, b.ready, due, now);
    EnqueuedKeys(fired.tasks, fired.ready, ReadyIn(fired.tasks, out), now);
    assert due + ReadyIn(fired.tasks, out) == due + ReadyIn(b.tasks, out);
  }

  /**
   A tick makes ready exactly the tasks that a full scan finds due, queues them
   and the due delayed tasks that are ready, and leaves nothing due behind.
   */
  lemma TickIsExact(b: Board, now: int)
    requires FireTimesKept(b)
    ensures var (b', due, back) := (Ticked(b, now), Due(b.tasks, now), ReadyIn(b.tasks, DueDelayed(b.delayed, now)));
      && (forall id :: id in b.tasks ==>
            id in b'.tasks && b'.tasks[id].state == if id in due then Ready else b.tasks[id].state)
      && b'.ready.Keys == b.ready.Keys + due + back
      && Due(b'.tasks, now) == {} && DueDelayed(b'.delayed, now) == {}
      && FireTimesKept(b')
    ensures var b' := Ticked(b, now);
      forall id :: id in b.tasks && b.tasks[id].state == Pending && b.tasks[id].nextRunAt <= now ==>
        && id in b'.tasks && id in b'.nextFire
        && var (t, next) := (b.tasks[id], b'.tasks[id].nextRunAt);
           if t.trigger.kind == "cron" && Compiled(t.trigger.cron).Some? then
             IsNext(Compiled(t.trigger.cron).value, now, next) && now < next == b'.nextFire[id]
           else next == t.nextRunAt == b'.nextFire[id]
  {
    hide Ticked, ReadyIn, Due, DueDelayed, Compiled, IsNext;
    TickFires(b, now);
    TickQueues(b, now, Due(b.tasks, now));
    forall id ensures id in b.tasks ==> TicksTask(b, Ticked(b, now), id, now) {
      TickSays(b, now, id);
    }
  }

  // ---------- a task leaves pending once ----------

  predicate LeftPending(w: World, id: string) {
    id in w.sys.board.tasks && w.sys.board.tasks[id].state != Pending
  }

  lemma MoveLeavesPending(cfg: Config, id: string, a: Life, m: Move)
    requires Enabled(id, a, m) && a.task.Some? && a.task.value.state != Pending
    ensures var b := TaskLife.Next(cfg, a, m); b.task.Some? && b.task.value.state != Pending
  {
  }

  lemma StepLeavesPending(cfg: Config, w: World, op: Op, w': World, id: string)
    requires Inv(w) && Step(cfg, w, op, w') && LeftPending(w, id)
    ensures LeftPending(w', id)
  {
    hide Step, Inv, Enabled, TaskLife.Next, MoveOf;
    LifeAfter(cfg, w, op, w', id);
    MoveLeavesPending(cfg, id, LifeOf(w, id), MoveOf(cfg, w.sys, op, w'.sys, id));
  }

  /** Nothing takes a task back to pending. */
  lemma {:induction false} NeverPendingAgain(cfg: Config, ws: seq<World>, ops: seq<Op>, i: nat, j: nat, id: string)
    requires Run(cfg, ws, ops) && i <= j <= |ops| && LeftPending(ws[i], id)
    ensures LeftPending(ws[j], id)
    decreases j
  {
    hide Step, Inv, LeftPending;
    if i < j {
      NeverPendingAgain(cfg, ws, ops, i, j - 1, id);
      RunInv(cfg, ws, ops, j - 1);
      StepLeavesPending(cfg, ws[j - 1], ops[j - 1], ws[j], id);
    }
  }

  predicate Fires(w: World, op: Op, id: string) {
    op.Tick? && id in Due(w.sys.board.tasks, op.now)
  }

  /** So a tick fires a task once at most, a cron task too: the next run time it is given is never used. */
  lemma FiresOnce(cfg: Config, ws: seq<World>, ops: seq<Op>, i: nat, j: nat, id: string)
    requires Run(cfg, ws, ops) && i < j < |ops| && Fires(ws[i], ops[i], id)
    ensures !Fires(ws[j], ops[j], id)
  {
    hide Step, Inv;
    RunInv(cfg, ws, ops, i);
    FiringLeavesPending(cfg, ws[i], ops[i], ws[i + 1], id);
    NeverPendingAgain(cfg, ws, ops, i + 1, j, id);
  }

  lemma FiringLeavesPending(cfg: Config, w: World, op: Op, w': World, id: string)
    requires Inv(w) && Step(cfg, w, op, w') && Fires(w, op, id)
    ensures LeftPending(w', id)
  {
    hide Inv, Ticked, FireTimesKept, NotesAfter;
    FireTimes(w);
    TickIsExact(w.sys.board, op.now);
  }
}
