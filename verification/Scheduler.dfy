/** The scheduler: the nextFire index and every path by which a task gets queued. */
module Dispatch {
  import opened Model
  import opened IndexedHeap
  import opened Queues
  import opened Store
  import opened Calendar
  import opened CronNext
  import opened CronHorizon
  import opened CronParse

  /** What the scheduler reads and writes. */
  datatype Board = Board(tasks: Tasks, ready: Contents, delayed: Contents, nextFire: map<string, int>)

  const YEAR_OF_DAYS := 365 * 24 * 3600 * 1000000000

  // ---------- Tick ----------

  function DueIds(nextFire: map<string, int>, now: int): set<string> {
    set id | id in nextFire && nextFire[id] <= now
  }

  function PendingIn(ts: Tasks, ids: set<string>): set<string> {
    set id | id in ids && id in ts && ts[id].state == Pending
  }

  function ReadyIn(ts: Tasks, ids: set<string>): set<string> {
    set id | id in ids && id in ts && ts[id].state == Ready
  }

  predicate Recurs(t: Task) {
    t.trigger.kind == "cron" && Compiled(t.trigger.cron).Some?
  }

  ghost function NextRun(t: Task, now: int): int {
    if Recurs(t) then Upcoming(Compiled(t.trigger.cron).value, now) else t.nextRunAt
  }

  /** A fired task is ready; a recurring one already has its next run time. */
  ghost function FiredTask(t: Task, now: int): Task {
    Moved(t, Ready).(nextRunAt := NextRun(t, now))
  }

  ghost function FiredTasks(ts: Tasks, due: set<string>, now: int): Tasks {
    map id | id in ts :: if id in PendingIn(ts, due) then FiredTask(ts[id], now) else ts[id]
  }

  /** The index forgets ids that are no longer stored and follows the tasks that recur. */
  ghost function FiredIndex(ts: Tasks, nextFire: map<string, int>, due: set<string>, now: int): map<string, int> {
    map id | id in nextFire && (id in ts || id !in due) ::
      if id in PendingIn(ts, due) && Recurs(ts[id]) then NextRun(ts[id], now) else nextFire[id]
  }

  /** Tick's first loop over the ids of due, whatever their order. */
  ghost function Fired(b: Board, due: set<string>, now: int): (r: Board)
    ensures r.delayed == b.delayed
  {
    Board(FiredTasks(b.tasks, due, now), Enqueued(b.tasks, b.ready, PendingIn(b.tasks, due), now),
          b.delayed, FiredIndex(b.tasks, b.nextFire, due, now))
  }

  /** Tick's second loop over the ids of out, once they have left the delayed queue. */
  function Promoted(b: Board, out: set<string>, now: int): Board {
    b.(ready := Enqueued(b.tasks, b.ready, ReadyIn(b.tasks, out), now))
  }

  function DueDelayed(c: Contents, now: int): set<string> {
    set id | id in c && c[id].at <= now
  }

  ghost function Ticked(b: Board, now: int): Board {
    var fired := Fired(b, DueIds(b.nextFire, now), now);
    Promoted(fired.(delayed := After(b.delayed, now)), DueDelayed(b.delayed, now), now)
  }

  /** How many tasks a tick reports. */
  ghost function TickCount(b: Board, now: int): nat {
    |PendingIn(b.tasks, DueIds(b.nextFire, now))|
    + |ReadyIn(Fired(b, DueIds(b.nextFire, now), now).tasks, DueDelayed(b.delayed, now))|
  }

  // ---------- the other operations ----------

  datatype Outcome = Done | Unknown | NotTriggerable | AlreadyTerminal | Raced

  predicate Triggerable(t: Task) {
    t.state == Pending || t.state == Ready
  }

  function TriggerOutcome(b: Board, id: string): Outcome {
    if id !in b.tasks then Unknown else if !Triggerable(b.tasks[id]) then NotTriggerable else Done
  }

  function Triggered(b: Board, id: string, now: int): Board {
    if TriggerOutcome(b, id) != Done then b
    else b.(tasks := Transitioned(b.tasks, id, Pending, Ready, -1),
            ready := Added(b.ready, Item(id, b.tasks[id].priority, now)))
  }

  function CancelOutcome(b: Board, id: string): Outcome {
    if id !in b.tasks then Unknown else if b.tasks[id].state.Terminal() then AlreadyTerminal else Done
  }

  /** A canceled task is in no queue and has no fire time. */
  function CanceledOn(b: Board, id: string): Board {
    if CancelOutcome(b, id) != Done then b
    else Board(b.tasks[id := Moved(b.tasks[id], Canceled)], b.ready - {id}, b.delayed - {id}, b.nextFire - {id})
  }

  function Tracked(b: Board, t: Task): Board {
    b.(nextFire := b.nextFire[t.id := t.nextRunAt])
  }

  // ---------- the loops of Tick, one step at a time ----------

  /** Tick on one due id. */
  ghost function FiredOne(b: Board, id: string, now: int): Board {
    if id !in b.tasks then b.(nextFire := b.nextFire - {id})
    else if b.tasks[id].state != Pending then b
    else
      b.(tasks := b.tasks[id := FiredTask(b.tasks[id], now)],
         ready := Added(b.ready, Item(id, b.tasks[id].priority, now)),
         nextFire := if Recurs(b.tasks[id]) then b.nextFire[id := NextRun(b.tasks[id], now)] else b.nextFire)
  }

  lemma NoneFired(b: Board, now: int)
    ensures Fired(b, {}, now) == b && PendingIn(b.tasks, {}) == {}
  {
  }

  lemma FireTask(ts: Tasks, ids: set<string>, id: string, now: int)
    requires id !in ids
    ensures FiredTasks(ts, ids, now).Keys == ts.Keys && (id in ts ==> FiredTasks(ts, ids, now)[id] == ts[id])
    ensures FiredTasks(ts, ids + {id}, now) ==
      if id in ts && ts[id].state == Pending then FiredTasks(ts, ids, now)[id := FiredTask(ts[id], now)]
      else FiredTasks(ts, ids, now)
  {
    hide FiredTask;
  }

  lemma FireIndex(ts: Tasks, nextFire: map<string, int>, ids: set<string>, id: string, now: int)
    requires id !in ids && id in nextFire
    ensures var (was, more) := (FiredIndex(ts, nextFire, ids, now), FiredIndex(ts, nextFire, ids + {id}, now));
      more == if id !in ts then was - {id}
            else if ts[id].state == Pending && Recurs(ts[id]) then was[id := NextRun(ts[id], now)]
            else was
  {
    hide NextRun, Recurs;
  }

  lemma PendingMore(ts: Tasks, ids: set<string>, id: string)
    ensures id !in ids ==>
        |PendingIn(ts, ids + {id})| == |PendingIn(ts, ids)| + if id in ts && ts[id].state == Pending then 1 else 0
    ensures PendingIn(ts, ids + {id}) == PendingIn(ts, ids) + if id in ts && ts[id].state == Pending then {id} else {}
  {
    if id in ts && ts[id].state == Pending {
      assert PendingIn(ts, ids + {id}) == PendingIn(ts, ids) + {id};
    } else {
      assert PendingIn(ts, ids + {id}) == PendingIn(ts, ids);
    }
  }

  /** Firing one more id on the board left by the others. */
  lemma FireOneMore(b: Board, ids: set<string>, id: string, now: int)
    requires id !in ids && id in b.nextFire
    ensures Fired(b, ids + {id}, now) == FiredOne(Fired(b, ids, now), id, now)
    ensures var ts := Fired(b, ids, now).tasks;
      (id in ts <==> id in b.tasks) && (id in b.tasks ==> ts[id] == b.tasks[id])
  {
    hide FiredTask, FiredTasks, FiredIndex, NextRun, Recurs, PendingIn, Enqueued, Added;
    FireTask(b.tasks, ids, id, now);
    FireIndex(b.tasks, b.nextFire, ids, id, now);
    PendingMore(b.tasks, ids, id);
    if id in b.tasks && b.tasks[id].state == Pending {
      EnqueueOneMore(b.tasks, b.ready, PendingIn(b.tasks, ids), id, now);
    } else {
      assert PendingIn(b.tasks, ids) + {} == PendingIn(b.tasks, ids);
    }
  }

  lemma PromoteOneMore(b: Board, ids: set<string>, id: string, now: int)
    requires id !in ids
    ensures Promoted(b, ids + {id}, now) ==
      if id in b.tasks && b.tasks[id].state == Ready then
        var was := Promoted(b, ids, now);
        was.(ready := Added(was.ready, Item(id, b.tasks[id].priority, now)))
      else Promoted(b, ids, now)
    ensures |ReadyIn(b.tasks, ids + {id})| == |ReadyIn(b.tasks, ids)| + if id in b.tasks
        && b.tasks[id].state == Ready then 1 else 0
  {
    hide Enqueued, Added;
    if id in b.tasks && b.tasks[id].state == Ready {
      assert ReadyIn(b.tasks, ids + {id}) == ReadyIn(b.tasks, ids) + {id};
      EnqueueOneMore(b.tasks, b.ready, ReadyIn(b.tasks, ids), id, now);
    } else {
      assert ReadyIn(b.tasks, ids + {id}) == ReadyIn(b.tasks, ids);
    }
  }

  lemma NonePromoted(b: Board, now: int)
    ensures Promoted(b, {}, now) == b && ReadyIn(b.tasks, {}) == {} && TaskIds([]) == {}
  {
  }

  function Ids(s: seq<string>): set<string> {
    set id | id in s
  }

  function TaskIds(out: seq<Entry>): (ids: set<string>) {
    set k | 0 <= k < |out| :: out[k].item.taskId
  }

  /** The popped entries carry each due id once. */
  lemma DueTaskIds(was: Contents, now: int, out: seq<Entry>, i: nat)
    requires DueInOrder(was, now, out) && i < |out|
    ensures TaskIds(out[..i + 1]) == TaskIds(out[..i]) + {out[i].item.taskId}
    ensures out[i].item.taskId !in TaskIds(out[..i])
  {
    hide DelayedLess;
    var more := out[..i + 1];
    forall id | id in TaskIds(more) ensures id in TaskIds(out[..i]) + {out[i].item.taskId} {
      var k :| 0 <= k < |more| && more[k].item.taskId == id;
      assert k < i ==> out[..i][k] == more[k];
    }
    forall id | id in TaskIds(out[..i]) ensures id in TaskIds(more) {
      var k :| 0 <= k < i && out[..i][k].item.taskId == id;
      assert more[k] == out[k];
    }
    assert more[i] == out[i];
  }

  lemma AllDueTaskIds(was: Contents, now: int, out: seq<Entry>)
    requires DueInOrder(was, now, out)
    ensures TaskIds(out) == DueDelayed(was, now)
  {
    hide DelayedLess;
  }

  // ---------- a tick, task by task ----------

  /** The task is pending and its fire time has come. */
  predicate IsDue(b: Board, id: string, now: int) {
    id in b.tasks && b.tasks[id].state == Pending && id in b.nextFire && b.nextFire[id] <= now
  }

  /** The task is ready and waiting in the delayed queue, and its time has come. */
  predicate ComesBack(b: Board, id: string, now: int) {
    id in b.tasks && b.tasks[id].state == Ready && id in b.delayed && b.delayed[id].at <= now
  }

  /** A recurring task goes on to the next time that its expression names after now; any other keeps its time. */
  ghost predicate MovesOn(t: Task, now: int, next: int, was: int, fire: int) {
    if t.trigger.kind == "cron" && Compiled(t.trigger.cron).Some? then
      IsNext(Compiled(t.trigger.cron).value, now, next) && now < next == fire
    else next == t.nextRunAt && fire == was
  }

  /** What a tick does to the task and to its fire time. */
  ghost predicate TicksTask(b: Board, b': Board, id: string, now: int)
    requires id in b.tasks
  {
    id in b'.tasks &&
    var t, t' := b.tasks[id], b'.tasks[id];
    if IsDue(b, id, now) then
      && t' == t.(state := Ready, version := t.version + 1, nextRunAt := t'.nextRunAt)
      && id in b'.nextFire && MovesOn(t, now, t'.nextRunAt, b.nextFire[id], b'.nextFire[id])
    else
      t' == t && (id in b'.nextFire <==> id in b.nextFire) && (id in b.nextFire ==> b'.nextFire[id] == b.nextFire[id])
  }

  /** What it does to the queues, where an entry that is there stays as it is, and to the fire time of no task. */
  ghost predicate TicksEntries(b: Board, b': Board, id: string, now: int) {
    && (id in b'.ready <==> id in b.ready || IsDue(b, id, now) || ComesBack(b, id, now))
    && (id in b.ready ==> b'.ready[id] == b.ready[id])
    && (id in b'.ready && id !in b.ready ==> b'.ready[id] == Item(id, b.tasks[id].priority, now))
    && (id in b'.delayed <==> id in b.delayed && b.delayed[id].at > now)
    && (id in b'.delayed ==> b'.delayed[id] == b.delayed[id])
    && (id !in b.tasks ==> (id in b'.nextFire <==> id in b.nextFire && b.nextFire[id] > now))
  }

  /** The tasks fired are counted, and the delayed ones found ready after that. */
  lemma TickCountSays(b: Board, now: int)
    ensures TickCount(b, now) ==
      |set id | id in b.tasks && IsDue(b, id, now)|
      + |set id | id in b.tasks && (ComesBack(b, id, now)
                                    || (IsDue(b, id, now) && id in b.delayed && b.delayed[id].at <= now))|
  {
    hide Enqueued, FiredIndex, NextRun;
    var due := DueIds(b.nextFire, now);
    var ts := Fired(b, due, now).tasks;
    assert PendingIn(b.tasks, due) == set id | id in b.tasks && IsDue(b, id, now);
    var back := set id | id in b.tasks && (ComesBack(b, id, now)
                                           || (IsDue(b, id, now) && id in b.delayed && b.delayed[id].at <= now));
    forall id ensures id in ReadyIn(ts, DueDelayed(b.delayed, now)) <==> id in back {
      FiredSays(b, due, now, id);
    }
    assert ReadyIn(ts, DueDelayed(b.delayed, now)) == back;
  }

  lemma TickSays(b: Board, now: int, id: string)
    ensures var b' := Ticked(b, now);
      && b'.tasks.Keys == b.tasks.Keys && TicksEntries(b, b', id, now)
      && (id in b.tasks ==> TicksTask(b, b', id, now))
  {
    hide Ticked, TicksEntries, TicksTask;
    if id in b.tasks {
      TickSaysTask(b, now, id);
    }
    TickSaysEntries(b, now, id);
  }

  lemma TickSaysTask(b: Board, now: int, id: string)
    requires id in b.tasks
    ensures TicksTask(b, Ticked(b, now), id, now)
  {
    hide Compiled, IsNext, NextRun, Enqueued, After;
    NextRunSays(b.tasks[id], now);
    hide Recurs;
  }

  lemma EnqueuedSays(ts: Tasks, c: Contents, ids: set<string>, now: int, id: string)
    ensures var r := Enqueued(ts, c, ids, now);
      && (id in r <==> id in c || (id in ids && id in ts))
      && (id in c ==> r[id] == c[id])
      && (id in r && id !in c ==> r[id] == Item(id, ts[id].priority, now))
  {
  }

  lemma FiredSays(b: Board, due: set<string>, now: int, id: string)
    ensures var ts := Fired(b, due, now).tasks;
      && ts.Keys == b.tasks.Keys
      && (id in ts ==>
            && ts[id].priority == b.tasks[id].priority
            && (id in ReadyIn(ts, {id}) <==> id in ReadyIn(b.tasks, {id}) || id in PendingIn(b.tasks, due * {id})))
  {
    hide NextRun, FiredIndex, Enqueued;
  }

  lemma TickSaysEntries(b: Board, now: int, id: string)
    ensures Ticked(b, now).tasks.Keys == b.tasks.Keys && TicksEntries(b, Ticked(b, now), id, now)
  {
    hide FiredTasks, NextRun, Recurs, Enqueued;
    var due := DueIds(b.nextFire, now);
    var fired := Fired(b, due, now);
    FiredSays(b, due, now, id);
    EnqueuedSays(b.tasks, b.ready, PendingIn(b.tasks, due), now, id);
    EnqueuedSays(fired.tasks, fired.ready, ReadyIn(fired.tasks, DueDelayed(b.delayed, now)), now, id);
  }

  lemma NextRunSays(t: Task, now: int)
    ensures var next := NextRun(t, now);
      if Recurs(t) then IsNext(Compiled(t.trigger.cron).value, now, next) && now < next else next == t.nextRunAt
    ensures Recurs(t) <==> t.trigger.kind == "cron" && Compiled(t.trigger.cron).Some?
  {
    hide Compiled, NoneUpTo, Horizon, Matches, AddYears;
    FallbackWithinHorizon(now);
  }

  class Scheduler {
    const store: TaskStore
    const ready: ReadyQueue
    const delayed: DelayedQueue
    var nextFire: map<string, int>

    ghost predicate Valid()
      reads this, store, ready, ready.heap, delayed, delayed.heap
    {
      && store.Valid() && ready.Valid() && delayed.Valid() && ready.heap != delayed.heap
      && PendingIndexed(store.tasks, store.byTime)
    }

    ghost function View(): Board
      reads this, store, ready, delayed
    {
      Board(store.tasks, ready.Contents, delayed.Contents, nextFire)
    }

    constructor (store: TaskStore, ready: ReadyQueue, delayed: DelayedQueue)
      ensures this.store == store && this.ready == ready && this.delayed == delayed && nextFire == map[]
    {
      this.store, this.ready, this.delayed := store, ready, delayed;
      nextFire := map[];
    }

    method Track(t: Task)
      modifies this
      ensures View() == Tracked(old(View()), t)
      ensures nextFire == old(nextFire)[t.id := t.nextRunAt]
    {
      nextFire := nextFire[t.id := t.nextRunAt];
    }

    /** The same after a change of the cron expression. */
    method RefreshCron(t: Task)
      modifies this
      ensures View() == Tracked(old(View()), t)
      ensures nextFire == old(nextFire)[t.id := t.nextRunAt]
    {
      nextFire := nextFire[t.id := t.nextRunAt];
    }

    method SetNextFire(id: string, at: int)
      modifies this
      ensures nextFire == old(nextFire)[id := at]
    {
      nextFire := nextFire[id := at];
    }

    /** A year on when the expression does not parse. */
    method NextCron(expr: string, after: int) returns (r: int)
      ensures match Compiled(expr)
              case Some(s) => IsNext(s, after, r)
              case None => r == after + 31_536_000_000_000_000
    {
      hide Compiled, IsNext;
      var schedule := Parse(expr);
      if schedule.None? {
        return after + YEAR_OF_DAYS;
      }
      r := Next(schedule.value, after);
    }

    /** Queues everything that has come due, pending or delayed, and nothing else. */
    method Tick(now: int) returns (enqueued: nat)
      requires Valid()
      modifies this, store, ready, ready.heap, delayed, delayed.heap
      ensures Valid()
      ensures View() == Ticked(old(View()), now)
      ensures enqueued == TickCount(old(View()), now)
      ensures forall id :: id in old(store.tasks) ==> TicksTask(old(View()), View(), id, now)
      ensures forall id :: TicksEntries(old(View()), View(), id, now)
      ensures var b := old(View());
        enqueued == |set id | id in b.tasks && IsDue(b, id, now)|
          + |set id | id in b.tasks && (ComesBack(b, id, now)
                                        || (IsDue(b, id, now) && id in b.delayed && b.delayed[id].at <= now))|
    {
      hide TaskStore.Valid, ReadyQueue.Valid, DelayedQueue.Valid, PendingIndexed, Fired, FiredOne, Promoted, TicksTask,
        TicksEntries, IsDue, ComesBack;
      ghost var b := View();
      var due := CollectDue(now);
      enqueued := 0;
      NoneFired(b, now);
      assert due[..0] == [] && Ids([]) == {};
      for i := 0 to |due|
        invariant Valid() && View() == Fired(b, Ids(due[..i]), now) && enqueued == |PendingIn(b.tasks, Ids(due[..i]))|
      {
        assert due[i] in Ids(due) && due[i] !in Ids(due[..i]) && Ids(due[..i + 1]) == Ids(due[..i]) + {due[i]};
        FireOneMore(b, Ids(due[..i]), due[i], now);
        PendingMore(b.tasks, Ids(due[..i]), due[i]);
        var queued := FireOne(due[i], now);
        if queued {
          enqueued := enqueued + 1;
        }
      }
      assert due[..|due|] == due;
      var promoted := PromoteDue(now);
      enqueued := enqueued + promoted;
      TickCountSays(b, now);
      forall id ensures TicksEntries(b, View(), id, now) && (id in b.tasks ==> TicksTask(b, View(), id, now)) {
        TickSays(b, now, id);
      }
    }

    method CollectDue(now: int) returns (due: seq<string>)
      ensures Distinct(due) && Ids(due) == DueIds(nextFire, now)
    {
      due := [];
      var keys := nextFire.Keys;
      while keys != {}
        invariant keys <= nextFire.Keys && Distinct(due)
        invariant Ids(due) == DueIds(nextFire, now) - keys
        decreases keys
      {
        var id := NextKey(keys);
        if nextFire[id] <= now {
          assert id !in Ids(due) && Ids(due + [id]) == Ids(due) + {id};
          due := due + [id];
        }
        keys := keys - {id};
      }
    }

    /** One round of Tick's first loop. */
    method FireOne(id: string, now: int) returns (queued: bool)
      requires Valid()
      modifies this, store, ready, ready.heap
      ensures Valid()
      ensures View() == FiredOne(old(View()), id, now)
      ensures queued == (id in old(store.tasks) && old(store.tasks)[id].state == Pending)
    {
      hide TaskStore.Valid, ReadyQueue.Valid, DelayedQueue.Valid, PendingIndexed, Compiled, Upcoming, Added;
      var t := store.Get(id);
      if t.None? {
        nextFire := nextFire - {id};
        return false;
      }
      if t.value.state != Pending {
        return false;
      }
      var updated := store.MarkReady(id);
      if !updated.MovedTo? {
        return false;
      }
      var _ := ready.Push(id, updated.task.priority, now);
      GoOn(id, updated.task, now);
      return true;
    }

    /** A task that recurs gets its next run time, in the store and in the fire index. */
    method GoOn(id: string, t: Task, now: int)
      requires Valid() && id in store.tasks && store.tasks[id] == t
      modifies this, store
      ensures Valid()
      ensures View() == if Recurs(t) then
                          old(View()).(tasks := old(store.tasks)[id := t.(nextRunAt := NextRun(t, now))],
                                       nextFire := old(nextFire)[id := NextRun(t, now)])
                        else old(View())
    {
      hide TaskStore.Valid, ReadyQueue.Valid, DelayedQueue.Valid, PendingIndexed, IsNext, Compiled;
      if t.trigger.kind == "cron" {
        var schedule := Parse(t.trigger.cron);
        if schedule.Some? {
          var next := Next(schedule.value, now);
          NextIsUnique(schedule.value, now, next, Upcoming(schedule.value, now));
          var err := store.SetNextRun(id, next);
          if err.None? {
            SetNextFire(id, next);
          }
        }
      }
    }

    /** Tick's second loop. */
    method PromoteDue(now: int) returns (enqueued: nat)
      requires Valid()
      modifies this, store, ready, ready.heap, delayed, delayed.heap
      ensures Valid()
      ensures View() == Promoted(old(View()).(delayed := After(old(delayed.Contents), now)),
          DueDelayed(old(delayed.Contents), now), now)
      ensures enqueued == |ReadyIn(old(store.tasks), DueDelayed(old(delayed.Contents), now))|
    {
      hide TaskStore.Valid, ReadyQueue.Valid, DelayedQueue.Valid, PendingIndexed, After, Added, Enqueued, DueInOrder,
        TaskIds, ReadyIn, DueDelayed;
      ghost var was := delayed.Contents;
      var out := delayed.PopDue(now);
      enqueued := 0;
      ghost var b := View();
      NonePromoted(b, now);
      assert out[..0] == [];
      for i := 0 to |out|
        invariant Valid() && View() == Promoted(b, TaskIds(out[..i]), now)
        invariant enqueued == |ReadyIn(b.tasks, TaskIds(out[..i]))|
      {
        var entry := out[i];
        DueTaskIds(was, now, out, i);
        PromoteOneMore(b, TaskIds(out[..i]), entry.item.taskId, now);
        var t := store.Get(entry.item.taskId);
        if t.None? {
          continue;
        }
        if t.value.state != Ready {
          continue;
        }
        var _ := ready.Push(entry.item.taskId, t.value.priority, now);
        enqueued := enqueued + 1;
      }
      AllDueTaskIds(was, now, out);
      assert out[..|out|] == out;
    }

    method TriggerNow(id: string, now: int) returns (r: Outcome)
      requires Valid()
      modifies store, ready, ready.heap
      ensures Valid()
      ensures View() == Triggered(old(View()), id, now) && r == TriggerOutcome(old(View()), id)
      ensures r == Done <==> id in old(store.tasks) && old(store.tasks)[id].state in {Pending, Ready}
      ensures r == if id !in old(store.tasks) then Unknown else if r == Done then Done else NotTriggerable
      ensures r != Done ==> View() == old(View())
      ensures r == Done ==>
        var (b, t) := (old(View()), old(store.tasks)[id]);
        View() == b.(
          tasks := if t.state == Pending then b.tasks[id := t.(state := Ready, version := t.version + 1)] else b.tasks,
          ready := if id in b.ready then b.ready else b.ready[id := Item(id, t.priority, now)])
    {
      hide TaskStore.Valid, ReadyQueue.Valid, DelayedQueue.Valid, PendingIndexed, Added;
      var t := store.Get(id);
      if t.None? {
        return Unknown;
      }
      if t.value.state != Pending && t.value.state != Ready {
        return NotTriggerable;
      }
      var updated := t.value;
      var moved := store.MarkReady(id);
      if moved.MovedTo? {
        updated := moved.task;
      }
      var _ := ready.Push(id, updated.priority, now);
      return Done;
    }

    method ScheduleRetry(id: string, next: int, priority: int)
      requires Valid()
      modifies delayed, delayed.heap
      ensures Valid()
      ensures View() == old(View()).(delayed := KeepEarlier(old(delayed.Contents), Item(id, priority, next)))
    {
      hide TaskStore.Valid, ReadyQueue.Valid, DelayedQueue.Valid, PendingIndexed;
      var _ := delayed.Push(Item(id, priority, next));
    }

    method Cancel(id: string) returns (r: Outcome)
      requires Valid()
      modifies this, store, ready, ready.heap, delayed, delayed.heap
      ensures Valid()
      ensures View() == CanceledOn(old(View()), id) && r == CancelOutcome(old(View()), id)
      ensures r == Done <==> id in old(store.tasks) && old(store.tasks)[id].state in {Pending, Ready, Leased}
      ensures r == if id !in old(store.tasks) then Unknown else if r == Done then Done else AlreadyTerminal
      ensures r != Done ==> View() == old(View())
      ensures r == Done ==>
        var (b, t) := (old(View()), old(store.tasks)[id]);
        View() == Board(b.tasks[id := t.(state := Canceled, version := t.version + 1)], b.ready - {id},
          b.delayed - {id},
                        b.nextFire - {id})
    {
      hide TaskStore.Valid, ReadyQueue.Valid, DelayedQueue.Valid, PendingIndexed;
      var t := store.Get(id);
      if t.None? {
        return Unknown;
      }
      if t.value.state.Terminal() {
        return AlreadyTerminal;
      }
      var moved := store.Transition(id, t.value.state, Canceled, t.value.version);
      if !moved.MovedTo? {
        return Raced;
      }
      var _ := ready.Remove(id);
      var _ := delayed.Remove(id);
      nextFire := nextFire - {id};
      return Done;
    }
  }
}
