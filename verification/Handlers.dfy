/** The handlers that compose several components, and the wiring of the whole. */
module Handlers {
  import opened Model
  import opened Queues
  import opened Store
  import opened Records
  import opened CronNext
  import opened CronParse
  import opened Dispatch
  import opened Leasing
  import opened Execution
  import opened Worker
  import opened Protocol
  import TaskLife

  // ---------- what a batch does ----------

  /** The board once the tasks have been saved and tracked, one after the other. */
  function BatchOn(b: Board, built: seq<Task>): Board {
    if built == [] then b
    else
      var front, t := BatchOn(b, built[..|built| - 1]), built[|built| - 1];
      Tracked(front.(tasks := Saved(front.tasks, t)), t)
  }

  function NamesOn(ts: Tasks, byName: map<string, string>, built: seq<Task>): map<string, string> {
    if built == [] then byName
    else
      var front, t := built[..|built| - 1], built[|built| - 1];
      SavedNames(SavedAll(ts, front), NamesOn(ts, byName, front), t)
  }

  function SavedAll(ts: Tasks, built: seq<Task>): Tasks {
    if built == [] then ts else Saved(SavedAll(ts, built[..|built| - 1]), built[|built| - 1])
  }

  function TaskIdsOf(built: seq<Task>): set<string> {
    set i | 0 <= i < |built| :: built[i].id
  }

  function NamesOf(built: seq<Task>): set<string> {
    set i | 0 <= i < |built| :: built[i].name
  }

  /** The generator's promise: the ids are new. */
  ghost predicate FreshIds(ts: Tasks, built: seq<Task>) {
    && (forall i :: 0 <= i < |built| ==> built[i].id !in ts)
    && (forall i, j :: 0 <= i < j < |built| ==> built[i].id != built[j].id)
  }

  /** The i-th Save is refused, whatever came before. */
  predicate Refuses(ts: Tasks, byName: map<string, string>, built: seq<Task>, i: nat)
    requires i < |built|
  {
    SaveError(SavedAll(ts, built[..i]), NamesOn(ts, byName, built[..i]), built[i]).Some?
  }

  lemma {:induction false} BatchTasks(b: Board, built: seq<Task>)
    ensures BatchOn(b, built).tasks == SavedAll(b.tasks, built)
    ensures BatchOn(b, built) == b.(tasks := SavedAll(b.tasks, built), nextFire := BatchOn(b, built).nextFire)
  {
    if built != [] {
      BatchTasks(b, built[..|built| - 1]);
    }
  }

  lemma OneMore(b: Board, byName: map<string, string>, built: seq<Task>, i: nat)
    requires i < |built|
    ensures var t := built[i];
      && SavedAll(b.tasks, built[..i + 1]) == Saved(SavedAll(b.tasks, built[..i]), t)
      && NamesOn(b.tasks, byName, built[..i + 1])
           == SavedNames(SavedAll(b.tasks, built[..i]), NamesOn(b.tasks, byName, built[..i]), t)
      && BatchOn(b, built[..i + 1]) == Tracked(BatchOn(b, built[..i]).(tasks := SavedAll(b.tasks, built[..i + 1])), t)
  {
    assert built[..i + 1][..i] == built[..i];
    BatchTasks(b, built[..i]);
  }

  /** Taking out what was put in gives back what was there. */
  lemma {:induction false} TakenOut(ts: Tasks, built: seq<Task>)
    requires FreshIds(ts, built)
    ensures SavedAll(ts, built) - TaskIdsOf(built) == ts
    ensures SavedAll(ts, built).Keys == ts.Keys + TaskIdsOf(built)
  {
    hide TaskIdsOf, Saved;
    if built == [] {
      NoIds();
    } else {
      var n := |built| - 1;
      TakenOut(ts, built[..n]);
      IdsMore(built, n);
      NotYet(built, n);
      OneOut(ts, SavedAll(ts, built[..n]), TaskIdsOf(built[..n]), built[n]);
    }
  }

  lemma {:induction false} SavedAt(ts: Tasks, built: seq<Task>, i: nat)
    requires FreshIds(ts, built) && i < |built|
    ensures built[i].id in SavedAll(ts, built) && SavedAll(ts, built)[built[i].id] == built[i].(version := 1)
  {
    hide TaskIdsOf;
    var n := |built| - 1;
    TakenOut(ts, built[..n]);
    NotYet(built, n);
    if i < n {
      SavedAt(ts, built[..n], i);
    }
  }

  lemma OneOut(ts: Tasks, us: Tasks, ids: set<string>, t: Task)
    requires us - ids == ts && us.Keys == ts.Keys + ids && t.id !in us
    ensures Saved(us, t) == us[t.id := t.(version := 1)] && Saved(us, t).Keys == ts.Keys + (ids + {t.id})
    ensures Saved(us, t) - (ids + {t.id}) == ts
  {
  }

  lemma NoIds()
    ensures TaskIdsOf([]) == {} == NamesOf([])
  {
  }

  lemma IdsMore(built: seq<Task>, n: nat)
    requires n < |built|
    ensures TaskIdsOf(built[..n + 1]) == TaskIdsOf(built[..n]) + {built[n].id}
    ensures NamesOf(built[..n + 1]) == NamesOf(built[..n]) + {built[n].name}
    ensures n + 1 == |built| ==> built[..n + 1] == built
  {
    var more := built[..n + 1];
    forall id | id in TaskIdsOf(more) ensures id in TaskIdsOf(built[..n]) + {built[n].id} {
      var i :| 0 <= i < |more| && more[i].id == id;
      assert i < n ==> built[..n][i].id == id;
    }
    forall id | id in TaskIdsOf(built[..n]) ensures id in TaskIdsOf(more) {
      var i :| 0 <= i < n && built[..n][i].id == id;
      assert more[i].id == id;
    }
    assert more[n].id == built[n].id && more[n].name == built[n].name;
    forall name | name in NamesOf(more) ensures name in NamesOf(built[..n]) + {built[n].name} {
      var i :| 0 <= i < |more| && more[i].name == name;
      assert i < n ==> built[..n][i].name == name;
    }
    forall name | name in NamesOf(built[..n]) ensures name in NamesOf(more) {
      var i :| 0 <= i < n && built[..n][i].name == name;
      assert more[i].name == name;
    }
  }

  /** Names come and go with the tasks they were bound to. */
  lemma {:induction false} NamesTakenOut(ts: Tasks, byName: map<string, string>, built: seq<Task>)
    requires FreshIds(ts, built) && NamesBound(ts, byName)
    requires forall i :: 0 <= i < |built| ==> !Refuses(ts, byName, built, i)
    ensures var names := NamesOn(ts, byName, built);
      && names - NamesOf(built) == byName && forall n :: n in names ==> names[n] in SavedAll(ts, built)
  {
    hide NamesOf, TaskIdsOf, Refuses, SaveError, Saved, SavedNames;
    if built == [] {
      NoIds();
    } else {
      var n := |built| - 1;
      PrefixAccepted(ts, byName, built, n);
      NamesTakenOut(ts, byName, built[..n]);
      TakenOut(ts, built[..n]);
      IdsMore(built, n);
      NotYet(built, n);
      NotRefused(ts, byName, built, n);
      OneNameOut(byName, SavedAll(ts, built[..n]), NamesOn(ts, byName, built[..n]), NamesOf(built[..n]), built[n]);
    }
  }

  lemma NotRefused(ts: Tasks, byName: map<string, string>, built: seq<Task>, n: nat)
    requires n < |built| && !Refuses(ts, byName, built, n)
    ensures SaveError(SavedAll(ts, built[..n]), NamesOn(ts, byName, built[..n]), built[n]).None?
  {
    hide SaveError;
  }

  lemma OneNameOut(byName: map<string, string>, us: Tasks, names: map<string, string>, fronts: set<string>, t: Task)
    requires names - fronts == byName && (forall n :: n in names ==> names[n] in us)
    requires SaveError(us, names, t).None? && t.id !in us
    ensures var after := SavedNames(us, names, t);
      after - (fronts + {t.name}) == byName && forall n :: n in after ==> after[n] in Saved(us, t)
  {
    assert t.name !in names;
  }

  lemma NotYet(built: seq<Task>, n: nat)
    requires n < |built| && forall i, j :: 0 <= i < j < |built| ==> built[i].id != built[j].id
    ensures built[n].id !in TaskIdsOf(built[..n])
  {
  }

  function NamesOfTasks(ts: Tasks, ids: seq<string>): set<string> {
    set id | id in ids && id in ts :: ts[id].name
  }

  datatype UpdateResult = BadCron | NoTask | NotCron | SaveRefused(error: StoreError) | Updated(task: Task)

  ghost function UpdateOutcome(b: Board, byName: map<string, string>, id: string, cron: string,
      now: int): UpdateResult {
    if Compiled(cron).None? then BadCron
    else if id !in b.tasks then NoTask
    else if b.tasks[id].trigger.kind != "cron" then NotCron
    else
      var t := Rewritten(b.tasks[id], cron, now);
      var err := SaveError(b.tasks, byName, t);
      if err.Some? then SaveRefused(err.value) else Updated(t)
  }

  class Handler {
    const store: TaskStore
    const sched: Scheduler

    constructor (store: TaskStore, sched: Scheduler)
      ensures this.store == store && this.sched == sched
    {
      this.store, this.sched := store, sched;
    }

    ghost predicate Valid()
      reads sched, sched.store, sched.ready, sched.ready.heap, sched.delayed, sched.delayed.heap
    {
      sched.store == store && sched.Valid()
    }

    /** Save, then Track; a refused task leaves nothing behind. */
    method RegisterTask(t: Task) returns (err: Option<StoreError>)
      requires Valid()
      modifies store, sched
      ensures Valid()
      ensures err == SaveError(old(store.tasks), old(store.byName), t)
      ensures sched.View() == if err.Some? then old(sched.View())
                              else Tracked(old(sched.View()).(tasks := Saved(old(store.tasks), t)), t)
    {
      hide TaskStore.Valid, ReadyQueue.Valid, DelayedQueue.Valid, PendingIndexed, Saved;
      err := store.Save(t);
      if err.None? {
        sched.Track(t);
      }
    }

    /** All tasks or none; but what a refused batch has tracked stays in the fire index. */
    method RegisterBatch(built: seq<Task>) returns (saved: Option<seq<string>>)
      requires Valid() && FreshIds(store.tasks, built)
      modifies store, sched
      ensures Valid()
      ensures saved.Some? <==> forall i :: 0 <= i < |built| ==> !Refuses(old(store.tasks), old(store.byName), built, i)
      ensures saved.Some? ==>
        && sched.View() == BatchOn(old(sched.View()), built)
        && store.byName == NamesOn(old(store.tasks), old(store.byName), built)
        && |saved.value| == |built| && forall i :: 0 <= i < |built| ==> saved.value[i] == built[i].id
      ensures saved.Some? ==> Registered(old(sched.View()), sched.View(), built)
      ensures NamesBound(old(store.tasks), old(store.byName)) ==>
        (saved.Some? <==> NewNames(old(store.byName), built))
      ensures saved.None? ==> exists i ::
        && 0 <= i < |built| && Refuses(old(store.tasks), old(store.byName), built, i)
        && sched.View() == old(sched.View()).(nextFire := BatchOn(old(sched.View()), built[..i]).nextFire)
      ensures saved.None? && NamesBound(old(store.tasks), old(store.byName)) ==> store.byName == old(store.byName)
    {
      hide TaskStore.Valid, ReadyQueue.Valid, DelayedQueue.Valid, PendingIndexed, Saved, SaveError, BatchOn, NamesOn,
        SavedAll, NamesBound, Registered, NewNames, Refuses;
      ghost var b, names := sched.View(), store.byName;
      var ids: seq<string> := [];
      NothingBuilt(b, names, built);
      for i := 0 to |built|
        invariant Valid() && sched.View() == BatchOn(b, built[..i])
            && store.byName == NamesOn(b.tasks, names, built[..i])
        invariant store.tasks == SavedAll(b.tasks, built[..i])
        invariant forall k :: 0 <= k < i ==> !Refuses(b.tasks, names, built, k)
        invariant |ids| == i && forall k :: 0 <= k < i ==> ids[k] == built[k].id
      {
        OneMore(b, names, built, i);
        BatchTasks(b, built[..i]);
        var err := store.Save(built[i]);
        if err.Some? {
          RefusesNow(b.tasks, names, built, i);
          RollBack(ids);
          PrefixRolledBack(b, names, built, i, ids);
          if NamesBound(b.tasks, names) {
            NoneRefusedIff(b.tasks, names, built);
          }
          return None;
        }
        RefusesNow(b.tasks, names, built, i);
        ids := ids + [built[i].id];
        sched.Track(built[i]);
        BatchTasks(b, built[..i + 1]);
      }
      assert built[..|built|] == built;
      AllRegistered(b, built);
      if NamesBound(b.tasks, names) {
        NoneRefusedIff(b.tasks, names, built);
      }
      return Some(ids);
    }

    /** A refused batch deletes what it has saved. */
    method RollBack(saved: seq<string>)
      requires Valid() && Distinct(saved)
      modifies store
      ensures Valid()
      ensures sched.View() == old(sched.View()).(tasks := old(store.tasks) - Ids(saved))
      ensures store.byName == old(store.byName) - NamesOfTasks(old(store.tasks), saved)
    {
      hide TaskStore.Valid, ReadyQueue.Valid, DelayedQueue.Valid, PendingIndexed;
      ghost var ts, names := store.tasks, store.byName;
      assert saved[..0] == [] && Ids([]) == {} && NamesOfTasks(ts, []) == {};
      for k := 0 to |saved|
        invariant Valid() && sched.View() == old(sched.View()).(tasks := ts - Ids(saved[..k]))
        invariant store.byName == names - NamesOfTasks(ts, saved[..k])
      {
        DeletesOne(ts, saved, k);
        var _ := store.Delete(saved[k]);
      }
      assert saved[..|saved|] == saved;
    }

    /** Parse, read, change the read copy, save it and refresh the fire index. */
    method UpdateCron(id: string, cron: string, now: int) returns (r: UpdateResult)
      requires Valid()
      modifies store, sched
      ensures Valid()
      ensures r == UpdateOutcome(old(sched.View()), old(store.byName), id, cron, now)
      ensures sched.View() == if r.Updated?
          then Tracked(old(sched.View()).(tasks := Saved(old(store.tasks), r.task)), r.task)
                              else old(sched.View())
      ensures r.Updated? <==>
        && Compiled(cron).Some? && id in old(store.tasks)
        && var t := old(store.tasks)[id];
        && t.trigger.kind == "cron" && id != "" && t.state != Canceled
        && (t.name in old(store.byName) ==> old(store.byName)[t.name] == id)
      ensures r.BadCron? <==> Compiled(cron).None?
      ensures r.NoTask? <==> Compiled(cron).Some? && id !in old(store.tasks)
      ensures r.NotCron? <==>
        Compiled(cron).Some? && id in old(store.tasks) && old(store.tasks)[id].trigger.kind != "cron"
      ensures !r.Updated? ==> sched.View() == old(sched.View())
      ensures r.Updated? ==>
        var (was, next) := (old(store.tasks)[id], r.task.nextRunAt);
        && IsNext(Compiled(cron).value, now, next)
        && r.task == was.(trigger := was.trigger.(cron := cron), nextRunAt := next)
        && store.tasks == old(store.tasks)[id := r.task.(version := was.version + 1)]
        && sched.nextFire == old(sched.nextFire)[id := next]
    {
      hide TaskStore.Valid, ReadyQueue.Valid, DelayedQueue.Valid, PendingIndexed, Saved, SaveError, Compiled, IsNext;
      var schedule := Parse(cron);
      if schedule.None? {
        return BadCron;
      }
      var t := store.Get(id);
      if t.None? {
        return NoTask;
      }
      if t.value.trigger.kind != "cron" {
        return NotCron;
      }
      var next := Next(schedule.value, now);
      NextIsUnique(schedule.value, now, next, Upcoming(schedule.value, now));
      assert t.value.id == id;
      var changed := t.value.(trigger := t.value.trigger.(cron := cron), nextRunAt := next);
      var err := store.Save(changed);
      if err.Some? {
        return SaveRefused(err.value);
      }
      sched.RefreshCron(changed);
      return Updated(changed);
    }
  }

  /** The names bound so far are those from before and those of the batch, each bound to a task of its own. */
  lemma {:induction false} NamesSoFar(ts: Tasks, byName: map<string, string>, built: seq<Task>, n: nat)
    requires FreshIds(ts, built) && n <= |built|
    ensures var names := NamesOn(ts, byName, built[..n]);
      && (forall name :: name in names <==> name in byName || name in NamesOf(built[..n]))
      && (forall name :: name in names ==> names[name] in TaskIdsOf(built[..n])
                                           || (name in byName && names[name] == byName[name]))
  {
    hide TaskIdsOf, NamesOf, Saved;
    NoIds();
    if n > 0 {
      NamesSoFar(ts, byName, built, n - 1);
      IdsMore(built, n - 1);
      assert built[..n][..n - 1] == built[..n - 1];
      FreshFront(ts, built, n - 1);
      TakenOut(ts, built[..n - 1]);
      NotYet(built, n - 1);
    }
  }

  lemma FreshFront(ts: Tasks, built: seq<Task>, n: nat)
    requires FreshIds(ts, built) && n <= |built|
    ensures FreshIds(ts, built[..n])
  {
  }

  /** A task of a batch is refused exactly when it has no id, or its name is bound or another's before it. */
  lemma RefusesIff(ts: Tasks, byName: map<string, string>, built: seq<Task>, i: nat)
    requires FreshIds(ts, built) && NamesBound(ts, byName) && i < |built|
    ensures Refuses(ts, byName, built, i) <==>
        || built[i].id == "" || built[i].name in byName
        || exists j :: 0 <= j < i && built[j].name == built[i].name
  {
    var t := built[i];
    NamesSoFar(ts, byName, built, i);
    FreshFront(ts, built, i);
    TakenOut(ts, built[..i]);
    NotYet(built, i);
    assert t.name in NamesOf(built[..i]) <==> exists j :: 0 <= j < i && built[j].name == t.name by {
      if j :| 0 <= j < i && built[j].name == t.name {
        assert built[..i][j].name == t.name;
      }
    }
  }

  /** What an accepted batch leaves behind, task by task. */
  lemma {:induction false} BatchSays(b: Board, built: seq<Task>, i: nat)
    requires FreshIds(b.tasks, built) && i < |built|
    ensures var (b', t) := (BatchOn(b, built), built[i]);
      && t.id in b'.tasks && b'.tasks[t.id] == t.(version := 1)
      && t.id in b'.nextFire && b'.nextFire[t.id] == t.nextRunAt
  {
    hide Saved, SavedAll;
    var n := |built| - 1;
    BatchTasks(b, built);
    SavedAt(b.tasks, built, i);
    if i < n {
      FreshFront(b.tasks, built, n);
      BatchSays(b, built[..n], i);
    }
  }

  /** And all others as they were. */
  lemma OthersStay(ts: Tasks, built: seq<Task>, id: string)
    requires FreshIds(ts, built) && id in ts
    ensures id in SavedAll(ts, built) && SavedAll(ts, built)[id] == ts[id]
  {
    hide SavedAll;
    TakenOut(ts, built);
    assert id in SavedAll(ts, built) - TaskIdsOf(built);
  }

  /** Each task of the batch is stored at version 1 with its fire time, and the others are as they were. */
  ghost predicate Registered(b: Board, b': Board, built: seq<Task>) {
    && (forall i :: 0 <= i < |built| ==>
          && built[i].id in b'.tasks && b'.tasks[built[i].id] == built[i].(version := 1)
          && built[i].id in b'.nextFire && b'.nextFire[built[i].id] == built[i].nextRunAt)
    && (forall id :: id in b.tasks ==> id in b'.tasks && b'.tasks[id] == b.tasks[id])
  }

  lemma AllRegistered(b: Board, built: seq<Task>)
    requires FreshIds(b.tasks, built)
    ensures Registered(b, BatchOn(b, built), built)
  {
    hide BatchOn, SavedAll;
    BatchTasks(b, built);
    forall i | 0 <= i < |built|
      ensures built[i].id in BatchOn(b, built).tasks && BatchOn(b, built).tasks[built[i].id] == built[i].(version := 1)
      ensures built[i].id in BatchOn(b, built).nextFire
          && BatchOn(b, built).nextFire[built[i].id] == built[i].nextRunAt
    {
      BatchSays(b, built, i);
    }
    forall id | id in b.tasks ensures id in SavedAll(b.tasks, built) && SavedAll(b.tasks, built)[id] == b.tasks[id] {
      OthersStay(b.tasks, built, id);
    }
  }

  lemma RefusesNow(ts: Tasks, byName: map<string, string>, built: seq<Task>, i: nat)
    requires i < |built|
    ensures Refuses(ts, byName, built, i) <==>
        SaveError(SavedAll(ts, built[..i]), NamesOn(ts, byName, built[..i]), built[i]).Some?
  {
  }

  /** The batch's ids are given and its names new and distinct. */
  predicate NewNames(byName: map<string, string>, built: seq<Task>) {
    forall i :: 0 <= i < |built| ==>
      && built[i].id != "" && built[i].name !in byName && forall j :: 0 <= j < i ==> built[j].name != built[i].name
  }

  lemma NoneRefusedIff(ts: Tasks, byName: map<string, string>, built: seq<Task>)
    requires FreshIds(ts, built) && NamesBound(ts, byName)
    ensures (forall i :: 0 <= i < |built| ==> !Refuses(ts, byName, built, i)) <==> NewNames(byName, built)
  {
    hide Refuses, NamesBound;
    forall i | 0 <= i < |built|
      ensures Refuses(ts, byName, built, i) <==>
        || built[i].id == "" || built[i].name in byName
        || exists j :: 0 <= j < i && built[j].name == built[i].name
    {
      RefusesIff(ts, byName, built, i);
    }
  }

  lemma NothingBuilt(b: Board, byName: map<string, string>, built: seq<Task>)
    ensures built[..0] == [] && BatchOn(b, built[..0]) == b && NamesOn(b.tasks, byName, built[..0]) == byName
        && SavedAll(b.tasks, built[..0]) == b.tasks
  {
  }

  lemma DeletesOne(ts: Tasks, saved: seq<string>, k: nat)
    requires k < |saved| && Distinct(saved)
    ensures ts - Ids(saved[..k + 1]) == ts - Ids(saved[..k]) - {saved[k]} && saved[k] !in Ids(saved[..k])
    ensures NamesOfTasks(ts, saved[..k + 1]) == NamesOfTasks(ts, saved[..k]) + if saved[k] in ts
        then {ts[saved[k]].name} else {}
  {
    assert saved[..k + 1] == saved[..k] + [saved[k]];
    assert Ids(saved[..k + 1]) == Ids(saved[..k]) + {saved[k]};
  }

  lemma PrefixRolledBack(b: Board, byName: map<string, string>, built: seq<Task>, i: nat, ids: seq<string>)
    requires i < |built| && FreshIds(b.tasks, built) && |ids| == i && forall k :: 0 <= k < i ==> ids[k] == built[k].id
    requires forall k :: 0 <= k < i ==> !Refuses(b.tasks, byName, built, k)
    ensures SavedAll(b.tasks, built[..i]) - Ids(ids) == b.tasks
    ensures NamesBound(b.tasks, byName) ==>
        NamesOn(b.tasks, byName, built[..i]) - NamesOfTasks(SavedAll(b.tasks, built[..i]), ids) == byName
  {
    hide Refuses, NamesBound, NamesOn, SavedAll;
    var front := built[..i];
    TakenOut(b.tasks, front);
    assert Ids(ids) == TaskIdsOf(front) by {
      forall id ensures id in Ids(ids) <==> id in TaskIdsOf(front) {
        if id in Ids(ids) {
          var k :| 0 <= k < i && ids[k] == id;
          assert front[k].id == id;
        }
        if id in TaskIdsOf(front) {
          var k :| 0 <= k < i && front[k].id == id;
          assert ids[k] == id;
        }
      }
    }
    forall k | 0 <= k < i
      ensures ids[k] in SavedAll(b.tasks, front) && SavedAll(b.tasks, front)[ids[k]].name == front[k].name {
      SavedAt(b.tasks, front, k);
    }
    if NamesBound(b.tasks, byName) {
      PrefixAccepted(b.tasks, byName, built, i);
      NamesTakenOut(b.tasks, byName, front);
      PrefixNames(SavedAll(b.tasks, front), front, ids);
    }
  }

  lemma PrefixAccepted(ts: Tasks, byName: map<string, string>, built: seq<Task>, n: nat)
    requires n <= |built| && forall k :: 0 <= k < n ==> !Refuses(ts, byName, built, k)
    ensures forall k :: 0 <= k < n ==> !Refuses(ts, byName, built[..n], k)
  {
    hide SavedAll, NamesOn, SaveError;
    forall k | 0 <= k < n ensures !Refuses(ts, byName, built[..n], k) {
      assert built[..n][..k] == built[..k];
      assert !Refuses(ts, byName, built, k);
    }
  }

  lemma PrefixNames(us: Tasks, front: seq<Task>, ids: seq<string>)
    requires |ids| == |front|
        && forall k :: 0 <= k < |front| ==> ids[k] == front[k].id && ids[k] in us && us[ids[k]].name == front[k].name
    ensures NamesOfTasks(us, ids) == NamesOf(front)
  {
    forall name | name in NamesOf(front) ensures name in NamesOfTasks(us, ids) {
      var k :| 0 <= k < |front| && front[k].name == name;
      assert ids[k] in ids && us[ids[k]].name == name;
    }
  }

  // ---------- the same calls at the operation level ----------

  /** What a refused batch leaves in the fire index. */
  function StaleOf(built: seq<Task>): map<string, int> {
    if built == [] then map[] else StaleOf(built[..|built| - 1])[built[|built| - 1].id := built[|built| - 1].nextRunAt]
  }

  lemma {:induction false} StaleEntries(b: Board, built: seq<Task>)
    ensures BatchOn(b, built).nextFire == b.nextFire + StaleOf(built) && StaleOf(built).Keys == TaskIdsOf(built)
  {
    hide BatchOn, TaskIdsOf;
    if built == [] {
      NothingBuilt(b, map[], built);
      NoIds();
    } else {
      var n := |built| - 1;
      StaleEntries(b, built[..n]);
      IdsMore(built, n);
      BatchLast(b, built);
      assert b.nextFire + StaleOf(built) == (b.nextFire + StaleOf(built[..n]))[built[n].id := built[n].nextRunAt];
    }
  }

  lemma BatchLast(b: Board, built: seq<Task>)
    requires built != []
    ensures var n := |built| - 1;
      BatchOn(b, built).nextFire == BatchOn(b, built[..n]).nextFire[built[n].id := built[n].nextRunAt]
  {
    hide Saved;
  }

  /** A refused batch is the abort that leaves the fresh ids of what it had saved in the fire index. */
  lemma RefusedBatchAborts(cfg: TaskLife.Config, s: System, built: seq<Task>, i: nat)
    requires i < |built| && FreshIds(s.board.tasks, built)
    ensures Does(cfg, s, AbortBatch(StaleOf(built[..i])),
        s.(board := s.board.(nextFire := BatchOn(s.board, built[..i]).nextFire)))
    ensures StaleOf(built[..i]).Keys !! s.board.tasks.Keys
  {
    StaleEntries(s.board, built[..i]);
  }

  /**
   An accepted update is the operation level's, and it is accepted exactly when that allows it and the name is not
   another task's.
   */
  lemma UpdateDoes(cfg: TaskLife.Config, s: System, byName: map<string, string>, id: string, cron: string, now: int)
    requires id in s.board.tasks ==> s.board.tasks[id].id == id != ""
    ensures var (ts, r) := (s.board.tasks, UpdateOutcome(s.board, byName, id, cron, now));
      && (r.Updated? ==> Does(cfg, s, Op.UpdateCron(id, cron, now),
           s.(board := Tracked(s.board.(tasks := Saved(ts, r.task)), r.task))))
      && (r.Updated? <==> id in ts && ts[id].trigger.kind == "cron" && Compiled(cron).Some? && ts[id].state != Canceled
                          && (ts[id].name in byName ==> byName[ts[id].name] == id))
  {
    hide Compiled, Saved;
  }

  // ---------- the wiring ----------

  lemma NothingPending()
    ensures PendingIndexed(map[], map[])
  {
  }

  method WireScheduler() returns (sched: Scheduler)
    ensures sched.Valid() && sched.View() == Board(map[], map[], map[], map[])
  {
    hide TaskStore.Valid, ReadyQueue.Valid, DelayedQueue.Valid, PendingIndexed;
    NothingPending();
    var store := new TaskStore();
    var ready := new ReadyQueue();
    var delayed := new DelayedQueue();
    sched := new Scheduler(store, ready, delayed);
  }

  /** Every component, put together as the service and its harness do, starts out valid and empty. */
  method Wire(ttl: int, retryDelay: int) returns (e: Executor, h: Handler)
    ensures e.Valid() && h.Valid() && h.store == e.store && h.sched == e.results.scheduler
    ensures e.leases.ttl == ttl && e.results.retryDelay == retryDelay
    ensures e.results.View()
        == System(Board(map[], map[], map[], map[]), LeaseMaps(map[], map[]), map[], Counters(0, 0, 0, 0))
  {
    hide Scheduler.Valid;
    var sched := WireScheduler();
    var records := new RecordStore();
    var metrics := new Metrics();
    var leases := new LeaseManager(sched.store, sched.ready, metrics, ttl);
    var results := new ResultManager(sched.store, records, leases, sched, metrics, retryDelay);
    e := new Executor(sched.store, leases, results);
    h := new Handler(sched.store, sched);
  }
}
