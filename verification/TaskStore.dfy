/** The versioned task store with its name binding and its time index. */
module Store {
  import opened Model

  // ---------- what each operation does to the tasks ----------

  function Moved(t: Task, to: TaskState): Task {
    t.(state := to, version := t.version + 1)
  }

  /** The guard of Transition; a negative expected version matches any. */
  predicate CanMove(ts: Tasks, id: string, from: TaskState, expected: int) {
    id in ts && ts[id].state == from && (expected >= 0 ==> ts[id].version == expected)
  }

  function Transitioned(ts: Tasks, id: string, from: TaskState, to: TaskState, expected: int): Tasks {
    if CanMove(ts, id, from, expected) then ts[id := Moved(ts[id], to)] else ts
  }

  /** The guard of Retry: a version and a budget, but no state. */
  predicate CanRetry(ts: Tasks, id: string, expected: int) {
    id in ts && ts[id].version == expected && ts[id].retriesLeft > 0
  }

  function RetriedTask(t: Task, next: int): Task {
    Moved(t, Ready).(retriesLeft := t.retriesLeft - 1, nextRunAt := next)
  }

  function Retried(ts: Tasks, id: string, next: int, expected: int): Tasks {
    if CanRetry(ts, id, expected) then ts[id := RetriedTask(ts[id], next)] else ts
  }

  function Rescheduled(ts: Tasks, id: string, next: int): Tasks {
    if id in ts then ts[id := ts[id].(nextRunAt := next)] else ts
  }

  function SaveError(ts: Tasks, byName: map<string, string>, t: Task): Option<StoreError> {
    if t.id == "" then Some(IdRequired)
    else if t.id in ts && ts[t.id].state == Canceled then Some(AlreadyCanceled)
    else if t.name in byName && byName[t.name] != t.id then Some(DuplicateName)
    else None
  }

  /** Overwriting keeps the stored state and bumps the stored version; inserting starts at version 1. */
  function Saved(ts: Tasks, t: Task): Tasks {
    if t.id in ts then ts[t.id := t.(state := ts[t.id].state, version := ts[t.id].version + 1)]
    else ts[t.id := t.(version := 1)]
  }

  /** An overwrite does not touch the name binding. */
  function SavedNames(ts: Tasks, byName: map<string, string>, t: Task): map<string, string> {
    if t.id in ts then byName else byName[t.name := t.id]
  }

  // ---------- the time index ----------

  type TimeIndex = map<int, seq<string>>

  function Without(ids: seq<string>, id: string): (r: seq<string>)
    ensures forall x :: x in r <==> x in ids && x != id
    ensures |r| <= |ids|
  {
    if ids == [] then []
    else if ids[|ids| - 1] == id then Without(ids[..|ids| - 1], id)
    else Without(ids[..|ids| - 1], id) + [ids[|ids| - 1]]
  }

  ghost predicate Distinct(ids: seq<string>) {
    forall i, j :: 0 <= i < j < |ids| ==> ids[i] != ids[j]
  }

  lemma {:induction false} WithoutDistinct(ids: seq<string>, id: string)
    requires Distinct(ids)
    ensures Distinct(Without(ids, id))
  {
    if ids != [] {
      WithoutDistinct(ids[..|ids| - 1], id);
      assert ids[|ids| - 1] !in ids[..|ids| - 1];
    }
  }

  function Unindexed(ix: TimeIndex, id: string): TimeIndex {
    map key | key in ix && Without(ix[key], id) != [] :: Without(ix[key], id)
  }

  function Indexed(ix: TimeIndex, t: Task): TimeIndex {
    if t.state == Pending || t.state == Ready then
      ix[t.nextRunAt := (if t.nextRunAt in ix then ix[t.nextRunAt] else []) + [t.id]]
    else ix
  }

  /** Every task is stored under its id and every index entry is a task under its run time, listed once. */
  ghost predicate Consistent(ts: Tasks, ix: TimeIndex) {
    && (forall id :: id in ts ==> ts[id].id == id)
    && (forall key :: key in ix ==> ix[key] != [] && Distinct(ix[key]))
    && (forall key, id :: key in ix && id in ix[key] ==> id in ts && ts[id].nextRunAt == key)
  }

  /** Every pending task is in the index, stale entries of other tasks notwithstanding. */
  ghost predicate PendingIndexed(ts: Tasks, ix: TimeIndex) {
    forall id :: id in ts && ts[id].state == Pending ==> ts[id].nextRunAt in ix && id in ix[ts[id].nextRunAt]
  }

  lemma OccursOnce(ts: Tasks, ix: TimeIndex, k1: int, i1: nat, k2: int, i2: nat)
    requires Consistent(ts, ix) && k1 in ix && k2 in ix && i1 < |ix[k1]| && i2 < |ix[k2]|
    requires ix[k1][i1] == ix[k2][i2]
    ensures k1 == k2 && i1 == i2
  {
    var id := ix[k1][i1];
    assert id in ix[k1] && id in ix[k2];
    assert ts[id].nextRunAt == k1;
  }

  lemma UnindexedConsistent(ts: Tasks, ix: TimeIndex, id: string)
    requires Consistent(ts, ix)
    ensures Consistent(ts, Unindexed(ix, id))
    ensures forall key :: key in Unindexed(ix, id) ==> id !in Unindexed(ix, id)[key]
    ensures PendingIndexed(ts - {id}, ix) ==> PendingIndexed(ts - {id}, Unindexed(ix, id))
  {
    forall key | key in ix ensures Distinct(Without(ix[key], id)) {
      WithoutDistinct(ix[key], id);
    }
  }

  /** Adding a task that the index does not mention. */
  lemma IndexedConsistent(ts: Tasks, ix: TimeIndex, t: Task)
    requires Consistent(ts, ix) && forall key :: key in ix ==> t.id !in ix[key]
    ensures Consistent(ts[t.id := t], Indexed(ix, t))
    ensures PendingIndexed(ts - {t.id}, ix) ==> PendingIndexed(ts[t.id := t], Indexed(ix, t))
  {
    var v := Indexed(ix, t);
    forall key, id | key in v && id in v[key] ensures id in ts[t.id := t] && ts[t.id := t][id].nextRunAt == key {
      assert id != t.id ==> key in ix && id in ix[key];
    }
    if PendingIndexed(ts - {t.id}, ix) {
      var us := ts[t.id := t];
      forall id | id in us && us[id].state == Pending ensures us[id].nextRunAt in v && id in v[us[id].nextRunAt] {
        if id == t.id {
          assert v[t.nextRunAt][|v[t.nextRunAt]| - 1] == t.id;
        } else {
          assert id in (ts - {t.id});
        }
      }
    }
  }

  lemma ReindexedConsistent(ts: Tasks, ix: TimeIndex, t: Task)
    requires Consistent(ts, ix)
    ensures Consistent(ts[t.id := t], Indexed(Unindexed(ix, t.id), t))
    ensures PendingIndexed(ts, ix) ==> PendingIndexed(ts[t.id := t], Indexed(Unindexed(ix, t.id), t))
  {
    UnindexedConsistent(ts, ix, t.id);
    IndexedConsistent(ts, Unindexed(ix, t.id), t);
  }

  /** The index does not look at states and versions, except at which tasks are pending. */
  lemma MovedConsistent(ts: Tasks, ix: TimeIndex, id: string, to: TaskState)
    requires Consistent(ts, ix) && id in ts
    ensures ts[id].id == id
    ensures Consistent(ts[id := Moved(ts[id], to)], ix)
    ensures PendingIndexed(ts, ix) && to != Pending ==> PendingIndexed(ts[id := Moved(ts[id], to)], ix)
  {
  }

  lemma DeletedConsistent(ts: Tasks, ix: TimeIndex, id: string)
    requires Consistent(ts, ix)
    ensures Consistent(ts - {id}, Unindexed(ix, id))
    ensures PendingIndexed(ts, ix) ==> PendingIndexed(ts - {id}, Unindexed(ix, id))
  {
    hide Without;
    UnindexedConsistent(ts, ix, id);
  }

  // ---------- names ----------

  /** The binding maps exactly the names of the stored tasks to their ids. */
  ghost predicate NamesBound(ts: Tasks, byName: map<string, string>) {
    && (forall id :: id in ts ==> ts[id].name in byName && byName[ts[id].name] == id)
    && (forall name :: name in byName ==> byName[name] in ts && ts[byName[name]].name == name)
  }

  /** An accepted Save keeps the binding exact if and only if it is not a rename. */
  lemma SaveKeepsNamesIffNotRename(ts: Tasks, byName: map<string, string>, t: Task)
    requires NamesBound(ts, byName) && SaveError(ts, byName, t).None?
    ensures NamesBound(Saved(ts, t), SavedNames(ts, byName, t)) <==> (t.id in ts ==> ts[t.id].name == t.name)
  {
    if t.id in ts && ts[t.id].name != t.name {
      assert Saved(ts, t)[t.id].name == t.name;
      assert ts[t.id].name in byName;
    }
  }

  /** After a rename the new name is still free: a second task may take it, and the old one stays bound. */
  lemma RenameFreesName(t: Task, u: Task)
    requires t.id != u.id && t.id != "" && u.id != "" && t.state != Canceled && t.name != u.name
    ensures var (ts, byName, renamed) := (map[t.id := t], map[t.name := t.id], t.(name := u.name));
      && NamesBound(ts, byName) && SaveError(ts, byName, renamed).None?
      && var (ts', byName') := (Saved(ts, renamed), SavedNames(ts, byName, renamed));
      && SaveError(ts', byName', u).None? && byName'[t.name] == t.id
      && Saved(ts', u)[t.id].name == Saved(ts', u)[u.id].name
  {
  }

  // ---------- due tasks ----------

  /** The pending tasks whose run time has come, by a full scan. */
  function Due(ts: Tasks, now: int): set<string> {
    set id | id in ts && ts[id].state == Pending && ts[id].nextRunAt <= now
  }

  /** A sequence of stored tasks: each of ids exactly once. */
  ghost predicate Lists(ts: Tasks, out: seq<Task>, ids: set<string>) {
    && (forall i :: 0 <= i < |out| ==> out[i].id in ids && out[i].id in ts && out[i] == ts[out[i].id])
    && (forall i, j :: 0 <= i < j < |out| ==> out[i].id != out[j].id)
    && (forall id :: id in ids ==> exists i :: 0 <= i < |out| && out[i].id == id)
  }

  ghost predicate ByPriority(out: seq<Task>) {
    forall i, j :: 0 <= i < j < |out| ==> out[i].priority >= out[j].priority
  }

  function InsertByPriority(s: seq<Task>, t: Task): (r: seq<Task>)
    ensures multiset(r) == multiset(s) + multiset{t}
  {
    if s == [] || s[|s| - 1].priority >= t.priority then s + [t]
    else
      assert s == s[..|s| - 1] + [s[|s| - 1]];
      InsertByPriority(s[..|s| - 1], t) + [s[|s| - 1]]
  }

  lemma {:induction false} InsertKeepsOrder(s: seq<Task>, t: Task)
    requires ByPriority(s)
    ensures ByPriority(InsertByPriority(s, t))
  {
    if s != [] && s[|s| - 1].priority < t.priority {
      var p, last := s[..|s| - 1], s[|s| - 1];
      InsertKeepsOrder(p, t);
      var q := InsertByPriority(p, t);
      forall i | 0 <= i < |q| ensures q[i].priority >= last.priority {
        assert q[i] in multiset(q);
        assert q[i] in p || q[i] == t;
      }
    }
  }

  /** sort.Slice by descending priority; callers rely on no more than this contract. */
  function SortByPriority(s: seq<Task>): (r: seq<Task>)
    ensures ByPriority(r) && multiset(r) == multiset(s)
  {
    if s == [] then []
    else
      var (p, last) := (s[..|s| - 1], s[|s| - 1]);
      assert s == p + [last];
      InsertKeepsOrder(SortByPriority(p), last);
      InsertByPriority(SortByPriority(p), last)
  }

  lemma ListsMore(ts: Tasks, out: seq<Task>, ids: set<string>, id: string)
    requires Lists(ts, out, ids) && id in ts && id !in ids && ts[id].id == id
    ensures Lists(ts, out + [ts[id]], ids + {id})
  {
    var more := out + [ts[id]];
    assert more[|out|].id == id;
    forall k | k in ids ensures exists i :: 0 <= i < |more| && more[i].id == k {
      var i :| 0 <= i < |out| && out[i].id == k;
      assert more[i].id == k;
    }
  }

  lemma {:induction false} CountedOnce(s: seq<Task>, x: Task)
    requires forall i, j :: 0 <= i < j < |s| ==> s[i].id != s[j].id
    ensures multiset(s)[x] <= 1
  {
    if s != [] {
      var p, last := s[..|s| - 1], s[|s| - 1];
      assert s == p + [last];
      CountedOnce(p, x);
      if x == last {
        assert x !in p;
      }
    }
  }

  lemma CountedTwice(r: seq<Task>, i: nat, j: nat)
    requires i < j < |r|
    ensures r[i] == r[j] ==> multiset(r)[r[i]] >= 2
  {
    assert r == r[..j] + [r[j]] + r[j + 1..];
    assert r[i] in r[..j];
  }

  lemma SortedLists(ts: Tasks, s: seq<Task>, r: seq<Task>, ids: set<string>)
    requires Lists(ts, s, ids) && multiset(r) == multiset(s)
    ensures Lists(ts, r, ids)
  {
    forall i | 0 <= i < |r| ensures r[i] in s {
      assert r[i] in multiset(s);
    }
    forall i, j | 0 <= i < j < |r| ensures r[i].id != r[j].id {
      CountedOnce(s, r[i]);
      CountedTwice(r, i, j);
    }
    forall id | id in ids ensures exists i :: 0 <= i < |r| && r[i].id == id {
      var k :| 0 <= k < |s| && s[k].id == id;
      assert s[k] in multiset(r);
      var i :| 0 <= i < |r| && r[i] == s[k];
      assert r[i].id == id;
    }
  }

  // ---------- the store ----------

  /** Transition's (task, ok, error). */
  datatype MoveResult = MovedTo(task: Task) | Refused | Missing

  class TaskStore {
    var tasks: Tasks
    var byName: map<string, string>
    var byTime: TimeIndex

    ghost predicate Valid()
      reads this
    {
      Consistent(tasks, byTime)
    }

    constructor ()
      ensures Valid() && tasks == map[] && byName == map[] && byTime == map[]
    {
      tasks, byName, byTime := map[], map[], map[];
    }

    method Save(t: Task) returns (err: Option<StoreError>)
      requires Valid()
      modifies this
      ensures Valid() && (old(PendingIndexed(tasks, byTime)) ==> PendingIndexed(tasks, byTime))
      ensures err == SaveError(old(tasks), old(byName), t)
      ensures tasks == if err.None? then Saved(old(tasks), t) else old(tasks)
      ensures byName == if err.None? then SavedNames(old(tasks), old(byName), t) else old(byName)
      ensures t.id == "" ==> err == Some(IdRequired)
      ensures t.id != "" && t.id in old(tasks) && old(tasks)[t.id].state == Canceled ==> err == Some(AlreadyCanceled)
      ensures err.Some? && err.value.DuplicateName? ==> t.name in old(byName) && old(byName)[t.name] != t.id
      ensures err.None? <==>
        && t.id != "" && (t.id in old(tasks) ==> old(tasks)[t.id].state != Canceled)
        && (t.name in old(byName) ==> old(byName)[t.name] == t.id)
      ensures err.None? ==>
        if t.id in old(tasks) then
          var was := old(tasks)[t.id];
          tasks == old(tasks)[t.id := t.(state := was.state, version := was.version + 1)] && byName == old(byName)
        else tasks == old(tasks)[t.id := t.(version := 1)] && byName == old(byName)[t.name := t.id]
    {
      if t.id == "" {
        return Some(IdRequired);
      }
      if t.id in tasks && tasks[t.id].state == Canceled {
        return Some(AlreadyCanceled);
      }
      if t.name in byName && byName[t.name] != t.id {
        return Some(DuplicateName);
      }
      if t.id in tasks {
        var prev := tasks[t.id];
        prev := t.(state := prev.state, version := prev.version + 1);
        ReindexedConsistent(tasks, byTime, prev);
        tasks := tasks[t.id := prev];
        ReindexTime(prev);
        return None;
      }
      var cp := t.(version := 1);
      IndexedConsistent(tasks, byTime, cp);
      assert tasks - {cp.id} == tasks;
      tasks := tasks[cp.id := cp];
      byName := byName[cp.name := cp.id];
      IndexTime(cp);
      return None;
    }

    method IndexTime(t: Task)
      modifies this`byTime
      ensures byTime == Indexed(old(byTime), t)
      ensures byTime == if t.state in {Pending, Ready} then
                          old(byTime)[t.nextRunAt :=
                            (if t.nextRunAt in old(byTime) then old(byTime)[t.nextRunAt] else []) + [t.id]]
                        else old(byTime)
    {
      if t.state == Pending || t.state == Ready {
        var key := t.nextRunAt;
        byTime := byTime[key := (if key in byTime then byTime[key] else []) + [t.id]];
      }
    }

    /** The filtering loop of reindexTime and Delete, whatever order the map is walked in. */
    method Unindex(id: string)
      modifies this`byTime
      ensures byTime == Unindexed(old(byTime), id)
    {
      var keys := byTime.Keys;
      while keys != {}
        invariant keys <= old(byTime).Keys
        invariant byTime.Keys <= old(byTime).Keys
        invariant forall k :: k in keys ==> k in byTime && byTime[k] == old(byTime)[k]
        invariant forall k :: k in old(byTime) && k !in keys ==>
          (k in byTime <==> Without(old(byTime)[k], id) != [])
            && (k in byTime ==> byTime[k] == Without(old(byTime)[k], id))
        decreases keys
      {
        var key := NextKey(keys);
        var ids, filtered := byTime[key], [];
        for i := 0 to |ids|
          invariant filtered == Without(ids[..i], id)
        {
          assert ids[..i + 1][..i] == ids[..i];
          if ids[i] != id {
            filtered := filtered + [ids[i]];
          }
        }
        assert ids[..|ids|] == ids;
        if |filtered| == 0 {
          byTime := byTime - {key};
        } else {
          byTime := byTime[key := filtered];
        }
        keys := keys - {key};
      }
      ghost var u := Unindexed(old(byTime), id);
      forall k: int ensures k in byTime <==> k in u {
        assert k in byTime ==> k in old(byTime).Keys;
      }
      forall k: int | k in byTime ensures byTime[k] == u[k] {
      }
    }

    method ReindexTime(t: Task)
      modifies this`byTime
      ensures byTime == Indexed(Unindexed(old(byTime), t.id), t)
    {
      Unindex(t.id);
      IndexTime(t);
    }

    method Get(id: string) returns (t: Option<Task>)
      ensures t == if id in tasks then Some(tasks[id]) else None
      ensures Valid() && t.Some? ==> t.value.id == id
    {
      if id !in tasks {
        return None;
      }
      return Some(tasks[id]);
    }

    /** Exactly the pending tasks due by now, each once, by descending priority. */
    method ScanDue(now: int) returns (out: seq<Task>)
      requires Valid() && PendingIndexed(tasks, byTime)
      ensures Lists(tasks, out, Due(tasks, now)) && ByPriority(out)
      ensures forall id :: (exists i :: 0 <= i < |out| && out[i].id == id) <==>
                id in tasks && tasks[id].state == Pending && tasks[id].nextRunAt <= now
      ensures forall i, j :: 0 <= i < j < |out| ==> out[i].id != out[j].id && out[i].priority >= out[j].priority
      ensures forall i :: 0 <= i < |out| ==> out[i].id in tasks && out[i] == tasks[out[i].id]
    {
      out := [];
      var keys := byTime.Keys;
      ghost var seen: set<string> := {};
      while keys != {}
        invariant keys <= byTime.Keys && Lists(tasks, out, seen)
        invariant forall id :: id in seen <==> id in Due(tasks, now) && tasks[id].nextRunAt !in keys
        decreases keys
      {
        var key := NextKey(keys);
        if key <= now {
          var ids := byTime[key];
          for i := 0 to |ids|
            invariant Lists(tasks, out, seen)
            invariant forall id :: id in seen <==>
                        id in Due(tasks, now) && (tasks[id].nextRunAt !in keys || id in ids[..i])
          {
            var id := ids[i];
            assert id in byTime[key] && ids[..i + 1] == ids[..i] + [id];
            if id in tasks {
              var t := tasks[id];
              if t.state == Pending && t.nextRunAt <= now {
                ListsMore(tasks, out, seen, id);
                out, seen := out + [t], seen + {id};
              }
            }
          }
        }
        keys := keys - {key};
      }
      assert seen == Due(tasks, now);
      SortedLists(tasks, out, SortByPriority(out), seen);
      out := SortByPriority(out);
    }

    method MarkReady(id: string) returns (r: MoveResult)
      requires Valid()
      modifies this`tasks
      ensures Valid() && (old(PendingIndexed(tasks, byTime)) ==> PendingIndexed(tasks, byTime))
      ensures tasks == Transitioned(old(tasks), id, Pending, Ready, -1)
      ensures tasks == if id in old(tasks) && old(tasks)[id].state == Pending
          then old(tasks)[id := old(tasks)[id].(state := Ready, version := old(tasks)[id].version + 1)] else old(tasks)
      ensures r == if id !in old(tasks) then Missing else if old(tasks[id]).state == Pending then MovedTo(tasks[id])
          else Refused
    {
      hide Consistent, PendingIndexed;
      if id !in tasks {
        return Missing;
      }
      if tasks[id].state != Pending {
        return Refused;
      }
      MovedConsistent(tasks, byTime, id, Ready);
      tasks := tasks[id := tasks[id].(state := Ready, version := tasks[id].version + 1)];
      return MovedTo(tasks[id]);
    }

    method Transition(id: string, from: TaskState, to: TaskState, expected: int) returns (r: MoveResult)
      requires Valid()
      modifies this`tasks
      ensures Valid() && (old(PendingIndexed(tasks, byTime)) && to != Pending ==> PendingIndexed(tasks, byTime))
      ensures tasks == Transitioned(old(tasks), id, from, to, expected)
      ensures r.MovedTo? <==>
        && id in old(tasks) && old(tasks)[id].state == from && (expected < 0 || old(tasks)[id].version == expected)
      ensures tasks == if r.MovedTo?
          then old(tasks)[id := old(tasks)[id].(state := to, version := old(tasks)[id].version + 1)] else old(tasks)
      ensures r == if id !in old(tasks) then Missing else if CanMove(old(tasks), id, from, expected)
          then MovedTo(tasks[id]) else Refused
      ensures r.MovedTo? ==> r.task.id == id
    {
      hide Consistent, PendingIndexed;
      if id !in tasks {
        return Missing;
      }
      var t := tasks[id];
      if t.state != from {
        return Refused;
      }
      if expected >= 0 && t.version != expected {
        return Refused;
      }
      MovedConsistent(tasks, byTime, id, to);
      t := t.(state := to, version := t.version + 1);
      tasks := tasks[id := t];
      return MovedTo(t);
    }

    method SetNextRun(id: string, next: int) returns (err: Option<StoreError>)
      requires Valid()
      modifies this
      ensures Valid() && (old(PendingIndexed(tasks, byTime)) ==> PendingIndexed(tasks, byTime))
      ensures tasks == Rescheduled(old(tasks), id, next) && byName == old(byName)
      ensures tasks == if id in old(tasks) then old(tasks)[id := old(tasks)[id].(nextRunAt := next)] else old(tasks)
      ensures err == if id in old(tasks) then None else Some(NotFound)
    {
      if id !in tasks {
        return Some(NotFound);
      }
      var t := tasks[id].(nextRunAt := next);
      ReindexedConsistent(tasks, byTime, t);
      tasks := tasks[id := t];
      ReindexTime(t);
      return None;
    }

    /** Consumes one retry; the only guards are the version and the budget. */
    method Retry(id: string, next: int, expected: int) returns (r: MoveResult)
      requires Valid()
      modifies this
      ensures Valid() && (old(PendingIndexed(tasks, byTime)) ==> PendingIndexed(tasks, byTime))
      ensures tasks == Retried(old(tasks), id, next, expected) && byName == old(byName)
      ensures r.MovedTo? <==>
        id in old(tasks) && old(tasks)[id].version == expected && old(tasks)[id].retriesLeft > 0
      ensures if r.MovedTo? then
                var was := old(tasks)[id];
                tasks == old(tasks)[id := was.(state := Ready, version := was.version + 1,
                                               retriesLeft := was.retriesLeft - 1, nextRunAt := next)]
              else tasks == old(tasks)
      ensures r == if id !in old(tasks) then Missing else if CanRetry(old(tasks), id, expected) then MovedTo(tasks[id])
          else Refused
    {
      if id !in tasks {
        return Missing;
      }
      var t := tasks[id];
      if t.version != expected {
        return Refused;
      }
      if t.retriesLeft <= 0 {
        return Refused;
      }
      t := t.(retriesLeft := t.retriesLeft - 1, state := Ready, nextRunAt := next, version := t.version + 1);
      ReindexedConsistent(tasks, byTime, t);
      tasks := tasks[id := t];
      ReindexTime(t);
      return MovedTo(t);
    }

    method Delete(id: string) returns (err: Option<StoreError>)
      requires Valid()
      modifies this
      ensures Valid() && (old(PendingIndexed(tasks, byTime)) ==> PendingIndexed(tasks, byTime))
      ensures tasks == old(tasks) - {id}
      ensures byName == if id in old(tasks) then old(byName) - {old(tasks[id]).name} else old(byName)
      ensures err == if id in old(tasks) then None else Some(NotFound)
    {
      hide Consistent, PendingIndexed, Unindexed;
      if id !in tasks {
        return Some(NotFound);
      }
      DeletedConsistent(tasks, byTime, id);
      byName := byName - {tasks[id].name};
      tasks := tasks - {id};
      Unindex(id);
      return None;
    }
  }
}
