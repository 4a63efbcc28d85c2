/**
 The ready queue and the delayed queue. Both are an indexed heap of entries plus
 a presence set; both are proved to be a map from task id to the entry's value.
 */
module Queues {
  import opened IndexedHeap
  import opened Model

  /** What a queue holds: at most one value per task. */
  type Contents = map<string, Item>

  /** readyHeap.Less: higher priority first, then earlier enqueueing. */
  predicate ReadyLess(a: Item, b: Item) {
    if a.priority != b.priority then a.priority > b.priority else a.at < b.at
  }

  /** delayedHeap.Less: earlier run time first, then higher priority. */
  predicate DelayedLess(a: Item, b: Item) {
    if a.at != b.at then a.at < b.at else a.priority > b.priority
  }

  lemma LessesAreStrictWeak()
    ensures StrictWeak(ReadyLess) && StrictWeak(DelayedLess)
  {
  }

  /** No member of the contents comes strictly before the one for id. */
  ghost predicate Foremost(less: Before, c: Contents, id: string) {
    id in c && forall k :: k in c ==> !less(c[k], c[id])
  }

  /** The foremost entry of a ready queue has the highest priority and, among those that have it, waits longest. */
  lemma FirstInOrder(c: Contents, id: string)
    requires Foremost(ReadyLess, c, id)
    ensures forall k :: k in c ==> c[k].priority < c[id].priority
                                   || (c[k].priority == c[id].priority && c[id].at <= c[k].at)
  {
  }

  /** An existing entry is kept, with the earlier of the two times. */
  function KeepEarlier(c: Contents, x: Item): (r: Contents) {
    if x.taskId !in c then c[x.taskId := x]
    else if c[x.taskId].at > x.at then c[x.taskId := c[x.taskId].(at := x.at)]
    else c
  }

  /** A task that is already queued keeps its entry. */
  function Added(c: Contents, x: Item): (r: Contents) {
    if x.taskId in c then c else c[x.taskId := x]
  }

  /** The queue once every task of ids has been pushed, in whatever order. */
  function Enqueued(ts: Tasks, c: Contents, ids: set<string>, now: int): (r: Contents) {
    c + map id | id in ids && id in ts && id !in c :: Item(id, ts[id].priority, now)
  }

  lemma EnqueueOneMore(ts: Tasks, c: Contents, ids: set<string>, id: string, now: int)
    requires id in ts
    ensures Enqueued(ts, c, ids + {id}, now) == Added(Enqueued(ts, c, ids, now), Item(id, ts[id].priority, now))
  {
  }

  /** The entries' values are the contents, each once. */
  ghost predicate Represents(m: multiset<Item>, c: Contents) {
    (forall id :: id in c ==> c[id].taskId == id) && m == multiset(c.Values)
  }

  lemma RepresentsMember(m: multiset<Item>, c: Contents, x: Item)
    requires Represents(m, c)
    ensures x in m <==> x.taskId in c && c[x.taskId] == x
  {
  }

  lemma ValuesMore<K, V>(c: map<K, V>, k: K, v: V)
    requires k !in c
    ensures c[k := v].Values == c.Values + {v}
  {
    var d := c[k := v];
    assert d[k] == v;
    forall y | y in c.Values ensures y in d.Values {
      var j :| j in c && c[j] == y;
      assert d[j] == y;
    }
  }

  lemma RepresentsMore(m: multiset<Item>, c: Contents, x: Item)
    requires Represents(m, c) && x.taskId !in c
    ensures Represents(m + multiset{x}, c[x.taskId := x])
  {
    ValuesMore(c, x.taskId, x);
    assert x !in c.Values;
  }

  lemma RepresentsFewer(m: multiset<Item>, c: Contents, x: Item)
    requires Represents(m, c) && x in m
    ensures x.taskId in c && c[x.taskId] == x && Represents(m - multiset{x}, c - {x.taskId})
  {
    var d := c - {x.taskId};
    forall y | y in c.Values && y != x ensures y in d.Values {
      assert d[y.taskId] == y;
    }
    assert d.Values == c.Values - {x};
  }

  lemma RepresentsChanged(m: multiset<Item>, c: Contents, x: Item, y: Item)
    requires Represents(m, c) && x in m && y.taskId == x.taskId
    ensures x.taskId in c && c[x.taskId] == x && Represents(m - multiset{x} + multiset{y}, c[x.taskId := y])
  {
    RepresentsFewer(m, c, x);
    RepresentsMore(m - multiset{x}, c - {x.taskId}, y);
    assert c[x.taskId := y] == (c - {x.taskId})[x.taskId := y];
  }

  /** A search for a present task's entry always meets it. */
  lemma Findable(s: seq<Item>, c: Contents, id: string)
    requires Represents(multiset(s), c) && id in c
    ensures exists k :: 0 <= k < |s| && s[k].taskId == id
  {
    RepresentsMember(multiset(s), c, c[id]);
    var k :| 0 <= k < |s| && s[k] == c[id];
    assert s[k].taskId == id;
  }

  /** The root of a heap comes before or level with everything in the contents. */
  lemma RootIsForemost(less: Before, s: seq<Item>, c: Contents)
    requires StrictWeak(less) && s != [] && Ordered(less, s, |s|) && Represents(multiset(s), c)
    ensures Foremost(less, c, s[0].taskId) && c[s[0].taskId] == s[0]
  {
    RepresentsMember(multiset(s), c, s[0]);
    forall k | k in c ensures !less(c[k], s[0]) {
      RepresentsMember(multiset(s), c, c[k]);
      var i :| 0 <= i < |s| && s[i] == c[k];
      RootIsLeast(less, s, i);
    }
  }

  /** xs are the due members of was taken out so far, in order, and c is the rest. */
  ghost predicate Taken(was: Contents, c: Contents, xs: seq<Item>, now: int) {
    && (forall i :: 0 <= i < |xs| ==> xs[i].taskId in was && xs[i] == was[xs[i].taskId] && xs[i].at <= now)
    && (forall i, j :: 0 <= i < j < |xs| ==> xs[i].taskId != xs[j].taskId && !DelayedLess(xs[j], xs[i]))
    && c.Keys <= was.Keys
    && (forall id :: id in was && id !in c ==> exists i :: 0 <= i < |xs| && xs[i].taskId == id)
    && (forall id :: id in c ==>
          c[id] == was[id] && forall i :: 0 <= i < |xs| ==> xs[i].taskId != id && !DelayedLess(c[id], xs[i]))
  }

  lemma TakeForemost(was: Contents, c: Contents, xs: seq<Item>, now: int, id: string)
    requires Taken(was, c, xs, now) && Foremost(DelayedLess, c, id) && c[id].at <= now && c[id].taskId == id
    ensures Taken(was, c - {id}, xs + [c[id]], now)
  {
    hide DelayedLess;
    var ys := xs + [c[id]];
    assert ys[|xs|] == c[id] && forall i :: 0 <= i < |xs| ==> ys[i] == xs[i];
    TakesAll(was, c, xs, now, id);
  }

  lemma TakesAll(was: Contents, c: Contents, xs: seq<Item>, now: int, id: string)
    requires Taken(was, c, xs, now) && id in c && c[id].taskId == id
    ensures var ys := xs + [c[id]];
      forall k :: k in was && k !in c - {id} ==> exists i :: 0 <= i < |ys| && ys[i].taskId == k
  {
    hide DelayedLess;
    var ys := xs + [c[id]];
    forall k | k in was && k !in c - {id} ensures exists i :: 0 <= i < |ys| && ys[i].taskId == k {
      if k == id {
        assert ys[|xs|].taskId == k;
      } else {
        var i :| 0 <= i < |xs| && xs[i].taskId == k;
        assert ys[i].taskId == k;
      }
    }
  }

  lemma NothingTaken(c: Contents, now: int)
    ensures Taken(c, c, [], now)
  {
  }

  lemma NothingDue(s: seq<Item>, c: Contents, now: int)
    requires Represents(multiset(s), c)
    requires s != [] ==> Foremost(DelayedLess, c, s[0].taskId) && c[s[0].taskId].at > now
    ensures forall id :: id in c ==> c[id].at > now
  {
    forall id | id in c ensures c[id].at > now {
      Findable(s, c, id);
    }
  }

  /** out is the due part of was in run order, earliest first and then by priority. */
  ghost predicate DueInOrder(was: Contents, now: int, out: seq<Entry>) {
    && (forall i :: 0 <= i < |out| ==> out[i].item.taskId in was && out[i].item == was[out[i].item.taskId])
    && (forall id :: id in was && was[id].at <= now <==> exists i :: 0 <= i < |out| && out[i].item.taskId == id)
    && (forall i, j :: 0 <= i < j < |out| ==>
          out[i].item.taskId != out[j].item.taskId && !DelayedLess(out[j].item, out[i].item))
  }

  function After(c: Contents, now: int): Contents {
    map id | id in c && c[id].at > now :: c[id]
  }

  lemma TakenAllDue(was: Contents, c: Contents, xs: seq<Item>, now: int, out: seq<Entry>)
    requires Taken(was, c, xs, now) && forall id :: id in c ==> c[id].at > now
    requires Values(out) == xs
    ensures DueInOrder(was, now, out) && c == After(was, now)
  {
    forall id | id in was && was[id].at <= now ensures exists i :: 0 <= i < |out| && out[i].item.taskId == id {
      var i :| 0 <= i < |xs| && xs[i].taskId == id;
      assert out[i].item.taskId == id;
    }
  }

  /** What is due comes earliest first, and of one time by descending priority. */
  lemma OutInOrder(was: Contents, now: int, out: seq<Entry>)
    requires DueInOrder(was, now, out)
    ensures forall id :: id in After(was, now) <==> id in was && was[id].at > now
    ensures forall id :: id in After(was, now) ==> After(was, now)[id] == was[id]
    ensures forall i, j :: 0 <= i < j < |out| ==>
              || out[i].item.at < out[j].item.at
              || (out[i].item.at == out[j].item.at && out[i].item.priority >= out[j].item.priority)
  {
  }

  class ReadyQueue {
    const heap: Heap
    var present: set<string>
    ghost var Contents: Contents

    ghost predicate Valid()
      reads this, heap
    {
      && heap.less == ReadyLess && heap.Valid()
      && present == Contents.Keys && Represents(multiset(Values(heap.entries)), Contents)
    }

    constructor ()
      ensures Valid() && fresh(heap) && Contents == map[]
    {
      heap := new Heap(ReadyLess);
      present, Contents := {}, map[];
      LessesAreStrictWeak();
    }

    /** Adds an entry unless the task has one. */
    method Push(taskId: string, priority: int, now: int) returns (added: bool)
      requires Valid()
      modifies this, heap
      ensures Valid()
      ensures added == (taskId !in old(Contents))
      ensures Contents == Added(old(Contents), Item(taskId, priority, now))
      ensures Contents == if taskId in old(Contents) then old(Contents)
                          else old(Contents)[taskId := Item(taskId, priority, now)]
    {
      hide Heap.Valid;
      if taskId in present {
        return false;
      }
      present := present + {taskId};
      var item := Item(taskId, priority, now);
      RepresentsMore(multiset(Values(heap.entries)), Contents, item);
      heap.Push(item);
      Contents := Contents[taskId := item];
      return true;
    }

    /** Takes out an entry that no other entry comes before. */
    method Pop() returns (entry: Option<Entry>)
      requires Valid()
      modifies this, heap
      ensures Valid()
      ensures entry.None? <==> old(Contents) == map[]
      ensures entry.None? ==> Contents == old(Contents)
      ensures entry.Some? ==>
                && var item := entry.value.item;
                && Foremost(ReadyLess, old(Contents), item.taskId)
                && item == old(Contents)[item.taskId]
                && Contents == old(Contents) - {item.taskId}
                && forall k :: k in old(Contents) ==>
                     || old(Contents)[k].priority < item.priority
                     || (old(Contents)[k].priority == item.priority && item.at <= old(Contents)[k].at)
    {
      hide StrictWeak, Ordered, Foremost, Represents, Heap.Indexed;
      if |heap.entries| == 0 {
        forall id | id in Contents ensures false {
          Findable(Values(heap.entries), Contents, id);
        }
        return None;
      }
      RootIsForemost(ReadyLess, Values(heap.entries), Contents);
      FirstInOrder(Contents, heap.entries[0].item.taskId);
      RepresentsFewer(multiset(Values(heap.entries)), Contents, heap.entries[0].item);
      var e := heap.Pop();
      present := present - {e.item.taskId};
      Contents := Contents - {e.item.taskId};
      return Some(e);
    }

    method Remove(taskId: string) returns (removed: bool)
      requires Valid()
      modifies this, heap
      ensures Valid()
      ensures removed == (taskId in old(Contents))
      ensures Contents == old(Contents) - {taskId}
    {
      hide StrictWeak, Ordered, Represents, Heap.Indexed;
      if taskId !in present {
        return false;
      }
      for i := 0 to |heap.entries|
        invariant forall k :: 0 <= k < i ==> heap.entries[k].item.taskId != taskId
      {
        if heap.entries[i].item.taskId == taskId {
          RepresentsFewer(multiset(Values(heap.entries)), Contents, heap.entries[i].item);
          var _ := heap.Remove(i);
          present := present - {taskId};
          Contents := Contents - {taskId};
          return true;
        }
      }
      Findable(Values(heap.entries), Contents, taskId);
      assert false;
    }
  }

  class DelayedQueue {
    const heap: Heap
    var present: set<string>
    ghost var Contents: Contents

    ghost predicate Valid()
      reads this, heap
    {
      && heap.less == DelayedLess && heap.Valid()
      && present == Contents.Keys && Represents(multiset(Values(heap.entries)), Contents)
    }

    constructor ()
      ensures Valid() && fresh(heap) && Contents == map[]
    {
      heap := new Heap(DelayedLess);
      present, Contents := {}, map[];
      LessesAreStrictWeak();
    }

    /** The search loop always finds the entry of a present task, so nothing falls through it. */
    method Push(item: Item) returns (added: bool)
      requires Valid()
      modifies this, heap
      ensures Valid()
      ensures added == (item.taskId !in old(Contents))
      ensures Contents == KeepEarlier(old(Contents), item)
      ensures Contents.Keys == old(Contents).Keys + {item.taskId}
      ensures forall id :: id in old(Contents) && id != item.taskId ==> Contents[id] == old(Contents)[id]
      ensures var now := Contents[item.taskId];
        if item.taskId !in old(Contents) then now == item
        else
          var was := old(Contents)[item.taskId];
          && now == was.(at := now.at) && now.at <= was.at && now.at <= item.at && now.at in {was.at, item.at}
    {
      hide StrictWeak, Ordered, Represents, Heap.Indexed;
      if item.taskId in present {
        for i := 0 to |heap.entries|
          invariant forall k :: 0 <= k < i ==> heap.entries[k].item.taskId != item.taskId
        {
          var e := heap.entries[i];
          if e.item.taskId == item.taskId {
            RepresentsFewer(multiset(Values(heap.entries)), Contents, e.item);
            if e.item.at > item.at {
              Advance(i, item.at);
            }
            return false;
          }
        }
        Findable(Values(heap.entries), Contents, item.taskId);
        assert false;
      }
      present := present + {item.taskId};
      RepresentsMore(multiset(Values(heap.entries)), Contents, item);
      heap.Push(item);
      Contents := Contents[item.taskId := item];
      return true;
    }

    /** Gives entry i another time and lets heap.Fix restore the order. */
    method Advance(i: nat, at: int)
      requires Valid() && i < |heap.entries| && heap.entries[i].item.taskId in Contents
      modifies this, heap
      ensures Valid()
      ensures Contents == var id := old(heap.entries[i].item.taskId); old(Contents)[id := old(Contents[id]).(at := at)]
    {
      hide StrictWeak, Ordered, OrderedAround, Represents, Heap.Indexed;
      var e := heap.entries[i];
      var x := e.item.(at := at);
      ghost var s := Values(heap.entries);
      Perturbed(heap.less, s, i, x);
      RepresentsChanged(multiset(s), Contents, e.item, x);
      heap.SetAt(i, x);
      assert multiset(s[i := x]) == multiset(s) - multiset{e.item} + multiset{x};
      heap.Fix(i);
      Contents := Contents[x.taskId := x];
    }

    /** Takes out exactly the entries whose time has come, earliest first. */
    method PopDue(now: int) returns (out: seq<Entry>)
      requires Valid()
      modifies this, heap
      ensures Valid()
      ensures Contents == After(old(Contents), now)
      ensures forall id :: id in Contents <==> id in old(Contents) && old(Contents)[id].at > now
      ensures forall id :: id in Contents ==> Contents[id] == old(Contents)[id]
      ensures DueInOrder(old(Contents), now, out)
      ensures forall i, j :: 0 <= i < j < |out| ==>
                || out[i].item.at < out[j].item.at
                || (out[i].item.at == out[j].item.at && out[i].item.priority >= out[j].item.priority)
    {
      hide StrictWeak, Ordered, Represents, Taken, DueInOrder, Heap.Indexed, After;
      out := [];
      NothingTaken(Contents, now);
      while |heap.entries| > 0
        invariant Valid() && Taken(old(Contents), Contents, Values(out), now)
        decreases |heap.entries|
      {
        var top := heap.entries[0];
        RootIsForemost(heap.less, Values(heap.entries), Contents);
        if top.item.at > now {
          break;
        }
        RepresentsFewer(multiset(Values(heap.entries)), Contents, top.item);
        TakeForemost(old(Contents), Contents, Values(out), now, top.item.taskId);
        var entry := heap.Pop();
        present := present - {entry.item.taskId};
        Contents := Contents - {entry.item.taskId};
        assert Values(out + [entry]) == Values(out) + [entry.item];
        out := out + [entry];
      }
      NothingDue(Values(heap.entries), Contents, now);
      TakenAllDue(old(Contents), Contents, Values(out), now, out);
      OutInOrder(old(Contents), now, out);
    }

    method Remove(taskId: string) returns (removed: bool)
      requires Valid()
      modifies this, heap
      ensures Valid()
      ensures removed == (taskId in old(Contents))
      ensures Contents == old(Contents) - {taskId}
    {
      hide StrictWeak, Ordered, Represents, Heap.Indexed;
      if taskId !in present {
        return false;
      }
      for i := 0 to |heap.entries|
        invariant forall k :: 0 <= k < i ==> heap.entries[k].item.taskId != taskId
      {
        if heap.entries[i].item.taskId == taskId {
          RepresentsFewer(multiset(Values(heap.entries)), Contents, heap.entries[i].item);
          var _ := heap.Remove(i);
          present := present - {taskId};
          Contents := Contents - {taskId};
          return true;
        }
      }
      Findable(Values(heap.entries), Contents, taskId);
      assert false;
    }
  }
}
