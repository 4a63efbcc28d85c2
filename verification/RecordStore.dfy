/** Execution history per task. */
module Records {
  import opened Model
  import opened MapSum

  type History = map<string, seq<ExecutionRecord>>

  function HistoryOf(h: History, id: string): seq<ExecutionRecord> {
    if id in h then h[id] else []
  }

  function Appended(h: History, rec: ExecutionRecord): History {
    h[rec.taskId := HistoryOf(h, rec.taskId) + [rec]]
  }

  /** The records finished at or after the cutoff, in their order. */
  function Kept(s: seq<ExecutionRecord>, cutoff: int): (r: seq<ExecutionRecord>) {
    if s == [] then []
    else if s[|s| - 1].finishedAt < cutoff then Kept(s[..|s| - 1], cutoff)
    else Kept(s[..|s| - 1], cutoff) + [s[|s| - 1]]
  }

  function Sizes(h: History): map<string, int> {
    map id | id in h :: |h[id]|
  }

  ghost function Total(h: History): int {
    Sum(Sizes(h))
  }

  /** What PurgeBefore leaves of a history; a task with no record left has no entry. */
  ghost predicate Purged(was: History, now: History, cutoff: int) {
    forall id :: HistoryOf(now, id) == Kept(HistoryOf(was, id), cutoff) && (id in now ==> now[id] != [])
  }

  lemma AppendCountsOne(h: History, rec: ExecutionRecord)
    ensures Total(Appended(h, rec)) == Total(h) + 1
  {
    var n := |HistoryOf(h, rec.taskId)| + 1;
    SumUpdate(Sizes(h), rec.taskId, n);
    assert Sizes(Appended(h, rec)) == Sizes(h)[rec.taskId := n];
  }

  lemma Replaced(h: History, id: string, list: seq<ExecutionRecord>)
    requires id in h
    ensures Total(if list == [] then h - {id} else h[id := list]) == Total(h) - |h[id]| + |list|
  {
    SumUpdate(Sizes(h), id, |list|);
    SumWithout(Sizes(h), id);
    assert Sizes(h[id := list]) == Sizes(h)[id := |list|];
    assert Sizes(h - {id}) == Sizes(h) - {id};
  }

  /** Each record stays as often as it was there, or not at all, as its finish time says. */
  lemma {:induction false} KeptExactly(s: seq<ExecutionRecord>, cutoff: int, x: ExecutionRecord)
    ensures multiset(Kept(s, cutoff))[x] == if x.finishedAt < cutoff then 0 else multiset(s)[x]
  {
    if s != [] {
      KeptExactly(s[..|s| - 1], cutoff, x);
      assert s == s[..|s| - 1] + [s[|s| - 1]];
    }
  }

  /** Purging twice is purging once with the later cutoff. */
  lemma {:induction false} KeptTwice(s: seq<ExecutionRecord>, a: int, b: int)
    ensures Kept(Kept(s, a), b) == Kept(s, if a < b then b else a)
  {
    if s != [] {
      KeptTwice(s[..|s| - 1], a, b);
      var p, last := Kept(s[..|s| - 1], a), s[|s| - 1];
      assert (p + [last])[..|p|] == p;
    }
  }

  class RecordStore {
    var records: History

    constructor ()
      ensures records == map[]
    {
      records := map[];
    }

    method Append(rec: ExecutionRecord)
      modifies this
      ensures records == Appended(old(records), rec)
      ensures HistoryOf(records, rec.taskId) == HistoryOf(old(records), rec.taskId) + [rec]
      ensures forall id :: id != rec.taskId ==> HistoryOf(records, id) == HistoryOf(old(records), id)
    {
      records := records[rec.taskId := (if rec.taskId in records then records[rec.taskId] else []) + [rec]];
    }

    /** PurgeBefore on one task's list. */
    method Compact(list: seq<ExecutionRecord>, cutoff: int) returns (kept: seq<ExecutionRecord>, dropped: nat)
      ensures kept == Kept(list, cutoff) && dropped + |kept| == |list|
    {
      kept, dropped := [], 0;
      for i := 0 to |list|
        invariant kept == Kept(list[..i], cutoff) && dropped + |kept| == i
      {
        assert list[..i + 1][..i] == list[..i];
        if list[i].finishedAt < cutoff {
          dropped := dropped + 1;
        } else {
          kept := kept + [list[i]];
        }
      }
      assert list[..|list|] == list;
    }

    /** Every record is either counted as removed or still there. */
    method PurgeBefore(cutoff: int) returns (removed: nat)
      modifies this
      ensures Purged(old(records), records, cutoff)
      ensures removed + Total(records) == Total(old(records))
    {
      hide Total;
      removed := 0;
      var keys := records.Keys;
      while keys != {}
        invariant keys <= old(records).Keys
        invariant forall id :: id in keys ==> id in records && records[id] == old(records)[id]
        invariant forall id :: id !in keys ==>
          HistoryOf(records, id) == Kept(HistoryOf(old(records), id), cutoff) && (id in records ==> records[id] != [])
        invariant removed + Total(records) == Total(old(records))
        decreases keys
      {
        var taskId := NextKey(keys);
        var kept, dropped := Compact(records[taskId], cutoff);
        removed := removed + dropped;
        Replaced(records, taskId, kept);
        if |kept| == 0 {
          records := records - {taskId};
        } else {
          records := records[taskId := kept];
        }
        keys := keys - {taskId};
      }
    }

    method Count() returns (total: int)
      ensures total == Total(records)
    {
      total := 0;
      var keys := records.Keys;
      ghost var left := Sizes(records);
      while keys != {}
        invariant left.Keys == keys && forall id :: id in left ==> id in records && left[id] == |records[id]|
        invariant total + Sum(left) == Total(records)
        decreases keys
      {
        var taskId := NextKey(keys);
        SumWithout(left, taskId);
        total := total + |records[taskId]|;
        left, keys := left - {taskId}, keys - {taskId};
      }
      assert left == map[];
    }
  }
}
