/** Budgets, records and counters over whole runs. */
module Ledger {
  import opened Model
  import opened MapSum
  import opened Records
  import opened Dispatch
  import opened Leasing
  import opened Execution
  import opened TaskLife
  import opened Protocol
  import opened Runs

  // ---------- what one call adds to the history ----------

  predicate Reports(w: World, op: Op, id: string) {
    op.Finish? && op.lease.taskId == id && Accepts(w.sys, op.lease)
  }

  predicate Fails(w: World, op: Op, id: string) {
    Reports(w, op, id) && op.report.status != SUCCESS
  }

  predicate ReapsTask(w: World, op: Op, id: string) {
    op.ReapExpired? && id in Reapable(w.sys.board.tasks, w.sys.lm, op.now)
  }

  lemma MoveCounts(cfg: Config, id: string, a: Life, m: Move, clock: int)
    requires Enabled(id, a, m) && Placed(id, a) && Accounted(a, clock)
    ensures var n := TaskLife.Next(cfg, a, m).note;
      && n.written == a.note.written + (if m.Report? then [RecordOf(m.lease, m.report)] else [])
      && |n.grants| == |a.note.grants| + (if m.Lend? then 1 else 0)
      && Reaps(n.ends) == Reaps(a.note.ends) + (if m.Reap? then 1 else 0)
      && (n.canceledLeased <==> a.note.canceledLeased || (m.Cancel? && a.task.Some? && a.task.value.state == Leased))
  {
    hide NextRun, RecordOf, Reaps;
    if m.Report? {
      ReapsMore(a.note.ends, ByResult(m.lease.id));
    } else if m.Reap? {
      ReapsMore(a.note.ends, ByReap(a.lease.value.id, a.note.deadline, m.now));
    }
  }

  predicate CancelsLeased(w: World, op: Op, id: string) {
    op.CancelTask? && op.id == id && StateOf(w, id) == Some(Leased)
  }

  lemma MovesMatch(cfg: Config, w: World, op: Op, s': System, id: string)
    requires Inv(w)
    ensures var m := MoveOf(cfg, w.sys, op, s', id);
      && (m.Report? <==> Reports(w, op, id)) && (m.Report? ==> m == Move.Report(op.lease, op.report))
      && (m.Lend? <==> Grants(op, id)) && (m.Reap? <==> ReapsTask(w, op, id))
      && (m.Cancel? && StateOf(w, id) == Some(Leased) <==> CancelsLeased(w, op, id))
  {
    hide Sound, Owned, Reapable, Rewritten;
    if op.ReapExpired? {
      ReapableIsCurrent(w.sys.board.tasks, w.sys.lm, op.now, id);
    }
    hide Paired;
  }

  /** Each kind of call adds its own entry to the history of its own task, and nothing else does. */
  lemma CallCounts(cfg: Config, w: World, op: Op, w': World, id: string)
    requires Inv(w) && Step(cfg, w, op, w')
    ensures var n, n' := NoteOf(w, id), NoteOf(w', id);
      && n'.written == n.written + (if Reports(w, op, id) then [RecordOf(op.lease, op.report)] else [])
      && |n'.grants| == |n.grants| + (if Grants(op, id) then 1 else 0)
      && Reaps(n'.ends) == Reaps(n.ends) + (if ReapsTask(w, op, id) then 1 else 0)
      && (n'.canceledLeased <==> n.canceledLeased || CancelsLeased(w, op, id))
  {
    hide Does, Placed, Fenced, Accounted, Budgeted, BackedOff, Paired, Owned, Enabled, TaskLife.Next, MoveOf, Allowed,
      Reports, ReapsTask;
    LifeAfter(cfg, w, op, w', id);
    assert Sound(id, LifeOf(w, id), w.clock);
    MoveCounts(cfg, id, LifeOf(w, id), MoveOf(cfg, w.sys, op, w'.sys, id), w.clock);
    MovesMatch(cfg, w, op, w'.sys, id);
  }

  // ---------- retry budgets and records ----------

  ghost predicate NoPurge(ops: seq<Op>, n: nat)
    requires n <= |ops|
  {
    forall k :: 0 <= k < n ==> !ops[k].Purge?
  }

  lemma RecordsStep(cfg: Config, w: World, op: Op, w': World, id: string)
    requires Inv(w) && Step(cfg, w, op, w') && !op.Purge?
    ensures HistoryOf(w'.sys.records, id) ==
      HistoryOf(w.sys.records, id) + if Reports(w, op, id) then [RecordOf(op.lease, op.report)] else []
  {
    hide Sound, Paired, Owned, Ticked, Rewritten, Released, Accepts, NotesAfter;
  }

  /** As long as nothing is purged, the stored records are the reported results. */
  lemma {:induction false} RecordsKept(cfg: Config, ws: seq<World>, ops: seq<Op>, n: nat, id: string)
    requires Run(cfg, ws, ops) && n <= |ops| && NoPurge(ops, n)
    ensures HistoryOf(ws[n].sys.records, id) == NoteOf(ws[n], id).written
  {
    hide Step, Inv, Reports;
    if n > 0 {
      RecordsKept(cfg, ws, ops, n - 1, id);
      RunInv(cfg, ws, ops, n - 1);
      RecordsStep(cfg, ws[n - 1], ops[n - 1], ws[n], id);
      CallCounts(cfg, ws[n - 1], ops[n - 1], ws[n], id);
    }
  }

  /** An accepted report adds a record that tells what it says. */
  lemma ReportRecords(cfg: Config, ws: seq<World>, ops: seq<Op>, i: nat) returns (rec: ExecutionRecord)
    requires Run(cfg, ws, ops) && i < |ops| && ops[i].Finish? && IsCurrent(ws[i].sys, ops[i].lease)
    ensures Tells(rec, ops[i].lease, ops[i].report)
    ensures var id := ops[i].lease.taskId;
      HistoryOf(ws[i + 1].sys.records, id) == HistoryOf(ws[i].sys.records, id) + [rec]
  {
    hide NotesAfter, Recorded, IsCurrent, Released, RecordOutcome, SettlesTask, SettlesLease, Tells;
    assert Step(cfg, ws[i], ops[i], ws[i + 1]);
    var l := ops[i].lease;
    ResultSays(ws[i].sys, l, ops[i].report, cfg.retryDelay);
    var h, h' := HistoryOf(ws[i].sys.records, l.taskId), HistoryOf(ws[i + 1].sys.records, l.taskId);
    rec := h'[|h|];
    assert h' == h'[..|h|] + [rec];
  }

  lemma KeptHas(s: seq<ExecutionRecord>, cutoff: int, x: ExecutionRecord)
    ensures x in Kept(s, cutoff) <==> x in s && cutoff <= x.finishedAt
  {
    KeptExactly(s, cutoff, x);
    assert x in s <==> x in multiset(s);
    assert x in Kept(s, cutoff) <==> x in multiset(Kept(s, cutoff));
  }

  lemma OnlyAdds(s: System, l: Lease, r: Report, retryDelay: int, id: string, x: ExecutionRecord)
    requires x in HistoryOf(s.records, id)
    ensures x in HistoryOf(Recorded(s, l, r, retryDelay).records, id)
  {
    hide Recorded, IsCurrent, SettlesTask, SettlesLease, Tells;
    ResultSays(s, l, r, retryDelay);
    if IsCurrent(s, l) && id == l.taskId {
      var h, h' := HistoryOf(s.records, id), HistoryOf(Recorded(s, l, r, retryDelay).records, id);
      var k :| 0 <= k < |h| && h[k] == x;
      assert h'[..|h|][k] == h'[k];
    }
  }

  /** A record stays for good but for a purge with a cutoff past its finish time. */
  lemma RecordStays(cfg: Config, w: World, op: Op, w': World, id: string, x: ExecutionRecord)
    requires Step(cfg, w, op, w') && x in HistoryOf(w.sys.records, id)
    ensures x in HistoryOf(w'.sys.records, id) <==> !(op.Purge? && x.finishedAt < op.cutoff)
  {
    hide NotesAfter, Recorded, RecordOutcome, Released, HistoryOf, AssignSpec;
    if op.Purge? {
      KeptHas(HistoryOf(w.sys.records, id), op.cutoff, x);
    } else if op.Finish? {
      OnlyAdds(w.sys, op.lease, op.report, cfg.retryDelay, id, x);
    }
  }

  /** So a result is on record as long as no purge has a cutoff past its finish time, and no longer. */
  lemma {:induction false} RecordLasts(cfg: Config, ws: seq<World>, ops: seq<Op>, i: nat, j: nat, id: string,
      x: ExecutionRecord)
    requires Run(cfg, ws, ops) && i <= j <= |ops| && x in HistoryOf(ws[i].sys.records, id)
    ensures (forall k :: i <= k <= j ==> x in HistoryOf(ws[k].sys.records, id)) <==>
        (forall k :: i <= k < j && ops[k].Purge? ==> ops[k].cutoff <= x.finishedAt)
    decreases j
  {
    hide Step, HistoryOf;
    if i < j {
      RecordLasts(cfg, ws, ops, i, j - 1, id, x);
      if x in HistoryOf(ws[j - 1].sys.records, id) {
        RecordStays(cfg, ws[j - 1], ops[j - 1], ws[j], id, x);
      }
    }
  }

  /**
   Failure records use up the retries, and one more is death; there is one
   success record exactly when the task has succeeded.
   */
  lemma RetryBudget(cfg: Config, ws: seq<World>, ops: seq<Op>, n: nat, id: string)
    requires Run(cfg, ws, ops) && n <= |ops| && NoPurge(ops, n) && id in ws[n].sys.board.tasks
    ensures var t, h := ws[n].sys.board.tasks[id], HistoryOf(ws[n].sys.records, id);
      && Failures(h) + t.retriesLeft == t.maxRetries + (if t.state == Dead then 1 else 0)
      && |h| - Failures(h) == (if t.state == Succeeded then 1 else 0)
      && t.retriesLeft >= 0
  {
    hide Step, Placed, Fenced, Accounted, BackedOff, Paired, Owned;
    RecordsKept(cfg, ws, ops, n, id);
    RunInv(cfg, ws, ops, n);
    assert Budgeted(LifeOf(ws[n], id));
  }

  // ---------- grants, results and reaps ----------

  function GrantCount(ops: seq<Op>, n: nat, id: string): nat
    requires n <= |ops|
  {
    if n == 0 then 0 else GrantCount(ops, n - 1, id) + if Grants(ops[n - 1], id) then 1 else 0
  }

  function ResultCount(ws: seq<World>, ops: seq<Op>, n: nat, id: string): nat
    requires n <= |ops| < |ws|
  {
    if n == 0 then 0 else ResultCount(ws, ops, n - 1, id) + if Reports(ws[n - 1], ops[n - 1], id) then 1 else 0
  }

  function ReapCount(ws: seq<World>, ops: seq<Op>, n: nat, id: string): nat
    requires n <= |ops| < |ws|
  {
    if n == 0 then 0 else ReapCount(ws, ops, n - 1, id) + if ReapsTask(ws[n - 1], ops[n - 1], id) then 1 else 0
  }

  ghost predicate CanceledLeased(ws: seq<World>, ops: seq<Op>, n: nat, id: string)
    requires n <= |ops| < |ws|
  {
    exists k :: 0 <= k < n && CancelsLeased(ws[k], ops[k], id)
  }

  lemma {:induction false} HistoryCounts(cfg: Config, ws: seq<World>, ops: seq<Op>, n: nat, id: string)
    requires Run(cfg, ws, ops) && n <= |ops|
    ensures var h := NoteOf(ws[n], id);
      && |h.grants| == GrantCount(ops, n, id) && |h.written| == ResultCount(ws, ops, n, id)
      && Reaps(h.ends) == ReapCount(ws, ops, n, id) && (h.canceledLeased <==> CanceledLeased(ws, ops, n, id))
  {
    hide Step, Inv, Reports, Grants, ReapsTask, CancelsLeased;
    if n > 0 {
      HistoryCounts(cfg, ws, ops, n - 1, id);
      RunInv(cfg, ws, ops, n - 1);
      CallCounts(cfg, ws[n - 1], ops[n - 1], ws[n], id);
    }
  }

  /** Every grant is accounted for: a result, a reap, still leased, or canceled while leased. */
  lemma GrantAccounting(cfg: Config, ws: seq<World>, ops: seq<Op>, n: nat, id: string)
    requires Run(cfg, ws, ops) && n <= |ops|
    ensures GrantCount(ops, n, id) == ResultCount(ws, ops, n, id) + ReapCount(ws, ops, n, id)
      + if StateOf(ws[n], id) == Some(Leased) || CanceledLeased(ws, ops, n, id) then 1 else 0
  {
    hide Step, Placed, Fenced, Budgeted, BackedOff, Paired, Owned, CanceledLeased;
    HistoryCounts(cfg, ws, ops, n, id);
    RunInv(cfg, ws, ops, n);
    assert Sound(id, LifeOf(ws[n], id), ws[n].clock);
    Unregistered(ws[n], id);
  }

  lemma Unregistered(w: World, id: string)
    requires Inv(w)
    ensures id !in w.sys.board.tasks ==> NoteOf(w, id) == BLANK
  {
  }

  // ---------- the counters ----------

  function ReapTally(notes: map<string, Note>): map<string, int> {
    map id | id in notes :: Reaps(notes[id].ends)
  }

  function FailureTally(notes: map<string, Note>): map<string, int> {
    map id | id in notes :: Failures(notes[id].written)
  }

  function SuccessTally(notes: map<string, Note>): map<string, int> {
    map id | id in notes :: |notes[id].written| - Failures(notes[id].written)
  }

  function ResultTally(notes: map<string, Note>): map<string, int> {
    map id | id in notes :: |notes[id].written|
  }

  /** The counters are the sums of the tasks' histories. */
  ghost predicate Counted(w: World) {
    var c := w.sys.counters;
    && c.expired == Sum(ReapTally(w.notes)) && c.failed == Sum(FailureTally(w.notes))
    && c.executed == Sum(SuccessTally(w.notes))
    && c.recorded == Sum(ResultTally(w.notes)) == c.executed + c.failed
  }

  function ReapIds(w: World, op: Op): set<string> {
    if op.ReapExpired? then Reapable(w.sys.board.tasks, w.sys.lm, op.now) else {}
  }

  function FailureIds(w: World, op: Op): set<string> {
    if op.Finish? && Fails(w, op, op.lease.taskId) then {op.lease.taskId} else {}
  }

  function SuccessIds(w: World, op: Op): set<string> {
    if op.Finish? && Reports(w, op, op.lease.taskId) && op.report.status == SUCCESS then {op.lease.taskId} else {}
  }

  function ReportIds(w: World, op: Op): set<string> {
    if op.Finish? && Reports(w, op, op.lease.taskId) then {op.lease.taskId} else {}
  }

  lemma CountersStep(cfg: Config, w: World, op: Op, w': World)
    requires Inv(w) && Step(cfg, w, op, w')
    ensures var c, c' := w.sys.counters, w'.sys.counters;
      && c'.expired == c.expired + |ReapIds(w, op)|
      && c'.failed == c.failed + |FailureIds(w, op)|
      && c'.executed == c.executed + |SuccessIds(w, op)|
      && c'.recorded == c.recorded + |ReportIds(w, op)|
      && |ReportIds(w, op)| == |FailureIds(w, op)| + |SuccessIds(w, op)|
  {
    hide Placed, Accounted, Budgeted, BackedOff, Paired, Owned, Reapable, NotesAfter, Ticked, Rewritten, Released,
      Appended;
    if op.Finish? && Accepts(w.sys, op.lease) {
      assert Sound(op.lease.taskId, LifeOf(w, op.lease.taskId), w.clock);
      AcceptedIsApplied(cfg, w.sys, op.lease, op.report, NoteOf(w, op.lease.taskId));
    }
  }

  lemma NoteCounts(cfg: Config, w: World, op: Op, w': World, id: string)
    requires Inv(w) && Step(cfg, w, op, w')
    ensures var n, n' := NoteOf(w, id), NoteOf(w', id);
      && Reaps(n'.ends) == Reaps(n.ends) + (if id in ReapIds(w, op) then 1 else 0)
      && Failures(n'.written) == Failures(n.written) + (if id in FailureIds(w, op) then 1 else 0)
      && |n'.written| == |n.written| + (if id in ReportIds(w, op) then 1 else 0)
      && (id in ReportIds(w, op) <==> id in FailureIds(w, op) || id in SuccessIds(w, op))
      && !(id in FailureIds(w, op) && id in SuccessIds(w, op))
    ensures Reaps(BLANK.ends) == Failures(BLANK.written) == |BLANK.written| == 0
  {
    hide Step, Inv, Reapable, Accepts;
    CallCounts(cfg, w, op, w', id);
    if Reports(w, op, id) {
      FailuresMore(NoteOf(w, id).written, RecordOf(op.lease, op.report));
    } else {
      assert NoteOf(w, id).written + [] == NoteOf(w, id).written;
    }
  }

  lemma ReapsBumped(cfg: Config, w: World, op: Op, w': World)
    requires Inv(w) && Step(cfg, w, op, w')
    ensures Bumped(ReapTally(w.notes), ReapTally(w'.notes), ReapIds(w, op))
  {
    hide Step, Inv, ReapIds, FailureIds, SuccessIds, ReportIds;
    TalliedTasks(cfg, w, op, w');
    forall id | id in w'.notes
      ensures ReapTally(w'.notes)[id] == At(ReapTally(w.notes), id) + if id in ReapIds(w, op) then 1 else 0 {
      NoteCounts(cfg, w, op, w', id);
    }
  }

  lemma FailuresBumped(cfg: Config, w: World, op: Op, w': World)
    requires Inv(w) && Step(cfg, w, op, w')
    ensures Bumped(FailureTally(w.notes), FailureTally(w'.notes), FailureIds(w, op))
  {
    hide Step, Inv, ReapIds, FailureIds, SuccessIds, ReportIds;
    TalliedTasks(cfg, w, op, w');
    forall id | id in w'.notes
      ensures FailureTally(w'.notes)[id] == At(FailureTally(w.notes), id) + if id in FailureIds(w, op) then 1 else 0 {
      NoteCounts(cfg, w, op, w', id);
    }
  }

  lemma SuccessesBumped(cfg: Config, w: World, op: Op, w': World)
    requires Inv(w) && Step(cfg, w, op, w')
    ensures Bumped(SuccessTally(w.notes), SuccessTally(w'.notes), SuccessIds(w, op))
  {
    hide Step, Inv, ReapIds, FailureIds, SuccessIds, ReportIds;
    TalliedTasks(cfg, w, op, w');
    forall id | id in w'.notes
      ensures SuccessTally(w'.notes)[id] == At(SuccessTally(w.notes), id) + if id in SuccessIds(w, op) then 1 else 0 {
      NoteCounts(cfg, w, op, w', id);
    }
  }

  lemma ResultsBumped(cfg: Config, w: World, op: Op, w': World)
    requires Inv(w) && Step(cfg, w, op, w')
    ensures Bumped(ResultTally(w.notes), ResultTally(w'.notes), ReportIds(w, op))
  {
    hide Step, Inv, ReapIds, FailureIds, SuccessIds, ReportIds;
    TalliedTasks(cfg, w, op, w');
    forall id | id in w'.notes
      ensures ResultTally(w'.notes)[id] == At(ResultTally(w.notes), id) + if id in ReportIds(w, op) then 1 else 0 {
      NoteCounts(cfg, w, op, w', id);
    }
  }

  lemma TalliedTasks(cfg: Config, w: World, op: Op, w': World)
    requires Inv(w) && Step(cfg, w, op, w')
    ensures w.notes.Keys <= w'.notes.Keys
    ensures ReapIds(w, op) + FailureIds(w, op) + SuccessIds(w, op) + ReportIds(w, op) <= w'.notes.Keys
  {
    hide Sound, Does, NotesAfter, Paired, Owned;
    InvKept(cfg, w, op, w');
    forall id | id in w.notes ensures id in w'.notes {
      OnlyRegisterAdds(cfg, w, op, w', id);
    }
  }

  lemma CountedStep(cfg: Config, w: World, op: Op, w': World)
    requires Inv(w) && Step(cfg, w, op, w') && Counted(w)
    ensures Counted(w')
  {
    hide Step, Inv, Sum, ReapTally, FailureTally, SuccessTally, ResultTally, Bumped, ReapIds, FailureIds, SuccessIds,
      ReportIds;
    CountersStep(cfg, w, op, w');
    ReapsBumped(cfg, w, op, w');
    FailuresBumped(cfg, w, op, w');
    SuccessesBumped(cfg, w, op, w');
    ResultsBumped(cfg, w, op, w');
    SumBumps(ReapTally(w.notes), ReapTally(w'.notes), ReapIds(w, op));
    SumBumps(FailureTally(w.notes), FailureTally(w'.notes), FailureIds(w, op));
    SumBumps(SuccessTally(w.notes), SuccessTally(w'.notes), SuccessIds(w, op));
    SumBumps(ResultTally(w.notes), ResultTally(w'.notes), ReportIds(w, op));
  }

  lemma EmptyCounted(start: int)
    ensures Counted(Empty(start))
  {
    var notes := Empty(start).notes;
    assert ReapTally(notes) == FailureTally(notes) == SuccessTally(notes) == ResultTally(notes) == map[];
  }

  lemma {:induction false} CountersKept(cfg: Config, ws: seq<World>, ops: seq<Op>, n: nat)
    requires Run(cfg, ws, ops) && n <= |ops|
    ensures Counted(ws[n])
  {
    hide Step, Inv, Counted;
    if n == 0 {
      EmptyCounted(ws[0].clock);
    } else {
      CountersKept(cfg, ws, ops, n - 1);
      RunInv(cfg, ws, ops, n - 1);
      CountedStep(cfg, ws[n - 1], ops[n - 1], ws[n]);
    }
  }

  function InState(w: World, state: TaskState): set<string> {
    set id | id in w.sys.board.tasks && w.sys.board.tasks[id].state == state
  }

  function ReapCounts(ws: seq<World>, ops: seq<Op>, n: nat): map<string, int>
    requires n <= |ops| < |ws|
  {
    map id | id in ws[n].sys.board.tasks :: ReapCount(ws, ops, n, id)
  }

  function ResultCounts(ws: seq<World>, ops: seq<Op>, n: nat): map<string, int>
    requires n <= |ops| < |ws|
  {
    map id | id in ws[n].sys.board.tasks :: ResultCount(ws, ops, n, id)
  }

  lemma TalliesAreCounts(cfg: Config, ws: seq<World>, ops: seq<Op>, n: nat)
    requires Run(cfg, ws, ops) && n <= |ops|
    ensures ReapTally(ws[n].notes) == ReapCounts(ws, ops, n)
    ensures ResultTally(ws[n].notes) == ResultCounts(ws, ops, n)
  {
    hide Step, Inv, ReapCount, ResultCount, Failures, Reaps;
    RunInv(cfg, ws, ops, n);
    NotesAreTasks(ws[n]);
    forall id | id in ws[n].notes
      ensures Reaps(ws[n].notes[id].ends) == ReapCount(ws, ops, n, id)
      ensures |ws[n].notes[id].written| == ResultCount(ws, ops, n, id)
    {
      HistoryCounts(cfg, ws, ops, n, id);
    }
  }

  /**
   Summed over the tasks: expired leases are reaps, recorded results are executed plus failed, executed are the
   succeeded tasks.
   */
  lemma CountersAddUp(cfg: Config, ws: seq<World>, ops: seq<Op>, n: nat)
    requires Run(cfg, ws, ops) && n <= |ops|
    ensures var c := ws[n].sys.counters;
      && c.expired == Sum(ReapCounts(ws, ops, n))
      && c.recorded == c.executed + c.failed == Sum(ResultCounts(ws, ops, n))
      && c.executed == |InState(ws[n], Succeeded)|
  {
    hide Step, Inv, Sum, InState, ReapTally, ResultTally, SuccessTally, FailureTally, ReapCounts, ResultCounts;
    CountersKept(cfg, ws, ops, n);
    RunInv(cfg, ws, ops, n);
    TalliesAreCounts(cfg, ws, ops, n);
    SuccessesAreTasks(ws[n]);
  }

  lemma NotesAreTasks(w: World)
    requires Inv(w)
    ensures w.notes.Keys == w.sys.board.tasks.Keys
  {
  }

  lemma SuccessesAreTasks(w: World)
    requires Inv(w)
    ensures Sum(SuccessTally(w.notes)) == |InState(w, Succeeded)|
  {
    hide Placed, Fenced, Accounted, BackedOff, Paired, Owned, Failures;
    forall id | id in w.notes ensures SuccessTally(w.notes)[id] == if id in InState(w, Succeeded) then 1 else 0 {
      assert Budgeted(LifeOf(w, id));
    }
    SumBumps(map[], SuccessTally(w.notes), InState(w, Succeeded));
  }
}
