/**
 Records and counters under interleaving. A result is recorded and counted once
 it has passed the lease check, and only then committed or refused.
 */
module LockCounts {
  import opened Model
  import opened Queues
  import opened Store
  import opened Records
  import opened Leasing
  import opened Execution
  import opened LockSteps
  import opened LockEffects
  import opened LockLevel
  import opened LockSafety
  import opened LockRuns
  import TaskLife

  datatype Results = All | OfTask(id: string) | Successes | Failures

  predicate Among(which: Results, l: Lease, r: Report) {
    match which
    case All => true
    case OfTask(id) => l.taskId == id
    case Successes => r.status == SUCCESS
    case Failures => r.status != SUCCESS
  }

  /** How many such results the system has taken down. */
  function TakenDown(s: Shared, which: Results): int {
    match which
    case All => s.counters.recorded
    case OfTask(id) => |HistoryOf(s.records, id)|
    case Successes => s.counters.recorded - s.counters.failed
    case Failures => s.counters.failed
  }

  /** The section passes the check. */
  predicate PassesCheck(pc: Pc, pc': Pc, which: Results) {
    pc.Checking? && pc'.Applying? && Among(which, pc.l, pc.r)
  }

  predicate AtCommit(pc: Pc, which: Results) {
    pc.Applying? && Among(which, pc.l, pc.r)
  }

  predicate CommitsOne(g: Global, i: nat, which: Results) {
    i < |g.pcs| && AtCommit(g.pcs[i], which) && Takes(g.s.board.tasks, g.pcs[i].r, g.pcs[i].t)
  }

  /** The task has moved on since the check. */
  predicate RefusesOne(g: Global, i: nat, which: Results) {
    i < |g.pcs| && AtCommit(g.pcs[i], which) && !Takes(g.s.board.tasks, g.pcs[i].r, g.pcs[i].t)
  }

  /** The section takes back the task of an expired lease. */
  predicate TakesBack(s: Shared, pc: Pc) {
    pc.Retaking? && CanMove(s.board.tasks, pc.l.taskId, Leased, pc.t.version)
  }

  function Committed(gs: seq<Global>, who: seq<nat>, n: nat, which: Results): nat
    requires n <= |who| < |gs|
  {
    if n == 0 then 0
    else Committed(gs, who, n - 1, which) + if CommitsOne(gs[n - 1], who[n - 1], which) then 1 else 0
  }

  function Refused(gs: seq<Global>, who: seq<nat>, n: nat, which: Results): nat
    requires n <= |who| < |gs|
  {
    if n == 0 then 0
    else Refused(gs, who, n - 1, which) + if RefusesOne(gs[n - 1], who[n - 1], which) then 1 else 0
  }

  /** The threads between the check and the commit. */
  function InFlight(pcs: seq<Pc>, which: Results): nat {
    if pcs == [] then 0
    else InFlight(pcs[..|pcs| - 1], which) + if AtCommit(pcs[|pcs| - 1], which) then 1 else 0
  }

  lemma {:induction false} InFlightMoves(pcs: seq<Pc>, i: nat, pc: Pc, which: Results)
    requires i < |pcs|
    ensures InFlight(pcs[i := pc], which)
      == InFlight(pcs, which) - (if AtCommit(pcs[i], which) then 1 else 0) + if AtCommit(pc, which) then 1 else 0
  {
    var n := |pcs| - 1;
    if i < n {
      assert pcs[i := pc][..n] == pcs[..n][i := pc];
      InFlightMoves(pcs[..n], i, pc, which);
    } else {
      assert pcs[i := pc][..n] == pcs[..n];
    }
  }

  lemma {:induction false} NoneInFlight(pcs: seq<Pc>, which: Results)
    ensures InFlight(pcs, which) == 0 <==> forall i :: 0 <= i < |pcs| ==> !AtCommit(pcs[i], which)
  {
    if pcs != [] {
      NoneInFlight(pcs[..|pcs| - 1], which);
    }
  }

  // ---------- one section ----------

  /** A result is taken down as its report passes the check, and by no other section. */
  lemma SectionTakesDown(cfg: TaskLife.Config, s: Shared, pc: Pc, s': Shared, pc': Pc, which: Results)
    requires Relies(s, pc) && Section(cfg, s, pc, s', pc')
    ensures TakenDown(s', which) == TakenDown(s, which) + if PassesCheck(pc, pc', which) then 1 else 0
    ensures AtCommit(pc', which) == PassesCheck(pc, pc', which)
    ensures Total(s'.records) - s'.counters.recorded == Total(s.records) - s.counters.recorded
  {
    hide Section, TasksAfter, Total, Relies;
    SectionEffect(cfg, s, pc, s', pc');
    if pc.Checking? {
      CheckTakesDown(cfg, s, pc, s', pc', which);
    } else {
      OthersTakeNothingDown(cfg, s, pc, s', pc');
    }
  }

  lemma CheckTakesDown(cfg: TaskLife.Config, s: Shared, pc: Pc, s': Shared, pc': Pc, which: Results)
    requires pc.Checking? && Section(cfg, s, pc, s', pc')
    ensures TakenDown(s', which) == TakenDown(s, which) + if PassesCheck(pc, pc', which) then 1 else 0
    ensures AtCommit(pc', which) == PassesCheck(pc, pc', which)
    ensures Total(s'.records) - s'.counters.recorded == Total(s.records) - s.counters.recorded
  {
    hide Confirms, Total;
    AppendCountsOne(s.records, RecordOf(pc.l, pc.r));
  }

  lemma OthersTakeNothingDown(cfg: TaskLife.Config, s: Shared, pc: Pc, s': Shared, pc': Pc)
    requires !pc.Checking? && Relies(s, pc) && Section(cfg, s, pc, s', pc')
    ensures s'.records == s.records && s'.counters.recorded == s.counters.recorded
        && s'.counters.failed == s.counters.failed && !pc'.Applying?
  {
    hide AssignSection, TickSection, TriggerSection, CancelSection, SaveSection, RenewSection, Begins, Registers,
      TasksAfter, Transitioned, Retried, CanMove, CanRetry, Confirms, KeepEarlier, Released;
    SectionEffect(cfg, s, pc, s', pc');
  }

  /** A success is counted as executed as it commits, and a lease as expired as its task is taken back. */
  lemma SectionCounts(cfg: TaskLife.Config, s: Shared, pc: Pc, s': Shared, pc': Pc)
    requires Section(cfg, s, pc, s', pc')
    ensures s'.counters.executed == s.counters.executed
        + if AtCommit(pc, Successes) && Takes(s.board.tasks, pc.r, pc.t) then 1 else 0
    ensures s'.counters.expired == s.counters.expired + if TakesBack(s, pc) then 1 else 0
  {
    hide AssignSection, TickSection, TriggerSection, CancelSection, SaveSection, RenewSection, Begins, Registers,
      TasksAfter, Transitioned, Retried, CanMove, CanRetry, Confirms, KeepEarlier, Released;
    SectionEffect(cfg, s, pc, s', pc');
  }

  lemma StepTakesDown(cfg: TaskLife.Config, g: Global, i: nat, g': Global, which: Results)
    requires Inv(g) && Step(cfg, g, i, g')
    ensures TakenDown(g'.s, which) - InFlight(g'.pcs, which) == TakenDown(g.s, which) - InFlight(g.pcs, which)
        + (if CommitsOne(g, i, which) then 1 else 0) + if RefusesOne(g, i, which) then 1 else 0
    ensures Total(g'.s.records) - g'.s.counters.recorded == Total(g.s.records) - g.s.counters.recorded
  {
    hide StoreOk, LeasesOk, OneRenews, Relies, Section, TakenDown, InFlight, Takes, Total;
    assert Relies(g.s, g.pcs[i]);
    SectionTakesDown(cfg, g.s, g.pcs[i], g'.s, g'.pcs[i], which);
    InFlightMoves(g.pcs, i, g'.pcs[i], which);
  }

  // ---------- whole interleavings ----------

  lemma StartsEmpty(threads: nat, which: Results)
    ensures var g := Start(threads);
      TakenDown(g.s, which) == 0 == InFlight(g.pcs, which) && Total(g.s.records) == 0 == g.s.counters.recorded
  {
    NoneInFlight(Start(threads).pcs, which);
  }

  /** The results taken down are those committed, those refused after all, and those whose commit is to come. */
  lemma {:induction false} ResultsAddUp(cfg: TaskLife.Config, gs: seq<Global>, who: seq<nat>, n: nat, which: Results)
    requires Interleaving(cfg, gs, who) && n <= |who|
    ensures TakenDown(gs[n].s, which)
      == Committed(gs, who, n, which) + Refused(gs, who, n, which) + InFlight(gs[n].pcs, which)
  {
    hide Inv, Step, TakenDown, InFlight, CommitsOne, RefusesOne;
    if n == 0 {
      StartsEmpty(|gs[0].pcs|, which);
    } else {
      ResultsAddUp(cfg, gs, who, n - 1, which);
      InterleavingInv(cfg, gs, who, n - 1);
      StepTakesDown(cfg, gs[n - 1], who[n - 1], gs[n], which);
    }
  }

  /** The records stored are as many as the results counted. */
  lemma {:induction false} RecordsAreCounted(cfg: TaskLife.Config, gs: seq<Global>, who: seq<nat>, n: nat)
    requires Interleaving(cfg, gs, who) && n <= |who|
    ensures Total(gs[n].s.records) == gs[n].s.counters.recorded
  {
    hide Inv, Step, Total, CommitsOne, RefusesOne, InFlight;
    if n == 0 {
      StartsEmpty(|gs[0].pcs|, All);
    } else {
      RecordsAreCounted(cfg, gs, who, n - 1);
      InterleavingInv(cfg, gs, who, n - 1);
      StepTakesDown(cfg, gs[n - 1], who[n - 1], gs[n], All);
    }
  }

  function TakenBack(gs: seq<Global>, who: seq<nat>, n: nat): nat
    requires n <= |who| < |gs|
  {
    if n == 0 then 0
    else
      var g, i := gs[n - 1], who[n - 1];
      TakenBack(gs, who, n - 1) + if i < |g.pcs| && TakesBack(g.s, g.pcs[i]) then 1 else 0
  }

  /** Executed are the successes committed, and expired the tasks taken back. */
  lemma {:induction false} CommitsAreCounted(cfg: TaskLife.Config, gs: seq<Global>, who: seq<nat>, n: nat)
    requires Interleaving(cfg, gs, who) && n <= |who|
    ensures gs[n].s.counters.executed == Committed(gs, who, n, Successes)
    ensures gs[n].s.counters.expired == TakenBack(gs, who, n)
  {
    hide Section, TakesBack, Takes, AtCommit;
    if n > 0 {
      CommitsAreCounted(cfg, gs, who, n - 1);
      assert Step(cfg, gs[n - 1], who[n - 1], gs[n]);
      SectionCounts(cfg, gs[n - 1].s, gs[n - 1].pcs[who[n - 1]], gs[n].s, gs[n].pcs[who[n - 1]]);
    }
  }

  lemma {:induction false} NoneRefused(gs: seq<Global>, who: seq<nat>, n: nat, which: Results)
    requires n <= |who| < |gs|
    ensures Refused(gs, who, n, which) == 0 <==> forall k :: 0 <= k < n ==> !RefusesOne(gs[k], who[k], which)
  {
    hide RefusesOne;
    if n > 0 {
      NoneRefused(gs, who, n - 1, which);
    }
  }

  /** Once no result of the task is in flight, it has one record for each that was committed iff none was refused. */
  lemma OneRecordEachIff(cfg: TaskLife.Config, gs: seq<Global>, who: seq<nat>, n: nat, id: string)
    requires Interleaving(cfg, gs, who) && n <= |who|
    requires forall i :: 0 <= i < |gs[n].pcs| ==> !AtCommit(gs[n].pcs[i], OfTask(id))
    ensures |HistoryOf(gs[n].s.records, id)| == Committed(gs, who, n, OfTask(id)) <==>
        forall k :: 0 <= k < n ==> !RefusesOne(gs[k], who[k], OfTask(id))
  {
    hide Step, AtCommit, RefusesOne, Committed, Refused, InFlight;
    ResultsAddUp(cfg, gs, who, n, OfTask(id));
    NoneInFlight(gs[n].pcs, OfTask(id));
    NoneRefused(gs, who, n, OfTask(id));
  }

  /** Recorded results are executed or failed, but for the successes refused or in flight. */
  lemma CountersDiffer(cfg: TaskLife.Config, gs: seq<Global>, who: seq<nat>, n: nat)
    requires Interleaving(cfg, gs, who) && n <= |who|
    ensures var c := gs[n].s.counters;
      c.recorded == c.executed + c.failed + Refused(gs, who, n, Successes) + InFlight(gs[n].pcs, Successes)
  {
    hide Step, Committed, Refused, InFlight;
    ResultsAddUp(cfg, gs, who, n, Successes);
    CommitsAreCounted(cfg, gs, who, n);
  }

  /** Once none is in flight, the counters add up if and only if no success was refused after the check. */
  lemma CountersAddUpIff(cfg: TaskLife.Config, gs: seq<Global>, who: seq<nat>, n: nat)
    requires Interleaving(cfg, gs, who) && n <= |who|
    requires forall i :: 0 <= i < |gs[n].pcs| ==> !AtCommit(gs[n].pcs[i], Successes)
    ensures var c := gs[n].s.counters;
      c.recorded == c.executed + c.failed <==> forall k :: 0 <= k < n ==> !RefusesOne(gs[k], who[k], Successes)
  {
    hide Step, AtCommit, RefusesOne, Refused, InFlight;
    CountersDiffer(cfg, gs, who, n);
    NoneInFlight(gs[n].pcs, Successes);
    NoneRefused(gs, who, n, Successes);
  }
}
