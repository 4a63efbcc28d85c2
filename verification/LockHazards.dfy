/** What some interleavings do break: states that the code can reach, each by a run of a few calls. */
module LockHazards {
  import opened Model
  import opened IndexedHeap
  import opened Queues
  import opened Store
  import opened Records
  import opened Dispatch
  import opened Leasing
  import opened Execution
  import opened LockSteps
  import opened LockLevel
  import opened LockSafety
  import opened LockRuns
  import opened LockSolo
  import opened LockAlone
  import opened LockExact
  import TaskLife
  import Protocol
  import CronParse

  // ---------- putting runs together ----------

  /** Some sections lead from g to h; on a clean way none of them brings back a discarded task. */
  ghost predicate Leads(cfg: TaskLife.Config, clean: bool, g: Global, h: Global) {
    exists gs, who :: Path(cfg, gs, who) && (clean ==> NoneResurrected(gs, who, |who|)) && gs[0] == g && gs[|who|] == h
  }

  lemma LeadsNowhere(cfg: TaskLife.Config, clean: bool, g: Global)
    ensures Leads(cfg, clean, g, g)
  {
    var gs, who: seq<nat> := [g], [];
    assert Path(cfg, gs, who) && NoneResurrected(gs, who, |who|) && gs[0] == g && gs[|who|] == g;
  }

  lemma LeadsFurther(cfg: TaskLife.Config, clean: bool, g: Global, h: Global, k: Global)
    requires Leads(cfg, clean, g, h) && Leads(cfg, clean, h, k)
    ensures Leads(cfg, clean, g, k)
  {
    hide Step, StepResurrects;
    var gs, who :| Path(cfg, gs, who) && (clean ==> NoneResurrected(gs, who, |who|)) && gs[0] == g && gs[|who|] == h;
    var hs, whom :| Path(cfg, hs, whom) && (clean ==> NoneResurrected(hs, whom, |whom|)) && hs[0] == h
      && hs[|whom|] == k;
    var all, actors := gs + hs[1..], who + whom;
    forall n | 0 <= n < |actors|
      ensures Step(cfg, all[n], actors[n], all[n + 1]) && (clean ==> !StepResurrects(all[n], actors[n], all[n + 1]))
    {
      if n >= |who| {
        assert all[n] == hs[n - |who|] && all[n + 1] == hs[n + 1 - |who|];
      }
    }
    assert Path(cfg, all, actors) && (clean ==> NoneResurrected(all, actors, |actors|)) && all[0] == g
      && all[|actors|] == k;
  }

  lemma LeadsByStep(cfg: TaskLife.Config, clean: bool, g: Global, i: nat, h: Global)
    requires Step(cfg, g, i, h) && (clean ==> !StepResurrects(g, i, h))
    ensures Leads(cfg, clean, g, h)
  {
    hide Step, StepResurrects;
    var gs, who := [g, h], [i];
    assert Path(cfg, gs, who) && (clean ==> NoneResurrected(gs, who, |who|)) && gs[0] == g && gs[|who|] == h;
  }

  /** Thread i runs one more section. */
  lemma RunsOn(cfg: TaskLife.Config, clean: bool, g: Global, i: nat, s: Shared, pc: Pc, s': Shared, pc': Pc)
    requires i < |g.pcs| && Leads(cfg, clean, g, Put(g, i, s, pc)) && Section(cfg, s, pc, s', pc')
        && !Resurrects(s, pc, pc')
    ensures Leads(cfg, clean, g, Put(g, i, s', pc'))
  {
    hide Section, Leads, Resurrects;
    LeadsByStep(cfg, clean, Put(g, i, s, pc), i, Put(g, i, s', pc'));
    LeadsFurther(cfg, clean, g, Put(g, i, s, pc), Put(g, i, s', pc'));
  }

  lemma Begun(cfg: TaskLife.Config, clean: bool, g: Global, i: nat, pc: Pc)
    requires i < |g.pcs| && g.pcs[i].Idle? && Begins(g.s, pc)
    ensures Leads(cfg, clean, g, Put(g, i, g.s, pc))
  {
    hide Leads, Begins;
    LeadsNowhere(cfg, clean, g);
    assert Put(g, i, g.s, Idle) == g;
    RunsOn(cfg, clean, g, i, g.s, Idle, g.s, pc);
  }

  lemma LeadsKeepsInv(cfg: TaskLife.Config, clean: bool, g: Global, h: Global)
    requires Inv(g) && Leads(cfg, clean, g, h)
    ensures Inv(h) && StoreOk(h.s) && LeasesOk(h.s)
  {
    hide Inv, Step, StepResurrects;
    var gs, who :| Path(cfg, gs, who) && (clean ==> NoneResurrected(gs, who, |who|)) && gs[0] == g && gs[|who|] == h;
    PathInv(cfg, gs, who, |who|);
    InvHas(h);
  }

  /** A call that is not interrupted saves only what it has just read. */
  predicate SavesStored(g: Global, i: nat) {
    i < |g.pcs| && (g.pcs[i].Saving? ==> g.pcs[i].t.id in g.s.board.tasks)
  }

  lemma SoloStep(cfg: TaskLife.Config, g: Global, i: nat, g': Global)
    requires Inv(g) && Step(cfg, g, i, g') && SavesStored(g, i)
    ensures !StepResurrects(g, i, g') && Inv(g') && SavesStored(g', i)
  {
    hide Inv, Section, Guarantee;
    InvKept(cfg, g, i, g');
  }

  lemma {:induction false} SoloClean(cfg: TaskLife.Config, gs: seq<Global>, who: seq<nat>, i: nat, n: nat)
    requires Path(cfg, gs, who) && Solo(gs, who, i) && Inv(gs[0]) && SavesStored(gs[0], i) && n <= |who|
    ensures Inv(gs[n]) && SavesStored(gs[n], i) && NoneResurrected(gs, who, n)
  {
    hide Inv, Step, StepResurrects, SavesStored;
    if n > 0 {
      SoloClean(cfg, gs, who, i, n - 1);
      SoloStep(cfg, gs[n - 1], i, gs[n]);
    }
  }

  lemma AloneLeads(cfg: TaskLife.Config, clean: bool, g: Global, i: nat, h: Global)
    requires Uninterrupted(cfg, g, i, h) && Inv(g) && SavesStored(g, i)
    ensures Leads(cfg, clean, g, h)
  {
    hide Inv, Step, StepResurrects, SavesStored;
    var gs, who :| Path(cfg, gs, who) && Solo(gs, who, i) && gs[0] == g && gs[|who|] == h;
    SoloClean(cfg, gs, who, i, |who|);
    assert Path(cfg, gs, who) && (clean ==> NoneResurrected(gs, who, |who|)) && gs[0] == g && gs[|who|] == h;
  }

  /** A whole call, from rest to rest. */
  lemma Calls(cfg: TaskLife.Config, clean: bool, g: Global, i: nat, pc: Pc, s': Shared)
    requires i < |g.pcs| && g.pcs[i].Idle? && Begins(g.s, pc) && Rests(cfg, g.s, pc, s') && Inv(g)
    ensures Leads(cfg, clean, g, Global(s', g.pcs)) && Inv(Global(s', g.pcs))
  {
    hide Inv, Leads, Rests, Uninterrupted, Section, Begins;
    var g1, h := Put(g, i, g.s, pc), Put(g, i, s', Idle);
    Begun(cfg, clean, g, i, pc);
    assert !pc.Saving? by {
      BeginsNoSave(g.s, pc);
    }
    assert h == Global(s', g.pcs) && Put(g1, i, s', Idle) == h;
    UninterruptedIff(cfg, g1, i, h);
    LeadsKeepsInv(cfg, clean, g, g1);
    AloneLeads(cfg, clean, g1, i, h);
    LeadsFurther(cfg, clean, g, g1, h);
    LeadsKeepsInv(cfg, clean, g, h);
  }

  lemma BeginsNoSave(s: Shared, pc: Pc)
    requires Begins(s, pc)
    ensures !pc.Saving?
  {
  }

  lemma CallsTo(cfg: TaskLife.Config, clean: bool, g: Global, i: nat, pc: Pc, s': Shared)
    requires i < |g.pcs| && g.pcs[i].Idle? && Begins(g.s, pc) && Becomes(cfg, g.s, pc, s', Idle) && Inv(g)
    ensures Leads(cfg, clean, g, Global(s', g.pcs)) && Inv(Global(s', g.pcs))
  {
    hide Inv, Leads, Rests, Begins;
    RestsNow(cfg, s', s');
    Calls(cfg, clean, g, i, pc, s');
  }

  // ---------- the calls of the runs below ----------

  /** The task is registered and triggered: ready, and the only entry of the ready queue. */
  function QueuedState(t: Task): Shared {
    Shared(Board(map[t.id := t.(state := Ready, version := 2)], map[t.id := Item(t.id, t.priority, 0)], map[],
      map[t.id := t.nextRunAt]),
           map[t.name := t.id], LeaseMaps(map[], map[]), map[], Counters(0, 0, 0, 0), map[], {t.id}, false)
  }

  function Registered(s: Shared, t: Task): Shared {
    SavedOn(s, t).(drawn := s.drawn + {t.id})
  }

  lemma RegisterLeads(cfg: TaskLife.Config, clean: bool, g: Global, i: nat, t: Task)
    requires i < |g.pcs| && g.pcs[i].Idle? && t.id !in g.s.drawn && t.state == Pending && Accepted(g.s, t)
    ensures Leads(cfg, clean, g, Global(Registered(g.s, t), g.pcs))
  {
    hide Leads, Saved, SavedNames, Accepted;
    var s1 := Stored(g.s, t).(drawn := g.s.drawn + {t.id});
    LeadsNowhere(cfg, clean, g);
    assert Put(g, i, g.s, Idle) == g && Put(g, i, Registered(g.s, t), Idle) == Global(Registered(g.s, t), g.pcs);
    RunsOn(cfg, clean, g, i, g.s, Idle, s1, Tracking(t));
    RunsOn(cfg, clean, g, i, s1, Tracking(t), Registered(g.s, t), Idle);
  }

  lemma QueuedTask(cfg: TaskLife.Config, t: Task, threads: nat) returns (g: Global)
    requires threads >= 2 && t.id != "" && t.state == Pending
    ensures Leads(cfg, true, Start(threads), g) && Inv(g) && g == Global(QueuedState(t), Start(threads).pcs)
  {
    hide Leads, Inv, Becomes, Registered, QueuedState, Triggered;
    var g0 := Start(threads);
    StartInv(threads);
    RegisterLeads(cfg, true, g0, 0, t);
    var g1 := Global(Registered(g0.s, t), g0.pcs);
    LeadsKeepsInv(cfg, true, g0, g1);
    InvHas(g1);
    TriggerBecomes(cfg, g1.s, 0, t.id);
    QueuedIs(threads, t);
    CallsTo(cfg, true, g1, 1, Triggering(0, t.id), QueuedState(t));
    g := Global(QueuedState(t), g1.pcs);
    LeadsFurther(cfg, true, g0, g1, g);
  }

  lemma QueuedIs(threads: nat, t: Task)
    requires t.state == Pending
    ensures var s := Registered(Start(threads).s, t);
      s.(board := Triggered(s.board, t.id, 0)) == QueuedState(t)
  {
  }

  /** The only queued task is leased. */
  lemma Lends(cfg: TaskLife.Config, s: Shared, now: int, l: Lease)
    requires StoreOk(s) && !s.renewing && s.board.ready.Keys == {l.taskId} && IsReady(s, l.taskId)
    requires l.id !in s.granted
        && l == Lease(l.id, l.taskId, l.workerId, s.board.tasks[l.taskId].version + 1, now + cfg.ttl)
    ensures Rests(cfg, s, Popping(now), Granted(LeasedOut(s, l.taskId, map[]), l))
  {
    hide Rests;
    var c := s.board.ready;
    assert c - {l.taskId} == map[] && Left(s, c) == s;
    RestsGranted(cfg, s, now, l.taskId, map[], l);
    PopsOne(cfg, s, now, c, l.taskId, Granted(LeasedOut(s, l.taskId, map[]), l));
  }

  /** The only queued task finds no worker. */
  lemma RollsBackOnly(cfg: TaskLife.Config, s: Shared, now: int, id: string)
    requires StoreOk(s) && s.board.ready.Keys == {id} && IsReady(s, id)
    ensures Rests(cfg, s, Popping(now), PutBackOn(s, id, map[], now))
  {
    hide Rests;
    var c := s.board.ready;
    assert c - {id} == map[] && Left(s, c) == s;
    RestsPutBack(cfg, s, now, id, map[]);
    PopsOne(cfg, s, now, c, id, PutBackOn(s, id, map[], now));
  }

  const FAILURE := Report("failure", "", 0, 0, "e")

  /** The failed task waits for its retry. */
  function FailedOn(s: Shared, l: Lease, delay: int): Shared
    requires l.taskId in s.board.tasks
  {
    var t, w := s.board.tasks[l.taskId], Written(s, l, FAILURE);
    w.(board := w.board.(tasks := s.board.tasks[l.taskId := RetriedTask(t, delay)],
                         delayed := KeepEarlier(s.board.delayed, Item(l.taskId, t.priority, delay))))
  }

  /** The task's current lease, at the task's version: its results pass the check. */
  predicate Passes(s: Shared, l: Lease) {
    && l.id in s.granted && s.granted[l.id] == l && CurrentLease(s.lm, l.taskId) == Some(l)
    && l.taskId in s.board.tasks && s.board.tasks[l.taskId].version == l.taskVersion
    && s.board.tasks[l.taskId].retriesLeft > 0
  }

  /** A result is reported, up to its commit. */
  lemma Reports(cfg: TaskLife.Config, g: Global, i: nat, l: Lease, r: Report)
    requires i < |g.pcs| && g.pcs[i].Idle? && !g.s.renewing && Passes(g.s, l)
    ensures var t := g.s.board.tasks[l.taskId];
      Leads(cfg, true, g, Put(g, i, Written(g.s, l, r), Applying(l, r, t)))
  {
    hide Leads, CurrentLease, Section, Written;
    var s, t := g.s, g.s.board.tasks[l.taskId];
    ReportLooks(cfg, s, l, r);
    Begun(cfg, true, g, i, Reporting(l, r));
    RunsOn(cfg, true, g, i, s, Reporting(l, r), s, Checking(l, r, t));
    RunsOn(cfg, true, g, i, s, Checking(l, r, t), Written(s, l, r), Applying(l, r, t));
  }

  lemma ReportLooks(cfg: TaskLife.Config, s: Shared, l: Lease, r: Report)
    requires !s.renewing && Passes(s, l)
    ensures var t := s.board.tasks[l.taskId];
      && Section(cfg, s, Reporting(l, r), s, Checking(l, r, t))
      && Section(cfg, s, Checking(l, r, t), Written(s, l, r), Applying(l, r, t))
  {
    hide CurrentLease, Written;
  }

  /** A failure is reported, up to the release of the lease. */
  lemma Fails(cfg: TaskLife.Config, g: Global, i: nat, l: Lease)
    requires i < |g.pcs| && g.pcs[i].Idle? && StoreOk(g.s) && !g.s.renewing && Passes(g.s, l)
    ensures Commits(g.s, Applying(l, FAILURE, g.s.board.tasks[l.taskId]), l.id)
    ensures Leads(cfg, true, g, Put(g, i, FailedOn(g.s, l, cfg.retryDelay), Releasing(l)))
  {
    hide Leads, CurrentLease, Section, FailedOn, StoreOk, Written;
    var s, t := g.s, g.s.board.tasks[l.taskId];
    var w := Written(s, l, FAILURE);
    var s1 := With(w, s.board.tasks[l.taskId := RetriedTask(t, cfg.retryDelay)]);
    FailureApplies(cfg, s, l);
    Reports(cfg, g, i, l, FAILURE);
    RunsOn(cfg, true, g, i, w, Applying(l, FAILURE, t), s1, Delaying(l, RetriedTask(t, cfg.retryDelay)));
    RunsOn(cfg, true, g, i, s1, Delaying(l, RetriedTask(t, cfg.retryDelay)), FailedOn(s, l, cfg.retryDelay),
      Releasing(l));
  }

  lemma FailureApplies(cfg: TaskLife.Config, s: Shared, l: Lease)
    requires StoreOk(s) && Passes(s, l)
    ensures var (t, w) := (s.board.tasks[l.taskId], Written(s, l, FAILURE));
      var (u, s1) := (RetriedTask(t, cfg.retryDelay),
        With(w, s.board.tasks[l.taskId := RetriedTask(t, cfg.retryDelay)]));
      && Section(cfg, w, Applying(l, FAILURE, t), s1, Delaying(l, u))
      && Section(cfg, s1, Delaying(l, u), FailedOn(s, l, cfg.retryDelay), Releasing(l))
      && Commits(s, Applying(l, FAILURE, t), l.id)
  {
    hide KeepEarlier, Noted, CurrentLease;
  }

  // ---------- a release that takes away another lease's binding ----------

  predicate LeaseUnbound(s: Shared, l: Lease) {
    && l.id in s.lm.leases && s.lm.leases[l.id] == l && Holds(s.board.tasks, l)
    && CurrentLease(s.lm, l.taskId).None?
  }

  /** A task is registered, triggered and leased. */
  lemma LeasedTask(cfg: TaskLife.Config, t: Task, threads: nat, l: Lease) returns (g: Global)
    requires threads >= 2 && t.id != "" && t.state == Pending && l == Lease("1", t.id, "w", 3, cfg.ttl)
    ensures Leads(cfg, true, Start(threads), g) && Inv(g)
    ensures g == Global(Granted(LeasedOut(QueuedState(t), t.id, map[]), l), Start(threads).pcs)
  {
    hide Leads, Inv, Rests, QueuedState, LeasedOut, Granted;
    var g0 := QueuedTask(cfg, t, threads);
    QueuedHas(t);
    InvHas(g0);
    Lends(cfg, g0.s, 0, l);
    g := Global(Granted(LeasedOut(g0.s, t.id, map[]), l), g0.pcs);
    Calls(cfg, true, g0, 0, Popping(0), g.s);
    LeadsFurther(cfg, true, Start(threads), g0, g);
  }

  /** Any result reported for such a lease is refused by the check. */
  lemma UnboundIsRefused(cfg: TaskLife.Config, g: Global, i: nat, l: Lease, r: Report)
    requires i < |g.pcs| && g.pcs[i].Idle? && !g.s.renewing && LeaseUnbound(g.s, l) && Begins(g.s, Reporting(l, r))
    ensures Leads(cfg, true, g, Put(g, i, g.s, Releasing(l)))
  {
    hide Leads, Begins;
    var t := g.s.board.tasks[l.taskId];
    Begun(cfg, true, g, i, Reporting(l, r));
    RunsOn(cfg, true, g, i, g.s, Reporting(l, r), g.s, Checking(l, r, t));
    RunsOn(cfg, true, g, i, g.s, Checking(l, r, t), g.s, Releasing(l));
  }

  /**
   A task fails, is triggered and leased again, and only then does the first
   worker release its lease; the second one's result comes to nothing.
   */
  lemma ReleaseUnbinds(cfg: TaskLife.Config, t: Task, r: Report) returns (g: Global, l: Lease, h: Global)
    requires t.id != "" && t.state == Pending && t.retriesLeft > 0
    ensures Leads(cfg, true, Start(2), g) && LeaseUnbound(g.s, l)
    ensures Leads(cfg, true, g, h) && h.s == g.s && h.pcs == [Idle, Releasing(l)]
  {
    hide Leads, Inv, LeaseUnbound;
    var first := Lease("1", t.id, "w", 3, cfg.ttl);
    var g2 := LeasedTask(cfg, t, 2, first);
    InvHas(g2);
    Fails(cfg, g2, 0, first);
    var g3 := Put(g2, 0, FailedOn(g2.s, first, cfg.retryDelay), Releasing(first));
    LeadsKeepsInv(cfg, true, g2, g3);
    LeadsFurther(cfg, true, Start(2), g2, g3);
    g, l := Relets(cfg, g3, first);
    LeadsFurther(cfg, true, Start(2), g3, g);
    UnboundIsRefused(cfg, g, 1, l, r);
    h := Put(g, 1, g.s, Releasing(l));
  }

  /** A ready task that is in no queue is triggered and leased. */
  lemma TriggersAndLends(cfg: TaskLife.Config, clean: bool, g: Global, i: nat, now: int, l: Lease)
    requires i < |g.pcs| && g.pcs[i].Idle? && StoreOk(g.s) && !g.s.renewing && Inv(g)
    requires IsReady(g.s, l.taskId) && g.s.board.ready == map[] && l.id !in g.s.granted
    requires l == Lease(l.id, l.taskId, l.workerId, g.s.board.tasks[l.taskId].version + 1, now + cfg.ttl)
    ensures Leads(cfg, clean, g, Global(Granted(LeasedOut(g.s, l.taskId, map[]), l), g.pcs))
  {
    hide Leads, Inv, Becomes, Rests, StoreOk;
    var id := l.taskId;
    var g1 := Global(g.s.(board := g.s.board.(ready := map[id := Item(id, g.s.board.tasks[id].priority, now)])), g.pcs);
    TriggerBecomes(cfg, g.s, now, id);
    assert g.s.(board := Triggered(g.s.board, id, now)) == g1.s;
    CallsTo(cfg, clean, g, i, Triggering(now, id), g1.s);
    SameTasks(g.s, g1.s);
    Lends(cfg, g1.s, now, l);
    var g2 := Global(Granted(LeasedOut(g.s, id, map[]), l), g.pcs);
    assert LeasedOut(g1.s, id, map[]) == LeasedOut(g.s, id, map[]);
    Calls(cfg, clean, g1, i, Popping(now), g2.s);
    LeadsFurther(cfg, clean, g, g1, g2);
  }

  /** Releasing the first lease takes away the task's binding to the second. */
  lemma ReleaseTakesBinding(s: Shared, first: Lease, l: Lease)
    requires s.lm == WithLease(LeaseMaps(map["1" := first], map[first.taskId := "1"]), l)
    requires first.id == "1" && l.id == "2" && l.taskId == first.taskId && Holds(s.board.tasks, l)
    ensures LeaseUnbound(s.(lm := Released(s.lm, "1")), l)
  {
  }

  lemma Relets(cfg: TaskLife.Config, g3: Global, first: Lease) returns (g: Global, l: Lease)
    requires Inv(g3) && g3.pcs == [Releasing(first), Idle] && !g3.s.renewing
    requires IsReady(g3.s, first.taskId) && g3.s.board.ready == map[] && g3.s.granted.Keys == {"1"}
    requires g3.s.lm == LeaseMaps(map["1" := first], map[first.taskId := "1"]) && first.id == "1"
    ensures Leads(cfg, true, g3, g) && LeaseUnbound(g.s, l)
    ensures g.pcs == [Idle, Idle] && !g.s.renewing && forall r :: Begins(g.s, Reporting(l, r))
  {
    hide Leads, Inv, StoreOk, LeaseUnbound, WithLease, Released;
    InvHas(g3);
    l := Lease("2", first.taskId, "w", g3.s.board.tasks[first.taskId].version + 1, cfg.ttl);
    TriggersAndLends(cfg, true, g3, 1, 0, l);
    var g5 := Global(Granted(LeasedOut(g3.s, first.taskId, map[]), l), g3.pcs);
    ReleaseTakesBinding(g5.s, first, l);
    g := Put(g5, 0, g5.s.(lm := Released(g5.s.lm, "1")), Idle);
    LeadsByStep(cfg, true, g5, 0, g);
    LeadsFurther(cfg, true, g3, g5, g);
  }

  // ---------- a cron update that brings back a discarded task ----------

  /** An update reads the task and is about to save it. */
  lemma Reads(cfg: TaskLife.Config, g: Global, i: nat, id: string, cron: string)
    requires i < |g.pcs| && g.pcs[i].Idle? && CronParse.Compiled(cron).Some?
    requires id in g.s.board.tasks && g.s.board.tasks[id].trigger.kind == "cron"
    ensures Leads(cfg, true, g, Put(g, i, g.s, Saving(Protocol.Rewritten(g.s.board.tasks[id], cron, 0))))
  {
    hide Leads, CronParse.Compiled, Protocol.Rewritten;
    Begun(cfg, true, g, i, Editing(id, cron, 0));
    RunsOn(cfg, true, g, i, g.s, Editing(id, cron, 0), g.s, Saving(Protocol.Rewritten(g.s.board.tasks[id], cron, 0)));
  }

  /** A batch takes back a task that it has registered. */
  lemma Discards(cfg: TaskLife.Config, g: Global, i: nat, id: string)
    requires i < |g.pcs| && g.pcs[i].Idle?
    ensures Leads(cfg, true, g, Global(Discarded(g.s, id), g.pcs))
  {
    hide Leads, Discarded;
    Begun(cfg, true, g, i, Discarding(id));
    RunsOn(cfg, true, g, i, g.s, Discarding(id), Discarded(g.s, id), Idle);
    assert Put(g, i, Discarded(g.s, id), Idle) == Global(Discarded(g.s, id), g.pcs);
  }

  /** The only task and its name are gone. */
  function Emptied(s: Shared): Shared {
    With(s, map[]).(names := map[])
  }

  lemma DiscardEmpties(s: Shared, t: Task)
    requires s.board.tasks.Keys == {t.id} && s.board.tasks[t.id].name == t.name && s.names == map[t.name := t.id]
    ensures Discarded(s, t.id) == Emptied(s)
  {
    assert s.board.tasks - {t.id} == map[] && s.names - {t.name} == map[];
  }

  /** A worker pops the entry of a task that is gone. */
  lemma DropsStale(cfg: TaskLife.Config, g: Global, i: nat, id: string)
    requires i < |g.pcs| && g.pcs[i].Idle? && Inv(g) && g.s.board.ready.Keys == {id} && id !in g.s.board.tasks
    ensures Leads(cfg, true, g, Global(Left(g.s, map[]), g.pcs))
  {
    hide Leads, Rests, Inv;
    var c := g.s.board.ready;
    assert c - {id} == map[] && Left(g.s, c) == g.s;
    RestsMissing(cfg, g.s, 0, id, map[]);
    PopsOne(cfg, g.s, 0, c, id, Left(g.s, map[]));
    Calls(cfg, true, g, i, Popping(0), Left(g.s, map[]));
  }

  /** An update puts a discarded task back. */
  lemma Revives(cfg: TaskLife.Config, g: Global, i: nat, t: Task) returns (g1: Global)
    requires i < |g.pcs| && g.pcs[i] == Saving(t) && t.id !in g.s.board.tasks && Accepted(g.s, t)
    ensures Step(cfg, g, i, g1) && StepResurrects(g, i, g1) && g1 == Put(g, i, Stored(g.s, t), Tracking(t))
    ensures Step(cfg, g1, i, Put(g, i, SavedOn(g.s, t), Idle))
  {
    hide Accepted, Stored;
    g1 := Put(g, i, Stored(g.s, t), Tracking(t));
    assert g1.pcs[i := Idle] == g.pcs[i := Idle];
  }

  /** The update's copy of a task that has been registered and triggered. */
  ghost function CopyOf(was: Task, cron: string): Task {
    Protocol.Rewritten(was.(state := Ready, version := 2), cron, 0)
  }

  /** A cron task, registered by thread 0, triggered by thread 1 and read by an update of thread 2. */
  lemma ReadTask(cfg: TaskLife.Config, was: Task, cron: string) returns (g: Global)
    requires CronParse.Compiled(cron).Some? && was.id != "" && was.state == Pending && was.trigger.kind == "cron"
    ensures Leads(cfg, true, Start(3), g) && Inv(g)
        && g == Global(QueuedState(was), [Idle, Idle, Saving(CopyOf(was, cron))])
  {
    hide Leads, Inv, CronParse.Compiled, Protocol.Rewritten, QueuedState;
    var g0 := QueuedTask(cfg, was, 3);
    QueuedHas(was);
    Reads(cfg, g0, 2, was.id, cron);
    g := Put(g0, 2, g0.s, Saving(CopyOf(was, cron)));
    LeadsFurther(cfg, true, Start(3), g0, g);
    LeadsKeepsInv(cfg, true, g0, g);
  }

  lemma RewrittenKeeps(t: Task, cron: string, now: int)
    ensures var u := Protocol.Rewritten(t, cron, now);
      u == t.(trigger := t.trigger.(cron := cron), nextRunAt := u.nextRunAt)
  {
  }

  /** The task is ready, no queue has it, and no call is under way. */
  predicate Orphaned(g: Global, id: string) {
    IsReady(g.s, id) && !Queued(g.s, id) && forall i :: 0 <= i < |g.pcs| ==> g.pcs[i].Idle?
  }

  /** The task's batch takes it back, and a worker drops its entry. */
  lemma Vanishes(cfg: TaskLife.Config, g: Global, t: Task)
    requires |g.pcs| == 3 && g.pcs[0].Idle? && g.pcs[1].Idle? && Inv(g)
    requires g.s.board.tasks.Keys == {t.id} == g.s.board.ready.Keys
    requires g.s.board.tasks[t.id].name == t.name && g.s.names == map[t.name := t.id]
    ensures Leads(cfg, true, g, Global(Left(Emptied(g.s), map[]), g.pcs))
  {
    hide Leads, Inv, Discarded;
    Discards(cfg, g, 0, t.id);
    DiscardEmpties(g.s, t);
    var h := Global(Emptied(g.s), g.pcs);
    LeadsKeepsInv(cfg, true, g, h);
    DropsStale(cfg, h, 1, t.id);
    LeadsFurther(cfg, true, g, h, Global(Left(h.s, map[]), h.pcs));
  }

  /** The task's batch takes it back while the update holds its copy: a ready task that nothing will ever run. */
  lemma ResurrectionOrphans(cfg: TaskLife.Config, was: Task, cron: string) returns (g: Global, g1: Global, g2: Global)
    requires CronParse.Compiled(cron).Some? && was.id != "" && was.state == Pending && was.trigger.kind == "cron"
    ensures Leads(cfg, true, Start(3), g) && Step(cfg, g, 2, g1) && Puts(g, 2, g1, was.id)
    ensures Step(cfg, g1, 2, g2) && Orphaned(g2, was.id)
  {
    hide Leads, Inv, CronParse.Compiled, Step, StepResurrects, QueuedState, CopyOf, Accepted, Stored;
    CopyKeeps(was, cron);
    QueuedHas(was);
    var t := CopyOf(was, cron);
    var g0 := ReadTask(cfg, was, cron);
    Vanishes(cfg, g0, was);
    g := Global(Left(Emptied(g0.s), map[]), g0.pcs);
    LeadsFurther(cfg, true, Start(3), g0, g);
    EmptyAccepts(g.s, t);
    g1 := Revives(cfg, g, 2, t);
    g2 := Put(g, 2, SavedOn(g.s, t), Idle);
    EmptyTakes(g.s, t);
  }

  lemma EmptyAccepts(s: Shared, t: Task)
    requires s.board.tasks == map[] && s.names == map[] && t.id != ""
    ensures Accepted(s, t)
  {
  }

  lemma EmptyTakes(s: Shared, t: Task)
    requires s.board.tasks == map[] && s.names == map[]
    ensures var s' := SavedOn(s, t);
      && s'.board == s.board.(tasks := map[t.id := t.(version := 1)], nextFire := s.board.nextFire[t.id := t.nextRunAt])
      && s' == s.(board := s'.board, names := map[t.name := t.id])
      && Stored(s, t) == s'.(board := s'.board.(nextFire := s.board.nextFire))
  {
  }

  lemma CopyKeeps(was: Task, cron: string)
    ensures var t := CopyOf(was, cron);
      && t.id == was.id && t.name == was.name && t.state == Ready && t.version == 2 && t.retriesLeft == was.retriesLeft
      && t.trigger.kind == was.trigger.kind
      && t.maxRetries == was.maxRetries
  {
    hide CronParse.Compiled;
    RewrittenKeeps(was.(state := Ready, version := 2), cron, 0);
  }

  lemma QueuedHas(t: Task)
    ensures var s := QueuedState(t);
      && s.board.tasks.Keys == {t.id} == s.board.ready.Keys && s.board.delayed == map[] && IsReady(s, t.id)
      && s.board.tasks[t.id] == t.(state := Ready, version := 2) && s.lm == LeaseMaps(map[], map[])
      && s.granted == map[] && !s.renewing && s.drawn == {t.id} && s.names == map[t.name := t.id]
      && s.records == map[] && s.counters == Counters(0, 0, 0, 0)
  {
  }

  // ---------- such an update of a task that has been leased ----------

  /** A task that was leased has been brought back: the first lease is recorded, and the task is at version 1. */
  predicate BroughtBack(s: Shared, t: Task, first: Lease) {
    && s.board.tasks == map[t.id := t.(version := 1)] && s.board.ready == map[] && s.board.delayed == map[]
    && s.drawn == {t.id} && s.names == map[t.name := t.id]
    && first.id == "1" && first.taskId == t.id && first.taskVersion == 3
    && s.lm == LeaseMaps(map["1" := first], map[t.id := "1"]) && s.granted == map["1" := first] && !s.renewing
  }

  lemma LeasedThenRead(cfg: TaskLife.Config, was: Task, cron: string, first: Lease) returns (g: Global)
    requires CronParse.Compiled(cron).Some? && was.id != "" && was.state == Pending && was.trigger.kind == "cron"
    requires first == Lease("1", was.id, "w", 3, cfg.ttl)
    ensures Leads(cfg, true, Start(3), g) && Inv(g) && g.pcs == [Idle, Idle, Saving(CopyOf(was, cron))]
    ensures var s := QueuedState(was); g.s == Granted(LeasedOut(s, was.id, map[]), first)
  {
    hide Leads, Inv, CronParse.Compiled, QueuedState, CopyOf, Rests, LeasedOut, Granted;
    var g0 := ReadTask(cfg, was, cron);
    QueuedHas(was);
    InvHas(g0);
    Lends(cfg, g0.s, 0, first);
    g := Global(Granted(LeasedOut(g0.s, was.id, map[]), first), g0.pcs);
    Calls(cfg, true, g0, 1, Popping(0), g.s);
    LeadsFurther(cfg, true, Start(3), g0, g);
  }

  /** The leased task is discarded while the update holds its copy from before. */
  lemma LeasedThenGone(cfg: TaskLife.Config, was: Task, cron: string, first: Lease) returns (g: Global)
    requires CronParse.Compiled(cron).Some? && was.id != "" && was.state == Pending && was.trigger.kind == "cron"
    requires first == Lease("1", was.id, "w", 3, cfg.ttl)
    ensures Leads(cfg, true, Start(3), g) && Inv(g) && g.pcs == [Idle, Idle, Saving(CopyOf(was, cron))]
    ensures var s := QueuedState(was); g.s == Emptied(Granted(LeasedOut(s, was.id, map[]), first))
  {
    hide Leads, Inv, CronParse.Compiled, CopyOf, Discarded;
    var g0 := LeasedThenRead(cfg, was, cron, first);
    Discards(cfg, g0, 0, was.id);
    DiscardEmpties(g0.s, was);
    g := Global(Emptied(g0.s), g0.pcs);
    LeadsFurther(cfg, true, Start(3), g0, g);
    LeadsKeepsInv(cfg, true, g0, g);
  }

  lemma LeasedThenRevived(cfg: TaskLife.Config, was: Task, cron: string, first: Lease)
      returns (g: Global, g1: Global, g2: Global)
    requires CronParse.Compiled(cron).Some? && was.id != "" && was.state == Pending && was.trigger.kind == "cron"
    requires first == Lease("1", was.id, "w", 3, cfg.ttl)
    ensures Leads(cfg, true, Start(3), g) && Step(cfg, g, 2, g1) && StepUnfences(g, 2, g1, was.id)
        && Step(cfg, g1, 2, g2)
    ensures g2.pcs == [Idle, Idle, Idle] && BroughtBack(g2.s, CopyOf(was, cron), first)
    ensures Inv(g2)
  {
    hide Leads, Inv, CronParse.Compiled, CopyOf, Step, StepResurrects, Accepted, SavedOn, Stored;
    var t := CopyOf(was, cron);
    g := LeasedThenGone(cfg, was, cron, first);
    CopyKeeps(was, cron);
    EmptyAccepts(g.s, t);
    EmptyTakes(g.s, t);
    g1 := Revives(cfg, g, 2, t);
    g2 := Put(g, 2, SavedOn(g.s, t), Idle);
    assert "1" in g.s.granted && g.s.granted["1"].taskId == t.id;
    LeadsByStep(cfg, false, g, 2, g1);
    LeadsByStep(cfg, false, g1, 2, g2);
    LeadsFurther(cfg, false, g, g1, g2);
    LeadsKeepsInv(cfg, false, g, g2);
  }

  lemma RollsBackToLease(cfg: TaskLife.Config, g: Global, t: Task, first: Lease) returns (h: Global)
    requires g.pcs == [Idle, Idle, Idle] && Inv(g) && BroughtBack(g.s, t, first) && t.state == Ready
        && t.retriesLeft > 0
    ensures Leads(cfg, false, g, h) && Inv(h) && h.pcs == g.pcs && !h.s.renewing
    ensures Passes(h.s, first) && IsReady(h.s, t.id) && RetriesLeft(h, t.id) == t.retriesLeft
  {
    hide Leads, Becomes, Rests, Inv;
    InvHas(g);
    var s1 := g.s.(board := g.s.board.(ready := map[t.id := Item(t.id, t.priority, 0)]));
    TriggerBecomes(cfg, g.s, 0, t.id);
    assert g.s.(board := Triggered(g.s.board, t.id, 0)) == s1;
    CallsTo(cfg, false, g, 1, Triggering(0, t.id), s1);
    SameTasks(g.s, s1);
    RollsBackOnly(cfg, s1, 0, t.id);
    h := Global(PutBackOn(s1, t.id, map[], 0), g.pcs);
    Calls(cfg, false, Global(s1, g.pcs), 1, Popping(0), h.s);
    LeadsFurther(cfg, false, g, Global(s1, g.pcs), h);
  }

  /**
   After a failed pick the task is ready at the version of a lease that was
   granted before it was discarded; a failure reported for that lease passes the
   check, and its retry commits from ready.
   */
  lemma ReadyIsRetried(cfg: TaskLife.Config, was: Task, cron: string)
      returns (g: Global, g1: Global, h: Global, k: Global, k1: Global, l: Lease)
    requires CronParse.Compiled(cron).Some? && was.id != "" && was.state == Pending && was.trigger.kind == "cron"
        && was.retriesLeft > 0
    ensures Leads(cfg, true, Start(3), g) && Step(cfg, g, 2, g1) && StepUnfences(g, 2, g1, was.id)
        && Leads(cfg, false, g1, h)
    ensures IsReady(h.s, was.id) && forall i :: 0 <= i < |h.pcs| ==> h.pcs[i].Idle?
    ensures Leads(cfg, true, h, k) && IsReady(k.s, was.id) && |k.pcs| > 0 && Commits(k.s, k.pcs[0], l.id)
    ensures Leads(cfg, true, h, k1) && RetriesLeft(k1, was.id) == RetriesLeft(h, was.id) - 1
  {
    hide Leads, Inv, CronParse.Compiled, CopyOf, Step, StepUnfences, BroughtBack, Commits, CurrentLease, Written,
      KeepEarlier;
    l := Lease("1", was.id, "w", 3, cfg.ttl);
    CopyKeeps(was, cron);
    var g2: Global;
    g, g1, g2 := LeasedThenRevived(cfg, was, cron, l);
    LeadsByStep(cfg, false, g1, 2, g2);
    h := RollsBackToLease(cfg, g2, CopyOf(was, cron), l);
    LeadsFurther(cfg, false, g1, g2, h);
    InvHas(h);
    Fails(cfg, h, 0, l);
    Reports(cfg, h, 0, l, FAILURE);
    WrittenKeeps(h.s, l, FAILURE);
    k := Put(h, 0, Written(h.s, l, FAILURE), Applying(l, FAILURE, h.s.board.tasks[was.id]));
    CommitsLooks(h.s, k.s, k.pcs[0], l.id);
    k1 := Put(h, 0, FailedOn(h.s, l, cfg.retryDelay), Releasing(l));
  }

  lemma CommitsLooks(s: Shared, s': Shared, pc: Pc, leaseId: string)
    requires Commits(s, pc, leaseId) && s'.board == s.board
    ensures Commits(s', pc, leaseId)
  {
  }

  lemma Updates(cfg: TaskLife.Config, s: Shared, id: string, cron: string)
    requires IsReady(s, id) && id != "" && s.board.tasks[id].trigger.kind == "cron" && s.board.tasks[id].id == id
    requires CronParse.Compiled(cron).Some? && s.names == map[s.board.tasks[id].name := id]
    ensures var t := Protocol.Rewritten(s.board.tasks[id], cron, 0);
      Becomes(cfg, s, Editing(id, cron, 0), SavedOn(s, t), Idle)
  {
    hide Becomes, Protocol.Rewritten, CronParse.Compiled, SavedOn;
    RewrittenKeeps(s.board.tasks[id], cron, 0);
    UpdateBecomes(cfg, s, id, cron, 0);
  }

  /** Two recorded leases hold the task at the same version. */
  predicate HeldTwice(s: Shared, l: Lease, m: Lease) {
    && l.id != m.id && TokenOf(l) == TokenOf(m) && Holds(s.board.tasks, l)
    && l.id in s.lm.leases && s.lm.leases[l.id] == l && m.id in s.lm.leases && s.lm.leases[m.id] == m
  }

  /** When one of them expires, the other's task is taken away. */
  lemma ReapTakesBoth(ts: Tasks, s: Shared, l: Lease, m: Lease, now: int)
    requires HeldTwice(s, l, m) && Expired(l, now)
        && ts == ReadyAgain(s.board.tasks, Reapable(s.board.tasks, s.lm, now))
    ensures m.taskId in ts && ts[m.taskId].state == Ready && !Holds(ts, m)
  {
    assert l.id in Late(s.lm, now);
  }

  lemma UpdatesAndLends(cfg: TaskLife.Config, g: Global, t: Task, first: Lease, cron: string, m: Lease)
      returns (h: Global)
    requires g.pcs == [Idle, Idle, Idle] && Inv(g) && BroughtBack(g.s, t, first) && t.state == Ready && t.id != ""
        && t.trigger.kind == "cron"
    requires CronParse.Compiled(cron).Some? && m == Lease("2", t.id, "w", 3, 1 + cfg.ttl)
    ensures Leads(cfg, false, g, h) && HeldTwice(h.s, first, m) && h.pcs == g.pcs && Inv(h) && !h.s.renewing
  {
    hide Leads, Becomes, Inv, CronParse.Compiled, Protocol.Rewritten;
    var u := Protocol.Rewritten(g.s.board.tasks[t.id], cron, 0);
    RewrittenKeeps(g.s.board.tasks[t.id], cron, 0);
    Updates(cfg, g.s, t.id, cron);
    var g1 := Global(SavedOn(g.s, u), g.pcs);
    CallsTo(cfg, false, g, 1, Editing(t.id, cron, 0), g1.s);
    InvHas(g1);
    TriggersAndLends(cfg, false, g1, 1, 1, m);
    h := Global(Granted(LeasedOut(g1.s, t.id, map[]), m), g.pcs);
    LeadsFurther(cfg, false, g, g1, h);
    LeadsKeepsInv(cfg, false, g, h);
  }

  /** The task of an unexpired lease is given back to the queue because an older lease has expired. */
  predicate TakenEarly(s: Shared, m: Lease, now: int) {
    && m.id in s.lm.leases && s.lm.leases[m.id] == m && !Expired(m, now) && IsReady(s, m.taskId)
  }

  lemma Reaps(cfg: TaskLife.Config, g: Global, l: Lease, m: Lease, now: int) returns (h: Global)
    requires |g.pcs| == 3 && g.pcs[1].Idle? && Inv(g) && !g.s.renewing && HeldTwice(g.s, l, m) && Expired(l, now)
        && !Expired(m, now)
    ensures Leads(cfg, false, g, h) && TakenEarly(h.s, m, now)
  {
    hide Leads, Becomes, Inv, StoreOk, Reapable, ReadyAgain, Enqueued, HeldTwice;
    InvHas(g);
    ReapBecomes(cfg, g.s, now);
    var ids := Reapable(g.s.board.tasks, g.s.lm, now);
    h := Global(ReapedOn(g.s.(lm := Unexpired(g.s.lm, now)), ids, now), g.pcs);
    CallsTo(cfg, false, g, 1, Reaping(now), h.s);
    ReapTakesBoth(h.s.board.tasks, g.s, l, m, now);
    StillRecorded(g.s, l, m, now);
  }

  lemma StillRecorded(s: Shared, l: Lease, m: Lease, now: int)
    requires HeldTwice(s, l, m) && !Expired(m, now)
    ensures m.id in Unexpired(s.lm, now).leases && Unexpired(s.lm, now).leases[m.id] == m
  {
  }

  /** The task is leased again at the version of the old lease; the old lease's expiry takes it from the new one. */
  lemma FenceBreaks(cfg: TaskLife.Config, was: Task, cron: string)
    returns (g: Global, g1: Global, h: Global, k: Global, l: Lease, m: Lease)
    requires CronParse.Compiled(cron).Some? && was.id != "" && was.state == Pending && was.trigger.kind == "cron"
    ensures Leads(cfg, true, Start(3), g) && Step(cfg, g, 2, g1) && StepUnfences(g, 2, g1, was.id)
    ensures Leads(cfg, false, g1, h) && HeldTwice(h.s, l, m)
    ensures Leads(cfg, false, h, k) && TakenEarly(k.s, m, cfg.ttl + 1)
  {
    hide Leads, CronParse.Compiled, CopyOf, Step, StepUnfences, BroughtBack, HeldTwice, TakenEarly, Inv;
    l, m := Lease("1", was.id, "w", 3, cfg.ttl), Lease("2", was.id, "w", 3, 1 + cfg.ttl);
    CopyKeeps(was, cron);
    var g2: Global;
    g, g1, g2 := LeasedThenRevived(cfg, was, cron, l);
    LeadsByStep(cfg, false, g1, 2, g2);
    h := UpdatesAndLends(cfg, g2, CopyOf(was, cron), l, cron, m);
    LeadsFurther(cfg, false, g1, g2, h);
    k := Reaps(cfg, h, l, m, cfg.ttl + 1);
  }

  // ---------- a cron update that hands out a retry again ----------

  /** The update read the task before its failure was recorded, and writes back the retries of then. */
  lemma RetryRefunded(cfg: TaskLife.Config, was: Task, cron: string) returns (g: Global, h: Global, h': Global)
    requires CronParse.Compiled(cron).Some? && was.id != "" && was.state == Pending && was.trigger.kind == "cron"
    requires was.retriesLeft > 0
    ensures Leads(cfg, true, Start(3), g) && RetriesLeft(g, was.id) == was.retriesLeft
    ensures Leads(cfg, true, g, h) && RetriesLeft(h, was.id) == was.retriesLeft - 1
    ensures Step(cfg, h, 2, h') && RetriesLeft(h', was.id) == was.retriesLeft && StepRefund(h, 2, h', was.id) == 1
  {
    hide Leads, Inv, CronParse.Compiled, CopyOf;
    var l := Lease("1", was.id, "w", 3, cfg.ttl);
    CopyKeeps(was, cron);
    g := LeasedThenRead(cfg, was, cron, l);
    InvHas(g);
    Fails(cfg, g, 0, l);
    h := Put(g, 0, FailedOn(g.s, l, cfg.retryDelay), Releasing(l));
    h' := SavesOver(cfg, h, CopyOf(was, cron));
  }

  lemma SavesOver(cfg: TaskLife.Config, h: Global, t: Task) returns (h': Global)
    requires |h.pcs| == 3 && h.pcs[2] == Saving(t) && t.id in h.s.board.tasks && Accepted(h.s, t)
    ensures Step(cfg, h, 2, h') && RetriesLeft(h', t.id) == t.retriesLeft
    ensures StepRefund(h, 2, h', t.id) == t.retriesLeft - h.s.board.tasks[t.id].retriesLeft
  {
    hide Accepted, SavedNames;
    h' := Put(h, 2, Stored(h.s, t), Tracking(t));
  }

  // ---------- a cancel under way takes the entry of a task that has been brought back ----------

  /** A cancel has canceled the task and is about to clear the queues. */
  lemma CancelsMidway(cfg: TaskLife.Config, g: Global, i: nat, id: string)
    requires i < |g.pcs| && g.pcs[i].Idle? && StoreOk(g.s) && IsReady(g.s, id)
    ensures Leads(cfg, true, g,
        Put(g, i, With(g.s, g.s.board.tasks[id := Moved(g.s.board.tasks[id], Canceled)]), Unqueueing(id)))
  {
    hide Leads;
    var t := g.s.board.tasks[id];
    Begun(cfg, true, g, i, Canceling(id));
    RunsOn(cfg, true, g, i, g.s, Canceling(id), g.s, Stopping(t));
    RunsOn(cfg, true, g, i, g.s, Stopping(t), With(g.s, g.s.board.tasks[id := Moved(t, Canceled)]), Unqueueing(id));
  }

  /** Its other three sections. */
  lemma ClearsQueues(cfg: TaskLife.Config, g: Global, i: nat, id: string) returns (h: Global)
    requires i < |g.pcs| && g.pcs[i] == Unqueueing(id)
    ensures Leads(cfg, true, g, h) && h.pcs == g.pcs[i := Idle] && h.s.board.tasks == g.s.board.tasks
        && !Queued(h.s, id)
  {
    hide Leads;
    var b := g.s.board;
    var s1 := g.s.(board := b.(ready := b.ready - {id}));
    var s2 := s1.(board := s1.board.(delayed := b.delayed - {id}));
    var s3 := s2.(board := s2.board.(nextFire := b.nextFire - {id}));
    LeadsNowhere(cfg, true, g);
    assert Put(g, i, g.s, Unqueueing(id)) == g;
    RunsOn(cfg, true, g, i, g.s, Unqueueing(id), s1, Undelaying(id));
    RunsOn(cfg, true, g, i, s1, Undelaying(id), s2, Untracking(id));
    RunsOn(cfg, true, g, i, s2, Untracking(id), s3, Idle);
    h := Put(g, i, s3, Idle);
  }

  /**
   The update's save loses nothing, for the entry of the canceled task is still
   queued; then the cancel removes it.
   */
  lemma CancelOrphans(cfg: TaskLife.Config, was: Task, cron: string)
      returns (g: Global, g1: Global, g2: Global, h: Global)
    requires CronParse.Compiled(cron).Some? && was.id != "" && was.state == Pending && was.trigger.kind == "cron"
    ensures Leads(cfg, true, Start(3), g) && Step(cfg, g, 2, g1) && StepResurrects(g, 2, g1)
        && (forall id :: NotLost(g1, id))
    ensures Step(cfg, g1, 2, g2) && Strips(g2, 1, was.id) && Leads(cfg, true, g2, h) && Orphaned(h, was.id)
  {
    hide Leads, Inv, CronParse.Compiled, Step, QueuedState, CopyOf, Accepted, Stored, SavedOn, Discarded;
    var t, id := CopyOf(was, cron), was.id;
    CopyKeeps(was, cron);
    g := CanceledThenGone(cfg, was, cron);
    EmptyAccepts(g.s, t);
    EmptyTakes(g.s, t);
    g1 := Revives(cfg, g, 2, t);
    g2 := Put(g, 2, SavedOn(g.s, t), Idle);
    h := ClearsQueues(cfg, g2, 1, id);
  }

  lemma CanceledThenGone(cfg: TaskLife.Config, was: Task, cron: string) returns (g: Global)
    requires CronParse.Compiled(cron).Some? && was.id != "" && was.state == Pending && was.trigger.kind == "cron"
    ensures Leads(cfg, true, Start(3), g) && g.pcs == [Idle, Unqueueing(was.id), Saving(CopyOf(was, cron))]
    ensures g.s.board.tasks == map[] && g.s.names == map[] && g.s.board.delayed == map[]
    ensures g.s.board.ready.Keys == {was.id}
  {
    hide Leads, Inv, CronParse.Compiled, QueuedState, CopyOf, Discarded;
    var g0 := ReadTask(cfg, was, cron);
    QueuedHas(was);
    InvHas(g0);
    CancelsMidway(cfg, g0, 1, was.id);
    var t := g0.s.board.tasks[was.id];
    var g1 := Put(g0, 1, With(g0.s, g0.s.board.tasks[was.id := Moved(t, Canceled)]), Unqueueing(was.id));
    LeadsFurther(cfg, true, Start(3), g0, g1);
    Discards(cfg, g1, 0, was.id);
    DiscardEmpties(g1.s, was);
    g := Global(Emptied(g1.s), g1.pcs);
    LeadsFurther(cfg, true, Start(3), g1, g);
  }

  // ---------- two reports of one lease that both pass the check ----------

  /** A successful result commits. */
  lemma SuccessCommits(cfg: TaskLife.Config, s: Shared, l: Lease, r: Report)
    requires r.status == SUCCESS && l.taskId in s.board.tasks && s.board.tasks[l.taskId].id == l.taskId
    requires Holds(s.board.tasks, l)
    ensures var t := s.board.tasks[l.taskId];
      Section(cfg, s, Applying(l, r, t), Counting(With(s, s.board.tasks[l.taskId := Moved(t, Succeeded)]), 1, 0),
              Releasing(l))
  {
  }

  /** The same result of a task that has moved on since the check does not. */
  lemma SuccessRefused(cfg: TaskLife.Config, s: Shared, l: Lease, r: Report, t: Task)
    requires r.status == SUCCESS && t.version >= 0 && t.id in s.board.tasks && s.board.tasks[t.id].version != t.version
    ensures Section(cfg, s, Applying(l, r, t), s, Releasing(l))
  {
  }

  lemma ReportsTwice(cfg: TaskLife.Config, g: Global, l: Lease, r: Report)
    requires g.pcs == [Idle, Idle] && StoreOk(g.s) && !g.s.renewing && Passes(g.s, l)
    ensures var (w, pc) := (Written(Written(g.s, l, r), l, r), Applying(l, r, g.s.board.tasks[l.taskId]));
      Leads(cfg, true, g, Global(w, [pc, pc]))
  {
    hide Leads, CurrentLease, StoreOk, Noted;
    var w, pc := Written(g.s, l, r), Applying(l, r, g.s.board.tasks[l.taskId]);
    Reports(cfg, g, 0, l, r);
    var g1 := Put(g, 0, w, pc);
    Reports(cfg, g1, 1, l, r);
    assert Put(g1, 1, Written(w, l, r), pc) == Global(Written(w, l, r), [pc, pc]);
    LeadsFurther(cfg, true, g, g1, Global(Written(w, l, r), [pc, pc]));
  }

  /**
   One of them commits and the other is refused, with its record kept: results recorded, but not executed or failed.
   */
  lemma OverlapRecordsTwice(cfg: TaskLife.Config, t: Task, r: Report) returns (g: Global, l: Lease, h: Global)
    requires t.id != "" && t.state == Pending && t.retriesLeft > 0 && r.status == SUCCESS
    ensures Leads(cfg, true, Start(2), g) && Passes(g.s, l) && l.taskId == t.id && HistoryOf(g.s.records, t.id) == []
    ensures Leads(cfg, true, g, h) && h.pcs == [Idle, Idle] && h.s.counters == Counters(1, 0, 0, 2)
    ensures HistoryOf(h.s.records, t.id) == [RecordOf(l, r), RecordOf(l, r)]
    ensures t.id in h.s.board.tasks && h.s.board.tasks[t.id].state == Succeeded
  {
    hide Leads, Inv, QueuedState, Section;
    l := Lease("1", t.id, "w", 3, cfg.ttl);
    g := LeasedTask(cfg, t, 2, l);
    InvHas(g);
    QueuedHas(t);
    ReportsTwice(cfg, g, l, r);
    var u, w := g.s.board.tasks[t.id], Written(Written(g.s, l, r), l, r);
    var pc := Applying(l, r, u);
    h := AppliesTwice(cfg, Global(w, [pc, pc]), l, r, u);
    LeadsFurther(cfg, true, g, Global(w, [pc, pc]), h);
  }

  lemma AppliesTwice(cfg: TaskLife.Config, g: Global, l: Lease, r: Report, t: Task) returns (h: Global)
    requires g.pcs == [Applying(l, r, t), Applying(l, r, t)] && !g.s.renewing && r.status == SUCCESS
    requires Holds(g.s.board.tasks, l) && g.s.board.tasks[l.taskId] == t && t.id == l.taskId && t.version >= 0
    ensures Leads(cfg, true, g, h) && h.pcs == [Idle, Idle] && h.s.records == g.s.records
    ensures h.s.counters == g.s.counters.(executed := g.s.counters.executed + 1)
    ensures h.s.board.tasks == g.s.board.tasks[l.taskId := Moved(t, Succeeded)]
  {
    hide Leads, Section;
    var s1 := Counting(With(g.s, g.s.board.tasks[l.taskId := Moved(t, Succeeded)]), 1, 0);
    SuccessCommits(cfg, g.s, l, r);
    SuccessRefused(cfg, s1, l, r, t);
    var g1 := Put(g, 0, s1, Releasing(l));
    LeadsByStep(cfg, true, g, 0, g1);
    var g2 := Put(g1, 1, s1, Releasing(l));
    LeadsByStep(cfg, true, g1, 1, g2);
    LeadsFurther(cfg, true, g, g1, g2);
    h := ReleasesTwice(cfg, g2, l);
    LeadsFurther(cfg, true, g, g2, h);
  }

  lemma ReleasesTwice(cfg: TaskLife.Config, g: Global, l: Lease) returns (h: Global)
    requires g.pcs == [Releasing(l), Releasing(l)] && !g.s.renewing
    ensures Leads(cfg, true, g, h) && h.pcs == [Idle, Idle] && h.s == g.s.(lm := h.s.lm)
  {
    hide Leads, Released;
    var g1 := Put(g, 0, g.s.(lm := Released(g.s.lm, l.id)), Idle);
    h := Put(g1, 1, g1.s.(lm := Released(g1.s.lm, l.id)), Idle);
    LeadsByStep(cfg, true, g, 0, g1);
    LeadsByStep(cfg, true, g1, 1, h);
    LeadsFurther(cfg, true, g, g1, h);
  }
}
