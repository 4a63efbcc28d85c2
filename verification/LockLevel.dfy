/**
 What holds of every interleaving, one section at a time. Each section
 guarantees something to the other threads, and what a thread relies on at each
 program point is stable under that guarantee.
 */
module LockLevel {
  import opened Model
  import opened Queues
  import opened Store
  import opened Dispatch
  import opened Leasing
  import opened LockSteps
  import opened LockEffects
  import TaskLife

  datatype Global = Global(s: Shared, pcs: seq<Pc>)

  /** Thread i runs one critical section. */
  ghost predicate Step(cfg: TaskLife.Config, g: Global, i: nat, g': Global) {
    && i < |g.pcs| == |g'.pcs| && g'.pcs == g.pcs[i := g'.pcs[i]]
    && Section(cfg, g.s, g.pcs[i], g'.s, g'.pcs[i])
  }

  /** The thread saves a task that has been discarded since it read it, and Save inserts it again. */
  predicate Resurrects(s: Shared, pc: Pc, pc': Pc) {
    pc.Saving? && pc'.Tracking? && pc.t.id !in s.board.tasks
  }

  predicate StepResurrects(g: Global, i: nat, g': Global) {
    i < |g.pcs| && i < |g'.pcs| && Resurrects(g.s, g.pcs[i], g'.pcs[i])
  }

  // ---------- what a section guarantees to the other threads ----------

  /** A task's version never falls, and its state changes only with its version. */
  predicate Onward(t: Task, u: Task) {
    t.version <= u.version && (u.version == t.version ==> u.state == t.state)
  }

  ghost predicate Guarantee(s: Shared, s': Shared) {
    && s.drawn <= s'.drawn
    && (forall k :: k in s.granted ==> k in s'.granted && s'.granted[k] == s.granted[k])
    && (forall id :: id in s.board.tasks && id in s'.board.tasks ==> Onward(s.board.tasks[id], s'.board.tasks[id]))
  }

  // ---------- what holds of the shared state ----------

  predicate IsGranted(s: Shared, l: Lease) {
    l.id in s.granted && s.granted[l.id].taskId == l.taskId && s.granted[l.id].taskVersion == l.taskVersion
  }

  ghost predicate StoreOk(s: Shared) {
    forall id :: id in s.board.tasks ==>
      s.board.tasks[id].id == id && id in s.drawn && s.board.tasks[id].version >= 1
  }

  /** A task is never leased at its first version. */
  predicate Mark(s: Shared, id: string, version: int) {
    id in s.drawn && version >= 2
  }

  ghost predicate LeasesOk(s: Shared) {
    && (forall k :: k in s.granted ==> s.granted[k].id == k && Mark(s, s.granted[k].taskId, s.granted[k].taskVersion))
    && (forall k :: k in s.lm.leases ==> s.lm.leases[k].id == k && IsGranted(s, s.lm.leases[k]))
  }

  // ---------- what a thread relies on ----------

  ghost predicate AllLate(s: Shared, expired: seq<Lease>, now: int) {
    forall i :: 0 <= i < |expired| ==> IsGranted(s, expired[i]) && Expired(expired[i], now)
  }

  ghost predicate Relies(s: Shared, pc: Pc) {
    match pc
    case Picking(_, t) => Mark(s, t.id, t.version)
    case PuttingBack(_, t) => Mark(s, t.id, t.version)
    case Reporting(l, _) => IsGranted(s, l)
    case Checking(l, _, t) => IsGranted(s, l) && t.id == l.taskId
    case Applying(l, _, t) => IsGranted(s, l) && t.id == l.taskId && t.version == l.taskVersion
    case Reclaiming(now, expired) => AllLate(s, expired, now)
    case Retaking(now, l, t, expired) =>
      IsGranted(s, l) && Expired(l, now) && t.version == l.taskVersion && AllLate(s, expired, now)
    case Stopping(t) => t.version >= 1 && !t.state.Terminal()
    case Saving(t) => t.id in s.drawn
    case Comparing(l, _, _) => s.renewing && l.id in s.lm.leases && s.lm.leases[l.id] == l
    case Pushing(_, _, rest) =>
      && (rest.Idle? || rest.Firing? || rest.Advancing? || rest.Promoting? || rest.Reclaiming?)
      && Relies(s, rest)
    case _ => true
  }

  /** The sections of the other threads do not take away what a thread relies on. */
  lemma {:induction false} ReliesIsStable(s: Shared, s': Shared, pc: Pc)
    requires Guarantee(s, s') && Relies(s, pc)
    requires pc.Comparing? ==> s'.renewing && s'.lm == s.lm
    ensures Relies(s', pc)
    decreases pc
  {
    if pc.Pushing? {
      ReliesIsStable(s, s', pc.rest);
    }
  }

  // ---------- each section keeps its part ----------

  /** The same tasks, moved on. */
  ghost predicate TasksQuiet(ts: Tasks, us: Tasks) {
    us.Keys == ts.Keys && forall id :: id in us ==> us[id].id == ts[id].id && Onward(ts[id], us[id])
  }

  lemma SameTasksQuiet(ts: Tasks)
    ensures TasksQuiet(ts, ts)
  {
  }

  lemma TransitionQuiet(ts: Tasks, id: string, from: TaskState, to: TaskState, expected: int)
    ensures TasksQuiet(ts, Transitioned(ts, id, from, to, expected))
  {
  }

  lemma RescheduleQuiet(ts: Tasks, id: string, next: int)
    ensures TasksQuiet(ts, Rescheduled(ts, id, next))
  {
  }

  lemma RetryQuiet(ts: Tasks, id: string, next: int, expected: int)
    ensures TasksQuiet(ts, Retried(ts, id, next, expected))
  {
  }

  /** The sections that save a task or take one out. */
  predicate AddsOrTakes(pc: Pc, pc': Pc) {
    Starts(pc, pc') || (pc.Saving? && pc'.Tracking?) || pc.Discarding?
  }

  lemma StoreQuiet(cfg: TaskLife.Config, ts: Tasks, pc: Pc, pc': Pc)
    requires !AddsOrTakes(pc, pc')
    ensures TasksQuiet(ts, TasksAfter(cfg, ts, pc, pc'))
  {
    hide TasksQuiet, Transitioned, Retried, Rescheduled, WouldRetry;
    SameTasksQuiet(ts);
    match pc
    case Popped(_, id) => TransitionQuiet(ts, id, Ready, Leased, -1);
    case PuttingBack(_, t) => TransitionQuiet(ts, t.id, Leased, Ready, t.version);
    case Applying(_, r, t) =>
      RetryQuiet(ts, t.id, r.finishedAt + cfg.retryDelay, t.version);
      TransitionQuiet(ts, t.id, Leased, Ending(r), t.version);
    case Retaking(_, l, t, _) => TransitionQuiet(ts, l.taskId, Leased, Ready, t.version);
    case Marking(_, id, _) => TransitionQuiet(ts, id, Pending, Ready, -1);
    case Advancing(_, id, next, _) => RescheduleQuiet(ts, id, next);
    case Prodding(_, t) => TransitionQuiet(ts, t.id, Pending, Ready, -1);
    case Stopping(t) => TransitionQuiet(ts, t.id, t.state, Canceled, t.version);
    case _ =>
  }

  /** A stored task is stored under its id, at a version that has moved on; a saved one was drawn before. */
  ghost predicate StoreMoves(s: Shared, s': Shared) {
    && s.drawn <= s'.drawn
    && (forall id :: id in s'.board.tasks ==>
          && s'.board.tasks[id].id == id && id in s'.drawn && s'.board.tasks[id].version >= 1
          && (id in s.board.tasks ==> Onward(s.board.tasks[id], s'.board.tasks[id])))
  }

  lemma QuietMoves(s: Shared, s': Shared)
    requires StoreOk(s) && TasksQuiet(s.board.tasks, s'.board.tasks) && s'.drawn == s.drawn
    ensures StoreMoves(s, s')
  {
  }

  lemma SaveMoves(s: Shared, s': Shared, t: Task)
    requires StoreOk(s) && s'.board.tasks == Saved(s.board.tasks, t) && t.id in s'.drawn && s.drawn <= s'.drawn
    ensures StoreMoves(s, s')
  {
  }

  lemma DiscardMoves(s: Shared, s': Shared, id: string)
    requires StoreOk(s) && s'.board.tasks == s.board.tasks - {id} && s'.drawn == s.drawn
    ensures StoreMoves(s, s')
  {
  }

  lemma StoreKept(cfg: TaskLife.Config, s: Shared, pc: Pc, s': Shared, pc': Pc)
    requires StoreOk(s) && Relies(s, pc) && Effect(cfg, s, pc, s', pc')
    ensures StoreMoves(s, s')
  {
    hide StoreOk, StoreMoves, TasksQuiet, Saved;
    if !AddsOrTakes(pc, pc') {
      StoreQuiet(cfg, s.board.tasks, pc, pc');
      QuietMoves(s, s');
    } else if pc.Discarding? {
      DiscardMoves(s, s', pc.id);
    } else {
      SaveMoves(s, s', if pc.Saving? then pc.t else pc'.t);
    }
  }

  /** Nothing is granted, and no lease is recorded anew. */
  ghost predicate LeasesFall(s: Shared, s': Shared) {
    && s'.granted == s.granted
    && (forall k :: k in s'.lm.leases ==>
          k in s.lm.leases && s'.lm.leases[k].(deadline := s.lm.leases[k].deadline) == s.lm.leases[k])
  }

  /** The thread hands the version that it has leased to a new lease. */
  ghost predicate Grants(s: Shared, pc: Pc, s': Shared, l: Lease) {
    pc.Picking? && s' == Granted(s, l) && l.id !in s.granted && l.taskId == pc.t.id && l.taskVersion == pc.t.version
  }

  lemma PickingGrants(cfg: TaskLife.Config, s: Shared, pc: Pc, s': Shared, pc': Pc)
    requires pc.Picking? && Section(cfg, s, pc, s', pc')
    ensures s' == s || exists l :: Grants(s, pc, s', l)
    ensures Hands(pc, pc') <==> s' != s
  {
    hide WithLease;
    if s' != s {
      var l :| && s' == Granted(s, l) && l.id !in s.granted
               && l == Lease(l.id, pc.t.id, l.workerId, pc.t.version, pc.now + cfg.ttl);
      assert Grants(s, pc, s', l);
    }
    if Hands(pc, pc') {
      var l :| s' == Granted(s, l) && l.id !in s.granted;
      assert l.id in s'.granted;
    }
  }

  lemma MapsFall(cfg: TaskLife.Config, s: Shared, pc: Pc, s': Shared, pc': Pc)
    requires TouchesMaps(pc) && !pc.Picking? && Relies(s, pc) && Section(cfg, s, pc, s', pc')
    ensures LeasesFall(s, s')
  {
    hide ListsLeases, TasksOf, Late;
  }

  lemma LeasesKept(s: Shared, s': Shared)
    requires LeasesOk(s) && LeasesFall(s, s') && s.drawn <= s'.drawn
    ensures LeasesOk(s')
  {
  }

  lemma GrantKept(s: Shared, pc: Pc, s': Shared, l: Lease)
    requires LeasesOk(s) && Relies(s, pc) && Grants(s, pc, s', l)
    ensures LeasesOk(s') && (forall k :: k in s.granted ==> k in s'.granted && s'.granted[k] == s.granted[k])
  {
  }

  lemma MapsKept(cfg: TaskLife.Config, s: Shared, pc: Pc, s': Shared, pc': Pc)
    requires LeasesOk(s) && Relies(s, pc) && Section(cfg, s, pc, s', pc') && Effect(cfg, s, pc, s', pc')
        && s.drawn <= s'.drawn
    ensures LeasesOk(s') && (forall k :: k in s.granted ==> k in s'.granted && s'.granted[k] == s.granted[k])
    ensures s'.granted == s.granted || exists l :: Grants(s, pc, s', l)
  {
    hide Section, LeasesOk, Relies, TasksAfter, Grants;
    if pc.Picking? {
      PickingGrants(cfg, s, pc, s', pc');
      if s' != s {
        var l :| Grants(s, pc, s', l);
        GrantKept(s, pc, s', l);
      }
    } else {
      if TouchesMaps(pc) {
        MapsFall(cfg, s, pc, s', pc');
      }
      LeasesKept(s, s');
    }
  }

  /** Whatever a section does, the others can count on, and the shared state stays in order. */
  lemma SectionKeeps(cfg: TaskLife.Config, s: Shared, pc: Pc, s': Shared, pc': Pc)
    requires StoreOk(s) && LeasesOk(s) && Relies(s, pc) && Section(cfg, s, pc, s', pc')
    ensures Guarantee(s, s') && StoreOk(s') && LeasesOk(s')
    ensures s'.granted == s.granted || exists l :: Grants(s, pc, s', l)
  {
    hide Section, Effect, LeasesOk, Relies, Grants;
    SectionEffect(cfg, s, pc, s', pc');
    StoreKept(cfg, s, pc, s', pc');
    MapsKept(cfg, s, pc, s', pc');
  }

  /**
   A rollback, a result, a reaping and a cancel change the store only if the task
   is still at the version that the thread read, and then nothing else in it.
   */
  lemma OnlyAtReadVersion(cfg: TaskLife.Config, s: Shared, pc: Pc, s': Shared, pc': Pc)
    requires LeasesOk(s) && Relies(s, pc) && Section(cfg, s, pc, s', pc')
    requires pc.PuttingBack? || pc.Applying? || pc.Retaking? || pc.Stopping?
    ensures var (ts, ts') := (s.board.tasks, s'.board.tasks);
      ts' != ts ==> exists id ::
        && id in ts && ts[id].version == pc.t.version && id in ts' && ts'[id].version == pc.t.version + 1
        && ts' == ts[id := ts'[id]]
  {
    hide Section, Relies, LeasesOk;
    SectionEffect(cfg, s, pc, s', pc');
    ReadVersionIsReal(s, pc);
  }

  lemma ReadVersionIsReal(s: Shared, pc: Pc)
    requires LeasesOk(s) && Relies(s, pc) && (pc.PuttingBack? || pc.Applying? || pc.Retaking? || pc.Stopping?)
    ensures pc.t.version >= 1
  {
  }

  /** A task that was gone comes back only by a save that brings it back. */
  lemma OnlyResurrectionReturns(cfg: TaskLife.Config, s: Shared, pc: Pc, s': Shared, pc': Pc, id: string)
    requires Section(cfg, s, pc, s', pc') && id in s.drawn && id !in s.board.tasks && id in s'.board.tasks
    ensures Resurrects(s, pc, pc') && pc.t.id == id
  {
    hide AssignSection, ResultSection, ReapSection, TickSection, TriggerSection, CancelSection, SaveSection,
      RenewSection, Begins, TasksQuiet, TasksAfter, Saved;
    SectionEffect(cfg, s, pc, s', pc');
    if !AddsOrTakes(pc, pc') {
      StoreQuiet(cfg, s.board.tasks, pc, pc');
      QuietKeys(s.board.tasks, s'.board.tasks);
    } else {
      AddedKeys(cfg, s.board.tasks, pc, pc');
    }
  }

  lemma QuietKeys(ts: Tasks, us: Tasks)
    requires TasksQuiet(ts, us)
    ensures us.Keys == ts.Keys
  {
  }

  lemma AddedKeys(cfg: TaskLife.Config, ts: Tasks, pc: Pc, pc': Pc)
    requires AddsOrTakes(pc, pc')
    ensures var us := TasksAfter(cfg, ts, pc, pc');
      us.Keys == if pc.Discarding? then ts.Keys - {pc.id} else ts.Keys + {if pc.Saving? then pc.t.id else pc'.t.id}
  {
  }

  // ---------- each section establishes what its thread goes on to rely on ----------

  predicate MidReap(pc: Pc) {
    pc.Reclaiming? || pc.Retaking? || (pc.Pushing? && pc.rest.Reclaiming?)
  }

  /**
   While a Renew is between its two halves, no other thread touches the lease
   maps or starts one; only Assign, Cancel and ReapExpired lead to their own
   program points; and a save is of a task that its thread has just read.
   */
  predicate KeepsMutex(s: Shared, pc: Pc, s': Shared, pc': Pc) {
    && (s.renewing && !pc.Comparing? ==> s'.renewing && s'.lm == s.lm && !pc'.Comparing?)
    && (pc.Comparing? ==> !pc'.Comparing?) && (pc'.Comparing? ==> s'.renewing)
    && (pc'.Picking? || pc'.PuttingBack? ==> InAssign(pc))
    && (pc'.Unqueueing? || pc'.Undelaying? ==> InCancel(pc))
    && (MidReap(pc') ==> InReap(pc) || pc.Pushing?)
    && (pc'.Saving? ==> pc.Editing? && pc'.t.id in s'.board.tasks)
  }

  lemma CurrentIsGranted(s: Shared, id: string)
    requires LeasesOk(s)
    ensures CurrentLease(s.lm, id).Some? ==> IsGranted(s, CurrentLease(s.lm, id).value)
  {
  }

  lemma AssignRelies(cfg: TaskLife.Config, s: Shared, pc: Pc, s': Shared, pc': Pc)
    requires StoreOk(s) && Guarantee(s, s') && Relies(s, pc)
    requires InAssign(pc) && AssignSection(cfg.ttl, s, pc, s', pc')
    ensures Relies(s', pc') && KeepsMutex(s, pc, s', pc')
  {
    hide StoreOk, Guarantee, AssignSection, Relies, KeepsMutex;
    if pc.Popped? {
      PoppedRelies(cfg, s, pc, s', pc');
    } else {
      PickingRelies(cfg, s, pc, s', pc');
    }
  }

  lemma PoppedRelies(cfg: TaskLife.Config, s: Shared, pc: Pc, s': Shared, pc': Pc)
    requires StoreOk(s) && pc.Popped? && AssignSection(cfg.ttl, s, pc, s', pc')
    ensures Relies(s', pc') && KeepsMutex(s, pc, s', pc')
  {
  }

  lemma PickingRelies(cfg: TaskLife.Config, s: Shared, pc: Pc, s': Shared, pc': Pc)
    requires Relies(s, pc) && InAssign(pc) && !pc.Popped? && AssignSection(cfg.ttl, s, pc, s', pc')
    ensures Relies(s', pc') && KeepsMutex(s, pc, s', pc')
  {
    hide Foremost, Mark, Transitioned, WithLease;
  }

  lemma CheckingRelies(cfg: TaskLife.Config, s: Shared, pc: Pc, s': Shared, pc': Pc)
    requires LeasesOk(s) && Relies(s, pc) && pc.Checking? && ResultSection(cfg.retryDelay, s, pc, s', pc')
    ensures Relies(s', pc') && KeepsMutex(s, pc, s', pc')
  {
    hide LeasesOk, CurrentLease, Mark;
    CurrentIsGranted(s, pc.l.taskId);
  }

  lemma ResultRelies(cfg: TaskLife.Config, s: Shared, pc: Pc, s': Shared, pc': Pc)
    requires StoreOk(s) && LeasesOk(s) && Relies(s, pc)
    requires InResult(pc) && ResultSection(cfg.retryDelay, s, pc, s', pc')
    ensures Relies(s', pc') && KeepsMutex(s, pc, s', pc')
  {
    hide LeasesOk, StoreOk, ResultSection, Relies, KeepsMutex;
    if pc.Checking? {
      CheckingRelies(cfg, s, pc, s', pc');
    } else if pc.Reporting? {
      ReportingRelies(cfg, s, pc, s', pc');
    } else {
      ApplyingRelies(cfg, s, pc, s', pc');
    }
  }

  lemma ReportingRelies(cfg: TaskLife.Config, s: Shared, pc: Pc, s': Shared, pc': Pc)
    requires StoreOk(s) && Relies(s, pc) && pc.Reporting? && ResultSection(cfg.retryDelay, s, pc, s', pc')
    ensures Relies(s', pc') && KeepsMutex(s, pc, s', pc')
  {
    hide IsGranted;
  }

  lemma ApplyingRelies(cfg: TaskLife.Config, s: Shared, pc: Pc, s': Shared, pc': Pc)
    requires (pc.Applying? || pc.Delaying? || pc.Releasing?) && ResultSection(cfg.retryDelay, s, pc, s', pc')
    ensures Relies(s', pc') && KeepsMutex(s, pc, s', pc')
  {
    hide KeepEarlier, Retried, Transitioned, CanRetry, CanMove, Released;
    assert pc'.Delaying? || pc'.Releasing? || pc'.Idle?;
  }

  lemma ReapRelies(s: Shared, pc: Pc, s': Shared, pc': Pc)
    requires StoreOk(s) && LeasesOk(s) && Guarantee(s, s') && Relies(s, pc)
    requires InReap(pc) && ReapSection(s, pc, s', pc')
    ensures Relies(s', pc') && KeepsMutex(s, pc, s', pc')
  {
    hide StoreOk, LeasesOk, Guarantee, ReapSection, Relies, KeepsMutex;
    if pc.Reaping? {
      ReapingRelies(s, pc, s', pc');
    } else if pc.Reclaiming? {
      ReclaimingRelies(s, pc, s', pc');
    } else {
      RetakingRelies(s, pc, s', pc');
    }
  }

  lemma ReapingRelies(s: Shared, pc: Pc, s': Shared, pc': Pc)
    requires LeasesOk(s) && pc.Reaping? && ReapSection(s, pc, s', pc')
    ensures Relies(s', pc') && KeepsMutex(s, pc, s', pc')
  {
    hide Unexpired;
  }

  lemma ReclaimingRelies(s: Shared, pc: Pc, s': Shared, pc': Pc)
    requires Relies(s, pc) && pc.Reclaiming? && ReapSection(s, pc, s', pc')
    ensures Relies(s', pc') && KeepsMutex(s, pc, s', pc')
  {
    hide IsGranted, Holds;
    if pc.expired == [] {
      assert pc'.Idle?;
    } else if pc'.Reclaiming? {
      assert forall i :: 0 <= i < |pc'.expired| ==> pc'.expired[i] == pc.expired[i + 1];
    } else {
      HeldVersion(s.board.tasks, pc.expired[0]);
      assert forall i :: 0 <= i < |pc'.expired| ==> pc'.expired[i] == pc.expired[i + 1];
    }
  }

  lemma HeldVersion(ts: Tasks, l: Lease)
    ensures Holds(ts, l) ==> l.taskId in ts && ts[l.taskId].version == l.taskVersion
  {
  }

  lemma RetakingRelies(s: Shared, pc: Pc, s': Shared, pc': Pc)
    requires Relies(s, pc) && pc.Retaking? && ReapSection(s, pc, s', pc')
    ensures Relies(s', pc') && KeepsMutex(s, pc, s', pc')
  {
    hide Transitioned, CanMove;
    assert pc'.Reclaiming? || (pc'.Pushing? && pc'.rest.Reclaiming?);
  }

  lemma TickRelies(s: Shared, pc: Pc, s': Shared, pc': Pc)
    requires InTick(pc) && TickSection(s, pc, s', pc')
    ensures Relies(s', pc') && KeepsMutex(s, pc, s', pc')
  {
    hide TickSection, Relies, KeepsMutex, InTickOrPushing;
    TickStores(s, pc, s', pc');
    TickStays(s, pc, s', pc');
    TickReliesOnNothing(s', pc');
    TickKeepsMutex(s, pc, s', pc');
  }

  lemma TickKeepsMutex(s: Shared, pc: Pc, s': Shared, pc': Pc)
    requires InTick(pc) && InTickOrPushing(pc') && s'.renewing == s.renewing && s'.lm == s.lm
    ensures KeepsMutex(s, pc, s', pc')
  {
  }

  predicate InTickOrPushing(pc: Pc) {
    InTick(pc) || pc.Idle? || (pc.Pushing? && (pc.rest.Firing? || pc.rest.Advancing? || pc.rest.Promoting?))
  }

  lemma TickStays(s: Shared, pc: Pc, s': Shared, pc': Pc)
    requires InTick(pc) && TickSection(s, pc, s', pc')
    ensures InTickOrPushing(pc')
  {
    hide ListsIds, After, DueDelayed, DueIds, Recurs, NextRun, Transitioned, Rescheduled, CanMove;
  }

  lemma TickReliesOnNothing(s: Shared, pc: Pc)
    requires InTickOrPushing(pc)
    ensures Relies(s, pc)
  {
  }

  lemma TriggerRelies(s: Shared, pc: Pc, s': Shared, pc': Pc)
    requires InTrigger(pc) && TriggerSection(s, pc, s', pc')
    ensures Relies(s', pc') && KeepsMutex(s, pc, s', pc')
  {
  }

  lemma CancelRelies(s: Shared, pc: Pc, s': Shared, pc': Pc)
    requires StoreOk(s) && Relies(s, pc) && InCancel(pc) && CancelSection(s, pc, s', pc')
    ensures Relies(s', pc') && KeepsMutex(s, pc, s', pc')
  {
  }

  lemma SaveRelies(s: Shared, pc: Pc, s': Shared, pc': Pc)
    requires StoreOk(s) && InSave(pc) && SaveSection(s, pc, s', pc')
    ensures Relies(s', pc') && KeepsMutex(s, pc, s', pc')
  {
  }

  lemma RenewRelies(cfg: TaskLife.Config, s: Shared, pc: Pc, s': Shared, pc': Pc)
    requires LeasesOk(s) && InRenew(pc) && RenewSection(cfg.ttl, s, pc, s', pc')
    ensures Relies(s', pc') && KeepsMutex(s, pc, s', pc')
  {
  }

  lemma PushRelies(s: Shared, pc: Pc, s': Shared)
    requires pc.Pushing? && Relies(s, pc) && Guarantee(s, s') && s' == Pushed(s, pc.t, pc.now)
    ensures Relies(s', pc.rest) && KeepsMutex(s, pc, s', pc.rest)
  {
    hide Guarantee, Relies, Added;
    PushesTo(s, pc);
    ReliesIsStable(s, s', pc.rest);
  }

  lemma PushesTo(s: Shared, pc: Pc)
    requires pc.Pushing? && Relies(s, pc)
    ensures Relies(s, pc.rest)
    ensures var rest := pc.rest;
      rest.Idle? || rest.Firing? || rest.Advancing? || rest.Promoting? || rest.Reclaiming?
  {
  }

  lemma BeginRelies(s: Shared, pc: Pc)
    requires Begins(s, pc)
    ensures Relies(s, pc) && KeepsMutex(s, Idle, s, pc)
  {
  }

  lemma RegisterRelies(s: Shared, s': Shared, t: Task)
    requires Registers(s, s', t)
    ensures Relies(s', Tracking(t)) && KeepsMutex(s, Idle, s', Tracking(t))
  {
    hide Saved, SavedNames, Accepted;
  }

  lemma SectionRelies(cfg: TaskLife.Config, s: Shared, pc: Pc, s': Shared, pc': Pc)
    requires StoreOk(s) && LeasesOk(s) && Relies(s, pc) && Guarantee(s, s') && StoreOk(s')
    requires Section(cfg, s, pc, s', pc')
    ensures Relies(s', pc') && KeepsMutex(s, pc, s', pc')
  {
    hide StoreOk, LeasesOk, Guarantee, Relies, KeepsMutex, AssignSection, ResultSection, ReapSection, TickSection,
      TriggerSection, CancelSection, SaveSection, RenewSection, Begins, Registers;
    if pc.Idle? {
      if Begins(s, pc') && s' == s {
        BeginRelies(s, pc');
      } else {
        RegisterRelies(s, s', pc'.t);
      }
    } else if pc.Pushing? {
      PushRelies(s, pc, s');
    } else if InAssign(pc) {
      AssignRelies(cfg, s, pc, s', pc');
    } else if InResult(pc) {
      ResultRelies(cfg, s, pc, s', pc');
    } else if InReap(pc) {
      ReapRelies(s, pc, s', pc');
    } else if InTick(pc) {
      TickRelies(s, pc, s', pc');
    } else if InTrigger(pc) {
      TriggerRelies(s, pc, s', pc');
    } else if InCancel(pc) {
      CancelRelies(s, pc, s', pc');
    } else if InSave(pc) {
      SaveRelies(s, pc, s', pc');
    } else {
      RenewRelies(cfg, s, pc, s', pc');
    }
  }
}
