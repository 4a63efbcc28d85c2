/** What each critical section does to the parts of the shared state that other threads look at. */
module LockEffects {
  import opened Model
  import opened Queues
  import opened Store
  import opened Dispatch
  import opened Leasing
  import opened Execution
  import opened LockSteps
  import TaskLife
  import Protocol

  /** The store after a section. */
  function TasksAfter(cfg: TaskLife.Config, ts: Tasks, pc: Pc, pc': Pc): Tasks {
    match pc
    case Idle => if pc'.Tracking? then Saved(ts, pc'.t) else ts
    case Popped(_, id) => Transitioned(ts, id, Ready, Leased, -1)
    case PuttingBack(_, t) => Transitioned(ts, t.id, Leased, Ready, t.version)
    case Applying(_, r, t) =>
      if WouldRetry(r, t) then Retried(ts, t.id, r.finishedAt + cfg.retryDelay, t.version)
      else Transitioned(ts, t.id, Leased, Ending(r), t.version)
    case Retaking(_, l, t, _) => Transitioned(ts, l.taskId, Leased, Ready, t.version)
    case Marking(_, id, _) => Transitioned(ts, id, Pending, Ready, -1)
    case Advancing(_, id, next, _) => Rescheduled(ts, id, next)
    case Prodding(_, t) => Transitioned(ts, t.id, Pending, Ready, -1)
    case Stopping(t) => Transitioned(ts, t.id, t.state, Canceled, t.version)
    case Saving(t) => if pc'.Tracking? then Saved(ts, t) else ts
    case Discarding(id) => ts - {id}
    case _ => ts
  }

  predicate TouchesMaps(pc: Pc) {
    pc.Picking? || pc.Releasing? || pc.Reaping? || pc.Comparing?
  }

  predicate Starts(pc: Pc, pc': Pc) {
    pc.Idle? && pc'.Tracking?
  }

  predicate Hands(pc: Pc, pc': Pc) {
    pc.Picking? && pc'.Idle?
  }

  /** Which sections touch what. */
  predicate Effect(cfg: TaskLife.Config, s: Shared, pc: Pc, s': Shared, pc': Pc) {
    && s'.board.tasks == TasksAfter(cfg, s.board.tasks, pc, pc')
    && (TouchesMaps(pc) || s'.lm == s.lm)
    && s'.drawn == (if Starts(pc, pc') then s.drawn + {pc'.t.id} else s.drawn)
    && (Hands(pc, pc') || s'.granted == s.granted)
    && (InRenew(pc) || s'.renewing == s.renewing)
    && (pc.Checking? || s'.records == s.records)
    && (pc.Checking? || pc.Applying? || pc.Retaking? || s'.counters == s.counters)
    && (pc'.Applying? ==> pc.Checking? || pc.Pushing?)
  }

  lemma RestEffect(cfg: TaskLife.Config, s: Shared, pc: Pc, s': Shared, pc': Pc)
    requires (pc.Idle? || pc.Pushing?) && Section(cfg, s, pc, s', pc')
    ensures Effect(cfg, s, pc, s', pc')
  {
    hide Saved, SavedNames, Accepted;
  }

  lemma AssignEffect(cfg: TaskLife.Config, s: Shared, pc: Pc, s': Shared, pc': Pc)
    requires InAssign(pc) && AssignSection(cfg.ttl, s, pc, s', pc')
    ensures Effect(cfg, s, pc, s', pc')
  {
    hide Foremost, Transitioned, CanMove, WithLease;
  }

  lemma ResultEffect(cfg: TaskLife.Config, s: Shared, pc: Pc, s': Shared, pc': Pc)
    requires InResult(pc) && ResultSection(cfg.retryDelay, s, pc, s', pc')
    ensures Effect(cfg, s, pc, s', pc')
  {
    hide ResultSection, Effect;
    if pc.Checking? {
      CheckingEffect(cfg, s, pc, s', pc');
    } else if pc.Applying? {
      ApplyingEffect(cfg, s, pc, s', pc');
    } else {
      OtherEffect(cfg, s, pc, s', pc');
    }
  }

  lemma CheckingEffect(cfg: TaskLife.Config, s: Shared, pc: Pc, s': Shared, pc': Pc)
    requires pc.Checking? && ResultSection(cfg.retryDelay, s, pc, s', pc')
    ensures Effect(cfg, s, pc, s', pc')
  {
    hide Confirms, Noted;
  }

  lemma ApplyingEffect(cfg: TaskLife.Config, s: Shared, pc: Pc, s': Shared, pc': Pc)
    requires pc.Applying? && ResultSection(cfg.retryDelay, s, pc, s', pc')
    ensures Effect(cfg, s, pc, s', pc')
  {
    hide Transitioned, Retried, CanRetry, CanMove, WouldRetry, Ending, Effect;
    StoresOnly(cfg, s, pc, s', pc', TasksAfter(cfg, s.board.tasks, pc, pc'));
  }

  lemma StoresOnly(cfg: TaskLife.Config, s: Shared, pc: Pc, s': Shared, pc': Pc, ts: Tasks)
    requires pc.Applying? && !pc'.Applying? && ts == TasksAfter(cfg, s.board.tasks, pc, pc')
    requires s' == With(s, ts).(counters := s'.counters)
    ensures Effect(cfg, s, pc, s', pc')
  {
    hide TasksAfter;
  }

  lemma OtherEffect(cfg: TaskLife.Config, s: Shared, pc: Pc, s': Shared, pc': Pc)
    requires pc.Reporting? || pc.Delaying? || pc.Releasing?
    requires ResultSection(cfg.retryDelay, s, pc, s', pc')
    ensures Effect(cfg, s, pc, s', pc')
  {
    hide KeepEarlier, Released;
  }

  lemma ReapEffect(cfg: TaskLife.Config, s: Shared, pc: Pc, s': Shared, pc': Pc)
    requires InReap(pc) && ReapSection(s, pc, s', pc')
    ensures Effect(cfg, s, pc, s', pc')
  {
    hide Transitioned, CanMove, Holds, ListsLeases, Unexpired, Late;
  }

  lemma TickEffect(cfg: TaskLife.Config, s: Shared, pc: Pc, s': Shared, pc': Pc)
    requires InTick(pc) && TickSection(s, pc, s', pc')
    ensures Effect(cfg, s, pc, s', pc')
  {
    hide TickSection, Transitioned, Rescheduled;
    TickStores(s, pc, s', pc');
  }

  /** All that a section of Tick changes is the board. */
  lemma TickStores(s: Shared, pc: Pc, s': Shared, pc': Pc)
    requires InTick(pc) && TickSection(s, pc, s', pc')
    ensures s' == s.(board := s'.board) && !pc'.Applying?
    ensures s'.board.tasks == match pc
                              case Marking(_, id, _) => Transitioned(s.board.tasks, id, Pending, Ready, -1)
                              case Advancing(_, id, next, _) => Rescheduled(s.board.tasks, id, next)
                              case _ => s.board.tasks
  {
    hide ListsIds, After, DueDelayed, DueIds, Recurs, NextRun, Transitioned, Rescheduled, CanMove;
  }

  lemma TriggerEffect(cfg: TaskLife.Config, s: Shared, pc: Pc, s': Shared, pc': Pc)
    requires InTrigger(pc) && TriggerSection(s, pc, s', pc')
    ensures Effect(cfg, s, pc, s', pc')
  {
    hide Transitioned, CanMove;
  }

  lemma CancelEffect(cfg: TaskLife.Config, s: Shared, pc: Pc, s': Shared, pc': Pc)
    requires InCancel(pc) && CancelSection(s, pc, s', pc')
    ensures Effect(cfg, s, pc, s', pc')
  {
    hide Transitioned, CanMove;
  }

  lemma SaveEffect(cfg: TaskLife.Config, s: Shared, pc: Pc, s': Shared, pc': Pc)
    requires InSave(pc) && SaveSection(s, pc, s', pc')
    ensures Effect(cfg, s, pc, s', pc')
  {
    hide SaveSection, Effect;
    if pc.Discarding? {
      DiscardEffect(cfg, s, pc, s', pc');
    } else {
      SavingEffect(cfg, s, pc, s', pc');
    }
  }

  lemma DiscardEffect(cfg: TaskLife.Config, s: Shared, pc: Pc, s': Shared, pc': Pc)
    requires pc.Discarding? && SaveSection(s, pc, s', pc')
    ensures Effect(cfg, s, pc, s', pc')
  {
    hide Saved, SavedNames, Accepted, Protocol.Rewritten;
    if pc.id !in s.board.tasks {
      assert s.board.tasks - {pc.id} == s.board.tasks;
    }
  }

  lemma SavingEffect(cfg: TaskLife.Config, s: Shared, pc: Pc, s': Shared, pc': Pc)
    requires InSave(pc) && !pc.Discarding? && SaveSection(s, pc, s', pc')
    ensures Effect(cfg, s, pc, s', pc')
  {
    hide Saved, SavedNames, Accepted, Discarded, Protocol.Rewritten;
  }

  lemma RenewEffect(cfg: TaskLife.Config, s: Shared, pc: Pc, s': Shared, pc': Pc)
    requires InRenew(pc) && RenewSection(cfg.ttl, s, pc, s', pc')
    ensures Effect(cfg, s, pc, s', pc')
  {
    hide Released;
  }

  lemma SectionEffect(cfg: TaskLife.Config, s: Shared, pc: Pc, s': Shared, pc': Pc)
    requires Section(cfg, s, pc, s', pc')
    ensures Effect(cfg, s, pc, s', pc')
  {
    hide Effect, AssignSection, ResultSection, ReapSection, TickSection, TriggerSection, CancelSection, SaveSection,
      RenewSection, Registers, Begins;
    if pc.Idle? || pc.Pushing? {
      RestEffect(cfg, s, pc, s', pc');
    } else if InAssign(pc) {
      AssignEffect(cfg, s, pc, s', pc');
    } else if InResult(pc) {
      ResultEffect(cfg, s, pc, s', pc');
    } else if InReap(pc) {
      ReapEffect(cfg, s, pc, s', pc');
    } else if InTick(pc) {
      TickEffect(cfg, s, pc, s', pc');
    } else if InTrigger(pc) {
      TriggerEffect(cfg, s, pc, s', pc');
    } else if InCancel(pc) {
      CancelEffect(cfg, s, pc, s', pc');
    } else if InSave(pc) {
      SaveEffect(cfg, s, pc, s', pc');
    } else {
      RenewEffect(cfg, s, pc, s', pc');
    }
  }
}
