/** Whole interleavings of the calls' critical sections: what all of them keep, and exactly which keep the rest. */
module LockRuns {
  import opened Model
  import opened Store
  import opened Dispatch
  import opened Leasing
  import opened Execution
  import opened LockSteps
  import opened LockEffects
  import opened LockLevel
  import opened LockSafety
  import TaskLife

  function Start(threads: nat): Global {
    Global(
      Shared(Board(map[], map[], map[], map[]), map[], LeaseMaps(map[], map[]), map[], Counters(0, 0, 0, 0),
             map[], {}, false),
      seq(threads, _ => Idle))
  }

  /** Thread who[k] takes gs[k] to gs[k + 1]. */
  ghost predicate Path(cfg: TaskLife.Config, gs: seq<Global>, who: seq<nat>) {
    |gs| == |who| + 1 && forall k :: 0 <= k < |who| ==> Step(cfg, gs[k], who[k], gs[k + 1])
  }

  ghost predicate Interleaving(cfg: TaskLife.Config, gs: seq<Global>, who: seq<nat>) {
    Path(cfg, gs, who) && gs[0] == Start(|gs[0].pcs|)
  }

  lemma StartInv(threads: nat)
    ensures var g := Start(threads);
      Inv(g) && forall id :: NotLost(g, id) && TokensHold(g, id) && TokensUnique(g, id)
  {
  }

  lemma {:induction false} PathInv(cfg: TaskLife.Config, gs: seq<Global>, who: seq<nat>, n: nat)
    requires Path(cfg, gs, who) && n <= |who| && Inv(gs[0])
    ensures Inv(gs[n])
  {
    hide Inv, Step;
    if n > 0 {
      PathInv(cfg, gs, who, n - 1);
      InvKept(cfg, gs[n - 1], who[n - 1], gs[n]);
    }
  }

  lemma InterleavingInv(cfg: TaskLife.Config, gs: seq<Global>, who: seq<nat>, n: nat)
    requires Interleaving(cfg, gs, who) && n <= |who|
    ensures Inv(gs[n])
  {
    hide Inv, Step;
    StartInv(|gs[0].pcs|);
    PathInv(cfg, gs, who, n);
  }

  /** Ids stay drawn and leases stay granted. */
  ghost predicate Grows(s: Shared, s': Shared) {
    s.drawn <= s'.drawn && forall k :: k in s.granted ==> k in s'.granted && s'.granted[k] == s.granted[k]
  }

  lemma {:induction false} GrowsRuns(cfg: TaskLife.Config, gs: seq<Global>, who: seq<nat>, i: nat, j: nat)
    requires Interleaving(cfg, gs, who) && i <= j <= |who|
    ensures Grows(gs[i].s, gs[j].s)
    decreases j
  {
    hide Inv, Step;
    if i < j {
      GrowsRuns(cfg, gs, who, i, j - 1);
      InterleavingInv(cfg, gs, who, j - 1);
      InvKept(cfg, gs[j - 1], who[j - 1], gs[j]);
    }
  }

  lemma InvHas(g: Global)
    requires Inv(g)
    ensures StoreOk(g.s) && LeasesOk(g.s)
  {
  }

  // ---------- ready tasks ----------

  /** Up to n, no section puts the task back, ready, where nothing has it, or strips it of its only entry. */
  ghost predicate NotDropped(gs: seq<Global>, who: seq<nat>, n: nat, id: string)
    requires n <= |who| < |gs|
  {
    forall k :: 0 <= k < n ==> !Puts(gs[k], who[k], gs[k + 1], id) && !Strips(gs[k], who[k], id)
  }

  /**
   Throughout, whenever the task is ready it is queued, waiting, or about to be
   pushed or looked at by a thread, if and only if no section drops it.
   */
  lemma {:induction false} ReadyNotLostIff(cfg: TaskLife.Config, gs: seq<Global>, who: seq<nat>, n: nat, id: string)
    requires Interleaving(cfg, gs, who) && n <= |who|
    ensures (forall k :: 0 <= k <= n ==> NotLost(gs[k], id)) <==> NotDropped(gs, who, n, id)
  {
    hide Inv, Step, NotLost, Puts, Strips, StoreOk, TokensHold, TokensUnique;
    StartInv(|gs[0].pcs|);
    if n > 0 {
      ReadyNotLostIff(cfg, gs, who, n - 1, id);
      InterleavingInv(cfg, gs, who, n - 1);
      InvHas(gs[n - 1]);
      if NotLost(gs[n - 1], id) {
        NotLostIff(cfg, gs[n - 1], who[n - 1], gs[n], id);
      }
    }
  }

  /** Once no call is under way, the task, if it is ready, is then in one of the queues. */
  lemma ReadyAtRest(cfg: TaskLife.Config, gs: seq<Global>, who: seq<nat>, n: nat, id: string)
    requires Interleaving(cfg, gs, who) && n <= |who| && NotDropped(gs, who, n, id)
    requires IsReady(gs[n].s, id) && forall i :: 0 <= i < |gs[n].pcs| ==> gs[n].pcs[i].Idle?
    ensures Queued(gs[n].s, id)
  {
    hide Step, Puts, Strips, IsReady, Queued;
    ReadyNotLostIff(cfg, gs, who, n, id);
  }

  // ---------- version fencing ----------

  /** Up to n, no section brings back the task once it has been leased. */
  ghost predicate Fenced(gs: seq<Global>, who: seq<nat>, n: nat, id: string)
    requires n <= |who| < |gs|
  {
    forall k :: 0 <= k < n ==> !StepUnfences(gs[k], who[k], gs[k + 1], id)
  }

  /**
   Throughout, the task is leased whenever it is at a version that was leased, if
   and only if no section brings it back once it has been leased.
   */
  lemma {:induction false} FencingIff(cfg: TaskLife.Config, gs: seq<Global>, who: seq<nat>, n: nat, id: string)
    requires Interleaving(cfg, gs, who) && n <= |who|
    ensures (forall k :: 0 <= k <= n ==> TokensHold(gs[k], id)) <==> Fenced(gs, who, n, id)
  {
    hide Inv, Step, NotLost, TokensHold, TokensUnique, StepUnfences;
    StartInv(|gs[0].pcs|);
    if n > 0 {
      FencingIff(cfg, gs, who, n - 1, id);
      InterleavingInv(cfg, gs, who, n - 1);
      if TokensHold(gs[n - 1], id) {
        TokensHoldIff(cfg, gs[n - 1], who[n - 1], gs[n], id);
      }
    }
  }

  lemma {:induction false} FencedTokens(cfg: TaskLife.Config, gs: seq<Global>, who: seq<nat>, n: nat, id: string)
    requires Interleaving(cfg, gs, who) && n <= |who| && Fenced(gs, who, n, id)
    ensures Inv(gs[n]) && TokensHold(gs[n], id) && TokensUnique(gs[n], id)
  {
    hide Inv, Step, NotLost, TokensHold, TokensUnique, StepUnfences;
    StartInv(|gs[0].pcs|);
    InterleavingInv(cfg, gs, who, n);
    FencingIff(cfg, gs, who, n, id);
    if n > 0 {
      FencedTokens(cfg, gs, who, n - 1, id);
      TokensStayUnique(cfg, gs[n - 1], who[n - 1], gs[n], id);
    }
  }

  /** A task at the version of a granted lease is leased, and no other lease was ever granted on that version. */
  lemma VersionFences(cfg: TaskLife.Config, gs: seq<Global>, who: seq<nat>, n: nat, k: string)
    requires Interleaving(cfg, gs, who) && n <= |who| && k in gs[n].s.granted
    requires Fenced(gs, who, n, gs[n].s.granted[k].taskId)
    ensures var (ts, l) := (gs[n].s.board.tasks, gs[n].s.granted[k]);
      && (l.taskId in ts && ts[l.taskId].version == l.taskVersion ==> ts[l.taskId].state == Leased)
      && (forall m :: m in gs[n].s.granted && m != k ==> TokenOf(gs[n].s.granted[m]) != TokenOf(l))
  {
    hide Step, StepUnfences, Inv;
    FencedTokens(cfg, gs, who, n, gs[n].s.granted[k].taskId);
  }

  /** The store takes the outcome of a result. */
  predicate Takes(ts: Tasks, r: Report, t: Task) {
    if WouldRetry(r, t) then CanRetry(ts, t.id, t.version) else CanMove(ts, t.id, Leased, t.version)
  }

  /** The section commits a result of the lease, or its reaping, to the store. */
  predicate Commits(s: Shared, pc: Pc, leaseId: string) {
    match pc
    case Applying(l, r, t) => l.id == leaseId && Takes(s.board.tasks, r, t)
    case Retaking(_, l, t, _) => l.id == leaseId && CanMove(s.board.tasks, l.taskId, Leased, t.version)
    case _ => false
  }

  /** The task has gone past the lease's version, or is gone. */
  predicate Spent(s: Shared, leaseId: string) {
    leaseId in s.granted && s.granted[leaseId].taskId in s.drawn
    && (s.granted[leaseId].taskId in s.board.tasks ==>
          s.board.tasks[s.granted[leaseId].taskId].version > s.granted[leaseId].taskVersion)
  }

  lemma CommitSpends(cfg: TaskLife.Config, g: Global, i: nat, g': Global, leaseId: string)
    requires Inv(g) && Step(cfg, g, i, g') && Commits(g.s, g.pcs[i], leaseId)
    requires TokensHold(g, g.pcs[i].l.taskId)
    ensures leaseId in g.s.granted && g.s.granted[leaseId].taskId == g.pcs[i].l.taskId && Spent(g'.s, leaseId)
    ensures var l := g.s.granted[leaseId];
      l.taskId in g.s.board.tasks && g.s.board.tasks[l.taskId].version == l.taskVersion
        && g.s.board.tasks[l.taskId].state == Leased
  {
    hide OneRenews, StoreOk;
    assert Relies(g.s, g.pcs[i]);
    assert Fences(g.s, TokenOf(g.s.granted[g.pcs[i].l.id]));
  }

  lemma SpentStays(cfg: TaskLife.Config, g: Global, i: nat, g': Global, leaseId: string)
    requires Inv(g) && Step(cfg, g, i, g') && Spent(g.s, leaseId)
    requires !StepUnfences(g, i, g', g.s.granted[leaseId].taskId)
    ensures Spent(g'.s, leaseId)
  {
    hide Inv, Section;
    InvKept(cfg, g, i, g');
    var id := g.s.granted[leaseId].taskId;
    if id in g'.s.board.tasks && id !in g.s.board.tasks {
      OnlyResurrectionReturns(cfg, g.s, g.pcs[i], g'.s, g'.pcs[i], id);
    }
  }

  lemma {:induction false} SpentRuns(cfg: TaskLife.Config, gs: seq<Global>, who: seq<nat>, i: nat, j: nat, k: string)
    requires Interleaving(cfg, gs, who) && i <= j <= |who| && Spent(gs[i].s, k)
    requires Fenced(gs, who, j, gs[i].s.granted[k].taskId)
    ensures Spent(gs[j].s, k)
    decreases j
  {
    hide Inv, Step, StepUnfences, Spent;
    if i < j {
      SpentRuns(cfg, gs, who, i, j - 1, k);
      InterleavingInv(cfg, gs, who, j - 1);
      SpentIsGranted(gs[i].s, k);
      GrowsRuns(cfg, gs, who, i, j - 1);
      SpentStays(cfg, gs[j - 1], who[j - 1], gs[j], k);
    }
  }

  lemma SpentIsGranted(s: Shared, k: string)
    requires Spent(s, k)
    ensures k in s.granted
  {
  }

  lemma SpentCommitsNothing(g: Global, i: nat, leaseId: string)
    requires Inv(g) && i < |g.pcs| && Spent(g.s, leaseId)
    ensures !Commits(g.s, g.pcs[i], leaseId)
  {
    hide OneRenews, StoreOk;
    assert Relies(g.s, g.pcs[i]);
  }

  /** Each lease commits at most one of success, death, retry and reaping, however its reports and reaps interleave. */
  lemma CommitsOnce(cfg: TaskLife.Config, gs: seq<Global>, who: seq<nat>, i: nat, j: nat, leaseId: string)
    requires Interleaving(cfg, gs, who) && i < j < |who|
    requires who[i] < |gs[i].pcs| && Commits(gs[i].s, gs[i].pcs[who[i]], leaseId)
    requires Fenced(gs, who, j, gs[i].pcs[who[i]].l.taskId)
    ensures who[j] < |gs[j].pcs| && !Commits(gs[j].s, gs[j].pcs[who[j]], leaseId)
  {
    hide Inv, StepUnfences, Section, Spent, TokensHold, TokensUnique, Takes;
    FencedTokens(cfg, gs, who, i, gs[i].pcs[who[i]].l.taskId);
    CommitSpends(cfg, gs[i], who[i], gs[i + 1], leaseId);
    GrowsRuns(cfg, gs, who, i, i + 1);
    SpentRuns(cfg, gs, who, i + 1, j, leaseId);
    InterleavingInv(cfg, gs, who, j);
    assert Step(cfg, gs[j], who[j], gs[j + 1]);
    SpentCommitsNothing(gs[j], who[j], leaseId);
  }

  /** A commit finds the task leased at the lease's own version: Retry too, though it checks no state. */
  lemma CommitsFromLeased(cfg: TaskLife.Config, gs: seq<Global>, who: seq<nat>, n: nat, leaseId: string)
    requires Interleaving(cfg, gs, who) && n < |who|
    requires who[n] < |gs[n].pcs| && Commits(gs[n].s, gs[n].pcs[who[n]], leaseId)
    requires Fenced(gs, who, n, gs[n].pcs[who[n]].l.taskId)
    ensures leaseId in gs[n].s.granted
    ensures var (ts, l) := (gs[n].s.board.tasks, gs[n].s.granted[leaseId]);
      l.taskId in ts && ts[l.taskId].version == l.taskVersion && ts[l.taskId].state == Leased
  {
    hide Inv, StepUnfences, Section, TokensHold, TokensUnique, Takes;
    FencedTokens(cfg, gs, who, n, gs[n].pcs[who[n]].l.taskId);
    CommitSpends(cfg, gs[n], who[n], gs[n + 1], leaseId);
  }

  // ---------- terminal states ----------

  /** The task has moved on, and not out of a terminal state. */
  predicate Later(t: Task, u: Task) {
    Onward(t, u) && (t.state.Terminal() ==> u.state == t.state)
  }

  /** What a section makes of the task is later than what it was. */
  predicate TaskLater(ts: Tasks, us: Tasks, id: string) {
    id in ts && id in us ==> Later(ts[id], us[id])
  }

  lemma TransitionLater(ts: Tasks, k: string, from: TaskState, to: TaskState, expected: int, id: string)
    requires !from.Terminal()
    ensures TaskLater(ts, Transitioned(ts, k, from, to, expected), id)
  {
  }

  lemma RetryLater(ts: Tasks, k: string, next: int, expected: int, id: string)
    requires k == id && CanRetry(ts, k, expected) ==> ts[k].state == Leased
    ensures TaskLater(ts, Retried(ts, k, next, expected), id)
  {
  }

  lemma SameLater(ts: Tasks, id: string)
    ensures TaskLater(ts, ts, id)
  {
  }

  lemma RescheduleLater(ts: Tasks, k: string, next: int, id: string)
    ensures TaskLater(ts, Rescheduled(ts, k, next), id)
  {
  }

  lemma SaveLater(ts: Tasks, t: Task, id: string)
    ensures TaskLater(ts, Saved(ts, t), id)
  {
  }

  lemma DiscardLater(ts: Tasks, k: string, id: string)
    ensures TaskLater(ts, ts - {k}, id)
  {
  }

  /** What a thread knows of the state it moves the task out of. */
  predicate LeavesLive(ts: Tasks, pc: Pc, id: string) {
    && (pc.Applying? && pc.t.id == id && CanRetry(ts, id, pc.t.version) ==> ts[id].state == Leased)
    && (pc.Stopping? ==> !pc.t.state.Terminal())
  }

  lemma StoreLater(cfg: TaskLife.Config, ts: Tasks, pc: Pc, pc': Pc, id: string)
    requires LeavesLive(ts, pc, id)
    ensures TaskLater(ts, TasksAfter(cfg, ts, pc, pc'), id)
  {
    hide TaskLater, Transitioned, Retried, Rescheduled, Saved, WouldRetry, CanRetry;
    SameLater(ts, id);
    match pc
    case Idle =>
      if pc'.Tracking? {
        SaveLater(ts, pc'.t, id);
      }
    case Saving(t) => SaveLater(ts, t, id);
    case Discarding(k) => DiscardLater(ts, k, id);
    case Advancing(_, k, next, _) => RescheduleLater(ts, k, next, id);
    case Popped(_, k) => TransitionLater(ts, k, Ready, Leased, -1, id);
    case PuttingBack(_, t) => TransitionLater(ts, t.id, Leased, Ready, t.version, id);
    case Applying(_, r, t) =>
      RetryLater(ts, t.id, r.finishedAt + cfg.retryDelay, t.version, id);
      TransitionLater(ts, t.id, Leased, Ending(r), t.version, id);
    case Retaking(_, l, t, _) => TransitionLater(ts, l.taskId, Leased, Ready, t.version, id);
    case Marking(_, k, _) => TransitionLater(ts, k, Pending, Ready, -1, id);
    case Prodding(_, t) => TransitionLater(ts, t.id, Pending, Ready, -1, id);
    case Stopping(t) => TransitionLater(ts, t.id, t.state, Canceled, t.version, id);
    case _ =>
  }

  /** A commit or a transition starts from a state that is not terminal. */
  lemma LeavesNoTerminal(cfg: TaskLife.Config, g: Global, i: nat, g': Global, id: string)
    requires Inv(g) && TokensHold(g, id) && Step(cfg, g, i, g') && id in g.s.board.tasks && id in g'.s.board.tasks
    ensures Later(g.s.board.tasks[id], g'.s.board.tasks[id])
  {
    hide OneRenews, StoreOk, Section, TasksAfter, Later;
    SectionEffect(cfg, g.s, g.pcs[i], g'.s, g'.pcs[i]);
    assert Relies(g.s, g.pcs[i]);
    if g.pcs[i].Applying? && g.pcs[i].t.id == id {
      assert Fences(g.s, TokenOf(g.s.granted[g.pcs[i].l.id]));
    }
    StoreLater(cfg, g.s.board.tasks, g.pcs[i], g'.pcs[i], id);
  }

  /** From i to j, no section brings the task back. */
  ghost predicate NotReturned(gs: seq<Global>, who: seq<nat>, i: nat, j: nat, id: string)
    requires i <= j <= |who| < |gs|
  {
    forall k :: i <= k < j ==> !StepReturns(gs[k], who[k], gs[k + 1], id)
  }

  /**
   The task's version never falls and a terminal state is never left, until the
   task is discarded; then it stays gone, unless it is brought back.
   */
  lemma {:induction false} TerminalIsFinal(cfg: TaskLife.Config, gs: seq<Global>, who: seq<nat>, i: nat, j: nat,
      id: string)
    requires Interleaving(cfg, gs, who) && i <= j <= |who|
    requires Fenced(gs, who, i, id) && NotReturned(gs, who, i, j, id)
    requires id in gs[i].s.drawn && id in gs[j].s.board.tasks
    ensures id in gs[i].s.board.tasks && Later(gs[i].s.board.tasks[id], gs[j].s.board.tasks[id])
    decreases j
  {
    hide Inv, Section, StepReturns, TokensHold, TokensUnique;
    if i < j {
      var g, g' := gs[j - 1], gs[j];
      GrowsRuns(cfg, gs, who, i, j - 1);
      assert Step(cfg, g, who[j - 1], g');
      if id !in g.s.board.tasks {
        ReturnedBy(cfg, g, who[j - 1], g', id);
      }
      FencedTokens(cfg, gs, who, j - 1, id);
      LeavesNoTerminal(cfg, g, who[j - 1], g', id);
      TerminalIsFinal(cfg, gs, who, i, j - 1, id);
    }
  }

  lemma ReturnedBy(cfg: TaskLife.Config, g: Global, i: nat, g': Global, id: string)
    requires Step(cfg, g, i, g') && id in g.s.drawn && id !in g.s.board.tasks && id in g'.s.board.tasks
    ensures StepReturns(g, i, g', id)
  {
    hide Section;
    OnlyResurrectionReturns(cfg, g.s, g.pcs[i], g'.s, g'.pcs[i], id);
  }

  // ---------- a task that no batch rollback takes is not brought back ----------

  /** Up to n, no cron update brings back a discarded task. */
  ghost predicate NoneResurrected(gs: seq<Global>, who: seq<nat>, n: nat)
    requires n <= |who| < |gs|
  {
    forall k :: 0 <= k < n ==> !StepResurrects(gs[k], who[k], gs[k + 1])
  }

  /** The task, if it was ever stored, still is. */
  predicate NotGone(s: Shared, id: string) {
    id in s.drawn ==> id in s.board.tasks
  }

  lemma NotGoneKept(cfg: TaskLife.Config, g: Global, i: nat, g': Global, id: string)
    requires Inv(g) && Step(cfg, g, i, g') && g.pcs[i] != Discarding(id) && NotGone(g.s, id)
    ensures NotGone(g'.s, id) && !StepReturns(g, i, g', id)
  {
    hide StoreOk, LeasesOk, OneRenews, Section, TasksAfter, TasksQuiet;
    assert Relies(g.s, g.pcs[i]);
    SectionEffect(cfg, g.s, g.pcs[i], g'.s, g'.pcs[i]);
    if !AddsOrTakes(g.pcs[i], g'.pcs[i]) {
      StoreQuiet(cfg, g.s.board.tasks, g.pcs[i], g'.pcs[i]);
      QuietKeys(g.s.board.tasks, g'.s.board.tasks);
    } else {
      AddedKeys(cfg, g.s.board.tasks, g.pcs[i], g'.pcs[i]);
    }
  }

  /** As long as the task is in no batch that is rolled back, no cron update can find it gone. */
  lemma {:induction false} NoRollbackNoReturn(cfg: TaskLife.Config, gs: seq<Global>, who: seq<nat>, n: nat, id: string)
    requires Interleaving(cfg, gs, who) && n <= |who|
    requires forall k :: 0 <= k < n && who[k] < |gs[k].pcs| ==> gs[k].pcs[who[k]] != Discarding(id)
    ensures NotReturned(gs, who, 0, n, id) && NotGone(gs[n].s, id)
  {
    hide Inv, Section, StepReturns;
    if n > 0 {
      NoRollbackNoReturn(cfg, gs, who, n - 1, id);
      assert Step(cfg, gs[n - 1], who[n - 1], gs[n]);
      InterleavingInv(cfg, gs, who, n - 1);
      NotGoneKept(cfg, gs[n - 1], who[n - 1], gs[n], id);
    }
  }

  /** The task is canceled, or gone. */
  predicate Out(s: Shared, id: string) {
    id in s.drawn && (id in s.board.tasks ==> s.board.tasks[id].state == Canceled)
  }

  /** A cancel of the task that has still to clear the queues has canceled it. */
  ghost predicate CancelsStand(g: Global, id: string) {
    forall i :: 0 <= i < |g.pcs| && Unlists(g.pcs[i]) && g.pcs[i].id == id ==> Out(g.s, id)
  }

  lemma StartsUnlisting(cfg: TaskLife.Config, s: Shared, pc: Pc, s': Shared, pc': Pc)
    requires StoreOk(s) && KeepsMutex(s, pc, s', pc') && Section(cfg, s, pc, s', pc') && Unlists(pc')
    ensures (pc.Stopping? && pc'.id in s'.board.tasks && s'.board.tasks[pc'.id].state == Canceled)
            || (pc.Unqueueing? && pc'.id == pc.id && s'.board.tasks == s.board.tasks)
  {
    hide StoreOk, AssignSection, ResultSection, ReapSection, TickSection, TriggerSection, CancelSection, SaveSection,
      RenewSection, Registers;
    CancelUnlists(s, pc, s', pc');
  }

  lemma CancelUnlists(s: Shared, pc: Pc, s': Shared, pc': Pc)
    requires StoreOk(s) && InCancel(pc) && CancelSection(s, pc, s', pc') && Unlists(pc')
    ensures (pc.Stopping? && pc'.id in s'.board.tasks && s'.board.tasks[pc'.id].state == Canceled)
            || (pc.Unqueueing? && pc'.id == pc.id && s'.board.tasks == s.board.tasks)
  {
  }

  lemma StaysOut(cfg: TaskLife.Config, g: Global, i: nat, g': Global, id: string)
    requires Inv(g) && TokensHold(g, id) && Step(cfg, g, i, g') && !StepReturns(g, i, g', id) && Out(g.s, id)
    ensures Out(g'.s, id)
  {
    hide Inv, Section, TokensHold, StepReturns;
    InvKept(cfg, g, i, g');
    if id in g'.s.board.tasks {
      if id !in g.s.board.tasks {
        ReturnedBy(cfg, g, i, g', id);
      }
      LeavesNoTerminal(cfg, g, i, g', id);
    }
  }

  lemma CancelsStandKept(cfg: TaskLife.Config, g: Global, i: nat, g': Global, id: string)
    requires Inv(g) && TokensHold(g, id) && CancelsStand(g, id) && Step(cfg, g, i, g') && !StepReturns(g, i, g', id)
    ensures CancelsStand(g', id) && !Strips(g, i, id)
  {
    hide StoreOk, LeasesOk, OneRenews, Relies, TokensHold, Section, KeepsMutex, StepReturns;
    InvKept(cfg, g, i, g');
    forall j | 0 <= j < |g'.pcs| && Unlists(g'.pcs[j]) && g'.pcs[j].id == id ensures Out(g'.s, id) {
      if j == i {
        StartsUnlisting(cfg, g.s, g.pcs[i], g'.s, g'.pcs[i]);
        StoredDrawn(g', id);
      }
      if j != i || !g.pcs[i].Stopping? {
        StaysOut(cfg, g, i, g', id);
      }
    }
  }

  lemma StoredDrawn(g: Global, id: string)
    requires Inv(g)
    ensures id in g.s.board.tasks ==> id in g.s.drawn
  {
  }

  lemma {:induction false} CancelsStandRuns(cfg: TaskLife.Config, gs: seq<Global>, who: seq<nat>, n: nat, id: string)
    requires Interleaving(cfg, gs, who) && n <= |who| && NotReturned(gs, who, 0, n, id)
    ensures Fenced(gs, who, n, id) && CancelsStand(gs[n], id) && forall k :: 0 <= k < n ==> !Strips(gs[k], who[k], id)
  {
    hide Inv, Step, StepReturns, TokensHold, TokensUnique, Strips;
    if n > 0 {
      CancelsStandRuns(cfg, gs, who, n - 1, id);
      FencedTokens(cfg, gs, who, n - 1, id);
      CancelsStandKept(cfg, gs[n - 1], who[n - 1], gs[n], id);
    }
  }

  /** A task that is not brought back is not lost when it is ready, and every version it was leased at is fenced. */
  lemma SafeWithoutReturns(cfg: TaskLife.Config, gs: seq<Global>, who: seq<nat>, n: nat, id: string)
    requires Interleaving(cfg, gs, who) && n <= |who| && NotReturned(gs, who, 0, n, id)
    ensures NotLost(gs[n], id) && TokensHold(gs[n], id) && TokensUnique(gs[n], id)
  {
    hide Step, StepReturns, NotLost, TokensHold, TokensUnique, Strips;
    CancelsStandRuns(cfg, gs, who, n, id);
    FencedTokens(cfg, gs, who, n, id);
    ReadyNotLostIff(cfg, gs, who, n, id);
  }
}
