/**
 Exactly when an interleaving keeps what the code does not keep in every one: the lease maps, the retries, the states.
 */
module LockExact {
  import opened Model
  import opened Store
  import opened Leasing
  import opened LockSteps
  import opened LockEffects
  import opened LockLevel
  import opened LockSafety
  import opened LockRuns
  import TaskLife
  import Protocol

  // ---------- states and versions ----------

  /** The task has moved on and not out of a terminal state, and once discarded it stays gone. */
  predicate Continues(s: Shared, s': Shared, id: string) {
    id in s.drawn && id in s'.board.tasks ==>
      id in s.board.tasks && Later(s.board.tasks[id], s'.board.tasks[id])
  }

  lemma StepContinuesIff(cfg: TaskLife.Config, g: Global, i: nat, g': Global, id: string)
    requires Inv(g) && TokensHold(g, id) && Step(cfg, g, i, g')
    ensures Continues(g.s, g'.s, id) <==> !StepReturns(g, i, g', id)
  {
    hide StoreOk, LeasesOk, OneRenews, Section, TokensHold, Later;
    if StepReturns(g, i, g', id) {
      assert Relies(g.s, g.pcs[i]);
      ResurrectionStores(cfg, g, i, g');
    } else if id in g.s.drawn && id in g'.s.board.tasks {
      if id !in g.s.board.tasks {
        ReturnedBy(cfg, g, i, g', id);
      }
      LeavesNoTerminal(cfg, g, i, g', id);
    }
  }

  /** The task does so at every section if and only if none brings it back. */
  lemma {:induction false} ContinuesIff(cfg: TaskLife.Config, gs: seq<Global>, who: seq<nat>, n: nat, id: string)
    requires Interleaving(cfg, gs, who) && n <= |who|
    ensures (forall k :: 0 <= k < n ==> Continues(gs[k].s, gs[k + 1].s, id)) <==> NotReturned(gs, who, 0, n, id)
  {
    hide Inv, Step, Continues, StepReturns, TokensHold, TokensUnique, NotLost;
    if n > 0 {
      ContinuesIff(cfg, gs, who, n - 1, id);
      if NotReturned(gs, who, 0, n - 1, id) {
        InterleavingInv(cfg, gs, who, n - 1);
        SafeWithoutReturns(cfg, gs, who, n - 1, id);
        StepContinuesIff(cfg, gs[n - 1], who[n - 1], gs[n], id);
      }
    }
  }

  // ---------- the lease maps ----------

  /** A lease is granted to a task that already has one recorded. */
  predicate Rebinds(s: Shared, pc: Pc, pc': Pc) {
    pc.Picking? && pc'.Idle? && pc.t.id in s.lm.byTask
  }

  predicate StepRebinds(g: Global, i: nat, g': Global) {
    i < |g.pcs| && i < |g'.pcs| && Rebinds(g.s, g.pcs[i], g'.pcs[i])
  }

  /** A new lease keeps the maps inverse to each other if and only if its task has none recorded. */
  lemma GrantKeepsPairsIff(lm: LeaseMaps, l: Lease)
    requires Protocol.Paired(lm) && l.id !in lm.leases
    ensures Protocol.Paired(WithLease(lm, l)) <==> l.taskId !in lm.byTask
  {
    if l.taskId in lm.byTask {
      var k := lm.byTask[l.taskId];
      assert WithLease(lm, l).leases[k].taskId == l.taskId;
    }
  }

  lemma GrantChanges(cfg: TaskLife.Config, s: Shared, pc: Pc, s': Shared, pc': Pc)
    requires pc.Picking? && AssignSection(cfg.ttl, s, pc, s', pc') && LeasesOk(s) && Protocol.Paired(s.lm)
    ensures Protocol.Paired(s'.lm) <==> !Rebinds(s, pc, pc')
  {
    hide Protocol.Paired, WithLease;
    if pc'.Idle? {
      var l :| s' == Granted(s, l) && l.id !in s.granted
        && l == Lease(l.id, pc.t.id, l.workerId, pc.t.version, pc.now + cfg.ttl);
      GrantKeepsPairsIff(s.lm, l);
    }
  }

  lemma MapsChange(cfg: TaskLife.Config, s: Shared, pc: Pc, s': Shared, pc': Pc)
    requires Section(cfg, s, pc, s', pc') && TouchesMaps(pc) && LeasesOk(s) && Relies(s, pc) && Protocol.Paired(s.lm)
    ensures Protocol.Paired(s'.lm) <==> !Rebinds(s, pc, pc')
  {
    hide Protocol.Paired, Released, Unexpired, Late, ListsLeases, AssignSection, LeasesOk;
    match pc
    case Picking(_, _) => GrantChanges(cfg, s, pc, s', pc');
    case Releasing(l) => Protocol.ReleaseKeepsPairs(s.lm, l.id, "");
    case Reaping(now) => Protocol.ReapKeepsPairs(s.lm, now, "");
    case Comparing(l, _, now) =>
      Protocol.ReleaseKeepsPairs(s.lm, l.id, "");
      Protocol.ExtendKeepsPairs(s.lm, l.id, now + cfg.ttl, "");
  }

  lemma PairsKeptIff(cfg: TaskLife.Config, g: Global, i: nat, g': Global)
    requires Inv(g) && Step(cfg, g, i, g') && Protocol.Paired(g.s.lm)
    ensures Protocol.Paired(g'.s.lm) <==> !StepRebinds(g, i, g')
  {
    hide Section, Protocol.Paired, StoreOk, LeasesOk, OneRenews, Relies, TasksAfter;
    assert Relies(g.s, g.pcs[i]);
    if TouchesMaps(g.pcs[i]) {
      MapsChange(cfg, g.s, g.pcs[i], g'.s, g'.pcs[i]);
    } else {
      SectionEffect(cfg, g.s, g.pcs[i], g'.s, g'.pcs[i]);
    }
  }

  /** leases and byTask stay each other's inverse if and only if every grant finds its task without a recorded lease. */
  lemma {:induction false} PairsIff(cfg: TaskLife.Config, gs: seq<Global>, who: seq<nat>, n: nat)
    requires Interleaving(cfg, gs, who) && n <= |who|
    ensures (forall k :: 0 <= k <= n ==> Protocol.Paired(gs[k].s.lm)) <==>
        (forall k :: 0 <= k < n ==> !StepRebinds(gs[k], who[k], gs[k + 1]))
  {
    hide Inv, Step, StepRebinds, Protocol.Paired;
    if n == 0 {
      StartPaired(|gs[0].pcs|);
    } else {
      PairsIff(cfg, gs, who, n - 1);
      InterleavingInv(cfg, gs, who, n - 1);
      if Protocol.Paired(gs[n - 1].s.lm) {
        PairsKeptIff(cfg, gs[n - 1], who[n - 1], gs[n]);
      }
    }
  }

  lemma StartPaired(threads: nat)
    ensures Protocol.Paired(Start(threads).s.lm)
  {
  }

  // ---------- the retry budget ----------

  /** The section commits a retry of the task. */
  predicate ChargesRetry(s: Shared, pc: Pc, id: string) {
    pc.Applying? && pc.t.id == id && WouldRetry(pc.r, pc.t) && CanRetry(s.board.tasks, id, pc.t.version)
  }

  /** What a cron update adds to the retries left: it writes back the number it read. */
  function Refund(s: Shared, pc: Pc, pc': Pc, id: string): int {
    if pc.Saving? && pc'.Tracking? && pc.t.id == id
      && id in s.board.tasks then pc.t.retriesLeft - s.board.tasks[id].retriesLeft else 0
  }

  function StepCharge(g: Global, i: nat, id: string): nat {
    if i < |g.pcs| && ChargesRetry(g.s, g.pcs[i], id) then 1 else 0
  }

  function StepRefund(g: Global, i: nat, g': Global, id: string): int {
    if i < |g.pcs| && i < |g'.pcs| then Refund(g.s, g.pcs[i], g'.pcs[i], id) else 0
  }

  lemma BudgetMoves(cfg: TaskLife.Config, g: Global, i: nat, g': Global, id: string)
    requires StoreOk(g.s) && Step(cfg, g, i, g') && id in g.s.board.tasks && id in g'.s.board.tasks
    ensures g'.s.board.tasks[id].retriesLeft
        == g.s.board.tasks[id].retriesLeft - StepCharge(g, i, id) + StepRefund(g, i, g', id)
    ensures StepCharge(g, i, id) == 1 ==> g.s.board.tasks[id].retriesLeft > 0 && StepRefund(g, i, g', id) == 0
  {
    hide AssignSection, ResultSection, ReapSection, TickSection, TriggerSection, CancelSection, SaveSection,
      RenewSection, Begins;
    SectionEffect(cfg, g.s, g.pcs[i], g'.s, g'.pcs[i]);
  }

  /** The retries of the task committed by the sections from i to j. */
  function Charged(gs: seq<Global>, who: seq<nat>, i: nat, j: nat, id: string): nat
    requires i <= j <= |who| < |gs|
    decreases j
  {
    if i == j then 0 else Charged(gs, who, i, j - 1, id) + StepCharge(gs[j - 1], who[j - 1], id)
  }

  function Refunded(gs: seq<Global>, who: seq<nat>, i: nat, j: nat, id: string): int
    requires i <= j <= |who| < |gs|
    decreases j
  {
    if i == j then 0 else Refunded(gs, who, i, j - 1, id) + StepRefund(gs[j - 1], who[j - 1], gs[j], id)
  }

  function RetriesLeft(g: Global, id: string): int {
    if id in g.s.board.tasks then g.s.board.tasks[id].retriesLeft else 0
  }

  /** From i to j the task is stored. */
  ghost predicate StoredThroughout(gs: seq<Global>, i: nat, j: nat, id: string)
    requires i <= j < |gs|
  {
    forall k :: i <= k <= j ==> id in gs[k].s.board.tasks
  }

  /** Retries left are used up by committed retries and handed out again by cron updates, and by nothing else. */
  lemma {:induction false} BudgetRuns(cfg: TaskLife.Config, gs: seq<Global>, who: seq<nat>, i: nat, j: nat, id: string)
    requires Interleaving(cfg, gs, who) && i <= j <= |who| && StoredThroughout(gs, i, j, id)
    ensures RetriesLeft(gs[j], id) + Charged(gs, who, i, j, id) == RetriesLeft(gs[i], id) + Refunded(gs, who, i, j, id)
    decreases j
  {
    hide Inv, Step, StepCharge, StepRefund, StoreOk;
    if i < j {
      BudgetRuns(cfg, gs, who, i, j - 1, id);
      InterleavingInv(cfg, gs, who, j - 1);
      InvHas(gs[j - 1]);
      BudgetMoves(cfg, gs[j - 1], who[j - 1], gs[j], id);
    }
  }

  /** No section up to j hands out a retry of the task again. */
  ghost predicate NoneRefunded(gs: seq<Global>, who: seq<nat>, i: nat, j: nat, id: string)
    requires i <= j <= |who| < |gs|
  {
    forall k :: i <= k < j ==> StepRefund(gs[k], who[k], gs[k + 1], id) == 0
  }

  lemma {:induction false} RefundsAddUp(gs: seq<Global>, who: seq<nat>, i: nat, j: nat, id: string)
    requires i <= j <= |who| < |gs|
    ensures (forall k :: i <= k <= j ==> Refunded(gs, who, i, k, id) == 0) <==> NoneRefunded(gs, who, i, j, id)
    decreases j
  {
    hide StepRefund;
    if i < j {
      RefundsAddUp(gs, who, i, j - 1, id);
      assert Refunded(gs, who, i, j, id)
        == Refunded(gs, who, i, j - 1, id) + StepRefund(gs[j - 1], who[j - 1], gs[j], id);
    }
  }

  /** The retries left and the retries committed since i add up to the retries left at i. */
  predicate Balanced(gs: seq<Global>, who: seq<nat>, i: nat, k: nat, id: string)
    requires i <= k <= |who| < |gs|
  {
    RetriesLeft(gs[k], id) + Charged(gs, who, i, k, id) == RetriesLeft(gs[i], id)
  }

  /** They do so throughout if and only if no cron update writes back an outdated count. */
  lemma BudgetKeptIff(cfg: TaskLife.Config, gs: seq<Global>, who: seq<nat>, i: nat, j: nat, id: string)
    requires Interleaving(cfg, gs, who) && i <= j <= |who| && StoredThroughout(gs, i, j, id)
    ensures (forall k :: i <= k <= j ==> Balanced(gs, who, i, k, id)) <==> NoneRefunded(gs, who, i, j, id)
  {
    hide Step, Balanced, Refunded, NoneRefunded;
    RefundsAddUp(gs, who, i, j, id);
    if NoneRefunded(gs, who, i, j, id) {
      forall k | i <= k <= j ensures Balanced(gs, who, i, k, id) {
        BalancedIff(cfg, gs, who, i, k, id);
      }
    }
    if forall k :: i <= k <= j ==> Balanced(gs, who, i, k, id) {
      forall k | i <= k <= j ensures Refunded(gs, who, i, k, id) == 0 {
        BalancedIff(cfg, gs, who, i, k, id);
      }
    }
  }

  lemma BalancedIff(cfg: TaskLife.Config, gs: seq<Global>, who: seq<nat>, i: nat, k: nat, id: string)
    requires Interleaving(cfg, gs, who) && i <= k <= |who| && StoredThroughout(gs, i, k, id)
    ensures Balanced(gs, who, i, k, id) <==> Refunded(gs, who, i, k, id) == 0
  {
    hide Step, RetriesLeft, Charged, Refunded;
    BudgetRuns(cfg, gs, who, i, k, id);
  }

  /** Then the task is retried at most as often as it had retries left. */
  lemma {:induction false} RetriesBounded(cfg: TaskLife.Config, gs: seq<Global>, who: seq<nat>, i: nat, j: nat,
      id: string)
    requires Interleaving(cfg, gs, who) && i <= j <= |who| && StoredThroughout(gs, i, j, id)
    requires NoneRefunded(gs, who, i, j, id) && RetriesLeft(gs[i], id) >= 0
    ensures Charged(gs, who, i, j, id) <= RetriesLeft(gs[i], id)
    decreases j
  {
    hide Step, StepCharge, Refunded, RetriesLeft;
    if i < j {
      RetriesBounded(cfg, gs, who, i, j - 1, id);
      RefundsAddUp(gs, who, i, j, id);
      BudgetRuns(cfg, gs, who, i, j - 1, id);
      ChargeNeedsRetries(cfg, gs, who, j - 1, id);
    }
  }

  lemma ChargeNeedsRetries(cfg: TaskLife.Config, gs: seq<Global>, who: seq<nat>, k: nat, id: string)
    requires Interleaving(cfg, gs, who) && k < |who| && id in gs[k].s.board.tasks && id in gs[k + 1].s.board.tasks
    ensures StepCharge(gs[k], who[k], id) == 0 || (StepCharge(gs[k], who[k], id) == 1 && RetriesLeft(gs[k], id) > 0)
  {
    hide Inv, Step, StepRefund, StepCharge, StoreOk;
    InterleavingInv(cfg, gs, who, k);
    InvHas(gs[k]);
    ChargeIsOne(gs[k], who[k], id);
    BudgetMoves(cfg, gs[k], who[k], gs[k + 1], id);
  }

  lemma ChargeIsOne(g: Global, i: nat, id: string)
    ensures StepCharge(g, i, id) == 0 || StepCharge(g, i, id) == 1
  {
  }
}
