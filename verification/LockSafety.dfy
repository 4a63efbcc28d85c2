/**
 One section at a time: the shared invariant, and exactly when a section leaves
 every leased version the mark of a leased task and every ready task in hand.
 */
module LockSafety {
  import opened Model
  import opened Queues
  import opened Store
  import opened Dispatch
  import opened Leasing
  import opened LockSteps
  import opened LockLevel
  import TaskLife
  import Protocol

  // ---------- the invariant ----------

  ghost predicate OneRenews(g: Global) {
    forall i, j :: 0 <= i < j < |g.pcs| ==> !(g.pcs[i].Comparing? && g.pcs[j].Comparing?)
  }

  ghost predicate Inv(g: Global) {
    && StoreOk(g.s) && LeasesOk(g.s)
    && (forall i :: 0 <= i < |g.pcs| ==> Relies(g.s, g.pcs[i]))
    && OneRenews(g)
  }

  lemma RenewerKept(g: Global, i: nat, g': Global)
    requires i < |g.pcs| == |g'.pcs| && g'.pcs == g.pcs[i := g'.pcs[i]] && OneRenews(g)
    requires forall j :: 0 <= j < |g.pcs| ==> Relies(g.s, g.pcs[j])
    requires KeepsMutex(g.s, g.pcs[i], g'.s, g'.pcs[i])
    ensures OneRenews(g')
  {
    forall j | 0 <= j < |g.pcs| && j != i && g'.pcs[i].Comparing? ensures !g'.pcs[j].Comparing? {
      assert Relies(g.s, g.pcs[j]);
    }
  }

  lemma OthersRely(g: Global, i: nat, g': Global, j: nat)
    requires i < |g.pcs| == |g'.pcs| && j < |g.pcs| && i != j && OneRenews(g) && Guarantee(g.s, g'.s)
    requires Relies(g.s, g.pcs[j]) && KeepsMutex(g.s, g.pcs[i], g'.s, g'.pcs[i])
    ensures Relies(g'.s, g.pcs[j])
  {
    ReliesIsStable(g.s, g'.s, g.pcs[j]);
  }

  /** Every section of every thread keeps the invariant, and its guarantee to the others. */
  lemma InvKept(cfg: TaskLife.Config, g: Global, i: nat, g': Global)
    requires Inv(g) && Step(cfg, g, i, g')
    ensures Inv(g') && Guarantee(g.s, g'.s)
    ensures KeepsMutex(g.s, g.pcs[i], g'.s, g'.pcs[i])
    ensures g'.s.granted == g.s.granted || exists l :: Grants(g.s, g.pcs[i], g'.s, l)
  {
    hide StoreOk, LeasesOk, Section, OneRenews, Relies, Guarantee, KeepsMutex, Grants;
    var pc, pc' := g.pcs[i], g'.pcs[i];
    assert Relies(g.s, pc);
    SectionKeeps(cfg, g.s, pc, g'.s, pc');
    SectionRelies(cfg, g.s, pc, g'.s, pc');
    forall j | 0 <= j < |g'.pcs| ensures Relies(g'.s, g'.pcs[j]) {
      if j != i {
        OthersRely(g, i, g', j);
      }
    }
    RenewerKept(g, i, g');
  }

  // ---------- tokens ----------

  /** The task and version that the thread has leased and not yet handed out. */
  function InHand(pc: Pc): Option<(string, int)> {
    if pc.Picking? || pc.PuttingBack? then Some((pc.t.id, pc.t.version)) else None
  }

  function TokenOf(l: Lease): (string, int) {
    (l.taskId, l.taskVersion)
  }

  /** While the task is at this version it is leased. */
  predicate Fences(s: Shared, token: (string, int)) {
    token.0 in s.board.tasks ==>
      && token.1 <= s.board.tasks[token.0].version
      && (token.1 == s.board.tasks[token.0].version ==> s.board.tasks[token.0].state == Leased)
  }

  /** Every version of the task that a lease was granted on, or that a thread has in hand, marks a leased task. */
  ghost predicate TokensHold(g: Global, id: string) {
    && (forall k :: k in g.s.granted && g.s.granted[k].taskId == id ==> Fences(g.s, TokenOf(g.s.granted[k])))
    && (forall i :: 0 <= i < |g.pcs| && HasInHand(g.pcs[i], id) ==> Fences(g.s, InHand(g.pcs[i]).value))
  }

  predicate HasInHand(pc: Pc, id: string) {
    InHand(pc).Some? && InHand(pc).value.0 == id
  }

  /** No two leases, no lease and a thread, and no two threads have one version of the task. */
  ghost predicate TokensUnique(g: Global, id: string) {
    && (forall a, b :: a in g.s.granted && b in g.s.granted && a != b && g.s.granted[a].taskId == id ==>
          TokenOf(g.s.granted[a]) != TokenOf(g.s.granted[b]))
    && (forall i, k :: 0 <= i < |g.pcs| && k in g.s.granted && HasInHand(g.pcs[i], id) ==>
          InHand(g.pcs[i]) != Some(TokenOf(g.s.granted[k])))
    && (forall i, j :: 0 <= i < j < |g.pcs| && HasInHand(g.pcs[i], id) ==> InHand(g.pcs[i]) != InHand(g.pcs[j]))
  }

  /** No lease was ever granted on the task, and no thread is about to grant one. */
  ghost predicate NeverLeased(g: Global, id: string) {
    && (forall k :: k in g.s.granted ==> g.s.granted[k].taskId != id)
    && (forall i :: 0 <= i < |g.pcs| ==> !HasInHand(g.pcs[i], id))
  }

  /** The section brings back the task. */
  predicate StepReturns(g: Global, i: nat, g': Global, id: string) {
    StepResurrects(g, i, g') && g.pcs[i].t.id == id
  }

  /** The section brings back the task, which has been leased. */
  ghost predicate StepUnfences(g: Global, i: nat, g': Global, id: string) {
    StepReturns(g, i, g', id) && !NeverLeased(g, id)
  }

  lemma FencesLast(s: Shared, s': Shared, token: (string, int))
    requires Guarantee(s, s') && Fences(s, token) && (token.0 in s'.board.tasks ==> token.0 in s.board.tasks)
    ensures Fences(s', token)
  {
  }

  /** The thread comes by its token by leasing the task, at the version that follows the one before. */
  predicate TakesToken(s: Shared, pc: Pc, s': Shared, pc': Pc) {
    && pc.Popped? && pc.id in s.board.tasks && InHand(pc') == Some((pc.id, s.board.tasks[pc.id].version + 1))
    && s.board.tasks[pc.id].state == Ready && pc.id in s'.board.tasks
    && s'.board.tasks[pc.id].state == Leased && s'.board.tasks[pc.id].version == s.board.tasks[pc.id].version + 1
  }

  lemma TakenFences(s: Shared, pc: Pc, s': Shared, pc': Pc)
    requires TakesToken(s, pc, s', pc')
    ensures Fences(s', InHand(pc').value)
  {
  }

  lemma TokensMove(cfg: TaskLife.Config, s: Shared, pc: Pc, s': Shared, pc': Pc)
    requires StoreOk(s) && KeepsMutex(s, pc, s', pc') && Section(cfg, s, pc, s', pc')
    ensures InHand(pc') == None || TakesToken(s, pc, s', pc') || (InHand(pc') == InHand(pc) && s'.granted == s.granted)
  {
    hide ResultSection, ReapSection, TickSection, TriggerSection, CancelSection, SaveSection, RenewSection, Foremost,
      Begins, Registers;
  }

  /** A lease that is granted takes over its thread's token. */
  lemma GrantTokens(g: Global, i: nat, g': Global, k: string)
    requires i < |g.pcs| && k in g'.s.granted
    requires g'.s.granted == g.s.granted || exists l :: Grants(g.s, g.pcs[i], g'.s, l)
    ensures (k in g.s.granted && g'.s.granted[k] == g.s.granted[k])
        || InHand(g.pcs[i]) == Some(TokenOf(g'.s.granted[k]))
  {
    hide WithLease;
  }

  /** Nothing but such a section makes a token of the task invalid. */
  lemma TokensStay(cfg: TaskLife.Config, g: Global, i: nat, g': Global, id: string)
    requires Inv(g) && Step(cfg, g, i, g') && TokensHold(g, id) && !StepUnfences(g, i, g', id)
    ensures TokensHold(g', id)
  {
    hide StoreOk, LeasesOk, OneRenews, Section, Guarantee, KeepsMutex, Grants, Relies, Fences;
    InvKept(cfg, g, i, g');
    TokensMove(cfg, g.s, g.pcs[i], g'.s, g'.pcs[i]);
    forall k | k in g'.s.granted && g'.s.granted[k].taskId == id ensures Fences(g'.s, TokenOf(g'.s.granted[k])) {
      GrantTokens(g, i, g', k);
      TokenStays(cfg, g, i, g', TokenOf(g'.s.granted[k]));
    }
    forall j | 0 <= j < |g'.pcs| && HasInHand(g'.pcs[j], id) ensures Fences(g'.s, InHand(g'.pcs[j]).value) {
      if j != i || !TakesToken(g.s, g.pcs[i], g'.s, g'.pcs[i]) {
        assert InHand(g'.pcs[j]) == InHand(g.pcs[j]);
        TokenStays(cfg, g, i, g', InHand(g.pcs[j]).value);
      } else {
        TakenFences(g.s, g.pcs[i], g'.s, g'.pcs[i]);
      }
    }
  }

  /** Some lease was granted on the version, or some thread has it in hand. */
  ghost predicate IsToken(g: Global, token: (string, int)) {
    || (exists k :: k in g.s.granted && TokenOf(g.s.granted[k]) == token)
    || (exists j :: 0 <= j < |g.pcs| && InHand(g.pcs[j]) == Some(token))
  }

  lemma TokenStays(cfg: TaskLife.Config, g: Global, i: nat, g': Global, token: (string, int))
    requires Inv(g) && Step(cfg, g, i, g') && Guarantee(g.s, g'.s)
    requires IsToken(g, token) && TokensHold(g, token.0) && !StepUnfences(g, i, g', token.0)
    ensures Fences(g'.s, token)
  {
    hide StoreOk, LeasesOk, OneRenews, Section, Guarantee, Relies, Fences;
    TokenDrawn(g, token);
    if token.0 in g'.s.board.tasks && token.0 !in g.s.board.tasks {
      OnlyResurrectionReturns(cfg, g.s, g.pcs[i], g'.s, g'.pcs[i], token.0);
    } else {
      FencesLast(g.s, g'.s, token);
    }
  }

  lemma TokenDrawn(g: Global, token: (string, int))
    requires Inv(g) && IsToken(g, token)
    ensures token.0 in g.s.drawn && token.1 >= 2
  {
    hide StoreOk, OneRenews;
    if j :| 0 <= j < |g.pcs| && InHand(g.pcs[j]) == Some(token) {
      assert Relies(g.s, g.pcs[j]);
    }
  }

  lemma ResurrectionStores(cfg: TaskLife.Config, g: Global, i: nat, g': Global)
    requires Step(cfg, g, i, g') && StepResurrects(g, i, g')
    ensures var t := g.pcs[i].t;
      g'.s == Stored(g.s, t) && g'.s.board.tasks == g.s.board.tasks[t.id := t.(version := 1)]
        && g'.pcs[i] == Tracking(t)
    ensures |g'.pcs| == |g.pcs| && forall j :: 0 <= j < |g.pcs| && j != i ==> g'.pcs[j] == g.pcs[j]
  {
    hide AssignSection, ResultSection, ReapSection, TickSection, TriggerSection, CancelSection, RenewSection,
      Registers, Begins, SavedNames, Accepted;
  }

  /** A task that is brought back starts again at version 1, below every version it was leased at. */
  lemma UnfencedFails(cfg: TaskLife.Config, g: Global, i: nat, g': Global, id: string)
    requires Inv(g) && Step(cfg, g, i, g') && StepUnfences(g, i, g', id)
    ensures !TokensHold(g', id)
  {
    hide Step, StoreOk, OneRenews;
    ResurrectionStores(cfg, g, i, g');
    if k :| k in g.s.granted && g.s.granted[k].taskId == id {
      assert !Fences(g'.s, TokenOf(g'.s.granted[k]));
    } else {
      var j :| 0 <= j < |g.pcs| && HasInHand(g.pcs[j], id);
      assert Relies(g.s, g.pcs[j]) && g'.pcs[j] == g.pcs[j];
      assert !Fences(g'.s, InHand(g'.pcs[j]).value);
    }
  }

  /** A section leaves every leased version the mark of a leased task unless it brings back a task that was leased. */
  lemma TokensHoldIff(cfg: TaskLife.Config, g: Global, i: nat, g': Global, id: string)
    requires Inv(g) && Step(cfg, g, i, g') && TokensHold(g, id)
    ensures TokensHold(g', id) <==> !StepUnfences(g, i, g', id)
  {
    hide Inv, Step, TokensHold, StepUnfences;
    if StepUnfences(g, i, g', id) {
      UnfencedFails(cfg, g, i, g', id);
    } else {
      TokensStay(cfg, g, i, g', id);
    }
  }

  lemma GrantedKeep(g: Global, i: nat, g': Global, id: string)
    requires i < |g.pcs| == |g'.pcs| && TokensUnique(g, id)
    requires g'.s.granted == g.s.granted || exists l :: Grants(g.s, g.pcs[i], g'.s, l)
    ensures forall a, b :: a in g'.s.granted && b in g'.s.granted && a != b && g'.s.granted[a].taskId == id ==>
                             TokenOf(g'.s.granted[a]) != TokenOf(g'.s.granted[b])
  {
    hide WithLease;
    if l :| Grants(g.s, g.pcs[i], g'.s, l) {
      assert InHand(g.pcs[i]) == Some(TokenOf(l));
    }
  }

  /** A token that a thread takes is new: every other one of the task is of an earlier version. */
  lemma TakenIsNew(g: Global, token: (string, int))
    requires TokensHold(g, token.0)
    requires token.0 in g.s.board.tasks && token.1 == g.s.board.tasks[token.0].version + 1
    ensures !IsToken(g, token)
  {
    forall j | 0 <= j < |g.pcs| ensures InHand(g.pcs[j]) != Some(token) {
      if HasInHand(g.pcs[j], token.0) {
        assert Fences(g.s, InHand(g.pcs[j]).value);
      }
    }
  }

  /** As long as every leased version marks a leased task, no two leases, and no lease and no thread, share one. */
  lemma TokensStayUnique(cfg: TaskLife.Config, g: Global, i: nat, g': Global, id: string)
    requires Inv(g) && Step(cfg, g, i, g') && TokensHold(g, id) && TokensUnique(g, id)
    ensures TokensUnique(g', id)
  {
    hide StoreOk, LeasesOk, Section, OneRenews, Relies, Guarantee, KeepsMutex, TokensHold;
    InvKept(cfg, g, i, g');
    TokensMove(cfg, g.s, g.pcs[i], g'.s, g'.pcs[i]);
    GrantedKeep(g, i, g', id);
    if TakesToken(g.s, g.pcs[i], g'.s, g'.pcs[i]) && HasInHand(g'.pcs[i], id) {
      TakenIsNew(g, InHand(g'.pcs[i]).value);
    }
  }

  // ---------- ready tasks ----------

  /**
   The thread is between taking the task out of a queue, or making it ready, and its next look at the task or its push.
   */
  ghost predicate Holding(pc: Pc, id: string) {
    match pc
    case Popped(_, k) => k == id
    case Pushing(_, t, rest) => t.id == id || Holding(rest, id)
    case Delaying(_, t) => t.id == id
    case Promoting(_, entries) => id in entries
    case _ => false
  }

  predicate Queued(s: Shared, id: string) {
    id in s.board.ready || id in s.board.delayed
  }

  predicate IsReady(s: Shared, id: string) {
    id in s.board.tasks && s.board.tasks[id].state == Ready
  }

  ghost predicate InHands(g: Global, id: string) {
    exists i :: 0 <= i < |g.pcs| && Holding(g.pcs[i], id)
  }

  ghost predicate NotLost(g: Global, id: string) {
    IsReady(g.s, id) ==> Queued(g.s, id) || InHands(g, id)
  }

  /** A ready copy of the discarded task is put back while no queue and no thread has the task. */
  ghost predicate Puts(g: Global, i: nat, g': Global, id: string) {
    StepReturns(g, i, g', id) && g.pcs[i].t.state == Ready && !Queued(g.s, id) && !InHands(g, id)
  }

  /** A cancel takes the only entry of the task, which is ready by then and which no thread holds. */
  ghost predicate Strips(g: Global, i: nat, id: string) {
    i < |g.pcs| && IsReady(g.s, id) && !InHands(g, id) &&
    match g.pcs[i]
    case Unqueueing(k) => k == id && id in g.s.board.ready && id !in g.s.board.delayed
    case Undelaying(k) => k == id && id in g.s.board.delayed && id !in g.s.board.ready
    case _ => false
  }

  predicate Unlists(pc: Pc) {
    pc.Unqueueing? || pc.Undelaying?
  }

  // ---------- a section does not lose a ready task ----------

  /**
   A task that is ready after the section is queued, or in the thread's hands, or was ready and with neither before.
   */
  ghost predicate Accounts(s: Shared, pc: Pc, s': Shared, pc': Pc) {
    forall id :: IsReady(s', id) ==>
      Queued(s', id) || Holding(pc', id) || (IsReady(s, id) && !Queued(s, id) && !Holding(pc, id))
  }

  lemma AssignAccounts(cfg: TaskLife.Config, s: Shared, pc: Pc, s': Shared, pc': Pc)
    requires InAssign(pc) && AssignSection(cfg.ttl, s, pc, s', pc')
    ensures Accounts(s, pc, s', pc')
  {
    hide Foremost;
  }

  lemma ResultAccounts(cfg: TaskLife.Config, s: Shared, pc: Pc, s': Shared, pc': Pc)
    requires StoreOk(s) && InResult(pc) && ResultSection(cfg.retryDelay, s, pc, s', pc')
    ensures Accounts(s, pc, s', pc')
  {
    if pc.Applying? {
      hide ResultSection, Accounts, StoreOk;
      ApplyingAccounts(cfg, s, pc, s', pc');
    } else {
      hide CurrentLease, Released, Retried, Transitioned;
    }
  }

  lemma RetryChanges(ts: Tasks, id: string, next: int, expected: int)
    ensures forall k :: k in Retried(ts, id, next, expected) ==>
              k in ts && ((k == id && CanRetry(ts, id, expected)) || Retried(ts, id, next, expected)[k] == ts[k])
    ensures CanRetry(ts, id, expected) ==> Retried(ts, id, next, expected)[id].id == ts[id].id
  {
  }

  lemma TransitionChanges(ts: Tasks, id: string, to: TaskState, expected: int)
    requires to != Ready
    ensures var us := Transitioned(ts, id, Leased, to, expected);
      forall k :: k in us && us[k].state == Ready ==> k in ts && us[k] == ts[k]
  {
  }

  lemma ApplyingAccounts(cfg: TaskLife.Config, s: Shared, pc: Pc, s': Shared, pc': Pc)
    requires StoreOk(s) && pc.Applying? && ResultSection(cfg.retryDelay, s, pc, s', pc')
    ensures Accounts(s, pc, s', pc')
  {
    hide StoreOk, Accounts, ResultSection;
    if WouldRetry(pc.r, pc.t) {
      RetryAccounts(cfg, s, pc, s', pc');
    } else {
      EndingAccounts(cfg, s, pc, s', pc');
    }
  }

  lemma RetryAccounts(cfg: TaskLife.Config, s: Shared, pc: Pc, s': Shared, pc': Pc)
    requires StoreOk(s) && pc.Applying? && WouldRetry(pc.r, pc.t) && ResultSection(cfg.retryDelay, s, pc, s', pc')
    ensures Accounts(s, pc, s', pc')
  {
    hide Retried, CanRetry;
    RetryChanges(s.board.tasks, pc.t.id, pc.r.finishedAt + cfg.retryDelay, pc.t.version);
  }

  lemma EndingAccounts(cfg: TaskLife.Config, s: Shared, pc: Pc, s': Shared, pc': Pc)
    requires pc.Applying? && !WouldRetry(pc.r, pc.t) && ResultSection(cfg.retryDelay, s, pc, s', pc')
    ensures Accounts(s, pc, s', pc')
  {
    hide Transitioned;
    TransitionChanges(s.board.tasks, pc.t.id, Ending(pc.r), pc.t.version);
  }

  lemma ReapAccounts(s: Shared, pc: Pc, s': Shared, pc': Pc)
    requires StoreOk(s) && InReap(pc) && ReapSection(s, pc, s', pc')
    ensures Accounts(s, pc, s', pc')
  {
    hide ReapSection, Accounts, StoreOk;
    if pc.Retaking? {
      RetakingAccounts(s, pc, s', pc');
    } else {
      ReapingAccounts(s, pc, s', pc');
    }
  }

  lemma RetakingAccounts(s: Shared, pc: Pc, s': Shared, pc': Pc)
    requires StoreOk(s) && pc.Retaking? && ReapSection(s, pc, s', pc')
    ensures Accounts(s, pc, s', pc')
  {
  }

  lemma ReapingAccounts(s: Shared, pc: Pc, s': Shared, pc': Pc)
    requires InReap(pc) && !pc.Retaking? && ReapSection(s, pc, s', pc')
    ensures Accounts(s, pc, s', pc')
  {
    hide ListsLeases, Unexpired, Holds;
  }

  lemma PromotingAccounts(s: Shared, pc: Pc, s': Shared, pc': Pc)
    requires StoreOk(s) && pc.Promoting? && TickSection(s, pc, s', pc')
    ensures Accounts(s, pc, s', pc')
  {
    if pc.entries != [] {
      var rest := Promoting(pc.now, pc.entries[1..]);
      assert pc.entries == [pc.entries[0]] + pc.entries[1..];
      assert forall id :: Holding(rest, id) <==> id in pc.entries[1..];
    }
  }

  lemma FiringAccounts(s: Shared, pc: Pc, s': Shared, pc': Pc)
    requires pc.Firing? && TickSection(s, pc, s', pc')
    ensures Accounts(s, pc, s', pc')
  {
    hide Distinct;
    assert forall id :: id in s.board.delayed ==>
             id in After(s.board.delayed, pc.now) || id in DueDelayed(s.board.delayed, pc.now);
  }

  lemma TickAccounts(s: Shared, pc: Pc, s': Shared, pc': Pc)
    requires StoreOk(s) && InTick(pc) && TickSection(s, pc, s', pc')
    ensures Accounts(s, pc, s', pc')
  {
    hide TickSection, Accounts, StoreOk;
    if pc.Promoting? {
      PromotingAccounts(s, pc, s', pc');
    } else if pc.Firing? {
      FiringAccounts(s, pc, s', pc');
    } else {
      StoringAccounts(s, pc, s', pc');
    }
  }

  lemma StoringAccounts(s: Shared, pc: Pc, s': Shared, pc': Pc)
    requires StoreOk(s) && InTick(pc) && !pc.Promoting? && !pc.Firing? && TickSection(s, pc, s', pc')
    ensures Accounts(s, pc, s', pc')
  {
    hide TickSection, Accounts, StoreOk;
    if pc.Marking? {
      MarkingAccounts(s, pc, s', pc');
    } else {
      IndexingAccounts(s, pc, s', pc');
    }
  }

  lemma IndexingAccounts(s: Shared, pc: Pc, s': Shared, pc': Pc)
    requires pc.Ticking? || pc.Forgetting? || pc.Advancing? || pc.Indexing?
    requires TickSection(s, pc, s', pc')
    ensures Accounts(s, pc, s', pc')
  {
    hide ListsIds, DueIds;
    assert s'.board.ready == s.board.ready && s'.board.delayed == s.board.delayed;
    assert forall id :: IsReady(s', id) ==> IsReady(s, id);
  }

  lemma MarkingAccounts(s: Shared, pc: Pc, s': Shared, pc': Pc)
    requires StoreOk(s) && pc.Marking? && TickSection(s, pc, s', pc')
    ensures Accounts(s, pc, s', pc')
  {
    hide Recurs, NextRun;
    if !CanMove(s.board.tasks, pc.id, Pending, -1) {
      assert s' == s;
    }
  }

  lemma TriggerAccounts(s: Shared, pc: Pc, s': Shared, pc': Pc)
    requires StoreOk(s) && InTrigger(pc) && TriggerSection(s, pc, s', pc')
    ensures Accounts(s, pc, s', pc')
  {
  }

  lemma CancelAccounts(s: Shared, pc: Pc, s': Shared, pc': Pc)
    requires InCancel(pc) && !Unlists(pc) && CancelSection(s, pc, s', pc')
    ensures Accounts(s, pc, s', pc')
  {
  }

  lemma SaveAccounts(s: Shared, pc: Pc, s': Shared, pc': Pc)
    requires InSave(pc) && SaveSection(s, pc, s', pc') && !Resurrects(s, pc, pc')
    ensures Accounts(s, pc, s', pc')
  {
    hide Protocol.Rewritten;
  }

  lemma RenewAccounts(cfg: TaskLife.Config, s: Shared, pc: Pc, s': Shared, pc': Pc)
    requires InRenew(pc) && RenewSection(cfg.ttl, s, pc, s', pc')
    ensures Accounts(s, pc, s', pc')
  {
  }

  lemma RestAccounts(cfg: TaskLife.Config, s: Shared, pc: Pc, s': Shared, pc': Pc)
    requires pc.Idle? || pc.Pushing?
    requires Section(cfg, s, pc, s', pc')
    ensures Accounts(s, pc, s', pc')
  {
  }

  lemma SectionAccounts(cfg: TaskLife.Config, s: Shared, pc: Pc, s': Shared, pc': Pc)
    requires StoreOk(s) && Section(cfg, s, pc, s', pc') && !Resurrects(s, pc, pc') && !Unlists(pc)
    ensures Accounts(s, pc, s', pc')
  {
    hide StoreOk, AssignSection, ResultSection, ReapSection, TickSection, TriggerSection, CancelSection, SaveSection,
      RenewSection, Registers, Begins, Accounts, Resurrects;
    if pc.Idle? || pc.Pushing? {
      RestAccounts(cfg, s, pc, s', pc');
    } else if InAssign(pc) {
      AssignAccounts(cfg, s, pc, s', pc');
    } else if InResult(pc) {
      ResultAccounts(cfg, s, pc, s', pc');
    } else if InReap(pc) {
      ReapAccounts(s, pc, s', pc');
    } else if InTick(pc) {
      TickAccounts(s, pc, s', pc');
    } else if InTrigger(pc) {
      TriggerAccounts(s, pc, s', pc');
    } else if InCancel(pc) {
      CancelAccounts(s, pc, s', pc');
    } else if InSave(pc) {
      SaveAccounts(s, pc, s', pc');
    } else {
      RenewAccounts(cfg, s, pc, s', pc');
    }
  }

  lemma OthersKeep(cfg: TaskLife.Config, g: Global, i: nat, g': Global, id: string)
    requires StoreOk(g.s) && Step(cfg, g, i, g') && NotLost(g, id)
    requires !StepResurrects(g, i, g') && !Unlists(g.pcs[i])
    ensures NotLost(g', id)
  {
    hide StoreOk, Section, Queued, IsReady, Holding;
    SectionAccounts(cfg, g.s, g.pcs[i], g'.s, g'.pcs[i]);
    if IsReady(g'.s, id) && !Queued(g'.s, id) && !Holding(g'.pcs[i], id) {
      var j :| 0 <= j < |g.pcs| && Holding(g.pcs[j], id);
      assert g'.pcs[j] == g.pcs[j];
    }
  }

  /** The thread holds nothing before or after. */
  lemma SameHands(g: Global, i: nat, g': Global)
    requires i < |g.pcs| == |g'.pcs| && forall j :: 0 <= j < |g.pcs| && j != i ==> g'.pcs[j] == g.pcs[j]
    requires forall id :: !Holding(g.pcs[i], id) && !Holding(g'.pcs[i], id)
    ensures forall id :: InHands(g', id) <==> InHands(g, id)
  {
    assert forall j, id :: 0 <= j < |g.pcs| ==> (Holding(g'.pcs[j], id) <==> Holding(g.pcs[j], id));
    forall id ensures InHands(g', id) <==> InHands(g, id) {
    }
  }

  lemma ResurrectionLosesIff(cfg: TaskLife.Config, g: Global, i: nat, g': Global, id: string)
    requires Step(cfg, g, i, g') && StepResurrects(g, i, g') && NotLost(g, id)
    ensures NotLost(g', id) <==> !Puts(g, i, g', id)
  {
    hide Step, InHands;
    ResurrectionStores(cfg, g, i, g');
    SameHands(g, i, g');
  }

  lemma UnlistingLosesIff(cfg: TaskLife.Config, g: Global, i: nat, g': Global, id: string)
    requires Step(cfg, g, i, g') && Unlists(g.pcs[i]) && NotLost(g, id)
    ensures NotLost(g', id) <==> !Strips(g, i, id)
  {
    hide InHands, AssignSection, ResultSection, ReapSection, TickSection, TriggerSection, SaveSection, RenewSection,
      Registers, Begins;
    SameHands(g, i, g');
  }

  /**
   A section loses the task, if it is ready, just when it puts it back where nothing has it or strips its only entry.
   */
  lemma NotLostIff(cfg: TaskLife.Config, g: Global, i: nat, g': Global, id: string)
    requires StoreOk(g.s) && Step(cfg, g, i, g') && NotLost(g, id)
    ensures NotLost(g', id) <==> !Puts(g, i, g', id) && !Strips(g, i, id)
  {
    hide StoreOk, Section, NotLost, IsReady, Queued, InHands;
    if StepResurrects(g, i, g') {
      ResurrectionLosesIff(cfg, g, i, g', id);
    } else if Unlists(g.pcs[i]) {
      UnlistingLosesIff(cfg, g, i, g', id);
    } else {
      OthersKeep(cfg, g, i, g', id);
    }
  }
}
