/**
 Mutual exclusion among interleaved calls: between two leases of one task some
 section gives the task of the first back, by a retry or by a reaping.
 */
module LockExclusion {
  import opened Model
  import opened Store
  import opened Leasing
  import opened LockSteps
  import opened LockEffects
  import opened LockLevel
  import opened LockSafety
  import opened LockRuns
  import TaskLife

  // ---------- what a token keeps others from ----------

  /**
   The token's task has ended or is gone, or is still leased: at the token's
   version, or at a later one that no lease and no thread has.
   */
  ghost predicate Kept(g: Global, token: (string, int)) {
    token.0 in g.s.board.tasks ==>
      var t := g.s.board.tasks[token.0];
      t.state.Terminal()
      || (t.state == Leased && t.version >= token.1 && (t.version > token.1 ==> !IsToken(g, (token.0, t.version))))
  }

  /** No two threads have leased the task and not yet handed it out. */
  ghost predicate OneHand(g: Global, id: string) {
    forall i, j :: 0 <= i < j < |g.pcs| && HasInHand(g.pcs[i], id) ==> !HasInHand(g.pcs[j], id)
  }

  ghost predicate HandsKept(g: Global, id: string) {
    forall i :: 0 <= i < |g.pcs| && HasInHand(g.pcs[i], id) ==> Kept(g, InHand(g.pcs[i]).value)
  }

  predicate NoHand(g: Global, id: string) {
    forall i :: 0 <= i < |g.pcs| ==> !HasInHand(g.pcs[i], id)
  }

  /** The section commits a retry or the reaping of the lease. */
  predicate GivesBack(s: Shared, pc: Pc, leaseId: string) {
    Commits(s, pc, leaseId) && (pc.Applying? ==> WouldRetry(pc.r, pc.t))
  }

  /** The section makes the leased task ready again. */
  predicate Frees(ts: Tasks, pc: Pc, id: string) {
    match pc
    case PuttingBack(_, t) => t.id == id && CanMove(ts, id, Leased, t.version)
    case Applying(_, r, t) => t.id == id && WouldRetry(r, t) && CanRetry(ts, id, t.version)
    case Retaking(_, l, t, _) => l.taskId == id && CanMove(ts, id, Leased, t.version)
    case _ => false
  }

  /** Any other section leaves a leased task leased, or ends it. */
  lemma StaysLeased(cfg: TaskLife.Config, ts: Tasks, pc: Pc, pc': Pc, id: string)
    requires id in ts && ts[id].state == Leased && !Frees(ts, pc, id)
    ensures var us := TasksAfter(cfg, ts, pc, pc');
      id in us ==> us[id].state.Terminal() || (us[id].state == Leased && us[id].version >= ts[id].version)
  {
  }

  /** A task that has ended stays so. */
  lemma StaysEnded(cfg: TaskLife.Config, g: Global, i: nat, g': Global, id: string)
    requires Inv(g) && TokensHold(g, id) && Step(cfg, g, i, g')
    requires id in g.s.board.tasks && g.s.board.tasks[id].state.Terminal() && id in g'.s.board.tasks
    ensures g'.s.board.tasks[id].state.Terminal()
  {
    hide Inv, TokensHold, Step, Onward;
    LeavesNoTerminal(cfg, g, i, g', id);
  }

  /** Tokens come only from ready tasks. */
  lemma TokensOnly(cfg: TaskLife.Config, g: Global, i: nat, g': Global, token: (string, int))
    requires Inv(g) && Step(cfg, g, i, g') && IsToken(g', token)
    ensures IsToken(g, token) || IsReady(g.s, token.0)
  {
    hide StoreOk, LeasesOk, OneRenews, Section, Relies, Guarantee, KeepsMutex, Grants;
    InvKept(cfg, g, i, g');
    TokensMove(cfg, g.s, g.pcs[i], g'.s, g'.pcs[i]);
    if k :| k in g'.s.granted && TokenOf(g'.s.granted[k]) == token {
      GrantTokens(g, i, g', k);
    } else {
      var j :| 0 <= j < |g'.pcs| && InHand(g'.pcs[j]) == Some(token);
      if j != i {
        assert InHand(g.pcs[j]) == Some(token);
      }
    }
  }

  /** As long as no section makes the token's task ready again or brings it back, others are kept from it. */
  lemma KeptStays(cfg: TaskLife.Config, g: Global, i: nat, g': Global, token: (string, int))
    requires Inv(g) && TokensHold(g, token.0) && Step(cfg, g, i, g') && !StepUnfences(g, i, g', token.0)
    requires IsToken(g, token) && Kept(g, token) && !Frees(g.s.board.tasks, g.pcs[i], token.0)
    ensures Kept(g', token)
  {
    hide Inv, TokensHold, Section, Frees, IsToken, TasksAfter;
    var id := token.0;
    if id in g'.s.board.tasks {
      TokenStored(cfg, g, i, g', token);
      if g.s.board.tasks[id].state.Terminal() {
        StaysEnded(cfg, g, i, g', id);
      } else {
        LeasedStays(cfg, g, i, g', token);
      }
    }
  }

  /** A token's task does not come back. */
  lemma TokenStored(cfg: TaskLife.Config, g: Global, i: nat, g': Global, token: (string, int))
    requires Inv(g) && Step(cfg, g, i, g') && !StepUnfences(g, i, g', token.0) && IsToken(g, token)
    requires token.0 in g'.s.board.tasks
    ensures token.0 in g.s.board.tasks
  {
    hide Inv, Section, IsToken, NeverLeased;
    TokenDrawn(g, token);
    TokenLeased(g, token);
    if token.0 !in g.s.board.tasks {
      OnlyResurrectionReturns(cfg, g.s, g.pcs[i], g'.s, g'.pcs[i], token.0);
    }
  }

  lemma TokenLeased(g: Global, token: (string, int))
    requires IsToken(g, token)
    ensures !NeverLeased(g, token.0)
  {
    if j :| 0 <= j < |g.pcs| && InHand(g.pcs[j]) == Some(token) {
      assert InHand(g.pcs[j]).value.0 == token.0;
    }
  }

  lemma LeasedStays(cfg: TaskLife.Config, g: Global, i: nat, g': Global, token: (string, int))
    requires Inv(g) && TokensHold(g, token.0) && Step(cfg, g, i, g') && Kept(g, token)
    requires token.0 in g.s.board.tasks && token.0 in g'.s.board.tasks && g.s.board.tasks[token.0].state == Leased
    requires !Frees(g.s.board.tasks, g.pcs[i], token.0)
    ensures Kept(g', token)
  {
    hide StoreOk, LeasesOk, OneRenews, TokensHold, Section, Frees, IsToken, TasksAfter, Relies;
    var id := token.0;
    SectionEffect(cfg, g.s, g.pcs[i], g'.s, g'.pcs[i]);
    StaysLeased(cfg, g.s.board.tasks, g.pcs[i], g'.pcs[i], id);
    var v, v' := g.s.board.tasks[id].version, g'.s.board.tasks[id].version;
    if IsToken(g', (id, v')) {
      TokensOnly(cfg, g, i, g', (id, v'));
      TokenBelow(g, (id, v'));
    }
  }

  lemma TokenBelow(g: Global, token: (string, int))
    requires TokensHold(g, token.0) && IsToken(g, token)
    ensures Fences(g.s, token)
  {
    hide Fences;
  }

  /** A section that makes a leased task ready again has the token of the task's present version. */
  lemma FreesByToken(g: Global, i: nat, id: string)
    requires Inv(g) && TokensHold(g, id) && i < |g.pcs| && Frees(g.s.board.tasks, g.pcs[i], id)
    ensures id in g.s.board.tasks && g.s.board.tasks[id].state == Leased
    ensures var (token, pc) := ((id, g.s.board.tasks[id].version), g.pcs[i]);
      && IsToken(g, token)
      && (pc.PuttingBack? ==> InHand(pc) == Some(token))
      && (!pc.PuttingBack? ==> pc.l.id in g.s.granted && TokenOf(g.s.granted[pc.l.id]) == token
                               && GivesBack(g.s, pc, pc.l.id))
  {
    hide StoreOk, OneRenews;
    assert Relies(g.s, g.pcs[i]);
    if !g.pcs[i].PuttingBack? {
      assert Fences(g.s, TokenOf(g.s.granted[g.pcs[i].l.id]));
    }
  }

  /**
   Of the tokens that are kept, only the thread that has one or the lease that was granted on it can free the task.
   */
  lemma OwnToken(g: Global, i: nat, token: (string, int))
    requires Inv(g) && TokensHold(g, token.0) && i < |g.pcs| && Kept(g, token)
        && Frees(g.s.board.tasks, g.pcs[i], token.0)
    ensures var pc := g.pcs[i];
      && (pc.PuttingBack? ==> InHand(pc) == Some(token))
      && (!pc.PuttingBack? ==> pc.l.id in g.s.granted && TokenOf(g.s.granted[pc.l.id]) == token
                               && GivesBack(g.s, pc, pc.l.id))
  {
    hide Inv, TokensHold, Frees, GivesBack, IsToken;
    FreesByToken(g, i, token.0);
  }

  // ---------- threads that have leased a task and not yet handed it out ----------

  lemma HandsStay(cfg: TaskLife.Config, g: Global, i: nat, g': Global, id: string)
    requires Inv(g) && TokensHold(g, id) && TokensUnique(g, id) && Step(cfg, g, i, g') && !StepUnfences(g, i, g', id)
    requires HandsKept(g, id) && OneHand(g, id)
    ensures HandsKept(g', id) && OneHand(g', id)
  {
    hide Inv, TokensHold, Section, Frees, StepUnfences, KeepsMutex, Guarantee;
    InvKept(cfg, g, i, g');
    InvHas(g);
    TokensMove(cfg, g.s, g.pcs[i], g'.s, g'.pcs[i]);
    forall j | 0 <= j < |g'.pcs| && HasInHand(g'.pcs[j], id) ensures Kept(g', InHand(g'.pcs[j]).value) {
      if j != i || !TakesToken(g.s, g.pcs[i], g'.s, g'.pcs[i]) {
        HandStays(cfg, g, i, g', j, id);
      }
    }
  }

  lemma HandStays(cfg: TaskLife.Config, g: Global, i: nat, g': Global, j: nat, id: string)
    requires Inv(g) && TokensHold(g, id) && TokensUnique(g, id) && Step(cfg, g, i, g') && !StepUnfences(g, i, g', id)
    requires j < |g.pcs| && HasInHand(g.pcs[j], id) && InHand(g'.pcs[j]) == InHand(g.pcs[j])
    requires Kept(g, InHand(g.pcs[j]).value)
    ensures Kept(g', InHand(g'.pcs[j]).value)
  {
    hide Inv, TokensHold, Kept, StepUnfences, Section;
    var token := InHand(g.pcs[j]).value;
    assert IsToken(g, token);
    if Frees(g.s.board.tasks, g.pcs[i], id) {
      OwnToken(g, i, token);
      assert j == i && g.pcs[i].PuttingBack?;
      PutBackLetsGo(cfg, g, i, g');
    }
    KeptStays(cfg, g, i, g', token);
  }

  lemma PutBackLetsGo(cfg: TaskLife.Config, g: Global, i: nat, g': Global)
    requires Step(cfg, g, i, g') && g.pcs[i].PuttingBack?
    ensures InHand(g'.pcs[i]) == None
  {
  }

  // ---------- a granted lease ----------

  /** The lease was granted, no thread has its task in hand, and others are kept from it. */
  ghost predicate Barred(g: Global, l: Lease) {
    l.id in g.s.granted && g.s.granted[l.id] == l && Kept(g, TokenOf(l)) && NoHand(g, l.taskId)
  }

  lemma GrantBars(cfg: TaskLife.Config, g: Global, i: nat, g': Global, l: Lease)
    requires Inv(g) && Step(cfg, g, i, g') && Grants(g.s, g.pcs[i], g'.s, l)
    requires TokensHold(g, l.taskId) && HandsKept(g, l.taskId) && OneHand(g, l.taskId)
    requires !StepUnfences(g, i, g', l.taskId)
    ensures Barred(g', l)
  {
    hide Inv, TokensHold, Section, StepUnfences, Kept, WithLease;
    assert InHand(g.pcs[i]) == Some(TokenOf(l)) && IsToken(g, TokenOf(l));
    assert l.id in g'.s.granted;
    PickingGrants(cfg, g.s, g.pcs[i], g'.s, g'.pcs[i]);
    KeptStays(cfg, g, i, g', TokenOf(l));
  }

  lemma BarredStays(cfg: TaskLife.Config, g: Global, i: nat, g': Global, l: Lease)
    requires Inv(g) && Step(cfg, g, i, g') && Barred(g, l) && !GivesBack(g.s, g.pcs[i], l.id)
    requires TokensHold(g, l.taskId) && TokensUnique(g, l.taskId) && !StepUnfences(g, i, g', l.taskId)
    ensures Barred(g', l)
  {
    hide Inv, TokensHold, Section, StepUnfences, Frees, GivesBack, KeepsMutex;
    InvKept(cfg, g, i, g');
    InvHas(g);
    assert IsToken(g, TokenOf(l));
    if Frees(g.s.board.tasks, g.pcs[i], l.taskId) {
      OwnToken(g, i, TokenOf(l));
    }
    KeptStays(cfg, g, i, g', TokenOf(l));
    TokensMove(cfg, g.s, g.pcs[i], g'.s, g'.pcs[i]);
  }

  /** No two threads have leased the task and not yet handed it out, and others are kept from it. */
  lemma {:induction false} HandsRuns(cfg: TaskLife.Config, gs: seq<Global>, who: seq<nat>, n: nat, id: string)
    requires Interleaving(cfg, gs, who) && n <= |who| && Fenced(gs, who, n, id)
    ensures HandsKept(gs[n], id) && OneHand(gs[n], id)
  {
    hide Inv, TokensHold, TokensUnique, Step, StepUnfences, Kept;
    if n > 0 {
      HandsRuns(cfg, gs, who, n - 1, id);
      FencedTokens(cfg, gs, who, n - 1, id);
      HandsStay(cfg, gs[n - 1], who[n - 1], gs[n], id);
    }
  }

  /** Some section from i on and before j gives the lease's task back. */
  ghost predicate GivenBackWithin(gs: seq<Global>, who: seq<nat>, i: nat, j: nat, leaseId: string)
    requires j <= |who| < |gs|
  {
    exists k :: i <= k < j && who[k] < |gs[k].pcs| && GivesBack(gs[k].s, gs[k].pcs[who[k]], leaseId)
  }

  lemma {:induction false} BarredRuns(cfg: TaskLife.Config, gs: seq<Global>, who: seq<nat>, i: nat, j: nat, l: Lease)
    requires Interleaving(cfg, gs, who) && i <= j <= |who| && Fenced(gs, who, j, l.taskId) && Barred(gs[i], l)
    ensures Barred(gs[j], l) || GivenBackWithin(gs, who, i, j, l.id)
    decreases j
  {
    hide Inv, TokensHold, TokensUnique, Section, StepUnfences, Barred, GivesBack;
    if i < j {
      BarredRuns(cfg, gs, who, i, j - 1, l);
      assert Step(cfg, gs[j - 1], who[j - 1], gs[j]);
      if Barred(gs[j - 1], l) && !GivesBack(gs[j - 1].s, gs[j - 1].pcs[who[j - 1]], l.id) {
        FencedTokens(cfg, gs, who, j - 1, l.taskId);
        BarredStays(cfg, gs[j - 1], who[j - 1], gs[j], l);
      }
    }
  }

  // ---------- a reaped lease ----------

  /** The thread is still to deal with the lease, which it found expired at the given time. */
  ghost predicate Drops(pc: Pc, now: int, l: Lease) {
    match pc
    case Reclaiming(at, expired) => at == now && l in expired
    case Retaking(at, m, _, expired) => at == now && (l == m || l in expired)
    case Pushing(_, _, rest) => Drops(rest, now, l)
    case _ => false
  }

  /** The lease is recorded and expired. */
  predicate FoundExpired(s: Shared, l: Lease, now: int) {
    l.id in s.lm.leases && s.lm.leases[l.id] == l && Expired(l, now)
  }

  lemma ReapDrops(s: Shared, pc: Pc, s': Shared, pc': Pc, now: int, l: Lease)
    requires LeasesOk(s) && InReap(pc) && ReapSection(s, pc, s', pc') && Drops(pc', now, l)
    ensures Drops(pc, now, l) || (pc == Reaping(now) && FoundExpired(s, l, now))
  {
    hide Transitioned, CanMove, Holds, Unexpired, Counting;
  }

  lemma DropsMidReap(s: Shared, pc: Pc, now: int, l: Lease)
    requires Relies(s, pc) && Drops(pc, now, l)
    ensures MidReap(pc)
  {
  }

  /** The leases that a reap deals with are those it found recorded and expired. */
  lemma DropsFrom(cfg: TaskLife.Config, g: Global, i: nat, g': Global, now: int, l: Lease)
    requires Inv(g) && Step(cfg, g, i, g') && Drops(g'.pcs[i], now, l)
    ensures Drops(g.pcs[i], now, l) || (g.pcs[i] == Reaping(now) && FoundExpired(g.s, l, now))
  {
    hide StoreOk, LeasesOk, OneRenews, Relies, Guarantee, AssignSection, ResultSection, ReapSection, TickSection,
      TriggerSection, CancelSection, SaveSection, RenewSection, Begins, Registers, Drops, FoundExpired;
    InvKept(cfg, g, i, g');
    assert Relies(g'.s, g'.pcs[i]);
    DropsMidReap(g'.s, g'.pcs[i], now, l);
    if InReap(g.pcs[i]) {
      ReapDrops(g.s, g.pcs[i], g'.s, g'.pcs[i], now, l);
    } else {
      PushDrops(g.pcs[i], now, l);
    }
  }

  lemma PushDrops(pc: Pc, now: int, l: Lease)
    requires pc.Pushing?
    ensures Drops(pc, now, l) <==> Drops(pc.rest, now, l)
  {
  }

  lemma {:induction false} ReapedFrom(cfg: TaskLife.Config, gs: seq<Global>, who: seq<nat>, n: nat, i: nat, now: int,
      l: Lease) returns (r: nat)
    requires Interleaving(cfg, gs, who) && n <= |who| && i < |gs[n].pcs| && Drops(gs[n].pcs[i], now, l)
    ensures r < n && who[r] == i && i < |gs[r].pcs| && gs[r].pcs[i] == Reaping(now) && FoundExpired(gs[r].s, l, now)
  {
    hide Inv, Section, Drops, FoundExpired;
    if n == 0 {
      StartsIdle(|gs[0].pcs|, i, now, l);
    } else {
      var g, g' := gs[n - 1], gs[n];
      assert Step(cfg, g, who[n - 1], g');
      InterleavingInv(cfg, gs, who, n - 1);
      if who[n - 1] == i {
        DropsFrom(cfg, g, i, g', now, l);
      }
      if Drops(g.pcs[i], now, l) {
        r := ReapedFrom(cfg, gs, who, n - 1, i, now, l);
      } else {
        r := n - 1;
      }
    }
  }

  lemma StartsIdle(threads: nat, i: nat, now: int, l: Lease)
    requires i < threads
    ensures !Drops(Start(threads).pcs[i], now, l)
  {
  }

  // ---------- mutual exclusion ----------

  lemma NotGrantedYet(s: Shared, pc: Pc, s': Shared, l: Lease)
    requires Grants(s, pc, s', l)
    ensures l.id !in s.granted && InHand(pc) == Some(TokenOf(l))
  {
  }

  /** A lease is recorded only after it has been granted. */
  lemma RecordedLater(cfg: TaskLife.Config, gs: seq<Global>, who: seq<nat>, i: nat, r: nat, l: Lease, now: int)
    requires Interleaving(cfg, gs, who) && i <= |who| && r <= |who| && FoundExpired(gs[r].s, l, now)
        && l.id !in gs[i].s.granted
    ensures i < r
  {
    hide Step, StoreOk;
    InterleavingInv(cfg, gs, who, r);
    InvHas(gs[r]);
    if r <= i {
      GrowsRuns(cfg, gs, who, r, i);
    }
  }

  /**
   Between two grants of a task, some section commits the retry or the reaping of
   the first lease; and a reaping was begun after the grant, by a section of the
   same thread that found the lease recorded and past its deadline.
   */
  lemma MutualExclusion(cfg: TaskLife.Config, gs: seq<Global>, who: seq<nat>, i: nat, j: nat, l: Lease, m: Lease)
      returns (k: nat, r: nat)
    requires Interleaving(cfg, gs, who) && i < j < |who| && Fenced(gs, who, j, l.taskId) && l.taskId == m.taskId
    requires who[i] < |gs[i].pcs| && Grants(gs[i].s, gs[i].pcs[who[i]], gs[i + 1].s, l)
    requires who[j] < |gs[j].pcs| && Grants(gs[j].s, gs[j].pcs[who[j]], gs[j + 1].s, m)
    ensures i < k < j && who[k] < |gs[k].pcs| && GivesBack(gs[k].s, gs[k].pcs[who[k]], l.id)
    ensures var pc := gs[k].pcs[who[k]];
      pc.Retaking? ==>
        && i < r < k && who[r] == who[k] < |gs[r].pcs| && gs[r].pcs[who[r]] == Reaping(pc.now)
        && FoundExpired(gs[r].s, pc.l, pc.now)
  {
    hide Inv, TokensHold, TokensUnique, HandsKept, OneHand, Section, StepUnfences, Kept, GivesBack, Grants,
      FoundExpired;
    NotGrantedYet(gs[i].s, gs[i].pcs[who[i]], gs[i + 1].s, l);
    NotGrantedYet(gs[j].s, gs[j].pcs[who[j]], gs[j + 1].s, m);
    FencedTokens(cfg, gs, who, i, l.taskId);
    HandsRuns(cfg, gs, who, i, l.taskId);
    assert Step(cfg, gs[i], who[i], gs[i + 1]);
    GrantBars(cfg, gs[i], who[i], gs[i + 1], l);
    BarredRuns(cfg, gs, who, i + 1, j, l);
    assert !Barred(gs[j], l);
    k :| i + 1 <= k < j && who[k] < |gs[k].pcs| && GivesBack(gs[k].s, gs[k].pcs[who[k]], l.id);
    r := 0;
    if gs[k].pcs[who[k]].Retaking? {
      GivesOwn(gs[k].s, gs[k].pcs[who[k]], l.id);
      r := ReapedFrom(cfg, gs, who, k, who[k], gs[k].pcs[who[k]].now, gs[k].pcs[who[k]].l);
      RecordedLater(cfg, gs, who, i, r, gs[k].pcs[who[k]].l, gs[k].pcs[who[k]].now);
    }
  }

  lemma GivesOwn(s: Shared, pc: Pc, leaseId: string)
    requires GivesBack(s, pc, leaseId) && pc.Retaking?
    ensures pc.l.id == leaseId && Drops(pc, pc.now, pc.l)
  {
  }
}
