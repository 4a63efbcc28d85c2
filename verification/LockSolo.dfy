/** One thread running a call's sections with no other in between. */
module LockSolo {
  import opened Model
  import opened Queues
  import opened Store
  import opened Dispatch
  import opened Leasing
  import opened Execution
  import opened LockSteps
  import opened LockLevel
  import opened LockRuns
  import TaskLife
  import Protocol
  import Worker

  // ---------- one thread at a time ----------

  /** n sections of the thread, with nobody in between, take it from pc to rest and the shared state from s to s'. */
  ghost predicate Ends(cfg: TaskLife.Config, s: Shared, pc: Pc, n: nat, s': Shared)
    decreases n
  {
    if pc.Idle? then n == 0 && s' == s
    else n > 0 && exists s1, pc1 :: Section(cfg, s, pc, s1, pc1) && Ends(cfg, s1, pc1, n - 1, s')
  }

  ghost predicate Rests(cfg: TaskLife.Config, s: Shared, pc: Pc, s': Shared) {
    exists n: nat :: Ends(cfg, s, pc, n, s')
  }

  lemma RestsNow(cfg: TaskLife.Config, s: Shared, s': Shared)
    ensures Rests(cfg, s, Idle, s') <==> s' == s
  {
    assert Ends(cfg, s, Idle, 0, s);
  }

  lemma RestsOn(cfg: TaskLife.Config, s: Shared, pc: Pc, s1: Shared, pc1: Pc, s': Shared)
    requires !pc.Idle? && Section(cfg, s, pc, s1, pc1) && Rests(cfg, s1, pc1, s')
    ensures Rests(cfg, s, pc, s')
  {
    hide Section;
    var n: nat :| Ends(cfg, s1, pc1, n, s');
    assert Ends(cfg, s, pc, n + 1, s');
  }

  lemma RestsBy(cfg: TaskLife.Config, s: Shared, pc: Pc, s': Shared) returns (s1: Shared, pc1: Pc)
    requires !pc.Idle? && Rests(cfg, s, pc, s')
    ensures Section(cfg, s, pc, s1, pc1) && Rests(cfg, s1, pc1, s')
  {
    hide Section;
    var n: nat :| Ends(cfg, s, pc, n, s');
    s1, pc1 :| Section(cfg, s, pc, s1, pc1) && Ends(cfg, s1, pc1, n - 1, s');
  }

  // ---------- among other threads ----------

  /** Everything as in g but the shared state and thread i. */
  function Put(g: Global, i: nat, s: Shared, pc: Pc): Global
    requires i < |g.pcs|
  {
    Global(s, g.pcs[i := pc])
  }

  /** Only thread i runs, and it is at rest at the end and not before. */
  ghost predicate Solo(gs: seq<Global>, who: seq<nat>, i: nat)
    requires |gs| == |who| + 1
  {
    && (forall k :: 0 <= k < |who| ==> who[k] == i && i < |gs[k].pcs| && !gs[k].pcs[i].Idle?)
    && i < |gs[|who|].pcs| && gs[|who|].pcs[i].Idle?
  }

  /** Thread i, somewhere in a call, runs it to its end without interruption. */
  ghost predicate Uninterrupted(cfg: TaskLife.Config, g: Global, i: nat, h: Global) {
    exists gs, who :: Path(cfg, gs, who) && Solo(gs, who, i) && gs[0] == g && gs[|who|] == h
  }

  lemma {:induction false} SoloEnds(cfg: TaskLife.Config, gs: seq<Global>, who: seq<nat>, i: nat)
    requires Path(cfg, gs, who) && Solo(gs, who, i)
    ensures i < |gs[0].pcs| && Ends(cfg, gs[0].s, gs[0].pcs[i], |who|, gs[|who|].s)
    ensures gs[|who|] == Put(gs[0], i, gs[|who|].s, Idle)
    decreases |who|
  {
    hide Section;
    if |who| == 0 {
      assert gs[0].pcs[i := Idle] == gs[0].pcs;
    } else {
      assert Step(cfg, gs[0], who[0], gs[1]);
      forall k | 0 <= k < |who[1..]| ensures Step(cfg, gs[1..][k], who[1..][k], gs[1..][k + 1]) {
        assert Step(cfg, gs[k + 1], who[k + 1], gs[k + 2]);
      }
      SoloEnds(cfg, gs[1..], who[1..], i);
    }
  }

  lemma {:induction false} EndsSolo(cfg: TaskLife.Config, g: Global, i: nat, n: nat, s': Shared)
    requires i < |g.pcs| && Ends(cfg, g.s, g.pcs[i], n, s')
    ensures Uninterrupted(cfg, g, i, Put(g, i, s', Idle))
    decreases n
  {
    hide Section;
    var h := Put(g, i, s', Idle);
    if n == 0 {
      var gs, who: seq<nat> := [g], [];
      assert h == g;
      assert Path(cfg, gs, who) && Solo(gs, who, i) && gs[0] == g && gs[|who|] == h;
    } else {
      var s1, pc1 :| Section(cfg, g.s, g.pcs[i], s1, pc1) && Ends(cfg, s1, pc1, n - 1, s');
      var g1 := Put(g, i, s1, pc1);
      EndsSolo(cfg, g1, i, n - 1, s');
      assert Put(g1, i, s', Idle) == h;
      StepsOn(cfg, g, i, g1, h);
    }
  }

  lemma StepsOn(cfg: TaskLife.Config, g: Global, i: nat, g1: Global, h: Global)
    requires Step(cfg, g, i, g1) && i < |g.pcs| && !g.pcs[i].Idle? && Uninterrupted(cfg, g1, i, h)
    ensures Uninterrupted(cfg, g, i, h)
  {
    hide Step;
    var gs, who :| Path(cfg, gs, who) && Solo(gs, who, i) && gs[0] == g1 && gs[|who|] == h;
    hide Path, Solo;
    PathFrom(cfg, g, i, gs, who);
    assert ([g] + gs)[0] == g && ([g] + gs)[|[i] + who|] == h;
  }

  lemma PathFrom(cfg: TaskLife.Config, g: Global, i: nat, gs: seq<Global>, who: seq<nat>)
    requires Path(cfg, gs, who) && Solo(gs, who, i) && Step(cfg, g, i, gs[0]) && i < |g.pcs| && !g.pcs[i].Idle?
    ensures Path(cfg, [g] + gs, [i] + who) && Solo([g] + gs, [i] + who, i)
  {
    hide Step;
    var hs, whom := [g] + gs, [i] + who;
    forall k | 0 <= k < |whom| ensures Step(cfg, hs[k], whom[k], hs[k + 1]) {
      assert k > 0 ==> Step(cfg, gs[k - 1], who[k - 1], gs[k]);
    }
  }

  /**
   What an uninterrupted call does to the whole is what it does to the shared state; the other threads stand still.
   */
  lemma UninterruptedIff(cfg: TaskLife.Config, g: Global, i: nat, h: Global)
    requires i < |g.pcs|
    ensures Uninterrupted(cfg, g, i, h) <==> h == Put(g, i, h.s, Idle) && Rests(cfg, g.s, g.pcs[i], h.s)
  {
    hide Section, Step, Ends;
    if Uninterrupted(cfg, g, i, h) {
      var gs, who :| Path(cfg, gs, who) && Solo(gs, who, i) && gs[0] == g && gs[|who|] == h;
      SoloEnds(cfg, gs, who, i);
    }
    if h == Put(g, i, h.s, Idle) && Rests(cfg, g.s, g.pcs[i], h.s) {
      var n: nat :| Ends(cfg, g.s, g.pcs[i], n, h.s);
      EndsSolo(cfg, g, i, n, h.s);
    }
  }

  // ---------- from one program point to another ----------

  /** From the first point the thread can end exactly as from the second. */
  ghost predicate Becomes(cfg: TaskLife.Config, s: Shared, pc: Pc, s1: Shared, pc1: Pc) {
    forall s' :: Rests(cfg, s, pc, s') <==> Rests(cfg, s1, pc1, s')
  }

  lemma Stays(cfg: TaskLife.Config, s: Shared, pc: Pc)
    ensures Becomes(cfg, s, pc, s, pc)
  {
  }

  lemma Chains(cfg: TaskLife.Config, s: Shared, pc: Pc, s1: Shared, pc1: Pc, s2: Shared, pc2: Pc)
    requires Becomes(cfg, s, pc, s1, pc1) && Becomes(cfg, s1, pc1, s2, pc2)
    ensures Becomes(cfg, s, pc, s2, pc2)
  {
    hide Rests;
  }

  /** The sections that are possible all lead to the same. */
  lemma Meets(cfg: TaskLife.Config, s: Shared, pc: Pc, s1: Shared, pc1: Pc)
    requires !pc.Idle? && (exists s2, pc2 :: Section(cfg, s, pc, s2, pc2))
    requires forall s2, pc2 :: Section(cfg, s, pc, s2, pc2) ==> Becomes(cfg, s2, pc2, s1, pc1)
    ensures Becomes(cfg, s, pc, s1, pc1)
  {
    hide Section, Rests;
    forall s' ensures Rests(cfg, s, pc, s') <==> Rests(cfg, s1, pc1, s') {
      if Rests(cfg, s, pc, s') {
        var s2, pc2 := RestsBy(cfg, s, pc, s');
        assert Becomes(cfg, s2, pc2, s1, pc1);
      }
      if Rests(cfg, s1, pc1, s') {
        var s2, pc2 :| Section(cfg, s, pc, s2, pc2);
        assert Becomes(cfg, s2, pc2, s1, pc1);
        RestsOn(cfg, s, pc, s2, pc2, s');
      }
    }
  }

  /** One section with one outcome. */
  lemma Runs(cfg: TaskLife.Config, s0: Shared, pc0: Pc, s: Shared, pc: Pc, s1: Shared, pc1: Pc)
    requires Becomes(cfg, s0, pc0, s, pc) && !pc.Idle? && Section(cfg, s, pc, s1, pc1)
    requires forall s2, pc2 :: Section(cfg, s, pc, s2, pc2) ==> s2 == s1 && pc2 == pc1
    ensures Becomes(cfg, s0, pc0, s1, pc1)
  {
    hide Section, Becomes;
    Stays(cfg, s1, pc1);
    Meets(cfg, s, pc, s1, pc1);
    Chains(cfg, s0, pc0, s, pc, s1, pc1);
  }

  /** A call that ends in one way only. */
  lemma EndsIn(cfg: TaskLife.Config, g: Global, i: nat, h: Global, s': Shared)
    requires i < |g.pcs| && Becomes(cfg, g.s, g.pcs[i], s', Idle)
    ensures Uninterrupted(cfg, g, i, h) <==> h == Put(g, i, s', Idle)
  {
    hide Rests, Uninterrupted;
    RestsNow(cfg, s', h.s);
    UninterruptedIff(cfg, g, i, h);
  }

  lemma RunsPush(cfg: TaskLife.Config, s0: Shared, pc0: Pc, s: Shared, now: int, t: Task, rest: Pc)
    requires Becomes(cfg, s0, pc0, s, Pushing(now, t, rest))
    ensures Becomes(cfg, s0, pc0, Pushed(s, t, now), rest)
  {
    hide Becomes, Pushed;
    Runs(cfg, s0, pc0, s, Pushing(now, t, rest), Pushed(s, t, now), rest);
  }

  lemma RunsAssign(cfg: TaskLife.Config, s0: Shared, pc0: Pc, s: Shared, pc: Pc, s1: Shared, pc1: Pc)
    requires Becomes(cfg, s0, pc0, s, pc) && (pc.Popped? || pc.PuttingBack?) && AssignSection(cfg.ttl, s, pc, s1, pc1)
    ensures Becomes(cfg, s0, pc0, s1, pc1)
  {
    hide Becomes, Transitioned, CanMove;
    Runs(cfg, s0, pc0, s, pc, s1, pc1);
  }

  lemma RunsResult(cfg: TaskLife.Config, s0: Shared, pc0: Pc, s: Shared, pc: Pc, s1: Shared, pc1: Pc)
    requires Becomes(cfg, s0, pc0, s, pc) && InResult(pc) && ResultSection(cfg.retryDelay, s, pc, s1, pc1)
    ensures Becomes(cfg, s0, pc0, s1, pc1)
  {
    hide Becomes, Section, ResultSection;
    SectionOfResult(cfg, s, pc, s1, pc1);
    forall s2, pc2 | Section(cfg, s, pc, s2, pc2) ensures s2 == s1 && pc2 == pc1 {
      SectionOfResult(cfg, s, pc, s2, pc2);
      ResultDetermined(cfg.retryDelay, s, pc, s1, pc1, s2, pc2);
    }
    Runs(cfg, s0, pc0, s, pc, s1, pc1);
  }

  lemma SectionOfResult(cfg: TaskLife.Config, s: Shared, pc: Pc, s1: Shared, pc1: Pc)
    requires InResult(pc)
    ensures Section(cfg, s, pc, s1, pc1) <==> ResultSection(cfg.retryDelay, s, pc, s1, pc1)
  {
    hide ResultSection;
  }

  lemma ResultDetermined(delay: int, s: Shared, pc: Pc, s1: Shared, pc1: Pc, s2: Shared, pc2: Pc)
    requires InResult(pc) && ResultSection(delay, s, pc, s1, pc1) && ResultSection(delay, s, pc, s2, pc2)
    ensures s2 == s1 && pc2 == pc1
  {
    hide ResultSection;
    if pc.Applying? {
      ApplyingDetermined(delay, s, pc, s1, pc1, s2, pc2);
    } else if pc.Checking? {
      CheckingDetermined(delay, s, pc, s1, pc1, s2, pc2);
    } else {
      OtherDetermined(delay, s, pc, s1, pc1, s2, pc2);
    }
  }

  lemma CheckingDetermined(delay: int, s: Shared, pc: Pc, s1: Shared, pc1: Pc, s2: Shared, pc2: Pc)
    requires pc.Checking? && ResultSection(delay, s, pc, s1, pc1) && ResultSection(delay, s, pc, s2, pc2)
    ensures s2 == s1 && pc2 == pc1
  {
    hide ResultSection, AfterChecking;
    ChecksOnce(delay, s, pc, s1, pc1);
    ChecksOnce(delay, s, pc, s2, pc2);
  }

  function AfterChecking(s: Shared, l: Lease, r: Report, t: Task): (Shared, Pc) {
    if Confirms(s.lm, l, t) then (Written(s, l, r), Applying(l, r, t)) else (s, Releasing(l))
  }

  lemma ChecksOnce(delay: int, s: Shared, pc: Pc, s1: Shared, pc1: Pc)
    requires pc.Checking? && ResultSection(delay, s, pc, s1, pc1)
    ensures (s1, pc1) == AfterChecking(s, pc.l, pc.r, pc.t)
  {
    hide Confirms, Written;
  }

  lemma OtherDetermined(delay: int, s: Shared, pc: Pc, s1: Shared, pc1: Pc, s2: Shared, pc2: Pc)
    requires pc.Reporting? || pc.Delaying? || pc.Releasing?
    requires ResultSection(delay, s, pc, s1, pc1) && ResultSection(delay, s, pc, s2, pc2)
    ensures s2 == s1 && pc2 == pc1
  {
    hide KeepEarlier, Released;
  }

  lemma ApplyingDetermined(delay: int, s: Shared, pc: Pc, s1: Shared, pc1: Pc, s2: Shared, pc2: Pc)
    requires pc.Applying? && ResultSection(delay, s, pc, s1, pc1) && ResultSection(delay, s, pc, s2, pc2)
    ensures s2 == s1 && pc2 == pc1
  {
    hide ResultSection, AfterApplying;
    AppliesOnce(delay, s, pc, s1, pc1);
    AppliesOnce(delay, s, pc, s2, pc2);
  }

  function AfterApplying(delay: int, s: Shared, l: Lease, r: Report, t: Task): (Shared, Pc) {
    var ts := s.board.tasks;
    if WouldRetry(r, t) then
      var s1 := With(s, Retried(ts, t.id, r.finishedAt + delay, t.version));
      (s1, if CanRetry(ts, t.id, t.version) then Delaying(l, s1.board.tasks[t.id]) else Releasing(l))
    else
      (Counting(With(s, Transitioned(ts, t.id, Leased, Ending(r), t.version)),
                if Ending(r) == Succeeded && CanMove(ts, t.id, Leased, t.version) then 1 else 0, 0),
      Releasing(l))
  }

  lemma AppliesOnce(delay: int, s: Shared, pc: Pc, s1: Shared, pc1: Pc)
    requires pc.Applying? && ResultSection(delay, s, pc, s1, pc1)
    ensures (s1, pc1) == AfterApplying(delay, s, pc.l, pc.r, pc.t)
  {
    hide Transitioned;
  }

  lemma RunsTick(cfg: TaskLife.Config, s0: Shared, pc0: Pc, s: Shared, pc: Pc, s1: Shared, pc1: Pc)
    requires Becomes(cfg, s0, pc0, s, pc) && InTick(pc) && !pc.Ticking? && !(pc.Firing? && pc.due == [])
        && TickSection(s, pc, s1, pc1)
    ensures Becomes(cfg, s0, pc0, s1, pc1)
  {
    hide Becomes, Section, TickSection;
    SectionOfTick(cfg, s, pc, s1, pc1);
    forall s2, pc2 | Section(cfg, s, pc, s2, pc2) ensures s2 == s1 && pc2 == pc1 {
      SectionOfTick(cfg, s, pc, s2, pc2);
      TickDetermined(s, pc, s1, pc1, s2, pc2);
    }
    Runs(cfg, s0, pc0, s, pc, s1, pc1);
  }

  lemma SectionOfTick(cfg: TaskLife.Config, s: Shared, pc: Pc, s1: Shared, pc1: Pc)
    requires InTick(pc)
    ensures Section(cfg, s, pc, s1, pc1) <==> TickSection(s, pc, s1, pc1)
  {
    hide TickSection;
  }

  lemma TickDetermined(s: Shared, pc: Pc, s1: Shared, pc1: Pc, s2: Shared, pc2: Pc)
    requires InTick(pc) && !pc.Ticking? && !(pc.Firing? && pc.due == []) && TickSection(s, pc, s1, pc1)
        && TickSection(s, pc, s2, pc2)
    ensures s2 == s1 && pc2 == pc1
  {
    if pc.Marking? {
      hide TickSection;
      MarkingDetermined(s, pc, s1, pc1, s2, pc2);
    } else {
      hide Recurs, NextRun, Transitioned, Rescheduled, With;
    }
  }

  lemma MarkingDetermined(s: Shared, pc: Pc, s1: Shared, pc1: Pc, s2: Shared, pc2: Pc)
    requires pc.Marking? && TickSection(s, pc, s1, pc1) && TickSection(s, pc, s2, pc2)
    ensures s2 == s1 && pc2 == pc1
  {
    hide TickSection, AfterMarking;
    MarksOnce(s, pc, s1, pc1);
    MarksOnce(s, pc, s2, pc2);
  }

  ghost function AfterMarking(s: Shared, now: int, id: string, due: seq<string>): (Shared, Pc) {
    var s1 := With(s, Transitioned(s.board.tasks, id, Pending, Ready, -1));
    if !CanMove(s.board.tasks, id, Pending, -1) then (s1, Firing(now, due))
    else
      var t := s1.board.tasks[id];
      (s1, Pushing(now, t, if Recurs(t) then Advancing(now, id, NextRun(t, now), due) else Firing(now, due)))
  }

  lemma MarksOnce(s: Shared, pc: Pc, s1: Shared, pc1: Pc)
    requires pc.Marking? && TickSection(s, pc, s1, pc1)
    ensures (s1, pc1) == AfterMarking(s, pc.now, pc.id, pc.due)
  {
    hide Recurs, NextRun;
  }

  lemma RunsReap(cfg: TaskLife.Config, s0: Shared, pc0: Pc, s: Shared, pc: Pc, s1: Shared, pc1: Pc)
    requires Becomes(cfg, s0, pc0, s, pc) && (pc.Reclaiming? || pc.Retaking?) && ReapSection(s, pc, s1, pc1)
    ensures Becomes(cfg, s0, pc0, s1, pc1)
  {
    hide Becomes, Transitioned, CanMove, Holds;
    Runs(cfg, s0, pc0, s, pc, s1, pc1);
  }

  lemma RunsTrigger(cfg: TaskLife.Config, s0: Shared, pc0: Pc, s: Shared, pc: Pc, s1: Shared, pc1: Pc)
    requires Becomes(cfg, s0, pc0, s, pc) && InTrigger(pc) && TriggerSection(s, pc, s1, pc1)
    ensures Becomes(cfg, s0, pc0, s1, pc1)
  {
    hide Becomes, Transitioned, CanMove;
    Runs(cfg, s0, pc0, s, pc, s1, pc1);
  }

  lemma RunsCancel(cfg: TaskLife.Config, s0: Shared, pc0: Pc, s: Shared, pc: Pc, s1: Shared, pc1: Pc)
    requires Becomes(cfg, s0, pc0, s, pc) && InCancel(pc) && CancelSection(s, pc, s1, pc1)
    ensures Becomes(cfg, s0, pc0, s1, pc1)
  {
    hide Becomes, Section, CancelSection;
    SectionOfCancel(cfg, s, pc, s1, pc1);
    forall s2, pc2 | Section(cfg, s, pc, s2, pc2) ensures s2 == s1 && pc2 == pc1 {
      SectionOfCancel(cfg, s, pc, s2, pc2);
      CancelDetermined(s, pc, s1, pc1, s2, pc2);
    }
    Runs(cfg, s0, pc0, s, pc, s1, pc1);
  }

  lemma SectionOfCancel(cfg: TaskLife.Config, s: Shared, pc: Pc, s1: Shared, pc1: Pc)
    requires InCancel(pc)
    ensures Section(cfg, s, pc, s1, pc1) <==> CancelSection(s, pc, s1, pc1)
  {
    hide CancelSection;
  }

  lemma CancelDetermined(s: Shared, pc: Pc, s1: Shared, pc1: Pc, s2: Shared, pc2: Pc)
    requires InCancel(pc) && CancelSection(s, pc, s1, pc1) && CancelSection(s, pc, s2, pc2)
    ensures s2 == s1 && pc2 == pc1
  {
    hide Transitioned, CanMove;
  }

  lemma RunsSave(cfg: TaskLife.Config, s0: Shared, pc0: Pc, s: Shared, pc: Pc, s1: Shared, pc1: Pc)
    requires Becomes(cfg, s0, pc0, s, pc) && InSave(pc) && SaveSection(s, pc, s1, pc1)
    ensures Becomes(cfg, s0, pc0, s1, pc1)
  {
    hide Becomes, Section, SaveSection;
    SectionOfSave(cfg, s, pc, s1, pc1);
    forall s2, pc2 | Section(cfg, s, pc, s2, pc2) ensures s2 == s1 && pc2 == pc1 {
      SectionOfSave(cfg, s, pc, s2, pc2);
      SaveDetermined(s, pc, s1, pc1, s2, pc2);
    }
    Runs(cfg, s0, pc0, s, pc, s1, pc1);
  }

  lemma SectionOfSave(cfg: TaskLife.Config, s: Shared, pc: Pc, s1: Shared, pc1: Pc)
    requires InSave(pc)
    ensures Section(cfg, s, pc, s1, pc1) <==> SaveSection(s, pc, s1, pc1)
  {
    hide SaveSection;
  }

  lemma SaveDetermined(s: Shared, pc: Pc, s1: Shared, pc1: Pc, s2: Shared, pc2: Pc)
    requires InSave(pc) && SaveSection(s, pc, s1, pc1) && SaveSection(s, pc, s2, pc2)
    ensures s2 == s1 && pc2 == pc1
  {
    hide Protocol.Rewritten, Stored, Accepted, Discarded, Tracked;
  }

  lemma RunsRenew(cfg: TaskLife.Config, s0: Shared, pc0: Pc, s: Shared, pc: Pc, s1: Shared, pc1: Pc)
    requires Becomes(cfg, s0, pc0, s, pc) && InRenew(pc) && RenewSection(cfg.ttl, s, pc, s1, pc1)
    ensures Becomes(cfg, s0, pc0, s1, pc1)
  {
    hide Becomes, Released;
    Runs(cfg, s0, pc0, s, pc, s1, pc1);
  }
}
