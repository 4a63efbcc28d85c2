/** A closed task set drains: only so many calls can ever lease a task. */
module Draining {
  import opened Model
  import opened MapSum
  import opened Leasing
  import opened Execution
  import opened TaskLife
  import opened Protocol
  import opened Runs

  /** The attempts a task still has. */
  function AttemptsLeft(t: Task): int {
    if t.state.Terminal() then 0 else t.retriesLeft + 1
  }

  function Left(ts: Tasks): map<string, int> {
    map id | id in ts :: AttemptsLeft(ts[id])
  }

  function Most(ts: Tasks): map<string, int> {
    map id | id in ts :: ts[id].maxRetries + 1
  }

  ghost function Potential(w: World): int {
    Sum(Left(w.sys.board.tasks))
  }

  /** No move gives a task attempts, and a reported result takes one. */
  lemma MoveSpends(cfg: Config, id: string, a: Life, m: Move)
    requires Enabled(id, a, m) && Fenced(id, a) && Budgeted(a) && a.task.Some?
    ensures var b := TaskLife.Next(cfg, a, m);
      && b.task.Some? && AttemptsLeft(b.task.value) <= AttemptsLeft(a.task.value)
      && (m.Report? ==> AttemptsLeft(b.task.value) < AttemptsLeft(a.task.value))
  {
  }

  lemma TaskSpends(cfg: Config, w: World, op: Op, w': World, id: string)
    requires Inv(w) && Step(cfg, w, op, w') && id in w.sys.board.tasks
    ensures id in w'.sys.board.tasks
    ensures AttemptsLeft(w'.sys.board.tasks[id]) <= AttemptsLeft(w.sys.board.tasks[id])
    ensures op.Finish? && op.lease.taskId == id && Accepts(w.sys, op.lease) ==>
      AttemptsLeft(w'.sys.board.tasks[id]) < AttemptsLeft(w.sys.board.tasks[id])
  {
    hide Does, Placed, Fenced, Accounted, Budgeted, BackedOff, Paired, Owned, Enabled, TaskLife.Next, Allowed,
      AttemptsLeft, Accepts, Rewritten;
    LifeAfter(cfg, w, op, w', id);
    assert Sound(id, LifeOf(w, id), w.clock);
    MoveSpends(cfg, id, LifeOf(w, id), MoveOf(cfg, w.sys, op, w'.sys, id));
  }

  lemma StepSpends(cfg: Config, w: World, op: Op, w': World)
    requires Inv(w) && Step(cfg, w, op, w') && !op.Register?
    ensures Potential(w') <= Potential(w)
    ensures op.Finish? && Accepts(w.sys, op.lease) ==> Potential(w') < Potential(w)
  {
    hide Does, Inv, Allowed, AttemptsLeft, Accepts, NotesAfter, Sum;
    var m, n := Left(w'.sys.board.tasks), Left(w.sys.board.tasks);
    forall id ensures id in m <==> id in n {
      OnlyRegisterAdds(cfg, w, op, w', id);
    }
    forall id | id in m ensures m[id] <= n[id] {
      TaskSpends(cfg, w, op, w', id);
    }
    SumMonotone(m, n);
    if op.Finish? && Accepts(w.sys, op.lease) {
      AcceptsStored(w.sys, op.lease);
      TaskSpends(cfg, w, op, w', op.lease.taskId);
      SumStrictlyMonotone(m, n, op.lease.taskId);
    }
  }

  lemma AcceptsStored(s: System, l: Lease)
    requires Accepts(s, l)
    ensures l.taskId in s.board.tasks
  {
  }

  /** A result reported right after its grant is accepted. */
  lemma GrantedIsAccepted(cfg: Config, w: World, op: Op, w': World)
    requires Inv(w) && Step(cfg, w, op, w') && op.Assign? && op.r.Assigned?
    ensures Accepts(w'.sys, op.r.lease)
  {
    hide Sound, Paired, Owned, NotesAfter, Settles;
    Unleased(cfg, w, op, w');
  }

  /** RunNext that leases a task: the grant, then its own report. */
  predicate Executes(ops: seq<Op>, i: nat)
    requires i < |ops|
  {
    ops[i].Assign? && ops[i].r.Assigned? ==> i + 1 < |ops| && ops[i + 1].Finish? && ops[i + 1].lease == ops[i].r.lease
  }

  /** From here on nothing is registered, and every lease comes from a RunNext. */
  ghost predicate Closed(ops: seq<Op>, from: nat) {
    forall i :: from <= i < |ops| ==> !ops[i].Register? && Executes(ops, i)
  }

  function Leasings(ops: seq<Op>, from: nat): nat
    requires from <= |ops|
    decreases |ops| - from
  {
    if from == |ops| then 0
    else (if ops[from].Assign? && ops[from].r.Assigned? then 1 else 0) + Leasings(ops, from + 1)
  }

  lemma PotentialBounds(w: World)
    requires Inv(w)
    ensures 0 <= Potential(w) <= Sum(Most(w.sys.board.tasks))
  {
    hide Placed, Fenced, Accounted, BackedOff, Paired, Owned, Sum;
    var ts := w.sys.board.tasks;
    forall id | id in ts ensures 0 <= AttemptsLeft(ts[id]) <= ts[id].maxRetries + 1 {
      assert Budgeted(LifeOf(w, id));
    }
    SumMonotone(Left(ts), Most(ts));
    var zeros := map id | id in ts :: 0;
    SumMonotone(zeros, Left(ts));
    SumBumps(map[], zeros, {});
    EmptySum();
  }

  lemma EmptySum()
    ensures Sum(map[]) == 0
  {
  }

  /** A round that leases a task strictly lowers the potential. */
  lemma RoundSpends(cfg: Config, ws: seq<World>, ops: seq<Op>, i: nat)
    requires Run(cfg, ws, ops) && i + 1 < |ops| && ops[i].Assign? && ops[i].r.Assigned?
    requires ops[i + 1].Finish? && ops[i + 1].lease == ops[i].r.lease
    ensures Potential(ws[i + 2]) < Potential(ws[i])
  {
    hide Step, Inv, Potential, Accepts;
    RunInv(cfg, ws, ops, i);
    RunInv(cfg, ws, ops, i + 1);
    GrantedIsAccepted(cfg, ws[i], ops[i], ws[i + 1]);
    StepSpends(cfg, ws[i], ops[i], ws[i + 1]);
    StepSpends(cfg, ws[i + 1], ops[i + 1], ws[i + 2]);
  }

  /** At most as many leasing rounds as attempts are left. */
  lemma {:induction false} Drains(cfg: Config, ws: seq<World>, ops: seq<Op>, from: nat)
    requires Run(cfg, ws, ops) && from <= |ops| && Closed(ops, from)
    ensures Leasings(ops, from) <= Potential(ws[from]) <= Sum(Most(ws[from].sys.board.tasks))
    decreases |ops| - from
  {
    hide Step, Inv, Potential, Sum, Most;
    RunInv(cfg, ws, ops, from);
    PotentialBounds(ws[from]);
    if from < |ops| {
      assert Executes(ops, from);
      if ops[from].Assign? && ops[from].r.Assigned? {
        RoundSpends(cfg, ws, ops, from);
        Drains(cfg, ws, ops, from + 2);
      } else {
        StepSpends(cfg, ws[from], ops[from], ws[from + 1]);
        Drains(cfg, ws, ops, from + 1);
      }
    }
  }
}
