/**
 Calls that are not interrupted. Run by one thread with no other in between, the
 sections of a call end in the states that the operation level gives the whole
 call, and in no others.
 */
module LockAlone {
  import opened Model
  import opened IndexedHeap
  import opened Queues
  import opened Store
  import opened Dispatch
  import opened Leasing
  import opened Execution
  import opened LockSteps
  import opened LockLevel
  import opened LockSafety
  import opened LockRuns
  import opened LockSolo
  import TaskLife
  import Protocol
  import Worker
  import CronParse
  import Handlers

  // ---------- the calls ----------

  /** The task saved and indexed. */
  function SavedOn(s: Shared, t: Task): Shared {
    var s1 := Stored(s, t);
    s1.(board := Tracked(s1.board, t))
  }

  /** A registration, from the section that stores its task on. */
  lemma RegisterAlone(cfg: TaskLife.Config, g: Global, i: nat, g1: Global, t: Task, h: Global)
    requires Step(cfg, g, i, g1) && g.pcs[i].Idle? && g1.pcs[i] == Tracking(t)
    ensures var b := g.s.board;
      Uninterrupted(cfg, g1, i, h) <==>
        h == Put(g, i, g.s.(board := Tracked(b.(tasks := Saved(b.tasks, t)), t),
                            names := SavedNames(b.tasks, g.s.names, t), drawn := g.s.drawn + {t.id}), Idle)
  {
    hide Uninterrupted, Becomes, Saved, SavedNames, Accepted;
    var s' := g1.s.(board := Tracked(g1.s.board, t));
    Stays(cfg, g1.s, Tracking(t));
    RunsSave(cfg, g1.s, Tracking(t), g1.s, Tracking(t), s', Idle);
    EndsIn(cfg, g1, i, h, s');
    assert g1.pcs[i := Idle] == g.pcs[i := Idle];
  }

  lemma TriggerBecomes(cfg: TaskLife.Config, s: Shared, now: int, id: string)
    requires StoreOk(s)
    ensures Becomes(cfg, s, Triggering(now, id), s.(board := Triggered(s.board, id, now)), Idle)
  {
    hide Becomes;
    var ts, pc := s.board.tasks, Triggering(now, id);
    Stays(cfg, s, pc);
    if TriggerOutcome(s.board, id) != Done {
      RunsTrigger(cfg, s, pc, s, pc, s, Idle);
    } else {
      var s1 := With(s, Transitioned(ts, id, Pending, Ready, -1));
      var t := s1.board.tasks[id];
      RunsTrigger(cfg, s, pc, s, pc, s, Prodding(now, ts[id]));
      RunsTrigger(cfg, s, pc, s, Prodding(now, ts[id]), s1, Pushing(now, t, Idle));
      RunsPush(cfg, s, pc, s1, now, t, Idle);
      assert Pushed(s1, t, now) == s.(board := Triggered(s.board, id, now));
    }
  }

  lemma TriggerAlone(cfg: TaskLife.Config, g: Global, i: nat, now: int, id: string, h: Global)
    requires i < |g.pcs| && g.pcs[i] == Triggering(now, id) && StoreOk(g.s)
    ensures Uninterrupted(cfg, g, i, h) <==> h == Put(g, i, g.s.(board := Triggered(g.s.board, id, now)), Idle)
  {
    hide Becomes, Uninterrupted, StoreOk, Triggered;
    TriggerBecomes(cfg, g.s, now, id);
    EndsIn(cfg, g, i, h, g.s.(board := Triggered(g.s.board, id, now)));
  }

  lemma CancelBecomes(cfg: TaskLife.Config, s: Shared, id: string)
    requires StoreOk(s)
    ensures Becomes(cfg, s, Canceling(id), s.(board := CanceledOn(s.board, id)), Idle)
  {
    hide Becomes;
    var ts, pc := s.board.tasks, Canceling(id);
    Stays(cfg, s, pc);
    if CancelOutcome(s.board, id) != Done {
      RunsCancel(cfg, s, pc, s, pc, s, Idle);
    } else {
      var s1 := With(s, ts[id := Moved(ts[id], Canceled)]);
      var s2 := s1.(board := s1.board.(ready := s1.board.ready - {id}));
      var s3 := s2.(board := s2.board.(delayed := s2.board.delayed - {id}));
      RunsCancel(cfg, s, pc, s, pc, s, Stopping(ts[id]));
      RunsCancel(cfg, s, pc, s, Stopping(ts[id]), s1, Unqueueing(id));
      RunsCancel(cfg, s, pc, s1, Unqueueing(id), s2, Undelaying(id));
      RunsCancel(cfg, s, pc, s2, Undelaying(id), s3, Untracking(id));
      RunsCancel(cfg, s, pc, s3, Untracking(id), s.(board := CanceledOn(s.board, id)), Idle);
    }
  }

  lemma CancelAlone(cfg: TaskLife.Config, g: Global, i: nat, id: string, h: Global)
    requires i < |g.pcs| && g.pcs[i] == Canceling(id) && StoreOk(g.s)
    ensures Uninterrupted(cfg, g, i, h) <==> h == Put(g, i, g.s.(board := CanceledOn(g.s.board, id)), Idle)
  {
    hide Becomes, Uninterrupted, StoreOk, CanceledOn;
    CancelBecomes(cfg, g.s, id);
    EndsIn(cfg, g, i, h, g.s.(board := CanceledOn(g.s.board, id)));
  }

  // ---------- Assign ----------

  /** Assign's specification, with the generator's promise that a lease id is new. */
  ghost predicate Assigns(ttl: int, s: Shared, now: int, s': Shared, worker: Option<string>, leaseId: string,
      r: AssignResult) {
    && AssignSpec(s.board.tasks, s.board.ready, s.lm, s'.board.tasks, s'.board.ready, s'.lm, now, ttl, worker, leaseId,
         r)
    && (r.Assigned? ==> leaseId !in s.granted)
    && s' == s.(board := s.board.(tasks := s'.board.tasks, ready := s'.board.ready), lm := s'.lm,
                granted := if r.Assigned? then s.granted[leaseId := r.lease] else s.granted)
  }

  ghost predicate AssignEnds(ttl: int, s: Shared, now: int, s': Shared) {
    exists worker, leaseId, r :: Assigns(ttl, s, now, s', worker, leaseId, r)
  }

  function Left(s: Shared, c: Contents): Shared {
    s.(board := s.board.(ready := c))
  }

  /** The task that Assign settles on is leased and its entry gone. */
  function LeasedOut(s: Shared, id: string, rest: Contents): Shared
    requires id in s.board.tasks
  {
    s.(board := s.board.(tasks := s.board.tasks[id := Moved(s.board.tasks[id], Leased)], ready := rest))
  }

  /** The task is back to ready, two versions on, and queued again. */
  function PutBackOn(s: Shared, id: string, rest: Contents, now: int): Shared
    requires id in s.board.tasks
  {
    var t := s.board.tasks[id];
    s.(board := s.board.(tasks := s.board.tasks[id := t.(version := t.version + 2)],
      ready := rest[id := Item(id, t.priority, now)]))
  }

  // From an uninterrupted call to the specification.

  lemma RestsFromPopped(cfg: TaskLife.Config, s: Shared, now: int, id: string, c: Contents, s': Shared)
    requires Rests(cfg, Left(s, c), Popped(now, id), s')
    ensures var ts := s.board.tasks;
      if id !in ts then s' == Left(s, c)
      else if ts[id].state != Ready then Rests(cfg, Left(s, c), Popping(now), s')
      else Rests(cfg, LeasedOut(s, id, c), Picking(now, Moved(ts[id], Leased)), s')
  {
    hide Rests;
    var s1, pc1 := RestsBy(cfg, Left(s, c), Popped(now, id), s');
    RestsNow(cfg, s1, s');
  }

  lemma PutsBack(cfg: TaskLife.Config, s: Shared, now: int, id: string, rest: Contents)
    requires StoreOk(s) && id in s.board.tasks && s.board.tasks[id].state == Ready && id !in rest
    ensures var s1 := LeasedOut(s, id, rest);
      Becomes(cfg, s1, PuttingBack(now, s1.board.tasks[id]), PutBackOn(s, id, rest, now), Idle)
  {
    hide Becomes;
    var s1, t := LeasedOut(s, id, rest), Moved(s.board.tasks[id], Leased);
    var s2 := With(s1, s1.board.tasks[id := Moved(t, Ready)]);
    Stays(cfg, s1, PuttingBack(now, t));
    RunsAssign(cfg, s1, PuttingBack(now, t), s1, PuttingBack(now, t), s2, Pushing(now, t, Idle));
    RunsPush(cfg, s1, PuttingBack(now, t), s2, now, t, Idle);
    assert s2.board.tasks == s.board.tasks[id := s.board.tasks[id].(version := s.board.tasks[id].version + 2)];
    assert Pushed(s2, t, now) == PutBackOn(s, id, rest, now);
  }

  lemma RestsFromPicking(cfg: TaskLife.Config, s: Shared, now: int, id: string, rest: Contents, s': Shared)
    requires StoreOk(s) && id in s.board.tasks && s.board.tasks[id].state == Ready && id !in rest
    requires Rests(cfg, LeasedOut(s, id, rest), Picking(now, Moved(s.board.tasks[id], Leased)), s')
    ensures s' == PutBackOn(s, id, rest, now) || exists l ::
      && s' == Granted(LeasedOut(s, id, rest), l) && l.id !in s.granted
      && l == Lease(l.id, id, l.workerId, s.board.tasks[id].version + 1, now + cfg.ttl)
  {
    hide Rests, Granted;
    var s1, t := LeasedOut(s, id, rest), Moved(s.board.tasks[id], Leased);
    var s2, pc2 := RestsBy(cfg, s1, Picking(now, t), s');
    RestsNow(cfg, s2, s');
    PutsBack(cfg, s, now, id, rest);
    RestsNow(cfg, PutBackOn(s, id, rest, now), s');
  }

  lemma EndsMissing(ttl: int, s: Shared, now: int, id: string, rest: Contents)
    requires id !in s.board.tasks && Settles(s.board.tasks, s.board.ready, id, rest)
    ensures AssignEnds(ttl, s, now, Left(s, rest))
  {
    hide Settles;
    assert Assigns(ttl, s, now, Left(s, rest), None, "", TaskMissing);
  }

  lemma EndsEmpty(ttl: int, s: Shared, now: int)
    requires forall k :: k in s.board.ready ==> k in s.board.tasks && s.board.tasks[k].state != Ready
    ensures AssignEnds(ttl, s, now, Left(s, map[]))
  {
    assert Assigns(ttl, s, now, Left(s, map[]), None, "", NoReadyTask);
  }

  lemma EndsPutBack(ttl: int, s: Shared, now: int, id: string, rest: Contents)
    requires id in s.board.tasks && Settles(s.board.tasks, s.board.ready, id, rest)
    ensures AssignEnds(ttl, s, now, PutBackOn(s, id, rest, now))
  {
    hide Settles;
    var s' := PutBackOn(s, id, rest, now);
    assert RolledBack(s.board.tasks, s.board.ready, s'.board.tasks, s'.board.ready, now, id);
    assert Assigns(ttl, s, now, s', None, "", NoWorker);
  }

  lemma EndsGranted(ttl: int, s: Shared, now: int, id: string, rest: Contents, l: Lease)
    requires id in s.board.tasks && Settles(s.board.tasks, s.board.ready, id, rest) && l.id !in s.granted
    requires l == Lease(l.id, id, l.workerId, s.board.tasks[id].version + 1, now + ttl)
    ensures AssignEnds(ttl, s, now, Granted(LeasedOut(s, id, rest), l))
  {
    hide Settles;
    assert Assigns(ttl, s, now, Granted(LeasedOut(s, id, rest), l), Some(l.workerId), l.id, Assigned(l));
  }

  lemma SettledEnds(cfg: TaskLife.Config, s: Shared, now: int, id: string, rest: Contents, s': Shared)
    requires StoreOk(s) && id in s.board.tasks && s.board.tasks[id].state == Ready
    requires id !in rest && Settles(s.board.tasks, s.board.ready, id, rest)
    requires Rests(cfg, LeasedOut(s, id, rest), Picking(now, Moved(s.board.tasks[id], Leased)), s')
    ensures AssignEnds(cfg.ttl, s, now, s')
  {
    hide Settles, AssignEnds, Rests, StoreOk, Granted, LeasedOut, PutBackOn;
    RestsFromPicking(cfg, s, now, id, rest, s');
    EndsPutBack(cfg.ttl, s, now, id, rest);
    if s' != PutBackOn(s, id, rest, now) {
      var l :| && s' == Granted(LeasedOut(s, id, rest), l) && l.id !in s.granted
               && l == Lease(l.id, id, l.workerId, s.board.tasks[id].version + 1, now + cfg.ttl);
      EndsGranted(cfg.ttl, s, now, id, rest, l);
    }
  }

  /** Wherever an uninterrupted Assign ends, its specification allows it. */
  lemma {:induction false} AssignSound(cfg: TaskLife.Config, s: Shared, now: int, c: Contents, s': Shared)
    requires StoreOk(s) && Dropped(s.board.tasks, s.board.ready, c) && Rests(cfg, Left(s, c), Popping(now), s')
    ensures AssignEnds(cfg.ttl, s, now, s')
    decreases |c|
  {
    hide Rests, StoreOk, Dropped, AssignEnds, Settles, Foremost, LeasedOut;
    var ts, q := s.board.tasks, s.board.ready;
    var s1, pc1 := RestsBy(cfg, Left(s, c), Popping(now), s');
    if c == map[] {
      RestsNow(cfg, s1, s');
      AllDropped(ts, q, c);
      EndsEmpty(cfg.ttl, s, now);
    } else {
      var id := pc1.id;
      DropForemost(ts, q, c, id);
      SettlesHas(ts, q, id, c - {id});
      assert s1 == Left(s, c - {id}) && pc1 == Popped(now, id);
      RestsFromPopped(cfg, s, now, id, c - {id}, s');
      if id !in ts {
        EndsMissing(cfg.ttl, s, now, id, c - {id});
      } else if ts[id].state != Ready {
        AssignSound(cfg, s, now, c - {id}, s');
      } else {
        SettledEnds(cfg, s, now, id, c - {id}, s');
      }
    }
  }

  lemma SettlesHas(ts: Tasks, q: Contents, id: string, rest: Contents)
    ensures Settles(ts, q, id, rest) ==> id !in rest && (id in ts ==> ts[id].state == Ready)
  {
  }

  // From the specification to an uninterrupted call.

  /** Among some queued entries one that none of the others comes before. */
  lemma {:induction false} LeastOf(c: Contents, d: set<string>) returns (k: string)
    requires d != {} && d <= c.Keys
    ensures k in d && forall m :: m in d ==> !ReadyLess(c[m], c[k])
    decreases d
  {
    k :| k in d;
    if d != {k} {
      var rest := d - {k};
      assert rest != {} by {
        assert d == rest + {k};
      }
      var j := LeastOf(c, rest);
      if !ReadyLess(c[k], c[j]) {
        k := j;
      }
    }
  }

  /** Popping an entry whose task is not ready. */
  lemma DropsOne(cfg: TaskLife.Config, s: Shared, now: int, c: Contents, k: string, s': Shared)
    requires Foremost(ReadyLess, c, k) && k in s.board.tasks && s.board.tasks[k].state != Ready
    requires Rests(cfg, Left(s, c - {k}), Popping(now), s')
    ensures Rests(cfg, Left(s, c), Popping(now), s')
  {
    hide Rests, Foremost;
    RestsOn(cfg, Left(s, c - {k}), Popped(now, k), Left(s, c - {k}), Popping(now), s');
    PopsOne(cfg, s, now, c, k, s');
  }

  lemma ForemostHas(c: Contents, k: string)
    ensures Foremost(ReadyLess, c, k) ==> k in c
  {
  }

  lemma {:induction false} DropsAll(cfg: TaskLife.Config, s: Shared, now: int, c: Contents)
    requires forall k :: k in c ==> k in s.board.tasks && s.board.tasks[k].state != Ready
    ensures Rests(cfg, Left(s, c), Popping(now), Left(s, map[]))
    decreases |c|
  {
    hide Rests;
    if c == map[] {
      RestsNow(cfg, Left(s, c), Left(s, c));
      RestsOn(cfg, Left(s, c), Popping(now), Left(s, c), Idle, Left(s, c));
    } else {
      var k := LeastOf(c, c.Keys);
      DropsAll(cfg, s, now, c - {k});
      DropsOne(cfg, s, now, c, k, Left(s, map[]));
    }
  }

  /** The entries that Assign drops can all be popped before the one it settles on. */
  lemma {:induction false} DropsTo(cfg: TaskLife.Config, s: Shared, now: int, c: Contents, id: string, rest: Contents,
      s': Shared)
    requires Settles(s.board.tasks, c, id, rest) && Rests(cfg, Left(s, rest), Popped(now, id), s')
    ensures Rests(cfg, Left(s, c), Popping(now), s')
    decreases |c|, 1
  {
    hide Rests, Settles, Foremost;
    var d := c.Keys - rest.Keys - {id};
    if d == {} {
      NothingToDrop(s.board.tasks, c, id, rest);
      PopsOne(cfg, s, now, c, id, s');
    } else {
      DropsFirst(cfg, s, now, c, id, rest, s', d);
    }
  }

  lemma {:induction false} DropsFirst(cfg: TaskLife.Config, s: Shared, now: int, c: Contents, id: string,
      rest: Contents, s': Shared, d: set<string>)
    requires Settles(s.board.tasks, c, id, rest) && Rests(cfg, Left(s, rest), Popped(now, id), s')
    requires d == c.Keys - rest.Keys - {id} && d != {}
    ensures Rests(cfg, Left(s, c), Popping(now), s')
    decreases |c|, 0
  {
    hide Rests, Settles, Foremost;
    var k := LeastOf(c, d);
    DroppedIsForemost(s.board.tasks, c, id, rest, k);
    DropsTo(cfg, s, now, c - {k}, id, rest, s');
    DropsOne(cfg, s, now, c, k, s');
  }

  lemma NothingToDrop(ts: Tasks, c: Contents, id: string, rest: Contents)
    requires Settles(ts, c, id, rest) && c.Keys - rest.Keys - {id} == {}
    ensures c - {id} == rest && Foremost(ReadyLess, c, id)
  {
    assert c.Keys == rest.Keys + {id};
  }

  lemma PopsOne(cfg: TaskLife.Config, s: Shared, now: int, c: Contents, id: string, s': Shared)
    requires Foremost(ReadyLess, c, id) && Rests(cfg, Left(s, c - {id}), Popped(now, id), s')
    ensures Rests(cfg, Left(s, c), Popping(now), s')
  {
    hide Rests, Foremost;
    ForemostHas(c, id);
    RestsOn(cfg, Left(s, c), Popping(now), Left(s, c - {id}), Popped(now, id), s');
  }

  lemma DroppedIsForemost(ts: Tasks, c: Contents, id: string, rest: Contents, k: string)
    requires Settles(ts, c, id, rest) && k in c && k !in rest && k != id
    requires forall m :: m in c.Keys - rest.Keys - {id} ==> !ReadyLess(c[m], c[k])
    ensures Foremost(ReadyLess, c, k) && Settles(ts, c - {k}, id, rest) && k in ts && ts[k].state != Ready
  {
    forall m | m in c ensures !ReadyLess(c[m], c[k]) {
      if m in rest {
        assert !ReadyLess(c[m], c[id]) && !ReadyLess(c[id], c[k]);
      } else if m != id {
        assert m in c.Keys - rest.Keys - {id};
      }
    }
  }

  lemma RestsPicking(cfg: TaskLife.Config, s: Shared, now: int, id: string, rest: Contents, s': Shared)
    requires id in s.board.tasks && s.board.tasks[id].state == Ready
    requires Rests(cfg, LeasedOut(s, id, rest), Picking(now, Moved(s.board.tasks[id], Leased)), s')
    ensures Rests(cfg, Left(s, rest), Popped(now, id), s')
  {
    hide Rests;
    RestsOn(cfg, Left(s, rest), Popped(now, id), LeasedOut(s, id, rest),
      Picking(now, Moved(s.board.tasks[id], Leased)), s');
  }

  lemma RestsGranted(cfg: TaskLife.Config, s: Shared, now: int, id: string, rest: Contents, l: Lease)
    requires StoreOk(s) && id in s.board.tasks && s.board.tasks[id].state == Ready && !s.renewing
    requires l.id !in s.granted && l == Lease(l.id, id, l.workerId, s.board.tasks[id].version + 1, now + cfg.ttl)
    ensures Rests(cfg, Left(s, rest), Popped(now, id), Granted(LeasedOut(s, id, rest), l))
  {
    hide Rests;
    var s1 := LeasedOut(s, id, rest);
    RestsNow(cfg, Granted(s1, l), Granted(s1, l));
    RestsOn(cfg, s1, Picking(now, Moved(s.board.tasks[id], Leased)), Granted(s1, l), Idle, Granted(s1, l));
    RestsPicking(cfg, s, now, id, rest, Granted(s1, l));
  }

  lemma RestsPutBack(cfg: TaskLife.Config, s: Shared, now: int, id: string, rest: Contents)
    requires StoreOk(s) && id in s.board.tasks && s.board.tasks[id].state == Ready && id !in rest
    ensures Rests(cfg, Left(s, rest), Popped(now, id), PutBackOn(s, id, rest, now))
  {
    hide Rests;
    var s1, t, s' := LeasedOut(s, id, rest), Moved(s.board.tasks[id], Leased), PutBackOn(s, id, rest, now);
    PutsBack(cfg, s, now, id, rest);
    RestsNow(cfg, s', s');
    RestsOn(cfg, s1, Picking(now, t), s1, PuttingBack(now, t), s');
    RestsPicking(cfg, s, now, id, rest, s');
  }

  lemma RestsMissing(cfg: TaskLife.Config, s: Shared, now: int, id: string, rest: Contents)
    requires id !in s.board.tasks
    ensures Rests(cfg, Left(s, rest), Popped(now, id), Left(s, rest))
  {
    hide Rests;
    RestsNow(cfg, Left(s, rest), Left(s, rest));
    RestsOn(cfg, Left(s, rest), Popped(now, id), Left(s, rest), Idle, Left(s, rest));
  }

  /** Whatever its specification allows, an uninterrupted Assign can do. */
  lemma AssignComplete(cfg: TaskLife.Config, s: Shared, now: int, s': Shared, worker: Option<string>, leaseId: string,
      r: AssignResult)
    requires StoreOk(s) && !s.renewing && Assigns(cfg.ttl, s, now, s', worker, leaseId, r)
    ensures Rests(cfg, s, Popping(now), s')
  {
    hide Rests, StoreOk, Settles, LeasedOut, PutBackOn;
    var ts, q := s.board.tasks, s.board.ready;
    assert Left(s, q) == s;
    match r
    case NoReadyTask =>
      DropsAll(cfg, s, now, q);
    case TaskMissing =>
      var id :| id !in ts && Settles(ts, q, id, s'.board.ready);
      RestsMissing(cfg, s, now, id, s'.board.ready);
      DropsTo(cfg, s, now, q, id, s'.board.ready, s');
    case NoWorker =>
      PutBackComplete(cfg, s, now, s');
    case Assigned(l) =>
      GrantComplete(cfg, s, now, s', worker, leaseId, l);
  }

  lemma PutBackComplete(cfg: TaskLife.Config, s: Shared, now: int, s': Shared)
    requires StoreOk(s) && Assigns(cfg.ttl, s, now, s', None, "", NoWorker)
    ensures Rests(cfg, s, Popping(now), s')
  {
    hide Rests, Settles, StoreOk;
    var ts, q := s.board.tasks, s.board.ready;
    assert Left(s, q) == s;
    var id :| RolledBack(ts, q, s'.board.tasks, s'.board.ready, now, id);
    var rest :| Settles(ts, q, id, rest) && s'.board.ready == rest[id := Item(id, ts[id].priority, now)];
    SettlesHas(ts, q, id, rest);
    assert s' == PutBackOn(s, id, rest, now);
    RestsPutBack(cfg, s, now, id, rest);
    DropsTo(cfg, s, now, q, id, rest, s');
  }

  lemma GrantComplete(cfg: TaskLife.Config, s: Shared, now: int, s': Shared, worker: Option<string>, leaseId: string,
      l: Lease)
    requires StoreOk(s) && !s.renewing && Assigns(cfg.ttl, s, now, s', worker, leaseId, Assigned(l))
    ensures Rests(cfg, s, Popping(now), s')
  {
    hide Rests, Settles;
    var ts, q := s.board.tasks, s.board.ready;
    assert Left(s, q) == s;
    SettlesHas(ts, q, l.taskId, s'.board.ready);
    assert s' == Granted(LeasedOut(s, l.taskId, s'.board.ready), l);
    RestsGranted(cfg, s, now, l.taskId, s'.board.ready, l);
    DropsTo(cfg, s, now, q, l.taskId, s'.board.ready, s');
  }

  /** Stale entries, an empty queue, a missing task, a failed pick and a grant included. */
  lemma AssignAlone(cfg: TaskLife.Config, g: Global, i: nat, now: int, h: Global)
    requires i < |g.pcs| && g.pcs[i] == Popping(now) && StoreOk(g.s) && !g.s.renewing
    ensures Uninterrupted(cfg, g, i, h) <==> h == Put(g, i, h.s, Idle) && AssignEnds(cfg.ttl, g.s, now, h.s)
  {
    hide Uninterrupted, Rests, StoreOk, Assigns, Dropped;
    UninterruptedIff(cfg, g, i, h);
    if Rests(cfg, g.s, Popping(now), h.s) {
      NoneDropped(g.s.board.tasks, g.s.board.ready);
      assert Left(g.s, g.s.board.ready) == g.s;
      AssignSound(cfg, g.s, now, g.s.board.ready, h.s);
    }
    if AssignEnds(cfg.ttl, g.s, now, h.s) {
      var worker, leaseId, r :| Assigns(cfg.ttl, g.s, now, h.s, worker, leaseId, r);
      AssignComplete(cfg, g.s, now, h.s, worker, leaseId, r);
    }
  }

  // ---------- a report ----------

  /** The state once the outcome of a report is in the store and the queues, and the lease is still recorded. */
  function ReportedOn(s: Shared, l: Lease, r: Report, delay: int): Shared {
    WithSystem(s, Recorded(SystemOf(s), l, r, delay)).(lm := s.lm)
  }

  lemma ReportBecomes(cfg: TaskLife.Config, s: Shared, l: Lease, r: Report)
    requires StoreOk(s) && !s.renewing
    ensures Becomes(cfg, s, Reporting(l, r), ReportedOn(s, l, r, cfg.retryDelay), Releasing(l))
  {
    hide Becomes, ReportedOn, ResultSection, Accepts, Written;
    var ts, pc := s.board.tasks, Reporting(l, r);
    Stays(cfg, s, pc);
    if l.taskId !in ts {
      Missing(cfg, s, l, r);
      RunsResult(cfg, s, pc, s, pc, s, Releasing(l));
      return;
    }
    Looks(cfg, s, l, r);
    RunsResult(cfg, s, pc, s, pc, s, Checking(l, r, ts[l.taskId]));
    if !Accepts(SystemOf(s), l) {
      RunsResult(cfg, s, pc, s, Checking(l, r, ts[l.taskId]), s, Releasing(l));
    } else {
      RunsResult(cfg, s, pc, s, Checking(l, r, ts[l.taskId]), Written(s, l, r), Applying(l, r, ts[l.taskId]));
      ApplyBecomes(cfg, s, pc, s, l, r);
    }
  }

  lemma Missing(cfg: TaskLife.Config, s: Shared, l: Lease, r: Report)
    requires l.taskId !in s.board.tasks
    ensures ResultSection(cfg.retryDelay, s, Reporting(l, r), s, Releasing(l))
        && ReportedOn(s, l, r, cfg.retryDelay) == s
  {
  }

  /** The reads that precede the outcome. */
  lemma Looks(cfg: TaskLife.Config, s: Shared, l: Lease, r: Report)
    requires !s.renewing && l.taskId in s.board.tasks
    ensures var t := s.board.tasks[l.taskId];
      && ResultSection(cfg.retryDelay, s, Reporting(l, r), s, Checking(l, r, t))
      && (Accepts(SystemOf(s), l) ==>
            ResultSection(cfg.retryDelay, s, Checking(l, r, t), Written(s, l, r), Applying(l, r, t)))
      && (!Accepts(SystemOf(s), l) ==>
            ResultSection(cfg.retryDelay, s, Checking(l, r, t), s, Releasing(l))
            && ReportedOn(s, l, r, cfg.retryDelay) == s)
  {
    hide CurrentLease, Written;
  }

  lemma ApplyBecomes(cfg: TaskLife.Config, s0: Shared, pc0: Pc, s: Shared, l: Lease, r: Report)
    requires StoreOk(s) && Accepts(SystemOf(s), l)
    requires Becomes(cfg, s0, pc0, Written(s, l, r), Applying(l, r, s.board.tasks[l.taskId]))
    ensures Becomes(cfg, s0, pc0, ReportedOn(s, l, r, cfg.retryDelay), Releasing(l))
  {
    hide Becomes, CurrentLease, ReportedOn, Written, StoreOk;
    var ts, t, w := s.board.tasks, s.board.tasks[l.taskId], Written(s, l, r);
    WrittenKeeps(s, l, r);
    if WouldRetry(r, t) {
      RetryReports(cfg, s, l, r);
      var s1 := With(w, Retried(ts, t.id, r.finishedAt + cfg.retryDelay, t.version));
      RunsResult(cfg, s0, pc0, w, Applying(l, r, t), s1, Delaying(l, s1.board.tasks[t.id]));
      RunsResult(cfg, s0, pc0, s1, Delaying(l, s1.board.tasks[t.id]), ReportedOn(s, l, r, cfg.retryDelay),
        Releasing(l));
    } else {
      EndReports(cfg, s, l, r);
      RunsResult(cfg, s0, pc0, w, Applying(l, r, t), ReportedOn(s, l, r, cfg.retryDelay), Releasing(l));
    }
  }

  lemma WrittenKeeps(s: Shared, l: Lease, r: Report)
    ensures Written(s, l, r).board == s.board
  {
  }

  lemma RetryReports(cfg: TaskLife.Config, s: Shared, l: Lease, r: Report)
    requires StoreOk(s) && Accepts(SystemOf(s), l) && WouldRetry(r, s.board.tasks[l.taskId])
    ensures var (ts, t, w) := (s.board.tasks, s.board.tasks[l.taskId], Written(s, l, r));
      var s1 := With(w, Retried(ts, t.id, r.finishedAt + cfg.retryDelay, t.version));
      && CanRetry(ts, t.id, t.version) && t.id in s1.board.tasks
      && ResultSection(cfg.retryDelay, w, Applying(l, r, t), s1, Delaying(l, s1.board.tasks[t.id]))
      && ResultSection(cfg.retryDelay, s1, Delaying(l, s1.board.tasks[t.id]), ReportedOn(s, l, r, cfg.retryDelay),
           Releasing(l))
  {
    hide CurrentLease, Noted, Released, KeepEarlier;
  }

  lemma EndReports(cfg: TaskLife.Config, s: Shared, l: Lease, r: Report)
    requires StoreOk(s) && Accepts(SystemOf(s), l) && !WouldRetry(r, s.board.tasks[l.taskId])
    ensures var (t, w) := (s.board.tasks[l.taskId], Written(s, l, r));
      ResultSection(cfg.retryDelay, w, Applying(l, r, t), ReportedOn(s, l, r, cfg.retryDelay), Releasing(l))
  {
    hide CurrentLease, Noted, Released;
  }

  /** A worker's report and release. */
  lemma FinishBecomes(cfg: TaskLife.Config, s: Shared, l: Lease, r: Report)
    requires StoreOk(s) && !s.renewing
    ensures Becomes(cfg, s, Reporting(l, r), WithSystem(s, Worker.Finished(SystemOf(s), l, r, cfg.retryDelay)), Idle)
  {
    hide Becomes, StoreOk, Recorded, RecordOutcome, Released;
    var s' := ReportedOn(s, l, r, cfg.retryDelay);
    ReportBecomes(cfg, s, l, r);
    RunsResult(cfg, s, Reporting(l, r), s', Releasing(l), s'.(lm := Released(s'.lm, l.id)), Idle);
    Protocol.FinishReleases(SystemOf(s), l, r, cfg.retryDelay);
  }

  lemma FinishAlone(cfg: TaskLife.Config, g: Global, i: nat, l: Lease, r: Report, h: Global)
    requires i < |g.pcs| && g.pcs[i] == Reporting(l, r) && StoreOk(g.s) && !g.s.renewing
    ensures Uninterrupted(cfg, g, i, h) <==>
      h == Put(g, i, WithSystem(g.s, Worker.Finished(SystemOf(g.s), l, r, cfg.retryDelay)), Idle)
  {
    hide Becomes, Uninterrupted, StoreOk, Worker.Finished;
    FinishBecomes(cfg, g.s, l, r);
    EndsIn(cfg, g, i, h, WithSystem(g.s, Worker.Finished(SystemOf(g.s), l, r, cfg.retryDelay)));
  }

  // ---------- a cron update and a renewal ----------

  lemma SavingBecomes(cfg: TaskLife.Config, s0: Shared, pc0: Pc, s: Shared, t: Task)
    requires Becomes(cfg, s0, pc0, s, Saving(t))
    ensures Becomes(cfg, s0, pc0, if Accepted(s, t) then SavedOn(s, t) else s, Idle)
  {
    hide Becomes, Stored, Accepted, Tracked;
    if Accepted(s, t) {
      RunsSave(cfg, s0, pc0, s, Saving(t), Stored(s, t), Tracking(t));
      RunsSave(cfg, s0, pc0, Stored(s, t), Tracking(t), SavedOn(s, t), Idle);
    } else {
      RunsSave(cfg, s0, pc0, s, Saving(t), s, Idle);
    }
  }

  lemma UpdateBecomes(cfg: TaskLife.Config, s: Shared, id: string, cron: string, now: int)
    requires CronParse.Compiled(cron).Some?
    ensures var r := Handlers.UpdateOutcome(s.board, s.names, id, cron, now);
      Becomes(cfg, s, Editing(id, cron, now), if r.Updated? then SavedOn(s, r.task) else s, Idle)
  {
    hide Becomes, SavedOn, SaveError, CronParse.Compiled, Protocol.Rewritten;
    var ts, pc := s.board.tasks, Editing(id, cron, now);
    Stays(cfg, s, pc);
    if id in ts && ts[id].trigger.kind == "cron" {
      var t := Protocol.Rewritten(ts[id], cron, now);
      RunsSave(cfg, s, pc, s, pc, s, Saving(t));
      SavingBecomes(cfg, s, pc, s, t);
    } else {
      RunsSave(cfg, s, pc, s, pc, s, Idle);
    }
  }

  /** The update answers and leaves behind just what the handler does. */
  lemma UpdateAlone(cfg: TaskLife.Config, g: Global, i: nat, id: string, cron: string, now: int, h: Global)
    requires i < |g.pcs| && g.pcs[i] == Editing(id, cron, now) && CronParse.Compiled(cron).Some?
    ensures var (b, r) := (g.s.board, Handlers.UpdateOutcome(g.s.board, g.s.names, id, cron, now));
      Uninterrupted(cfg, g, i, h) <==>
        h == Put(g, i, if r.Updated? then
          g.s.(board := Tracked(b.(tasks := Saved(b.tasks, r.task)), r.task),
               names := SavedNames(b.tasks, g.s.names, r.task))
                       else g.s, Idle)
  {
    hide Becomes, Uninterrupted, Handlers.UpdateOutcome, Saved, SavedNames;
    var r := Handlers.UpdateOutcome(g.s.board, g.s.names, id, cron, now);
    UpdateBecomes(cfg, g.s, id, cron, now);
    EndsIn(cfg, g, i, h, if r.Updated? then SavedOn(g.s, r.task) else g.s);
  }

  lemma RenewBecomes(cfg: TaskLife.Config, s: Shared, leaseId: string, workerId: string, now: int)
    requires LeasesOk(s) && !s.renewing
    ensures Becomes(cfg, s, Renewing(leaseId, workerId, now),
                    s.(lm := RenewedMaps(s.board.tasks, s.lm, leaseId, workerId, now + cfg.ttl)), Idle)
  {
    hide Becomes, Released;
    var ts, pc := s.board.tasks, Renewing(leaseId, workerId, now);
    Stays(cfg, s, pc);
    match RenewOutcome(ts, s.lm, leaseId, workerId)
    case Renewed | Stale =>
      var l := s.lm.leases[leaseId];
      var s1, s2 := s.(renewing := true), s.(lm := RenewedMaps(ts, s.lm, leaseId, workerId, now + cfg.ttl));
      RunsRenew(cfg, s, pc, s, pc, s1, Comparing(l, ts[l.taskId], now));
      RunsRenew(cfg, s, pc, s1, Comparing(l, ts[l.taskId], now), s2, Idle);
    case _ =>
      RunsRenew(cfg, s, pc, s, pc, s, Idle);
  }

  lemma RenewAlone(cfg: TaskLife.Config, g: Global, i: nat, leaseId: string, workerId: string, now: int, h: Global)
    requires i < |g.pcs| && g.pcs[i] == Renewing(leaseId, workerId, now) && LeasesOk(g.s) && !g.s.renewing
    ensures Uninterrupted(cfg, g, i, h) <==>
      h == Put(g, i, g.s.(lm := RenewedMaps(g.s.board.tasks, g.s.lm, leaseId, workerId, now + cfg.ttl)), Idle)
  {
    hide Becomes, Uninterrupted, LeasesOk, RenewedMaps;
    RenewBecomes(cfg, g.s, leaseId, workerId, now);
    EndsIn(cfg, g, i, h, g.s.(lm := RenewedMaps(g.s.board.tasks, g.s.lm, leaseId, workerId, now + cfg.ttl)));
  }

  // ---------- ReapExpired ----------

  /** The shared state once an expired lease has been dealt with. */
  function Reclaimed(s: Shared, now: int, l: Lease): Shared {
    if !Holds(s.board.tasks, l) then s
    else
      Counting(
        s.(board := s.board.(
          tasks := s.board.tasks[l.taskId := Moved(s.board.tasks[l.taskId], Ready)],
          ready := Added(s.board.ready, Item(l.taskId, s.board.tasks[l.taskId].priority, now)))),
        0, 1)
  }

  /** One expired lease: two sections and a push, or just a look. */
  lemma ReclaimOne(cfg: TaskLife.Config, s0: Shared, pc0: Pc, s: Shared, now: int, l: Lease, rest: seq<Lease>)
    requires StoreOk(s) && Becomes(cfg, s0, pc0, s, Reclaiming(now, [l] + rest))
    ensures Becomes(cfg, s0, pc0, Reclaimed(s, now, l), Reclaiming(now, rest)) && StoreOk(Reclaimed(s, now, l))
  {
    hide Becomes;
    var ts := s.board.tasks;
    assert ([l] + rest)[1..] == rest;
    if !Holds(ts, l) {
      RunsReap(cfg, s0, pc0, s, Reclaiming(now, [l] + rest), s, Reclaiming(now, rest));
    } else {
      var t := Moved(ts[l.taskId], Ready);
      var s1 := Counting(With(s, ts[l.taskId := t]), 0, 1);
      RunsReap(cfg, s0, pc0, s, Reclaiming(now, [l] + rest), s, Retaking(now, l, ts[l.taskId], rest));
      RunsReap(cfg, s0, pc0, s, Retaking(now, l, ts[l.taskId], rest), s1, Pushing(now, t, Reclaiming(now, rest)));
      RunsPush(cfg, s0, pc0, s1, now, t, Reclaiming(now, rest));
      assert Pushed(s1, t, now) == Reclaimed(s, now, l);
    }
  }

  /** The board once the tasks in ids have been given back. */
  function GivenBackOn(b: Board, ids: set<string>, now: int): Board {
    b.(tasks := ReadyAgain(b.tasks, ids), ready := Enqueued(b.tasks, b.ready, ids, now))
  }

  /** The shared state once the tasks in ids have been given back and counted. */
  function ReapedOn(s: Shared, ids: set<string>, now: int): Shared {
    Counting(s.(board := GivenBackOn(s.board, ids, now)), 0, |ids|)
  }

  lemma ReclaimMore(s: Shared, ids: set<string>, now: int, l: Lease)
    requires forall id :: id in ids ==> id in s.board.tasks && s.board.tasks[id].state == Leased
    ensures Reclaimed(ReapedOn(s, ids, now), now, l)
      == ReapedOn(s, ids + if Holds(s.board.tasks, l) then {l.taskId} else {}, now)
  {
    hide ReadyAgain, Enqueued, Added;
    var (ts, q) := (s.board.tasks, s.board.ready);
    var b := GivenBackOn(s.board, ids, now);
    GiveOneBack(ts, q, ids, now, b.tasks, b.ready, l);
    assert ids + {} == ids;
  }

  lemma ReclaimAll(cfg: TaskLife.Config, s0: Shared, pc0: Pc, s: Shared, now: int, expired: seq<Lease>)
    requires StoreOk(s) && Becomes(cfg, s0, pc0, s, Reclaiming(now, expired))
    ensures Becomes(cfg, s0, pc0, ReapedOn(s, Given(s.board.tasks, expired), now), Reclaiming(now, []))
  {
    hide Becomes, Given, StoreOk, Reclaimed, ReapedOn;
    var ts, u := s.board.tasks, s;
    NoneGiven(s, now);
    assert expired[0..] == expired && expired[..0] == [];
    for k := 0 to |expired|
      invariant Becomes(cfg, s0, pc0, u, Reclaiming(now, expired[k..])) && StoreOk(u)
      invariant u == ReapedOn(s, Given(ts, expired[..k]), now)
    {
      assert expired[k..] == [expired[k]] + expired[k + 1..];
      ReclaimOne(cfg, s0, pc0, u, now, expired[k], expired[k + 1..]);
      ReclaimMore(s, Given(ts, expired[..k]), now, expired[k]);
      GivenMore(ts, expired, k);
      u := Reclaimed(u, now, expired[k]);
    }
    assert expired[..|expired|] == expired && expired[|expired|..] == [];
  }

  lemma NoneGiven(s: Shared, now: int)
    ensures Given(s.board.tasks, []) == {} && ReapedOn(s, {}, now) == s
  {
    NoneGivenBack(s.board.tasks, s.board.ready, now);
  }

  lemma GivenMore(ts: Tasks, expired: seq<Lease>, k: nat)
    requires k < |expired|
    ensures Given(ts, expired[..k + 1]) == Given(ts, expired[..k]) + if Holds(ts, expired[k]) then {expired[k].taskId}
        else {}
  {
    assert expired[..k + 1][..k] == expired[..k];
  }

  /** Any finite set of leases can be listed. */
  lemma {:induction false} LeasesListed(leases: map<string, Lease>, ids: set<string>) returns (expired: seq<Lease>)
    requires ids <= leases.Keys
    ensures ListsLeases(leases, ids, expired)
    decreases ids
  {
    hide ListsLeases;
    NoneListed(leases);
    if ids == {} {
      expired := [];
    } else {
      var id :| id in ids;
      var rest := LeasesListed(leases, ids - {id});
      ListsOneMore(leases, ids - {id}, rest, id);
      assert ids - {id} + {id} == ids;
      expired := rest + [leases[id]];
    }
  }

  /** In whatever order the expired leases come. */
  lemma ReapBecomes(cfg: TaskLife.Config, s: Shared, now: int)
    requires StoreOk(s) && !s.renewing
    ensures var s1 := s.(lm := Unexpired(s.lm, now));
      Becomes(cfg, s, Reaping(now), ReapedOn(s1, Reapable(s.board.tasks, s.lm, now), now), Idle)
  {
    hide Becomes, Unexpired, Reapable, ListsLeases, ReapedOn, StoreOk, Given, Late;
    var s1 := s.(lm := Unexpired(s.lm, now));
    var s2 := ReapedOn(s1, Reapable(s.board.tasks, s.lm, now), now);
    LateLeases(s.lm, now);
    var some := LeasesListed(s.lm.leases, Late(s.lm, now));
    assert Section(cfg, s, Reaping(now), s1, Reclaiming(now, some));
    forall s3, pc3 | Section(cfg, s, Reaping(now), s3, pc3) ensures Becomes(cfg, s3, pc3, s2, Idle) {
      SameTasks(s, s1);
      Stays(cfg, s1, pc3);
      ReclaimAll(cfg, s1, pc3, s1, now, pc3.expired);
      GivenIsReapable(s.board.tasks, s.lm, now, pc3.expired);
      RunsReap(cfg, s1, pc3, s2, Reclaiming(now, []), s2, Idle);
    }
    Meets(cfg, s, Reaping(now), s2, Idle);
  }

  lemma LateLeases(lm: LeaseMaps, now: int)
    ensures Late(lm, now) <= lm.leases.Keys
  {
  }

  lemma SameTasks(s: Shared, s': Shared)
    requires StoreOk(s) && s'.board.tasks == s.board.tasks && s'.drawn == s.drawn
    ensures StoreOk(s')
  {
  }

  lemma ReapAlone(cfg: TaskLife.Config, g: Global, i: nat, now: int, h: Global)
    requires i < |g.pcs| && g.pcs[i] == Reaping(now) && StoreOk(g.s) && !g.s.renewing
    ensures var (b, c, ids) := (g.s.board, g.s.counters, Reapable(g.s.board.tasks, g.s.lm, now));
      Uninterrupted(cfg, g, i, h) <==>
        h == Put(g, i, g.s.(lm := Unexpired(g.s.lm, now),
                            board := b.(tasks := ReadyAgain(b.tasks, ids),
                              ready := Enqueued(b.tasks, b.ready, ids, now)),
                            counters := c.(expired := c.expired + |ids|)), Idle)
  {
    hide Becomes, Uninterrupted, Unexpired, Reapable, ReadyAgain, Enqueued, StoreOk;
    ReapBecomes(cfg, g.s, now);
    EndsIn(cfg, g, i, h, ReapedOn(g.s.(lm := Unexpired(g.s.lm, now)), Reapable(g.s.board.tasks, g.s.lm, now), now));
  }

  // ---------- Tick ----------

  lemma FireOne(cfg: TaskLife.Config, s0: Shared, pc0: Pc, s: Shared, now: int, id: string, rest: seq<string>)
    requires StoreOk(s) && Becomes(cfg, s0, pc0, s, Firing(now, [id] + rest))
    ensures var s' := s.(board := FiredOne(s.board, id, now));
      Becomes(cfg, s0, pc0, s', Firing(now, rest)) && StoreOk(s')
  {
    hide Becomes, Recurs, NextRun, Added;
    var ts, b := s.board.tasks, s.board;
    var s' := s.(board := FiredOne(b, id, now));
    assert ([id] + rest)[1..] == rest;
    if id !in ts {
      RunsTick(cfg, s0, pc0, s, Firing(now, [id] + rest), s, Forgetting(now, id, rest));
      RunsTick(cfg, s0, pc0, s, Forgetting(now, id, rest), s', Firing(now, rest));
    } else if ts[id].state != Pending {
      RunsTick(cfg, s0, pc0, s, Firing(now, [id] + rest), s, Firing(now, rest));
    } else {
      RunsTick(cfg, s0, pc0, s, Firing(now, [id] + rest), s, Marking(now, id, rest));
      FirePending(cfg, s0, pc0, s, now, id, rest);
    }
  }

  lemma FirePending(cfg: TaskLife.Config, s0: Shared, pc0: Pc, s: Shared, now: int, id: string, rest: seq<string>)
    requires StoreOk(s) && id in s.board.tasks && s.board.tasks[id].state == Pending
    requires Becomes(cfg, s0, pc0, s, Marking(now, id, rest))
    ensures Becomes(cfg, s0, pc0, s.(board := FiredOne(s.board, id, now)), Firing(now, rest))
  {
    hide Becomes, Added, Recurs, NextRun;
    var ts := s.board.tasks;
    var t := Moved(ts[id], Ready);
    var s1 := With(s, ts[id := t]);
    SameTrigger(ts[id], now);
    if Recurs(t) {
      var next := NextRun(t, now);
      RunsTick(cfg, s0, pc0, s, Marking(now, id, rest), s1, Pushing(now, t, Advancing(now, id, next, rest)));
      RunsPush(cfg, s0, pc0, s1, now, t, Advancing(now, id, next, rest));
      AdvanceOne(cfg, s0, pc0, Pushed(s1, t, now), now, id, next, rest);
      assert Pushed(s1, t, now).board.tasks[id := t.(nextRunAt := next)] == ts[id := FiredTask(ts[id], now)];
    } else {
      RunsTick(cfg, s0, pc0, s, Marking(now, id, rest), s1, Pushing(now, t, Firing(now, rest)));
      RunsPush(cfg, s0, pc0, s1, now, t, Firing(now, rest));
      assert Pushed(s1, t, now) == s.(board := FiredOne(s.board, id, now));
    }
  }

  lemma AdvanceOne(cfg: TaskLife.Config, s0: Shared, pc0: Pc, s: Shared, now: int, id: string, next: int,
      rest: seq<string>)
    requires id in s.board.tasks && Becomes(cfg, s0, pc0, s, Advancing(now, id, next, rest))
    ensures var b := s.board;
      Becomes(cfg, s0, pc0,
        s.(board := b.(tasks := b.tasks[id := b.tasks[id].(nextRunAt := next)], nextFire := b.nextFire[id := next])),
              Firing(now, rest))
  {
    hide Becomes;
    var ts := s.board.tasks;
    var s1 := With(s, ts[id := ts[id].(nextRunAt := next)]);
    var s2 := s1.(board := s1.board.(nextFire := s1.board.nextFire[id := next]));
    RunsTick(cfg, s0, pc0, s, Advancing(now, id, next, rest), s1, Indexing(now, id, next, rest));
    RunsTick(cfg, s0, pc0, s1, Indexing(now, id, next, rest), s2, Firing(now, rest));
  }

  lemma SameTrigger(t: Task, now: int)
    ensures Recurs(Moved(t, Ready)) == Recurs(t) && NextRun(Moved(t, Ready), now) == NextRun(t, now)
    ensures !Recurs(t) ==> FiredTask(t, now) == Moved(t, Ready)
  {
  }

  lemma PromoteOne(cfg: TaskLife.Config, s0: Shared, pc0: Pc, s: Shared, now: int, id: string, rest: seq<string>,
      s': Shared)
    requires StoreOk(s) && Becomes(cfg, s0, pc0, s, Promoting(now, [id] + rest))
    requires s' == if id in s.board.tasks && s.board.tasks[id].state == Ready
                   then s.(board := s.board.(ready := Added(s.board.ready, Item(id, s.board.tasks[id].priority, now))))
                     else s
    ensures Becomes(cfg, s0, pc0, s', Promoting(now, rest))
  {
    hide Becomes, Added;
    var ts := s.board.tasks;
    assert ([id] + rest)[1..] == rest;
    if id in ts && ts[id].state == Ready {
      RunsTick(cfg, s0, pc0, s, Promoting(now, [id] + rest), s, Pushing(now, ts[id], Promoting(now, rest)));
      RunsPush(cfg, s0, pc0, s, now, ts[id], Promoting(now, rest));
    } else {
      RunsTick(cfg, s0, pc0, s, Promoting(now, [id] + rest), s, Promoting(now, rest));
    }
  }

  lemma TakeOne(ids: seq<string>, k: nat)
    requires Distinct(ids) && k < |ids|
    ensures ids[k..] == [ids[k]] + ids[k + 1..]
    ensures Ids(ids[..k + 1]) == Ids(ids[..k]) + {ids[k]} && ids[k] !in Ids(ids[..k])
  {
    assert ids[..k + 1] == ids[..k] + [ids[k]];
  }

  lemma FireAll(cfg: TaskLife.Config, s: Shared, now: int, due: seq<string>)
    requires StoreOk(s) && ListsIds(due, DueIds(s.board.nextFire, now))
    ensures var s' := s.(board := Fired(s.board, DueIds(s.board.nextFire, now), now));
      Becomes(cfg, s, Firing(now, due), s', Firing(now, [])) && StoreOk(s')
  {
    hide Becomes, StoreOk, Fired, FiredOne;
    var b, u := s.board, s;
    NoneFired(b, now);
    Stays(cfg, s, Firing(now, due));
    assert due[..0] == [] && Ids([]) == {} && due[0..] == due;
    for k := 0 to |due|
      invariant u == s.(board := Fired(b, Ids(due[..k]), now)) && StoreOk(u)
      invariant Becomes(cfg, s, Firing(now, due), u, Firing(now, due[k..]))
    {
      TakeOne(due, k);
      assert due[k] in due;
      FireOneMore(b, Ids(due[..k]), due[k], now);
      FireOne(cfg, s, Firing(now, due), u, now, due[k], due[k + 1..]);
      u := u.(board := FiredOne(u.board, due[k], now));
    }
    assert due[..|due|] == due && due[|due|..] == [] && Ids(due) == DueIds(b.nextFire, now);
  }

  lemma PromoteAll(cfg: TaskLife.Config, s: Shared, now: int, entries: seq<string>)
    requires StoreOk(s) && Distinct(entries)
    ensures Becomes(cfg, s, Promoting(now, entries), s.(board := Promoted(s.board, Ids(entries), now)),
        Promoting(now, []))
  {
    hide Becomes, StoreOk, Promoted;
    var b, u := s.board, s;
    NonePromoted(b, now);
    Stays(cfg, s, Promoting(now, entries));
    assert entries[..0] == [] && Ids([]) == {} && entries[0..] == entries;
    for k := 0 to |entries|
      invariant u == s.(board := Promoted(b, Ids(entries[..k]), now))
      invariant Becomes(cfg, s, Promoting(now, entries), u, Promoting(now, entries[k..]))
    {
      var id, was := entries[k], u;
      TakeOne(entries, k);
      PromoteOneMore(b, Ids(entries[..k]), id, now);
      PromotedTasks(b, Ids(entries[..k]), now);
      SameTasks(s, u);
      u := if id in b.tasks && b.tasks[id].state == Ready
           then u.(board := u.board.(ready := Added(u.board.ready, Item(id, b.tasks[id].priority, now)))) else u;
      PromoteOne(cfg, s, Promoting(now, entries), was, now, id, entries[k + 1..], u);
    }
    assert entries[..|entries|] == entries && entries[|entries|..] == [];
  }

  lemma PromotedTasks(b: Board, ids: set<string>, now: int)
    ensures Promoted(b, ids, now).tasks == b.tasks
  {
  }

  /** Any finite set of ids can be listed. */
  lemma {:induction false} IdsListed(all: set<string>) returns (ids: seq<string>)
    ensures ListsIds(ids, all)
    decreases all
  {
    if all == {} {
      ids := [];
    } else {
      var id :| id in all;
      var rest := IdsListed(all - {id});
      ids := rest + [id];
    }
  }

  /** In whatever order the due tasks come. */
  lemma FiringBecomes(cfg: TaskLife.Config, s: Shared, now: int)
    requires StoreOk(s)
    ensures var s1 := s.(board := Fired(s.board, DueIds(s.board.nextFire, now), now));
      Becomes(cfg, s, Ticking(now), s1, Firing(now, [])) && StoreOk(s1)
  {
    hide Becomes, StoreOk, Fired, ListsIds, DueIds;
    var s1 := s.(board := Fired(s.board, DueIds(s.board.nextFire, now), now));
    var some := IdsListed(DueIds(s.board.nextFire, now));
    FireAll(cfg, s, now, some);
    assert Section(cfg, s, Ticking(now), s, Firing(now, some));
    forall s2, pc2 | Section(cfg, s, Ticking(now), s2, pc2) ensures Becomes(cfg, s2, pc2, s1, Firing(now, [])) {
      FireAll(cfg, s, now, pc2.due);
    }
    Meets(cfg, s, Ticking(now), s1, Firing(now, []));
  }

  /** In whatever order the due entries come. */
  lemma PromotingBecomes(cfg: TaskLife.Config, s: Shared, now: int)
    requires StoreOk(s)
    ensures var s1 := s.(board := s.board.(delayed := After(s.board.delayed, now)));
      Becomes(cfg, s, Firing(now, []), s1.(board := Promoted(s1.board, DueDelayed(s.board.delayed, now), now)), Idle)
  {
    hide Becomes, StoreOk, Promoted, ListsIds, DueDelayed, After;
    var s1 := s.(board := s.board.(delayed := After(s.board.delayed, now)));
    var s2 := s1.(board := Promoted(s1.board, DueDelayed(s.board.delayed, now), now));
    var some := IdsListed(DueDelayed(s.board.delayed, now));
    assert Section(cfg, s, Firing(now, []), s1, Promoting(now, some));
    SameTasks(s, s1);
    forall s3, pc3 | Section(cfg, s, Firing(now, []), s3, pc3) ensures Becomes(cfg, s3, pc3, s2, Idle) {
      ListedIds(pc3.entries, DueDelayed(s.board.delayed, now));
      PromoteAll(cfg, s1, now, pc3.entries);
      RunsTick(cfg, s1, pc3, s2, Promoting(now, []), s2, Idle);
    }
    Meets(cfg, s, Firing(now, []), s2, Idle);
  }

  lemma ListedIds(ids: seq<string>, all: set<string>)
    requires ListsIds(ids, all)
    ensures Distinct(ids) && Ids(ids) == all
  {
  }

  lemma TickAlone(cfg: TaskLife.Config, g: Global, i: nat, now: int, h: Global)
    requires i < |g.pcs| && g.pcs[i] == Ticking(now) && StoreOk(g.s)
    ensures Uninterrupted(cfg, g, i, h) <==> h == Put(g, i, g.s.(board := Ticked(g.s.board, now)), Idle)
  {
    hide Becomes, Uninterrupted, StoreOk, Fired, Promoted, After, DueDelayed, DueIds;
    var s, b := g.s, g.s.board;
    var s1 := s.(board := Fired(b, DueIds(b.nextFire, now), now));
    FiringBecomes(cfg, s, now);
    PromotingBecomes(cfg, s1, now);
    var s2 := s.(board := Ticked(b, now));
    Chains(cfg, s, Ticking(now), s1, Firing(now, []), s2, Idle);
    EndsIn(cfg, g, i, h, s2);
  }

  // ---------- an uninterrupted call is a call of the operation level ----------

  /** Where a thread stands that has just begun the call. */
  function BeginningOf(op: Protocol.Op): Pc {
    match op
    case CancelTask(id) => Canceling(id)
    case TriggerNow(id, now) => Triggering(now, id)
    case Tick(now) => Ticking(now)
    case Assign(now, _, _, _) => Popping(now)
    case Finish(l, r) => Reporting(l, r)
    case Renew(leaseId, workerId, now) => Renewing(leaseId, workerId, now)
    case ReapExpired(now) => Reaping(now)
    case UpdateCron(id, cron, now) => Editing(id, cron, now)
    case _ => Idle
  }

  /** With no other in between, the sections of such a call do what the operation level says of it. */
  lemma UninterruptedDoes(cfg: TaskLife.Config, g: Global, i: nat, h: Global, op: Protocol.Op)
    requires Inv(g) && i < |g.pcs| && !g.s.renewing && g.pcs[i] == BeginningOf(op) && Uninterrupted(cfg, g, i, h)
    requires op.CancelTask? || op.TriggerNow? || op.Tick? || op.Finish? || op.Renew? || op.ReapExpired?
    ensures Protocol.Does(cfg, SystemOf(g.s), op, SystemOf(h.s))
  {
    hide Inv, Uninterrupted, StoreOk, LeasesOk, CanceledOn, Triggered, Ticked, Worker.Finished, RenewedMaps, Reapable,
      ReadyAgain, Enqueued, Unexpired;
    InvHas(g);
    match op
    case CancelTask(id) => CancelAlone(cfg, g, i, id, h);
    case TriggerNow(id, now) => TriggerAlone(cfg, g, i, now, id, h);
    case Tick(now) => TickAlone(cfg, g, i, now, h);
    case Finish(l, r) => FinishAlone(cfg, g, i, l, r, h);
    case Renew(leaseId, workerId, now) => RenewAlone(cfg, g, i, leaseId, workerId, now, h);
    case ReapExpired(now) => ReapAlone(cfg, g, i, now, h);
  }

  /** Assign, with whatever the picker and the generator answer. */
  lemma AssignDoes(cfg: TaskLife.Config, g: Global, i: nat, h: Global, now: int)
    returns (op: Protocol.Op)
    requires Inv(g) && i < |g.pcs| && !g.s.renewing && g.pcs[i] == Popping(now) && Uninterrupted(cfg, g, i, h)
    ensures op.Assign? && op.now == now && Protocol.Does(cfg, SystemOf(g.s), op, SystemOf(h.s))
    ensures op.r.Assigned? ==> op.leaseId !in g.s.granted
  {
    hide Inv, Uninterrupted, StoreOk, LeasesOk, AssignSpec;
    InvHas(g);
    AssignAlone(cfg, g, i, now, h);
    var worker, leaseId, r :| Assigns(cfg.ttl, g.s, now, h.s, worker, leaseId, r);
    op := Protocol.Op.Assign(now, worker, leaseId, r);
  }

  /** A cron update either leaves everything as it is or does what the operation level says. */
  lemma UpdateCronDoes(cfg: TaskLife.Config, g: Global, i: nat, h: Global, id: string, cron: string, now: int)
    requires Inv(g) && i < |g.pcs| && g.pcs[i] == Editing(id, cron, now) && CronParse.Compiled(cron).Some?
    requires Uninterrupted(cfg, g, i, h)
    ensures h.s == g.s || Protocol.Does(cfg, SystemOf(g.s), Protocol.Op.UpdateCron(id, cron, now), SystemOf(h.s))
  {
    hide Uninterrupted, Saved, SavedNames, CronParse.Compiled;
    UpdateAlone(cfg, g, i, id, cron, now, h);
  }

  /** A registration does what the operation level says. */
  lemma RegisterDoes(cfg: TaskLife.Config, g: Global, i: nat, g1: Global, t: Task, h: Global)
    requires Step(cfg, g, i, g1) && g.pcs[i].Idle? && g1.pcs[i] == Tracking(t) && Uninterrupted(cfg, g1, i, h)
    ensures Protocol.Does(cfg, SystemOf(g.s), Protocol.Op.Register(t), SystemOf(h.s))
  {
    hide Step, Uninterrupted, Saved, SavedNames;
    RegisterAlone(cfg, g, i, g1, t, h);
  }
}
