/** Every step keeps the scheduler's invariant, so every run does. */
module SchedulerInvariant {
  import opened Jobs
  import opened SchedulerState

  // --- Granting one worker ---------------------------------------------------------

  lemma BumpGet(c: Counter, k: string, d: int, q: string)
    ensures Get(Bump(c, k, d), q) == Get(c, q) + if q == k then d else 0
  {
  }

  lemma CountGrant(pools: Counter, clients: Counter, held: seq<Grant>, g: Grant)
    requires Counted(pools, clients, held)
    ensures Counted(Bump(pools, g.job.pool, 1), Bump(clients, g.job.client, 1), held + [g])
  {
    forall p
      ensures Get(Bump(pools, g.job.pool, 1), p) == Tally(held + [g], OfPool(p))
    {
      TallyAppend(held, g, OfPool(p));
      BumpGet(pools, g.job.pool, 1, p);
    }
    forall c
      ensures Get(Bump(clients, g.job.client, 1), c) == Tally(held + [g], OfClient(c))
    {
      TallyAppend(held, g, OfClient(c));
      BumpGet(clients, g.job.client, 1, c);
    }
  }

  lemma CapChange(cfg: Config, pools: Counter, p: string, d: int)
    requires Capped(cfg, pools)
    requires d > 0 && p in cfg.caps ==> Get(pools, p) + d <= cfg.caps[p]
    ensures Capped(cfg, Bump(pools, p, d))
  {
    forall q | q in cfg.caps
      ensures Get(Bump(pools, p, d), q) <= AtLeastZero(cfg.caps[q])
    {
      BumpGet(pools, p, d, q);
    }
  }

  lemma RankGrant(held: seq<Grant>, g: Grant)
    requires Ranked(held) && Tally(held, OfClient(g.job.client)) < g.job.concurrency
    ensures Ranked(held + [g])
  {
    TallyAppend(held, g, OfClient(g.job.client));
    assert (held + [g])[..|held|] == held;
  }

  lemma ConserveGrant(cfg: Config, free: seq<string>, held: seq<Grant>, g: Grant)
    requires Conserved(cfg, free, held) && free != [] && g.worker == free[0]
    ensures Conserved(cfg, free[1..], held + [g])
  {
    assert free == [free[0]] + free[1..];
    WorkersAppend(held, g);
  }

  lemma OwnGrant(held: seq<Grant>, tasks: map<nat, Task>, g: Grant)
    requires Owned(held, tasks)
    requires g.ticket in tasks && tasks[g.ticket] == Task(g.job, Pending, Suspended(false))
    ensures Owned(held + [g], tasks[g.ticket := Task(g.job, Granted(g.worker), Suspended(false))])
  {
    assert forall x :: x in held + [g] <==> x in held || x == g;
    forall i | 0 <= i < |held|
      ensures held[i].ticket != g.ticket
    {
      assert held[i] in held;
    }
  }

  lemma LogGrant(log: seq<Grant>, tasks: map<nat, Task>, g: Grant)
    requires Logged(log, tasks)
    requires g.ticket in tasks && tasks[g.ticket] == Task(g.job, Pending, Suspended(false))
    ensures Logged(log + [g], tasks[g.ticket := Task(g.job, Granted(g.worker), Suspended(false))])
  {
    assert forall x :: x in log + [g] <==> x in log || x == g;
    forall i | 0 <= i < |log|
      ensures log[i].ticket != g.ticket
    {
      assert log[i] in log;
    }
  }

  lemma RemoveAtMembers(q: seq<Waiter>, i: nat)
    requires i < |q| && Ordered(q)
    ensures Ordered(RemoveAt(q, i))
    ensures forall w :: w in RemoveAt(q, i) <==> w in q && w != q[i]
  {
    var r := RemoveAt(q, i);
    forall w | w in q && w != q[i]
      ensures w in r
    {
      var j :| 0 <= j < |q| && q[j] == w;
      assert w == if j < i then r[j] else r[j - 1];
    }
  }

  lemma QueueGrant(queue: seq<Waiter>, tasks: map<nat, Task>, i: nat, worker: string)
    requires Queued(queue, tasks) && i < |queue| && queue[i].ticket in tasks
    requires tasks[queue[i].ticket].future.Pending?
    ensures var t := queue[i].ticket;
            Queued(RemoveAt(queue, i), tasks[t := tasks[t].(future := Granted(worker))])
  {
    RemoveAtMembers(queue, i);
    assert queue[i] in queue;
  }

  lemma GrantCounts(cfg: Config, s: State, w: Waiter)
    requires s.free != [] && Consistent(cfg, s) && Eligible(cfg, s, w.job)
    ensures var g := Grant(w.ticket, s.free[0], w.job);
            && Conserved(cfg, s.free[1..], s.held + [g])
            && Counted(Bump(s.pools, w.job.pool, 1), Bump(s.clients, w.job.client, 1), s.held + [g])
            && Ranked(s.held + [g])
            && Capped(cfg, Bump(s.pools, w.job.pool, 1))
  {
    var g := Grant(w.ticket, s.free[0], w.job);
    CountGrant(s.pools, s.clients, s.held, g);
    assert Get(s.clients, w.job.client) == Tally(s.held, OfClient(w.job.client));
    RankGrant(s.held, g);
    ConserveGrant(cfg, s.free, s.held, g);
    CapChange(cfg, s.pools, w.job.pool, 1);
  }

  lemma GrantLists(s: State, i: nat)
    requires i < |s.queue| && s.free != [] && Waits(s.tasks, s.queue[i].ticket)
    requires Owned(s.held, s.tasks) && Logged(s.log, s.tasks)
    requires Queued(s.queue, s.tasks) && Tracked(s.tasks, s.nextTicket)
    ensures var s' := GrantAt(s, i);
            && Owned(s'.held, s'.tasks) && Logged(s'.log, s'.tasks)
            && Queued(s'.queue, s'.tasks) && Tracked(s'.tasks, s'.nextTicket)
  {
    var w := s.queue[i];
    var g := Grant(w.ticket, s.free[0], w.job);
    var tasks' := s.tasks[w.ticket := s.tasks[w.ticket].(future := Granted(g.worker))];
    assert w in s.queue;
    assert s.tasks[w.ticket] == Task(w.job, Pending, Suspended(false));
    assert Tracked(tasks', s.nextTicket);
    hide Owned, Logged, Queued, Tracked;
    OwnGrant(s.held, s.tasks, g);
    LogGrant(s.log, s.tasks, g);
    QueueGrant(s.queue, s.tasks, i, g.worker);
  }

  lemma GrantKeeps(cfg: Config, s: State, i: nat)
    requires i < |s.queue| && s.free != [] && Waits(s.tasks, s.queue[i].ticket)
    requires Consistent(cfg, s) && Eligible(cfg, s, s.queue[i].job)
    ensures Consistent(cfg, GrantAt(s, i))
  {
    GrantCounts(cfg, s, s.queue[i]);
    GrantLists(s, i);
  }

  lemma DropKeeps(cfg: Config, s: State, i: nat)
    requires i < |s.queue| && !Waits(s.tasks, s.queue[i].ticket) && Consistent(cfg, s)
    ensures Consistent(cfg, DropAt(s, i))
  {
    hide Queued;
    DropQueued(s.queue, s.tasks, i);
  }

  // --- Changing tasks without touching ownership ---------------------------------------

  lemma OwnSame(held: seq<Grant>, tasks: map<nat, Task>, tasks': map<nat, Task>)
    requires Owned(held, tasks) && tasks'.Keys == tasks.Keys
    requires forall t :: t in tasks ==>
               && Owns(tasks'[t]) == Owns(tasks[t])
               && (Owns(tasks[t]) ==> GrantOf(tasks', t) == GrantOf(tasks, t))
    ensures Owned(held, tasks')
  {
  }

  lemma LogSame(log: seq<Grant>, tasks: map<nat, Task>, tasks': map<nat, Task>)
    requires Logged(log, tasks) && tasks'.Keys == tasks.Keys
    requires forall t :: t in tasks ==>
               && tasks'[t].future.Granted? == tasks[t].future.Granted?
               && (tasks[t].future.Granted? ==> GrantOf(tasks', t) == GrantOf(tasks, t))
    ensures Logged(log, tasks')
  {
  }

  lemma QueueChange(queue: seq<Waiter>, tasks: map<nat, Task>, t: nat, task': Task)
    requires Queued(queue, tasks) && t in tasks && task'.job == tasks[t].job && !task'.future.Pending?
    requires (task'.phase.Suspended? && task'.future.Cancelled?) || forall w :: w in queue ==> w.ticket != t
    ensures Queued(queue, tasks[t := task'])
  {
  }

  // --- The dispatch pass -------------------------------------------------------------

  ghost predicate BlockedBefore(cfg: Config, s: State, i: nat)
    requires i <= |s.queue|
  {
    forall j :: 0 <= j < i ==> Waits(s.tasks, s.queue[j].ticket) ==> !Eligible(cfg, s, s.queue[j].job)
  }

  /** Eligibility can only be lost when a worker is granted. */
  lemma GrantBlocks(cfg: Config, s: State, i: nat, job: Job)
    requires i < |s.queue| && s.free != [] && s.queue[i].ticket in s.tasks
    ensures Eligible(cfg, GrantAt(s, i), job) ==> Eligible(cfg, s, job)
  {
  }

  lemma GrantKeepsBlocked(cfg: Config, s: State, i: nat)
    requires i < |s.queue| && s.free != [] && s.queue[i].ticket in s.tasks && BlockedBefore(cfg, s, i)
    ensures BlockedBefore(cfg, GrantAt(s, i), i)
  {
    var s1 := GrantAt(s, i);
    forall j | 0 <= j < i && Waits(s1.tasks, s1.queue[j].ticket)
      ensures !Eligible(cfg, s1, s1.queue[j].job)
    {
      assert Waits(s.tasks, s.queue[j].ticket);
      GrantBlocks(cfg, s, i, s.queue[j].job);
    }
  }

  lemma {:induction false} ScanConsistent(cfg: Config, s: State, i: nat)
    requires i <= |s.queue| && Consistent(cfg, s)
    ensures Consistent(cfg, Scan(cfg, s, i))
    decreases |s.queue| - i
  {
    hide Consistent;
    if i == |s.queue| || s.free == [] {
      assert Scan(cfg, s, i) == s;
    } else if !Waits(s.tasks, s.queue[i].ticket) {
      DropKeeps(cfg, s, i);
      var s1 := DropAt(s, i);
      ScanConsistent(cfg, s1, i);
      assert Scan(cfg, s, i) == Scan(cfg, s1, i);
    } else if !Eligible(cfg, s, s.queue[i].job) {
      ScanConsistent(cfg, s, i + 1);
      assert Scan(cfg, s, i) == Scan(cfg, s, i + 1);
    } else {
      GrantKeeps(cfg, s, i);
      var s1 := GrantAt(s, i);
      ScanConsistent(cfg, s1, i);
      assert Scan(cfg, s, i) == Scan(cfg, s1, i);
    }
  }

  lemma DropQueued(queue: seq<Waiter>, tasks: map<nat, Task>, i: nat)
    requires Queued(queue, tasks) && i < |queue|
    requires queue[i].ticket in tasks ==> !tasks[queue[i].ticket].future.Pending?
    ensures Queued(RemoveAt(queue, i), tasks)
  {
    RemoveAtMembers(queue, i);
  }

  lemma {:induction false} ScanBusy(cfg: Config, s: State, i: nat)
    requires i <= |s.queue| && Queued(s.queue, s.tasks) && BlockedBefore(cfg, s, i)
    ensures var s' := Scan(cfg, s, i);
            Busy(cfg, s') && |s'.queue| <= |s.queue| && s'.draining == s.draining
    decreases |s.queue| - i
  {
    hide Queued, Room, Get, Bump;
    if i == |s.queue| || s.free == [] {
    } else if !Waits(s.tasks, s.queue[i].ticket) {
      DropQueued(s.queue, s.tasks, i);
      ScanBusy(cfg, DropAt(s, i), i);
    } else if !Eligible(cfg, s, s.queue[i].job) {
      ScanBusy(cfg, s, i + 1);
    } else {
      var s1 := GrantAt(s, i);
      QueueGrant(s.queue, s.tasks, i, s.free[0]);
      GrantKeepsBlocked(cfg, s, i);
      ScanBusy(cfg, s1, i);
    }
  }

  lemma DispatchKeeps(cfg: Config, s: State)
    requires Consistent(cfg, s) && Bounded(cfg, s)
    ensures Inv(cfg, Dispatch(cfg, s))
  {
    ScanConsistent(cfg, s, 0);
    ScanBusy(cfg, s, 0);
  }

  // --- Enqueue -------------------------------------------------------------------------

  lemma {:induction false} SlotSplits(q: seq<Waiter>, w: Waiter)
    requires Ordered(q) && forall x :: x in q ==> x.ticket < w.ticket
    ensures forall j :: 0 <= j < Slot(q, w) ==> Before(q[j], w)
    ensures forall j :: Slot(q, w) <= j < |q| ==> Before(w, q[j])
  {
    if q == [] {
    } else if Before(w, q[0]) {
    } else {
      assert q[0] in q;
      assert forall x :: x in q[1..] ==> x in q;
      SlotSplits(q[1..], w);
    }
  }

  lemma InsertMembers(q: seq<Waiter>, w: Waiter)
    ensures forall x :: x in Insert(q, w) <==> x in q || x == w
    ensures multiset(Insert(q, w)) == multiset(q) + multiset{w} && |Insert(q, w)| == |q| + 1
  {
    var k := Slot(q, w);
    assert q == q[..k] + q[k..];
  }

  /** What stands where after an insertion. */
  lemma InsertAt(q: seq<Waiter>, w: Waiter, i: nat)
    requires i <= |q|
    ensures |Insert(q, w)| == |q| + 1
    ensures Insert(q, w)[i] == if i < Slot(q, w) then q[i] else if i == Slot(q, w) then w else q[i - 1]
  {
    hide Slot;
  }

  lemma InsertOrdered(q: seq<Waiter>, w: Waiter)
    requires Ordered(q) && forall x :: x in q ==> x.ticket < w.ticket
    ensures Ordered(Insert(q, w))
  {
    hide Slot, Insert, Before;
    SlotSplits(q, w);
    InsertMembers(q, w);
    var r := Insert(q, w);
    forall i, j | 0 <= i < j < |r|
      ensures Before(r[i], r[j])
    {
      InsertAt(q, w, i);
      InsertAt(q, w, j);
    }
  }

  lemma QueuePush(queue: seq<Waiter>, tasks: map<nat, Task>, t: nat, job: Job)
    requires Queued(queue, tasks) && forall u :: u in tasks ==> u < t
    ensures Queued(Insert(queue, Waiter(job.priority, t, job)),
                   tasks[t := Task(job, Pending, Suspended(false))])
  {
    hide Insert, Ordered;
    var w := Waiter(job.priority, t, job);
    InsertMembers(queue, w);
    InsertOrdered(queue, w);
  }

  lemma OwnPush(held: seq<Grant>, log: seq<Grant>, tasks: map<nat, Task>, t: nat, job: Job)
    requires Owned(held, tasks) && Logged(log, tasks) && t !in tasks
    ensures var tasks' := tasks[t := Task(job, Pending, Suspended(false))];
            Owned(held, tasks') && Logged(log, tasks')
  {
  }

  lemma PushKeeps(cfg: Config, s: State, job: Job)
    requires Inv(cfg, s) && !Refuses(cfg, s)
    ensures Consistent(cfg, Push(s, job)) && Bounded(cfg, Push(s, job))
  {
    hide Queued, Owned, Logged, Conserved, Counted, Ranked, Capped, Insert;
    var s' := Push(s, job);
    InsertMembers(s.queue, NewWaiter(s, job));
    QueuePush(s.queue, s.tasks, s.nextTicket, job);
    OwnPush(s.held, s.log, s.tasks, s.nextTicket, job);
    assert Tracked(s'.tasks, s'.nextTicket);
  }

  // --- Giving up, collecting, releasing ----------------------------------------------------

  lemma DoneNotQueued(queue: seq<Waiter>, tasks: map<nat, Task>, t: nat)
    requires Queued(queue, tasks) && t in tasks
    requires !tasks[t].future.Pending? && !tasks[t].future.Cancelled?
    ensures forall w :: w in queue ==> w.ticket != t
  {
  }

  lemma FireKeeps(cfg: Config, s: State, t: nat)
    requires Inv(cfg, s) && Asleep(s, t)
    ensures Inv(cfg, Next(cfg, s, Fire(t)))
  {
    hide Queued, Owned, Logged, Room, Conserved, Counted, Ranked, Capped;
    var s' := Next(cfg, s, Fire(t));
    if !s.tasks[t].future.Pending? && !s.tasks[t].future.Cancelled? {
      DoneNotQueued(s.queue, s.tasks, t);
    }
    OwnSame(s.held, s.tasks, s'.tasks);
    LogSame(s.log, s.tasks, s'.tasks);
    QueueChange(s.queue, s.tasks, t, Fired(s.tasks[t]));
  }

  lemma {:induction false} ForgetMembers(q: seq<Waiter>, t: nat)
    requires DistinctTickets(q)
    ensures forall w :: w in Forget(q, t) <==> w in q && w.ticket != t
    ensures |Forget(q, t)| <= |q|
  {
    if q != [] {
      ForgetMembers(q[1..], t);
      assert q == [q[0]] + q[1..];
    }
  }

  lemma {:induction false} ForgetOrdered(q: seq<Waiter>, t: nat)
    requires Ordered(q) && DistinctTickets(q)
    ensures Ordered(Forget(q, t))
  {
    if q != [] && q[0].ticket != t {
      ForgetOrdered(q[1..], t);
      ForgetMembers(q[1..], t);
      var r := Forget(q[1..], t);
      forall j | 0 <= j < |r|
        ensures Before(q[0], r[j])
      {
        assert r[j] in r;
        assert r[j] in q[1..];
      }
    }
  }

  /** A ticket stands for one waiter, because arrival numbers are never reused. */
  lemma QueuedDistinct(s: State)
    requires Queued(s.queue, s.tasks)
    ensures DistinctTickets(s.queue)
  {
    forall i, j | 0 <= i < j < |s.queue|
      ensures s.queue[i].ticket != s.queue[j].ticket
    {
      assert s.queue[i] in s.queue && s.queue[j] in s.queue;
      assert Before(s.queue[i], s.queue[j]);
    }
  }

  lemma ForgetKeeps(cfg: Config, s: State, t: nat)
    requires Inv(cfg, s) && Wakeable(s, t)
    ensures Inv(cfg, s.(queue := Forget(s.queue, t)))
    ensures forall w :: w in Forget(s.queue, t) ==> w.ticket != t
  {
    hide Queued, Owned, Logged, Room, Conserved, Counted, Ranked, Capped, Tracked, Forget;
    QueuedDistinct(s);
    ForgetMembers(s.queue, t);
    ForgetQueued(s, t);
  }

  lemma ForgetQueued(s: State, t: nat)
    requires Queued(s.queue, s.tasks) && Wakeable(s, t)
    ensures Queued(Forget(s.queue, t), s.tasks)
  {
    hide Ordered, Forget;
    QueuedDistinct(s);
    ForgetMembers(s.queue, t);
    ForgetOrdered(s.queue, t);
  }

  lemma PhaseKeeps(cfg: Config, s: State, t: nat, phase: Phase)
    requires Inv(cfg, s) && t in s.tasks && forall w :: w in s.queue ==> w.ticket != t
    requires Coherent(s.tasks[t].(phase := phase))
    requires Owns(s.tasks[t].(phase := phase)) <==> Owns(s.tasks[t])
    requires !s.tasks[t].future.Pending?
    ensures Inv(cfg, SetPhase(s, t, phase))
  {
    hide Queued, Owned, Logged, Room;
    var s' := SetPhase(s, t, phase);
    OwnSame(s.held, s.tasks, s'.tasks);
    LogSame(s.log, s.tasks, s'.tasks);
    QueueChange(s.queue, s.tasks, t, s'.tasks[t]);
  }

  lemma {:induction false} WithoutRanked(h: seq<Grant>, t: nat)
    requires Ranked(h)
    ensures Ranked(Without(h, t))
  {
    if h != [] {
      var init, last := h[..|h| - 1], h[|h| - 1];
      WithoutRanked(init, t);
      if last.ticket != t {
        WithoutTallyAtMost(init, t, OfClient(last.job.client));
        RankGrant(Without(init, t), last);
      }
    }
  }

  lemma CountHandBack(pools: Counter, clients: Counter, held: seq<Grant>, g: Grant)
    requires Counted(pools, clients, held) && DistinctGrants(held) && g in held
    ensures Counted(Bump(pools, g.job.pool, -1), Bump(clients, g.job.client, -1),
                    Without(held, g.ticket))
  {
    forall p
      ensures Get(Bump(pools, g.job.pool, -1), p) == Tally(Without(held, g.ticket), OfPool(p))
    {
      WithoutTally(held, g, OfPool(p));
      BumpGet(pools, g.job.pool, -1, p);
    }
    forall c
      ensures Get(Bump(clients, g.job.client, -1), c) == Tally(Without(held, g.ticket), OfClient(c))
    {
      WithoutTally(held, g, OfClient(c));
      BumpGet(clients, g.job.client, -1, c);
    }
  }

  lemma OwnHandBack(held: seq<Grant>, tasks: map<nat, Task>, t: nat, outcome: Outcome)
    requires Owned(held, tasks) && t in tasks && Owns(tasks[t])
    ensures Owned(Without(held, t), tasks[t := tasks[t].(phase := Ended(outcome))])
  {
    WithoutMembers(held, t);
    WithoutDistinct(held, t);
  }

  lemma LogHandBack(log: seq<Grant>, tasks: map<nat, Task>, t: nat, outcome: Outcome)
    requires Logged(log, tasks) && t in tasks && Owns(tasks[t])
    ensures Logged(log, tasks[t := tasks[t].(phase := Ended(outcome))])
  {
  }

  lemma QueueEnd(queue: seq<Waiter>, tasks: map<nat, Task>, t: nat, outcome: Outcome)
    requires Queued(queue, tasks) && t in tasks && Owns(tasks[t])
    ensures Queued(queue, tasks[t := tasks[t].(phase := Ended(outcome))])
  {
  }

  lemma OwnedGrant(held: seq<Grant>, tasks: map<nat, Task>, t: nat)
    requires Owned(held, tasks) && t in tasks && Owns(tasks[t])
    ensures tasks[t].future.Granted? && GrantOf(tasks, t) in held && DistinctGrants(held)
  {
  }

  lemma ConserveHandBack(cfg: Config, free: seq<string>, held: seq<Grant>, g: Grant)
    requires Conserved(cfg, free, held) && DistinctGrants(held) && g in held
    ensures Conserved(cfg, free + [g.worker], Without(held, g.ticket))
  {
    WithoutWorkers(held, g);
  }

  lemma TrackEnd(tasks: map<nat, Task>, nextTicket: nat, t: nat, outcome: Outcome)
    requires Tracked(tasks, nextTicket) && t in tasks && Owns(tasks[t]) && outcome != Drained
    ensures Tracked(tasks[t := tasks[t].(phase := Ended(outcome))], nextTicket)
  {
    assert Coherent(tasks[t]);
  }

  lemma HandBackConsistent(cfg: Config, s: State, t: nat, outcome: Outcome)
    requires Consistent(cfg, s) && t in s.tasks && Owns(s.tasks[t]) && outcome != Drained
    ensures Consistent(cfg, HandBack(s, t, outcome))
  {
    hide Owns, Conserved, Counted, Ranked, Capped, Owned, Logged, Queued, Tracked, DistinctGrants;
    OwnedGrant(s.held, s.tasks, t);
    var g := GrantOf(s.tasks, t);
    CountHandBack(s.pools, s.clients, s.held, g);
    ConserveHandBack(cfg, s.free, s.held, g);
    WithoutRanked(s.held, t);
    OwnHandBack(s.held, s.tasks, t, outcome);
    LogHandBack(s.log, s.tasks, t, outcome);
    CapChange(cfg, s.pools, g.job.pool, -1);
    QueueEnd(s.queue, s.tasks, t, outcome);
    TrackEnd(s.tasks, s.nextTicket, t, outcome);
  }

  lemma HandBackKeeps(cfg: Config, s: State, t: nat, outcome: Outcome)
    requires Inv(cfg, s) && t in s.tasks && Owns(s.tasks[t]) && outcome != Drained
    ensures Inv(cfg, Dispatch(cfg, HandBack(s, t, outcome)))
  {
    HandBackConsistent(cfg, s, t, outcome);
    DispatchKeeps(cfg, HandBack(s, t, outcome));
  }

  lemma InvCoherent(cfg: Config, s: State, t: nat)
    requires Inv(cfg, s) && t in s.tasks
    ensures Coherent(s.tasks[t])
  {
  }

  lemma InvQueued(cfg: Config, s: State)
    requires Inv(cfg, s)
    ensures Queued(s.queue, s.tasks)
  {
  }

  lemma WakeKeeps(cfg: Config, s: State, t: nat)
    requires Inv(cfg, s) && Wakeable(s, t)
    ensures Inv(cfg, Wake(cfg, s, t))
  {
    hide Inv, Forget, Dispatch, HandBack;
    InvCoherent(cfg, s, t);
    if s.tasks[t].phase.givingUp {
      var s1 := s.(queue := Forget(s.queue, t));
      ForgetKeeps(cfg, s, t);
      match s.tasks[t].future
      case Granted(_) => HandBackKeeps(cfg, s1, t, TimedOut);
      case Failed => PhaseKeeps(cfg, s1, t, Ended(Drained));
      case _ => PhaseKeeps(cfg, s1, t, Ended(TimedOut));
    } else {
      DoneNotQueued(s.queue, s.tasks, t) by { InvQueued(cfg, s); }
      PhaseKeeps(cfg, s, t, if s.tasks[t].future.Granted? then Holding else Ended(Drained));
    }
  }

  lemma FailQueuedPending(s: State)
    requires Queued(s.queue, s.tasks)
    ensures var failed := FailQueued(s.tasks, s.queue);
            failed.Keys == s.tasks.Keys
            && forall t :: t in s.tasks ==>
                 failed[t] == if s.tasks[t].future.Pending? then s.tasks[t].(future := Failed) else s.tasks[t]
  {
    forall t | t in s.tasks && s.tasks[t].future.Pending?
      ensures HasTicket(s.queue, t)
    {
      var i :| 0 <= i < |s.queue| && s.queue[i] == WaiterOf(s.tasks, t);
      assert s.queue[i].ticket == t;
    }
  }

  lemma NothingQueued(tasks: map<nat, Task>)
    requires forall t :: t in tasks ==> !tasks[t].future.Pending?
    ensures Queued([], tasks)
  {
  }

  lemma DrainKeeps(cfg: Config, s: State)
    requires Inv(cfg, s)
    ensures Inv(cfg, Next(cfg, s, DrainStart))
  {
    hide Queued, Owned, Logged, Room, FailQueued, Conserved, Counted, Ranked, Capped;
    var s' := Next(cfg, s, DrainStart);
    FailQueuedPending(s);
    NothingQueued(s'.tasks);
    OwnSame(s.held, s.tasks, s'.tasks);
    LogSame(s.log, s.tasks, s'.tasks);
  }

  // --- Every step, every run ---------------------------------------------------------------

  lemma InitKeeps(cfg: Config)
    ensures Inv(cfg, Init(cfg))
  {
  }

  lemma NextKeeps(cfg: Config, s: State, step: Step)
    requires Inv(cfg, s)
    ensures Inv(cfg, Next(cfg, s, step))
  {
    hide Inv, Consistent, Bounded, Busy, Dispatch, Push, HandBack, Wake, FailQueued, Owns;
    match step
    case Enqueue(job) =>
      if !Refuses(cfg, s) {
        PushKeeps(cfg, s, job);
        DispatchKeeps(cfg, Push(s, job));
      }
    case Fire(t) => if Asleep(s, t) { FireKeeps(cfg, s, t); }
    case Resume(t) => if Wakeable(s, t) { WakeKeeps(cfg, s, t); }
    case Release(t) =>
      if Holds(s, t) && s.tasks[t].future.Granted? { HandBackKeeps(cfg, s, t, Served); }
    case DrainStart => DrainKeeps(cfg, s);
  }

  /** The invariant holds after every run from an idle scheduler. */
  lemma {:induction false} RunKeeps(cfg: Config, s: State, steps: seq<Step>)
    requires Inv(cfg, s)
    ensures Inv(cfg, Run(cfg, s, steps))
    decreases |steps|
  {
    hide Inv, Next;
    if steps != [] {
      NextKeeps(cfg, s, steps[0]);
      RunKeeps(cfg, Next(cfg, s, steps[0]), steps[1..]);
    }
  }

  ghost predicate Reachable(cfg: Config, s: State) {
    exists steps :: s == Run(cfg, Init(cfg), steps)
  }

  lemma ReachableInv(cfg: Config, s: State)
    requires Reachable(cfg, s)
    ensures Inv(cfg, s)
  {
    var steps :| s == Run(cfg, Init(cfg), steps);
    InitKeeps(cfg);
    RunKeeps(cfg, Init(cfg), steps);
  }
}
