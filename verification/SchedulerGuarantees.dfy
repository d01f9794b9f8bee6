/** What the invariant means to a caller: ownership, concurrency, reservation for
    members, admission, and a safe drain. */
module SchedulerGuarantees {
  import opened Jobs
  import opened SchedulerState
  import opened SchedulerInvariant
  import opened SchedulerFairness

  // --- Ownership -------------------------------------------------------------------------

  /** The workers are the free ones together with one for every granted future not
      yet collected and every unreleased lease, and no task holds two. */
  lemma WorkersConserved(cfg: Config, s: State)
    requires Reachable(cfg, s)
    ensures multiset(s.free) + Workers(s.held) == multiset(cfg.workers)
    ensures DistinctGrants(s.held)
    ensures forall t :: (exists g :: g in s.held && g.ticket == t) <==> (t in s.tasks && Owns(s.tasks[t]))
    ensures forall g :: g in s.held ==>
              g.ticket in s.tasks && s.tasks[g.ticket].future == Granted(g.worker) && s.tasks[g.ticket].job == g.job
    ensures forall p :: Get(s.pools, p) == Tally(s.held, OfPool(p))
    ensures forall c :: Get(s.clients, c) == Tally(s.held, OfClient(c))
  {
    ReachableInv(cfg, s);
    forall t | t in s.tasks && Owns(s.tasks[t])
      ensures exists g :: g in s.held && g.ticket == t
    {
      assert GrantOf(s.tasks, t) in s.held;
    }
  }

  lemma InflightIsHeld(cfg: Config, s: State)
    requires Inv(cfg, s)
    ensures Inflight(cfg, s) == |s.held|
  {
    WorkersSize(s.held);
    assert |multiset(s.free) + Workers(s.held)| == |s.free| + |s.held|;
  }

  /** Work conservation: between any two steps no worker is free, or every live waiter is
      blocked by its pool's cap or its client's limit. */
  lemma WorkConserved(cfg: Config, s: State, w: Waiter)
    requires Reachable(cfg, s) && s.free != [] && w in s.queue && Waits(s.tasks, w.ticket)
    ensures (w.job.pool in cfg.caps && Tally(s.held, OfPool(w.job.pool)) >= cfg.caps[w.job.pool])
            || Tally(s.held, OfClient(w.job.client)) >= w.job.concurrency
  {
    ReachableInv(cfg, s);
    assert !Eligible(cfg, s, w.job);
    assert Get(s.pools, w.job.pool) == Tally(s.held, OfPool(w.job.pool));
    assert Get(s.clients, w.job.client) == Tally(s.held, OfClient(w.job.client));
  }

  /** The queue never outgrows its limit and no two entries share a key; so removing by
      key removes exactly the one waiter meant, or nothing if it is not queued. */
  lemma QueueIntegrity(cfg: Config, s: State, t: nat)
    requires Reachable(cfg, s) && t in s.tasks
    ensures |s.queue| <= AtLeastZero(cfg.maxQueue)
    ensures forall i, j :: 0 <= i < j < |s.queue| ==>
              && s.queue[i].ticket != s.queue[j].ticket
              && (s.queue[i].priority < s.queue[j].priority
                  || (s.queue[i].priority == s.queue[j].priority && s.queue[i].ticket < s.queue[j].ticket))
    ensures forall w :: w in Forget(s.queue, t) <==> w in s.queue && w != WaiterOf(s.tasks, t)
    ensures WaiterOf(s.tasks, t) !in s.queue ==> Forget(s.queue, t) == s.queue
    ensures WaiterOf(s.tasks, t) in s.queue ==> |Forget(s.queue, t)| == |s.queue| - 1
  {
    ReachableInv(cfg, s);
    QueuedDistinct(s);
    ForgetMembers(s.queue, t);
    ForgetSize(s.queue, WaiterOf(s.tasks, t));
  }

  lemma {:induction false} ForgetSize(q: seq<Waiter>, w: Waiter)
    requires forall x :: x in q && x.ticket == w.ticket ==> x == w
    ensures w !in q ==> Forget(q, w.ticket) == q
    ensures w in q ==> |Forget(q, w.ticket)| == |q| - 1
  {
    if q != [] && q[0].ticket != w.ticket {
      assert q == [q[0]] + q[1..];
      ForgetSize(q[1..], w);
    }
  }

  // --- Concurrency -------------------------------------------------------------------------

  lemma {:induction false} RankAt(h: seq<Grant>, i: nat)
    requires Ranked(h) && i < |h|
    ensures Tally(h[..i + 1], OfClient(h[i].job.client)) <= h[i].job.concurrency
  {
    if i == |h| - 1 {
      assert h[..i + 1] == h;
    } else {
      RankAt(h[..|h| - 1], i);
      assert h[..|h| - 1][..i + 1] == h[..i + 1];
    }
  }

  /** The k-th oldest outstanding grant of a client has `concurrency >= k`, in whatever
      order leases are released and however the client's plan changes. */
  lemma ConcurrencyRank(cfg: Config, s: State, i: nat)
    requires Reachable(cfg, s) && i < |s.held|
    ensures Tally(s.held[..i + 1], OfClient(s.held[i].job.client)) <= s.held[i].job.concurrency
  {
    ReachableInv(cfg, s);
    RankAt(s.held, i);
  }

  /** The newest grant that counts towards a key. */
  lemma {:induction false} NewestMatch(h: seq<Grant>, k: Key) returns (i: nat)
    requires Tally(h, k) > 0
    ensures i < |h| && Matches(h[i], k) && Tally(h[..i + 1], k) == Tally(h, k)
  {
    var n := |h| - 1;
    if Matches(h[n], k) {
      i := n;
      assert h[..n + 1] == h;
    } else {
      i := NewestMatch(h[..n], k);
      assert h[..n][..i + 1] == h[..i + 1];
    }
  }

  /** A client never holds more workers than the largest concurrency among its
      outstanding jobs. */
  lemma ClientLimit(cfg: Config, s: State, client: string)
    requires Reachable(cfg, s) && Tally(s.held, OfClient(client)) > 0
    ensures exists g :: g in s.held && g.job.client == client && Tally(s.held, OfClient(client)) <= g.job.concurrency
  {
    var i := NewestMatch(s.held, OfClient(client));
    ConcurrencyRank(cfg, s, i);
    assert s.held[i] in s.held;
  }

  // --- Reservation for members -----------------------------------------------------------------

  /** `Config.guest_workers`: the configured number, all of them if unset or zero,
      clamped to between one and the number of workers. */
  function GuestWorkers(configured: int, workers: nat): (cap: int)
    ensures workers >= 1 ==> 1 <= cap <= workers
    ensures 1 <= configured <= workers ==> cap == configured
    ensures workers >= 1 && (configured == 0 || configured > workers) ==> cap == workers
    ensures configured < 0 ==> cap == 1
  {
    var n := if configured == 0 then workers else configured;
    var m := if n < workers then n else workers;
    if m > 1 then m else 1
  }

  /** A capped pool never holds more than its cap. While a live member is queued below
      its own limit, every worker is busy and at least (workers - guest cap) of them
      work for others than guests. */
  lemma MemberReservation(cfg: Config, s: State, configured: int, guest: string, w: Waiter)
    requires Reachable(cfg, s) && |cfg.workers| >= 1
    requires cfg.caps == map[guest := GuestWorkers(configured, |cfg.workers|)]
    ensures Tally(s.held, OfPool(guest)) <= GuestWorkers(configured, |cfg.workers|)
    ensures w in s.queue && Waits(s.tasks, w.ticket)
            && w.job.pool != guest && Get(s.clients, w.job.client) < w.job.concurrency ==>
              && s.free == [] && |s.held| == |cfg.workers|
              && Tally(s.held, OutsidePool(guest)) >= |cfg.workers| - GuestWorkers(configured, |cfg.workers|)
  {
    hide Reachable, Conserved, Ranked, Owned, Logged, Queued, Tracked, Tally, Get;
    ReachableInv(cfg, s);
    assert guest in cfg.caps;
    assert Get(s.pools, guest) == Tally(s.held, OfPool(guest));
    TallySplit(s.held, guest);
    InflightIsHeld(cfg, s);
  }

  // --- Admission ---------------------------------------------------------------------------------

  lemma {:induction false} ScanSkipsBlocked(cfg: Config, s: State, i: nat, k: nat)
    requires i <= k < |s.queue| && s.free != [] && DistinctTickets(s.queue)
    requires forall j :: 0 <= j < |s.queue| && j != k && Waits(s.tasks, s.queue[j].ticket) ==>
               !Eligible(cfg, s, s.queue[j].job)
    requires Waits(s.tasks, s.queue[k].ticket)
    ensures GrantedTask(Scan(cfg, s, i), s.queue[k].ticket) <==> Eligible(cfg, s, s.queue[k].job)
    ensures Eligible(cfg, s, s.queue[k].job) ==>
              Scan(cfg, s, i).tasks[s.queue[k].ticket].future == Granted(s.free[0])
    decreases |s.queue| - i
  {
    hide Room;
    if !Waits(s.tasks, s.queue[i].ticket) {
      var s1 := DropAt(s, i);
      assert s1.queue[k - 1] == s.queue[k];
      ScanSkipsBlocked(cfg, s1, i, k - 1);
    } else if i == k {
      ScanRest(cfg, s, k);
    } else {
      ScanSkipsBlocked(cfg, s, i + 1, k);
    }
  }

  /** The scan once it has reached the only waiter that may have room. */
  lemma ScanRest(cfg: Config, s: State, k: nat)
    requires k < |s.queue| && s.free != [] && DistinctTickets(s.queue)
    requires forall j :: k < j < |s.queue| && Waits(s.tasks, s.queue[j].ticket) ==> !Eligible(cfg, s, s.queue[j].job)
    requires Waits(s.tasks, s.queue[k].ticket)
    ensures GrantedTask(Scan(cfg, s, k), s.queue[k].ticket) <==> Eligible(cfg, s, s.queue[k].job)
    ensures Eligible(cfg, s, s.queue[k].job) ==>
              Scan(cfg, s, k).tasks[s.queue[k].ticket].future == Granted(s.free[0])
  {
    if Eligible(cfg, s, s.queue[k].job) {
      ScanOnlyGrants(cfg, GrantAt(s, k), k);
    } else {
      ScanNothing(cfg, s, k + 1);
    }
  }

  lemma {:induction false} ScanNothing(cfg: Config, s: State, i: nat)
    requires i <= |s.queue|
    requires forall j :: i <= j < |s.queue| && Waits(s.tasks, s.queue[j].ticket) ==> !Eligible(cfg, s, s.queue[j].job)
    ensures Scan(cfg, s, i).tasks == s.tasks
    decreases |s.queue| - i
  {
    if i == |s.queue| || s.free == [] {
    } else if !Waits(s.tasks, s.queue[i].ticket) {
      ScanNothing(cfg, DropAt(s, i), i);
    } else {
      ScanNothing(cfg, s, i + 1);
    }
  }

  lemma {:induction false} ScanNoWorker(cfg: Config, s: State, i: nat)
    requires i <= |s.queue| && s.free == []
    ensures Scan(cfg, s, i) == s
  {
  }

  /** When an arrival gets a worker at once: exactly if the scheduler takes it, a worker
      is free, and its pool and client have room. It then gets the first free worker. */
  lemma GrantedAtOnce(cfg: Config, s: State, job: Job)
    requires Reachable(cfg, s)
    ensures var s', t := Next(cfg, s, Enqueue(job)), s.nextTicket;
            && (if s.draining || |s.queue| >= cfg.maxQueue then s' == s else t in s'.tasks && s'.tasks[t].job == job)
            && (GrantedTask(s', t) <==>
                  && !s.draining && |s.queue| < cfg.maxQueue && s.free != []
                  && (job.pool in cfg.caps ==> Tally(s.held, OfPool(job.pool)) < cfg.caps[job.pool])
                  && Tally(s.held, OfClient(job.client)) < job.concurrency)
            && (GrantedTask(s', t) ==> s'.tasks[t].future == Granted(s.free[0]))
  {
    hide Inv, Room, Reachable, Scan;
    ReachableInv(cfg, s);
    NotYetKnown(cfg, s);
    RoomIsTally(cfg, s, job);
    ScanOnlyGrants(cfg, Push(s, job), 0);
    if !Refuses(cfg, s) {
      var s1 := Push(s, job);
      PushKeeps(cfg, s, job);
      if s.free == [] {
        ScanNoWorker(cfg, s1, 0);
      } else {
        QueuedDistinct(s1);
        OthersBlocked(cfg, s, job);
        ScanSkipsBlocked(cfg, s1, 0, Slot(s.queue, NewWaiter(s, job)));
      }
    }
  }

  lemma RoomIsTally(cfg: Config, s: State, job: Job)
    requires Inv(cfg, s)
    ensures Eligible(cfg, s, job) <==>
              (job.pool in cfg.caps ==> Tally(s.held, OfPool(job.pool)) < cfg.caps[job.pool])
              && Tally(s.held, OfClient(job.client)) < job.concurrency
  {
    assert Get(s.pools, job.pool) == Tally(s.held, OfPool(job.pool));
    assert Get(s.clients, job.client) == Tally(s.held, OfClient(job.client));
  }

  lemma NotYetKnown(cfg: Config, s: State)
    requires Inv(cfg, s)
    ensures s.nextTicket !in s.tasks
  {
  }

  /** While a worker is free, whoever was queued before the arrival is blocked. */
  lemma OthersBlocked(cfg: Config, s: State, job: Job)
    requires Inv(cfg, s) && s.free != []
    ensures var s1, k := Push(s, job), Slot(s.queue, NewWaiter(s, job));
            && s1.queue[k] == NewWaiter(s, job)
            && forall j :: 0 <= j < |s1.queue| && j != k && Waits(s1.tasks, s1.queue[j].ticket) ==>
                 !Eligible(cfg, s1, s1.queue[j].job)
  {
    hide Room, Conserved, Counted, Ranked, Capped, Owned, Logged;
    var s1, k := Push(s, job), Slot(s.queue, NewWaiter(s, job));
    forall j | 0 <= j < |s1.queue| && j != k && Waits(s1.tasks, s1.queue[j].ticket)
      ensures !Eligible(cfg, s1, s1.queue[j].job)
    {
      var w := s1.queue[j];
      assert w == if j < k then s.queue[j] else s.queue[j - 1];
      assert w in s.queue && Waits(s.tasks, w.ticket);
    }
  }

  /** The README's "a member always finds a slot" is not what the code does: with two
      workers, one of them reserved, a queue of one blocked guest turns a member away
      although a worker is free and the member has room. */
  lemma MemberTurnedAway()
    ensures var cfg := Config(["w1", "w2"], map["guest" := 1], 1);
            var guest1 := Job("ip:1", "guest", 10, "guest", 1);
            var guest2 := Job("ip:2", "guest", 10, "guest", 1);
            var member := Job("user:1", "pro", 1, "member", 2);
            var s := Run(cfg, Init(cfg), [Enqueue(guest1), Enqueue(guest2)]);
            Refuses(cfg, s) && s.free == ["w2"] && Eligible(cfg, s, member)
            && Next(cfg, s, Enqueue(member)) == s
  {
    var cfg := Config(["w1", "w2"], map["guest" := 1], 1);
    var guest1 := Job("ip:1", "guest", 10, "guest", 1);
    var guest2 := Job("ip:2", "guest", 10, "guest", 1);
    var s0 := Init(cfg);
    var s1 := Push(s0, guest1);
    assert s1.queue == [Waiter(10, 0, guest1)];
    var s2 := GrantAt(s1, 0);
    assert s2.queue == [] && s2.free == ["w2"];
    assert Next(cfg, s0, Enqueue(guest1)) == s2;
    var s3 := Push(s2, guest2);
    assert s3.queue == [Waiter(10, 1, guest2)];
    assert Scan(cfg, s3, 1) == s3;
    assert Next(cfg, s2, Enqueue(guest2)) == s3;
    assert [Enqueue(guest1), Enqueue(guest2)][1..] == [Enqueue(guest2)];
    assert Run(cfg, s2, [Enqueue(guest2)]) == Run(cfg, s3, []);
  }

  // --- Drain ---------------------------------------------------------------------------------------

  /** `drain` reports zero exactly when the free list is a permutation of the workers,
      that is when no grant is outstanding. */
  lemma DrainedExactly(cfg: Config, s: State)
    requires Reachable(cfg, s)
    ensures Inflight(cfg, s) >= 0
    ensures Inflight(cfg, s) == 0 <==> multiset(s.free) == multiset(cfg.workers)
    ensures Inflight(cfg, s) == 0 <==> s.held == []
  {
    ReachableInv(cfg, s);
    InflightIsHeld(cfg, s);
    if s.held != [] {
      assert |multiset(s.free)| < |multiset(cfg.workers)|;
    }
  }

  /** Nothing is queued or granted, no worker is taken, and every future that has failed
      or been granted stays as it is. */
  ghost predicate Closed(cfg: Config, s: State, s': State) {
    && s'.draining && s'.queue == [] && s'.log == s.log
    && Inflight(cfg, s') <= Inflight(cfg, s)
    && s'.tasks.Keys == s.tasks.Keys
    && forall t :: t in s.tasks ==> s'.tasks[t].future == s.tasks[t].future
  }

  lemma ClosedBy(cfg: Config, s: State, s': State, t: nat, task: Task)
    requires s.draining && s.queue == [] && t in s.tasks && task.future == s.tasks[t].future
    requires s'.draining && s'.queue == [] && s'.log == s.log && |s'.free| >= |s.free|
    requires s'.tasks == s.tasks[t := task]
    ensures Closed(cfg, s, s')
  {
  }

  lemma ClosedStill(cfg: Config, s: State)
    requires s.draining && s.queue == []
    ensures Closed(cfg, s, s) && FailQueued(s.tasks, s.queue) == s.tasks && forall t :: Forget(s.queue, t) == []
  {
    forall t | t in s.tasks
      ensures s.tasks[t].future == s.tasks[t].future
    {
    }
  }

  /** With the queue closed, waking a task moves its phase and takes no worker. */
  lemma ResumeClosed(cfg: Config, s: State, t: nat)
    requires s.draining && s.queue == [] && Wakeable(s, t)
    ensures Closed(cfg, s, Next(cfg, s, Resume(t)))
  {
    hide Closed, Without, Bump;
    var s' := Next(cfg, s, Resume(t));
    ClosedStill(cfg, s);
    ResumeMoves(cfg, s, t);
    var phase :| Prepared(cfg, s, Resume(t)).tasks == s.tasks[t := s.tasks[t].(phase := phase)];
    assert s' == Prepared(cfg, s, Resume(t));
    ClosedBy(cfg, s, s', t, s.tasks[t].(phase := phase));
  }

  lemma NextClosed(cfg: Config, s: State, step: Step)
    requires s.draining && s.queue == [] && forall t :: t in s.tasks ==> !s.tasks[t].future.Pending?
    ensures Closed(cfg, s, Next(cfg, s, step))
  {
    hide Closed, FailQueued, Forget, Without;
    ClosedStill(cfg, s);
    match step
    case Enqueue(_) =>
    case Fire(t) =>
      if Asleep(s, t) {
        ClosedBy(cfg, s, Next(cfg, s, step), t, Fired(s.tasks[t]));
      }
    case Resume(t) =>
      if Wakeable(s, t) {
        ResumeClosed(cfg, s, t);
      }
    case Release(t) =>
      if GivesBack(s, step) {
        ClosedBy(cfg, s, Next(cfg, s, step), t, s.tasks[t].(phase := Ended(Served)));
      }
    case DrainStart =>
  }

  lemma {:induction false} RunClosed(cfg: Config, s: State, steps: seq<Step>)
    requires Inv(cfg, s) && s.draining
    ensures Closed(cfg, s, Run(cfg, s, steps))
    decreases |steps|
  {
    if steps == [] {
      assert forall t :: t in s.tasks ==> t in s.tasks;
    } else {
      assert forall t :: t in s.tasks ==> !s.tasks[t].future.Pending?;
      NextClosed(cfg, s, steps[0]);
      NextKeeps(cfg, s, steps[0]);
      var s1 := Next(cfg, s, steps[0]);
      hide Inv, Next;
      RunClosed(cfg, s1, steps[1..]);
    }
  }

  /** The task is still asleep, and its next `Resume` raises `Draining`. */
  ghost predicate WakesDrained(cfg: Config, s: State, t: nat) {
    Wakeable(s, t)
    && var s1 := Next(cfg, s, Resume(t));
       t in s1.tasks && s1.tasks[t].phase == Ended(Drained)
  }

  /** From the start of a drain on: the queue stays empty, no future is ever granted
      again and the number in flight never grows. Every waiter that was live is failed
      with `Draining` and can end in no other way, even if it is cancelled at once: at
      every later point it has ended so, or its next wake-up does. */
  lemma DrainSafety(cfg: Config, s: State, steps: seq<Step>)
    requires Reachable(cfg, s)
    ensures var s' := Run(cfg, Next(cfg, s, DrainStart), steps);
            && s'.queue == [] && s'.log == s.log && s'.draining
            && Inflight(cfg, s') <= Inflight(cfg, s)
            && forall t :: Waits(s.tasks, t) ==>
                 && t in s'.tasks && s'.tasks[t].future == Failed
                 && (s'.tasks[t].phase == Ended(Drained) || WakesDrained(cfg, s', t))
  {
    hide Inv, Next, Reachable, WakesDrained;
    var s0 := Next(cfg, s, DrainStart);
    var s' := Run(cfg, s0, steps);
    ReachableInv(cfg, s);
    DrainCloses(cfg, s);
    NextKeeps(cfg, s, DrainStart);
    RunClosed(cfg, s0, steps);
    RunKeeps(cfg, s0, steps);
    forall t | Waits(s.tasks, t)
      ensures t in s'.tasks && s'.tasks[t].future == Failed
      ensures s'.tasks[t].phase == Ended(Drained) || WakesDrained(cfg, s', t)
    {
      DrainFails(cfg, s, t);
      InvCoherent(cfg, s', t);
      if s'.tasks[t].phase.Suspended? {
        FailedWakes(cfg, s', t);
      }
    }
  }

  lemma DrainCloses(cfg: Config, s: State)
    ensures var s0 := Next(cfg, s, DrainStart); s0.draining && s0.log == s.log && s0.free == s.free
  {
    hide FailQueued;
  }

  lemma DrainFails(cfg: Config, s: State, t: nat)
    requires Inv(cfg, s) && Waits(s.tasks, t)
    ensures var s0 := Next(cfg, s, DrainStart); t in s0.tasks && s0.tasks[t].future == Failed
  {
    hide FailQueued, Inv;
    InvQueued(cfg, s);
    FailQueuedPending(s);
  }

  lemma FailedWakes(cfg: Config, s: State, t: nat)
    requires Asleep(s, t) && s.tasks[t].future == Failed
    ensures WakesDrained(cfg, s, t)
  {
    hide Forget, Dispatch;
  }
}
