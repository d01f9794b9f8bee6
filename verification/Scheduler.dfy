/** The scheduler and its leases as objects. Each method is one atomic step and is
    proved to make exactly the step of the state machine. */
module Scheduler {
  import opened Jobs
  import opened SchedulerState
  import opened SchedulerInvariant
  import opened SchedulerFairness
  import opened HeapQueue

  datatype Admission = Admitted(ticket: nat) | RefusedDraining | RefusedFull

  datatype Waking = Leased(worker: string) | QueueTimeout | Draining

  class Scheduler {
    const workers: seq<string>
    const poolCaps: map<string, int>
    const maxQueue: int

    var free: seq<string>
    var waiting: seq<Waiter>
    var poolInuse: Counter
    var clientInuse: Counter
    var nextTicket: nat
    var draining: bool
    /** The suspended `acquire` calls with the futures they wait on. */
    var tasks: map<nat, Task>

    /** `waiting` in order, and the history of grants. */
    ghost var queue: seq<Waiter>
    ghost var held: seq<Grant>
    ghost var log: seq<Grant>

    ghost function Cfg(): Config {
      Config(workers, poolCaps, maxQueue)
    }

    ghost function Abs(): State
      reads this
    {
      State(free, queue, poolInuse, clientInuse, tasks, nextTicket, draining, held, log)
    }

    ghost predicate HeapMatches()
      reads this
    {
      Layout(waiting, queue)
    }

    ghost predicate Valid()
      reads this
    {
      HeapMatches() && Inv(Cfg(), Abs())
    }

    constructor (workers: seq<string>, poolCaps: map<string, int>, maxQueue: int)
      ensures Valid() && Cfg() == Config(workers, poolCaps, maxQueue)
      ensures Abs() == Init(Cfg())
    {
      this.workers, this.poolCaps, this.maxQueue := workers, poolCaps, maxQueue;
      free, waiting, poolInuse, clientInuse := workers, [], map[], map[];
      nextTicket, draining, tasks := 0, false, map[];
      queue, held, log := [], [], [];
      new;
      InitKeeps(Cfg());
    }

    predicate EligibleNow(job: Job)
      reads this
      ensures EligibleNow(job) == Eligible(Cfg(), Abs(), job)
    {
      !(job.pool in poolCaps && Get(poolInuse, job.pool) >= poolCaps[job.pool])
      && Get(clientInuse, job.client) < job.concurrency
    }

    /** Pop, skip or grant until no waiter or no worker is left; then push the skipped
        ones back. The result is the ordered dispatch pass, for every heap layout. */
    method DispatchAll()
      requires HeapMatches() && Queued(queue, tasks)
      modifies this
      ensures Abs() == Dispatch(Cfg(), old(Abs())) && HeapMatches()
    {
      hide Scan, Queued, Layout, Bump;
      LayoutMembers(waiting, queue);
      if |free| == 0 || |waiting| == 0 {
        ScanStops(Cfg(), Abs(), 0);
        return;
      }
      var skipped: seq<Waiter> := [];
      ghost var rest := queue;
      while |waiting| > 0 && |free| > 0
        invariant Layout(waiting, rest) && queue == skipped + rest && Queued(queue, tasks)
        invariant Scan(Cfg(), Abs(), |skipped|) == Dispatch(Cfg(), old(Abs()))
        decreases |waiting|
      {
        ghost var s := Abs();
        LayoutMembers(waiting, rest);
        NextInLine(queue, tasks, skipped, rest);
        ScanUnfolds(Cfg(), s, |skipped|);
        var waiter: Waiter;
        waiter, waiting := PopFirst(waiting, rest);
        rest := rest[1..];
        if !tasks[waiter.ticket].future.Pending? {
          queue := RemoveAt(queue, |skipped|);
        } else if !EligibleNow(waiter.job) {
          skipped := skipped + [waiter];
        } else {
          QueueGrant(queue, tasks, |skipped|, free[0]);
          GrantTo(waiter, |skipped|);
        }
      }
      LayoutMembers(waiting, rest);
      ScanStops(Cfg(), Abs(), |skipped|);
      PushBack(skipped, rest);
    }

    /** The front worker goes to `waiter`, which stands at `i` in the ordered queue. */
    method GrantTo(waiter: Waiter, ghost i: nat)
      requires i < |queue| && queue[i] == waiter && free != [] && waiter.ticket in tasks
      modifies this`free, this`poolInuse, this`clientInuse, this`tasks, this`queue, this`held, this`log
      ensures Abs() == GrantAt(old(Abs()), i)
    {
      hide Bump, RemoveAt;
      var worker := free[0];
      free := free[1..];
      poolInuse := Bump(poolInuse, waiter.job.pool, 1);
      clientInuse := Bump(clientInuse, waiter.job.client, 1);
      tasks := tasks[waiter.ticket := tasks[waiter.ticket].(future := Granted(worker))];
      queue := RemoveAt(queue, i);
      held := held + [Grant(waiter.ticket, worker, waiter.job)];
      log := log + [Grant(waiter.ticket, worker, waiter.job)];
    }

    method PushBack(skipped: seq<Waiter>, ghost rest: seq<Waiter>)
      requires Layout(waiting, rest) && queue == skipped + rest
      modifies this`waiting
      ensures HeapMatches()
    {
      var k := 0;
      while k < |skipped|
        invariant k <= |skipped| && IsHeap(waiting)
        invariant multiset(waiting) == multiset(rest) + multiset(skipped[..k])
      {
        assert skipped[..k + 1] == skipped[..k] + [skipped[k]];
        waiting := HeapPush(waiting, skipped[k]);
        k := k + 1;
      }
      assert skipped[..k] == skipped;
    }

    /** The synchronous part of `acquire`, up to its await. The draining and queue-full
        checks come before any dispatch. */
    method Enqueue(job: Job) returns (r: Admission)
      requires Valid()
      modifies this
      ensures Valid() && Abs() == Next(Cfg(), old(Abs()), Step.Enqueue(job))
      ensures r == if old(draining) then RefusedDraining
                   else if |old(waiting)| >= maxQueue then RefusedFull
                   else Admitted(old(nextTicket))
      ensures r.Admitted? <==> !Refuses(Cfg(), old(Abs()))
    {
      hide Inv, Queued, Layout, Next, Dispatch, Insert;
      LayoutMembers(waiting, queue);
      EnqueueStep(Cfg(), Abs(), job);
      if draining {
        return RefusedDraining;
      }
      if |waiting| >= maxQueue {
        return RefusedFull;
      }
      var waiter := Waiter(job.priority, nextTicket, job);
      r := Admitted(nextTicket);
      ghost var h := waiting;
      tasks := tasks[nextTicket := Task(job, Pending, Suspended(false))];
      nextTicket := nextTicket + 1;
      waiting := HeapPush(waiting, waiter) by { LayoutHeap(waiting, queue); }
      LayoutPush(h, queue, waiter, waiting);
      queue := Insert(queue, waiter);
      DispatchAll();
    }

    /** A timeout or a cancellation is delivered to a suspended `acquire`. */
    method Fire(t: nat)
      requires Valid() && Asleep(Abs(), t)
      modifies this`tasks
      ensures Valid() && Abs() == Next(Cfg(), old(Abs()), Step.Fire(t))
    {
      hide Inv, Layout, Next;
      FireStep(Cfg(), Abs(), t);
      var task := tasks[t];
      tasks := tasks[t := Task(task.job, if task.future.Pending? then Cancelled else task.future, Suspended(true))];
    }

    /** Remove the first entry that compares equal, by priority and arrival only, and
        restore the heap; without one, do nothing. Exactly `waiter` is removed. */
    method ForgetWaiter(waiter: Waiter)
      requires HeapMatches() && Queued(queue, tasks)
      requires waiter.ticket in tasks && waiter == WaiterOf(tasks, waiter.ticket)
      modifies this`waiting, this`queue
      ensures HeapMatches() && queue == Forget(old(queue), waiter.ticket)
    {
      hide Queued, Layout, Forget;
      LayoutMembers(waiting, queue);
      KeysIdentify(queue, tasks, waiter);
      var i := 0;
      while i < |waiting| && !(waiting[i].priority == waiter.priority && waiting[i].ticket == waiter.ticket)
        invariant i <= |waiting| && waiter !in waiting[..i]
      {
        i := i + 1;
      }
      if i < |waiting| {
        assert waiting[i] == waiter;
        ghost var h := waiting;
        waiting := Heapify(waiting[..i] + waiting[i + 1..]);
        ForgetLayout(h, queue, waiter, i, waiting);
      } else {
        assert waiting[..i] == waiting;
        ForgetContents(queue, waiter);
      }
      queue := Forget(queue, waiter.ticket);
    }

    /** `_release`: the worker of task `t` goes to the back of the free list. */
    method ReleaseWorker(worker: string, job: Job, ghost t: nat)
      requires HeapMatches() && Queued(queue, tasks)
      modifies this
      ensures HeapMatches()
      ensures Abs() == Dispatch(Cfg(), old(Abs()).(free := old(free) + [worker],
                                                   pools := Bump(old(poolInuse), job.pool, -1),
                                                   clients := Bump(old(clientInuse), job.client, -1),
                                                   held := Without(old(held), t)))
    {
      hide Queued, Layout, Dispatch, Bump, Without;
      free := free + [worker];
      poolInuse := Bump(poolInuse, job.pool, -1);
      clientInuse := Bump(clientInuse, job.client, -1);
      held := Without(held, t);
      DispatchAll();
    }

    /** The rest of `acquire` once its task wakes: collect the worker, or give up,
        handing back a worker that was granted in the same tick. */
    method Resume(t: nat) returns (r: Waking)
      requires Valid() && Wakeable(Abs(), t)
      modifies this
      ensures Valid() && Abs() == Next(Cfg(), old(Abs()), Step.Resume(t))
      ensures r == match old(tasks)[t].future
                   case Failed => Draining
                   case Granted(w) => if old(tasks)[t].phase.givingUp then QueueTimeout else Leased(w)
                   case _ => QueueTimeout
    {
      hide Inv, Queued, Layout, Next, Dispatch, Forget, Without, Bump;
      ghost var s := Abs();
      var task := tasks[t];
      ResumeStep(Cfg(), s, t);
      if !task.phase.givingUp {
        if task.future.Granted? {
          tasks := tasks[t := task.(phase := Holding)];
          return Leased(task.future.worker);
        }
        tasks := tasks[t := task.(phase := Ended(Drained))];
        return Draining;
      }
      ForgetWaiter(Waiter(task.job.priority, t, task.job));
      if task.future.Granted? {
        tasks := tasks[t := task.(phase := Ended(TimedOut))];
        ReleaseWorker(task.future.worker, task.job, t);
        return QueueTimeout;
      }
      if task.future.Failed? {
        tasks := tasks[t := task.(phase := Ended(Drained))];
        return Draining;
      }
      tasks := tasks[t := task.(phase := Ended(TimedOut))];
      return QueueTimeout;
    }

    /** The start of `drain`: refuse new work and fail everyone still waiting. */
    method StartDrain()
      requires Valid()
      modifies this
      ensures Valid() && Abs() == Next(Cfg(), old(Abs()), DrainStart)
    {
      hide Inv, Queued, Layout, Next, FailQueued;
      ghost var before := tasks;
      DrainStep(Cfg(), Abs());
      LayoutMembers(waiting, queue);
      FailQueuedSame(tasks, waiting, queue);
      draining := true;
      var k := 0;
      while k < |waiting|
        invariant k <= |waiting| && tasks == FailQueued(before, waiting[..k])
        modifies this`tasks
      {
        FailOneMore(before, waiting, k);
        var t := waiting[k].ticket;
        if t in tasks && tasks[t].future.Pending? {
          tasks := tasks[t := tasks[t].(future := Failed)];
        }
        k := k + 1;
      }
      assert waiting[..k] == waiting;
      waiting := [];
      queue := [];
      LayoutEmpty();
    }
  }

  /** At least one worker is required; without any the constructor raises `ValueError`. */
  method NewScheduler(workers: seq<string>, poolCaps: map<string, int>, maxQueue: int) returns (r: Scheduler?)
    ensures r == null <==> workers == []
    ensures r != null ==>
              fresh(r) && r.Valid() && r.Cfg() == Config(workers, poolCaps, maxQueue) && r.Abs() == Init(r.Cfg())
  {
    r := null;
    if workers != [] {
      r := new Scheduler(workers, poolCaps, maxQueue);
    }
  }

  /** A held worker. `released` makes a second release harmless. */
  class Lease {
    const scheduler: Scheduler
    const ticket: nat
    const worker: string
    const job: Job
    var released: bool

    /** The lease stands for the task that collected it. */
    ghost predicate Valid()
      reads this, scheduler
    {
      && scheduler.Valid() && ticket in scheduler.tasks
      && scheduler.tasks[ticket].future == Granted(worker) && scheduler.tasks[ticket].job == job
      && (released <==> scheduler.tasks[ticket].phase != Holding)
    }

    constructor (scheduler: Scheduler, ticket: nat, worker: string, job: Job)
      requires scheduler.Valid() && Holds(scheduler.Abs(), ticket)
      requires scheduler.tasks[ticket].future == Granted(worker) && scheduler.tasks[ticket].job == job
      ensures Valid() && !released && this.scheduler == scheduler && this.ticket == ticket
    {
      this.scheduler, this.ticket, this.worker, this.job := scheduler, ticket, worker, job;
      released := false;
    }

    /** The first release gives the worker back and dispatches; any later one changes
        nothing, which is what the step does in either case. */
    method Release()
      requires Valid()
      modifies this, scheduler
      ensures Valid() && released
      ensures scheduler.Abs() == Next(scheduler.Cfg(), old(scheduler.Abs()), Step.Release(ticket))
      ensures old(released) ==> scheduler.Abs() == old(scheduler.Abs())
    {
      hide Inv, Queued, Layout, Next, Dispatch, Without, Bump;
      ReleaseStep(scheduler.Cfg(), scheduler.Abs(), ticket);
      if !released {
        released := true;
        scheduler.tasks := scheduler.tasks[ticket := scheduler.tasks[ticket].(phase := Ended(Served))];
        scheduler.ReleaseWorker(worker, job, ticket);
      }
    }
  }

  // --- Each step, spelled out for the method that makes it --------------------------------

  lemma EnqueueStep(cfg: Config, s: State, job: Job)
    requires Inv(cfg, s)
    ensures Inv(cfg, Next(cfg, s, Step.Enqueue(job)))
    ensures Refuses(cfg, s) ==> Next(cfg, s, Step.Enqueue(job)) == s
    ensures !Refuses(cfg, s) ==>
              var s1 := Push(s, job);
              Next(cfg, s, Step.Enqueue(job)) == Dispatch(cfg, s1) && Queued(s1.queue, s1.tasks)
  {
    NextKeeps(cfg, s, Step.Enqueue(job));
    if !Refuses(cfg, s) {
      PushKeeps(cfg, s, job);
    }
  }

  lemma FireStep(cfg: Config, s: State, t: nat)
    requires Inv(cfg, s) && Asleep(s, t)
    ensures Inv(cfg, Next(cfg, s, Step.Fire(t)))
    ensures Next(cfg, s, Step.Fire(t)) == s.(tasks := s.tasks[t := Fired(s.tasks[t])])
  {
    NextKeeps(cfg, s, Step.Fire(t));
  }

  lemma ResumeStep(cfg: Config, s: State, t: nat)
    requires Inv(cfg, s) && Wakeable(s, t)
    ensures Inv(cfg, Next(cfg, s, Step.Resume(t))) && Next(cfg, s, Step.Resume(t)) == Wake(cfg, s, t)
    ensures Queued(s.queue, s.tasks) && Coherent(s.tasks[t])
    ensures s.tasks[t].phase.givingUp && s.tasks[t].future.Granted? ==>
              var s1 := HandBack(s.(queue := Forget(s.queue, t)), t, TimedOut);
              Queued(s1.queue, s1.tasks)
  {
    hide Inv, Queued, Dispatch, Forget, Without, Bump;
    NextKeeps(cfg, s, Step.Resume(t));
    InvCoherent(cfg, s, t);
    InvQueued(cfg, s);
    if s.tasks[t].phase.givingUp && s.tasks[t].future.Granted? {
      ForgetQueued(s, t);
      QueueEnd(Forget(s.queue, t), s.tasks, t, TimedOut);
    }
  }

  lemma DrainStep(cfg: Config, s: State)
    requires Inv(cfg, s)
    ensures Inv(cfg, Next(cfg, s, DrainStart))
    ensures Next(cfg, s, DrainStart)
         == s.(draining := true, queue := [], tasks := FailQueued(s.tasks, s.queue))
  {
    NextKeeps(cfg, s, DrainStart);
  }

  lemma DispatchIsScan(cfg: Config, s: State)
    ensures Dispatch(cfg, s) == Scan(cfg, s, 0)
  {
  }

  lemma ReleaseStep(cfg: Config, s: State, t: nat)
    requires Inv(cfg, s) && t in s.tasks && s.tasks[t].future.Granted?
    ensures var s' := Next(cfg, s, Step.Release(t));
            && Inv(cfg, s')
            && (!Holds(s, t) ==> s' == s)
            && (Holds(s, t) ==>
                  var s1 := HandBack(s, t, Served);
                  && s' == Dispatch(cfg, s1) && Queued(s1.queue, s1.tasks)
                  && t in s'.tasks && s'.tasks[t] == s1.tasks[t])
  {
    hide Inv, Queued, Dispatch, Scan, Without, Bump;
    NextKeeps(cfg, s, Step.Release(t));
    InvQueued(cfg, s);
    DispatchIsScan(cfg, HandBack(s, t, Served));
    if Holds(s, t) {
      QueueEnd(s.queue, s.tasks, t, Served);
      ScanOnlyGrants(cfg, HandBack(s, t, Served), 0);
    }
  }

  // --- Looking a waiter up by its key -----------------------------------------------------

  /** Equality on (priority, ticket) finds no other waiter, since tickets are unique. */
  lemma KeysIdentify(queue: seq<Waiter>, tasks: map<nat, Task>, waiter: Waiter)
    requires Queued(queue, tasks) && waiter.ticket in tasks && waiter == WaiterOf(tasks, waiter.ticket)
    ensures forall w :: w in queue && w.ticket == waiter.ticket ==> w == waiter
  {
  }

  lemma ForgetLayout(h: seq<Waiter>, q: seq<Waiter>, w: Waiter, i: nat, h': seq<Waiter>)
    requires Layout(h, q) && i < |h| && h[i] == w
    requires forall x :: x in q && x.ticket == w.ticket ==> x == w
    requires IsHeap(h') && multiset(h') == multiset(h[..i] + h[i + 1..])
    ensures Layout(h', Forget(q, w.ticket))
  {
    hide IsHeap, Forget;
    LayoutMembers(h, q);
    assert h[i] in q;
    ForgetContents(q, w);
    RemovedFrom(h, i);
    Cancels(multiset(h'), multiset(Forget(q, w.ticket)), w);
  }

  lemma RemovedFrom(h: seq<Waiter>, i: nat)
    requires i < |h|
    ensures multiset(h[..i] + h[i + 1..]) + multiset{h[i]} == multiset(h)
  {
    assert h == h[..i] + ([h[i]] + h[i + 1..]);
  }

  lemma Cancels(a: multiset<Waiter>, b: multiset<Waiter>, w: Waiter)
    requires a + multiset{w} == b + multiset{w}
    ensures a == b
  {
    assert (a + multiset{w}) - multiset{w} == a;
    assert (b + multiset{w}) - multiset{w} == b;
  }

  lemma LayoutHeap(h: seq<Waiter>, q: seq<Waiter>)
    requires Layout(h, q)
    ensures IsHeap(h)
  {
  }

  lemma LayoutEmpty()
    ensures Layout([], [])
  {
  }

  lemma {:induction false} ForgetContents(q: seq<Waiter>, w: Waiter)
    requires forall x :: x in q && x.ticket == w.ticket ==> x == w
    ensures w in q ==> multiset(Forget(q, w.ticket)) + multiset{w} == multiset(q)
    ensures w !in q ==> Forget(q, w.ticket) == q
  {
    if q != [] {
      assert q == [q[0]] + q[1..];
      if q[0].ticket != w.ticket {
        ForgetContents(q[1..], w);
      }
    }
  }

  lemma FailQueuedSame(tasks: map<nat, Task>, h: seq<Waiter>, q: seq<Waiter>)
    requires forall w :: w in h <==> w in q
    ensures FailQueued(tasks, h) == FailQueued(tasks, q) && FailQueued(tasks, []) == tasks
  {
    forall t: nat
      ensures HasTicket(h, t) <==> HasTicket(q, t)
    {
      if i :| 0 <= i < |h| && h[i].ticket == t {
        assert h[i] in q;
      }
      if i :| 0 <= i < |q| && q[i].ticket == t {
        assert q[i] in h;
      }
    }
  }

  lemma FailOneMore(tasks: map<nat, Task>, h: seq<Waiter>, k: nat)
    requires k < |h|
    ensures var done, t := FailQueued(tasks, h[..k]), h[k].ticket;
            FailQueued(tasks, h[..k + 1]) ==
              if t in done && done[t].future.Pending? then done[t := done[t].(future := Failed)] else done
  {
    assert h[..k + 1] == h[..k] + [h[k]];
    forall t: nat
      ensures HasTicket(h[..k + 1], t) <==> h[k].ticket == t || HasTicket(h[..k], t)
    {
      if i :| 0 <= i < k && h[..k][i].ticket == t {
        assert h[..k + 1][i].ticket == t;
      }
      assert h[..k + 1][k] == h[k];
    }
  }

  lemma QueuedAt(queue: seq<Waiter>, tasks: map<nat, Task>, i: nat)
    requires Queued(queue, tasks) && i < |queue|
    ensures Ordered(queue) && queue[i].ticket in tasks
  {
    assert queue[i] in queue;
  }

  lemma RestOrdered(skipped: seq<Waiter>, rest: seq<Waiter>)
    requires Ordered(skipped + rest)
    ensures Ordered(rest)
  {
    var q := skipped + rest;
    forall i, j | 0 <= i < j < |rest|
      ensures Before(rest[i], rest[j])
    {
      assert q[|skipped| + i] == rest[i] && q[|skipped| + j] == rest[j];
    }
  }

  /** The first waiter not yet looked at, in the ordered pass. */
  lemma NextInLine(queue: seq<Waiter>, tasks: map<nat, Task>, skipped: seq<Waiter>, rest: seq<Waiter>)
    requires Queued(queue, tasks) && queue == skipped + rest && rest != []
    ensures Ordered(rest)
    ensures queue[|skipped|] == rest[0] && rest[0].ticket in tasks
    ensures RemoveAt(queue, |skipped|) == skipped + rest[1..]
    ensures queue == (skipped + [rest[0]]) + rest[1..]
    ensures !tasks[rest[0].ticket].future.Pending? ==> Queued(RemoveAt(queue, |skipped|), tasks)
  {
    hide Queued, Ordered;
    var i := |skipped|;
    QueuedAt(queue, tasks, i);
    RestOrdered(skipped, rest);
    if !tasks[rest[0].ticket].future.Pending? {
      DropQueued(queue, tasks, i);
    }
    assert queue[..i] == skipped && queue[i + 1..] == rest[1..];
    assert rest == [rest[0]] + rest[1..];
  }

  lemma ScanUnfolds(cfg: Config, s: State, i: nat)
    requires i < |s.queue| && s.free != []
    ensures Scan(cfg, s, i) ==
              if !Waits(s.tasks, s.queue[i].ticket) then Scan(cfg, DropAt(s, i), i)
              else if !Eligible(cfg, s, s.queue[i].job) then Scan(cfg, s, i + 1)
              else Scan(cfg, GrantAt(s, i), i)
  {
  }

  lemma ScanStops(cfg: Config, s: State, i: nat)
    requires i <= |s.queue| && (i == |s.queue| || s.free == [])
    ensures Scan(cfg, s, i) == s
  {
  }
}
