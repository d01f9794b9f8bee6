/** Bounded wait: how many workers must come back before a waiter is served. */
module SchedulerWaiting {
  import opened Jobs
  import opened SchedulerState
  import opened SchedulerInvariant
  import opened SchedulerFairness

  /** The waiter is live, ranks before `w` and is one of those selected. */
  predicate InFront(tasks: map<nat, Task>, x: Waiter, w: Waiter, k: Key) {
    Waits(tasks, x.ticket) && Before(x, w) && Selects(k, x.job)
  }

  /** How many selected live waiters stand before `w`. */
  function Ahead(q: seq<Waiter>, tasks: map<nat, Task>, w: Waiter, k: Key): nat {
    if q == [] then 0
    else (if InFront(tasks, q[0], w, k) then 1 else 0) + Ahead(q[1..], tasks, w, k)
  }

  lemma {:induction false} AheadConcat(a: seq<Waiter>, b: seq<Waiter>, tasks: map<nat, Task>, w: Waiter, k: Key)
    ensures Ahead(a + b, tasks, w, k) == Ahead(a, tasks, w, k) + Ahead(b, tasks, w, k)
  {
    hide InFront;
    if a == [] {
      assert a + b == b;
    } else {
      AheadConcat(a[1..], b, tasks, w, k);
      assert (a + b)[1..] == a[1..] + b;
    }
  }

  lemma AheadSplit(q: seq<Waiter>, i: nat, tasks: map<nat, Task>, w: Waiter, k: Key)
    requires i < |q|
    ensures Ahead(q, tasks, w, k)
         == Ahead(RemoveAt(q, i), tasks, w, k) + (if InFront(tasks, q[i], w, k) then 1 else 0)
  {
    hide InFront;
    var one := [q[i]];
    assert q == q[..i] + (one + q[i + 1..]);
    AheadConcat(q[..i], one + q[i + 1..], tasks, w, k);
    AheadConcat(one, q[i + 1..], tasks, w, k);
    AheadConcat(q[..i], q[i + 1..], tasks, w, k);
    assert Ahead(one[1..], tasks, w, k) == 0;
  }

  /** Waiters can only stop being live, so the number ahead can only fall. */
  lemma {:induction false} AheadFalls(q: seq<Waiter>, tasks: map<nat, Task>, tasks': map<nat, Task>, w: Waiter, k: Key)
    requires forall x :: x in q && Waits(tasks', x.ticket) ==> Waits(tasks, x.ticket)
    ensures Ahead(q, tasks', w, k) <= Ahead(q, tasks, w, k)
  {
    hide Waits;
    if q != [] {
      assert q[0] in q;
      AheadFalls(q[1..], tasks, tasks', w, k);
    }
  }

  function AheadIn(s: State, w: Waiter, k: Key): nat {
    Ahead(s.queue, s.tasks, w, k)
  }

  /** A grant to somebody in front moves `w` up by one. */
  lemma AheadGrant(s: State, i: nat, w: Waiter, k: Key)
    requires i < |s.queue| && s.free != [] && Waits(s.tasks, s.queue[i].ticket)
    ensures AheadIn(GrantAt(s, i), w, k) + (if InFront(s.tasks, s.queue[i], w, k) then 1 else 0) <= AheadIn(s, w, k)
  {
    hide InFront, Bump;
    var s1 := GrantAt(s, i);
    AheadSplit(s.queue, i, s.tasks, w, k);
    AheadFalls(s1.queue, s.tasks, s1.tasks, w, k);
  }

  lemma {:induction false} ScanAhead(cfg: Config, s: State, i: nat, w: Waiter, k: Key)
    requires i <= |s.queue|
    ensures AheadIn(Scan(cfg, s, i), w, k) <= AheadIn(s, w, k)
    decreases |s.queue| - i
  {
    hide InFront, Room, Bump;
    if i == |s.queue| || s.free == [] {
    } else if !Waits(s.tasks, s.queue[i].ticket) {
      AheadSplit(s.queue, i, s.tasks, w, k);
      ScanAhead(cfg, DropAt(s, i), i, w, k);
    } else if !Eligible(cfg, s, s.queue[i].job) {
      ScanAhead(cfg, s, i + 1, w, k);
    } else {
      AheadGrant(s, i, w, k);
      ScanAhead(cfg, GrantAt(s, i), i, w, k);
    }
  }

  /** Dropping an abandoned entry moves `w` forward by one place and keeps what is ahead. */
  lemma DropAhead(s: State, i: nat, j: nat, k: Key)
    requires i < j < |s.queue| && Ordered(s.queue) && !Waits(s.tasks, s.queue[i].ticket)
    ensures |DropAt(s, i).queue| == |s.queue| - 1 && DropAt(s, i).queue[j - 1] == s.queue[j]
    ensures Ordered(DropAt(s, i).queue)
    ensures AheadIn(DropAt(s, i), s.queue[j], k) <= AheadIn(s, s.queue[j], k)
  {
    hide Ordered;
    AheadSplit(s.queue, i, s.tasks, s.queue[j], k);
    RemoveAtMembers(s.queue, i);
  }

  lemma GrantAhead(cfg: Config, s: State, i: nat, j: nat)
    requires i <= j < |s.queue| && Ordered(s.queue) && s.free != [] && Waits(s.tasks, s.queue[i].ticket)
    ensures var s' := Scan(cfg, GrantAt(s, i), i);
            GrantedTask(s', s.queue[j].ticket) || AheadIn(s', s.queue[j], AnyJob) < AheadIn(s, s.queue[j], AnyJob)
  {
    assert i < j ==> InFront(s.tasks, s.queue[i], s.queue[j], AnyJob);
    hide Ordered, InFront, Ahead, AheadIn, Scan, Bump, RemoveAt;
    ScanOnlyGrants(cfg, GrantAt(s, i), i);
    AheadGrant(s, i, s.queue[j], AnyJob);
    ScanAhead(cfg, GrantAt(s, i), i, s.queue[j], AnyJob);
  }

  /** If a live waiter has room when a dispatch starts with a free worker, the dispatch
      grants it or strictly lowers the number of live waiters ahead of it. */
  lemma {:induction false} ScanProgress(cfg: Config, s: State, i: nat, j: nat)
    requires i <= j < |s.queue| && Ordered(s.queue) && s.free != []
    requires Waits(s.tasks, s.queue[j].ticket) && Eligible(cfg, s, s.queue[j].job)
    ensures var s' := Scan(cfg, s, i);
            GrantedTask(s', s.queue[j].ticket) || AheadIn(s', s.queue[j], AnyJob) < AheadIn(s, s.queue[j], AnyJob)
    decreases |s.queue| - i
  {
    hide Room, Ordered, AheadIn, Bump, Get, RemoveAt;
    if !Waits(s.tasks, s.queue[i].ticket) {
      DropAhead(s, i, j, AnyJob);
      ScanProgress(cfg, DropAt(s, i), i, j - 1);
    } else if !Eligible(cfg, s, s.queue[i].job) {
      ScanProgress(cfg, s, i + 1, j);
    } else {
      GrantAhead(cfg, s, i, j);
    }
  }

  lemma DispatchProgress(cfg: Config, s: State, t: nat)
    requires Queued(s.queue, s.tasks) && Waits(s.tasks, t) && s.free != []
    requires Eligible(cfg, s, s.tasks[t].job)
    ensures var s', w := Dispatch(cfg, s), WaiterOf(s.tasks, t);
            GrantedTask(s', t) || AheadIn(s', w, AnyJob) < AheadIn(s, w, AnyJob)
  {
    var j :| 0 <= j < |s.queue| && s.queue[j] == WaiterOf(s.tasks, t);
    ScanProgress(cfg, s, 0, j);
  }

  // --- A waiter that nothing can block -----------------------------------------------------

  /** The selected jobs that are out or will be served before `w`. */
  function Load(s: State, w: Waiter, k: Key): nat {
    Tally(s.held, k) + AheadIn(s, w, k)
  }

  /** Even when everyone in front of `w` has been granted, there is room for it. */
  predicate SureOfRoom(cfg: Config, s: State, w: Waiter) {
    && Load(s, w, OfClient(w.job.client)) < w.job.concurrency
    && (w.job.pool in cfg.caps ==> Load(s, w, OfPool(w.job.pool)) < cfg.caps[w.job.pool])
  }

  lemma RoomNow(cfg: Config, s: State, w: Waiter)
    requires Counted(s.pools, s.clients, s.held) && SureOfRoom(cfg, s, w)
    ensures Eligible(cfg, s, w.job)
  {
    hide AheadIn, Tally;
    assert Get(s.clients, w.job.client) == Tally(s.held, OfClient(w.job.client));
    assert Get(s.pools, w.job.pool) == Tally(s.held, OfPool(w.job.pool));
  }

  lemma SureStays(cfg: Config, s: State, s': State, w: Waiter)
    requires SureOfRoom(cfg, s, w) && forall k :: Load(s', w, k) <= Load(s, w, k)
    ensures SureOfRoom(cfg, s', w)
  {
    hide Load;
  }

  /** A grant to somebody in front only moves one job from waiting to being out. */
  lemma GrantLoad(s: State, i: nat, w: Waiter, k: Key)
    requires i < |s.queue| && s.free != [] && Waits(s.tasks, s.queue[i].ticket) && Before(s.queue[i], w)
    ensures Load(GrantAt(s, i), w, k) <= Load(s, w, k)
  {
    hide AheadIn, Bump, Before;
    var x := s.queue[i];
    AheadGrant(s, i, w, k);
    TallyAppend(s.held, Grant(x.ticket, s.free[0], x.job), k);
  }

  /** What a dispatch does for a waiter that nothing can block. */
  ghost predicate ServedOrSure(cfg: Config, s: State, s': State, w: Waiter)
    requires w.ticket in s.tasks
  {
    GrantedTask(s', w.ticket)
    || (Waits(s'.tasks, w.ticket) && s'.tasks[w.ticket] == s.tasks[w.ticket] && SureOfRoom(cfg, s', w))
  }

  lemma PositionKept(s: State, i: nat, j: nat)
    requires i < j < |s.queue| && Queued(s.queue, s.tasks)
    ensures |RemoveAt(s.queue, i)| == |s.queue| - 1 && RemoveAt(s.queue, i)[j - 1] == s.queue[j]
    ensures s.queue[i].ticket != s.queue[j].ticket && Before(s.queue[i], s.queue[j])
  {
    QueuedDistinct(s);
  }

  lemma GrantSure(cfg: Config, s: State, i: nat, j: nat)
    requires i < j < |s.queue| && s.free != [] && Waits(s.tasks, s.queue[i].ticket) && Queued(s.queue, s.tasks)
    requires SureOfRoom(cfg, s, s.queue[j])
    ensures SureOfRoom(cfg, GrantAt(s, i), s.queue[j])
  {
    hide Queued, SureOfRoom, Load, Before;
    PositionKept(s, i, j);
    forall k
      ensures Load(GrantAt(s, i), s.queue[j], k) <= Load(s, s.queue[j], k)
    {
      GrantLoad(s, i, s.queue[j], k);
    }
    SureStays(cfg, s, GrantAt(s, i), s.queue[j]);
  }

  lemma DropSure(cfg: Config, s: State, i: nat, j: nat)
    requires i < j < |s.queue| && !Waits(s.tasks, s.queue[i].ticket) && Queued(s.queue, s.tasks)
    requires SureOfRoom(cfg, s, s.queue[j])
    ensures SureOfRoom(cfg, DropAt(s, i), s.queue[j])
  {
    hide SureOfRoom, AheadIn, Waits;
    forall k
      ensures Load(DropAt(s, i), s.queue[j], k) <= Load(s, s.queue[j], k)
    {
      DropAhead(s, i, j, k);
    }
    SureStays(cfg, s, DropAt(s, i), s.queue[j]);
  }

  lemma GrantServes(cfg: Config, s: State, i: nat)
    requires i < |s.queue| && s.free != [] && s.queue[i].ticket in s.tasks
    ensures GrantedTask(Scan(cfg, GrantAt(s, i), i), s.queue[i].ticket)
  {
    hide Scan, Bump;
    ScanOnlyGrants(cfg, GrantAt(s, i), i);
  }

  lemma ConsistentParts(cfg: Config, s: State)
    requires Consistent(cfg, s)
    ensures Queued(s.queue, s.tasks) && Counted(s.pools, s.clients, s.held)
  {
  }

  /** Nobody behind a waiter that nothing can block is granted before it. */
  lemma {:induction false} ScanSure(cfg: Config, s: State, i: nat, j: nat)
    requires i <= j < |s.queue| && Consistent(cfg, s)
    requires Waits(s.tasks, s.queue[j].ticket) && SureOfRoom(cfg, s, s.queue[j])
    ensures ServedOrSure(cfg, s, Scan(cfg, s, i), s.queue[j])
    decreases |s.queue| - i
  {
    hide Consistent, Queued, Counted, SureOfRoom, Room, Bump, RemoveAt;
    var w := s.queue[j];
    ConsistentParts(cfg, s);
    RoomNow(cfg, s, w);
    if s.free == [] {
    } else if !Waits(s.tasks, s.queue[i].ticket) {
      PositionKept(s, i, j);
      DropKeeps(cfg, s, i);
      DropSure(cfg, s, i, j);
      ScanSure(cfg, DropAt(s, i), i, j - 1);
    } else if !Eligible(cfg, s, s.queue[i].job) {
      ScanSure(cfg, s, i + 1, j);
    } else if i == j {
      GrantServes(cfg, s, i);
    } else {
      PositionKept(s, i, j);
      GrantKeeps(cfg, s, i);
      GrantSure(cfg, s, i, j);
      ScanSure(cfg, GrantAt(s, i), i, j - 1);
    }
  }

  lemma {:induction false} TallyNone(h: seq<Grant>, k: Key)
    requires forall g :: g in h ==> !Matches(g, k)
    ensures Tally(h, k) == 0
  {
    if h != [] {
      assert h[|h| - 1] in h;
      TallyNone(h[..|h| - 1], k);
    }
  }

  lemma {:induction false} AheadNone(q: seq<Waiter>, tasks: map<nat, Task>, w: Waiter, k: Key)
    requires forall x :: x in q ==> !InFront(tasks, x, w, k)
    ensures Ahead(q, tasks, w, k) == 0
  {
    hide InFront;
    if q != [] {
      assert q[0] in q;
      AheadNone(q[1..], tasks, w, k);
    }
  }

  /** The simplest such waiter: the first of its client, in an uncapped pool. */
  lemma FirstOfClient(cfg: Config, s: State, t: nat)
    requires Consistent(cfg, s) && Waits(s.tasks, t)
    requires s.tasks[t].job.pool !in cfg.caps && s.tasks[t].job.concurrency >= 1
    requires forall u :: u in s.tasks && u != t && s.tasks[u].job.client == s.tasks[t].job.client ==>
               !Owns(s.tasks[u])
               && (s.tasks[u].future.Pending? ==> Before(WaiterOf(s.tasks, t), WaiterOf(s.tasks, u)))
    ensures SureOfRoom(cfg, s, WaiterOf(s.tasks, t))
  {
    hide Conserved, Counted, Ranked, Capped, Logged, Tracked, Tally, Ahead;
    var w := WaiterOf(s.tasks, t);
    var k := OfClient(w.job.client);
    forall g | g in s.held
      ensures !Matches(g, k)
    {
      assert Owns(s.tasks[g.ticket]);
    }
    TallyNone(s.held, k);
    AheadNone(s.queue, s.tasks, w, k);
  }

  // --- Undisturbed steps ------------------------------------------------------------------

  /** The step neither gives up `t`, nor drains, nor brings a better-priority job. */
  predicate Undisturbing(step: Step, t: nat, job: Job) {
    match step
    case Enqueue(other) => other.priority >= job.priority
    case Fire(u) => u != t
    case DrainStart => false
    case _ => true
  }

  lemma PreparedLeaves(cfg: Config, s: State, step: Step, t: nat)
    requires Tracked(s.tasks, s.nextTicket) && Waits(s.tasks, t) && Undisturbing(step, t, s.tasks[t].job)
    ensures t in Prepared(cfg, s, step).tasks && Prepared(cfg, s, step).tasks[t] == s.tasks[t]
  {
    assert Coherent(s.tasks[t]);
    match step
    case Resume(u) =>
      if Wakeable(s, u) {
        ResumeMoves(cfg, s, u);
      }
    case _ =>
  }

  /** Before it dispatches a step has not added an outstanding grant. */
  lemma PreparedTally(cfg: Config, s: State, step: Step, k: Key)
    ensures Tally(Prepared(cfg, s, step).held, k) <= Tally(s.held, k)
  {
    hide Tally, Without, Forget, Insert, Bump, Dispatch, FailQueued;
    match step
    case Resume(t) => WithoutTallyAtMost(s.held, t, k);
    case Release(t) => WithoutTallyAtMost(s.held, t, k);
    case _ =>
  }

  lemma ForgetAhead(q: seq<Waiter>, t: nat, tasks: map<nat, Task>, w: Waiter, k: Key)
    ensures Ahead(Forget(q, t), tasks, w, k) <= Ahead(q, tasks, w, k)
  {
    if q != [] && q[0].ticket != t {
      ForgetAhead(q[1..], t, tasks, w, k);
      assert ([q[0]] + Forget(q[1..], t))[1..] == Forget(q[1..], t);
    }
  }

  /** Arrivals of equal or worse priority never raise the number ahead. */
  lemma InsertAhead(q: seq<Waiter>, x: Waiter, tasks: map<nat, Task>, w: Waiter, k: Key)
    requires !Before(x, w)
    ensures Ahead(Insert(q, x), tasks, w, k) == Ahead(q, tasks, w, k)
  {
    var i, q' := Slot(q, x), Insert(q, x);
    assert q'[i] == x && RemoveAt(q', i) == q;
    AheadSplit(q', i, tasks, w, k);
  }

  lemma PushAhead(s: State, job: Job, w: Waiter, k: Key)
    requires forall y :: y in s.queue ==> y.ticket < s.nextTicket
    requires w.ticket < s.nextTicket && w.priority <= job.priority
    ensures AheadIn(Push(s, job), w, k) <= AheadIn(s, w, k)
  {
    var tasks' := Push(s, job).tasks;
    InsertAhead(s.queue, NewWaiter(s, job), tasks', w, k);
    AheadFalls(s.queue, s.tasks, tasks', w, k);
  }

  lemma PreparedQueue(cfg: Config, s: State, step: Step)
    requires !step.Enqueue? && !step.DrainStart?
    ensures var q := Prepared(cfg, s, step).queue;
            q == s.queue || (step.Resume? && q == Forget(s.queue, step.ticket))
  {
  }

  /** Without new arrivals the number ahead can only fall. */
  lemma LeaveAhead(s: State, s1: State, w: Waiter, k: Key, t: nat)
    requires Queued(s.queue, s.tasks) && Settled(s.tasks, s1.tasks)
    requires s1.queue == s.queue || s1.queue == Forget(s.queue, t)
    ensures AheadIn(s1, w, k) <= AheadIn(s, w, k)
  {
    assert forall x :: x in s.queue ==> x.ticket in s.tasks;
    AheadFalls(s.queue, s.tasks, s1.tasks, w, k);
    ForgetAhead(s.queue, t, s1.tasks, w, k);
  }

  lemma PreparedAhead(cfg: Config, s: State, step: Step, t: nat, k: Key)
    requires Inv(cfg, s) && Waits(s.tasks, t) && Undisturbing(step, t, s.tasks[t].job)
    ensures AheadIn(Prepared(cfg, s, step), WaiterOf(s.tasks, t), k) <= AheadIn(s, WaiterOf(s.tasks, t), k)
  {
    var w := WaiterOf(s.tasks, t);
    if step.Enqueue? {
      if Dispatches(cfg, s, step) {
        assert forall y :: y in s.queue ==> y.ticket in s.tasks;
        PushAhead(s, step.job, w, k);
      }
    } else {
      PreparedSettled(cfg, s, step);
      PreparedQueue(cfg, s, step);
      LeaveAhead(s, Prepared(cfg, s, step), w, k, if step.Resume? then step.ticket else 0);
    }
  }

  // --- The bound -----------------------------------------------------------------------------

  /** What an undisturbed step does for a waiter that nothing can block: it is granted, or
      it still waits so with no more ahead of it, and with fewer if the step gave a worker
      back. */
  ghost predicate Advances(cfg: Config, s: State, s': State, w: Waiter, freed: bool)
    requires w.ticket in s.tasks
  {
    && ServedOrSure(cfg, s, s', w)
    && (GrantedTask(s', w.ticket)
        || AheadIn(s', w, AnyJob) + (if freed then 1 else 0) <= AheadIn(s, w, AnyJob))
  }

  lemma PreparedSure(cfg: Config, s: State, step: Step, t: nat)
    requires Inv(cfg, s) && Waits(s.tasks, t) && Undisturbing(step, t, s.tasks[t].job)
    requires SureOfRoom(cfg, s, WaiterOf(s.tasks, t))
    ensures SureOfRoom(cfg, Prepared(cfg, s, step), WaiterOf(s.tasks, t))
  {
    hide Inv, Prepared, SureOfRoom, AheadIn, Tally, Undisturbing;
    var s1, w := Prepared(cfg, s, step), WaiterOf(s.tasks, t);
    forall k
      ensures Load(s1, w, k) <= Load(s, w, k)
    {
      PreparedAhead(cfg, s, step, t, k);
      PreparedTally(cfg, s, step, k);
    }
    SureStays(cfg, s, s1, w);
  }

  lemma GivenBackIsFree(cfg: Config, s: State, step: Step)
    requires GivesBack(s, step)
    ensures Prepared(cfg, s, step).free != []
  {
  }

  lemma InvTracked(cfg: Config, s: State)
    requires Inv(cfg, s)
    ensures Tracked(s.tasks, s.nextTicket)
  {
  }

  lemma QueuedPosition(s: State, t: nat) returns (j: nat)
    requires Queued(s.queue, s.tasks) && Waits(s.tasks, t)
    ensures j < |s.queue| && s.queue[j] == WaiterOf(s.tasks, t)
  {
    j :| 0 <= j < |s.queue| && s.queue[j] == WaiterOf(s.tasks, t);
  }

  lemma DispatchAdvances(cfg: Config, s: State, t: nat, freed: bool)
    requires Consistent(cfg, s) && Waits(s.tasks, t) && SureOfRoom(cfg, s, WaiterOf(s.tasks, t))
    requires freed ==> s.free != []
    ensures Advances(cfg, s, Dispatch(cfg, s), WaiterOf(s.tasks, t), freed)
  {
    hide Consistent, Queued, Counted, SureOfRoom, Scan, AheadIn, Room;
    var w := WaiterOf(s.tasks, t);
    ConsistentParts(cfg, s);
    var j := QueuedPosition(s, t);
    ScanSure(cfg, s, 0, j);
    ScanAhead(cfg, s, 0, w, AnyJob);
    if freed {
      RoomNow(cfg, s, w);
      DispatchProgress(cfg, s, t);
    }
  }

  lemma NextAdvances(cfg: Config, s: State, step: Step, t: nat)
    requires Inv(cfg, s) && Waits(s.tasks, t) && SureOfRoom(cfg, s, WaiterOf(s.tasks, t))
    requires Undisturbing(step, t, s.tasks[t].job)
    ensures Advances(cfg, s, Next(cfg, s, step), WaiterOf(s.tasks, t), GivesBack(s, step))
  {
    hide Prepared, Next, Inv, Consistent, GivesBack, Undisturbing, AheadIn, Room, SureOfRoom, Dispatch;
    var s1 := Prepared(cfg, s, step);
    InvTracked(cfg, s);
    PreparedLeaves(cfg, s, step, t);
    PreparedSure(cfg, s, step, t);
    PreparedAhead(cfg, s, step, t, AnyJob);
    PreparedKeeps(cfg, s, step);
    NextSplits(cfg, s, step);
    if Dispatches(cfg, s, step) {
      if GivesBack(s, step) { GivenBackIsFree(cfg, s, step); }
      DispatchAdvances(cfg, s1, t, GivesBack(s, step));
    }
  }

  /** How many workers come back in a run. */
  function Returns(cfg: Config, s: State, steps: seq<Step>): nat
    decreases |steps|
  {
    if steps == [] then 0
    else (if GivesBack(s, steps[0]) then 1 else 0) + Returns(cfg, Next(cfg, s, steps[0]), steps[1..])
  }

  lemma {:induction false} GrantedStays(cfg: Config, s: State, steps: seq<Step>, t: nat)
    requires Inv(cfg, s) && GrantedTask(s, t)
    ensures GrantedTask(Run(cfg, s, steps), t)
    decreases |steps|
  {
    if steps != [] {
      NextSettled(cfg, s, steps[0]);
      NextKeeps(cfg, s, steps[0]);
      hide Inv, Next;
      GrantedStays(cfg, Next(cfg, s, steps[0]), steps[1..], t);
    }
  }

  /** A waiter is granted once more workers have come back than live waiters stood ahead of
      it, unless it gives up, the drain starts or a better-priority job arrives; provided its
      limits leave room for it even with every job of its client, and of its pool if that is
      capped, that is out or ahead of it. Later arrivals of the same client do not matter. */
  lemma {:induction false} BoundedWait(cfg: Config, s: State, steps: seq<Step>, t: nat)
    requires Inv(cfg, s) && Waits(s.tasks, t) && SureOfRoom(cfg, s, WaiterOf(s.tasks, t))
    requires forall k :: 0 <= k < |steps| ==> Undisturbing(steps[k], t, s.tasks[t].job)
    requires Returns(cfg, s, steps) > AheadIn(s, WaiterOf(s.tasks, t), AnyJob)
    ensures GrantedTask(Run(cfg, s, steps), t)
    decreases |steps|
  {
    hide Inv, Next, SureOfRoom, Undisturbing, GivesBack, AheadIn;
    var s' := Next(cfg, s, steps[0]);
    NextAdvances(cfg, s, steps[0], t);
    NextKeeps(cfg, s, steps[0]);
    if GrantedTask(s', t) {
      GrantedStays(cfg, s', steps[1..], t);
    } else {
      BoundedWait(cfg, s', steps[1..], t);
    }
  }
}
