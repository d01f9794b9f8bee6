/** Ordering and waiting over whole runs. */
module SchedulerFairness {
  import opened Jobs
  import opened SchedulerState
  import opened SchedulerInvariant

  predicate GrantedTask(s: State, t: nat) {
    t in s.tasks && s.tasks[t].future.Granted?
  }

  // --- What a dispatch may do to a task -------------------------------------------------

  /** Only pending futures change, and only to granted. */
  ghost predicate OnlyGrants(tasks: map<nat, Task>, tasks': map<nat, Task>) {
    && tasks'.Keys == tasks.Keys
    && forall t :: t in tasks ==>
         tasks'[t] == tasks[t]
         || (tasks[t].future.Pending? && tasks'[t].future.Granted?
             && tasks'[t] == tasks[t].(future := tasks'[t].future))
  }

  lemma {:induction false} ScanOnlyGrants(cfg: Config, s: State, i: nat)
    requires i <= |s.queue|
    ensures OnlyGrants(s.tasks, Scan(cfg, s, i).tasks)
    decreases |s.queue| - i
  {
    if i == |s.queue| || s.free == [] {
    } else if !Waits(s.tasks, s.queue[i].ticket) {
      ScanOnlyGrants(cfg, DropAt(s, i), i);
    } else if !Eligible(cfg, s, s.queue[i].job) {
      ScanOnlyGrants(cfg, s, i + 1);
    } else {
      ScanOnlyGrants(cfg, GrantAt(s, i), i);
    }
  }

  // --- A step is its own change and then, for some, a dispatch -----------------------------

  /** Steps that give a worker back: a release, or a grant met by a giving-up task. */
  predicate GivesBack(s: State, step: Step) {
    match step
    case Release(t) => Holds(s, t) && s.tasks[t].future.Granted?
    case Resume(t) => Wakeable(s, t) && s.tasks[t].phase.givingUp && s.tasks[t].future.Granted?
    case _ => false
  }

  predicate Dispatches(cfg: Config, s: State, step: Step) {
    (step.Enqueue? && !Refuses(cfg, s)) || GivesBack(s, step)
  }

  /** The state a step has made before it dispatches. */
  function Prepared(cfg: Config, s: State, step: Step): State {
    if !Dispatches(cfg, s, step) then Next(cfg, s, step)
    else
      match step
      case Enqueue(job) => Push(s, job)
      case Resume(t) => HandBack(s.(queue := Forget(s.queue, t)), t, TimedOut)
      case Release(t) => HandBack(s, t, Served)
      case _ => s
  }

  lemma NextSplits(cfg: Config, s: State, step: Step)
    ensures Next(cfg, s, step)
         == if Dispatches(cfg, s, step) then Dispatch(cfg, Prepared(cfg, s, step)) else Prepared(cfg, s, step)
  {
  }

  lemma PreparedKeeps(cfg: Config, s: State, step: Step)
    requires Inv(cfg, s)
    ensures Consistent(cfg, Prepared(cfg, s, step))
    ensures !Dispatches(cfg, s, step) ==> Inv(cfg, Prepared(cfg, s, step))
  {
    if !Dispatches(cfg, s, step) {
      NextKeeps(cfg, s, step);
    } else {
      match step
      case Enqueue(job) => PushKeeps(cfg, s, job);
      case Resume(t) =>
        ForgetKeeps(cfg, s, t);
        HandBackConsistent(cfg, s.(queue := Forget(s.queue, t)), t, TimedOut);
      case Release(t) => HandBackConsistent(cfg, s, t, Served);
    }
  }

  /** Done futures and jobs are final; only `Enqueue` adds a task. */
  ghost predicate Settled(tasks: map<nat, Task>, tasks': map<nat, Task>) {
    forall t :: t in tasks ==>
      && t in tasks' && tasks'[t].job == tasks[t].job
      && (!tasks[t].future.Pending? ==> tasks'[t].future == tasks[t].future)
  }

  lemma UpdateSettled(tasks: map<nat, Task>, t: nat, task: Task)
    requires t in tasks ==>
               && task.job == tasks[t].job
               && (!tasks[t].future.Pending? ==> task.future == tasks[t].future)
    ensures Settled(tasks, tasks[t := task])
  {
  }

  lemma FailSettled(tasks: map<nat, Task>, q: seq<Waiter>)
    ensures Settled(tasks, FailQueued(tasks, q)) && Settled(tasks, tasks)
  {
  }

  /** Waking a task, before any dispatch, only moves that task to its next phase. */
  lemma ResumeMoves(cfg: Config, s: State, t: nat)
    requires Wakeable(s, t)
    ensures exists phase :: Prepared(cfg, s, Resume(t)).tasks == s.tasks[t := s.tasks[t].(phase := phase)]
  {
    var s1 := Prepared(cfg, s, Resume(t));
    if GivesBack(s, Resume(t)) {
      assert s1.tasks == s.tasks[t := s.tasks[t].(phase := Ended(TimedOut))];
    } else if s.tasks[t].phase.givingUp {
      var outcome := if s.tasks[t].future.Failed? then Drained else TimedOut;
      assert s1.tasks == s.tasks[t := s.tasks[t].(phase := Ended(outcome))];
    } else {
      var phase := if s.tasks[t].future.Granted? then Holding else Ended(Drained);
      assert s1.tasks == s.tasks[t := s.tasks[t].(phase := phase)];
    }
  }

  lemma PreparedSettled(cfg: Config, s: State, step: Step)
    requires Tracked(s.tasks, s.nextTicket)
    ensures Settled(s.tasks, Prepared(cfg, s, step).tasks)
  {
    FailSettled(s.tasks, s.queue);
    match step
    case Enqueue(job) =>
      assert s.nextTicket !in s.tasks;
      UpdateSettled(s.tasks, s.nextTicket, Task(job, Pending, Suspended(false)));
    case Fire(t) =>
      if Asleep(s, t) { UpdateSettled(s.tasks, t, Fired(s.tasks[t])); }
    case Resume(t) =>
      if Wakeable(s, t) {
        ResumeMoves(cfg, s, t);
        var phase :| Prepared(cfg, s, step).tasks == s.tasks[t := s.tasks[t].(phase := phase)];
        hide Prepared, Next;
        UpdateSettled(s.tasks, t, s.tasks[t].(phase := phase));
      }
    case Release(t) =>
      if GivesBack(s, step) {
        UpdateSettled(s.tasks, t, s.tasks[t].(phase := Ended(Served)));
      }
    case DrainStart =>
  }

  /** A future that is done keeps its result for ever; a task keeps its job. */
  lemma NextSettled(cfg: Config, s: State, step: Step)
    requires Inv(cfg, s)
    ensures Settled(s.tasks, Next(cfg, s, step).tasks)
  {
    hide Next, Prepared, Dispatches, Busy, Bounded, Conserved, Counted, Ranked, Capped, Owned, Logged, Queued, Tracked;
    PreparedSettled(cfg, s, step);
    NextSplits(cfg, s, step);
    if Dispatches(cfg, s, step) {
      ScanOnlyGrants(cfg, Prepared(cfg, s, step), 0);
    }
  }

  lemma PreparedLog(cfg: Config, s: State, step: Step)
    ensures Prepared(cfg, s, step).log == s.log
  {
  }

  // --- No overtaking --------------------------------------------------------------------------

  /** Same pool, client and concurrency; `a` has the better priority, or the same and came
      earlier. */
  predicate Peers(tasks: map<nat, Task>, a: nat, b: nat) {
    && a in tasks && b in tasks
    && tasks[a].job.pool == tasks[b].job.pool
    && tasks[a].job.client == tasks[b].job.client
    && tasks[a].job.concurrency == tasks[b].job.concurrency
    && (tasks[a].job.priority < tasks[b].job.priority || (tasks[a].job.priority == tasks[b].job.priority && a < b))
  }

  /** `b` is not granted while `a` still waits, and never before `a`. */
  ghost predicate InOrder(tasks: map<nat, Task>, log: seq<Grant>, a: nat, b: nat)
    requires a in tasks && b in tasks
  {
    && !(tasks[a].future.Pending? && tasks[b].future.Granted?)
    && forall i, j | 0 <= i < |log| && 0 <= j < |log| :: log[i].ticket == b && log[j].ticket == a ==> j < i
  }

  /** While `a` waits ahead of its peer `b`, there is no room for `b` at its turn. */
  lemma PeerBlocks(cfg: Config, s: State, i: nat, a: nat, b: nat)
    requires i < |s.queue| && s.queue[i].ticket == b && Waits(s.tasks, a)
    requires Queued(s.queue, s.tasks) && BlockedBefore(cfg, s, i) && Peers(s.tasks, a, b)
    ensures !Eligible(cfg, s, s.queue[i].job)
  {
    var j :| 0 <= j < |s.queue| && s.queue[j] == WaiterOf(s.tasks, a);
    assert s.queue[i] in s.queue;
    assert s.queue[i] == WaiterOf(s.tasks, b);
    assert j < i;
    assert Waits(s.tasks, s.queue[j].ticket);
  }

  lemma LogInOrder(tasks: map<nat, Task>, log: seq<Grant>, g: Grant, a: nat, b: nat)
    requires a in tasks && b in tasks && g.ticket in tasks && tasks[g.ticket].future.Pending?
    requires Logged(log, tasks) && InOrder(tasks, log, a, b)
    requires g.ticket == b ==> !tasks[a].future.Pending?
    ensures InOrder(tasks[g.ticket := tasks[g.ticket].(future := Granted(g.worker))], log + [g], a, b)
  {
    assert forall j :: 0 <= j < |log| ==> log[j] in log;
  }

  lemma GrantInOrder(cfg: Config, s: State, i: nat, a: nat, b: nat)
    requires i < |s.queue| && s.free != [] && Waits(s.tasks, s.queue[i].ticket)
    requires Consistent(cfg, s)
    requires Eligible(cfg, s, s.queue[i].job) && BlockedBefore(cfg, s, i)
    requires Peers(s.tasks, a, b) && InOrder(s.tasks, s.log, a, b)
    ensures Peers(GrantAt(s, i).tasks, a, b)
    ensures InOrder(GrantAt(s, i).tasks, GrantAt(s, i).log, a, b)
  {
    var w := s.queue[i];
    if w.ticket == b && Waits(s.tasks, a) {
      PeerBlocks(cfg, s, i, a, b);
    }
    hide Consistent, BlockedBefore, Eligible, InOrder;
    LogInOrder(s.tasks, s.log, Grant(w.ticket, s.free[0], w.job), a, b);
  }

  lemma {:induction false} ScanInOrder(cfg: Config, s: State, i: nat, a: nat, b: nat)
    requires i <= |s.queue| && Consistent(cfg, s) && BlockedBefore(cfg, s, i)
    requires Peers(s.tasks, a, b) && InOrder(s.tasks, s.log, a, b)
    ensures var s' := Scan(cfg, s, i); Peers(s'.tasks, a, b) && InOrder(s'.tasks, s'.log, a, b)
    decreases |s.queue| - i
  {
    hide Consistent, Room, InOrder, Peers;
    if i == |s.queue| || s.free == [] {
    } else if !Waits(s.tasks, s.queue[i].ticket) {
      DropKeeps(cfg, s, i);
      ScanInOrder(cfg, DropAt(s, i), i, a, b);
    } else if !Eligible(cfg, s, s.queue[i].job) {
      ScanInOrder(cfg, s, i + 1, a, b);
    } else {
      GrantKeeps(cfg, s, i);
      GrantKeepsBlocked(cfg, s, i);
      GrantInOrder(cfg, s, i, a, b);
      ScanInOrder(cfg, GrantAt(s, i), i, a, b);
    }
  }

  /** Before it dispatches a step has granted nothing. */
  lemma PreparedGrantsNothing(cfg: Config, s: State, step: Step, t: nat)
    requires Inv(cfg, s) && t in s.tasks
    ensures GrantedTask(Prepared(cfg, s, step), t) ==> GrantedTask(s, t)
  {
    var s1 := Prepared(cfg, s, step);
    PreparedKeeps(cfg, s, step);
    PreparedSettled(cfg, s, step);
    PreparedLog(cfg, s, step);
    hide Prepared, Next, Busy, Bounded, Conserved, Counted, Ranked, Capped, Owned, Queued, Tracked;
    if GrantedTask(s1, t) {
      assert GrantOf(s1.tasks, t) in s1.log;
      assert GrantOf(s1.tasks, t) in s.log;
    }
  }

  lemma PreparedInOrder(cfg: Config, s: State, step: Step, a: nat, b: nat)
    requires Inv(cfg, s) && Peers(s.tasks, a, b) && InOrder(s.tasks, s.log, a, b)
    ensures var s1 := Prepared(cfg, s, step);
            Consistent(cfg, s1) && Peers(s1.tasks, a, b) && InOrder(s1.tasks, s1.log, a, b)
  {
    PreparedKeeps(cfg, s, step);
    PreparedSettled(cfg, s, step);
    PreparedLog(cfg, s, step);
    PreparedGrantsNothing(cfg, s, step, b);
    hide Prepared, Next, Inv, Consistent;
  }

  lemma NextInOrder(cfg: Config, s: State, step: Step, a: nat, b: nat)
    requires Inv(cfg, s) && Peers(s.tasks, a, b) && InOrder(s.tasks, s.log, a, b)
    ensures var s' := Next(cfg, s, step); Peers(s'.tasks, a, b) && InOrder(s'.tasks, s'.log, a, b)
  {
    PreparedInOrder(cfg, s, step, a, b);
    NextSplits(cfg, s, step);
    NextSettled(cfg, s, step);
    assert s.tasks.Keys <= Next(cfg, s, step).tasks.Keys;
    hide Inv, Consistent, Prepared, Next, Dispatches, InOrder;
    if Dispatches(cfg, s, step) {
      ScanInOrder(cfg, Prepared(cfg, s, step), 0, a, b);
    }
  }

  lemma {:induction false} RunInOrder(cfg: Config, s: State, steps: seq<Step>, a: nat, b: nat)
    requires Inv(cfg, s) && Peers(s.tasks, a, b) && InOrder(s.tasks, s.log, a, b)
    ensures var s' := Run(cfg, s, steps); Peers(s'.tasks, a, b) && InOrder(s'.tasks, s'.log, a, b)
    decreases |steps|
  {
    if steps != [] {
      hide Inv, Next, InOrder;
      NextKeeps(cfg, s, steps[0]);
      NextInOrder(cfg, s, steps[0], a, b);
      RunInOrder(cfg, Next(cfg, s, steps[0]), steps[1..], a, b);
    }
  }

  /** Two waiters live together with equal pool, client and concurrency are granted in
      (priority, arrival) order, whatever happens in between. */
  lemma NoOvertaking(cfg: Config, s: State, steps: seq<Step>, a: nat, b: nat)
    requires Reachable(cfg, s) && Waits(s.tasks, a) && Waits(s.tasks, b) && Peers(s.tasks, a, b)
    ensures var s' := Run(cfg, s, steps);
            && (GrantedTask(s', b) ==> !Waits(s'.tasks, a))
            && forall i, j | 0 <= i < |s'.log| && 0 <= j < |s'.log| ::
                 s'.log[i].ticket == b && s'.log[j].ticket == a ==> j < i
  {
    ReachableInv(cfg, s);
    assert forall i :: 0 <= i < |s.log| ==> s.log[i] in s.log;
    assert InOrder(s.tasks, s.log, a, b);
    RunInOrder(cfg, s, steps, a, b);
  }
}
