/** Who is served next, with which worker, and how a waiter gives up. */
module SchedulerOrder {
  import opened Jobs
  import opened SchedulerState
  import opened SchedulerInvariant
  import opened SchedulerFairness

  // --- Priority, then arrival ----------------------------------------------------------------

  /** Beside these grants the pool is at its cap or the client at the job's limit. */
  predicate Full(cfg: Config, held: seq<Grant>, job: Job) {
    (job.pool in cfg.caps && Tally(held, OfPool(job.pool)) >= cfg.caps[job.pool])
    || Tally(held, OfClient(job.client)) >= job.concurrency
  }

  lemma FullExactly(cfg: Config, s: State, job: Job)
    requires Counted(s.pools, s.clients, s.held)
    ensures Full(cfg, s.held, job) <==> !Eligible(cfg, s, job)
  {
    hide Get, Tally;
    assert Get(s.pools, job.pool) == Tally(s.held, OfPool(job.pool));
    assert Get(s.clients, job.client) == Tally(s.held, OfClient(job.client));
  }

  /** A dispatch only adds outstanding grants, at the end. */
  lemma {:induction false} ScanHeld(cfg: Config, s: State, i: nat)
    requires i <= |s.queue|
    ensures var held' := Scan(cfg, s, i).held; |s.held| <= |held'| && held'[..|s.held|] == s.held
    decreases |s.queue| - i
  {
    hide Room, Bump;
    if i == |s.queue| || s.free == [] {
    } else if !Waits(s.tasks, s.queue[i].ticket) {
      ScanHeld(cfg, DropAt(s, i), i);
    } else if !Eligible(cfg, s, s.queue[i].job) {
      ScanHeld(cfg, s, i + 1);
    } else {
      var s1 := GrantAt(s, i);
      ScanHeld(cfg, s1, i);
      var held' := Scan(cfg, s1, i).held;
      assert held'[..|s.held|] == held'[..|s1.held|][..|s.held|];
    }
  }

  function WaiterGranted(g: Grant): Waiter {
    Waiter(g.job.priority, g.ticket, g.job)
  }

  lemma BlockedEarlier(cfg: Config, s: State, i: nat, w: Waiter)
    requires i < |s.queue| && Queued(s.queue, s.tasks) && BlockedBefore(cfg, s, i)
    requires w in s.queue && Waits(s.tasks, w.ticket) && Before(w, s.queue[i])
    ensures !Eligible(cfg, s, w.job)
  {
    var j :| 0 <= j < |s.queue| && s.queue[j] == w;
    assert j < i;
    assert Waits(s.tasks, s.queue[j].ticket);
  }

  /** When the dispatch makes grant `j`, a live waiter that ranks before it and is left
      waiting has no room beside the grants made until then. */
  lemma {:induction false} ScanServes(cfg: Config, s: State, i: nat, w: Waiter, j: nat)
    requires i <= |s.queue| && Consistent(cfg, s) && BlockedBefore(cfg, s, i) && w in s.queue
    requires var s' := Scan(cfg, s, i);
             && Waits(s'.tasks, w.ticket) && |s.held| <= j < |s'.held|
             && Before(w, WaiterGranted(s'.held[j]))
    ensures Full(cfg, Scan(cfg, s, i).held[..j], w.job)
    decreases |s.queue| - i
  {
    hide Consistent, Queued, Counted, Room, Bump, Full, Before, Waits, BlockedBefore;
    ConsistentParts(cfg, s);
    if i == |s.queue| || s.free == [] {
    } else if !Waits(s.tasks, s.queue[i].ticket) {
      DropKeeps(cfg, s, i);
      DropStill(cfg, s, i, w);
      ScanServes(cfg, DropAt(s, i), i, w, j) by {
        LiveBefore(cfg, s, i, w);
      }
    } else if !Eligible(cfg, s, s.queue[i].job) {
      NextBlocked(cfg, s, i);
      ScanServes(cfg, s, i + 1, w, j);
    } else {
      var s1 := GrantAt(s, i);
      GrantKeeps(cfg, s, i);
      GrantKeepsBlocked(cfg, s, i);
      ScanHeld(cfg, s1, i);
      LiveBefore(cfg, s, i, w);
      GrantedNotLive(cfg, s, i, w);
      if j == |s.held| {
        var held' := Scan(cfg, s1, i).held;
        assert held'[j] == s1.held[j] && held'[..j] == held'[..|s1.held|][..j];
        WaiterIs(s.queue, s.tasks, i);
        BlockedEarlier(cfg, s, i, w);
        FullExactly(cfg, s, w.job);
      } else {
        ScanServes(cfg, s1, i, w, j);
      }
    }
  }

  lemma ConsistentParts(cfg: Config, s: State)
    requires Consistent(cfg, s)
    ensures Queued(s.queue, s.tasks) && Counted(s.pools, s.clients, s.held)
  {
  }

  lemma WaiterIs(queue: seq<Waiter>, tasks: map<nat, Task>, i: nat)
    requires Queued(queue, tasks) && i < |queue|
    ensures queue[i] == Waiter(queue[i].job.priority, queue[i].ticket, queue[i].job)
  {
    assert queue[i] in queue;
  }

  lemma NextBlocked(cfg: Config, s: State, i: nat)
    requires i < |s.queue| && BlockedBefore(cfg, s, i) && !Eligible(cfg, s, s.queue[i].job)
    ensures BlockedBefore(cfg, s, i + 1)
  {
  }

  lemma LiveBefore(cfg: Config, s: State, i: nat, w: Waiter)
    requires i <= |s.queue| && Waits(Scan(cfg, s, i).tasks, w.ticket)
    ensures Waits(s.tasks, w.ticket)
  {
    hide Scan;
    ScanOnlyGrants(cfg, s, i);
  }

  lemma DropStill(cfg: Config, s: State, i: nat, w: Waiter)
    requires i < |s.queue| && Queued(s.queue, s.tasks) && BlockedBefore(cfg, s, i)
    requires w in s.queue && !Waits(s.tasks, s.queue[i].ticket)
    ensures BlockedBefore(cfg, DropAt(s, i), i)
    ensures Waits(s.tasks, w.ticket) ==> w in DropAt(s, i).queue
  {
    RemoveAtMembers(s.queue, i);
  }

  lemma GrantedNotLive(cfg: Config, s: State, i: nat, w: Waiter)
    requires i < |s.queue| && s.free != [] && Waits(s.tasks, s.queue[i].ticket) && Queued(s.queue, s.tasks)
    requires w in s.queue && Waits(Scan(cfg, GrantAt(s, i), i).tasks, w.ticket)
    ensures w in GrantAt(s, i).queue
  {
    hide Scan, Bump;
    ScanOnlyGrants(cfg, GrantAt(s, i), i);
    RemoveAtMembers(s.queue, i);
  }

  /** A future granted in the course of a step is granted by its dispatch. */
  lemma GrantedByDispatch(cfg: Config, s: State, step: Step, b: nat) returns (j: nat)
    requires Inv(cfg, s) && GrantedTask(Next(cfg, s, step), b) && !GrantedTask(s, b)
    ensures Dispatches(cfg, s, step)
    ensures var held, held' := Prepared(cfg, s, step).held, Next(cfg, s, step).held;
            |held| <= j < |held'| && held'[j] == GrantOf(Next(cfg, s, step).tasks, b)
  {
    hide Inv, Next, Prepared, Dispatches, Scan;
    var s1, s' := Prepared(cfg, s, step), Next(cfg, s, step);
    NextSplits(cfg, s, step);
    PreparedKeeps(cfg, s, step);
    NextKeeps(cfg, s, step);
    NotYetGranted(cfg, s, step, b);
    if Dispatches(cfg, s, step) {
      DispatchIsScan(cfg, s1);
      ScanOnlyGrants(cfg, s1, 0);
      ScanHeld(cfg, s1, 0);
      j := NewGrant(cfg, s1, s', b);
    }
  }

  lemma DispatchIsScan(cfg: Config, s: State)
    ensures Dispatch(cfg, s) == Scan(cfg, s, 0)
  {
  }

  lemma NotYetGranted(cfg: Config, s: State, step: Step, b: nat)
    requires Inv(cfg, s) && !GrantedTask(s, b)
    ensures !GrantedTask(Prepared(cfg, s, step), b)
  {
    hide Inv, Next, Prepared;
    if b in s.tasks {
      PreparedGrantsNothing(cfg, s, step, b);
    } else {
      NewNotGranted(cfg, s, step, b);
    }
  }

  lemma NewNotGranted(cfg: Config, s: State, step: Step, b: nat)
    requires b !in s.tasks
    ensures !GrantedTask(Prepared(cfg, s, step), b)
  {
    hide Forget, Insert, Without, Dispatch;
    if step.Resume? && Wakeable(s, step.ticket) {
      ResumeMoves(cfg, s, step.ticket);
    }
  }

  lemma NewGrant(cfg: Config, s: State, s': State, b: nat) returns (j: nat)
    requires Consistent(cfg, s) && Inv(cfg, s') && OnlyGrants(s.tasks, s'.tasks)
    requires |s.held| <= |s'.held| && s'.held[..|s.held|] == s.held
    requires GrantedTask(s', b) && !GrantedTask(s, b)
    ensures |s.held| <= j < |s'.held| && s'.held[j] == GrantOf(s'.tasks, b)
  {
    hide Inv, Consistent;
    HeldEarlier(cfg, s, b);
    assert forall i :: 0 <= i < |s.held| ==> s'.held[..|s.held|][i] == s'.held[i];
    j := HeldLater(cfg, s', b) by { PendingSuspended(cfg, s, b); }
  }

  lemma HeldEarlier(cfg: Config, s: State, b: nat)
    requires Consistent(cfg, s) && !GrantedTask(s, b)
    ensures forall i :: 0 <= i < |s.held| ==> s.held[i].ticket != b
  {
    assert forall i :: 0 <= i < |s.held| ==> s.held[i] in s.held;
  }

  lemma PendingSuspended(cfg: Config, s: State, b: nat)
    requires Consistent(cfg, s) && Waits(s.tasks, b)
    ensures s.tasks[b].phase.Suspended?
  {
    assert Coherent(s.tasks[b]);
  }

  lemma HeldLater(cfg: Config, s: State, b: nat) returns (j: nat)
    requires Inv(cfg, s) && GrantedTask(s, b) && s.tasks[b].phase.Suspended?
    ensures j < |s.held| && s.held[j] == GrantOf(s.tasks, b)
  {
    assert Owns(s.tasks[b]);
    j :| 0 <= j < |s.held| && s.held[j] == GrantOf(s.tasks, b);
  }

  /** Priority decides, then arrival. Whenever a step serves `b` although `a`, with a better
      priority or the same and an earlier arrival, is left waiting, then beside the grants
      outstanding until `b`'s own the pool of `a` is at its cap or its client at the limit. */
  lemma PriorityServed(cfg: Config, s: State, step: Step, a: nat, b: nat)
    requires Reachable(cfg, s) && Waits(Next(cfg, s, step).tasks, a)
    requires GrantedTask(Next(cfg, s, step), b) && !GrantedTask(s, b)
    requires var tasks := Next(cfg, s, step).tasks;
             tasks[a].job.priority < tasks[b].job.priority || (tasks[a].job.priority == tasks[b].job.priority && a < b)
    ensures var s' := Next(cfg, s, step);
            var job := s'.tasks[a].job;
            exists j :: 0 <= j < |s'.held| && s'.held[j].ticket == b
              && ((job.pool in cfg.caps && Tally(s'.held[..j], OfPool(job.pool)) >= cfg.caps[job.pool])
                  || Tally(s'.held[..j], OfClient(job.client)) >= job.concurrency)
  {
    hide Inv, Next, Prepared, Dispatches, Scan, Consistent, Reachable;
    var s1, s' := Prepared(cfg, s, step), Next(cfg, s, step);
    ReachableInv(cfg, s);
    var j := GrantedByDispatch(cfg, s, step, b);
    NextSplits(cfg, s, step);
    DispatchIsScan(cfg, s1);
    PreparedKeeps(cfg, s, step);
    var w := StillQueued(cfg, s1, a);
    ScanServes(cfg, s1, 0, w, j);
    assert Full(cfg, s'.held[..j], w.job);
  }

  lemma StillQueued(cfg: Config, s: State, a: nat) returns (w: Waiter)
    requires Consistent(cfg, s) && Waits(Scan(cfg, s, 0).tasks, a)
    ensures w in s.queue && a in s.tasks && w == WaiterOf(s.tasks, a)
    ensures Scan(cfg, s, 0).tasks[a] == s.tasks[a]
  {
    hide Scan;
    ScanOnlyGrants(cfg, s, 0);
    w := WaiterOf(s.tasks, a);
  }

  // --- Workers are used in turn --------------------------------------------------------------

  /** The workers of these grants, in order. */
  function Sent(h: seq<Grant>): seq<string> {
    if h == [] then [] else Sent(h[..|h| - 1]) + [h[|h| - 1].worker]
  }

  lemma SentAppend(h: seq<Grant>, g: Grant)
    ensures Sent(h + [g]) == Sent(h) + [g.worker]
  {
    assert (h + [g])[..|h|] == h;
  }

  lemma {:induction false} ScanInTurn(cfg: Config, s: State, i: nat)
    requires i <= |s.queue|
    ensures var s' := Scan(cfg, s, i); Sent(s'.log) + s'.free == Sent(s.log) + s.free
    decreases |s.queue| - i
  {
    hide Room, Bump, Sent;
    if i == |s.queue| || s.free == [] {
    } else if !Waits(s.tasks, s.queue[i].ticket) {
      ScanInTurn(cfg, DropAt(s, i), i);
    } else if !Eligible(cfg, s, s.queue[i].job) {
      ScanInTurn(cfg, s, i + 1);
    } else {
      var s1 := GrantAt(s, i);
      ScanInTurn(cfg, s1, i);
      SentAppend(s.log, Grant(s.queue[i].ticket, s.free[0], s.queue[i].job));
      assert Sent(s1.log) + s1.free == Sent(s.log) + ([s.free[0]] + s.free[1..]);
      assert s.free == [s.free[0]] + s.free[1..];
    }
  }

  /** The worker a step hands back, if any. */
  function GivenBack(s: State, step: Step): seq<string> {
    if GivesBack(s, step) then [s.tasks[step.ticket].future.worker] else []
  }

  function AllGivenBack(cfg: Config, s: State, steps: seq<Step>): seq<string>
    decreases |steps|
  {
    if steps == [] then [] else GivenBack(s, steps[0]) + AllGivenBack(cfg, Next(cfg, s, steps[0]), steps[1..])
  }

  lemma PreparedInTurn(cfg: Config, s: State, step: Step)
    ensures var s1 := Prepared(cfg, s, step); s1.log == s.log && s1.free == s.free + GivenBack(s, step)
  {
    hide Forget, Without, Bump, Insert, Dispatch, FailQueued;
    PreparedLog(cfg, s, step);
  }

  lemma NextInTurn(cfg: Config, s: State, step: Step)
    ensures var s' := Next(cfg, s, step);
            Sent(s'.log) + s'.free == Sent(s.log) + (s.free + GivenBack(s, step))
  {
    hide Next, Prepared, Dispatches, Scan, GivenBack, Sent;
    PreparedInTurn(cfg, s, step);
    NextSplits(cfg, s, step);
    DispatchIsScan(cfg, Prepared(cfg, s, step));
    ScanInTurn(cfg, Prepared(cfg, s, step), 0);
  }

  lemma {:induction false} RunInTurn(cfg: Config, s: State, steps: seq<Step>)
    ensures var s' := Run(cfg, s, steps);
            Sent(s'.log) + s'.free == Sent(s.log) + (s.free + AllGivenBack(cfg, s, steps))
    decreases |steps|
  {
    hide Next, GivenBack, Sent;
    if steps == [] {
      assert s.free + [] == s.free;
    } else {
      var s1 := Next(cfg, s, steps[0]);
      var first, rest := GivenBack(s, steps[0]), AllGivenBack(cfg, s1, steps[1..]);
      NextInTurn(cfg, s, steps[0]);
      RunInTurn(cfg, s1, steps[1..]);
      assert Sent(s1.log) + (s1.free + rest) == (Sent(s1.log) + s1.free) + rest;
      assert (Sent(s.log) + (s.free + first)) + rest == Sent(s.log) + (s.free + (first + rest));
    }
  }

  /** Workers are used in turn: over every run the workers sent out, in order, followed by
      those free, are the configured ones followed by those that came back, in order. */
  lemma WorkersInTurn(cfg: Config, steps: seq<Step>)
    ensures var s := Run(cfg, Init(cfg), steps);
            Sent(s.log) + s.free == cfg.workers + AllGivenBack(cfg, Init(cfg), steps)
  {
    hide Next, AllGivenBack;
    RunInTurn(cfg, Init(cfg), steps);
    assert Sent([]) + (cfg.workers + AllGivenBack(cfg, Init(cfg), steps))
        == cfg.workers + AllGivenBack(cfg, Init(cfg), steps);
  }

  // --- Giving up -------------------------------------------------------------------------------

  /** A waiter that times out or is cancelled before it is granted ends with `QueueTimeout`:
      it is off the queue, and nothing else has changed. */
  lemma GivesUpQueued(cfg: Config, s: State, t: nat)
    requires Inv(cfg, s) && Waits(s.tasks, t)
    ensures var s' := Next(cfg, Next(cfg, s, Fire(t)), Resume(t));
            && t in s'.tasks && s'.tasks[t].phase == Ended(TimedOut) && !s'.tasks[t].future.Granted?
            && (forall w :: w in s'.queue <==> w in s.queue && w.ticket != t)
            && s' == s.(queue := s'.queue, tasks := s.tasks[t := s'.tasks[t]])
  {
    hide Forget, Conserved, Counted, Ranked, Capped, Owned, Logged;
    assert Coherent(s.tasks[t]);
    QueuedDistinct(s);
    ForgetMembers(s.queue, t);
    var s1 := Next(cfg, s, Fire(t));
    assert s1 == s.(tasks := s.tasks[t := Task(s.tasks[t].job, Cancelled, Suspended(true))]);
    assert Wakeable(s1, t) && Next(cfg, s1, Resume(t)) == GiveUp(cfg, s1, t);
    assert s1.tasks[t := s1.tasks[t].(phase := Ended(TimedOut))]
        == s.tasks[t := Task(s.tasks[t].job, Cancelled, Ended(TimedOut))];
  }

  /** A waiter that was granted in the same tick ends with `QueueTimeout` as well, and its
      worker is handed straight back. */
  lemma GivesUpGranted(cfg: Config, s: State, t: nat)
    requires Inv(cfg, s) && t in s.tasks && s.tasks[t].future.Granted? && s.tasks[t].phase == Suspended(false)
    ensures var s1 := Next(cfg, s, Fire(t));
            var s' := Next(cfg, s1, Resume(t));
            && GivenBack(s1, Resume(t)) == [s.tasks[t].future.worker]
            && t in s'.tasks && s'.tasks[t].phase == Ended(TimedOut)
            && forall g :: g in s'.held ==> g.ticket != t
  {
    hide Inv, Scan, Without, Forget, Bump, Dispatch;
    var s1 := Next(cfg, s, Fire(t));
    assert Wakeable(s1, t) && s1.tasks[t].phase.givingUp && s1.tasks[t].future.Granted?;
    NextKeeps(cfg, s, Fire(t));
    NextKeeps(cfg, s1, Resume(t));
    var s2 := HandBack(s1.(queue := Forget(s1.queue, t)), t, TimedOut);
    assert Next(cfg, s1, Resume(t)) == Dispatch(cfg, s2);
    DispatchIsScan(cfg, s2);
    ScanOnlyGrants(cfg, s2, 0);
    NotOwner(cfg, Next(cfg, s1, Resume(t)), t);
  }

  lemma NotOwner(cfg: Config, s: State, t: nat)
    requires Inv(cfg, s) && t in s.tasks && !Owns(s.tasks[t])
    ensures forall g :: g in s.held ==> g.ticket != t
  {
  }

  // --- Abandoned entries -------------------------------------------------------------------------

  /** A dispatch that does not run out of workers leaves no abandoned entry in the queue, so
      none of them counts towards the queue limit any more. */
  lemma {:induction false} ScanClears(cfg: Config, s: State, i: nat)
    requires i <= |s.queue| && DistinctTickets(s.queue)
    requires forall j :: 0 <= j < i ==> Waits(s.tasks, s.queue[j].ticket)
    ensures var s' := Scan(cfg, s, i);
            s'.free != [] ==> forall w :: w in s'.queue ==> Waits(s'.tasks, w.ticket)
    decreases |s.queue| - i
  {
    hide Room, Bump;
    if i == |s.queue| || s.free == [] {
    } else if !Waits(s.tasks, s.queue[i].ticket) {
      ScanClears(cfg, DropAt(s, i), i);
    } else if !Eligible(cfg, s, s.queue[i].job) {
      ScanClears(cfg, s, i + 1);
    } else {
      ScanClears(cfg, GrantAt(s, i), i);
    }
  }
}
