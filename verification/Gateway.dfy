/** Requests for engine time from arrival to ledger row: budget check, body, queue,
    lease, release, charge. Many requests interleave; one event is the code of one
    request between two awaits, and the scheduler is the one of SchedulerState. */
module Gateway {
  import opened Jobs
  import opened SchedulerState
  import opened SchedulerInvariant
  import opened SchedulerFairness
  import opened Ledger

  datatype Budget = Unmetered | Seconds(limit: real)

  datatype Plan = Plan(id: string, priority: int, pool: string, concurrency: int, budget: Budget)

  datatype Reply = TooLarge | Busy

  /** `Closed`: turned away without a lease. `Settled`: the lease given back and one ledger
      write tried; `recorded` tells whether it went through. */
  datatype Stage =
    | Reading
    | Waiting(ticket: nat)
    | Running(ticket: nat)
    | Settled(ticket: nat, recorded: bool)
    | Closed(reply: Reply)

  /** `period` is the one read at admission. */
  datatype Request = Request(client: string, plan: Plan, period: string, path: string, stage: Stage)

  datatype World = World(sched: State, tables: Tables, requests: seq<Request>)

  datatype Event =
    | Arrive(client: string, plan: Plan, period: string, path: string)
    | BodyTooLarge(r: nat)
    | Acquire(r: nat)
    | TimeOut(r: nat)
    | Wake(r: nat)
    | Finish(r: nat, run: RunRow, fault: Fault)
    | Drain

  function Start(cfg: Config): World {
    World(Init(cfg), Tables([], []), [])
  }

  /** 429: the budget is used up. */
  predicate Exhausted(t: Tables, client: string, plan: Plan, period: string) {
    plan.budget.Seconds? && Used(t.usage, client, period) >= plan.budget.limit
  }

  function JobOf(q: Request): Job {
    Job(q.client, q.plan.id, q.plan.priority, q.plan.pool, q.plan.concurrency)
  }

  predicate InStage(g: World, r: nat, waiting: bool) {
    r < |g.requests| && (if waiting then g.requests[r].stage.Waiting? else g.requests[r].stage.Running?)
  }

  function SetStage(g: World, r: nat, stage: Stage): World
    requires r < |g.requests|
  {
    g.(requests := g.requests[r := g.requests[r].(stage := stage)])
  }

  /** The row a request writes: its own client, plan and path. */
  function RowFor(q: Request, run: RunRow): RunRow {
    run.(client := q.client, plan := q.plan.id, path := q.path)
  }

  function Happen(cfg: Config, g: World, e: Event): World {
    match e
    case Arrive(client, plan, period, path) =>
      if Exhausted(g.tables, client, plan, period) then g
      else g.(requests := g.requests + [Request(client, plan, period, path, Reading)])
    case BodyTooLarge(r) =>
      if r < |g.requests| && g.requests[r].stage.Reading? then SetStage(g, r, Closed(TooLarge)) else g
    case Acquire(r) =>
      if r < |g.requests| && g.requests[r].stage.Reading? then
        if Refuses(cfg, g.sched) then SetStage(g, r, Closed(Busy))
        else
          var s' := Next(cfg, g.sched, Enqueue(JobOf(g.requests[r])));
          SetStage(g, r, Waiting(g.sched.nextTicket)).(sched := s')
      else g
    case TimeOut(r) =>
      if InStage(g, r, true) then g.(sched := Next(cfg, g.sched, Fire(g.requests[r].stage.ticket))) else g
    case Wake(r) =>
      if InStage(g, r, true) && Wakeable(g.sched, g.requests[r].stage.ticket) then
        var t := g.requests[r].stage.ticket;
        var s' := Next(cfg, g.sched, Resume(t));
        SetStage(g, r, if Holds(s', t) then Running(t) else Closed(Busy)).(sched := s')
      else g
    case Finish(r, run, fault) =>
      if InStage(g, r, false) then
        var q := g.requests[r];
        SetStage(g, r, Settled(q.stage.ticket, fault == NoFault)).(
          sched := Next(cfg, g.sched, Release(q.stage.ticket)),
          tables := Recorded(g.tables, Attempt(RowFor(q, run), q.period, fault)))
      else g
    case Drain => g.(sched := Next(cfg, g.sched, DrainStart))
  }

  function RunWorld(cfg: Config, g: World, events: seq<Event>): World
    decreases |events|
  {
    if events == [] then g else RunWorld(cfg, Happen(cfg, g, events[0]), events[1..])
  }

  // --- Who owns which task ---------------------------------------------------------------

  predicate InProgress(q: Request) {
    q.stage.Waiting? || q.stage.Running?
  }

  predicate HasTask(q: Request) {
    InProgress(q) || q.stage.Settled?
  }

  /** The task collected its lease and gave it back. */
  predicate WasServed(s: State, t: nat) {
    t in s.tasks && s.tasks[t].phase == Ended(Served)
  }

  /** The stage of a request and the phase of its task agree. */
  ghost predicate Matched(s: State, q: Request) {
    && (q.stage.Waiting? ==> Asleep(s, q.stage.ticket))
    && (q.stage.Running? ==> Holds(s, q.stage.ticket))
    && (q.stage.Settled? ==> WasServed(s, q.stage.ticket))
  }

  /** A task still going, or one that has been served. */
  predicate Lasting(s: State, t: nat) {
    Asleep(s, t) || Holds(s, t) || WasServed(s, t)
  }

  ghost predicate Claimed(requests: seq<Request>, t: nat) {
    exists r :: 0 <= r < |requests| && HasTask(requests[r]) && requests[r].stage.ticket == t
  }

  ghost predicate DistinctTasks(requests: seq<Request>) {
    forall i, j :: 0 <= i < j < |requests| && HasTask(requests[i]) && HasTask(requests[j]) ==>
      requests[i].stage.ticket != requests[j].stage.ticket
  }

  /** Tasks still going or served and requests waiting, running or settled are in
      one-to-one relation. */
  ghost predicate Linked(s: State, requests: seq<Request>) {
    && (forall r :: 0 <= r < |requests| ==> Matched(s, requests[r]))
    && DistinctTasks(requests)
    && (forall t :: t in s.tasks && Lasting(s, t) ==> Claimed(requests, t))
  }

  // --- Counting requests ---------------------------------------------------------------------

  datatype Mark = InFlight | Done | Written(client: string)

  predicate Marked(q: Request, m: Mark) {
    match m
    case InFlight => q.stage.Running?
    case Done => q.stage.Settled?
    case Written(c) => q.stage.Settled? && q.stage.recorded && q.client == c
  }

  function Unit(q: Request, m: Mark): nat {
    if Marked(q, m) then 1 else 0
  }

  function Count(requests: seq<Request>, m: Mark): nat {
    if requests == [] then 0
    else Count(requests[..|requests| - 1], m) + Unit(requests[|requests| - 1], m)
  }

  /** Every client's rows are those of its settled requests whose write went through. */
  ghost predicate RowsCounted(g: World) {
    forall c :: RunCount(g.tables.runs, c) == Count(g.requests, Written(c))
  }

  ghost predicate WorldInv(cfg: Config, g: World) {
    && Inv(cfg, g.sched)
    && Linked(g.sched, g.requests)
    && RowsCounted(g)
    && UniqueKeys(g.tables.usage) && Balanced(g.tables.runs, g.tables.usage)
  }

  // --- A scheduler step moves one task only -------------------------------------------------

  /** The phases of all tasks but `t` are kept. */
  ghost predicate OthersKeepPhase(s: State, s': State, t: nat) {
    && (forall u :: u in s.tasks ==> u in s'.tasks)
    && (forall u :: u in s.tasks && u != t ==> s'.tasks[u].phase == s.tasks[u].phase)
    && (forall u :: u in s'.tasks && u !in s.tasks ==> u == t)
  }

  function Subject(s: State, step: Step): nat {
    match step
    case Enqueue(_) => s.nextTicket
    case Fire(t) => t
    case Resume(t) => t
    case Release(t) => t
    case DrainStart => s.nextTicket
  }

  lemma PreparedOthers(cfg: Config, s: State, step: Step)
    ensures OthersKeepPhase(s, Prepared(cfg, s, step), Subject(s, step))
  {
    match step
    case Resume(t) =>
      if Wakeable(s, t) {
        ResumeMoves(cfg, s, t);
        var phase :| Prepared(cfg, s, step).tasks == s.tasks[t := s.tasks[t].(phase := phase)];
        hide Prepared, Next;
      }
    case _ =>
  }

  lemma NextOthers(cfg: Config, s: State, step: Step)
    ensures OthersKeepPhase(s, Next(cfg, s, step), Subject(s, step))
    ensures var s', t := Next(cfg, s, step), Subject(s, step);
            t in Prepared(cfg, s, step).tasks ==>
              t in s'.tasks && s'.tasks[t].phase == Prepared(cfg, s, step).tasks[t].phase
  {
    hide Prepared, Next, Dispatches;
    PreparedOthers(cfg, s, step);
    NextSplits(cfg, s, step);
    if Dispatches(cfg, s, step) {
      ScanOnlyGrants(cfg, Prepared(cfg, s, step), 0);
    }
  }

  lemma FirePhase(cfg: Config, s: State, t: nat)
    requires t in s.tasks
    ensures var s', phase := Next(cfg, s, Fire(t)), s.tasks[t].phase;
            && OthersKeepPhase(s, s', t) && t in s'.tasks
            && s'.tasks[t].phase == if phase.Suspended? then Suspended(true) else phase
  {
  }

  /** A waking task ends up with its lease exactly if it was granted one and has not been
      told to give up. */
  lemma ResumePhase(cfg: Config, s: State, t: nat)
    requires t in s.tasks
    ensures var s', task := Next(cfg, s, Resume(t)), s.tasks[t];
            && OthersKeepPhase(s, s', t) && t in s'.tasks
            && if !Wakeable(s, t) then s'.tasks[t].phase == task.phase
               else if task.future.Granted? && !task.phase.givingUp then s'.tasks[t].phase.Holding?
               else s'.tasks[t].phase.Ended?
  {
    hide Next, Prepared, Dispatches;
    NextOthers(cfg, s, Resume(t));
    PreparedPhase(cfg, s, t);
  }

  lemma PreparedPhase(cfg: Config, s: State, t: nat)
    requires t in s.tasks
    ensures var s1, task := Prepared(cfg, s, Resume(t)), s.tasks[t];
            t in s1.tasks
            && if !Wakeable(s, t) then s1.tasks[t].phase == task.phase
               else if task.future.Granted? && !task.phase.givingUp then s1.tasks[t].phase.Holding?
               else s1.tasks[t].phase.Ended?
  {
    hide Dispatch, Forget, Without;
  }

  /** One request and its task move together; every other pair stays matched. */
  lemma LinkedMove(s: State, requests: seq<Request>, s': State, r: nat, stage: Stage, t: nat)
    requires Linked(s, requests) && r < |requests| && OthersKeepPhase(s, s', t)
    requires HasTask(requests[r]) && requests[r].stage.ticket == t
    requires var q' := requests[r].(stage := stage);
             && Matched(s', q') && (HasTask(q') ==> stage.ticket == t)
             && (!HasTask(q') ==> !Lasting(s', t))
    ensures Linked(s', requests[r := requests[r].(stage := stage)])
  {
    var q' := requests[r].(stage := stage);
    var requests' := requests[r := q'];
    forall i | 0 <= i < |requests|
      ensures Matched(s', requests'[i])
    {
      assert Matched(s, requests[i]);
      assert i != r && HasTask(requests[i]) ==> requests[i].stage.ticket != t;
    }
    forall u | u in s'.tasks && Lasting(s', u)
      ensures Claimed(requests', u)
    {
      if u == t {
        assert HasTask(requests'[r]) && requests'[r].stage.ticket == u;
      } else {
        assert Lasting(s, u);
        var i :| 0 <= i < |requests| && HasTask(requests[i]) && requests[i].stage.ticket == u;
        assert requests'[i] == requests[i];
      }
    }
  }

  /** A request that had no task gets the new one. */
  lemma LinkedNew(s: State, requests: seq<Request>, s': State, r: nat, t: nat)
    requires Linked(s, requests) && r < |requests| && OthersKeepPhase(s, s', t)
    requires !HasTask(requests[r]) && t !in s.tasks && Asleep(s', t)
    ensures Linked(s', requests[r := requests[r].(stage := Waiting(t))])
  {
    var requests' := requests[r := requests[r].(stage := Waiting(t))];
    forall i | 0 <= i < |requests|
      ensures Matched(s', requests'[i])
      ensures i != r && HasTask(requests[i]) ==> requests[i].stage.ticket != t
    {
      assert Matched(s, requests[i]);
    }
    forall u | u in s'.tasks && Lasting(s', u)
      ensures Claimed(requests', u)
    {
      if u == t {
        assert HasTask(requests'[r]) && requests'[r].stage.ticket == u;
      } else {
        assert Lasting(s, u);
        var i :| 0 <= i < |requests| && HasTask(requests[i]) && requests[i].stage.ticket == u;
        assert requests'[i] == requests[i];
      }
    }
  }

  /** A request without a task changes or joins, the tasks stay. */
  lemma LinkedIdle(s: State, requests: seq<Request>, s': State, requests': seq<Request>)
    requires Linked(s, requests) && |requests| <= |requests'|
    requires forall i :: 0 <= i < |requests'| ==>
               (i < |requests| && requests'[i] == requests[i])
               || (!HasTask(requests'[i]) && (i < |requests| ==> !HasTask(requests[i])))
    requires s'.tasks.Keys == s.tasks.Keys
    requires forall u :: u in s.tasks ==> s'.tasks[u].phase == s.tasks[u].phase
    ensures Linked(s', requests')
  {
    forall u | u in s'.tasks && Lasting(s', u)
      ensures Claimed(requests', u)
    {
      assert Lasting(s, u);
      var i :| 0 <= i < |requests| && HasTask(requests[i]) && requests[i].stage.ticket == u;
      assert requests'[i] == requests[i];
    }
    forall i | 0 <= i < |requests'|
      ensures Matched(s', requests'[i])
    {
      assert i < |requests| ==> Matched(s, requests[i]);
    }
  }

  lemma {:induction false} CountUpdate(requests: seq<Request>, r: nat, q: Request, m: Mark)
    requires r < |requests|
    ensures Count(requests[r := q], m) + Unit(requests[r], m) == Count(requests, m) + Unit(q, m)
  {
    hide Unit;
    var n := |requests| - 1;
    assert requests[r := q][..n] == if r == n then requests[..n] else requests[..n][r := q];
    if r != n {
      CountUpdate(requests[..n], r, q, m);
    }
  }

  lemma CountAppend(requests: seq<Request>, q: Request, m: Mark)
    ensures Count(requests + [q], m) == Count(requests, m) + Unit(q, m)
  {
    assert (requests + [q])[..|requests|] == requests;
  }

  // --- Every event keeps the books ------------------------------------------------------------

  lemma AcquireLinks(cfg: Config, s: State, requests: seq<Request>, r: nat)
    requires Inv(cfg, s) && Linked(s, requests) && !Refuses(cfg, s)
    requires r < |requests| && requests[r].stage.Reading?
    ensures var q := requests[r];
            Linked(Next(cfg, s, Enqueue(JobOf(q))), requests[r := q.(stage := Waiting(s.nextTicket))])
  {
    var step := Enqueue(JobOf(requests[r]));
    NextOthers(cfg, s, step);
    assert Asleep(Prepared(cfg, s, step), s.nextTicket);
    assert s.nextTicket !in s.tasks;
    hide Inv, Next, Prepared, Linked;
    LinkedNew(s, requests, Next(cfg, s, step), r, s.nextTicket);
  }

  lemma TimeOutLinks(cfg: Config, s: State, requests: seq<Request>, r: nat)
    requires Linked(s, requests) && r < |requests| && requests[r].stage.Waiting?
    ensures Linked(Next(cfg, s, Fire(requests[r].stage.ticket)), requests)
  {
    var t := requests[r].stage.ticket;
    assert Matched(s, requests[r]);
    NextOthers(cfg, s, Fire(t));
    hide Linked;
    LinkedMove(s, requests, Next(cfg, s, Fire(t)), r, requests[r].stage, t);
    assert requests[r := requests[r].(stage := requests[r].stage)] == requests;
  }

  lemma WakeLinks(cfg: Config, s: State, requests: seq<Request>, r: nat)
    requires Linked(s, requests) && r < |requests| && requests[r].stage.Waiting?
    requires Wakeable(s, requests[r].stage.ticket)
    ensures var t := requests[r].stage.ticket;
            var s' := Next(cfg, s, Resume(t));
            Linked(s', requests[r := requests[r].(stage := if Holds(s', t) then Running(t) else Closed(Busy))])
  {
    hide Linked, Next, Prepared;
    var t := requests[r].stage.ticket;
    var s' := Next(cfg, s, Resume(t));
    NextOthers(cfg, s, Resume(t));
    ResumeEnds(cfg, s, t);
    LinkedMove(s, requests, s', r, if Holds(s', t) then Running(t) else Closed(Busy), t);
  }

  /** A task that wakes collects its lease or ends unserved. */
  lemma ResumeEnds(cfg: Config, s: State, t: nat)
    requires Wakeable(s, t)
    ensures var s1 := Prepared(cfg, s, Resume(t));
            t in s1.tasks && s1.tasks[t].phase in {Holding, Ended(TimedOut), Ended(Drained)}
  {
    hide Dispatch, Forget, Without;
  }

  lemma FinishLinks(cfg: Config, s: State, requests: seq<Request>, r: nat, recorded: bool)
    requires Inv(cfg, s) && Linked(s, requests) && r < |requests| && requests[r].stage.Running?
    ensures var t := requests[r].stage.ticket;
            && GivesBack(s, Release(t))
            && Linked(Next(cfg, s, Release(t)), requests[r := requests[r].(stage := Settled(t, recorded))])
  {
    hide Linked, Inv, Next, Prepared;
    var t := requests[r].stage.ticket;
    RunningHolds(cfg, s, requests, r);
    ReleaseEnds(cfg, s, t);
    NextOthers(cfg, s, Release(t));
    LinkedMove(s, requests, Next(cfg, s, Release(t)), r, Settled(t, recorded), t);
  }

  /** A running request has a worker to give back. */
  lemma RunningHolds(cfg: Config, s: State, requests: seq<Request>, r: nat)
    requires Inv(cfg, s) && Linked(s, requests) && r < |requests| && requests[r].stage.Running?
    ensures GivesBack(s, Release(requests[r].stage.ticket))
  {
    hide Inv;
    assert Matched(s, requests[r]);
    InvCoherent(cfg, s, requests[r].stage.ticket);
  }

  lemma ReleaseEnds(cfg: Config, s: State, t: nat)
    requires GivesBack(s, Release(t))
    ensures WasServed(Prepared(cfg, s, Release(t)), t)
  {
    hide Without;
  }

  lemma DrainLinks(cfg: Config, s: State, requests: seq<Request>)
    requires Linked(s, requests)
    ensures Linked(Next(cfg, s, DrainStart), requests)
  {
    hide Linked;
    LinkedIdle(s, requests, Next(cfg, s, DrainStart), requests);
  }

  lemma HappenLinks(cfg: Config, g: World, e: Event)
    requires Inv(cfg, g.sched) && Linked(g.sched, g.requests)
    ensures var g' := Happen(cfg, g, e); Inv(cfg, g'.sched) && Linked(g'.sched, g'.requests)
  {
    hide Inv, Linked, Next, Exhausted;
    var g' := Happen(cfg, g, e);
    match e
    case Arrive(_, _, _, _) => LinkedIdle(g.sched, g.requests, g'.sched, g'.requests);
    case BodyTooLarge(r) => LinkedIdle(g.sched, g.requests, g'.sched, g'.requests);
    case Acquire(r) =>
      if r < |g.requests| && g.requests[r].stage.Reading? {
        if Refuses(cfg, g.sched) {
          LinkedIdle(g.sched, g.requests, g'.sched, g'.requests);
        } else {
          NextKeeps(cfg, g.sched, Enqueue(JobOf(g.requests[r])));
          AcquireLinks(cfg, g.sched, g.requests, r);
        }
      }
    case TimeOut(r) =>
      if InStage(g, r, true) {
        NextKeeps(cfg, g.sched, Fire(g.requests[r].stage.ticket));
        TimeOutLinks(cfg, g.sched, g.requests, r);
      }
    case Wake(r) =>
      if InStage(g, r, true) && Wakeable(g.sched, g.requests[r].stage.ticket) {
        NextKeeps(cfg, g.sched, Resume(g.requests[r].stage.ticket));
        WakeLinks(cfg, g.sched, g.requests, r);
      }
    case Finish(r, _, _) =>
      if InStage(g, r, false) {
        NextKeeps(cfg, g.sched, Release(g.requests[r].stage.ticket));
        FinishLinks(cfg, g.sched, g.requests, r, g'.requests[r].stage.recorded);
      }
    case Drain =>
      NextKeeps(cfg, g.sched, DrainStart);
      DrainLinks(cfg, g.sched, g.requests);
  }

  /** Only a settlement writes a row, and it is the settled request's own. */
  lemma HappenCounts(cfg: Config, g: World, e: Event, c: string)
    ensures var g' := Happen(cfg, g, e);
            RunCount(g'.tables.runs, c) - RunCount(g.tables.runs, c)
            == Count(g'.requests, Written(c)) - Count(g.requests, Written(c))
  {
    hide Next, Exhausted, Refuses, Wakeable, Holds, RunCount, Count, Upserted;
    var g', m := Happen(cfg, g, e), Written(c);
    match e
    case Arrive(client, plan, period, path) =>
      CountAppend(g.requests, Request(client, plan, period, path, Reading), m);
    case Drain =>
    case Finish(r, run, _) =>
      if InStage(g, r, false) {
        CountUpdate(g.requests, r, g'.requests[r], m);
        RunAppend(g.tables.runs, RowFor(g.requests[r], run), c);
      }
    case _ =>
      if e.r < |g.requests| {
        CountUpdate(g.requests, e.r, g'.requests[e.r], m);
        assert g'.requests == g.requests[e.r := g'.requests[e.r]];
      }
  }

  lemma RunAppend(runs: seq<RunRow>, run: RunRow, c: string)
    ensures RunCount(runs + [run], c) == RunCount(runs, c) + (if run.client == c then 1 else 0)
  {
    assert (runs + [run])[..|runs|] == runs;
  }

  lemma HappenRows(cfg: Config, g: World, e: Event)
    requires RowsCounted(g)
    ensures RowsCounted(Happen(cfg, g, e))
  {
    hide Happen, Count, RunCount;
    var g' := Happen(cfg, g, e);
    forall c
      ensures RunCount(g'.tables.runs, c) == Count(g'.requests, Written(c))
    {
      HappenCounts(cfg, g, e, c);
    }
  }

  lemma HappenBalances(cfg: Config, g: World, e: Event)
    requires UniqueKeys(g.tables.usage) && Balanced(g.tables.runs, g.tables.usage)
    ensures var t := Happen(cfg, g, e).tables; UniqueKeys(t.usage) && Balanced(t.runs, t.usage)
  {
    if e.Finish? && InStage(g, e.r, false) {
      var q := g.requests[e.r];
      var a := Attempt(RowFor(q, e.run), q.period, e.fault);
      hide Balanced, UniqueKeys, Next;
      RecordsConserve(g.tables, [a]);
      assert RecordAll(g.tables, [a]) == RecordAll(Recorded(g.tables, a), []);
    }
  }

  lemma HappenKeeps(cfg: Config, g: World, e: Event)
    requires WorldInv(cfg, g)
    ensures WorldInv(cfg, Happen(cfg, g, e))
  {
    hide Inv, Linked, RowsCounted, Balanced, UniqueKeys, Happen;
    HappenLinks(cfg, g, e);
    HappenRows(cfg, g, e);
    HappenBalances(cfg, g, e);
  }

  lemma {:induction false} RunWorldKeeps(cfg: Config, g: World, events: seq<Event>)
    requires WorldInv(cfg, g)
    ensures WorldInv(cfg, RunWorld(cfg, g, events))
    decreases |events|
  {
    hide WorldInv, Happen;
    if events != [] {
      HappenKeeps(cfg, g, events[0]);
      RunWorldKeeps(cfg, Happen(cfg, g, events[0]), events[1..]);
    }
  }

  lemma StartKeeps(cfg: Config)
    ensures WorldInv(cfg, Start(cfg))
  {
    InitKeeps(cfg);
  }

  // --- Settlement ------------------------------------------------------------------------------

  /** The tasks in this phase. */
  function InPhase(s: State, phase: Phase): set<nat> {
    set t | t in s.tasks && s.tasks[t].phase == phase
  }

  function Tickets(requests: seq<Request>, m: Mark): set<nat> {
    set r | 0 <= r < |requests| && Marked(requests[r], m) :: requests[r].stage.ticket
  }

  lemma {:induction false} TicketsCount(requests: seq<Request>, m: Mark)
    requires DistinctTasks(requests)
    ensures |Tickets(requests, m)| == Count(requests, m)
  {
    if requests == [] {
      assert Tickets(requests, m) == {};
    } else {
      var n := |requests| - 1;
      TicketsCount(requests[..n], m);
      TicketsLast(requests, m);
    }
  }

  lemma TicketsLast(requests: seq<Request>, m: Mark)
    requires requests != [] && DistinctTasks(requests)
    ensures var n := |requests| - 1;
            && DistinctTasks(requests[..n])
            && Tickets(requests, m)
               == Tickets(requests[..n], m) + (if Marked(requests[n], m) then {requests[n].stage.ticket} else {})
            && (Marked(requests[n], m) ==> requests[n].stage.ticket !in Tickets(requests[..n], m))
  {
    var n := |requests| - 1;
    var init := requests[..n];
    forall t
      ensures t in Tickets(requests, m)
              <==> t in Tickets(init, m) || (Marked(requests[n], m) && t == requests[n].stage.ticket)
    {
      if r :| 0 <= r < |requests| && Marked(requests[r], m) && requests[r].stage.ticket == t {
        assert r < n ==> init[r] == requests[r];
      }
      if r :| 0 <= r < |init| && Marked(init[r], m) && init[r].stage.ticket == t {
        assert requests[r] == init[r];
      }
    }
  }

  /** The tickets of running requests are the tasks holding a lease, those of settled
      requests the tasks that were served. */
  lemma TasksOf(s: State, requests: seq<Request>, m: Mark)
    requires Linked(s, requests) && !m.Written?
    ensures InPhase(s, if m.InFlight? then Holding else Ended(Served)) == Tickets(requests, m)
  {
    var tasks := InPhase(s, if m.InFlight? then Holding else Ended(Served));
    forall t
      ensures t in tasks <==> t in Tickets(requests, m)
    {
      if t in tasks {
        assert Lasting(s, t);
        var r :| 0 <= r < |requests| && HasTask(requests[r]) && requests[r].stage.ticket == t;
        assert Matched(s, requests[r]);
        assert Marked(requests[r], m);
      }
      if r :| 0 <= r < |requests| && Marked(requests[r], m) && requests[r].stage.ticket == t {
        assert Matched(s, requests[r]);
      }
    }
  }

  /** After any interleaving: the leases the scheduler has out are as many as the requests
      running, those given back after service as many as the requests settled, and for every
      client the calls in `usage`, the rows in `runs` and the settled requests whose write
      went through are equally many, with the same seconds in both tables. */
  lemma Settlement(cfg: Config, events: seq<Event>)
    ensures var g := RunWorld(cfg, Start(cfg), events);
            && |InPhase(g.sched, Holding)| == Count(g.requests, InFlight)
            && |InPhase(g.sched, Ended(Served))| == Count(g.requests, Done)
            && forall c ::
                 && UsageCalls(g.tables.usage, c) == RunCount(g.tables.runs, c) == Count(g.requests, Written(c))
                 && UsageSeconds(g.tables.usage, c) == RunSeconds(g.tables.runs, c)
  {
    hide Happen, Inv, Linked, InPhase, Tickets;
    var g := RunWorld(cfg, Start(cfg), events);
    StartKeeps(cfg);
    RunWorldKeeps(cfg, Start(cfg), events);
    TasksOf(g.sched, g.requests, InFlight);
    TasksOf(g.sched, g.requests, Done);
    LinkedDistinct(g.sched, g.requests);
    TicketsCount(g.requests, InFlight);
    TicketsCount(g.requests, Done);
  }

  lemma LinkedDistinct(s: State, requests: seq<Request>)
    requires Linked(s, requests)
    ensures DistinctTasks(requests)
  {
  }

  /** Settling a running request releases its lease effectively and tries one ledger write;
      settling it again does nothing. */
  lemma SettledOnce(cfg: Config, g: World, r: nat, run: RunRow, fault: Fault, run2: RunRow, fault2: Fault)
    requires WorldInv(cfg, g) && InStage(g, r, false)
    ensures var q, t, g' := g.requests[r], g.requests[r].stage.ticket, Happen(cfg, g, Finish(r, run, fault));
            && GivesBack(g.sched, Release(t))
            && g'.sched == Next(cfg, g.sched, Release(t)) && WasServed(g'.sched, t)
            && (fault != NoFault ==> g'.tables == g.tables)
            && (fault == NoFault ==>
                  && g'.tables.runs == g.tables.runs + [RunRow(q.client, q.plan.id, q.path, run.seconds, run.status,
                                                               run.worker, run.requestId, run.queueSeconds)]
                  && Used(g'.tables.usage, q.client, q.period)
                     == Used(g.tables.usage, q.client, q.period) + run.seconds)
            && Happen(cfg, g', Finish(r, run2, fault2)) == g'
  {
    hide Next, Prepared, Inv, Linked, RowsCounted, Balanced, UniqueKeys;
    var t := g.requests[r].stage.ticket;
    RunningHolds(cfg, g.sched, g.requests, r);
    ReleaseEnds(cfg, g.sched, t);
    NextOthers(cfg, g.sched, Release(t));
    var q := g.requests[r];
    RecordMoves(g.tables, Attempt(RowFor(q, run), q.period, fault), q.client, q.period);
  }

  /** Every worker out is held for a request that is waiting or running. */
  lemma HeldForRequest(cfg: Config, g: World, i: nat)
    requires WorldInv(cfg, g) && i < |g.sched.held|
    ensures exists r :: 0 <= r < |g.requests| && InProgress(g.requests[r])
  {
    hide RowsCounted, Balanced, UniqueKeys;
    var t := g.sched.held[i].ticket;
    assert g.sched.held[i] in g.sched.held;
    assert Owns(g.sched.tasks[t]);
    assert Lasting(g.sched, t);
    var r :| 0 <= r < |g.requests| && HasTask(g.requests[r]) && g.requests[r].stage.ticket == t;
    assert Matched(g.sched, g.requests[r]);
  }

  /** No worker leaks: once no request is waiting or running, whatever timeouts,
      cancellations, failed ledger writes and drains came in between, all workers are free. */
  lemma NoLeak(cfg: Config, events: seq<Event>)
    requires var g := RunWorld(cfg, Start(cfg), events);
             forall r :: 0 <= r < |g.requests| ==> !InProgress(g.requests[r])
    ensures multiset(RunWorld(cfg, Start(cfg), events).sched.free) == multiset(cfg.workers)
  {
    hide Happen, Linked, RowsCounted, Balanced, UniqueKeys;
    var g := RunWorld(cfg, Start(cfg), events);
    StartKeeps(cfg);
    RunWorldKeeps(cfg, Start(cfg), events);
    if g.sched.held != [] {
      HeldForRequest(cfg, g, 0);
    }
  }

  // --- What the events decide --------------------------------------------------------------------

  /** A request is admitted exactly if its plan is unmetered or the recorded usage of its client
      and period is below the budget; one that is not leaves no trace. */
  lemma AdmittedExactly(cfg: Config, g: World, client: string, plan: Plan, period: string, path: string)
    ensures var g' := Happen(cfg, g, Arrive(client, plan, period, path));
            if plan.budget.Unmetered? || Used(g.tables.usage, client, period) < plan.budget.limit then
              g' == g.(requests := g.requests + [Request(client, plan, period, path, Reading)])
            else g' == g
  {
    hide Used;
  }

  /** The job a scheduler takes on is the one it was given. */
  lemma EnqueueJob(cfg: Config, s: State, job: Job)
    requires !Refuses(cfg, s)
    ensures var s', t := Next(cfg, s, Enqueue(job)), s.nextTicket;
            t in s'.tasks && s'.tasks[t].job == job
  {
    hide Insert, Scan;
    ScanOnlyGrants(cfg, Push(s, job), 0);
  }

  /** A request whose body was read is turned away exactly if the scheduler drains or its queue
      is full; otherwise it waits, with its own client and the limits of its plan. */
  lemma AcquireDecides(cfg: Config, g: World, r: nat)
    requires r < |g.requests| && g.requests[r].stage.Reading?
    ensures var g', q, t := Happen(cfg, g, Acquire(r)), g.requests[r], g.sched.nextTicket;
            if g.sched.draining || |g.sched.queue| >= cfg.maxQueue then
              g' == g.(requests := g.requests[r := q.(stage := Closed(Busy))])
            else
              && g'.tables == g.tables && g'.requests == g.requests[r := q.(stage := Waiting(t))]
              && CarriedBy(g'.sched, t, q)
    ensures Happen(cfg, g, BodyTooLarge(r))
         == g.(requests := g.requests[r := g.requests[r].(stage := Closed(TooLarge))])
  {
    hide Next;
    if !Refuses(cfg, g.sched) {
      EnqueueJob(cfg, g.sched, JobOf(g.requests[r]));
    }
  }

  /** The task is for this request: its client, and the plan's id, priority, pool and
      concurrency. */
  predicate CarriedBy(s: State, t: nat, q: Request) {
    && t in s.tasks
    && s.tasks[t].job.client == q.client && s.tasks[t].job.planId == q.plan.id
    && s.tasks[t].job.priority == q.plan.priority && s.tasks[t].job.pool == q.plan.pool
    && s.tasks[t].job.concurrency == q.plan.concurrency
  }

  ghost predicate Carried(g: World) {
    forall r :: 0 <= r < |g.requests| && HasTask(g.requests[r]) ==>
      CarriedBy(g.sched, g.requests[r].stage.ticket, g.requests[r])
  }

  lemma HappenCarries(cfg: Config, g: World, e: Event)
    requires WorldInv(cfg, g) && Carried(g)
    ensures Carried(Happen(cfg, g, e))
  {
    hide Inv, Linked, RowsCounted, Balanced, UniqueKeys, Next, Wakeable, Holds, Recorded, Exhausted;
    var s := g.sched;
    match e
    case Acquire(r) =>
      if r < |g.requests| && g.requests[r].stage.Reading? && !Refuses(cfg, s) {
        NextSettled(cfg, s, Enqueue(JobOf(g.requests[r])));
        EnqueueJob(cfg, s, JobOf(g.requests[r]));
      }
    case TimeOut(r) => if InStage(g, r, true) { NextSettled(cfg, s, Fire(g.requests[r].stage.ticket)); }
    case Wake(r) => if InStage(g, r, true) { NextSettled(cfg, s, Resume(g.requests[r].stage.ticket)); }
    case Finish(r, _, _) => if InStage(g, r, false) { NextSettled(cfg, s, Release(g.requests[r].stage.ticket)); }
    case Drain => NextSettled(cfg, s, DrainStart);
    case _ =>
  }

  lemma {:induction false} RunCarries(cfg: Config, g: World, events: seq<Event>)
    requires WorldInv(cfg, g) && Carried(g)
    ensures Carried(RunWorld(cfg, g, events))
    decreases |events|
  {
    hide WorldInv, Happen, Carried;
    if events != [] {
      HappenKeeps(cfg, g, events[0]);
      HappenCarries(cfg, g, events[0]);
      RunCarries(cfg, Happen(cfg, g, events[0]), events[1..]);
    }
  }

  /** Over all interleavings, the task of every request is queued and counted under that
      request's own client, with the id, priority, pool and concurrency of its plan. */
  lemma TasksCarryPlans(cfg: Config, events: seq<Event>)
    ensures var g := RunWorld(cfg, Start(cfg), events);
            forall r :: 0 <= r < |g.requests| && HasTask(g.requests[r]) ==>
              var q, t := g.requests[r], g.requests[r].stage.ticket;
              && t in g.sched.tasks
              && g.sched.tasks[t].job == Job(q.client, q.plan.id, q.plan.priority, q.plan.pool, q.plan.concurrency)
  {
    hide Happen;
    StartKeeps(cfg);
    RunCarries(cfg, Start(cfg), events);
  }

  /** A waiting request that wakes runs exactly if it was granted a worker and has neither timed
      out nor been cancelled; otherwise it is turned away. */
  lemma WakeDecides(cfg: Config, g: World, r: nat)
    requires r < |g.requests| && g.requests[r].stage.Waiting? && Wakeable(g.sched, g.requests[r].stage.ticket)
    ensures var g', t := Happen(cfg, g, Wake(r)), g.requests[r].stage.ticket;
            && r < |g'.requests|
            && g'.requests[r].stage
               == if g.sched.tasks[t].future.Granted? && !g.sched.tasks[t].phase.givingUp then Running(t)
                  else Closed(Busy)
  {
    hide Next, Wakeable;
    ResumePhase(cfg, g.sched, g.requests[r].stage.ticket) by { WakeableTask(g.sched, g.requests[r].stage.ticket); }
    WakeableTask(g.sched, g.requests[r].stage.ticket);
  }

  lemma WakeableTask(s: State, t: nat)
    requires Wakeable(s, t)
    ensures t in s.tasks && s.tasks[t].phase.Suspended?
  {
  }

  /** A waiting request that times out is turned away when it wakes, granted meanwhile or not. */
  lemma TimedOutIsBusy(cfg: Config, g: World, r: nat)
    requires WorldInv(cfg, g) && r < |g.requests| && g.requests[r].stage.Waiting?
    ensures var g' := Happen(cfg, Happen(cfg, g, TimeOut(r)), Wake(r));
            r < |g'.requests| && g'.requests[r].stage == Closed(Busy)
  {
    hide Inv, RowsCounted, Balanced, UniqueKeys;
    assert Matched(g.sched, g.requests[r]);
    var g1 := Happen(cfg, g, TimeOut(r));
    assert Wakeable(g1.sched, g.requests[r].stage.ticket);
    WakeDecides(cfg, g1, r);
  }

  lemma DrainTasks(cfg: Config, s: State, t: nat)
    requires Inv(cfg, s) && Waits(s.tasks, t)
    ensures var s' := Next(cfg, s, DrainStart);
            s'.draining && Wakeable(s', t) && s'.tasks[t].future == Failed
  {
    hide FailQueued;
    FailQueuedPending(s);
    assert Coherent(s.tasks[t]);
  }

  /** From the start of a drain on, a request that reads its body is turned away, and so is one
      that was waiting without a worker as soon as it wakes. */
  lemma DrainTurnsAway(cfg: Config, g: World, r: nat)
    requires WorldInv(cfg, g) && r < |g.requests|
    ensures var g1 := Happen(cfg, g, Drain);
            && (g.requests[r].stage.Reading? ==> Happen(cfg, g1, Acquire(r)).requests[r].stage == Closed(Busy))
            && (g.requests[r].stage.Waiting? && g.sched.tasks[g.requests[r].stage.ticket].future.Pending? ==>
                  Happen(cfg, g1, Wake(r)).requests[r].stage == Closed(Busy))
  {
    hide Inv, RowsCounted, Balanced, UniqueKeys, Next, Wakeable;
    assert Matched(g.sched, g.requests[r]);
    var g1 := Happen(cfg, g, Drain);
    DrainStarts(cfg, g.sched);
    if g.requests[r].stage.Reading? {
      AcquireDecides(cfg, g1, r);
    } else if g.requests[r].stage.Waiting? && g.sched.tasks[g.requests[r].stage.ticket].future.Pending? {
      DrainTasks(cfg, g.sched, g.requests[r].stage.ticket);
      WakeDecides(cfg, g1, r);
    }
  }

  lemma DrainStarts(cfg: Config, s: State)
    ensures Next(cfg, s, DrainStart).draining
  {
    hide FailQueued;
  }
}
