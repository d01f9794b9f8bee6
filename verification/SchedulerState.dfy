/** The scheduler as a state machine: asyncio runs one task at a time, so one step
    is the code between two awaits. */
module SchedulerState {
  import opened Jobs

  datatype Config = Config(workers: seq<string>, caps: map<string, int>, maxQueue: int)

  /** `queue` is the waiting list in (priority, ticket) order, abandoned entries
      included; the heap the program keeps is some permutation of it.
      `held` and `log` are history: the outstanding grants and all grants ever
      made, both in the order they were made. */
  datatype State = State(
    free: seq<string>,
    queue: seq<Waiter>,
    pools: Counter,
    clients: Counter,
    tasks: map<nat, Task>,
    nextTicket: nat,
    draining: bool,
    held: seq<Grant>,
    log: seq<Grant>)

  datatype Step =
    | Enqueue(job: Job)
    | Fire(ticket: nat)
    | Resume(ticket: nat)
    | Release(ticket: nat)
    | DrainStart

  function Init(cfg: Config): State {
    State(cfg.workers, [], map[], map[], map[], 0, false, [], [])
  }

  /** The pool is below its cap, if it has one, and the client below its limit. */
  predicate Room(caps: map<string, int>, pools: Counter, clients: Counter, job: Job) {
    !(job.pool in caps && Get(pools, job.pool) >= caps[job.pool])
    && Get(clients, job.client) < job.concurrency
  }

  predicate Eligible(cfg: Config, s: State, job: Job) {
    Room(cfg.caps, s.pools, s.clients, job)
  }

  /** The task still waits on its future; a waiter is live while its task does. */
  predicate Waits(tasks: map<nat, Task>, t: nat) {
    t in tasks && tasks[t].future.Pending?
  }

  /** Take waiter `i` off the queue and give it the first free worker. */
  function GrantAt(s: State, i: nat): State
    requires i < |s.queue| && s.free != [] && s.queue[i].ticket in s.tasks
  {
    var w := s.queue[i];
    var g := Grant(w.ticket, s.free[0], w.job);
    s.(free := s.free[1..],
       queue := RemoveAt(s.queue, i),
       pools := Bump(s.pools, w.job.pool, 1),
       clients := Bump(s.clients, w.job.client, 1),
       tasks := s.tasks[w.ticket := s.tasks[w.ticket].(future := Granted(s.free[0]))],
       held := s.held + [g],
       log := s.log + [g])
  }

  function DropAt(s: State, i: nat): State
    requires i < |s.queue|
  {
    s.(queue := RemoveAt(s.queue, i))
  }

  /** The dispatch pass over the queue from position `i`: abandoned entries are
      dropped, blocked ones stay, and it stops when the workers run out. */
  function Scan(cfg: Config, s: State, i: nat): State
    requires i <= |s.queue|
    decreases |s.queue| - i
  {
    if i == |s.queue| || s.free == [] then s
    else if !Waits(s.tasks, s.queue[i].ticket) then Scan(cfg, DropAt(s, i), i)
    else if !Eligible(cfg, s, s.queue[i].job) then Scan(cfg, s, i + 1)
    else Scan(cfg, GrantAt(s, i), i)
  }

  function Dispatch(cfg: Config, s: State): State {
    Scan(cfg, s, 0)
  }

  /** Where a new waiter belongs. */
  function Slot(q: seq<Waiter>, w: Waiter): (k: nat)
    ensures k <= |q|
  {
    if q == [] || Before(w, q[0]) then 0 else 1 + Slot(q[1..], w)
  }

  function Insert(q: seq<Waiter>, w: Waiter): seq<Waiter> {
    var k := Slot(q, w);
    q[..k] + [w] + q[k..]
  }

  function NewWaiter(s: State, job: Job): Waiter {
    Waiter(job.priority, s.nextTicket, job)
  }

  function Push(s: State, job: Job): State {
    s.(queue := Insert(s.queue, NewWaiter(s, job)),
       tasks := s.tasks[s.nextTicket := Task(job, Pending, Suspended(false))],
       nextTicket := s.nextTicket + 1)
  }

  predicate Refuses(cfg: Config, s: State) {
    s.draining || |s.queue| >= cfg.maxQueue
  }

  /** A timeout or cancellation reaches a suspended task: a pending future is
      cancelled, a finished one keeps its result. */
  function Fired(task: Task): Task {
    Task(task.job, if task.future.Pending? then Cancelled else task.future, Suspended(true))
  }

  predicate Asleep(s: State, t: nat) {
    t in s.tasks && s.tasks[t].phase.Suspended?
  }

  /** The event loop may wake this task. */
  predicate Wakeable(s: State, t: nat) {
    Asleep(s, t) && !s.tasks[t].future.Pending?
  }

  predicate Holds(s: State, t: nat) {
    t in s.tasks && s.tasks[t].phase.Holding?
  }

  function SetPhase(s: State, t: nat, phase: Phase): State
    requires t in s.tasks
  {
    s.(tasks := s.tasks[t := s.tasks[t].(phase := phase)])
  }

  /** Remove the first entry with this ticket, if any. */
  function Forget(q: seq<Waiter>, t: nat): seq<Waiter> {
    if q == [] then []
    else if q[0].ticket == t then q[1..]
    else [q[0]] + Forget(q[1..], t)
  }

  /** The worker of task `t` goes to the back of the free list and the task ends. */
  function HandBack(s: State, t: nat, outcome: Outcome): State
    requires t in s.tasks && s.tasks[t].future.Granted?
  {
    var task := s.tasks[t];
    SetPhase(s, t, Ended(outcome)).(
      free := s.free + [task.future.worker],
      pools := Bump(s.pools, task.job.pool, -1),
      clients := Bump(s.clients, task.job.client, -1),
      held := Without(s.held, t))
  }

  function GiveUp(cfg: Config, s: State, t: nat): State
    requires Wakeable(s, t)
  {
    var s1 := s.(queue := Forget(s.queue, t));
    match s.tasks[t].future
    case Granted(_) => Dispatch(cfg, HandBack(s1, t, TimedOut))
    case Failed => SetPhase(s1, t, Ended(Drained))
    case _ => SetPhase(s1, t, Ended(TimedOut))
  }

  function Wake(cfg: Config, s: State, t: nat): State
    requires Wakeable(s, t)
  {
    if s.tasks[t].phase.givingUp then GiveUp(cfg, s, t)
    else if s.tasks[t].future.Granted? then SetPhase(s, t, Holding)
    else SetPhase(s, t, Ended(Drained))
  }

  predicate HasTicket(q: seq<Waiter>, t: nat) {
    exists i :: 0 <= i < |q| && q[i].ticket == t
  }

  /** Every pending future on the queue gets the `Draining` exception. */
  function FailQueued(tasks: map<nat, Task>, q: seq<Waiter>): map<nat, Task> {
    map t | t in tasks ::
      if tasks[t].future.Pending? && HasTicket(q, t) then tasks[t].(future := Failed) else tasks[t]
  }

  /** One step; a step that is not enabled leaves the state as it is. */
  function Next(cfg: Config, s: State, step: Step): State {
    match step
    case Enqueue(job) => if Refuses(cfg, s) then s else Dispatch(cfg, Push(s, job))
    case Fire(t) => if Asleep(s, t) then s.(tasks := s.tasks[t := Fired(s.tasks[t])]) else s
    case Resume(t) => if Wakeable(s, t) then Wake(cfg, s, t) else s
    case Release(t) =>
      if Holds(s, t) && s.tasks[t].future.Granted? then Dispatch(cfg, HandBack(s, t, Served)) else s
    case DrainStart => s.(draining := true, queue := [], tasks := FailQueued(s.tasks, s.queue))
  }

  function Run(cfg: Config, s: State, steps: seq<Step>): State
    decreases |steps|
  {
    if steps == [] then s else Run(cfg, Next(cfg, s, steps[0]), steps[1..])
  }

  /** `drain` and `inflight`: how many workers are not on the free list. */
  function Inflight(cfg: Config, s: State): int {
    |cfg.workers| - |s.free|
  }

  // --- Invariants ----------------------------------------------------------------

  /** Every worker is free or held by exactly one outstanding grant. */
  ghost predicate Conserved(cfg: Config, free: seq<string>, held: seq<Grant>) {
    multiset(free) + Workers(held) == multiset(cfg.workers)
  }

  /** The two counters count the outstanding grants. */
  ghost predicate Counted(pools: Counter, clients: Counter, held: seq<Grant>) {
    && (forall p :: Get(pools, p) == Tally(held, OfPool(p)))
    && (forall c :: Get(clients, c) == Tally(held, OfClient(c)))
  }

  /** Each grant, when only the grants before it are counted, is within the
      concurrency of its own job. */
  ghost predicate Ranked(h: seq<Grant>) {
    h == []
    || (var last := h[|h| - 1];
        Ranked(h[..|h| - 1]) && Tally(h, OfClient(last.job.client)) <= last.job.concurrency)
  }

  function AtLeastZero(n: int): nat {
    if n < 0 then 0 else n
  }

  ghost predicate Capped(cfg: Config, pools: Counter) {
    forall p :: p in cfg.caps ==> Get(pools, p) <= AtLeastZero(cfg.caps[p])
  }

  /** A granted future not yet collected, or an unreleased lease. */
  predicate Owns(task: Task) {
    task.future.Granted? && (task.phase.Suspended? || task.phase.Holding?)
  }

  function GrantOf(tasks: map<nat, Task>, t: nat): Grant
    requires t in tasks && tasks[t].future.Granted?
  {
    Grant(t, tasks[t].future.worker, tasks[t].job)
  }

  /** `held` lists exactly the grants that tasks own. */
  ghost predicate Owned(held: seq<Grant>, tasks: map<nat, Task>) {
    && DistinctGrants(held)
    && (forall g :: g in held ==>
          g.ticket in tasks && Owns(tasks[g.ticket]) && g == GrantOf(tasks, g.ticket))
    && (forall t :: t in tasks && Owns(tasks[t]) ==> GrantOf(tasks, t) in held)
  }

  /** `log` lists exactly the granted futures. */
  ghost predicate Logged(log: seq<Grant>, tasks: map<nat, Task>) {
    && DistinctGrants(log)
    && (forall g :: g in log ==>
          g.ticket in tasks && tasks[g.ticket].future.Granted? && g == GrantOf(tasks, g.ticket))
    && (forall t :: t in tasks && tasks[t].future.Granted? ==> GrantOf(tasks, t) in log)
  }

  function WaiterOf(tasks: map<nat, Task>, t: nat): Waiter
    requires t in tasks
  {
    Waiter(tasks[t].job.priority, t, tasks[t].job)
  }

  /** The queue is strictly ordered, holds every pending task, and otherwise only
      cancelled ones that have not resumed. */
  ghost predicate Queued(queue: seq<Waiter>, tasks: map<nat, Task>) {
    && Ordered(queue)
    && (forall w :: w in queue ==>
          && w.ticket in tasks && w == WaiterOf(tasks, w.ticket) && tasks[w.ticket].phase.Suspended?
          && (tasks[w.ticket].future.Pending? || tasks[w.ticket].future.Cancelled?))
    && (forall t :: t in tasks && tasks[t].future.Pending? ==> WaiterOf(tasks, t) in queue)
  }

  /** Which phases go with which state of the future. */
  predicate Coherent(task: Task) {
    match task.future
    case Pending => task.phase == Suspended(false)
    case Cancelled => task.phase == Suspended(true) || task.phase == Ended(TimedOut)
    case Failed => task.phase.Suspended? || task.phase == Ended(Drained)
    case Granted(_) => task.phase != Ended(Drained)
  }

  ghost predicate Tracked(tasks: map<nat, Task>, nextTicket: nat) {
    && (forall t :: t in tasks <==> 0 <= t < nextTicket)
    && (forall t :: t in tasks ==> Coherent(tasks[t]))
  }

  /** What holds at every point, in the middle of a dispatch too. */
  ghost predicate Consistent(cfg: Config, s: State) {
    && Conserved(cfg, s.free, s.held) && Counted(s.pools, s.clients, s.held)
    && Ranked(s.held) && Capped(cfg, s.pools)
    && Owned(s.held, s.tasks) && Logged(s.log, s.tasks)
    && Queued(s.queue, s.tasks) && Tracked(s.tasks, s.nextTicket)
  }

  ghost predicate Bounded(cfg: Config, s: State) {
    && |s.queue| <= AtLeastZero(cfg.maxQueue)
    && (s.draining ==> s.queue == [])
  }

  /** Work conservation: no worker is free, or every live waiter is blocked. */
  ghost predicate Busy(cfg: Config, s: State) {
    s.free == [] || forall w :: w in s.queue && Waits(s.tasks, w.ticket) ==> !Eligible(cfg, s, w.job)
  }

  ghost predicate Inv(cfg: Config, s: State) {
    Consistent(cfg, s) && Bounded(cfg, s) && Busy(cfg, s)
  }
}
