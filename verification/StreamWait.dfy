/** The waiting phase of a streamed call. Its `acquire` runs as a task of its own, while
    the generator polls it and sends comment lines; the browser can leave at any point. */
module StreamWait {
  import opened Jobs
  import opened SchedulerState
  import opened SchedulerInvariant
  import opened SchedulerFairness
  import Gateway
  import SchedulerGuarantees

  /** How the browser left: while `acquire` was being awaited, which cancels it; after it
      had finished, when cancelling does nothing; or while a line was being sent, when the
      generator is closed without a `CancelledError` and `acquire` is not even cancelled.
      `CloseFailed`: the run was over, but closing the worker's response raised or was
      cancelled, and the release comes after it. */
  datatype Exit = Cancelling | TooLate | Unnoticed | CloseFailed

  /** Where the generator is. */
  datatype Stage = InWait | AtYield | Streaming | Over | Left(exit: Exit)

  /** The `acquire` of stream `t` is task `t` of the scheduler. */
  datatype World = World(sched: State, streams: seq<Stage>)

  datatype Event =
    | Open(job: Job)
    | TimeOut(t: nat)
    | Wake(t: nat)
    | Line(t: nat)
    | Sent(t: nat)
    | Proceed(t: nat)
    | Leave(t: nat)
    | Finish(t: nat)
    | CloseFails(t: nat)
    | Drain

  function Start(cfg: Config): World {
    World(Init(cfg), [])
  }

  predicate At(w: World, t: nat, stage: Stage) {
    t < |w.streams| && w.streams[t] == stage
  }

  function Happen(cfg: Config, w: World, e: Event): World {
    match e
    case Open(job) =>
      if Refuses(cfg, w.sched) then w else World(Next(cfg, w.sched, Enqueue(job)), w.streams + [InWait])
    case TimeOut(t) => w.(sched := Next(cfg, w.sched, Fire(t)))
    case Wake(t) => w.(sched := Next(cfg, w.sched, Resume(t)))
    case Line(t) => if At(w, t, InWait) && Asleep(w.sched, t) then w.(streams := w.streams[t := AtYield]) else w
    case Sent(t) => if At(w, t, AtYield) then w.(streams := w.streams[t := InWait]) else w
    case Proceed(t) =>
      if At(w, t, InWait) && !Asleep(w.sched, t) then
        w.(streams := w.streams[t := if Holds(w.sched, t) then Streaming else Over])
      else w
    case Leave(t) =>
      if At(w, t, InWait) && Asleep(w.sched, t) then
        World(Next(cfg, w.sched, Fire(t)), w.streams[t := Left(Cancelling)])
      else if At(w, t, InWait) then w.(streams := w.streams[t := Left(TooLate)])
      else if At(w, t, AtYield) then w.(streams := w.streams[t := Left(Unnoticed)])
      else w
    case Finish(t) =>
      if At(w, t, Streaming) then World(Next(cfg, w.sched, Release(t)), w.streams[t := Over]) else w
    case CloseFails(t) => if At(w, t, Streaming) then w.(streams := w.streams[t := Left(CloseFailed)]) else w
    case Drain => w.(sched := Next(cfg, w.sched, DrainStart))
  }

  function RunWorld(cfg: Config, w: World, events: seq<Event>): World
    decreases |events|
  {
    if events == [] then w else RunWorld(cfg, Happen(cfg, w, events[0]), events[1..])
  }

  // --- Generator and task agree ------------------------------------------------------------

  /** Which phases of its `acquire` go with which point of the generator. */
  predicate Fits(stage: Stage, phase: Phase) {
    match stage
    case Streaming => phase.Holding?
    case Over => phase.Ended?
    case Left(Cancelling) => phase == Suspended(true) || phase.Ended?
    case Left(TooLate) => phase.Holding? || phase.Ended?
    case Left(CloseFailed) => phase.Holding?
    case _ => true
  }

  ghost predicate Paired(s: State, streams: seq<Stage>) {
    && s.nextTicket == |streams|
    && (forall t :: t in s.tasks <==> 0 <= t < |streams|)
    && (forall t :: t in s.tasks ==> Fits(streams[t], s.tasks[t].phase))
  }

  ghost predicate WorldInv(cfg: Config, w: World) {
    Inv(cfg, w.sched) && Paired(w.sched, w.streams)
  }

  // --- One step's effect on the phase of its task --------------------------------------------

  lemma ReleasePhase(cfg: Config, s: State, t: nat)
    requires Inv(cfg, s) && Holds(s, t)
    ensures var s' := Next(cfg, s, Release(t));
            Gateway.OthersKeepPhase(s, s', t) && t in s'.tasks && s'.tasks[t].phase == Ended(Served)
  {
    hide Inv, Next, Prepared;
    InvCoherent(cfg, s, t);
    Gateway.NextOthers(cfg, s, Release(t));
    Gateway.ReleaseEnds(cfg, s, t);
  }

  lemma OpenPhase(cfg: Config, s: State, job: Job)
    requires Inv(cfg, s) && !Refuses(cfg, s)
    ensures var s', t := Next(cfg, s, Enqueue(job)), s.nextTicket;
            Gateway.OthersKeepPhase(s, s', t) && t in s'.tasks
  {
    hide Inv, Next, Prepared;
    Gateway.NextOthers(cfg, s, Enqueue(job));
    PushAdds(cfg, s, job);
  }

  lemma PushAdds(cfg: Config, s: State, job: Job)
    requires !Refuses(cfg, s)
    ensures s.nextTicket in Prepared(cfg, s, Enqueue(job)).tasks
  {
    hide Insert;
  }

  lemma DrainPhase(cfg: Config, s: State)
    ensures var s' := Next(cfg, s, DrainStart);
            && s'.tasks.Keys == s.tasks.Keys && s'.nextTicket == s.nextTicket
            && forall t :: t in s.tasks ==> s'.tasks[t].phase == s.tasks[t].phase
  {
  }

  lemma InvTickets(cfg: Config, s: State)
    requires Inv(cfg, s)
    ensures forall t :: t in s.tasks <==> 0 <= t < s.nextTicket
  {
  }

  lemma PairedMove(cfg: Config, s: State, streams: seq<Stage>, s': State, t: nat, stage: Stage)
    requires Paired(s, streams) && Inv(cfg, s') && Gateway.OthersKeepPhase(s, s', t)
    requires t < |streams| && t in s'.tasks && Fits(stage, s'.tasks[t].phase)
    ensures Paired(s', streams[t := stage])
  {
    hide Inv, Fits;
    InvTickets(cfg, s');
    assert forall u :: u in s'.tasks <==> u in s.tasks;
    assert s'.nextTicket !in s.tasks && (s'.nextTicket > 0 ==> s'.nextTicket - 1 in s.tasks);
  }

  lemma PairedOpen(cfg: Config, s: State, streams: seq<Stage>, s': State)
    requires Paired(s, streams) && Inv(cfg, s') && Gateway.OthersKeepPhase(s, s', |streams|)
    requires |streams| in s'.tasks
    ensures Paired(s', streams + [InWait])
  {
    hide Inv;
    InvTickets(cfg, s');
    assert forall u :: u in s'.tasks <==> u in s.tasks || u == |streams|;
    assert s'.nextTicket !in s'.tasks && s'.nextTicket - 1 in s'.tasks;
  }

  lemma PairedFire(cfg: Config, s: State, streams: seq<Stage>, t: nat)
    requires Inv(cfg, s) && Paired(s, streams) && t in s.tasks
    ensures Paired(Next(cfg, s, Fire(t)), streams)
  {
    hide Inv, Next, Gateway.OthersKeepPhase;
    NextKeeps(cfg, s, Fire(t));
    Gateway.FirePhase(cfg, s, t);
    PairedMove(cfg, s, streams, Next(cfg, s, Fire(t)), t, streams[t]);
    assert streams[t := streams[t]] == streams;
  }

  lemma PairedWake(cfg: Config, s: State, streams: seq<Stage>, t: nat)
    requires Inv(cfg, s) && Paired(s, streams) && t in s.tasks
    ensures Paired(Next(cfg, s, Resume(t)), streams)
  {
    hide Inv, Next, Gateway.OthersKeepPhase, Wakeable;
    NextKeeps(cfg, s, Resume(t));
    Gateway.ResumePhase(cfg, s, t);
    AwakeNotWakeable(s, t);
    PairedMove(cfg, s, streams, Next(cfg, s, Resume(t)), t, streams[t]);
    assert streams[t := streams[t]] == streams;
  }

  lemma HappenKeeps(cfg: Config, w: World, e: Event)
    requires WorldInv(cfg, w)
    ensures WorldInv(cfg, Happen(cfg, w, e))
  {
    hide Inv, Next, Refuses, Gateway.OthersKeepPhase, Wakeable;
    var s, streams := w.sched, w.streams;
    match e
    case Open(job) =>
      if !Refuses(cfg, s) {
        NextKeeps(cfg, s, Enqueue(job));
        OpenPhase(cfg, s, job);
        PairedOpen(cfg, s, streams, Next(cfg, s, Enqueue(job)));
      }
    case TimeOut(t) =>
      NextKeeps(cfg, s, Fire(t));
      if t in s.tasks {
        PairedFire(cfg, s, streams, t);
      } else {
        Unknown(cfg, s, t);
      }
    case Wake(t) =>
      NextKeeps(cfg, s, Resume(t));
      if t in s.tasks {
        PairedWake(cfg, s, streams, t);
      } else {
        Unknown(cfg, s, t);
      }
    case Leave(t) =>
      if At(w, t, InWait) && Asleep(s, t) {
        NextKeeps(cfg, s, Fire(t));
        Gateway.FirePhase(cfg, s, t);
        PairedMove(cfg, s, streams, Next(cfg, s, Fire(t)), t, Left(Cancelling));
      }
    case Finish(t) =>
      if At(w, t, Streaming) {
        NextKeeps(cfg, s, Release(t));
        StreamingHolds(w, t);
        ReleasePhase(cfg, s, t);
        PairedMove(cfg, s, streams, Next(cfg, s, Release(t)), t, Over);
      }
    case Drain =>
      NextKeeps(cfg, s, DrainStart);
      DrainPhase(cfg, s);
    case _ =>
  }

  lemma Unknown(cfg: Config, s: State, t: nat)
    requires t !in s.tasks
    ensures Next(cfg, s, Fire(t)) == s && Next(cfg, s, Resume(t)) == s
  {
  }

  lemma {:induction false} RunWorldKeeps(cfg: Config, w: World, events: seq<Event>)
    requires WorldInv(cfg, w)
    ensures WorldInv(cfg, RunWorld(cfg, w, events))
    decreases |events|
  {
    hide WorldInv, Happen;
    if events != [] {
      HappenKeeps(cfg, w, events[0]);
      RunWorldKeeps(cfg, Happen(cfg, w, events[0]), events[1..]);
    }
  }

  lemma StartKeeps(cfg: Config)
    ensures WorldInv(cfg, Start(cfg))
  {
    InitKeeps(cfg);
  }

  // --- A stream from the queue to its end ------------------------------------------------------

  /** A line that is sent leaves everything as it was, unless the browser goes meanwhile. */
  lemma LineGoesOut(cfg: Config, w: World, t: nat)
    requires At(w, t, InWait) && Asleep(w.sched, t)
    ensures Happen(cfg, Happen(cfg, w, Line(t)), Sent(t)) == w
    ensures Happen(cfg, Happen(cfg, w, Line(t)), Leave(t)) == w.(streams := w.streams[t := Left(Unnoticed)])
  {
    hide Next;
    assert w.streams[t := AtYield][t := InWait] == w.streams;
    assert w.streams[t := AtYield][t := Left(Unnoticed)] == w.streams[t := Left(Unnoticed)];
  }

  /** Waking now, the task collects a lease: it was granted one and is not giving up. */
  predicate CollectsNow(s: State, t: nat) {
    Wakeable(s, t) && s.tasks[t].future.Granted? && !s.tasks[t].phase.givingUp
  }

  /** A waiting stream starts exactly if its `acquire` wakes with a worker and without having
      been timed out or cancelled; otherwise it is over. */
  lemma StreamDecides(cfg: Config, w: World, t: nat)
    requires At(w, t, InWait) && Wakeable(w.sched, t)
    ensures At(Happen(cfg, Happen(cfg, w, Wake(t)), Proceed(t)), t, if CollectsNow(w.sched, t) then Streaming else Over)
  {
    hide Next, Wakeable;
    Gateway.WakeableTask(w.sched, t);
    Gateway.ResumePhase(cfg, w.sched, t);
  }

  /** A stream still queued when it times out, or when a drain starts, ends without a worker. */
  lemma QueuedStreamEnds(cfg: Config, w: World, t: nat, e: Event)
    requires WorldInv(cfg, w) && At(w, t, InWait) && Waits(w.sched.tasks, t) && e in {TimeOut(t), Drain}
    ensures At(Happen(cfg, Happen(cfg, Happen(cfg, w, e), Wake(t)), Proceed(t)), t, Over)
  {
    hide Inv;
    var w1 := Happen(cfg, w, e);
    if e == Drain {
      Gateway.DrainTasks(cfg, w.sched, t);
      hide Next;
      StreamDecides(cfg, w1, t);
    } else {
      InvCoherent(cfg, w.sched, t);
      StreamDecides(cfg, w1, t);
    }
  }

  lemma StreamingHolds(w: World, t: nat)
    requires Paired(w.sched, w.streams) && At(w, t, Streaming)
    ensures Holds(w.sched, t)
  {
  }

  /** A stream that has run gives its worker back. */
  lemma StreamReleases(cfg: Config, w: World, t: nat)
    requires WorldInv(cfg, w) && At(w, t, Streaming)
    ensures var w' := Happen(cfg, w, Finish(t));
            && GivesBack(w.sched, Release(t)) && w'.sched == Next(cfg, w.sched, Release(t)) && At(w', t, Over)
            && !Holds(w'.sched, t)
  {
    hide Inv, Next;
    StreamingHolds(w, t);
    InvCoherent(cfg, w.sched, t);
    ReleasePhase(cfg, w.sched, t);
  }

  // --- Whose worker is lost -----------------------------------------------------------------

  /** The generator is gone, and the finished `acquire` holds a lease nobody will release. */
  predicate Stranded(w: World, t: nat) {
    t < |w.streams| && w.streams[t].Left? && Holds(w.sched, t)
  }

  /** The task is over or holds its lease. */
  predicate Awake(s: State, t: nat) {
    t in s.tasks && !s.tasks[t].phase.Suspended?
  }

  /** Once the generator is gone and `acquire` is done, nothing about either changes. */
  lemma LeftStays(cfg: Config, w: World, e: Event, t: nat)
    requires WorldInv(cfg, w) && t < |w.streams| && w.streams[t].Left?
    ensures var w' := Happen(cfg, w, e);
            && t < |w'.streams| && w'.streams[t] == w.streams[t]
            && (Awake(w.sched, t) ==> Awake(w'.sched, t) && w'.sched.tasks[t].phase == w.sched.tasks[t].phase)
  {
    hide Inv, Next, Refuses, Wakeable, Fits;
    var s := w.sched;
    match e
    case Open(job) =>
      if !Refuses(cfg, s) { OpenPhase(cfg, s, job); }
    case TimeOut(u) =>
      if u in s.tasks { Gateway.FirePhase(cfg, s, u); } else { Unknown(cfg, s, u); }
    case Wake(u) =>
      if u in s.tasks { Gateway.ResumePhase(cfg, s, u); } else { Unknown(cfg, s, u); }
      AwakeNotWakeable(s, u);
    case Leave(u) =>
      if At(w, u, InWait) && Asleep(s, u) { Gateway.FirePhase(cfg, s, u); }
    case Finish(u) =>
      if At(w, u, Streaming) {
        StreamingHolds(w, u);
        ReleasePhase(cfg, s, u);
      }
    case Drain => DrainPhase(cfg, s);
    case _ =>
  }

  lemma AwakeNotWakeable(s: State, t: nat)
    ensures Awake(s, t) ==> !Wakeable(s, t)
  {
  }

  lemma {:induction false} LeftForEver(cfg: Config, w: World, events: seq<Event>, t: nat)
    requires WorldInv(cfg, w) && t < |w.streams| && w.streams[t].Left?
    ensures var w' := RunWorld(cfg, w, events);
            && t < |w'.streams| && w'.streams[t] == w.streams[t]
            && (Awake(w.sched, t) ==> Awake(w'.sched, t) && w'.sched.tasks[t].phase == w.sched.tasks[t].phase)
    decreases |events|
  {
    hide WorldInv, Happen, Awake;
    if events != [] {
      LeftStays(cfg, w, events[0], t);
      HappenKeeps(cfg, w, events[0]);
      LeftForEver(cfg, Happen(cfg, w, events[0]), events[1..], t);
    }
  }

  /** A browser that leaves while `acquire` is awaited costs a worker, whatever happens
      later, exactly if `acquire` had already finished with a lease. */
  lemma LeavingTheWait(cfg: Config, w: World, t: nat, events: seq<Event>)
    requires WorldInv(cfg, w) && At(w, t, InWait)
    ensures Stranded(RunWorld(cfg, Happen(cfg, w, Leave(t)), events), t) <==> Holds(w.sched, t)
  {
    hide Inv, Next;
    var w1 := Happen(cfg, w, Leave(t));
    HappenKeeps(cfg, w, Leave(t));
    LeftForEver(cfg, w1, events, t);
    RunWorldKeeps(cfg, w1, events);
  }

  /** Some wake-up of the task in the run collects a lease. */
  predicate Collects(cfg: Config, w: World, events: seq<Event>, t: nat)
    decreases |events|
  {
    events != []
    && ((events[0] == Wake(t) && CollectsNow(w.sched, t)) || Collects(cfg, Happen(cfg, w, events[0]), events[1..], t))
  }

  lemma HoldsAfter(cfg: Config, w: World, e: Event, t: nat)
    requires WorldInv(cfg, w) && t < |w.streams| && w.streams[t].Left?
    ensures var w' := Happen(cfg, w, e);
            Holds(w'.sched, t) <==> Holds(w.sched, t) || (e == Wake(t) && CollectsNow(w.sched, t))
  {
    hide Inv, Next, Refuses, Fits;
    var s := w.sched;
    match e
    case Open(job) =>
      if !Refuses(cfg, s) { OpenPhase(cfg, s, job); }
    case TimeOut(u) =>
      if u in s.tasks { Gateway.FirePhase(cfg, s, u); } else { Unknown(cfg, s, u); }
    case Wake(u) =>
      if u in s.tasks { Gateway.ResumePhase(cfg, s, u); } else { Unknown(cfg, s, u); }
    case Leave(u) =>
      if At(w, u, InWait) && Asleep(s, u) { Gateway.FirePhase(cfg, s, u); }
    case Finish(u) =>
      if At(w, u, Streaming) {
        StreamingHolds(w, u);
        ReleasePhase(cfg, s, u);
      }
    case Drain => DrainPhase(cfg, s);
    case _ =>
  }

  /** Once the generator is gone, a run ends with the worker lost exactly if `acquire` held its
      lease already or collects one during the run. */
  lemma {:induction false} LeftStrands(cfg: Config, w: World, events: seq<Event>, t: nat)
    requires WorldInv(cfg, w) && t < |w.streams| && w.streams[t].Left?
    ensures Stranded(RunWorld(cfg, w, events), t) <==> Holds(w.sched, t) || Collects(cfg, w, events, t)
    decreases |events|
  {
    hide WorldInv, Happen, Holds, CollectsNow;
    if events != [] {
      var w1 := Happen(cfg, w, events[0]);
      HoldsAfter(cfg, w, events[0], t);
      LeftStays(cfg, w, events[0], t);
      HappenKeeps(cfg, w, events[0]);
      LeftStrands(cfg, w1, events[1..], t);
    }
  }

  /** A browser that leaves while a line is sent stops nothing: its worker is lost exactly if
      `acquire` holds a lease by then or still collects one. */
  lemma LeavingAtYield(cfg: Config, w: World, t: nat, events: seq<Event>)
    requires WorldInv(cfg, w) && At(w, t, AtYield)
    ensures var w1 := Happen(cfg, w, Leave(t));
            && w1.sched == w.sched
            && (Stranded(RunWorld(cfg, w1, events), t) <==> Holds(w.sched, t) || Collects(cfg, w1, events, t))
  {
    hide Inv;
    HappenKeeps(cfg, w, Leave(t));
    LeftStrands(cfg, Happen(cfg, w, Leave(t)), events, t);
  }

  /** A run whose response cannot be closed costs its worker for good. */
  lemma FailedCloseStrands(cfg: Config, w: World, t: nat, events: seq<Event>)
    requires WorldInv(cfg, w) && At(w, t, Streaming)
    ensures Stranded(RunWorld(cfg, Happen(cfg, w, CloseFails(t)), events), t)
  {
    hide Inv;
    HappenKeeps(cfg, w, CloseFails(t));
    StreamingHolds(w, t);
    LeftStrands(cfg, Happen(cfg, w, CloseFails(t)), events, t);
  }

  /** After the browser has left, an `acquire` that wakes costs a worker for good exactly if
      it was granted one and neither timed out nor was cancelled. */
  lemma LateGrantStrands(cfg: Config, w: World, t: nat, events: seq<Event>)
    requires WorldInv(cfg, w) && t < |w.streams| && w.streams[t].Left? && Wakeable(w.sched, t)
    ensures Stranded(RunWorld(cfg, Happen(cfg, w, Wake(t)), events), t)
            <==> w.sched.tasks[t].future.Granted? && !w.sched.tasks[t].phase.givingUp
  {
    hide Inv, Next;
    var w1 := Happen(cfg, w, Wake(t));
    HappenKeeps(cfg, w, Wake(t));
    Gateway.ResumePhase(cfg, w.sched, t);
    LeftForEver(cfg, w1, events, t);
  }

  // --- The books once every stream is over --------------------------------------------------

  function Lost(w: World): set<nat> {
    set t | 0 <= t < |w.streams| && Stranded(w, t)
  }

  function TicketSet(h: seq<Grant>): set<nat> {
    set g | g in h :: g.ticket
  }

  lemma {:induction false} TicketSetSize(h: seq<Grant>)
    requires DistinctGrants(h)
    ensures |TicketSet(h)| == |h|
  {
    if h == [] {
      assert TicketSet(h) == {};
    } else {
      var n := |h| - 1;
      TicketSetSize(h[..n]);
      assert h == h[..n] + [h[n]];
      assert TicketSet(h) == TicketSet(h[..n]) + {h[n].ticket};
    }
  }

  lemma HoldingOwns(cfg: Config, s: State, t: nat)
    requires Inv(cfg, s) && Holds(s, t)
    ensures t in TicketSet(s.held)
  {
    assert Coherent(s.tasks[t]);
    assert GrantOf(s.tasks, t) in s.held;
  }

  lemma OwnedTask(cfg: Config, s: State, g: Grant)
    requires Inv(cfg, s) && g in s.held
    ensures g.ticket in s.tasks && Owns(s.tasks[g.ticket])
  {
  }

  lemma HeldDistinct(cfg: Config, s: State)
    requires Inv(cfg, s)
    ensures DistinctGrants(s.held) && multiset(s.free) + Workers(s.held) == multiset(cfg.workers)
  {
  }

  /** Every generator has ended or been left, and every `acquire` is done. */
  ghost predicate Settled(w: World) {
    && (forall t :: 0 <= t < |w.streams| ==> w.streams[t].Over? || w.streams[t].Left?)
    && (forall t :: t in w.sched.tasks ==> !w.sched.tasks[t].phase.Suspended?)
  }

  lemma HeldIsLost(cfg: Config, w: World)
    requires WorldInv(cfg, w) && Settled(w)
    ensures TicketSet(w.sched.held) == Lost(w)
  {
    hide Inv;
    forall t | t in TicketSet(w.sched.held)
      ensures t in Lost(w)
    {
      var g :| g in w.sched.held && g.ticket == t;
      OwnedTask(cfg, w.sched, g);
    }
    forall t | t in Lost(w)
      ensures t in TicketSet(w.sched.held)
    {
      HoldingOwns(cfg, w.sched, t);
    }
  }

  /** When everything has settled, the workers missing are exactly those of the streams whose
      browser left too late or unnoticed or whose response could not be closed; so all are
      back exactly if there is none. */
  lemma WorkersLost(cfg: Config, events: seq<Event>)
    requires Settled(RunWorld(cfg, Start(cfg), events))
    ensures var w := RunWorld(cfg, Start(cfg), events);
            && Inflight(cfg, w.sched) == |Lost(w)|
            && (multiset(w.sched.free) == multiset(cfg.workers) <==> Lost(w) == {})
            && forall t :: t in Lost(w) ==> w.streams[t] in {Left(TooLate), Left(Unnoticed), Left(CloseFailed)}
  {
    hide Inv, Happen, Settled, Lost, TicketSet, Workers;
    var w := RunWorld(cfg, Start(cfg), events);
    StartKeeps(cfg);
    RunWorldKeeps(cfg, Start(cfg), events);
    HeldIsLost(cfg, w);
    HeldDistinct(cfg, w.sched);
    TicketSetSize(w.sched.held);
    SchedulerGuarantees.InflightIsHeld(cfg, w.sched);
    LostAre(w);
    WorkersSize(w.sched.held);
    assert |multiset(w.sched.free)| == |w.sched.free| && |multiset(cfg.workers)| == |cfg.workers|;
    if Lost(w) == {} {
      assert |Workers(w.sched.held)| == 0;
    }
  }

  lemma LostAre(w: World)
    requires Paired(w.sched, w.streams)
    ensures forall t :: t in Lost(w) ==>
              t < |w.streams| && w.streams[t] in {Left(TooLate), Left(Unnoticed), Left(CloseFailed)}
  {
  }

  /** With one worker, a single browser leaving at the wrong moment stops the service: the
      worker never comes back, whatever happens afterwards. */
  lemma OneVisitorStopsAll(events: seq<Event>)
    ensures var cfg := Config(["w1"], map[], 1);
            var job := Job("user:1", "pro", 1, "member", 1);
            var w := RunWorld(cfg, Start(cfg), [Open(job), Wake(0), Leave(0)]);
            Lost(w) == {0} && RunWorld(cfg, w, events).sched.free == []
  {
    hide Inv, Happen, Stranded, Holds, Lost, RunWorld;
    var cfg := Config(["w1"], map[], 1);
    var job := Job("user:1", "pro", 1, "member", 1);
    var w := RunWorld(cfg, Start(cfg), [Open(job), Wake(0), Leave(0)]);
    LeavesTooLate(cfg, job);
    StartKeeps(cfg);
    RunWorldKeeps(cfg, Start(cfg), [Open(job), Wake(0), Leave(0)]);
    OnlyOneLost(w);
    StrandedTakes(cfg, w, 0, events);
  }

  lemma OnlyOneLost(w: World)
    requires w.streams == [Left(TooLate)] && Holds(w.sched, 0)
    ensures Lost(w) == {0}
  {
    hide Holds;
  }

  /** A stranded lease keeps its worker out for ever. */
  lemma StrandedTakes(cfg: Config, w: World, t: nat, events: seq<Event>)
    requires WorldInv(cfg, w) && t < |w.streams| && w.streams[t].Left? && Holds(w.sched, t)
    ensures var w' := RunWorld(cfg, w, events);
            Stranded(w', t) && |w'.sched.free| < |cfg.workers|
  {
    hide Inv, Happen, RunWorld;
    var w' := RunWorld(cfg, w, events);
    LeftForEver(cfg, w, events, t);
    RunWorldKeeps(cfg, w, events);
    HoldingOwns(cfg, w'.sched, t);
    SchedulerGuarantees.InflightIsHeld(cfg, w'.sched);
  }

  lemma LeavesTooLate(cfg: Config, job: Job)
    requires cfg == Config(["w1"], map[], 1) && job == Job("user:1", "pro", 1, "member", 1)
    ensures var w := RunWorld(cfg, Start(cfg), [Open(job), Wake(0), Leave(0)]);
            w.streams == [Left(TooLate)] && Holds(w.sched, 0)
  {
    var s0 := Init(cfg);
    var s1 := Push(s0, job);
    assert s1.queue == [Waiter(1, 0, job)];
    var s2 := GrantAt(s1, 0);
    assert s2.queue == [];
    assert Next(cfg, s0, Enqueue(job)) == s2;
    var s3 := SetPhase(s2, 0, Holding);
    assert Next(cfg, s2, Resume(0)) == s3;
    hide Next;
    var w1 := Happen(cfg, Start(cfg), Open(job));
    assert w1 == World(s2, [InWait]);
    var w2 := Happen(cfg, w1, Wake(0));
    assert w2 == World(s3, [InWait]);
    var w3 := Happen(cfg, w2, Leave(0));
    assert w3 == World(s3, [Left(TooLate)]);
    hide Happen;
    var e1, e2 := [Wake(0), Leave(0)], [Leave(0)];
    assert [Open(job), Wake(0), Leave(0)][1..] == e1 && e1[1..] == e2 && e2[1..] == [];
    assert RunWorld(cfg, w2, e2) == RunWorld(cfg, w3, []);
    assert RunWorld(cfg, w1, e1) == RunWorld(cfg, w2, e2);
    assert RunWorld(cfg, Start(cfg), [Open(job)] + e1) == RunWorld(cfg, w1, e1);
  }
}
