/** What one dispatch does: it refines a greedy pass over the live waiters, blocked
    waiters change nothing for the others, and nobody eligible is overtaken. */
module SchedulerDispatch {
  import opened Jobs
  import opened SchedulerState
  import opened SchedulerInvariant

  // --- The reference: one greedy pass over live waiters --------------------------------

  datatype Pass = Pass(granted: seq<Grant>, left: seq<Waiter>, pools: Counter, clients: Counter)

  /** Walk the waiters in order; each one with room at its turn takes the front
      worker, every other one is left. No abandoned entries, no early stop. */
  function Greedy(caps: map<string, int>, live: seq<Waiter>, free: seq<string>,
                  pools: Counter, clients: Counter): Pass
  {
    if live == [] then Pass([], [], pools, clients)
    else
      var w := live[0];
      if free != [] && Room(caps, pools, clients, w.job) then
        var r := Greedy(caps, live[1..], free[1..], Bump(pools, w.job.pool, 1), Bump(clients, w.job.client, 1));
        r.(granted := [Grant(w.ticket, free[0], w.job)] + r.granted)
      else
        var r := Greedy(caps, live[1..], free, pools, clients);
        r.(left := [w] + r.left)
  }

  /** The futures of the granted waiters receive their workers. */
  function Deliver(tasks: map<nat, Task>, granted: seq<Grant>): map<nat, Task> {
    if granted == [] then tasks
    else
      var g := granted[0];
      Deliver(if g.ticket in tasks then tasks[g.ticket := tasks[g.ticket].(future := Granted(g.worker))] else tasks,
              granted[1..])
  }

  function LiveOf(q: seq<Waiter>, tasks: map<nat, Task>): seq<Waiter> {
    if q == [] then []
    else if Waits(tasks, q[0].ticket) then [q[0]] + LiveOf(q[1..], tasks)
    else LiveOf(q[1..], tasks)
  }

  lemma LiveOfCons(w: Waiter, q: seq<Waiter>, tasks: map<nat, Task>)
    ensures LiveOf([w] + q, tasks) == (if Waits(tasks, w.ticket) then [w] else []) + LiveOf(q, tasks)
  {
    assert ([w] + q)[1..] == q;
  }

  lemma LiveOfNone(tasks: map<nat, Task>)
    ensures LiveOf([], tasks) == []
  {
  }

  lemma {:induction false} LiveOfConcat(a: seq<Waiter>, b: seq<Waiter>, tasks: map<nat, Task>)
    ensures LiveOf(a + b, tasks) == LiveOf(a, tasks) + LiveOf(b, tasks)
  {
    hide LiveOf, Waits;
    if a == [] {
      assert a + b == b;
      LiveOfNone(tasks);
    } else {
      var first, rest := [a[0]], a[1..];
      assert a == first + rest && a + b == first + (rest + b);
      LiveOfCons(a[0], rest, tasks);
      LiveOfCons(a[0], rest + b, tasks);
      LiveOfConcat(rest, b, tasks);
    }
  }

  lemma {:induction false} LiveOfSame(q: seq<Waiter>, tasks: map<nat, Task>, t: nat, task: Task)
    requires forall w :: w in q ==> w.ticket != t
    ensures LiveOf(q, tasks[t := task]) == LiveOf(q, tasks)
  {
    if q != [] {
      assert q[0] in q;
      LiveOfSame(q[1..], tasks, t, task);
    }
  }

  lemma {:induction false} GreedyStuck(caps: map<string, int>, live: seq<Waiter>, pools: Counter, clients: Counter)
    ensures Greedy(caps, live, [], pools, clients) == Pass([], live, pools, clients)
  {
    if live != [] {
      GreedyStuck(caps, live[1..], pools, clients);
    }
  }

  /** The grant is one to a waiter of the list. */
  ghost predicate Listed(live: seq<Waiter>, g: Grant) {
    exists w :: w in live && w.ticket == g.ticket && w.job == g.job
  }

  lemma ListedLater(live: seq<Waiter>, granted: seq<Grant>)
    requires live != [] && forall k :: 0 <= k < |granted| ==> Listed(live[1..], granted[k])
    ensures forall k :: 0 <= k < |granted| ==> Listed(live, granted[k])
  {
    forall k | 0 <= k < |granted|
      ensures Listed(live, granted[k])
    {
      assert Listed(live[1..], granted[k]);
      var w :| w in live[1..] && w.ticket == granted[k].ticket && w.job == granted[k].job;
      assert live == [live[0]] + live[1..];
    }
  }

  lemma ListedFirst(live: seq<Waiter>, worker: string)
    requires live != []
    ensures Listed(live, Grant(live[0].ticket, worker, live[0].job))
  {
    assert live[0] in live;
  }

  /** The k-th grant gets the k-th free worker, to a waiter of the list. */
  lemma {:induction false} GreedyTakesFront(caps: map<string, int>, live: seq<Waiter>, free: seq<string>,
                                            pools: Counter, clients: Counter)
    ensures var r := Greedy(caps, live, free, pools, clients);
            |r.granted| <= |free|
            && (forall k :: 0 <= k < |r.granted| ==>
                  r.granted[k].worker == free[k] && Listed(live, r.granted[k]))
  {
    hide Room, Bump, Listed;
    if live != [] {
      var w, pools', clients' := live[0], Bump(pools, live[0].job.pool, 1), Bump(clients, live[0].job.client, 1);
      if free != [] && Room(caps, pools, clients, w.job) {
        GreedyTakesFront(caps, live[1..], free[1..], pools', clients');
        ListedLater(live, Greedy(caps, live[1..], free[1..], pools', clients').granted);
        ListedFirst(live, free[0]);
      } else {
        GreedyTakesFront(caps, live[1..], free, pools, clients);
        ListedLater(live, Greedy(caps, live[1..], free, pools, clients).granted);
      }
    }
  }

  /** What a dispatch from position `i` must have done. */
  ghost predicate FollowsPass(s: State, s': State, r: Pass, before: seq<Waiter>) {
    && |r.granted| <= |s.free|
    && s'.free == s.free[|r.granted|..]
    && s'.held == s.held + r.granted
    && s'.log == s.log + r.granted
    && s'.pools == r.pools && s'.clients == r.clients
    && s'.tasks == Deliver(s.tasks, r.granted)
    && LiveOf(s'.queue, s'.tasks) == before + r.left
    && s'.nextTicket == s.nextTicket && s'.draining == s.draining
  }

  ghost function PassFrom(cfg: Config, s: State, i: nat): Pass
    requires i <= |s.queue|
  {
    Greedy(cfg.caps, LiveOf(s.queue[i..], s.tasks), s.free, s.pools, s.clients)
  }

  /** The first live waiter has room: what the pass does with it. */
  lemma PassGrants(cfg: Config, s: State, i: nat)
    requires i < |s.queue| && s.free != [] && DistinctTickets(s.queue)
    requires Waits(s.tasks, s.queue[i].ticket) && Eligible(cfg, s, s.queue[i].job)
    ensures var r1 := PassFrom(cfg, GrantAt(s, i), i);
            var g := Grant(s.queue[i].ticket, s.free[0], s.queue[i].job);
            PassFrom(cfg, s, i) == r1.(granted := [g] + r1.granted)
    ensures LiveOf(GrantAt(s, i).queue[..i], GrantAt(s, i).tasks) == LiveOf(s.queue[..i], s.tasks)
  {
    var s1 := GrantAt(s, i);
    var w := s.queue[i];
    var rest := s.queue[i + 1..];
    assert s1.queue[..i] == s.queue[..i] && s1.queue[i..] == rest;
    assert s.queue[i..][1..] == rest && s.queue[i..][0] == w;
    LiveOfSame(rest, s.tasks, w.ticket, s1.tasks[w.ticket]);
    LiveOfSame(s.queue[..i], s.tasks, w.ticket, s1.tasks[w.ticket]);
  }

  lemma GrantStep(s: State, s1: State, s': State, g: Grant, r1: Pass, before: seq<Waiter>)
    requires s.free != [] && g.worker == s.free[0] && g.ticket in s.tasks
    requires s1.free == s.free[1..] && s1.held == s.held + [g] && s1.log == s.log + [g]
    requires s1.tasks == s.tasks[g.ticket := s.tasks[g.ticket].(future := Granted(g.worker))]
    requires s1.nextTicket == s.nextTicket && s1.draining == s.draining
    requires FollowsPass(s1, s', r1, before)
    ensures FollowsPass(s, s', r1.(granted := [g] + r1.granted), before)
  {
    var granted := [g] + r1.granted;
    assert granted[1..] == r1.granted;
    assert s1.held + r1.granted == s.held + granted;
    assert s1.log + r1.granted == s.log + granted;
  }

  lemma PassEnds(cfg: Config, s: State, i: nat)
    requires i <= |s.queue| && (i == |s.queue| || s.free == [])
    ensures FollowsPass(s, s, PassFrom(cfg, s, i), LiveOf(s.queue[..i], s.tasks))
  {
    var before, rest := s.queue[..i], s.queue[i..];
    assert s.queue == before + rest;
    LiveOfConcat(before, rest, s.tasks);
    GreedyStuck(cfg.caps, LiveOf(rest, s.tasks), s.pools, s.clients);
  }

  lemma PassDrops(cfg: Config, s: State, i: nat)
    requires i < |s.queue| && !Waits(s.tasks, s.queue[i].ticket)
    ensures PassFrom(cfg, DropAt(s, i), i) == PassFrom(cfg, s, i)
    ensures DropAt(s, i).queue[..i] == s.queue[..i]
  {
    assert DropAt(s, i).queue[i..] == s.queue[i..][1..];
  }

  lemma PassSkips(cfg: Config, s: State, i: nat, s': State)
    requires i < |s.queue| && Waits(s.tasks, s.queue[i].ticket) && !Eligible(cfg, s, s.queue[i].job)
    requires FollowsPass(s, s', PassFrom(cfg, s, i + 1), LiveOf(s.queue[..i + 1], s.tasks))
    ensures FollowsPass(s, s', PassFrom(cfg, s, i), LiveOf(s.queue[..i], s.tasks))
  {
    var w := s.queue[i];
    var before, r1 := LiveOf(s.queue[..i], s.tasks), PassFrom(cfg, s, i + 1);
    assert s.queue[..i + 1] == s.queue[..i] + [w] && s.queue[i + 1..] == s.queue[i..][1..];
    LiveOfConcat(s.queue[..i], [w], s.tasks);
    assert PassFrom(cfg, s, i) == r1.(left := [w] + r1.left);
    assert before + ([w] + r1.left) == before + [w] + r1.left;
  }

  /** The heap loop with its skipped list is the greedy pass, whatever abandoned
      entries lie in between. */
  lemma {:induction false} ScanIsGreedy(cfg: Config, s: State, i: nat)
    requires i <= |s.queue| && DistinctTickets(s.queue)
    ensures FollowsPass(s, Scan(cfg, s, i), PassFrom(cfg, s, i), LiveOf(s.queue[..i], s.tasks))
    decreases |s.queue| - i
  {
    hide PassFrom, LiveOf, FollowsPass, Room;
    if i == |s.queue| || s.free == [] {
      PassEnds(cfg, s, i);
    } else if !Waits(s.tasks, s.queue[i].ticket) {
      PassDrops(cfg, s, i);
      DropFollows(cfg, s, i);
    } else if !Eligible(cfg, s, s.queue[i].job) {
      ScanIsGreedy(cfg, s, i + 1);
      PassSkips(cfg, s, i, Scan(cfg, s, i + 1));
    } else {
      var s1 := GrantAt(s, i);
      ScanIsGreedy(cfg, s1, i);
      PassGrants(cfg, s, i);
      GrantStep(s, s1, Scan(cfg, s1, i), Grant(s.queue[i].ticket, s.free[0], s.queue[i].job),
                PassFrom(cfg, s1, i), LiveOf(s.queue[..i], s.tasks));
    }
  }

  lemma {:induction false} DropFollows(cfg: Config, s: State, i: nat)
    requires i < |s.queue| && s.free != [] && !Waits(s.tasks, s.queue[i].ticket) && DistinctTickets(s.queue)
    ensures FollowsPass(s, Scan(cfg, s, i), PassFrom(cfg, s, i), LiveOf(s.queue[..i], s.tasks))
    decreases |s.queue| - i, 0
  {
    var s1 := DropAt(s, i);
    PassDrops(cfg, s, i);
    var r, before := PassFrom(cfg, s, i), LiveOf(s.queue[..i], s.tasks);
    hide PassFrom, LiveOf;
    ScanIsGreedy(cfg, s1, i);
  }

  /** Dispatch yields exactly the grants, worker assignments, counters, futures and
      remaining live waiters of the greedy pass. */
  lemma DispatchIsGreedy(cfg: Config, s: State)
    requires Queued(s.queue, s.tasks)
    ensures FollowsPass(s, Dispatch(cfg, s),
                        Greedy(cfg.caps, LiveOf(s.queue, s.tasks), s.free, s.pools, s.clients), [])
  {
    QueuedDistinct(s);
    ScanIsGreedy(cfg, s, 0);
    assert s.queue[0..] == s.queue;
  }

  // --- Blocked waiters are transparent ---------------------------------------------------

  lemma RemoveTwo<T>(q: seq<T>, i: nat, j: nat)
    requires i < j < |q|
    ensures RemoveAt(RemoveAt(q, j), i) == RemoveAt(RemoveAt(q, i), j - 1)
    ensures RemoveAt(q, i)[j - 1] == q[j] && RemoveAt(q, j)[i] == q[i]
  {
  }

  lemma RemoveKeeps(q: seq<Waiter>, i: nat, j: nat)
    requires i < |q| && j < |q| && i != j && DistinctTickets(q)
    ensures |RemoveAt(q, i)| == |q| - 1 && DistinctTickets(RemoveAt(q, i))
    ensures q[i].ticket != q[j].ticket
  {
    var r := RemoveAt(q, i);
    forall a, b | 0 <= a < b < |r|
      ensures r[a].ticket != r[b].ticket
    {
      var a', b' := if a < i then a else a + 1, if b < i then b else b + 1;
      assert r[a] == q[a'] && r[b] == q[b'] && 0 <= a' < b' < |q|;
    }
  }

  lemma {:induction false} ForgetAt(q: seq<Waiter>, i: nat)
    requires i < |q| && DistinctTickets(q)
    ensures Forget(q, q[i].ticket) == RemoveAt(q, i) && |RemoveAt(q, i)| == |q| - 1
  {
    if i > 0 {
      ForgetAt(q[1..], i - 1);
      assert RemoveAt(q, i) == [q[0]] + RemoveAt(q[1..], i - 1);
    }
  }

  /** A waiter the scan has already passed over does not affect the rest of it. */
  lemma {:induction false} PassedOver(cfg: Config, s: State, i: nat, j: nat)
    requires i < j <= |s.queue| && DistinctTickets(s.queue)
    ensures Scan(cfg, DropAt(s, i), j - 1)
         == Scan(cfg, s, j).(queue := Forget(Scan(cfg, s, j).queue, s.queue[i].ticket))
    decreases |s.queue| - j
  {
    hide Room, Forget, Bump, RemoveAt, DistinctTickets;
    var d := DropAt(s, i);
    if j == |s.queue| || s.free == [] {
      ForgetAt(s.queue, i);
    } else {
      RemoveTwo(s.queue, i, j);
      RemoveKeeps(s.queue, j, i);
      RemoveKeeps(s.queue, i, j);
      assert d.queue[j - 1] == s.queue[j];
      if !Waits(s.tasks, s.queue[j].ticket) {
        assert DropAt(d, j - 1) == DropAt(DropAt(s, j), i);
        PassedOver(cfg, DropAt(s, j), i, j);
      } else if !Eligible(cfg, s, s.queue[j].job) {
        PassedOver(cfg, s, i, j + 1);
      } else {
        assert GrantAt(d, j - 1) == DropAt(GrantAt(s, j), i);
        PassedOver(cfg, GrantAt(s, j), i, j);
      }
    }
  }

  lemma {:induction false} BlockedIsTransparent(cfg: Config, s: State, i: nat, j: nat)
    requires j <= i < |s.queue| && DistinctTickets(s.queue)
    requires Waits(s.tasks, s.queue[i].ticket) && !Eligible(cfg, s, s.queue[i].job)
    ensures Scan(cfg, DropAt(s, i), j)
         == Scan(cfg, s, j).(queue := Forget(Scan(cfg, s, j).queue, s.queue[i].ticket))
    decreases i - j
  {
    hide Room, Forget, Bump, RemoveAt, DistinctTickets;
    var d := DropAt(s, i);
    if s.free == [] {
      ForgetAt(s.queue, i);
    } else if j == i {
      PassedOver(cfg, s, i, i + 1);
    } else {
      RemoveTwo(s.queue, j, i);
      RemoveKeeps(s.queue, j, i);
      RemoveKeeps(s.queue, i, j);
      assert d.queue[j] == s.queue[j];
      if !Waits(s.tasks, s.queue[j].ticket) {
        assert DropAt(d, j) == DropAt(DropAt(s, j), i - 1);
        BlockedIsTransparent(cfg, DropAt(s, j), i - 1, j);
      } else if !Eligible(cfg, s, s.queue[j].job) {
        BlockedIsTransparent(cfg, s, i, j + 1);
      } else {
        var s1 := GrantAt(s, j);
        assert GrantAt(d, j) == DropAt(s1, i - 1);
        GrantBlocks(cfg, s, j, s.queue[i].job);
        BlockedIsTransparent(cfg, s1, i - 1, j);
      }
    }
  }

  /** Taking a blocked waiter out of the queue before a dispatch changes neither who
      is granted nor which worker anyone gets: only that waiter is missing after. */
  lemma BlockedWaiterTransparent(cfg: Config, s: State, i: nat)
    requires i < |s.queue| && Queued(s.queue, s.tasks)
    requires Waits(s.tasks, s.queue[i].ticket) && !Eligible(cfg, s, s.queue[i].job)
    ensures var with, without := Dispatch(cfg, s), Dispatch(cfg, DropAt(s, i));
            without == with.(queue := Forget(with.queue, s.queue[i].ticket))
  {
    QueuedDistinct(s);
    BlockedIsTransparent(cfg, s, i, 0);
  }

  // --- No overtaking -----------------------------------------------------------------------

  /** A grant about to be made: the state and the queue position it is made to. */
  datatype Moment = Moment(state: State, position: nat)

  function Moments(cfg: Config, s: State, i: nat): seq<Moment>
    requires i <= |s.queue|
    decreases |s.queue| - i
  {
    if i == |s.queue| || s.free == [] then []
    else if !Waits(s.tasks, s.queue[i].ticket) then Moments(cfg, DropAt(s, i), i)
    else if !Eligible(cfg, s, s.queue[i].job) then Moments(cfg, s, i + 1)
    else [Moment(s, i)] + Moments(cfg, GrantAt(s, i), i)
  }

  ghost predicate Fair(cfg: Config, m: Moment) {
    && m.position < |m.state.queue|
    && m.state.free != []
    && Eligible(cfg, m.state, m.state.queue[m.position].job)
    && var x := m.state.queue[m.position];
       forall w :: w in m.state.queue && Waits(m.state.tasks, w.ticket)
                   && (w.priority < x.priority || (w.priority == x.priority && w.ticket < x.ticket))
         ==> !Eligible(cfg, m.state, w.job)
  }

  function TicketsAt(ms: seq<Moment>): seq<int> {
    if ms == [] then []
    else [if ms[0].position < |ms[0].state.queue| then ms[0].state.queue[ms[0].position].ticket else -1]
         + TicketsAt(ms[1..])
  }

  function TicketsOf(h: seq<Grant>): seq<int> {
    if h == [] then [] else [h[0].ticket] + TicketsOf(h[1..])
  }

  lemma TicketsCons(g: Grant, h: seq<Grant>)
    ensures TicketsOf([g] + h) == [g.ticket] + TicketsOf(h)
  {
    assert ([g] + h)[1..] == h;
  }

  lemma TicketsNone()
    ensures TicketsOf([]) == []
  {
  }

  lemma {:induction false} TicketsConcat(a: seq<Grant>, b: seq<Grant>)
    ensures TicketsOf(a + b) == TicketsOf(a) + TicketsOf(b)
  {
    hide TicketsOf;
    if a == [] {
      assert a + b == b;
      TicketsNone();
    } else {
      var first, rest := [a[0]], a[1..];
      assert a == first + rest && a + b == first + (rest + b);
      TicketsCons(a[0], rest);
      TicketsCons(a[0], rest + b);
      TicketsConcat(rest, b);
    }
  }

  /** The moments are exactly the grants the dispatch adds to the log, in order. */
  lemma {:induction false} MomentsAreGrants(cfg: Config, s: State, i: nat)
    requires i <= |s.queue|
    ensures TicketsOf(Scan(cfg, s, i).log) == TicketsOf(s.log) + TicketsAt(Moments(cfg, s, i))
    decreases |s.queue| - i
  {
    hide TicketsOf, Room, Bump;
    if i == |s.queue| || s.free == [] {
    } else if !Waits(s.tasks, s.queue[i].ticket) {
      MomentsAreGrants(cfg, DropAt(s, i), i);
    } else if !Eligible(cfg, s, s.queue[i].job) {
      MomentsAreGrants(cfg, s, i + 1);
    } else {
      var s1 := GrantAt(s, i);
      var g := Grant(s.queue[i].ticket, s.free[0], s.queue[i].job);
      MomentsAreGrants(cfg, s1, i);
      TicketsConcat(s.log, [g]);
      TicketsCons(g, []);
      TicketsNone();
      assert [g] + [] == [g];
      assert Moments(cfg, s, i)[1..] == Moments(cfg, s1, i);
    }
  }

  /** Whenever a waiter is granted while a better-ranked one stays queued, the
      better-ranked one is blocked at that moment. */
  lemma {:induction false} GrantsAreFair(cfg: Config, s: State, i: nat)
    requires i <= |s.queue| && Ordered(s.queue) && BlockedBefore(cfg, s, i)
    ensures forall m :: m in Moments(cfg, s, i) ==> Fair(cfg, m)
    decreases |s.queue| - i
  {
    if i == |s.queue| || s.free == [] {
    } else if !Waits(s.tasks, s.queue[i].ticket) {
      RemoveAtMembers(s.queue, i);
      GrantsAreFair(cfg, DropAt(s, i), i);
    } else if !Eligible(cfg, s, s.queue[i].job) {
      GrantsAreFair(cfg, s, i + 1);
    } else {
      var s1 := GrantAt(s, i);
      assert Fair(cfg, Moment(s, i));
      RemoveAtMembers(s.queue, i);
      GrantKeepsBlocked(cfg, s, i);
      hide Fair;
      GrantsAreFair(cfg, s1, i);
    }
  }
}
