/** The values the scheduler works on: jobs, waiters and their order, one future
    per waiter, the grants made, and the two usage counters. */
module Jobs {

  datatype Job = Job(client: string, planId: string, priority: int, pool: string, concurrency: int)

  /** A queue entry. `ticket` is the arrival number; lower priority goes first. */
  datatype Waiter = Waiter(priority: int, ticket: nat, job: Job)

  /** The future a waiter sleeps on. `Failed` carries the `Draining` exception. */
  datatype Future = Pending | Granted(worker: string) | Failed | Cancelled

  datatype Outcome = Served | TimedOut | Drained

  /** Where one `acquire` call is: suspended on its future (`givingUp` once a
      timeout or cancellation has been delivered to it), holding an unreleased
      lease, or over. */
  datatype Phase = Suspended(givingUp: bool) | Holding | Ended(outcome: Outcome)

  datatype Task = Task(job: Job, future: Future, phase: Phase)

  datatype Grant = Grant(ticket: nat, worker: string, job: Job)

  predicate Before(a: Waiter, b: Waiter) {
    a.priority < b.priority || (a.priority == b.priority && a.ticket < b.ticket)
  }

  ghost predicate Ordered(q: seq<Waiter>) {
    forall i, j :: 0 <= i < j < |q| ==> Before(q[i], q[j])
  }

  ghost predicate DistinctTickets(q: seq<Waiter>) {
    forall i, j :: 0 <= i < j < |q| ==> q[i].ticket != q[j].ticket
  }

  function RemoveAt<T>(q: seq<T>, i: nat): seq<T>
    requires i < |q|
  {
    q[..i] + q[i + 1..]
  }

  // --- Counter: a missing key counts zero ------------------------------------

  type Counter = map<string, int>

  function Get(c: Counter, k: string): int {
    if k in c then c[k] else 0
  }

  function Bump(c: Counter, k: string, d: int): Counter {
    c[k := Get(c, k) + d]
  }

  // --- Outstanding grants ------------------------------------------------------

  /** A way to select jobs for counting. */
  datatype Key = OfPool(pool: string) | OfClient(client: string) | OutsidePool(other: string) | AnyJob

  predicate Selects(k: Key, job: Job) {
    match k
    case OfPool(p) => job.pool == p
    case OfClient(c) => job.client == c
    case OutsidePool(p) => job.pool != p
    case AnyJob => true
  }

  predicate Matches(g: Grant, k: Key) {
    Selects(k, g.job)
  }

  function One(g: Grant, k: Key): nat {
    if Matches(g, k) then 1 else 0
  }

  function Tally(h: seq<Grant>, k: Key): nat {
    if h == [] then 0 else Tally(h[..|h| - 1], k) + One(h[|h| - 1], k)
  }

  function Workers(h: seq<Grant>): multiset<string> {
    if h == [] then multiset{} else Workers(h[..|h| - 1]) + multiset{h[|h| - 1].worker}
  }

  ghost predicate DistinctGrants(h: seq<Grant>) {
    forall i, j :: 0 <= i < j < |h| ==> h[i].ticket != h[j].ticket
  }

  /** The outstanding grants once the one with this ticket has been given back. */
  function Without(h: seq<Grant>, t: nat): seq<Grant> {
    if h == [] then []
    else
      var rest := Without(h[..|h| - 1], t);
      if h[|h| - 1].ticket == t then rest else rest + [h[|h| - 1]]
  }

  lemma TallyAppend(h: seq<Grant>, g: Grant, k: Key)
    ensures Tally(h + [g], k) == Tally(h, k) + One(g, k)
  {
    assert (h + [g])[..|h|] == h;
  }

  lemma WorkersAppend(h: seq<Grant>, g: Grant)
    ensures Workers(h + [g]) == Workers(h) + multiset{g.worker}
  {
    assert (h + [g])[..|h|] == h;
  }

  lemma {:induction false} WithoutAbsent(h: seq<Grant>, t: nat)
    requires forall g :: g in h ==> g.ticket != t
    ensures Without(h, t) == h
  {
    if h != [] {
      var init, last := h[..|h| - 1], h[|h| - 1];
      assert h == init + [last];
      assert last in h;
      WithoutAbsent(init, t);
    }
  }

  lemma {:induction false} WithoutMembers(h: seq<Grant>, t: nat)
    ensures forall g :: g in Without(h, t) <==> g in h && g.ticket != t
  {
    if h != [] {
      var n := |h| - 1;
      WithoutMembers(h[..n], t);
      assert h == h[..n] + [h[n]];
    }
  }

  lemma {:induction false} WithoutDistinct(h: seq<Grant>, t: nat)
    requires DistinctGrants(h)
    ensures DistinctGrants(Without(h, t))
  {
    if h != [] {
      var n := |h| - 1;
      WithoutDistinct(h[..n], t);
      WithoutMembers(h[..n], t);
      var rest := Without(h[..n], t);
      forall i | 0 <= i < |rest|
        ensures rest[i].ticket != h[n].ticket
      {
        assert rest[i] in rest;
        assert rest[i] in h[..n];
      }
    }
  }

  /** A listed grant is the last one, or among the earlier ones. */
  lemma LastOrEarlier(h: seq<Grant>, g: Grant)
    requires DistinctGrants(h) && g in h
    ensures h != [] && DistinctGrants(h[..|h| - 1])
    ensures h[|h| - 1].ticket != g.ticket ==> g in h[..|h| - 1]
    ensures h[|h| - 1].ticket == g.ticket ==>
              h[|h| - 1] == g && Without(h[..|h| - 1], g.ticket) == h[..|h| - 1]
  {
    var n := |h| - 1;
    var i :| 0 <= i < |h| && h[i] == g;
    if i < n {
      assert h[..n][i] == g;
    } else {
      WithoutAbsent(h[..n], g.ticket);
    }
  }

  /** Giving one grant back lowers exactly the tallies it counted in. */
  lemma {:induction false} WithoutTally(h: seq<Grant>, g: Grant, k: Key)
    requires DistinctGrants(h) && g in h
    ensures Tally(Without(h, g.ticket), k) == Tally(h, k) - One(g, k)
  {
    hide DistinctGrants, One;
    LastOrEarlier(h, g);
    var n := |h| - 1;
    if h[n].ticket != g.ticket {
      WithoutTally(h[..n], g, k);
      TallyAppend(Without(h[..n], g.ticket), h[n], k);
    }
  }

  /** Giving one grant back returns exactly its worker. */
  lemma {:induction false} WithoutWorkers(h: seq<Grant>, g: Grant)
    requires DistinctGrants(h) && g in h
    ensures Workers(Without(h, g.ticket)) + multiset{g.worker} == Workers(h)
  {
    hide DistinctGrants;
    LastOrEarlier(h, g);
    var n := |h| - 1;
    if h[n].ticket != g.ticket {
      WithoutWorkers(h[..n], g);
      WorkersAppend(Without(h[..n], g.ticket), h[n]);
    }
  }

  /** Dropping grants never raises a tally. */
  lemma {:induction false} WithoutTallyAtMost(h: seq<Grant>, t: nat, k: Key)
    ensures Tally(Without(h, t), k) <= Tally(h, k)
  {
    if h != [] {
      var n := |h| - 1;
      WithoutTallyAtMost(h[..n], t, k);
      TallyAppend(Without(h[..n], t), h[n], k);
    }
  }

  lemma {:induction false} TallySplit(h: seq<Grant>, p: string)
    ensures Tally(h, OfPool(p)) + Tally(h, OutsidePool(p)) == |h|
  {
    if h != [] {
      TallySplit(h[..|h| - 1], p);
    }
  }

  lemma {:induction false} WorkersSize(h: seq<Grant>)
    ensures |Workers(h)| == |h|
  {
    if h != [] {
      WorkersSize(h[..|h| - 1]);
    }
  }
}
