/** How far a budget can be overshot. Admission reads the recorded usage, so what was
    admitted before the budget was reached may still be charged after. */
module Budget {
  import opened SchedulerState
  import opened Ledger
  import opened Gateway

  /** One account: a client in one period. */
  datatype Account = Account(client: string, period: string)

  function UsedIn(g: World, a: Account): real {
    Used(g.tables.usage, a.client, a.period)
  }

  predicate OfAccount(q: Request, a: Account) {
    q.client == a.client && q.period == a.period
  }

  /** Admitted and not yet settled or turned away. */
  predicate Outstanding(g: World, a: Account, r: nat) {
    r < |g.requests| && OfAccount(g.requests[r], a)
    && (g.requests[r].stage.Reading? || InProgress(g.requests[r]))
  }

  /** The event settles a running request of the account and its ledger write succeeds. */
  predicate Charges(g: World, e: Event, a: Account) {
    e.Finish? && InStage(g, e.r, false) && OfAccount(g.requests[e.r], a) && e.fault == NoFault
  }

  function Charge(g: World, e: Event, a: Account): real {
    if Charges(g, e, a) then e.run.seconds else 0.0
  }

  datatype Line = Line(request: nat, seconds: real)

  /** All the charges of a run, with the requests they settle. */
  function Bill(cfg: Config, g: World, events: seq<Event>, a: Account): seq<Line>
    decreases |events|
  {
    if events == [] then []
    else (if Charges(g, events[0], a) then [Line(events[0].r, events[0].run.seconds)] else [])
         + Bill(cfg, Happen(cfg, g, events[0]), events[1..], a)
  }

  function Sum(bill: seq<Line>): real {
    if bill == [] then 0.0 else bill[0].seconds + Sum(bill[1..])
  }

  /** The plan, and so the limit, of the account is the same at every admission. */
  ghost predicate FixedPlan(events: seq<Event>, a: Account, limit: real) {
    forall k :: 0 <= k < |events| && events[k].Arrive?
                && events[k].client == a.client && events[k].period == a.period
      ==> events[k].plan.budget == Seconds(limit)
  }

  /** A charge goes to the client and period read at admission, whatever the date is when
      the run ends, and moves no other total. */
  lemma ChargeAtAdmissionPeriod(cfg: Config, g: World, e: Event, a: Account)
    ensures UsedIn(Happen(cfg, g, e), a) == UsedIn(g, a) + Charge(g, e, a)
  {
    hide Next;
    if e.Finish? && InStage(g, e.r, false) && e.fault == NoFault {
      var q := g.requests[e.r];
      UpsertUsed(g.tables.usage, q.client, q.period, e.run.seconds, a.client, a.period);
    }
  }

  lemma {:induction false} UsedIsBilled(cfg: Config, g: World, events: seq<Event>, a: Account)
    ensures UsedIn(RunWorld(cfg, g, events), a) == UsedIn(g, a) + Sum(Bill(cfg, g, events, a))
    decreases |events|
  {
    if events != [] {
      var g1 := Happen(cfg, g, events[0]);
      ChargeAtAdmissionPeriod(cfg, g, events[0], a);
      UsedIsBilled(cfg, g1, events[1..], a);
      var rest := Bill(cfg, g1, events[1..], a);
      hide Happen, UsedIn;
      if Charges(g, events[0], a) {
        assert ([Line(events[0].r, events[0].run.seconds)] + rest)[1..] == rest;
      } else {
        assert [] + rest == rest;
      }
    }
  }

  // --- Once the budget is reached ---------------------------------------------------------

  /** A request is never reopened, and only a non-exhausted arrival opens one. */
  lemma OutstandingShrinks(cfg: Config, g: World, e: Event, a: Account, r: nat)
    requires e.Arrive? && e.client == a.client && e.period == a.period ==>
               e.plan.budget.Seconds? && UsedIn(g, a) >= e.plan.budget.limit
    ensures Outstanding(Happen(cfg, g, e), a, r) ==> Outstanding(g, a, r)
  {
    hide Next, Refuses;
  }

  lemma SettledIsClosed(cfg: Config, g: World, e: Event, a: Account)
    requires Charges(g, e, a)
    ensures Outstanding(g, a, e.r) && !Outstanding(Happen(cfg, g, e), a, e.r)
  {
    hide Next;
  }

  /** Every line of the bill settles a different outstanding request. */
  ghost predicate BillsOutstanding(g: World, a: Account, bill: seq<Line>) {
    && (forall k :: 0 <= k < |bill| ==> Outstanding(g, a, bill[k].request))
    && (forall j, k :: 0 <= j < k < |bill| ==> bill[j].request != bill[k].request)
  }

  lemma BillsEarlier(g: World, g1: World, a: Account, first: seq<Line>, rest: seq<Line>)
    requires forall r: nat :: Outstanding(g1, a, r) ==> Outstanding(g, a, r)
    requires BillsOutstanding(g1, a, rest) && |first| <= 1
    requires first != [] ==> Outstanding(g, a, first[0].request) && !Outstanding(g1, a, first[0].request)
    ensures BillsOutstanding(g, a, first + rest)
  {
    var bill := first + rest;
    assert forall k :: |first| <= k < |bill| ==> bill[k] == rest[k - |first|];
  }

  /** From the moment the budget is reached no request of the account is admitted, the
      set of admitted but unsettled requests only shrinks, and every later charge settles
      a different one of them. */
  lemma {:induction false} OnlyOutstandingCharged(cfg: Config, g: World, events: seq<Event>, a: Account, limit: real)
    requires UsedIn(g, a) >= limit && FixedPlan(events, a, limit)
    requires forall k :: 0 <= k < |events| && events[k].Finish? ==> events[k].run.seconds >= 0.0
    ensures forall r: nat :: Outstanding(RunWorld(cfg, g, events), a, r) ==> Outstanding(g, a, r)
    ensures BillsOutstanding(g, a, Bill(cfg, g, events, a))
    decreases |events|
  {
    if events != [] {
      var e, g1 := events[0], Happen(cfg, g, events[0]);
      ChargeAtAdmissionPeriod(cfg, g, e, a);
      forall r: nat
        ensures Outstanding(g1, a, r) ==> Outstanding(g, a, r)
      {
        OutstandingShrinks(cfg, g, e, a, r);
      }
      if Charges(g, e, a) {
        SettledIsClosed(cfg, g, e, a);
      }
      hide Happen, UsedIn, Outstanding, BillsOutstanding;
      OnlyOutstandingCharged(cfg, g1, events[1..], a, limit);
      BillsEarlier(g, g1, a, if Charges(g, e, a) then [Line(e.r, e.run.seconds)] else [],
                   Bill(cfg, g1, events[1..], a));
    }
  }

  /** What a run from below the limit can come to: it stays below, or one event crosses
      the limit from below, and after it only requests already outstanding are charged,
      each at most once. */
  ghost predicate Crosses(cfg: Config, g: World, events: seq<Event>, a: Account, limit: real, k: nat)
    requires k < |events|
  {
    var before := RunWorld(cfg, g, events[..k]);
    var after := Happen(cfg, before, events[k]);
    var late := Bill(cfg, after, events[k + 1..], a);
    && UsedIn(before, a) < limit <= UsedIn(after, a)
    && Charges(before, events[k], a)
    && UsedIn(after, a) == UsedIn(before, a) + events[k].run.seconds
    && UsedIn(RunWorld(cfg, g, events), a) == UsedIn(after, a) + Sum(late)
    && BillsOutstanding(after, a, late)
  }

  lemma CrossesHere(cfg: Config, g: World, events: seq<Event>, a: Account, limit: real)
    requires events != [] && UsedIn(g, a) < limit <= UsedIn(Happen(cfg, g, events[0]), a)
    requires FixedPlan(events, a, limit)
    requires forall k :: 0 <= k < |events| && events[k].Finish? ==> events[k].run.seconds >= 0.0
    ensures Crosses(cfg, g, events, a, limit, 0)
  {
    var g1 := Happen(cfg, g, events[0]);
    ChargeAtAdmissionPeriod(cfg, g, events[0], a);
    assert RunWorld(cfg, g, events[..0]) == g;
    assert events[0 + 1..] == events[1..];
    hide Happen, Outstanding;
    OnlyOutstandingCharged(cfg, g1, events[1..], a, limit);
    UsedIsBilled(cfg, g1, events[1..], a);
  }

  lemma CrossesLater(cfg: Config, g: World, events: seq<Event>, a: Account, limit: real, k: nat)
    requires events != [] && k < |events[1..]|
    requires Crosses(cfg, Happen(cfg, g, events[0]), events[1..], a, limit, k)
    ensures Crosses(cfg, g, events, a, limit, k + 1)
  {
    assert events[..k + 1][0] == events[0] && events[..k + 1][1..] == events[1..][..k];
    assert events[1..][k + 1..] == events[k + 1 + 1..];
    hide Happen, Outstanding, Bill;
  }

  /** The overshoot is bounded by the crossing charge and the requests outstanding then:
      final usage is below the limit, or below the limit plus the crossing charge plus the
      charges of requests that were outstanding when it was crossed. */
  lemma {:induction false} Overshoot(cfg: Config, g: World, events: seq<Event>, a: Account, limit: real)
    requires UsedIn(g, a) < limit && FixedPlan(events, a, limit)
    requires forall k :: 0 <= k < |events| && events[k].Finish? ==> events[k].run.seconds >= 0.0
    ensures UsedIn(RunWorld(cfg, g, events), a) < limit
            || exists k :: 0 <= k < |events| && Crosses(cfg, g, events, a, limit, k)
    decreases |events|
  {
    if events != [] {
      var g1 := Happen(cfg, g, events[0]);
      if UsedIn(g1, a) >= limit {
        CrossesHere(cfg, g, events, a, limit);
      } else {
        Overshoot(cfg, g1, events[1..], a, limit);
        if UsedIn(RunWorld(cfg, g1, events[1..]), a) >= limit {
          var k :| 0 <= k < |events[1..]| && Crosses(cfg, g1, events[1..], a, limit, k);
          CrossesLater(cfg, g, events, a, limit, k);
        }
      }
    }
  }
}
