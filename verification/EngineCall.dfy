/** `_engine_call` once it holds a lease: forward, then on every way out release the
    worker once and try one ledger write. */
module EngineCall {
  import opened Jobs
  import opened SchedulerState
  import opened SchedulerFairness
  import opened Ledger
  import opened Text
  import Gateway
  import HeapQueue
  import Scheduler

  /** The `x-engine-seconds` header. */
  datatype Header = Absent | Number(seconds: real) | Unreadable

  /** What the worker's answer comes to: a response, a transport error, or any other
      exception, such as a cancellation. */
  datatype Upstream = Response(code: nat, header: Header) | TransportError | OtherException

  datatype Reply = Forwarded(code: nat) | SolverBusy | Raises

  datatype Outcome = Outcome(seconds: real, status: string, reply: Reply)

  function StatusText(code: nat): string {
    if code < 400 then "ok" else "http-" + Decimal(code)
  }

  /** What is charged and answered: the reported time and status of a readable response,
      and nothing for a request the worker never finished. */
  function OutcomeOf(up: Upstream): Outcome {
    match up
    case Response(code, Absent) => Outcome(0.0, StatusText(code), Forwarded(code))
    case Response(code, Number(s)) => Outcome(s, StatusText(code), Forwarded(code))
    case Response(_, Unreadable) => Outcome(0.0, "ok", Raises)
    case TransportError => Outcome(0.0, "upstream-error", SolverBusy)
    case OtherException => Outcome(0.0, "ok", Raises)
  }

  /** Who is billed, on which plan and in which period: fixed at admission. */
  datatype Bill = Bill(client: string, plan: string, period: string, path: string, requestId: string, queued: real)

  function RunRowOf(bill: Bill, up: Upstream, worker: string): RunRow {
    var o := OutcomeOf(up);
    RunRow(bill.client, bill.plan, bill.path, o.seconds, o.status, worker, bill.requestId, bill.queued)
  }

  /** What a recorded call costs: the readable time the worker reported, to the client and
      period of the bill, and nothing in any other case. Its row names the caller, the plan,
      the path, the worker, the request and the wait, and how the worker answered. */
  lemma ReportedCharge(t: Tables, bill: Bill, up: Upstream, worker: string, c: string, p: string)
    ensures var t' := Recorded(t, Attempt(RunRowOf(bill, up, worker), bill.period, NoFault));
            var seconds := if up.Response? && up.header.Number? then up.header.seconds else 0.0;
            var status :=
              if up.TransportError? then "upstream-error"
              else if up.Response? && !up.header.Unreadable? && up.code >= 400 then "http-" + Decimal(up.code)
              else "ok";
            && t'.runs == t.runs + [RunRow(bill.client, bill.plan, bill.path, seconds, status,
                                           worker, bill.requestId, bill.queued)]
            && Used(t'.usage, c, p)
               == Used(t.usage, c, p) + (if c == bill.client && p == bill.period then seconds else 0.0)
  {
    hide Used, Decimal;
    RecordMoves(t, Attempt(RunRowOf(bill, up, worker), bill.period, NoFault), c, p);
  }

  /** The body after `acquire`. Whatever the worker does and whether or not the ledger
      write succeeds, the lease is given back effectively and the row is attempted once,
      for the period of admission; the ledger never changes the reply. */
  method Settle(lease: Scheduler.Lease, ledger: Ledger, bill: Bill, up: Upstream, fault: Fault) returns (reply: Reply)
    requires lease.Valid() && !lease.released && ledger.Valid()
    modifies lease, lease.scheduler, ledger
    ensures lease.Valid() && lease.released && ledger.Valid()
    ensures GivesBack(old(lease.scheduler.Abs()), Step.Release(lease.ticket))
    ensures lease.scheduler.Abs() == Next(lease.scheduler.Cfg(), old(lease.scheduler.Abs()), Step.Release(lease.ticket))
    ensures ledger.Contents()
         == Recorded(old(ledger.Contents()), Attempt(RunRowOf(bill, up, lease.worker), bill.period, fault))
    ensures reply == match up
                     case Response(code, header) => if header.Unreadable? then Raises else Forwarded(code)
                     case TransportError => SolverBusy
                     case OtherException => Raises
    ensures fault == NoFault ==>
              Used(ledger.usage, bill.client, bill.period)
              == old(Used(ledger.usage, bill.client, bill.period))
                 + (if up.Response? && up.header.Number? then up.header.seconds else 0.0)
    ensures fault != NoFault ==> ledger.runs == old(ledger.runs) && ledger.usage == old(ledger.usage)
  {
    hide Next, Inv, Recorded, Used, Balanced, UniqueKeys, StatusText, HeapQueue.Layout;
    var seconds, status, answered, raising := 0.0, "ok", false, false;
    match up {
      case Response(code, header) =>
        answered := true;
        match header {
          case Unreadable => raising := true;
          case Absent => status := StatusText(code);
          case Number(s) =>
            seconds := s;
            status := StatusText(code);
        }
      case TransportError => status := "upstream-error";
      case OtherException => raising := true;
    }
    lease.Release();
    var row := RunRow(bill.client, bill.plan, bill.path, seconds, status, lease.worker, bill.requestId, bill.queued);
    RecordMoves(ledger.Contents(), Attempt(row, bill.period, fault), bill.client, bill.period);
    var _ := ledger.Record(row, bill.period, fault);
    reply := if raising then Raises else if !answered then SolverBusy else Forwarded(up.code);
  }

  /** The bill of a request: its client, plan, period and path as admitted. */
  predicate Billed(q: Gateway.Request, bill: Bill) {
    q.client == bill.client && q.plan.id == bill.plan && q.period == bill.period && q.path == bill.path
  }

  /** What `Settle` does to the scheduler and the ledger is what settling the request does
      to the world of all requests, with the row written in full. */
  lemma SettleIsFinish(cfg: Config, g: Gateway.World, r: nat, bill: Bill, up: Upstream, worker: string, fault: Fault)
    requires Gateway.InStage(g, r, false) && Billed(g.requests[r], bill)
    ensures var row, t := RunRowOf(bill, up, worker), g.requests[r].stage.ticket;
            Gateway.Happen(cfg, g, Gateway.Finish(r, row, fault))
            == Gateway.World(Next(cfg, g.sched, Step.Release(t)),
                             Recorded(g.tables, Attempt(row, bill.period, fault)),
                             g.requests[r := g.requests[r].(stage := Gateway.Settled(t, fault == NoFault))])
  {
    hide Next, Recorded, OutcomeOf;
    var row := RunRowOf(bill, up, worker);
    assert Gateway.RowFor(g.requests[r], row) == row;
  }
}
