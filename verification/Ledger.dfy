/** Engine time: `runs` is the audit trail, `usage` the running total per client and
    period that admission reads. Tables are sequences of rows. */
module Ledger {

  datatype RunRow = RunRow(client: string, plan: string, path: string, seconds: real, status: string,
                           worker: string, requestId: string, queueSeconds: real)

  datatype UsageRow = UsageRow(client: string, period: string, seconds: real, calls: nat)

  /** At which statement of the transaction the database fails, if at all. */
  datatype Fault = NoFault | AtInsert | AtUpsert | AtCommit

  predicate HasKey(row: UsageRow, client: string, period: string) {
    row.client == client && row.period == period
  }

  /** PRIMARY KEY (client, period). */
  ghost predicate UniqueKeys(usage: seq<UsageRow>) {
    forall i, j :: 0 <= i < j < |usage| ==> !HasKey(usage[i], usage[j].client, usage[j].period)
  }

  function Used(usage: seq<UsageRow>, client: string, period: string): real {
    if usage == [] then 0.0
    else if HasKey(usage[0], client, period) then usage[0].seconds
    else Used(usage[1..], client, period)
  }

  /** Add to the row of this key, or append a new row. */
  function Upserted(usage: seq<UsageRow>, client: string, period: string, seconds: real): seq<UsageRow> {
    if usage == [] then [UsageRow(client, period, seconds, 1)]
    else if HasKey(usage[0], client, period) then
      [usage[0].(seconds := usage[0].seconds + seconds, calls := usage[0].calls + 1)] + usage[1..]
    else [usage[0]] + Upserted(usage[1..], client, period, seconds)
  }

  function RunSeconds(runs: seq<RunRow>, client: string): real {
    if runs == [] then 0.0
    else RunSeconds(runs[..|runs| - 1], client)
         + if runs[|runs| - 1].client == client then runs[|runs| - 1].seconds else 0.0
  }

  function RunCount(runs: seq<RunRow>, client: string): nat {
    if runs == [] then 0
    else RunCount(runs[..|runs| - 1], client) + if runs[|runs| - 1].client == client then 1 else 0
  }

  /** Over all periods. */
  function UsageSeconds(usage: seq<UsageRow>, client: string): real {
    if usage == [] then 0.0
    else (if usage[0].client == client then usage[0].seconds else 0.0) + UsageSeconds(usage[1..], client)
  }

  function UsageCalls(usage: seq<UsageRow>, client: string): nat {
    if usage == [] then 0
    else (if usage[0].client == client then usage[0].calls else 0) + UsageCalls(usage[1..], client)
  }

  /** The two tables tell the same story for every client. */
  ghost predicate Balanced(runs: seq<RunRow>, usage: seq<UsageRow>) {
    forall c :: RunSeconds(runs, c) == UsageSeconds(usage, c) && RunCount(runs, c) == UsageCalls(usage, c)
  }

  lemma {:induction false} UpsertKeys(usage: seq<UsageRow>, client: string, period: string, seconds: real)
    requires UniqueKeys(usage)
    ensures var u := Upserted(usage, client, period, seconds);
            && UniqueKeys(u)
            && forall r :: r in u ==> HasKey(r, client, period) || r in usage
  {
    if usage != [] && !HasKey(usage[0], client, period) {
      UpsertKeys(usage[1..], client, period, seconds);
      var rest := Upserted(usage[1..], client, period, seconds);
      forall j | 0 <= j < |rest|
        ensures !HasKey(usage[0], rest[j].client, rest[j].period)
      {
        assert rest[j] in rest;
      }
    }
  }

  /** An upsert adds the charge to its own key and to nothing else. */
  lemma {:induction false} UpsertUsed(usage: seq<UsageRow>, client: string, period: string, seconds: real,
                                      c: string, p: string)
    ensures Used(Upserted(usage, client, period, seconds), c, p)
         == Used(usage, c, p) + if c == client && p == period then seconds else 0.0
  {
    if usage != [] && !HasKey(usage[0], client, period) {
      UpsertUsed(usage[1..], client, period, seconds, c, p);
    }
  }

  lemma {:induction false} UpsertSums(usage: seq<UsageRow>, client: string, period: string, seconds: real, c: string)
    ensures var u := Upserted(usage, client, period, seconds);
            && UsageSeconds(u, c) == UsageSeconds(usage, c) + (if c == client then seconds else 0.0)
            && UsageCalls(u, c) == UsageCalls(usage, c) + (if c == client then 1 else 0)
  {
    if usage != [] && !HasKey(usage[0], client, period) {
      UpsertSums(usage[1..], client, period, seconds, c);
    }
  }

  lemma RecordBalances(runs: seq<RunRow>, usage: seq<UsageRow>, run: RunRow, period: string)
    requires Balanced(runs, usage)
    ensures Balanced(runs + [run], Upserted(usage, run.client, period, run.seconds))
  {
    assert (runs + [run])[..|runs|] == runs;
    forall c
      ensures var u := Upserted(usage, run.client, period, run.seconds);
              RunSeconds(runs + [run], c) == UsageSeconds(u, c) && RunCount(runs + [run], c) == UsageCalls(u, c)
    {
      UpsertSums(usage, run.client, period, run.seconds, c);
    }
  }

  // --- Any sequence of records --------------------------------------------------------------

  datatype Tables = Tables(runs: seq<RunRow>, usage: seq<UsageRow>)

  datatype Attempt = Attempt(run: RunRow, period: string, fault: Fault)

  function Recorded(t: Tables, a: Attempt): Tables {
    if a.fault != NoFault then t
    else Tables(t.runs + [a.run], Upserted(t.usage, a.run.client, a.period, a.run.seconds))
  }

  /** A successful record adds its row to `runs` and its seconds to the total of its own client
      and period; a failed one changes nothing. */
  lemma RecordMoves(t: Tables, a: Attempt, c: string, p: string)
    ensures var t' := Recorded(t, a);
            && t'.runs == (if a.fault == NoFault then t.runs + [a.run] else t.runs)
            && Used(t'.usage, c, p) == Used(t.usage, c, p)
               + (if a.fault == NoFault && c == a.run.client && p == a.period then a.run.seconds else 0.0)
            && (a.fault != NoFault ==> t'.usage == t.usage)
  {
    UpsertUsed(t.usage, a.run.client, a.period, a.run.seconds, c, p);
  }

  function RecordAll(t: Tables, attempts: seq<Attempt>): Tables
    decreases |attempts|
  {
    if attempts == [] then t else RecordAll(Recorded(t, attempts[0]), attempts[1..])
  }

  /** After any sequence of successful or rolled-back records, the sum over all periods
      of a client's usage is the sum of its runs, in seconds and in calls. */
  lemma {:induction false} RecordsConserve(t: Tables, attempts: seq<Attempt>)
    requires UniqueKeys(t.usage) && Balanced(t.runs, t.usage)
    ensures var t' := RecordAll(t, attempts); UniqueKeys(t'.usage) && Balanced(t'.runs, t'.usage)
    decreases |attempts|
  {
    if attempts != [] {
      var a := attempts[0];
      if a.fault == NoFault {
        UpsertKeys(t.usage, a.run.client, a.period, a.run.seconds);
        RecordBalances(t.runs, t.usage, a.run, a.period);
      }
      RecordsConserve(Recorded(t, a), attempts[1..]);
    }
  }

  // --- The row a scan of the table stops at ----------------------------------------------------

  lemma {:induction false} UpsertAt(usage: seq<UsageRow>, client: string, period: string, seconds: real, i: nat)
    requires i <= |usage| && (forall j :: 0 <= j < i ==> !HasKey(usage[j], client, period))
    requires i < |usage| ==> HasKey(usage[i], client, period)
    ensures Upserted(usage, client, period, seconds) ==
              if i < |usage| then
                usage[i := usage[i].(seconds := usage[i].seconds + seconds, calls := usage[i].calls + 1)]
              else usage + [UsageRow(client, period, seconds, 1)]
  {
    hide HasKey;
    if i > 0 {
      UpsertAt(usage[1..], client, period, seconds, i - 1);
      assert usage == [usage[0]] + usage[1..];
    } else if i < |usage| {
      assert usage == [usage[0]] + usage[1..];
    }
  }

  lemma {:induction false} UsedAt(usage: seq<UsageRow>, client: string, period: string, i: nat)
    requires i <= |usage| && (forall j :: 0 <= j < i ==> !HasKey(usage[j], client, period))
    requires i < |usage| ==> HasKey(usage[i], client, period)
    ensures Used(usage, client, period) == if i < |usage| then usage[i].seconds else 0.0
  {
    hide HasKey;
    if i > 0 {
      UsedAt(usage[1..], client, period, i - 1);
    }
  }

  class Ledger {
    var runs: seq<RunRow>
    var usage: seq<UsageRow>

    ghost predicate Valid()
      reads this
    {
      UniqueKeys(usage) && Balanced(runs, usage)
    }

    ghost function Contents(): Tables
      reads this
    {
      Tables(runs, usage)
    }

    constructor ()
      ensures Valid() && Contents() == Tables([], [])
    {
      runs, usage := [], [];
    }

    /** One transaction: both tables change, or after a failure neither does. */
    method Record(run: RunRow, period: string, fault: Fault) returns (ok: bool)
      requires Valid()
      modifies this
      ensures Valid() && ok == (fault == NoFault)
      ensures Contents() == Recorded(old(Contents()), Attempt(run, period, fault))
    {
      var runs0, usage0 := runs, usage;
      UpsertKeys(usage, run.client, period, run.seconds);
      RecordBalances(runs, usage, run, period);
      hide Balanced, UniqueKeys;
      ok := fault != AtInsert;
      if ok {
        runs := runs + [run];
        ok := fault != AtUpsert;
      }
      if ok {
        UpsertUsage(run.client, period, run.seconds);
        ok := fault != AtCommit;
      }
      if !ok {
        runs, usage := runs0, usage0;
      }
    }

    /** INSERT ... ON CONFLICT(client, period) DO UPDATE. */
    method UpsertUsage(client: string, period: string, seconds: real)
      modifies this`usage
      ensures usage == Upserted(old(usage), client, period, seconds)
    {
      hide Upserted, HasKey;
      var i := 0;
      while i < |usage| && !HasKey(usage[i], client, period)
        invariant i <= |usage| && forall j :: 0 <= j < i ==> !HasKey(usage[j], client, period)
        modifies {}
      {
        i := i + 1;
      }
      UpsertAt(usage, client, period, seconds, i);
      if i < |usage| {
        var row := usage[i];
        usage := usage[i := row.(seconds := row.seconds + seconds, calls := row.calls + 1)];
      } else {
        usage := usage + [UsageRow(client, period, seconds, 1)];
      }
    }

    /** `used`: the stored total, zero without a row. */
    method UsedBy(client: string, period: string) returns (total: real)
      ensures total == Used(usage, client, period)
    {
      hide Used, HasKey;
      var i := 0;
      while i < |usage| && !HasKey(usage[i], client, period)
        invariant i <= |usage| && forall j :: 0 <= j < i ==> !HasKey(usage[j], client, period)
      {
        i := i + 1;
      }
      UsedAt(usage, client, period, i);
      total := if i < |usage| then usage[i].seconds else 0.0;
    }
  }
}
