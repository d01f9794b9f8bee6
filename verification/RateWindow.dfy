/** The sliding-window rate limit against its full history. The clock is a
    non-decreasing real. */
module RateWindow {

  datatype Hit = Hit(key: string, time: real)

  /** The times of this key's hits from `lo` on, oldest first. */
  function TimesFrom(h: seq<Hit>, key: string, lo: real): seq<real> {
    if h == [] then []
    else
      var last := h[|h| - 1];
      var rest := TimesFrom(h[..|h| - 1], key, lo);
      if last.key == key && last.time >= lo then rest + [last.time] else rest
  }

  /** How many hits of this key fall in the closed window [lo, hi]. */
  function CountIn(h: seq<Hit>, key: string, lo: real, hi: real): nat {
    if h == [] then 0
    else
      var last := h[|h| - 1];
      CountIn(h[..|h| - 1], key, lo, hi) + if last.key == key && lo <= last.time <= hi then 1 else 0
  }

  ghost predicate Ascending(times: seq<real>) {
    forall i, j :: 0 <= i < j < |times| ==> times[i] <= times[j]
  }

  ghost predicate UpTo(h: seq<Hit>, now: real) {
    && (forall i :: 0 <= i < |h| ==> h[i].time <= now)
    && (forall i, j :: 0 <= i < j < |h| ==> h[i].time <= h[j].time)
  }

  /** Drop from the front while it is older than `lo`. */
  function Pruned(times: seq<real>, lo: real): seq<real> {
    if times != [] && times[0] < lo then Pruned(times[1..], lo) else times
  }

  lemma {:induction false} TimesBounds(h: seq<Hit>, key: string, lo: real, now: real)
    requires UpTo(h, now)
    ensures var q := TimesFrom(h, key, lo);
            Ascending(q) && forall i :: 0 <= i < |q| ==> lo <= q[i] <= now
  {
    if h != [] {
      TimesBounds(h[..|h| - 1], key, lo, h[|h| - 1].time);
    }
  }

  lemma {:induction false} PrunedAppend(times: seq<real>, t: real, lo: real)
    requires Ascending(times) && forall i :: 0 <= i < |times| ==> times[i] <= t
    ensures Pruned(times + [t], lo) == if t >= lo then Pruned(times, lo) + [t] else []
  {
    if times == [] {
      assert [t][1..] == [];
    } else if times[0] < lo {
      assert (times + [t])[1..] == times[1..] + [t];
      PrunedAppend(times[1..], t, lo);
    }
  }

  /** Pruning by an advancing cut is filtering the whole history. */
  lemma {:induction false} PruneIsFilter(h: seq<Hit>, key: string, cut: real, lo: real, now: real)
    requires UpTo(h, now) && cut <= lo
    ensures Pruned(TimesFrom(h, key, cut), lo) == TimesFrom(h, key, lo)
  {
    if h != [] {
      var init, last := h[..|h| - 1], h[|h| - 1];
      PruneIsFilter(init, key, cut, lo, last.time);
      TimesBounds(init, key, cut, last.time);
      TimesBounds(init, key, lo, last.time);
      var q := TimesFrom(init, key, lo);
      assert q != [] ==> lo <= q[0] <= last.time;
      if last.key == key && last.time >= cut {
        PrunedAppend(TimesFrom(init, key, cut), last.time, lo);
      }
    }
  }

  lemma {:induction false} CountIsTimes(h: seq<Hit>, key: string, lo: real, hi: real, now: real)
    requires UpTo(h, now)
    ensures CountIn(h, key, lo, hi) <= |TimesFrom(h, key, lo)|
    ensures hi >= now ==> CountIn(h, key, lo, hi) == |TimesFrom(h, key, lo)|
  {
    if h != [] {
      CountIsTimes(h[..|h| - 1], key, lo, hi, h[|h| - 1].time);
    }
  }

  lemma {:induction false} TimesShrink(h: seq<Hit>, key: string, lo: real, lo': real)
    requires lo <= lo'
    ensures |TimesFrom(h, key, lo')| <= |TimesFrom(h, key, lo)|
  {
    if h != [] {
      TimesShrink(h[..|h| - 1], key, lo, lo');
    }
  }

  // --- The limiter on its full history -----------------------------------------------------

  datatype Call = Call(key: string, now: real)

  /** Accept a call exactly if its own window holds fewer than `limit` accepted hits. */
  function Decide(limit: int, window: real, h: seq<Hit>, call: Call): seq<Hit> {
    if CountIn(h, call.key, call.now - window, call.now) >= limit then h
    else h + [Hit(call.key, call.now)]
  }

  /** A call is refused exactly if the window up to it already holds `limit` accepted hits of
      its key; an accepted one is the only new hit. */
  lemma RefusedExactly(limit: int, window: real, h: seq<Hit>, call: Call)
    ensures Decide(limit, window, h, call) == h <==> CountIn(h, call.key, call.now - window, call.now) >= limit
    ensures Decide(limit, window, h, call) in {h, h + [Hit(call.key, call.now)]}
  {
    hide CountIn;
    assert |h + [Hit(call.key, call.now)]| > |h|;
  }

  function DecideAll(limit: int, window: real, calls: seq<Call>): seq<Hit> {
    if calls == [] then []
    else Decide(limit, window, DecideAll(limit, window, calls[..|calls| - 1]), calls[|calls| - 1])
  }

  ghost predicate Clocked(calls: seq<Call>) {
    forall i, j :: 0 <= i < j < |calls| ==> calls[i].now <= calls[j].now
  }

  function Allowance(limit: int): nat {
    if limit < 0 then 0 else limit
  }

  lemma {:induction false} DecidedUpTo(limit: int, window: real, calls: seq<Call>, now: real)
    requires Clocked(calls) && forall i :: 0 <= i < |calls| ==> calls[i].now <= now
    ensures UpTo(DecideAll(limit, window, calls), now)
  {
    if calls != [] {
      DecidedUpTo(limit, window, calls[..|calls| - 1], calls[|calls| - 1].now);
    }
  }

  lemma CountAppend(h: seq<Hit>, hit: Hit, key: string, lo: real, hi: real)
    ensures CountIn(h + [hit], key, lo, hi)
         == CountIn(h, key, lo, hi) + if hit.key == key && lo <= hit.time <= hi then 1 else 0
  {
    assert (h + [hit])[..|h|] == h;
  }

  lemma CountNone(key: string, lo: real, hi: real)
    ensures CountIn([], key, lo, hi) == 0
  {
  }

  /** A window that holds the new hit lies within reach of the one it was admitted by. */
  lemma WindowContained(h: seq<Hit>, key: string, lo: real, window: real, now: real)
    requires UpTo(h, now) && lo <= now <= lo + window
    ensures CountIn(h, key, lo, lo + window) <= CountIn(h, key, now - window, now)
  {
    CountIsTimes(h, key, lo, lo + window, now);
    TimesShrink(h, key, now - window, lo);
    CountIsTimes(h, key, now - window, now, now);
  }

  /** No closed window of the configured length, wherever it starts, ever holds more than
      `limit` accepted hits of a key. */
  lemma {:induction false} NeverOverLimit(limit: int, window: real, calls: seq<Call>, key: string, lo: real)
    requires Clocked(calls)
    ensures CountIn(DecideAll(limit, window, calls), key, lo, lo + window) <= Allowance(limit)
  {
    hide CountIn, UpTo;
    if calls == [] {
      CountNone(key, lo, lo + window);
    } else {
      var init, call := calls[..|calls| - 1], calls[|calls| - 1];
      var h := DecideAll(limit, window, init);
      NeverOverLimit(limit, window, init, key, lo);
      DecidedUpTo(limit, window, init, call.now);
      if CountIn(h, call.key, call.now - window, call.now) < limit {
        CountAppend(h, Hit(call.key, call.now), key, lo, lo + window);
        if call.key == key && lo <= call.now <= lo + window {
          WindowContained(h, key, lo, window, call.now);
        }
      }
    }
  }

  // --- The limiter as it runs, with one deque per key ---------------------------------------

  /** Each deque is the history of its key from the point where it was last cut. */
  ghost predicate Tracks(hits: map<string, seq<real>>, cuts: map<string, real>, h: seq<Hit>, latest: real) {
    && hits.Keys == cuts.Keys
    && (forall k :: k in hits ==> cuts[k] <= latest && hits[k] == TimesFrom(h, k, cuts[k]))
    && (forall i :: 0 <= i < |h| ==> h[i].key in hits)
  }

  lemma TracksCut(hits: map<string, seq<real>>, cuts: map<string, real>, h: seq<Hit>, latest: real,
                  key: string, lo: real)
    requires Tracks(hits, cuts, h, latest) && latest <= lo
    ensures Tracks(hits[key := TimesFrom(h, key, lo)], cuts[key := lo], h, lo)
  {
  }

  /** A new hit goes to the deque of its own key and to no other. */
  lemma TracksHit(hits: map<string, seq<real>>, cuts: map<string, real>, h: seq<Hit>, latest: real,
                  hit: Hit, lo: real)
    requires Tracks(hits, cuts, h, latest) && latest <= lo <= hit.time
    ensures TimesFrom(h + [hit], hit.key, lo) == TimesFrom(h, hit.key, lo) + [hit.time]
    ensures Tracks(hits[hit.key := TimesFrom(h + [hit], hit.key, lo)], cuts[hit.key := lo], h + [hit], lo)
  {
    Extend(h, hit, hit.key, lo);
    forall k | k in hits && k != hit.key
      ensures TimesFrom(h + [hit], k, cuts[k]) == hits[k]
    {
      Extend(h, hit, k, cuts[k]);
    }
    hide TimesFrom;
    var h' := h + [hit];
    forall i | 0 <= i < |h'|
      ensures h'[i].key in hits || h'[i].key == hit.key
    {
      assert i < |h| ==> h'[i] == h[i];
    }
  }

  /** What pruning a deque, or starting with an empty one, leaves. */
  lemma PruneTracked(hits: map<string, seq<real>>, cuts: map<string, real>, h: seq<Hit>, latest: real,
                     key: string, lo: real, now: real)
    requires Tracks(hits, cuts, h, latest) && latest <= lo && UpTo(h, now)
    ensures Pruned(if key in hits then hits[key] else [], lo) == TimesFrom(h, key, lo)
  {
    if key in hits {
      PruneIsFilter(h, key, cuts[key], lo, now);
    } else {
      NoTimes(h, key, lo);
    }
  }

  class RateWindow {
    const limit: int
    const window: real
    var hits: map<string, seq<real>>

    /** Every accepted hit, the latest call's time, and where each deque was last cut. */
    ghost var history: seq<Hit>
    ghost var clock: real
    ghost var cuts: map<string, real>

    ghost predicate Valid()
      reads this
    {
      window >= 0.0 && UpTo(history, clock) && Tracks(hits, cuts, history, clock - window)
    }

    constructor (limit: int, window: real, now: real)
      requires window >= 0.0
      ensures Valid() && history == [] && clock == now && this.limit == limit && this.window == window
    {
      this.limit, this.window := limit, window;
      hits, history, clock, cuts := map[], [], now, map[];
    }

    /** Prune, then refuse or record. The deque is then exactly the accepted hits of the
        key in [now - window, now], and the answer is that of the full history. */
    method Allow(key: string, now: real) returns (ok: bool)
      requires Valid() && clock <= now
      modifies this
      ensures Valid() && clock == now
      ensures history == Decide(limit, window, old(history), Call(key, now))
      ensures ok <==> history == old(history) + [Hit(key, now)]
      ensures ok <==> CountIn(old(history), key, now - window, now) < limit
      ensures key in hits && hits[key] == TimesFrom(history, key, now - window)
      ensures forall k :: k in old(hits) && k != key ==> k in hits && hits[k] == old(hits)[k]
    {
      hide TimesFrom, CountIn, Pruned, Tracks, UpTo;
      ghost var lo, h, latest := now - window, history, clock - window;
      UpToLater(h, clock, now);
      PruneTracked(hits, cuts, h, latest, key, lo, now);
      var q := if key in hits then hits[key] else [];
      while q != [] && q[0] < now - window
        invariant Pruned(q, lo) == TimesFrom(h, key, lo)
        modifies {}
      {
        PruneStep(q, lo);
        q := q[1..];
      }
      PruneStep(q, lo);
      CountIsTimes(h, key, lo, now, now);
      ok := |q| < limit;
      if ok {
        q := q + [now];
        TracksHit(hits, cuts, h, latest, Hit(key, now), lo);
        UpToHit(h, Hit(key, now));
        history := history + [Hit(key, now)];
      } else {
        TracksCut(hits, cuts, h, latest, key, lo);
      }
      hits, cuts, clock := hits[key := q], cuts[key := lo], now;
    }
  }

  lemma UpToLater(h: seq<Hit>, clock: real, now: real)
    requires UpTo(h, clock) && clock <= now
    ensures UpTo(h, now)
  {
  }

  lemma UpToHit(h: seq<Hit>, hit: Hit)
    requires UpTo(h, hit.time)
    ensures UpTo(h + [hit], hit.time)
  {
  }

  lemma PruneStep(times: seq<real>, lo: real)
    ensures Pruned(times, lo) == if times != [] && times[0] < lo then Pruned(times[1..], lo) else times
  {
  }

  lemma {:induction false} NoTimes(h: seq<Hit>, key: string, lo: real)
    requires forall i :: 0 <= i < |h| ==> h[i].key != key
    ensures TimesFrom(h, key, lo) == []
  {
    if h != [] {
      NoTimes(h[..|h| - 1], key, lo);
    }
  }

  lemma Extend(h: seq<Hit>, hit: Hit, key: string, lo: real)
    ensures TimesFrom(h + [hit], key, lo)
         == if hit.key == key && hit.time >= lo then TimesFrom(h, key, lo) + [hit.time] else TimesFrom(h, key, lo)
  {
    assert (h + [hit])[..|h|] == h;
  }
}
