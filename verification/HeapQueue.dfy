/** The contract of `heapq` on waiters. Each method leaves any heap with the right
    contents, so what is proved of its callers holds for every heap layout. */
module HeapQueue {
  import opened Jobs
  import opened SchedulerState
  import opened SchedulerInvariant

  predicate InPlace(h: seq<Waiter>, i: nat)
    requires 0 < i < |h|
  {
    !Before(h[i], h[(i - 1) / 2])
  }

  predicate IsHeap(h: seq<Waiter>) {
    forall i :: 0 < i < |h| ==> InPlace(h, i)
  }

  /** In non-descending order; unlike `Ordered`, without assuming distinct keys. */
  ghost predicate Ascending(q: seq<Waiter>) {
    forall i, j :: 0 <= i < j < |q| ==> !Before(q[j], q[i])
  }

  lemma {:induction false} SlotAscends(q: seq<Waiter>, w: Waiter)
    requires Ascending(q)
    ensures forall j :: 0 <= j < Slot(q, w) ==> !Before(w, q[j])
    ensures forall j :: Slot(q, w) <= j < |q| ==> !Before(q[j], w)
  {
    if q != [] && !Before(w, q[0]) {
      SlotAscends(q[1..], w);
    }
  }

  lemma InsertAscends(q: seq<Waiter>, w: Waiter)
    requires Ascending(q)
    ensures Ascending(Insert(q, w)) && multiset(Insert(q, w)) == multiset(q) + multiset{w}
  {
    hide Slot, Insert, Before;
    SlotAscends(q, w);
    InsertMembers(q, w);
    var k, r := Slot(q, w), Insert(q, w);
    forall i, j | 0 <= i < j < |r|
      ensures !Before(r[j], r[i])
    {
      InsertAt(q, w, i);
      InsertAt(q, w, j);
    }
  }

  /** Any contents can be laid out as a heap. */
  lemma {:induction false} SomeHeap(h: seq<Waiter>) returns (r: seq<Waiter>)
    ensures Ascending(r) && IsHeap(r) && multiset(r) == multiset(h)
  {
    if h == [] {
      r := [];
    } else {
      var s := SomeHeap(h[1..]);
      r := Insert(s, h[0]);
      InsertAscends(s, h[0]);
      assert h == [h[0]] + h[1..];
    }
  }

  /** The root of a heap is its least element. */
  lemma {:induction false} RootIsLeast(h: seq<Waiter>, i: nat)
    requires IsHeap(h) && i < |h|
    ensures !Before(h[i], h[0])
    ensures h[0].priority < h[i].priority || (h[0].priority == h[i].priority && h[0].ticket <= h[i].ticket)
    decreases i
  {
    if i > 0 {
      assert InPlace(h, i);
      RootIsLeast(h, (i - 1) / 2);
    }
  }

  method Heapify(h: seq<Waiter>) returns (r: seq<Waiter>)
    ensures IsHeap(r) && multiset(r) == multiset(h)
  {
    ghost var w := SomeHeap(h);
    r :| IsHeap(r) && multiset(r) == multiset(h);
  }

  method HeapPush(h: seq<Waiter>, x: Waiter) returns (r: seq<Waiter>)
    requires IsHeap(h)
    ensures IsHeap(r) && multiset(r) == multiset(h) + multiset{x}
  {
    r := Heapify(h + [x]);
  }

  method HeapPop(h: seq<Waiter>) returns (x: Waiter, r: seq<Waiter>)
    requires IsHeap(h) && h != []
    ensures x in h && forall y :: y in h ==> !Before(y, x)
    ensures IsHeap(r) && multiset(h) == multiset(r) + multiset{x} && |r| == |h| - 1
  {
    x := h[0];
    forall y | y in h
      ensures !Before(y, x)
    {
      var i :| 0 <= i < |h| && h[i] == y;
      RootIsLeast(h, i);
    }
    assert h == [x] + h[1..];
    r := Heapify(h[1..]);
    assert |multiset(r)| == |multiset(h[1..])|;
  }

  // --- A heap that lays out a known ordered queue -----------------------------------------

  ghost predicate Layout(h: seq<Waiter>, q: seq<Waiter>) {
    IsHeap(h) && multiset(h) == multiset(q)
  }

  lemma LayoutMembers(h: seq<Waiter>, q: seq<Waiter>)
    requires Layout(h, q)
    ensures |h| == |q| && forall w :: w in h <==> w in q
  {
    assert |multiset(h)| == |h| && |multiset(q)| == |q|;
    assert forall w :: w in h <==> w in multiset(h);
    assert forall w :: w in q <==> w in multiset(q);
  }

  lemma LayoutPush(h: seq<Waiter>, q: seq<Waiter>, x: Waiter, h': seq<Waiter>)
    requires Layout(h, q) && IsHeap(h') && multiset(h') == multiset(h) + multiset{x}
    ensures Layout(h', Insert(q, x))
  {
    InsertMembers(q, x);
  }

  /** The least element of an ordered queue is its first. */
  lemma LeastIsFirst(q: seq<Waiter>, x: Waiter, others: multiset<Waiter>)
    requires Ordered(q) && multiset(q) == others + multiset{x}
    requires forall y :: y in q ==> !Before(y, x)
    ensures q != [] && q[0] == x && multiset(q[1..]) == others
  {
    assert x in multiset(q);
    var i :| 0 <= i < |q| && q[i] == x;
    assert q[0] in q;
    assert i == 0;
    assert q == [x] + q[1..];
    assert multiset(q) == multiset{x} + multiset(q[1..]);
    assert multiset(q[1..]) == multiset(q) - multiset{x};
    assert others == multiset(q) - multiset{x};
  }

  /** Popping the heap yields the queue in order. */
  method PopFirst(h: seq<Waiter>, ghost q: seq<Waiter>) returns (x: Waiter, r: seq<Waiter>)
    requires Layout(h, q) && Ordered(q) && h != []
    ensures q != [] && x == q[0] && Layout(r, q[1..]) && |r| == |h| - 1
  {
    LayoutMembers(h, q);
    x, r := HeapPop(h);
    LeastIsFirst(q, x, multiset(r));
  }
}
