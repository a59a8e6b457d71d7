/**
 * The discrete-event kernel shared by every simulator: an event is a time plus
 * the handler it names, the pending events form a queue from which the loop
 * always removes an earliest one, and the events a handler returns (a list,
 * or nothing at all) are added back.
 *
 * The queue is kept as a sequence; only its multiset of events and the
 * minimality of what is removed matter (the binary-heap layout is not
 * modelled, and neither is the order among events of equal time).
 */
module Kernel {

  datatype Option<T> = None | Some(value: T)

  /** A scheduled unit of work: when it fires and which handler (with payload) it names. */
  datatype Event<K> = Event(time: real, kind: K)

  /** No event of `q` is scheduled before `t`. */
  predicate NoneBefore<K>(q: seq<Event<K>>, t: real)
  {
    forall i :: 0 <= i < |q| ==> t <= q[i].time
  }

  /** The times of a run's dispatched events never go backwards. */
  predicate Sorted(ts: seq<real>)
  {
    forall i, j :: 0 <= i < j < |ts| ==> ts[i] <= ts[j]
  }

  /** The simulated clock after dispatching `trace`: the last dispatched time, 0.0 before the first. */
  function Clock(trace: seq<real>): real
  {
    if trace == [] then 0.0 else trace[|trace| - 1]
  }

  /**
   * The loops test the time of the PREVIOUSLY dispatched event against the
   * horizon, so only the last dispatched event may lie at or past it.
   */
  predicate WithinHorizon(trace: seq<real>, maxT: real)
  {
    forall i :: 0 <= i < |trace| - 1 ==> trace[i] < maxT
  }

  /** Index of an earliest event of a non-empty queue. */
  function MinIndex<K>(q: seq<Event<K>>): (m: nat)
    requires |q| > 0
    ensures m < |q|
    ensures forall j :: 0 <= j < |q| ==> q[m].time <= q[j].time
  {
    if |q| == 1 then 0
    else
      var m := MinIndex(q[1..]);
      assert forall j :: 1 <= j < |q| ==> q[1..][j - 1] == q[j];
      if q[0].time <= q[m + 1].time then 0 else m + 1
  }

  /** `q` without its element at index `i`. */
  function RemoveAt<K>(q: seq<Event<K>>, i: nat): (r: seq<Event<K>>)
    requires i < |q|
    ensures |r| == |q| - 1
    ensures multiset(q) == multiset(r) + multiset{q[i]}
  {
    assert q == q[..i] + [q[i]] + q[i + 1..];
    q[..i] + q[i + 1..]
  }

  /**
   * Removing the next event: the popped event is one of the queue's, it is
   * scheduled no later than any event left behind, and nothing else is lost.
   */
  function PopMin<K>(q: seq<Event<K>>): (p: (Event<K>, seq<Event<K>>))
    requires |q| > 0
    ensures multiset(q) == multiset(p.1) + multiset{p.0}
    ensures p.0 in q
    ensures |p.1| == |q| - 1
    ensures NoneBefore(p.1, p.0.time)
  {
    var m := MinIndex(q);
    var rest := RemoveAt(q, m);
    assert forall e :: e in rest ==> e in multiset(q);
    (q[m], rest)
  }

  /**
   * Adding what a handler returned: a list is appended, an absent result adds
   * nothing, so the queue gains exactly the returned events, and an absent
   * result and an empty list are the same to the loop.
   */
  function Extend<K>(q: seq<Event<K>>, returned: Option<seq<Event<K>>>): (r: seq<Event<K>>)
    ensures |r| == |q| + (if returned.Some? then |returned.value| else 0)
    ensures multiset(r) == multiset(q) + (if returned.Some? then multiset(returned.value) else multiset{})
    ensures returned == Some([]) ==> r == q
  {
    match returned
    case None => q
    case Some(es) => q + es
  }

  /** How many events of `q` name the handler `k`. */
  function KindCount<K(==)>(q: seq<Event<K>>, k: K): nat
  {
    if q == [] then 0
    else (if q[0].kind == k then 1 else 0) + KindCount(q[1..], k)
  }

  lemma {:induction false} KindCountAppend<K>(a: seq<Event<K>>, b: seq<Event<K>>, k: K)
    ensures KindCount(a + b, k) == KindCount(a, k) + KindCount(b, k)
  {
    if a == [] {
      assert a + b == b;
    } else {
      assert (a + b)[1..] == a[1..] + b;
      KindCountAppend(a[1..], b, k);
    }
  }

  lemma KindCountCons<K>(x: Event<K>, s: seq<Event<K>>, k: K)
    ensures KindCount([x] + s, k) == (if x.kind == k then 1 else 0) + KindCount(s, k)
  {
    assert ([x] + s)[1..] == s;
  }

  /** Taking one event out of a queue lowers the count of its handler by one and no other count. */
  lemma {:induction false} KindCountRemoveAt<K>(q: seq<Event<K>>, i: nat, k: K)
    requires i < |q|
    ensures KindCount(q, k) == KindCount(RemoveAt(q, i), k) + (if q[i].kind == k then 1 else 0)
  {
    var front, back := q[..i], q[i + 1..];
    assert KindCount(q, k) == KindCount(front, k) + (if q[i].kind == k then 1 else 0) + KindCount(back, k) by {
      assert q == front + ([q[i]] + back);
      KindCountCons(q[i], back, k);
      KindCountAppend(front, [q[i]] + back, k);
    }
    assert KindCount(RemoveAt(q, i), k) == KindCount(front, k) + KindCount(back, k) by {
      assert RemoveAt(q, i) == front + back;
      KindCountAppend(front, back, k);
    }
  }

  /** Dispatching one event removes exactly one event naming its handler, and no other. */
  lemma {:induction false} KindCountPopMin<K>(q: seq<Event<K>>, k: K)
    requires |q| > 0
    ensures KindCount(q, k) == KindCount(PopMin(q).1, k) + (if PopMin(q).0.kind == k then 1 else 0)
  {
    KindCountRemoveAt(q, MinIndex(q), k);
  }

  /**
   * The clock never runs backwards: when no pending event lies before the
   * clock and the handler only schedules at or after the dispatched time,
   * the dispatched time is at or after the clock and no pending event lies
   * before it afterwards.
   */
  lemma DispatchKeepsClock<K>(q: seq<Event<K>>, clock: real, returned: Option<seq<Event<K>>>)
    requires |q| > 0 && NoneBefore(q, clock)
    requires returned.Some? ==> NoneBefore(returned.value, PopMin(q).0.time)
    ensures clock <= PopMin(q).0.time
    ensures NoneBefore(Extend(PopMin(q).1, returned), PopMin(q).0.time)
  {
    var p := PopMin(q);
    var i :| 0 <= i < |q| && q[i] == p.0;
  }

  /** One loop step's bookkeeping keeps the dispatched times sorted. */
  lemma TraceStaysSorted(trace: seq<real>, t: real)
    requires Sorted(trace)
    requires Clock(trace) <= t || trace == []
    ensures Sorted(trace + [t])
  {
  }
}
