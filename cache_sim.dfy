/**
 * The cache cold-start simulator: a least-recently-used cache primed with
 * the most popular keys, a backend that serves at most a fixed number of
 * requests per one-second window, and hit/miss counters reported once a
 * second.
 */
module CacheSim {

  import opened Kernel

  /** No key occurs twice. */
  predicate Distinct(s: seq<int>)
  {
    forall i, j :: 0 <= i < j < |s| ==> s[i] != s[j]
  }

  /** `s` without `k`, every other key kept in order. */
  function Without(s: seq<int>, k: int): (r: seq<int>)
    ensures forall j :: j in r <==> j in s && j != k
    ensures k !in s ==> r == s
  {
    if s == [] then []
    else if s[0] == k then Without(s[1..], k)
    else [s[0]] + Without(s[1..], k)
  }

  /**
   * On a sequence without repeats, taking a present key out removes exactly
   * one entry, keeps the rest free of repeats, and putting the key back at
   * the end gives a reordering of the same keys.
   */
  lemma {:induction false} WithoutDistinct(s: seq<int>, k: int)
    requires Distinct(s)
    ensures Distinct(Without(s, k))
    ensures k in s ==> |Without(s, k)| == |s| - 1 && multiset(Without(s, k)) + multiset{k} == multiset(s)
  {
    if s != [] {
      assert s == [s[0]] + s[1..];
      assert s[0] !in s[1..];
      WithoutDistinct(s[1..], k);
    }
  }

  /** The map after storing `v` under `k`, when there is a value to store. */
  function Store(m: map<int, bool>, k: int, v: Option<bool>): (r: map<int, bool>)
    ensures v.None? ==> r == m
    ensures v.Some? ==> k in r && r[k] == v.value
    ensures forall j :: j != k ==> (j in r <==> j in m) && (j in r ==> r[j] == m[j])
  {
    if v.Some? then m[k := v.value] else m
  }

  /**
   * Least-recently-used cache. `order` lists the cached keys from least to
   * most recently used (the insertion order of the underlying ordered
   * dictionary); `values` holds what is cached under each of them.
   */
  class LRU {
    const capacity: nat
    var order: seq<int>
    var values: map<int, bool>

    /** Never more keys than the capacity, each once, and exactly the keys that hold a value. */
    ghost predicate Valid()
      reads this
    {
      |order| <= capacity && Distinct(order) && (forall j :: j in values <==> j in order)
    }

    /** The cache starts full with keys 1 .. capacity, oldest first, each holding true. */
    constructor (capacity: nat)
      ensures this.capacity == capacity
      ensures |order| == capacity && forall i :: 0 <= i < capacity ==> order[i] == i + 1
      ensures forall j :: j in values ==> values[j]
      ensures Valid()
    {
      var keys, cached := [], map[];
      for i := 0 to capacity
        invariant |keys| == i && forall n :: 0 <= n < i ==> keys[n] == n + 1
        invariant forall j :: j in cached <==> j in keys
        invariant forall j :: j in cached ==> cached[j]
      {
        keys, cached := keys + [i + 1], cached[i + 1 := true];
      }
      this.capacity := capacity;
      order, values := keys, cached;
    }

    /**
     * Caching `v` under `k`. A key already present keeps its OLD value (the
     * result), moves to the most-recently-used end and nothing is evicted.
     * An absent key first evicts the least recently used key when the cache
     * is full, and is then stored only when `v` is a value. The result is
     * the value now associated with `k`, if any.
     */
    method Put(k: int, v: Option<bool>) returns (r: Option<bool>)
      requires Valid() && capacity > 0
      modifies this
      ensures Valid()
      ensures k in old(values) ==>
        r == Some(old(values)[k]) && order == Without(old(order), k) + [k] && values == old(values)
      ensures k !in old(values) && |old(order)| == capacity ==>
        r == v && order == old(order)[1..] + (if v.Some? then [k] else [])
        && values == Store(old(values) - {old(order)[0]}, k, v)
      ensures k !in old(values) && |old(order)| < capacity ==>
        r == v && order == old(order) + (if v.Some? then [k] else []) && values == Store(old(values), k, v)
    {
      r := v;
      if k in values {
        r := Some(values[k]);
        WithoutDistinct(order, k);
        order, values := Without(order, k), values - {k};
      }
      if |order| == capacity {
        order, values := order[1..], values - {order[0]};
      }
      if r.Some? {
        order, values := order + [k], values[k := r.value];
      }
    }

    /**
     * Whether `k` is cached: true exactly when it was present. A hit makes
     * `k` the most recently used key; a miss stores nothing but, on a full
     * cache, still evicts the least recently used key.
     */
    method IsCached(k: int) returns (hit: bool)
      requires Valid() && capacity > 0
      modifies this
      ensures Valid()
      ensures hit <==> k in old(values)
      ensures hit ==> order == Without(old(order), k) + [k] && values == old(values)
      ensures !hit && |old(order)| == capacity ==> order == old(order)[1..] && values == old(values) - {old(order)[0]}
      ensures !hit && |old(order)| < capacity ==> order == old(order) && values == old(values)
    {
      var r := Put(k, None);
      hit := r.Some?;
    }

    /** Emptying the cache. */
    method Flush()
      modifies this
      ensures order == [] && values == map[]
      ensures Valid()
    {
      order, values := [], map[];
    }
  }

  /**
   * A cache of two keys, as primed, then a hit on 1, a miss on 3 and a put
   * of 3. The miss evicts 2 although 3 is not stored, so afterwards the
   * cache holds 1 and 3 with 3 the most recently used.
   */
  method ColdMissScenario() returns (hit1: bool, hit3: bool, order: seq<int>)
    ensures hit1 && !hit3
    ensures order == [1, 3]
  {
    var lru := new LRU(2);
    assert lru.order == [1, 2];
    hit1 := lru.IsCached(1);
    assert Without([1, 2], 1) == [2];
    hit3 := lru.IsCached(3);
    var _ := lru.Put(3, Some(true));
    order := lru.order;
  }

  /**
   * Hit and miss counters over the current reporting interval. The report
   * shows the hit rate, hits divided by hits plus misses.
   */
  class Stats {
    var lastPrint: real
    var hits: int
    var misses: int
    const name: string

    constructor (name: string)
      ensures lastPrint == 0.0 && hits == 0 && misses == 0 && this.name == name
    {
      lastPrint, hits, misses := 0.0, 0, 0;
      this.name := name;
    }

    /**
     * Recording one lookup at `t`. When more than a second has passed since
     * the last report, the counts of the closing interval are reported and
     * a new interval starts at `t`; then exactly one of hits and misses
     * grows. The report divides by the interval's lookups, so there must
     * have been one.
     */
    method AddStats(t: real, isHit: bool) returns (report: Option<(int, int)>)
      requires t - lastPrint > 1.0 ==> hits + misses != 0
      modifies this
      ensures t - old(lastPrint) > 1.0 ==> report == Some((old(hits), old(misses))) && lastPrint == t
      ensures t - old(lastPrint) <= 1.0 ==> report == None && lastPrint == old(lastPrint)
      ensures var base := if report.Some? then (0, 0) else (old(hits), old(misses));
        hits == base.0 + (if isHit then 1 else 0) && misses == base.1 + (if isHit then 0 else 1)
    {
      report := None;
      if t - lastPrint > 1.0 {
        report := Some((hits, misses));
        hits, misses, lastPrint := 0, 0, t;
      }
      if isHit {
        hits := hits + 1;
      } else {
        misses := misses + 1;
      }
    }
  }

  /**
   * Records a run of lookups and collects the reports. Once a lookup has
   * been recorded with non-negative counters, every later report divides by
   * a positive count: only the very first lookup, coming more than a second
   * after the start, could find an empty interval, and the caller rules that
   * out. So every report carries non-negative counts with a positive sum.
   */
  method RecordLookups(s: Stats, ts: seq<real>, isHits: seq<bool>) returns (reported: seq<(int, int)>)
    requires |ts| == |isHits| > 0
    requires s.hits >= 0 && s.misses >= 0
    requires ts[0] - s.lastPrint > 1.0 ==> s.hits + s.misses != 0
    modifies s
    ensures s.hits >= 0 && s.misses >= 0 && s.hits + s.misses > 0
    ensures |reported| <= |ts|
    ensures forall r <- reported :: r.0 >= 0 && r.1 >= 0 && r.0 + r.1 > 0
  {
    reported := [];
    for i := 0 to |ts|
      invariant s.hits >= 0 && s.misses >= 0
      invariant i > 0 ==> s.hits + s.misses > 0
      invariant i == 0 ==> (ts[0] - s.lastPrint > 1.0 ==> s.hits + s.misses != 0)
      invariant |reported| <= i
      invariant forall r <- reported :: r.0 >= 0 && r.1 >= 0 && r.0 + r.1 > 0
    {
      var report := s.AddStats(ts[i], isHits[i]);
      if report.Some? {
        reported := reported + [report.value];
      }
    }
  }

  /**
   * Backend that accepts at most `maxPerSecond` requests per window; a
   * window opens with the first request more than one second after the
   * previous window opened.
   */
  class Backend {
    const maxPerSecond: real
    var lastFlush: real
    var sinceLastFlush: int

    constructor (maxPerSecond: real)
      ensures this.maxPerSecond == maxPerSecond && lastFlush == 0.0 && sinceLastFlush == 0
    {
      this.maxPerSecond := maxPerSecond;
      lastFlush, sinceLastFlush := 0.0, 0;
    }

    /** A request at `t`: it is counted in its window and served while the window's count stays within the limit. */
    method Get(t: real) returns (ok: bool)
      modifies this
      ensures t - old(lastFlush) > 1.0 ==> lastFlush == t && sinceLastFlush == 1
      ensures t - old(lastFlush) <= 1.0 ==> lastFlush == old(lastFlush) && sinceLastFlush == old(sinceLastFlush) + 1
      ensures ok <==> sinceLastFlush as real <= maxPerSecond
    {
      if t - lastFlush > 1.0 {
        sinceLastFlush, lastFlush := 0, t;
      }
      sinceLastFlush := sinceLastFlush + 1;
      ok := sinceLastFlush as real <= maxPerSecond;
    }
  }

  /**
   * `n` requests at one instant `t`: the i-th is served exactly when it is
   * within the limit counting the requests of the window before it, so the
   * served ones form a prefix of the burst.
   */
  method Burst(b: Backend, t: real, n: nat) returns (served: seq<bool>)
    modifies b
    ensures |served| == n
    ensures var before := if n > 0 && t - old(b.lastFlush) > 1.0 then 0 else old(b.sinceLastFlush);
      forall i :: 0 <= i < n ==> (served[i] <==> (before + i + 1) as real <= b.maxPerSecond)
    ensures forall i, j :: 0 <= i < j < n && served[j] ==> served[i]
  {
    served := [];
    ghost var before := old(b.sinceLastFlush);
    while |served| < n
      invariant |served| <= n
      invariant |served| > 0 ==> b.lastFlush == (if t - old(b.lastFlush) > 1.0 then t else old(b.lastFlush))
      invariant |served| > 0 ==> before == (if t - old(b.lastFlush) > 1.0 then 0 else old(b.sinceLastFlush))
      invariant |served| == 0 ==> b.lastFlush == old(b.lastFlush) && b.sinceLastFlush == old(b.sinceLastFlush)
      invariant b.sinceLastFlush == before + |served|
      invariant forall i :: 0 <= i < |served| ==> (served[i] <==> (before + i + 1) as real <= b.maxPerSecond)
    {
      if |served| == 0 && t - b.lastFlush > 1.0 {
        before := 0;
      }
      var ok := b.Get(t);
      served := served + [ok];
    }
  }
}
