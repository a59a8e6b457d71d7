/**
 * The metastable-collapse simulator: an open stream of clients, each sending
 * one request to a server whose service time grows with the number of
 * requests it is serving. A request that has not been answered within
 * MaxRequestT times out and is retried, up to three attempts in all; an
 * answer or a timeout that belongs to an earlier attempt is ignored.
 * Counters of starts, successes, retries and timeouts are archived once per
 * simulated second.
 */
module CollapseSim {

  import opened Kernel

  const MaxRequestT: real := 3.0
  const BaseServerTime: real := 1.0
  const ServerConcurrencySlope: real := 0.01

  /**
   * The handler an event names. The client handlers (the timeout, the
   * server's start and end, the client's done) carry the client and the
   * attempt number the event belongs to.
   */
  datatype CEvent =
    | PrintStats
    | GenLoad
    | Timeout(client: Client, tryNo: int)
    | Start(client: Client, tryNo: int)
    | End(client: Client, tryNo: int)
    | Done(client: Client, tryNo: int)
  {
    predicate ForClient()
    {
      !PrintStats? && !GenLoad?
    }
  }

  /** One reporting interval: when it started and what happened in it. */
  datatype StatData = StatData(startT: real, runName: string, starts: nat, successes: nat, retries: nat, timeouts: nat)

  /** A retry is always recorded together with the timeout that caused it. */
  predicate Balanced(d: StatData)
  {
    d.retries <= d.timeouts
  }

  /** Counters of the current interval, and the intervals already closed. */
  class Stats {
    var data: StatData
    var history: seq<StatData>

    constructor (runName: string)
      ensures data == StatData(0.0, runName, 0, 0, 0, 0) && history == []
    {
      data := StatData(0.0, runName, 0, 0, 0, 0);
      history := [];
    }

    method Retry()
      modifies this
      ensures data == old(data).(retries := old(data).retries + 1) && history == old(history)
    {
      data := data.(retries := data.retries + 1);
    }

    method Start()
      modifies this
      ensures data == old(data).(starts := old(data).starts + 1) && history == old(history)
    {
      data := data.(starts := data.starts + 1);
    }

    method Success()
      modifies this
      ensures data == old(data).(successes := old(data).successes + 1) && history == old(history)
    {
      data := data.(successes := data.successes + 1);
    }

    method Timeout()
      modifies this
      ensures data == old(data).(timeouts := old(data).timeouts + 1) && history == old(history)
    {
      data := data.(timeouts := data.timeouts + 1);
    }

    /** Closing the interval at `t`: it is archived, a zeroed one starts at `t`, and the next report is a second later. */
    method PrintStats(t: real) returns (evs: seq<Event<CEvent>>)
      modifies this
      ensures history == old(history) + [old(data)]
      ensures data == StatData(t, old(data).runName, 0, 0, 0, 0)
      ensures evs == [Event(t + 1.0, CEvent.PrintStats)]
    {
      history := history + [data];
      data := StatData(t, data.runName, 0, 0, 0, 0);
      evs := [Event(t + 1.0, CEvent.PrintStats)];
    }
  }

  /** The server: its service time grows linearly with the requests it is serving. */
  class Server {
    var concurrency: int

    constructor ()
      ensures concurrency == 0
    {
      concurrency := 0;
    }

    /** A request arrives: one more in service, answered after the base time plus the slope per request in service. */
    method Start(t: real, c: Client, tryNo: int) returns (evs: seq<Event<CEvent>>)
      modifies this
      ensures concurrency == old(concurrency) + 1
      ensures evs == [Event(t + BaseServerTime + concurrency as real * ServerConcurrencySlope, CEvent.End(c, tryNo))]
      ensures old(concurrency) >= 0 ==> t + BaseServerTime < evs[0].time
    {
      concurrency := concurrency + 1;
      evs := [Event(t + BaseServerTime + concurrency as real * ServerConcurrencySlope, CEvent.End(c, tryNo))];
    }

    /** A request is finished: one fewer in service, and the answer reaches the client after the network delay. */
    method End(t: real, c: Client, tryNo: int, netDelay: real) returns (evs: seq<Event<CEvent>>)
      modifies this
      ensures concurrency == old(concurrency) - 1
      ensures evs == [Event(t + netDelay, CEvent.Done(c, tryNo))]
    {
      concurrency := concurrency - 1;
      evs := [Event(t + netDelay, CEvent.Done(c, tryNo))];
    }
  }

  /**
   * A client making one request with up to three attempts. `jitter` selects
   * the variant with exponential backoff and jitter, whose wait before a
   * retry doubles `backoffTime` and draws uniformly below it; the plain
   * client retries at once.
   */
  class Client {
    var retriesLeft: int
    var currentTry: int
    var backoffTime: real
    const server: Server
    const stats: Stats
    const jitter: bool

    constructor (stats: Stats, server: Server, jitter: bool)
      ensures retriesLeft == 3 && currentTry == 0 && backoffTime == 10.0
      ensures this.stats == stats && this.server == server && this.jitter == jitter
    {
      retriesLeft, currentTry, backoffTime := 3, 0, 10.0;
      this.stats, this.server, this.jitter := stats, server, jitter;
    }

    /**
     * Sending the current attempt after `extraDelay`: a timeout for it
     * MaxRequestT later, and its arrival at the server after the network
     * delay. Both name this client and its current attempt.
     */
    function SendReq(t: real, extraDelay: real, netDelay: real): (evs: seq<Event<CEvent>>)
      reads this
      ensures |evs| == 2
      ensures forall e <- evs :: e.kind.ForClient() && e.kind.client == this && e.kind.tryNo == currentTry
      ensures evs[0].kind.Timeout? && evs[0].time == t + extraDelay + MaxRequestT
      ensures evs[1].kind.Start? && evs[1].time == t + extraDelay + netDelay
      ensures extraDelay >= 0.0 && netDelay >= 0.0 ==> NoneBefore(evs, t)
    {
      [Event(t + MaxRequestT + extraDelay, CEvent.Timeout(this, currentTry)),
       Event(t + netDelay + extraDelay, CEvent.Start(this, currentTry))]
    }

    /** A new request: counted as a start, and sent at once. */
    method SendNewReq(t: real, netDelay: real) returns (evs: seq<Event<CEvent>>)
      modifies stats
      ensures stats.data == old(stats.data).(starts := old(stats.data).starts + 1) && stats.history == old(stats.history)
      ensures evs == SendReq(t, 0.0, netDelay)
    {
      stats.Start();
      evs := SendReq(t, 0.0, netDelay);
    }

    /**
     * The wait before a retry, given a uniform draw `u`: none for the plain
     * client; with backoff, the backoff time doubles and the wait is the
     * draw times the doubled backoff.
     */
    method RetryWait(u: real) returns (wait: real)
      modifies this
      ensures retriesLeft == old(retriesLeft) && currentTry == old(currentTry)
      ensures !jitter ==> wait == 0.0 && backoffTime == old(backoffTime)
      ensures jitter ==> backoffTime == 2.0 * old(backoffTime) && wait == Jittered(u, backoffTime)
      ensures jitter && 0.0 <= u < 1.0 && old(backoffTime) > 0.0 ==> 0.0 <= wait < backoffTime
    {
      if jitter {
        backoffTime := backoffTime * 2.0;
        wait := Jittered(u, backoffTime);
      } else {
        wait := 0.0;
      }
    }

    /**
     * The timeout of attempt `tryNo`. A timeout of an earlier attempt
     * changes nothing. The current attempt's timeout is recorded, uses up a
     * retry and moves on to the next attempt; while retries are left it is
     * recorded as a retry and the next attempt is sent after the retry wait.
     */
    method Timeout(t: real, tryNo: int, u: real, netDelay: real) returns (evs: Option<seq<Event<CEvent>>>)
      modifies this, stats
      ensures stats.history == old(stats.history)
      ensures tryNo != old(currentTry) ==>
        evs == None && retriesLeft == old(retriesLeft) && currentTry == old(currentTry)
        && backoffTime == old(backoffTime) && stats.data == old(stats.data)
      ensures tryNo == old(currentTry) ==>
        retriesLeft == old(retriesLeft) - 1 && currentTry == old(currentTry) + 1
        && backoffTime == (if jitter && retriesLeft > 0 then 2.0 * old(backoffTime) else old(backoffTime))
        && stats.data == old(stats.data).(timeouts := old(stats.data).timeouts + 1,
                                           retries := old(stats.data).retries + (if retriesLeft > 0 then 1 else 0))
        && evs == (if retriesLeft > 0 then Some(SendReq(t, if jitter then Jittered(u, backoffTime) else 0.0, netDelay)) else None)
    {
      evs := None;
      if tryNo == currentTry {
        stats.Timeout();
        retriesLeft := retriesLeft - 1;
        currentTry := currentTry + 1;
        if retriesLeft > 0 {
          stats.Retry();
          var wait := RetryWait(u);
          evs := Some(SendReq(t, wait, netDelay));
        }
      }
    }

    /**
     * The server's answer to attempt `tryNo`: counted as a success and
     * closing the attempt when it is the current one, ignored otherwise.
     */
    method Done(t: real, tryNo: int)
      modifies this, stats
      ensures retriesLeft == old(retriesLeft) && backoffTime == old(backoffTime) && stats.history == old(stats.history)
      ensures tryNo == old(currentTry) ==>
        currentTry == old(currentTry) + 1 && stats.data == old(stats.data).(successes := old(stats.data).successes + 1)
      ensures tryNo != old(currentTry) ==> currentTry == old(currentTry) && stats.data == old(stats.data)
    {
      if tryNo == currentTry {
        stats.Success();
        currentTry := currentTry + 1;
      }
    }
  }

  /** A uniform draw in [0, 1) times a positive backoff lies in [0, backoff). */
  function Jittered(u: real, backoff: real): (wait: real)
    ensures 0.0 <= u < 1.0 && backoff > 0.0 ==> 0.0 <= wait < backoff
  {
    assert backoff - u * backoff == (1.0 - u) * backoff;
    u * backoff
  }

  /** A client whose three attempts all time out: two retries are sent, the third timeout sends nothing. */
  method ThreeTimeouts(jitter: bool) returns (sent: seq<bool>, data: StatData, retriesLeft: int, currentTry: int)
    ensures sent == [true, true, false]
    ensures data.timeouts == 3 && data.retries == 2 && data.starts == 1 && data.successes == 0
    ensures retriesLeft == 0 && currentTry == 3
  {
    var stats := new Stats("three timeouts");
    var server := new Server();
    var c := new Client(stats, server, jitter);
    var _ := c.SendNewReq(0.0, 0.1);
    var r0 := c.Timeout(3.0, 0, 0.5, 0.1);
    var r1 := c.Timeout(6.0 + 10.0, 1, 0.5, 0.1);
    var r2 := c.Timeout(40.0, 2, 0.5, 0.1);
    sent := [r0.Some?, r1.Some?, r2.Some?];
    data, retriesLeft, currentTry := stats.data, c.retriesLeft, c.currentTry;
  }

  /**
   * A late answer: the first attempt times out and is retried, then the
   * first attempt's answer arrives and is ignored; the retry's answer is the
   * one success.
   */
  method LateAnswer() returns (data: StatData, currentTry: int)
    ensures data.timeouts == 1 && data.retries == 1 && data.successes == 1
    ensures currentTry == 2
  {
    var stats := new Stats("late answer");
    var server := new Server();
    var c := new Client(stats, server, false);
    var _ := c.SendNewReq(0.0, 0.1);
    var _ := c.Timeout(3.0, 0, 0.0, 0.1);
    c.Done(3.5, 0);
    c.Done(4.5, 1);
    data, currentTry := stats.data, c.currentTry;
  }

  /** Arrivals whose rate ramps linearly up to a peak at `peakT` and back down at the same slope. */
  class RampUpDownLoadGenerator {
    const stats: Stats
    const server: Server
    const jitter: bool
    const baseRate: real
    const slope: real
    const peakT: real

    constructor (stats: Stats, server: Server, jitter: bool, baseRate: real, slope: real, peakT: real)
      ensures this.stats == stats && this.server == server && this.jitter == jitter
      ensures this.baseRate == baseRate && this.slope == slope && this.peakT == peakT
    {
      this.stats, this.server, this.jitter := stats, server, jitter;
      this.baseRate, this.slope, this.peakT := baseRate, slope, peakT;
    }

    /** The arrival rate at `t`; with a non-negative slope it is highest at the peak. */
    function Rate(t: real): (r: real)
      ensures slope >= 0.0 ==> r <= baseRate
      ensures t == peakT ==> r == baseRate
    {
      baseRate - slope * (if t < peakT then peakT - t else t - peakT)
    }

    /**
     * One arrival at `t`: a new client sends its first attempt, and the
     * next arrival, drawn `gap` later at the current rate, is scheduled
     * only while that rate is positive.
     */
    method GenLoad(t: real, netDelay: real, gap: real) returns (evs: seq<Event<CEvent>>, c: Client, rate: real)
      modifies stats
      ensures fresh(c) && c.stats == stats && c.server == server && c.jitter == jitter
      ensures c.retriesLeft == 3 && c.currentTry == 0 && c.backoffTime == 10.0
      ensures stats.data == old(stats.data).(starts := old(stats.data).starts + 1) && stats.history == old(stats.history)
      ensures rate == Rate(t)
      ensures evs == c.SendReq(t, 0.0, netDelay) + (if rate > 0.0 then [Event(t + gap, CEvent.GenLoad)] else [])
    {
      c := new Client(stats, server, jitter);
      evs := c.SendNewReq(t, netDelay);
      rate := Rate(t);
      if rate > 0.0 {
        evs := evs + [Event(t + gap, CEvent.GenLoad)];
      }
    }
  }

  /**
   * With a positive slope the ramp keeps rescheduling itself exactly inside
   * the window of half-width baseRate / slope around the peak.
   */
  lemma RampWindow(g: RampUpDownLoadGenerator, t: real)
    requires g.slope > 0.0
    ensures g.Rate(t) > 0.0 <==> g.peakT - g.baseRate / g.slope < t < g.peakT + g.baseRate / g.slope
  {
    var w := g.baseRate / g.slope;
    assert g.baseRate == g.slope * w;
    var dist := if t < g.peakT then g.peakT - t else t - g.peakT;
    assert g.Rate(t) == g.slope * (w - dist);
    assert g.slope * (w - dist) > 0.0 <==> w - dist > 0.0 by {
      if w - dist > 0.0 {
        assert g.slope * (w - dist) > 0.0;
      } else {
        assert g.slope * (dist - w) >= 0.0;
      }
    }
  }

  /** Arrivals at a base rate, raised to a peak rate for `spikeWidth` seconds from `spikeStart`. */
  class SpikeLoadGenerator {
    const stats: Stats
    const server: Server
    const jitter: bool
    const baseRate: real
    const peakRate: real
    const spikeStart: real
    const spikeWidth: real

    constructor (stats: Stats, server: Server, jitter: bool, baseRate: real, peakRate: real, spikeStart: real, spikeWidth: real)
      ensures this.stats == stats && this.server == server && this.jitter == jitter
      ensures this.baseRate == baseRate && this.peakRate == peakRate
      ensures this.spikeStart == spikeStart && this.spikeWidth == spikeWidth
    {
      this.stats, this.server, this.jitter := stats, server, jitter;
      this.baseRate, this.peakRate, this.spikeStart, this.spikeWidth := baseRate, peakRate, spikeStart, spikeWidth;
    }

    /** The arrival rate at `t`: the peak rate exactly inside the closed spike window. */
    function Rate(t: real): (r: real)
      ensures spikeStart <= t <= spikeStart + spikeWidth ==> r == peakRate
      ensures t < spikeStart || spikeStart + spikeWidth < t ==> r == baseRate
    {
      if t < spikeStart || t > spikeStart + spikeWidth then baseRate else peakRate
    }

    /** One arrival at `t`: a new client sends its first attempt, and the next arrival is always scheduled, `gap` later. */
    method GenLoad(t: real, netDelay: real, gap: real) returns (evs: seq<Event<CEvent>>, c: Client, rate: real)
      modifies stats
      ensures fresh(c) && c.stats == stats && c.server == server && c.jitter == jitter
      ensures c.retriesLeft == 3 && c.currentTry == 0 && c.backoffTime == 10.0
      ensures stats.data == old(stats.data).(starts := old(stats.data).starts + 1) && stats.history == old(stats.history)
      ensures rate == Rate(t)
      ensures evs == c.SendReq(t, 0.0, netDelay) + [Event(t + gap, CEvent.GenLoad)]
    {
      c := new Client(stats, server, jitter);
      evs := c.SendNewReq(t, netDelay);
      if t < spikeStart || t > spikeStart + spikeWidth {
        rate := baseRate;
      } else {
        rate := peakRate;
      }
      evs := evs + [Event(t + gap, CEvent.GenLoad)];
    }
  }

  /** Which of the two load generators drives a run. */
  datatype Generator = Ramp(ramp: RampUpDownLoadGenerator) | Spike(spike: SpikeLoadGenerator)
  {
    function Stats(): Stats
    {
      match this
      case Ramp(g) => g.stats
      case Spike(g) => g.stats
    }

    function Server(): Server
    {
      match this
      case Ramp(g) => g.server
      case Spike(g) => g.server
    }
  }

  /** The random values one dispatched event may use: a network delay, a uniform draw for jitter, an arrival gap. */
  datatype Draw = Draw(netDelay: real, u: real, gap: real)

  predicate DrawOk(d: Draw)
  {
    d.netDelay >= 0.0 && 0.0 <= d.u < 1.0 && d.gap >= 0.0
  }

  /** How many events of `q` are server ends, that is requests in service. */
  function Ends(q: seq<Event<CEvent>>): nat
  {
    if q == [] then 0 else (if q[0].kind.End? then 1 else 0) + Ends(q[1..])
  }

  lemma {:induction false} EndsAppend(a: seq<Event<CEvent>>, b: seq<Event<CEvent>>)
    ensures Ends(a + b) == Ends(a) + Ends(b)
  {
    if a == [] {
      assert a + b == b;
    } else {
      assert (a + b)[1..] == a[1..] + b;
      EndsAppend(a[1..], b);
    }
  }

  /** Dispatching one event lowers the count of ends by one exactly when it is an end. */
  lemma EndsPopMin(q: seq<Event<CEvent>>)
    requires |q| > 0
    ensures Ends(q) == Ends(PopMin(q).1) + (if PopMin(q).0.kind.End? then 1 else 0)
  {
    var i := MinIndex(q);
    var front, back := q[..i], q[i + 1..];
    assert q == front + ([q[i]] + back);
    assert ([q[i]] + back)[1..] == back;
    EndsAppend(front, [q[i]] + back);
    assert PopMin(q).1 == front + back;
    EndsAppend(front, back);
  }

  /** The clients some pending event belongs to. */
  function ClientsIn(q: seq<Event<CEvent>>): set<Client>
  {
    set e <- q | e.kind.ForClient() :: e.kind.client
  }

  /**
   * The attempt bookkeeping of a client with a pending event for attempt
   * `n`: three attempts in all, one fewer retry left per timeout, one more
   * when the answer came (4), and only the attempt in progress (with
   * retries left) is the current one. In particular `n` is 0, 1 or 2.
   */
  ghost predicate TryOk(retriesLeft: int, currentTry: int, n: int)
  {
    0 <= retriesLeft <= 3 && 3 <= retriesLeft + currentTry <= 4
    && 0 <= n <= currentTry && n < 3
    && (n == currentTry ==> retriesLeft > 0 && retriesLeft + currentTry == 3)
  }

  ghost predicate Tracked(c: Client, n: int, stats: Stats, server: Server)
    reads c
  {
    c.stats == stats && c.server == server && c.backoffTime > 0.0 && TryOk(c.retriesLeft, c.currentTry, n)
  }

  ghost predicate ClientsOk(q: seq<Event<CEvent>>, stats: Stats, server: Server)
    reads ClientsIn(q)
  {
    forall e <- q :: e.kind.ForClient() ==> Tracked(e.kind.client, e.kind.tryNo, stats, server)
  }

  /**
   * What the run keeps: the server's concurrency is its initial value plus
   * the requests in service, every interval records no more retries than
   * timeouts, and every client with a pending event has its attempts in
   * order.
   */
  ghost predicate Inv(stats: Stats, server: Server, q: seq<Event<CEvent>>, c0: int)
    reads stats, server, ClientsIn(q)
  {
    c0 >= 0 && server.concurrency == c0 + Ends(q)
    && Balanced(stats.data) && (forall h <- stats.history :: Balanced(h))
    && ClientsOk(q, stats, server)
  }

  /** The events left after the pop are among the queue's. */
  lemma Remaining(q: seq<Event<CEvent>>, e: Event<CEvent>)
    requires q != [] && e in PopMin(q).1
    ensures e in q
  {
    assert e in multiset(PopMin(q).1);
  }

  method StepPrint(stats: Stats, server: Server, q: seq<Event<CEvent>>, ghost c0: int) returns (evs: seq<Event<CEvent>>)
    requires q != [] && PopMin(q).0.kind.PrintStats?
    requires Inv(stats, server, q, c0)
    modifies stats
    ensures NoneBefore(evs, PopMin(q).0.time) && ClientsIn(evs) == {}
    ensures Inv(stats, server, PopMin(q).1 + evs, c0)
  {
    var rest := PopMin(q).1;
    EndsPopMin(q);
    evs := stats.PrintStats(PopMin(q).0.time);
    EndsAppend(rest, evs);
    forall e <- rest + evs | e.kind.ForClient()
      ensures Tracked(e.kind.client, e.kind.tryNo, stats, server)
    {
      Remaining(q, e);
      assert old(Tracked(e.kind.client, e.kind.tryNo, stats, server));
    }
  }

  method StepStart(stats: Stats, server: Server, q: seq<Event<CEvent>>, ghost c0: int) returns (evs: seq<Event<CEvent>>)
    requires q != [] && PopMin(q).0.kind.Start?
    requires Inv(stats, server, q, c0)
    modifies server
    ensures NoneBefore(evs, PopMin(q).0.time) && ClientsIn(evs) <= ClientsIn(q)
    ensures Inv(stats, server, PopMin(q).1 + evs, c0)
  {
    var e, rest := PopMin(q).0, PopMin(q).1;
    EndsPopMin(q);
    evs := server.Start(e.time, e.kind.client, e.kind.tryNo);
    EndsAppend(rest, evs);
    assert Ends(evs) == 1 by {
      assert evs[1..] == [];
    }
    forall e' <- rest + evs | e'.kind.ForClient()
      ensures Tracked(e'.kind.client, e'.kind.tryNo, stats, server)
    {
      if e' in rest {
        Remaining(q, e');
        assert old(Tracked(e'.kind.client, e'.kind.tryNo, stats, server));
      }
    }
  }

  method StepEnd(stats: Stats, server: Server, q: seq<Event<CEvent>>, d: Draw, ghost c0: int) returns (evs: seq<Event<CEvent>>)
    requires q != [] && PopMin(q).0.kind.End?
    requires DrawOk(d) && Inv(stats, server, q, c0)
    modifies server
    ensures NoneBefore(evs, PopMin(q).0.time) && ClientsIn(evs) <= ClientsIn(q)
    ensures Inv(stats, server, PopMin(q).1 + evs, c0)
  {
    var e, rest := PopMin(q).0, PopMin(q).1;
    EndsPopMin(q);
    evs := server.End(e.time, e.kind.client, e.kind.tryNo, d.netDelay);
    EndsAppend(rest, evs);
    assert Ends(evs) == 0 by {
      assert evs[1..] == [];
    }
    forall e' <- rest + evs | e'.kind.ForClient()
      ensures Tracked(e'.kind.client, e'.kind.tryNo, stats, server)
    {
      if e' in rest {
        Remaining(q, e');
        assert old(Tracked(e'.kind.client, e'.kind.tryNo, stats, server));
      }
    }
  }

  /** A list without server ends counts none. */
  lemma {:induction false} NoEnds(s: seq<Event<CEvent>>)
    requires forall e <- s :: !e.kind.End?
    ensures Ends(s) == 0
  {
    if s != [] {
      assert s[0] in s;
      NoEnds(s[1..]);
    }
  }

  /** A matching timeout moves the client to its next attempt; the older attempts stay valid. */
  lemma TimeoutTries(rl: int, ct: int, n: int)
    requires TryOk(rl, ct, ct) && TryOk(rl, ct, n)
    ensures TryOk(rl - 1, ct + 1, n)
    ensures rl - 1 > 0 ==> TryOk(rl - 1, ct + 1, ct + 1)
  {
  }

  method StepTimeout(stats: Stats, server: Server, q: seq<Event<CEvent>>, d: Draw, ghost c0: int)
      returns (evs: Option<seq<Event<CEvent>>>)
    requires q != [] && PopMin(q).0.kind.Timeout?
    requires DrawOk(d) && Inv(stats, server, q, c0)
    modifies stats, PopMin(q).0.kind.client
    ensures evs.Some? ==> NoneBefore(evs.value, PopMin(q).0.time) && ClientsIn(evs.value) <= ClientsIn(q)
    ensures Inv(stats, server, Extend(PopMin(q).1, evs), c0)
  {
    var e, rest := PopMin(q).0, PopMin(q).1;
    var c := e.kind.client;
    assert Tracked(c, e.kind.tryNo, stats, server);
    ghost var rl, ct := c.retriesLeft, c.currentTry;
    EndsPopMin(q);
    evs := c.Timeout(e.time, e.kind.tryNo, d.u, d.netDelay);
    if evs.Some? {
      NoEnds(evs.value);
      EndsAppend(rest, evs.value);
    }
    forall e' <- Extend(rest, evs) | e'.kind.ForClient()
      ensures Tracked(e'.kind.client, e'.kind.tryNo, stats, server)
    {
      if e' in rest {
        Remaining(q, e');
        assert old(Tracked(e'.kind.client, e'.kind.tryNo, stats, server));
        if e'.kind.client == c && e.kind.tryNo == ct {
          TimeoutTries(rl, ct, e'.kind.tryNo);
        }
      } else {
        TimeoutTries(rl, ct, ct);
      }
    }
  }

  method StepDone(stats: Stats, server: Server, q: seq<Event<CEvent>>, ghost c0: int)
    requires q != [] && PopMin(q).0.kind.Done?
    requires Inv(stats, server, q, c0)
    modifies stats, PopMin(q).0.kind.client
    ensures Inv(stats, server, PopMin(q).1, c0)
  {
    var e, rest := PopMin(q).0, PopMin(q).1;
    var c := e.kind.client;
    assert Tracked(c, e.kind.tryNo, stats, server);
    ghost var rl, ct := c.retriesLeft, c.currentTry;
    EndsPopMin(q);
    c.Done(e.time, e.kind.tryNo);
    forall e' <- rest | e'.kind.ForClient()
      ensures Tracked(e'.kind.client, e'.kind.tryNo, stats, server)
    {
      Remaining(q, e');
      assert old(Tracked(e'.kind.client, e'.kind.tryNo, stats, server));
    }
  }

  /**
   * One arrival from whichever generator drives the run: a fresh client
   * with its first attempt sent, and possibly the next arrival.
   */
  method Arrive(gen: Generator, t: real, d: Draw) returns (evs: seq<Event<CEvent>>, c: Client)
    modifies gen.Stats()
    ensures fresh(c) && c.stats == gen.Stats() && c.server == gen.Server()
    ensures c.retriesLeft == 3 && c.currentTry == 0 && c.backoffTime == 10.0
    ensures gen.Stats().data == old(gen.Stats().data).(starts := old(gen.Stats().data).starts + 1)
    ensures gen.Stats().history == old(gen.Stats().history)
    ensures |evs| >= 2 && evs[..2] == c.SendReq(t, 0.0, d.netDelay)
    ensures forall e <- evs[2..] :: e == Event(t + d.gap, CEvent.GenLoad)
  {
    match gen {
      case Ramp(g) =>
        var rate;
        evs, c, rate := g.GenLoad(t, d.netDelay, d.gap);
      case Spike(g) =>
        var rate;
        evs, c, rate := g.GenLoad(t, d.netDelay, d.gap);
    }
  }

  /** What an arrival returns: no server end, nothing before `t`, and client events only for attempt 0 of `c`. */
  lemma ArrivalEvents(evs: seq<Event<CEvent>>, sent: seq<Event<CEvent>>, c: Client, t: real, gap: real)
    requires |evs| >= 2 && evs[..2] == sent && gap >= 0.0 && NoneBefore(sent, t)
    requires forall e <- sent :: e.kind.ForClient() && !e.kind.End? && e.kind.client == c && e.kind.tryNo == 0
    requires forall e <- evs[2..] :: e == Event(t + gap, CEvent.GenLoad)
    ensures forall e <- evs :: !e.kind.End? && (e.kind.ForClient() ==> e.kind.client == c && e.kind.tryNo == 0)
    ensures NoneBefore(evs, t)
  {
    assert evs == sent + evs[2..];
    forall i | 0 <= i < |evs|
      ensures t <= evs[i].time
    {
      if i < 2 {
        assert evs[i] == sent[i];
      } else {
        assert evs[i] in evs[2..];
      }
    }
  }

  method StepGen(gen: Generator, q: seq<Event<CEvent>>, d: Draw, ghost c0: int) returns (evs: seq<Event<CEvent>>)
    requires q != [] && PopMin(q).0.kind.GenLoad?
    requires DrawOk(d) && Inv(gen.Stats(), gen.Server(), q, c0)
    modifies gen.Stats()
    ensures NoneBefore(evs, PopMin(q).0.time)
    ensures forall x <- ClientsIn(evs) :: fresh(x)
    ensures Inv(gen.Stats(), gen.Server(), PopMin(q).1 + evs, c0)
  {
    var t, rest := PopMin(q).0.time, PopMin(q).1;
    var stats, server := gen.Stats(), gen.Server();
    var c;
    evs, c := Arrive(gen, t, d);
    ArrivalEvents(evs, c.SendReq(t, 0.0, d.netDelay), c, t, d.gap);
    EndsPopMin(q);
    NoEnds(evs);
    EndsAppend(rest, evs);
    forall e' <- rest + evs | e'.kind.ForClient()
      ensures Tracked(e'.kind.client, e'.kind.tryNo, stats, server)
    {
      if e' in rest {
        Remaining(q, e');
        assert old(Tracked(e'.kind.client, e'.kind.tryNo, stats, server));
      } else {
        assert e' in evs;
        assert e'.kind.client == c && e'.kind.tryNo == 0;
      }
    }
  }

  /**
   * Dispatching the earliest event to its handler. The result is the
   * event dispatched and the queue after adding what the handler returned.
   */
  method Step(gen: Generator, q: seq<Event<CEvent>>, d: Draw, ghost clock: real, ghost c0: int)
      returns (e: Event<CEvent>, q': seq<Event<CEvent>>)
    requires q != [] && NoneBefore(q, clock)
    requires DrawOk(d) && Inv(gen.Stats(), gen.Server(), q, c0)
    modifies gen.Stats(), gen.Server(), ClientsIn(q)
    ensures e == PopMin(q).0 && clock <= e.time && NoneBefore(q', e.time)
    ensures forall x <- ClientsIn(q') :: x in ClientsIn(q) || fresh(x)
    ensures Inv(gen.Stats(), gen.Server(), q', c0)
  {
    e := PopMin(q).0;
    assert e in q;
    var stats, server := gen.Stats(), gen.Server();
    var evs: Option<seq<Event<CEvent>>>;
    match e.kind {
      case PrintStats =>
        var r := StepPrint(stats, server, q, c0);
        evs := Some(r);
      case GenLoad =>
        var r := StepGen(gen, q, d, c0);
        evs := Some(r);
      case Timeout(_, _) =>
        evs := StepTimeout(stats, server, q, d, c0);
      case Start(_, _) =>
        var r := StepStart(stats, server, q, c0);
        evs := Some(r);
      case End(_, _) =>
        var r := StepEnd(stats, server, q, d, c0);
        evs := Some(r);
      case Done(_, _) =>
        StepDone(stats, server, q, c0);
        evs := None;
    }
    DispatchKeepsClock(q, clock, evs);
    q' := Extend(PopMin(q).1, evs);
    forall x <- ClientsIn(q')
      ensures x in ClientsIn(q) || fresh(x)
    {
      var e' :| e' in q' && e'.kind.ForClient() && e'.kind.client == x;
      if e' in PopMin(q).1 {
        Remaining(q, e');
        assert x in ClientsIn(q);
      } else {
        assert e' in evs.value;
        assert x in ClientsIn(evs.value);
      }
    }
  }

  /**
   * The simulation loop of one run: the first report at 1.0 and the first
   * arrival at 0.01, then events in time order while the previously
   * dispatched time is below `maxT` (and draws last). Throughout, the
   * server's concurrency rises exactly by the requests in service, no
   * interval records more retries than timeouts, and no pending event
   * belongs to a fourth attempt.
   */
  method SimLoop(maxT: real, gen: Generator, draws: seq<Draw>) returns (trace: seq<real>, q: seq<Event<CEvent>>)
    requires gen.Server().concurrency >= 0
    requires Balanced(gen.Stats().data) && forall h <- gen.Stats().history :: Balanced(h)
    requires forall d <- draws :: DrawOk(d)
    modifies gen.Stats(), gen.Server()
    ensures Sorted(trace) && WithinHorizon(trace, maxT)
    ensures |trace| <= |draws|
    ensures q == [] || |trace| == |draws| || Clock(trace) >= maxT
    ensures Inv(gen.Stats(), gen.Server(), q, old(gen.Server().concurrency))
    ensures forall e <- q :: e.kind.ForClient() ==> 0 <= e.kind.tryNo < 3
  {
    ghost var c0 := gen.Server().concurrency;
    q := [Event(1.0, CEvent.PrintStats), Event(0.01, CEvent.GenLoad)];
    assert Ends(q) == 0 by {
      assert q[1..][1..] == [];
    }
    assert ClientsIn(q) == {};
    trace := [];
    var t := 0.0;
    while q != [] && t < maxT && |trace| < |draws|
      invariant t == Clock(trace)
      invariant Sorted(trace) && WithinHorizon(trace, maxT) && NoneBefore(q, t)
      invariant |trace| <= |draws|
      invariant forall x <- ClientsIn(q) :: fresh(x)
      invariant Inv(gen.Stats(), gen.Server(), q, c0)
      decreases |draws| - |trace|
    {
      var e, q' := Step(gen, q, draws[|trace|], t, c0);
      TraceStaysSorted(trace, e.time);
      trace, q, t := trace + [e.time], q', e.time;
    }
    forall e <- q | e.kind.ForClient()
      ensures 0 <= e.kind.tryNo < 3
    {
      assert Tracked(e.kind.client, e.kind.tryNo, gen.Stats(), gen.Server());
    }
  }
}
