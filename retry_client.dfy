/**
 * Clients and calls of the retry simulator. A client starts calls (all at
 * once at a Poisson rate, or one at a time); a call sends attempts to the
 * server and, after each failed attempt, asks its retry policy whether to
 * try again with a doubled backoff, or gives up and tells its client.
 *
 * Random draws (inter-call gaps, network round trips) are parameters. The
 * server's `handle` is not part of this model: its events are named here
 * (`ServerHandle`) and the simulation loop takes its replies as inputs.
 */
module RetryClient {
  import opened Kernel
  import opened RetryStrategy
  import opened RetryStats

  /** The handler each event names, with its payload. */
  datatype RetryEvent =
    | GenLoad(client: ClientRef)
    | CallStart(call: Call)
    | ServerHandle(call: Call)
    | CallDoneSuccess(call: Call)
    | CallDoneFailure(call: Call)

  /** A client of one of the three kinds. */
  datatype ClientRef =
    | Open(c: Client)
    | Serial(s: SerialClient)
    | Backoff(b: SerialClientWithBackoff)
  {
    /** The client state its handlers may change. */
    function Mutable(): set<object>
    {
      match this
      case Open(_) => {}
      case Serial(s) => {s}
      case Backoff(b) => {b}
    }

    function RetryStrategyOf(): Strategy
    {
      match this
      case Open(c) => c.retryStrategy
      case Serial(s) => s.retryStrategy
      case Backoff(b) => b.retryStrategy
    }

    function StatsOf(): Stats
    {
      match this
      case Open(c) => c.stats
      case Serial(s) => s.stats
      case Backoff(b) => b.stats
    }

    function RetryBackoff(): real
    {
      match this
      case Open(c) => c.retryBackoff
      case Serial(s) => s.retryBackoff
      case Backoff(b) => b.retryBackoff
    }

    /** The client object itself. */
    function Self(): object
    {
      match this
      case Open(c) => c
      case Serial(s) => s
      case Backoff(b) => b
    }

    /** Whether the client has stopped generating load. */
    function Draining(): bool
      reads Self()
    {
      match this
      case Open(c) => c.drain
      case Serial(s) => s.drain
      case Backoff(b) => b.drain
    }
  }

  /** `call` was just created for a call of client `c`: its own policy state, the client's stats and backoff. */
  twostate predicate NewCallOf(new call: Call, c: ClientRef)
    reads call, call.retryStrategy.Footprint()
  {
    && fresh(call)
    && call.client == c
    && call.stats == c.StatsOf()
    && call.baseBackoff == c.RetryBackoff()
    && IsCallOf(call.retryStrategy, c.RetryStrategyOf())
    && fresh(call.retryStrategy.Footprint() - c.RetryStrategyOf().Shared())
    && (!call.retryStrategy.CallAdaptive? ==> call.retryStrategy.Budget().nTries == 0)
  }

  /** Starts calls at a Poisson rate, with no limit on how many are in flight. */
  class Client {
    const retryStrategy: Strategy
    const rate: real
    const stats: Stats
    const retryBackoff: real
    var drain: bool

    constructor (retryStrategy: Strategy, rate: real, stats: Stats, retryBackoff: real)
      ensures this.retryStrategy == retryStrategy && this.rate == rate && this.stats == stats
      ensures this.retryBackoff == retryBackoff && !drain
    {
      this.retryStrategy := retryStrategy;
      this.rate := rate;
      this.stats := stats;
      this.retryBackoff := retryBackoff;
      drain := false;
    }

    /**
     * Unless draining, schedules its own next run after the drawn gap and
     * starts a new call now; when draining, schedules nothing.
     */
    method GenLoad(t: real, gap: real) returns (evs: seq<Event<RetryEvent>>)
      ensures drain ==> evs == []
      ensures !drain ==> |evs| == 2 && evs[0] == Event(t + gap, RetryEvent.GenLoad(Open(this)))
                         && evs[1].time == t && evs[1].kind.CallStart? && NewCallOf(evs[1].kind.call, Open(this))
    {
      var call := new Call(retryStrategy, stats, Open(this), retryBackoff);
      if drain {
        evs := [];
      } else {
        evs := [Event(t + gap, RetryEvent.GenLoad(Open(this))), Event(t, CallStart(call))];
      }
    }

    /** The end of a call schedules nothing: load does not depend on outcomes. */
    method DoneSuccess(t: real) returns (evs: seq<Event<RetryEvent>>)
      ensures evs == []
    {
      evs := [];
    }

    method DoneFailure(t: real) returns (evs: seq<Event<RetryEvent>>)
      ensures evs == []
    {
      evs := [];
    }
  }

  function Max(a: real, b: real): (m: real)
    ensures m >= a && m >= b
    ensures m == a || m == b
  {
    if a >= b then a else b
  }

  /** Keeps one call in flight, starting the next one when the previous ends. */
  class SerialClient {
    const retryStrategy: Strategy
    const rate: real
    const stats: Stats
    const retryBackoff: real
    var drain: bool
    var lastCallStart: real

    constructor (retryStrategy: Strategy, rate: real, stats: Stats, retryBackoff: real)
      ensures this.retryStrategy == retryStrategy && this.rate == rate && this.stats == stats
      ensures this.retryBackoff == retryBackoff && !drain && lastCallStart == 0.0
    {
      this.retryStrategy := retryStrategy;
      this.rate := rate;
      this.stats := stats;
      this.retryBackoff := retryBackoff;
      drain := false;
      lastCallStart := 0.0;
    }

    /**
     * Unless draining, schedules the next call start the drawn gap after the
     * previous start, but never before now, and remembers when.
     */
    method GenLoad(t: real, gap: real) returns (evs: seq<Event<RetryEvent>>)
      modifies this
      ensures drain == old(drain)
      ensures drain ==> evs == [] && lastCallStart == old(lastCallStart)
      ensures !drain ==> |evs| == 1 && evs[0].kind.CallStart? && NewCallOf(evs[0].kind.call, Serial(this))
                         && evs[0].time == t + Max(0.0, gap - t + old(lastCallStart))
                         && evs[0].time >= t
                         && lastCallStart == evs[0].time
    {
      var call := new Call(retryStrategy, stats, Serial(this), retryBackoff);
      if drain {
        evs := [];
      } else {
        var nextDelay := Max(0.0, gap - t + lastCallStart);
        var nextT := t + nextDelay;
        lastCallStart := nextT;
        evs := [Event(nextT, CallStart(call))];
      }
    }

    /** Either way the call ended, the next one is scheduled as `GenLoad` does. */
    method DoneSuccess(t: real, gap: real) returns (evs: seq<Event<RetryEvent>>)
      modifies this
      ensures drain == old(drain)
      ensures drain ==> evs == [] && lastCallStart == old(lastCallStart)
      ensures !drain ==> |evs| == 1 && evs[0].kind.CallStart? && NewCallOf(evs[0].kind.call, Serial(this))
                         && evs[0].time == t + Max(0.0, gap - t + old(lastCallStart))
                         && lastCallStart == evs[0].time
    {
      evs := GenLoad(t, gap);
    }

    method DoneFailure(t: real, gap: real) returns (evs: seq<Event<RetryEvent>>)
      modifies this
      ensures drain == old(drain)
      ensures drain ==> evs == [] && lastCallStart == old(lastCallStart)
      ensures !drain ==> |evs| == 1 && evs[0].kind.CallStart? && NewCallOf(evs[0].kind.call, Serial(this))
                         && evs[0].time == t + Max(0.0, gap - t + old(lastCallStart))
                         && lastCallStart == evs[0].time
    {
      evs := GenLoad(t, gap);
    }
  }

  /**
   * Keeps one call in flight and, after a call that failed, waits an
   * exponentially growing backoff before generating the next one.
   */
  class SerialClientWithBackoff {
    const retryStrategy: Strategy
    const rate: real
    const stats: Stats
    const baseBackoff: real
    const retryBackoff: real
    var currentBackoff: real
    var drain: bool

    constructor (retryStrategy: Strategy, rate: real, stats: Stats, retryBackoff: real)
      requires rate != 0.0
      ensures this.retryStrategy == retryStrategy && this.rate == rate && this.stats == stats
      ensures this.retryBackoff == retryBackoff && !drain
      ensures baseBackoff == 1.0 / rate && currentBackoff == baseBackoff
    {
      this.retryStrategy := retryStrategy;
      this.rate := rate;
      this.stats := stats;
      baseBackoff := 1.0 / rate;
      currentBackoff := 1.0 / rate;
      this.retryBackoff := retryBackoff;
      drain := false;
    }

    /** Unless draining, starts a new call after the drawn gap. */
    method GenLoad(t: real, gap: real) returns (evs: seq<Event<RetryEvent>>)
      ensures drain ==> evs == []
      ensures !drain ==> |evs| == 1 && evs[0].time == t + gap && evs[0].kind.CallStart?
                         && NewCallOf(evs[0].kind.call, Backoff(this))
    {
      var call := new Call(retryStrategy, stats, Backoff(this), retryBackoff);
      if drain {
        evs := [];
      } else {
        evs := [Event(t + gap, CallStart(call))];
      }
    }

    /** A success resets the backoff to its base and goes on at once. */
    method DoneSuccess(t: real, gap: real) returns (evs: seq<Event<RetryEvent>>)
      modifies this
      ensures currentBackoff == baseBackoff && drain == old(drain)
      ensures drain ==> evs == []
      ensures !drain ==> |evs| == 1 && evs[0].time == t + gap && evs[0].kind.CallStart?
                         && NewCallOf(evs[0].kind.call, Backoff(this))
    {
      currentBackoff := baseBackoff;
      evs := GenLoad(t, gap);
    }

    /** A failure schedules the next `GenLoad` one backoff later, then doubles the backoff. */
    method DoneFailure(t: real) returns (evs: seq<Event<RetryEvent>>)
      modifies this
      ensures evs == [Event(t + old(currentBackoff), RetryEvent.GenLoad(Backoff(this)))]
      ensures currentBackoff == 2.0 * old(currentBackoff) && drain == old(drain)
    {
      evs := [Event(t + currentBackoff, RetryEvent.GenLoad(Backoff(this)))];
      currentBackoff := currentBackoff * 2.0;
    }
  }

  /** One logical call: its first attempt and the retries its policy allows. */
  class Call {
    const retryStrategy: CallStrategy
    const stats: Stats
    const client: ClientRef
    var baseBackoff: real

    /** Each call takes the policy object that `new_call` gives it. */
    constructor (strategy: Strategy, stats: Stats, client: ClientRef, baseBackoff: real)
      requires strategy == client.RetryStrategyOf() && stats == client.StatsOf() && baseBackoff == client.RetryBackoff()
      ensures NewCallOf(this, client)
    {
      var cs := NewCall(strategy);
      retryStrategy := cs;
      this.stats := stats;
      this.client := client;
      this.baseBackoff := baseBackoff;
    }

    /** The first attempt: the policy is told a call started, one first try is counted, the server is asked. */
    method Start(t: real, rtt: real) returns (evs: seq<Event<RetryEvent>>)
      modifies retryStrategy.Footprint(), stats
      ensures StartedFrom(retryStrategy)
      ensures stats.uniqueCalls == old(stats.uniqueCalls) + 1 && stats.totalCalls == old(stats.totalCalls) + 1
      ensures stats.successes == old(stats.successes)
      ensures evs == [Event(t + rtt, ServerHandle(this))]
    {
      StartCall(retryStrategy);
      stats.FirstTry();
      evs := [Event(t + rtt, ServerHandle(this))];
    }

    /** A success is counted once and handed to the client. */
    method DoneSuccess(t: real, gap: real) returns (evs: seq<Event<RetryEvent>>)
      modifies stats, client.Mutable()
      ensures stats.successes == old(stats.successes) + 1
      ensures stats.uniqueCalls == old(stats.uniqueCalls) && stats.totalCalls == old(stats.totalCalls)
      ensures ClientAnswered(client, t, gap, evs)
      ensures forall b: CircuitBreakerRetryStrategy :: old(allocated(b)) ==> old(b.calls) <= b.calls
      ensures forall s: Stats :: old(allocated(s)) && old(s.Valid()) ==> s.Valid()
      ensures forall c: Client :: old(allocated(c)) ==> c.drain == old(c.drain)
      ensures forall b: SerialClientWithBackoff :: old(allocated(b)) && old(b.currentBackoff) >= 0.0 && b.baseBackoff >= 0.0 ==>
                b.currentBackoff >= 0.0
      ensures forall c: Call :: old(allocated(c)) && old(c.baseBackoff) >= 0.0 ==> c.baseBackoff >= 0.0
    {
      stats.Success();
      evs := ClientDoneSuccess(client, t, gap);
    }

    /**
     * A failed attempt: if the policy allows, one retry is counted and the
     * server is asked again after the round trip plus the current backoff,
     * which then doubles; otherwise the client is told the call failed.
     */
    method DoneFailure(t: real, rtt: real, gap: real) returns (evs: seq<Event<RetryEvent>>)
      requires retryStrategy.CanAsk()
      modifies this, retryStrategy.Footprint(), stats, client.Mutable()
      ensures AnsweredFrom(retryStrategy, old(retryStrategy.WouldRetry()))
      ensures retryStrategy.CanAsk()
      ensures stats.uniqueCalls == old(stats.uniqueCalls) && stats.successes == old(stats.successes)
      ensures old(retryStrategy.WouldRetry()) ==>
                && stats.totalCalls == old(stats.totalCalls) + 1
                && evs == [Event(t + rtt + old(baseBackoff), ServerHandle(this))]
                && baseBackoff == 2.0 * old(baseBackoff)
                && unchanged(client.Mutable())
      ensures !old(retryStrategy.WouldRetry()) ==>
                && stats.totalCalls == old(stats.totalCalls)
                && baseBackoff == old(baseBackoff)
                && ClientFailed(client, t, gap, evs)
      ensures forall b: CircuitBreakerRetryStrategy :: old(allocated(b)) ==> old(b.calls) <= b.calls
      ensures forall s: Stats :: old(allocated(s)) && old(s.Valid()) ==> s.Valid()
      ensures forall c: Client :: old(allocated(c)) ==> c.drain == old(c.drain)
      ensures forall b: SerialClientWithBackoff :: old(allocated(b)) && old(b.currentBackoff) >= 0.0 && b.baseBackoff >= 0.0 ==>
                b.currentBackoff >= 0.0
      ensures forall c: Call :: old(allocated(c)) && old(c.baseBackoff) >= 0.0 ==> c.baseBackoff >= 0.0
    {
      var retry := AskRetry(retryStrategy);
      if retry {
        stats.Retry();
        evs := [Event(t + rtt + baseBackoff, ServerHandle(this))];
        baseBackoff := baseBackoff * 2.0;
      } else {
        evs := ClientDoneFailure(client, t, gap);
      }
    }
  }

  /** What a client does when one of its calls succeeded. */
  twostate predicate ClientAnswered(c: ClientRef, t: real, gap: real, new evs: seq<Event<RetryEvent>>)
    reads c.Mutable(), set i | 0 <= i < |evs| && evs[i].kind.CallStart? :: evs[i].kind.call,
          set i, o | 0 <= i < |evs| && evs[i].kind.CallStart? && o in evs[i].kind.call.retryStrategy.Footprint() :: o
  {
    match c
    case Open(_) => evs == []
    case Serial(s) =>
      && s.drain == old(s.drain)
      && (s.drain ==> evs == [] && s.lastCallStart == old(s.lastCallStart))
      && (!s.drain ==> |evs| == 1 && evs[0].kind.CallStart? && NewCallOf(evs[0].kind.call, c)
                       && evs[0].time == t + Max(0.0, gap - t + old(s.lastCallStart))
                       && s.lastCallStart == evs[0].time)
    case Backoff(b) =>
      && b.currentBackoff == b.baseBackoff && b.drain == old(b.drain)
      && (b.drain ==> evs == [])
      && (!b.drain ==> |evs| == 1 && evs[0].time == t + gap && evs[0].kind.CallStart?
                       && NewCallOf(evs[0].kind.call, c))
  }

  /** What a client does when one of its calls failed for good. */
  twostate predicate ClientFailed(c: ClientRef, t: real, gap: real, new evs: seq<Event<RetryEvent>>)
    reads c.Mutable(), set i | 0 <= i < |evs| && evs[i].kind.CallStart? :: evs[i].kind.call,
          set i, o | 0 <= i < |evs| && evs[i].kind.CallStart? && o in evs[i].kind.call.retryStrategy.Footprint() :: o
  {
    match c
    case Open(_) => evs == []
    case Serial(s) =>
      && s.drain == old(s.drain)
      && (s.drain ==> evs == [] && s.lastCallStart == old(s.lastCallStart))
      && (!s.drain ==> |evs| == 1 && evs[0].kind.CallStart? && NewCallOf(evs[0].kind.call, c)
                       && evs[0].time == t + Max(0.0, gap - t + old(s.lastCallStart))
                       && s.lastCallStart == evs[0].time)
    case Backoff(b) =>
      && evs == [Event(t + old(b.currentBackoff), GenLoad(c))]
      && b.currentBackoff == 2.0 * old(b.currentBackoff) && b.drain == old(b.drain)
  }

  method ClientDoneSuccess(c: ClientRef, t: real, gap: real) returns (evs: seq<Event<RetryEvent>>)
    modifies c.Mutable()
    ensures ClientAnswered(c, t, gap, evs)
  {
    match c
    case Open(o) => evs := o.DoneSuccess(t);
    case Serial(s) => evs := s.DoneSuccess(t, gap);
    case Backoff(b) => evs := b.DoneSuccess(t, gap);
  }

  method ClientDoneFailure(c: ClientRef, t: real, gap: real) returns (evs: seq<Event<RetryEvent>>)
    modifies c.Mutable()
    ensures ClientFailed(c, t, gap, evs)
  {
    match c
    case Open(o) => evs := o.DoneFailure(t);
    case Serial(s) => evs := s.DoneFailure(t, gap);
    case Backoff(b) => evs := b.DoneFailure(t);
  }
}
