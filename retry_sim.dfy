/**
 * The event loop of the retry simulator: one load-generating event per
 * client is seeded, then the earliest pending event is dispatched until
 * none is left, with no time cutoff. After every event the `drain` flag
 * records whether the clock has passed the horizon.
 *
 * The server that answers each attempt is not part of this model: each
 * `ServerHandle` event is answered by one completion event (success or
 * failure, after a delay) taken from the draw of that step.
 */
module RetrySim {
  import opened Kernel
  import opened RetryStrategy
  import opened RetryStats
  import opened RetryClient

  /** The random values and the server's answer one step may use. */
  datatype RetryDraw = RetryDraw(gap: real, rtt: real, fail: bool, serverDelay: real)

  /** The stats objects the clients count on. */
  function StatsObjects(clients: seq<ClientRef>): set<Stats>
  {
    set c <- clients :: c.StatsOf()
  }

  /** The breakers the clients' calls share. */
  function Breakers(clients: seq<ClientRef>): set<CircuitBreakerRetryStrategy>
  {
    set c <- clients | c.RetryStrategyOf().CircuitBreaker? :: c.RetryStrategyOf().cbs
  }

  /** Everything the clients share: their own mutable fields, their stats, and what their calls share of their policies. */
  function World(clients: seq<ClientRef>): set<object>
  {
    ClientObjects(clients) + StatsObjects(clients) + SharedObjects(clients)
  }

  function ClientObjects(clients: seq<ClientRef>): set<object>
  {
    set c, o | c in clients && o in c.Mutable() :: o
  }

  function SharedObjects(clients: seq<ClientRef>): set<object>
  {
    set c, o | c in clients && o in c.RetryStrategyOf().Shared() :: o
  }

  lemma OwnedInWorld(clients: seq<ClientRef>, c: ClientRef)
    requires c in clients
    ensures c.Mutable() <= World(clients) && c.RetryStrategyOf().Shared() <= World(clients)
    ensures c.StatsOf() in StatsObjects(clients) && c.StatsOf() in World(clients)
    ensures c.RetryStrategyOf().CircuitBreaker? ==> c.RetryStrategyOf().cbs in Breakers(clients)
  {
    forall o | o in c.Mutable() ensures o in World(clients) {
      assert o in ClientObjects(clients);
    }
    forall o | o in c.RetryStrategyOf().Shared() ensures o in World(clients) {
      assert o in SharedObjects(clients);
    }
  }

  /** Every call an event names belongs to one of the clients and was made by its policy. */
  predicate Linked(clients: seq<ClientRef>, k: RetryEvent)
  {
    if k.GenLoad? then k.client in clients
    else
      && k.call.client in clients
      && k.call.stats == k.call.client.StatsOf()
      && IsCallOf(k.call.retryStrategy, k.call.client.RetryStrategyOf())
  }

  /** The client an event belongs to. */
  function Owner(k: RetryEvent): ClientRef
  {
    if k.GenLoad? then k.client else k.call.client
  }

  /** The objects a call's handlers may change beyond the clients' shared state. */
  function CallObjects(k: RetryEvent): set<object>
  {
    if k.GenLoad? then {} else {k.call} + k.call.retryStrategy.Footprint()
  }

  /** An attempt in flight was started, so a breaker it consults has counted at least one call. */
  predicate Started(k: RetryEvent)
    reads if k.ServerHandle? || k.CallDoneSuccess? || k.CallDoneFailure? then k.call.retryStrategy.Footprint() else {}
  {
    (k.ServerHandle? || k.CallDoneSuccess? || k.CallDoneFailure?) && k.call.retryStrategy.CallBreaker? ==>
      k.call.retryStrategy.cb.cbrs.calls >= 1.0
  }

  /** Every breaker the clients share has a call count of at least zero. */
  predicate BreakersOk(clients: seq<ClientRef>)
    reads Breakers(clients)
  {
    forall b <- Breakers(clients) :: b.calls >= 0.0
  }

  /**
   * What the draws of one step can be: gaps, round trips and server delays
   * are exponential samples, so none is negative.
   */
  predicate DrawOk(d: RetryDraw)
  {
    d.gap >= 0.0 && d.rtt >= 0.0 && d.serverDelay >= 0.0
  }

  /**
   * A client never waits a negative time: the first backoff of its calls is
   * not negative and, for a backoff client, neither is its base backoff (one
   * over its positive rate) nor its current one.
   */
  predicate Paced(c: ClientRef)
    reads c.Self()
  {
    c.RetryBackoff() >= 0.0 && (c.Backoff? ==> c.b.baseBackoff >= 0.0 && c.b.currentBackoff >= 0.0)
  }

  predicate AllPaced(clients: seq<ClientRef>)
    reads Selves(clients)
  {
    forall c <- clients :: Paced(c)
  }

  /** Every call the events name waits a non-negative backoff before its next attempt. */
  predicate BackoffsOk(evs: seq<Event<RetryEvent>>)
    reads Calls(evs)
  {
    forall e <- evs :: !e.kind.GenLoad? ==> e.kind.call.baseBackoff >= 0.0
  }

  /** Whether every client has stopped generating load. */
  predicate AllDraining(clients: seq<ClientRef>)
    reads set c <- clients :: c.Self()
  {
    forall c <- clients :: c.Draining()
  }

  /** How many events of `evs` start a new call. */
  function Starts(evs: seq<Event<RetryEvent>>): (n: nat)
    ensures n <= |evs|
    ensures n == 0 <==> forall i :: 0 <= i < |evs| ==> !evs[i].kind.CallStart?
  {
    if evs == [] then 0 else (if evs[0].kind.CallStart? then 1 else 0) + Starts(evs[1..])
  }

  /** The seeding of the loop: one load-generating event per client, at that client's drawn time. */
  function Seed(clients: seq<ClientRef>, seeds: seq<real>): (q: seq<Event<RetryEvent>>)
    requires |seeds| == |clients|
    ensures |q| == |clients|
    ensures forall i :: 0 <= i < |q| ==> q[i].time == seeds[i] && q[i].kind.GenLoad?
  {
    if clients == [] then [] else [Event(seeds[0], GenLoad(clients[0]))] + Seed(clients[1..], seeds[1..])
  }

  /** With distinct clients, each client has exactly one load-generating event in the seed. */
  lemma {:induction false} SeedOnePerClient(clients: seq<ClientRef>, seeds: seq<real>, c: ClientRef)
    requires |seeds| == |clients|
    requires forall i, j :: 0 <= i < j < |clients| ==> clients[i] != clients[j]
    ensures KindCount(Seed(clients, seeds), GenLoad(c)) == if c in clients then 1 else 0
  {
    if clients != [] {
      var q := Seed(clients, seeds);
      assert q[1..] == Seed(clients[1..], seeds[1..]);
      SeedOnePerClient(clients[1..], seeds[1..], c);
      assert c in clients <==> c == clients[0] || c in clients[1..];
    }
  }

  /** Every event of the seed names one of the clients, and every client is named. */
  lemma SeedLinked(clients: seq<ClientRef>, seeds: seq<real>)
    requires |seeds| == |clients|
    ensures forall e <- Seed(clients, seeds) :: Linked(clients, e.kind)
    ensures forall c <- clients :: exists e <- Seed(clients, seeds) :: e.kind == GenLoad(c)
  {
    var q := Seed(clients, seeds);
    forall e | e in q
      ensures Linked(clients, e.kind)
    {
      var i :| 0 <= i < |q| && q[i] == e;
      SeedNames(clients, seeds, i);
    }
    forall c | c in clients
      ensures exists e <- q :: e.kind == GenLoad(c)
    {
      var i :| 0 <= i < |clients| && clients[i] == c;
      SeedNames(clients, seeds, i);
      assert q[i] in q;
    }
  }

  lemma {:induction false} SeedNames(clients: seq<ClientRef>, seeds: seq<real>, i: nat)
    requires |seeds| == |clients| && i < |clients|
    ensures Seed(clients, seeds)[i].kind == GenLoad(clients[i])
  {
    if i > 0 {
      SeedNames(clients[1..], seeds[1..], i - 1);
    }
  }

  /** The objects an event's call consults when its policy is asked. */
  function EventObjects(evs: seq<Event<RetryEvent>>): set<object>
  {
    set e', o | e' in evs && !e'.kind.GenLoad? && o in e'.kind.call.retryStrategy.Footprint() :: o
  }

  /** The events a step returns name the clients, count as started where they must, and name the stepping call or a new one. */
  twostate predicate Produced(clients: seq<ClientRef>, origin: set<Call>, new evs: seq<Event<RetryEvent>>)
    reads EventObjects(evs)
  {
    forall e' <- evs ::
      && Linked(clients, e'.kind)
      && Started(e'.kind)
      && (!e'.kind.GenLoad? ==>
            e'.kind.call in origin ||
            (fresh(e'.kind.call) && fresh(e'.kind.call.retryStrategy.Footprint() - e'.kind.call.client.RetryStrategyOf().Shared())))
  }

  /**
   * Dispatching one event. Calls that are started count on their breaker,
   * so a failed attempt can always consult it; every event returned names
   * the event's own call or a freshly created one; nothing is scheduled
   * before the event's own time and no backoff turns negative; and while
   * the event's client is draining no new call is started and at most one
   * event comes back, none for a load-generating event.
   */
  method Dispatch(clients: seq<ClientRef>, e: Event<RetryEvent>, d: RetryDraw) returns (evs: seq<Event<RetryEvent>>)
    requires BreakersOk(clients) && AllPaced(clients) && DrawOk(d)
    requires Linked(clients, e.kind) && Started(e.kind)
    requires !e.kind.GenLoad? ==> e.kind.call.baseBackoff >= 0.0
    modifies World(clients), CallObjects(e.kind)
    ensures forall b: CircuitBreakerRetryStrategy :: old(allocated(b)) ==> old(b.calls) <= b.calls
    ensures forall s: Stats :: old(allocated(s)) && old(s.Valid()) ==> s.Valid()
    ensures forall c: Client :: old(allocated(c)) ==> c.drain == old(c.drain)
    ensures Produced(clients, if e.kind.GenLoad? then {} else {e.kind.call}, evs)
    ensures e.kind.GenLoad? && e.kind.client.Open? && !old(e.kind.client.Draining()) ==>
              exists e' <- evs :: e'.kind == e.kind
    ensures old(Owner(e.kind).Draining()) ==> Starts(evs) == 0
    ensures old(Owner(e.kind).Draining()) ==> |evs| <= 1 && (e.kind.GenLoad? ==> evs == [])
    ensures forall b: SerialClientWithBackoff :: old(allocated(b)) && old(b.currentBackoff) >= 0.0 && b.baseBackoff >= 0.0 ==>
              b.currentBackoff >= 0.0
    ensures forall c: Call :: old(allocated(c)) && old(c.baseBackoff) >= 0.0 ==> c.baseBackoff >= 0.0
    ensures AllPaced(clients)
    ensures NoneBefore(evs, e.time) && BackoffsOk(evs)
  {
    var t := e.time;
    match e.kind
    case GenLoad(c) =>
      match c {
        case Open(o) => evs := GenLoadOpen(clients, o, t, d.gap);
        case Serial(s) =>
          OwnedInWorld(clients, c);
          evs := GenLoadSerial(clients, s, t, d.gap);
        case Backoff(b) => evs := GenLoadBackoff(clients, b, t, d.gap);
      }
    case CallStart(call) =>
      evs := DispatchStart(clients, call, t, d.rtt);
    case ServerHandle(call) =>
      evs := [Event(t + d.serverDelay, if d.fail then CallDoneFailure(call) else CallDoneSuccess(call))];
    case CallDoneSuccess(call) =>
      evs := DispatchSuccess(clients, call, t, d.gap);
    case CallDoneFailure(call) =>
      evs := DispatchFailure(clients, call, t, d.rtt, d.gap);
  }

  method GenLoadOpen(clients: seq<ClientRef>, o: Client, t: real, gap: real) returns (evs: seq<Event<RetryEvent>>)
    requires BreakersOk(clients) && Open(o) in clients && Paced(Open(o)) && gap >= 0.0
    ensures forall b: CircuitBreakerRetryStrategy :: old(allocated(b)) ==> old(b.calls) <= b.calls
    ensures forall s: Stats :: old(allocated(s)) && old(s.Valid()) ==> s.Valid()
    ensures forall c: Client :: old(allocated(c)) ==> c.drain == old(c.drain)
    ensures Produced(clients, {}, evs)
    ensures !o.drain ==> exists e' <- evs :: e'.kind == GenLoad(Open(o))
    ensures o.drain ==> evs == []
    ensures NoneBefore(evs, t) && BackoffsOk(evs)
  {
    evs := o.GenLoad(t, gap);
  }

  method GenLoadSerial(clients: seq<ClientRef>, s: SerialClient, t: real, gap: real) returns (evs: seq<Event<RetryEvent>>)
    requires BreakersOk(clients) && Serial(s) in clients && Paced(Serial(s))
    modifies s
    ensures forall b: CircuitBreakerRetryStrategy :: old(allocated(b)) ==> old(b.calls) <= b.calls
    ensures forall s: Stats :: old(allocated(s)) && old(s.Valid()) ==> s.Valid()
    ensures forall c: Client :: old(allocated(c)) ==> c.drain == old(c.drain)
    ensures Produced(clients, {}, evs)
    ensures old(s.drain) ==> evs == []
    ensures NoneBefore(evs, t) && BackoffsOk(evs)
  {
    evs := s.GenLoad(t, gap);
  }

  method GenLoadBackoff(clients: seq<ClientRef>, b: SerialClientWithBackoff, t: real, gap: real) returns (evs: seq<Event<RetryEvent>>)
    requires BreakersOk(clients) && Backoff(b) in clients && Paced(Backoff(b)) && gap >= 0.0
    ensures forall b: CircuitBreakerRetryStrategy :: old(allocated(b)) ==> old(b.calls) <= b.calls
    ensures forall s: Stats :: old(allocated(s)) && old(s.Valid()) ==> s.Valid()
    ensures forall c: Client :: old(allocated(c)) ==> c.drain == old(c.drain)
    ensures Produced(clients, {}, evs)
    ensures old(b.drain) ==> evs == []
    ensures NoneBefore(evs, t) && BackoffsOk(evs)
  {
    evs := b.GenLoad(t, gap);
  }

  method DispatchStart(clients: seq<ClientRef>, call: Call, t: real, rtt: real) returns (evs: seq<Event<RetryEvent>>)
    requires BreakersOk(clients) && Linked(clients, CallStart(call))
    requires rtt >= 0.0 && call.baseBackoff >= 0.0
    modifies World(clients), call.retryStrategy.Footprint()
    ensures forall b: CircuitBreakerRetryStrategy :: old(allocated(b)) ==> old(b.calls) <= b.calls
    ensures forall s: Stats :: old(allocated(s)) && old(s.Valid()) ==> s.Valid()
    ensures forall c: Client :: old(allocated(c)) ==> c.drain == old(c.drain)
    ensures evs == [Event(t + rtt, ServerHandle(call))] && Started(ServerHandle(call))
    ensures forall b: SerialClientWithBackoff :: old(allocated(b)) && old(b.currentBackoff) >= 0.0 && b.baseBackoff >= 0.0 ==>
              b.currentBackoff >= 0.0
    ensures forall c: Call :: old(allocated(c)) && old(c.baseBackoff) >= 0.0 ==> c.baseBackoff >= 0.0
    ensures NoneBefore(evs, t) && BackoffsOk(evs)
  {
    OwnedInWorld(clients, call.client);
    evs := call.Start(t, rtt);
  }

  method DispatchSuccess(clients: seq<ClientRef>, call: Call, t: real, gap: real) returns (evs: seq<Event<RetryEvent>>)
    requires BreakersOk(clients) && Linked(clients, CallDoneSuccess(call))
    requires Paced(call.client) && gap >= 0.0
    modifies World(clients)
    ensures forall b: CircuitBreakerRetryStrategy :: old(allocated(b)) ==> old(b.calls) <= b.calls
    ensures forall s: Stats :: old(allocated(s)) && old(s.Valid()) ==> s.Valid()
    ensures forall c: Client :: old(allocated(c)) ==> c.drain == old(c.drain)
    ensures Produced(clients, {}, evs)
    ensures old(call.client.Draining()) ==> evs == []
    ensures |evs| <= 1
    ensures forall b: SerialClientWithBackoff :: old(allocated(b)) && old(b.currentBackoff) >= 0.0 && b.baseBackoff >= 0.0 ==>
              b.currentBackoff >= 0.0
    ensures forall c: Call :: old(allocated(c)) && old(c.baseBackoff) >= 0.0 ==> c.baseBackoff >= 0.0
    ensures NoneBefore(evs, t) && BackoffsOk(evs)
  {
    OwnedInWorld(clients, call.client);
    evs := call.DoneSuccess(t, gap);
    assert ClientAnswered(call.client, t, gap, evs);
  }

  method DispatchFailure(clients: seq<ClientRef>, call: Call, t: real, rtt: real, gap: real) returns (evs: seq<Event<RetryEvent>>)
    requires BreakersOk(clients) && Linked(clients, CallDoneFailure(call)) && Started(CallDoneFailure(call))
    requires Paced(call.client) && rtt >= 0.0 && gap >= 0.0 && call.baseBackoff >= 0.0
    modifies World(clients), {call} + call.retryStrategy.Footprint()
    ensures forall b: CircuitBreakerRetryStrategy :: old(allocated(b)) ==> old(b.calls) <= b.calls
    ensures forall s: Stats :: old(allocated(s)) && old(s.Valid()) ==> s.Valid()
    ensures forall c: Client :: old(allocated(c)) ==> c.drain == old(c.drain)
    ensures Produced(clients, {call}, evs)
    ensures old(call.client.Draining()) ==> Starts(evs) == 0
    ensures |evs| <= 1
    ensures forall b: SerialClientWithBackoff :: old(allocated(b)) && old(b.currentBackoff) >= 0.0 && b.baseBackoff >= 0.0 ==>
              b.currentBackoff >= 0.0
    ensures forall c: Call :: old(allocated(c)) && old(c.baseBackoff) >= 0.0 ==> c.baseBackoff >= 0.0
    ensures NoneBefore(evs, t) && BackoffsOk(evs)
  {
    OwnedInWorld(clients, call.client);
    ghost var retry := call.retryStrategy.WouldRetry();
    evs := call.DoneFailure(t, rtt, gap);
    if retry {
      assert evs == [Event(t + rtt + old(call.baseBackoff), ServerHandle(call))];
      assert call.baseBackoff == 2.0 * old(call.baseBackoff);
    } else {
      assert ClientFailed(call.client, t, gap, evs);
      assert |evs| <= 1 && NoneBefore(evs, t) && BackoffsOk(evs);
    }
  }

  /** The calls the events of `q` name. */
  function Calls(q: seq<Event<RetryEvent>>): set<Call>
  {
    set e <- q | !e.kind.GenLoad? :: e.kind.call
  }

  /** The policy state a call has to itself. */
  function Own(call: Call): set<object>
  {
    call.retryStrategy.Footprint() - call.client.RetryStrategyOf().Shared()
  }

  /**
   * The breakers stay at zero calls or more, the stats stay consistent, no
   * client or pending call waits a negative backoff, and every pending event
   * is well formed.
   */
  ghost predicate Ready(clients: seq<ClientRef>, q: seq<Event<RetryEvent>>)
    reads Breakers(clients), StatsObjects(clients), EventObjects(q), Selves(clients), Calls(q)
  {
    && BreakersOk(clients)
    && (forall s <- StatsObjects(clients) :: s.Valid())
    && AllPaced(clients) && BackoffsOk(q)
    && (forall e <- q :: Linked(clients, e.kind) && Started(e.kind))
  }

  /** An event naming handler `k` survives a step that does not dispatch it, and one that returns it again. */
  lemma StillPending<K>(q: seq<Event<K>>, evs: seq<Event<K>>, k: K)
    requires |q| > 0
    requires exists w <- q :: w.kind == k
    requires PopMin(q).0.kind == k ==> exists w <- evs :: w.kind == k
    ensures exists w <- PopMin(q).1 + evs :: w.kind == k
  {
    var (e, rest) := PopMin(q);
    if e.kind == k {
      var w :| w in evs && w.kind == k;
      assert w in rest + evs;
    } else {
      var w :| w in q && w.kind == k;
      assert w in multiset(q);
      assert w in multiset(rest);
      assert w in rest + evs;
    }
  }

  /**
   * One iteration of the loop: an earliest event is removed and dispatched,
   * and what it returns is added. The queue stays well formed, every call it
   * names was pending before or is new, open clients keep their pending
   * load generation, nothing is scheduled before the dispatched event and
   * no backoff turns negative, and while the event's client drains no call
   * is started and the queue does not grow.
   */
  method Step(clients: seq<ClientRef>, q: seq<Event<RetryEvent>>, d: RetryDraw)
      returns (e: Event<RetryEvent>, rest: seq<Event<RetryEvent>>, evs: seq<Event<RetryEvent>>)
    requires |q| > 0 && Ready(clients, q) && DrawOk(d)
    modifies World(clients), CallObjects(PopMin(q).0.kind)
    ensures (e, rest) == PopMin(q)
    ensures Ready(clients, rest + evs)
    ensures forall call <- Calls(rest + evs) :: call in Calls(q) || (fresh(call) && fresh(Own(call)))
    ensures forall c <- clients :: c.Open? ==> c.c.drain == old(c.c.drain)
    ensures forall c <- clients :: c.Open? && !c.c.drain && (exists w <- q :: w.kind == GenLoad(c)) ==>
              exists w <- rest + evs :: w.kind == GenLoad(c)
    ensures old(Owner(e.kind).Draining()) ==> Starts(evs) == 0 && |evs| <= 1
    ensures Owner(e.kind) in clients
    ensures NoneBefore(rest + evs, e.time)
  {
    e, rest := PopMin(q).0, PopMin(q).1;
    assert e in q;
    assert forall e' <- rest :: e' in q by {
      forall e' | e' in rest ensures e' in q {
        assert e' in multiset(rest);
      }
    }
    evs := Dispatch(clients, e, d);
    forall e' | e' in rest + evs && !e'.kind.GenLoad? ensures e'.kind.call.baseBackoff >= 0.0 {
      if e' in rest {
        assert e' in q;
        assert old(allocated(e'.kind.call)) && old(e'.kind.call.baseBackoff) >= 0.0;
      } else {
        assert e' in evs;
      }
    }
    forall call | call in Calls(rest + evs) ensures call in Calls(q) || (fresh(call) && fresh(Own(call))) {
      var e' :| e' in rest + evs && !e'.kind.GenLoad? && e'.kind.call == call;
      if e' in rest {
        assert e' in q;
      } else if !e.kind.GenLoad? && call == e.kind.call {
        assert e in q;
      }
    }
    forall c | c in clients && c.Open? && !c.c.drain && (exists w <- q :: w.kind == GenLoad(c))
      ensures exists w <- rest + evs :: w.kind == GenLoad(c)
    {
      StillPending(q, evs, GenLoad(c));
    }
  }

  /**
   * `sim_loop` as written: one load-generating event per client at its
   * seeded time, then the earliest event is dispatched until the queue is
   * empty (or, in this model, the draws run out), and after every event
   * `drain` records whether that event lay past the horizon.
   *
   * Every attempt that fails finds its breaker with at least one counted
   * call, every client's counters stay consistent, and `drain` ends up
   * telling whether the last dispatched event lay past `maxT`. Handlers
   * never schedule into the past, so the dispatched times never go
   * backwards and nothing pending is earlier than the clock. But nothing
   * passes `drain` on to the clients: while an open client does not drain,
   * the queue never empties and the run only stops when the draws run out.
   */
  method SimLoop(clients: seq<ClientRef>, maxT: real, seeds: seq<real>, draws: seq<RetryDraw>)
      returns (trace: seq<real>, drain: bool, q: seq<Event<RetryEvent>>)
    requires |seeds| == |clients| && forall s <- seeds :: s >= 0.0
    requires forall d <- draws :: DrawOk(d)
    requires BreakersOk(clients) && AllPaced(clients) && forall s <- StatsObjects(clients) :: s.Valid()
    modifies World(clients)
    ensures |trace| <= |draws|
    ensures |trace| == |draws| || q == []
    ensures drain <==> trace != [] && Clock(trace) > maxT
    ensures Sorted(trace) && NoneBefore(q, Clock(trace))
    ensures Ready(clients, q)
    ensures (exists c <- clients :: c.Open? && !c.c.drain) ==> |trace| == |draws|
  {
    q := Seed(clients, seeds);
    SeedLinked(clients, seeds);
    SeedInOrder(clients, seeds);
    drain := false;
    trace := [];
    while q != [] && |trace| < |draws|
      invariant |trace| <= |draws|
      invariant InOrder(q, trace, drain, maxT)
      invariant Ready(clients, q)
      invariant forall call <- Calls(q) :: fresh(call) && fresh(Own(call))
      invariant forall c <- clients :: c.Open? ==> c.c.drain == old(c.c.drain)
      invariant forall c <- clients :: c.Open? && !c.c.drain ==> exists e <- q :: e.kind == GenLoad(c)
      decreases |draws| - |trace|
    {
      ghost var q0 := q;
      var e := PopMin(q).0;
      OwnedInWorld(clients, Owner(e.kind));
      if !e.kind.GenLoad? {
        assert e in q;
        var call := e.kind.call;
        assert call in Calls(q);
        assert fresh(call) && fresh(Own(call));
        forall o | o in CallObjects(e.kind) ensures o in World(clients) || !old(allocated(o)) {
          if o != call && o !in Own(call) {
            assert o in call.client.RetryStrategyOf().Shared();
          }
        }
      }
      label pre:
      var rest, evs;
      assert draws[|trace|] in draws;
      e, rest, evs := Step(clients, q, draws[|trace|]);
      q := rest + evs;
      assert Ready(clients, q);
      forall call | call in Calls(q) ensures fresh(call) && fresh(Own(call)) {
        if call !in Calls(q0) {
          assert old(allocated(call)) ==> old@pre(allocated(call));
          assert forall o <- Own(call) :: old(allocated(o)) ==> old@pre(allocated(o));
        }
      }
      Advance(q0, trace, drain, maxT, evs);
      trace := trace + [e.time];
      drain := e.time > maxT;
    }
  }

  /**
   * The loop's clock so far: the dispatched times never go backwards, no
   * pending event is earlier than the last of them, and `drain` tells whether
   * the last of them lay past the horizon.
   */
  predicate InOrder(q: seq<Event<RetryEvent>>, trace: seq<real>, drain: bool, maxT: real)
  {
    && (drain <==> trace != [] && Clock(trace) > maxT)
    && Sorted(trace) && NoneBefore(q, Clock(trace))
  }

  /** Dispatching the earliest event, whose handler schedules nothing before it, keeps the clock in order. */
  lemma Advance(q: seq<Event<RetryEvent>>, trace: seq<real>, drain: bool, maxT: real, evs: seq<Event<RetryEvent>>)
    requires |q| > 0 && InOrder(q, trace, drain, maxT)
    requires NoneBefore(PopMin(q).1 + evs, PopMin(q).0.time)
    ensures InOrder(PopMin(q).1 + evs, trace + [PopMin(q).0.time], PopMin(q).0.time > maxT, maxT)
  {
    var t := PopMin(q).0.time;
    DispatchKeepsClock(q, Clock(trace), None);
    TraceStaysSorted(trace, t);
    assert Clock(trace + [t]) == t;
  }

  /** The seed schedules nothing before time zero and names no call. */
  lemma SeedInOrder(clients: seq<ClientRef>, seeds: seq<real>)
    requires |seeds| == |clients| && forall s <- seeds :: s >= 0.0
    ensures NoneBefore(Seed(clients, seeds), 0.0)
    ensures forall e <- Seed(clients, seeds) :: e.kind.GenLoad?
  {
    var q := Seed(clients, seeds);
    forall i | 0 <= i < |q| ensures 0.0 <= q[i].time {
      assert seeds[i] in seeds;
    }
  }

  /** The client objects themselves. */
  function Selves(clients: seq<ClientRef>): set<object>
  {
    set c <- clients :: c.Self()
  }

  /** Passes the simulation's drain flag on to every client. */
  method SetDrain(clients: seq<ClientRef>, v: bool)
    modifies Selves(clients)
    ensures forall c <- clients :: c.Draining() == v
    ensures forall b: CircuitBreakerRetryStrategy :: old(allocated(b)) ==> b.calls == old(b.calls)
    ensures forall s: Stats :: old(allocated(s)) ==> s.Valid() == old(s.Valid())
    ensures forall b: SerialClientWithBackoff :: old(allocated(b)) ==> b.currentBackoff == old(b.currentBackoff)
    ensures forall c: Call :: old(allocated(c)) ==> c.baseBackoff == old(c.baseBackoff)
  {
    for i := 0 to |clients|
      invariant forall j :: 0 <= j < i ==> clients[j].Draining() == v
      invariant forall b: CircuitBreakerRetryStrategy :: old(allocated(b)) ==> b.calls == old(b.calls)
      invariant forall s: Stats :: old(allocated(s)) ==> s.Valid() == old(s.Valid())
      invariant forall b: SerialClientWithBackoff :: old(allocated(b)) ==> b.currentBackoff == old(b.currentBackoff)
    {
      assert clients[i].Self() in Selves(clients);
      match clients[i]
      case Open(o) => o.drain := v;
      case Serial(sc) => sc.drain := v;
      case Backoff(b) => b.drain := v;
    }
  }

  /** Whether the queue was longer after step `j + 1` than after step `j`. */
  predicate Grew(queueLens: seq<nat>, j: nat)
    requires j + 1 < |queueLens|
  {
    queueLens[j + 1] > queueLens[j]
  }

  /**
   * Every step that follows a step past the horizon starts no call and
   * leaves no more events pending than the step before it.
   */
  predicate Quiet(trace: seq<real>, newCalls: seq<nat>, queueLens: seq<nat>, maxT: real)
  {
    && |newCalls| == |trace| && |queueLens| == |trace|
    && (forall j :: 0 <= j < |trace| - 1 && trace[j] > maxT ==> newCalls[j + 1] == 0 && !Grew(queueLens, j))
  }

  /** Appending a step that, after one past the horizon, starts nothing and does not lengthen the queue keeps the run quiet. */
  lemma {:induction false} StaysQuiet(trace: seq<real>, newCalls: seq<nat>, queueLens: seq<nat>, maxT: real,
                                      t: real, started: nat, len: nat)
    requires Quiet(trace, newCalls, queueLens, maxT)
    requires trace != [] && Clock(trace) > maxT ==> started == 0 && len <= queueLens[|trace| - 1]
    ensures Quiet(trace + [t], newCalls + [started], queueLens + [len], maxT)
  {
    var trace', newCalls', queueLens' := trace + [t], newCalls + [started], queueLens + [len];
    forall j | 0 <= j < |trace'| - 1 && trace'[j] > maxT
      ensures newCalls'[j + 1] == 0 && !Grew(queueLens', j)
    {
      if j < |trace| - 1 {
        assert trace'[j] == trace[j] && newCalls'[j + 1] == newCalls[j + 1];
        assert Grew(queueLens', j) == Grew(queueLens, j);
      }
    }
  }

  /**
   * What the corrected loop records: the dispatched times are in order,
   * `queueLens` ends with the queue's length, and the run is quiet past
   * the horizon.
   */
  predicate Recorded(q: seq<Event<RetryEvent>>, trace: seq<real>, newCalls: seq<nat>, queueLens: seq<nat>,
                     drain: bool, maxT: real)
  {
    && InOrder(q, trace, drain, maxT)
    && Quiet(trace, newCalls, queueLens, maxT)
    && (trace != [] ==> queueLens[|trace| - 1] == |q|)
  }

  /**
   * One step of the corrected loop: dispatch, then pass the new drain flag
   * on to the clients, and record the step. While they drain, the step
   * starts no call and leaves the queue no longer than it found it.
   */
  method StepAndDrain(clients: seq<ClientRef>, q: seq<Event<RetryEvent>>, d: RetryDraw, maxT: real, drain: bool,
                      trace: seq<real>, newCalls: seq<nat>, queueLens: seq<nat>)
      returns (q': seq<Event<RetryEvent>>, trace': seq<real>, newCalls': seq<nat>, queueLens': seq<nat>, drain': bool)
    requires |q| > 0 && Ready(clients, q) && DrawOk(d)
    requires forall c <- clients :: c.Draining() == drain
    requires Recorded(q, trace, newCalls, queueLens, drain, maxT)
    modifies World(clients), Selves(clients), CallObjects(PopMin(q).0.kind)
    ensures Ready(clients, q')
    ensures forall call <- Calls(q') :: call in Calls(q) || (fresh(call) && fresh(Own(call)))
    ensures forall c <- clients :: c.Draining() == drain'
    ensures trace' == trace + [PopMin(q).0.time]
    ensures Recorded(q', trace', newCalls', queueLens', drain', maxT)
    ensures drain ==> newCalls'[|trace|] == 0 && |q'| <= |q|
  {
    var e, rest, evs;
    e, rest, evs := Step(clients, q, d);
    Advance(q, trace, drain, maxT, evs);
    q' := rest + evs;
    assert Ready(clients, q') && BackoffsOk(q');
    var started := Starts(evs);
    drain' := e.time > maxT;
    label pre:
    SetDrain(clients, drain');
    forall e' | e' in q' && !e'.kind.GenLoad? ensures e'.kind.call.baseBackoff >= 0.0 {
      assert old@pre(allocated(e'.kind.call)) && old@pre(e'.kind.call.baseBackoff) >= 0.0;
    }
    StaysQuiet(trace, newCalls, queueLens, maxT, e.time, started, |q'|);
    trace', newCalls', queueLens' := trace + [e.time], newCalls + [started], queueLens + [|q'|];
  }

  /**
   * `sim_loop` as evidently intended: the clients see the drain flag, so
   * once an event past the horizon has been dispatched, no later step
   * starts a new call and no later step makes the queue longer.
   * `newCalls[i]` is the number of calls step `i` started and `queueLens[i]`
   * the number of events pending after it.
   */
  method SimLoopDraining(clients: seq<ClientRef>, maxT: real, seeds: seq<real>, draws: seq<RetryDraw>)
      returns (trace: seq<real>, newCalls: seq<nat>, queueLens: seq<nat>, drain: bool, q: seq<Event<RetryEvent>>)
    requires |seeds| == |clients| && forall s <- seeds :: s >= 0.0
    requires forall d <- draws :: DrawOk(d)
    requires BreakersOk(clients) && AllPaced(clients) && forall s <- StatsObjects(clients) :: s.Valid()
    modifies World(clients), Selves(clients)
    ensures |trace| <= |draws| && |newCalls| == |trace| && |queueLens| == |trace|
    ensures |trace| == |draws| || q == []
    ensures drain <==> trace != [] && Clock(trace) > maxT
    ensures Sorted(trace) && NoneBefore(q, Clock(trace))
    ensures forall c <- clients :: c.Draining() == drain
    ensures forall j :: 0 <= j < |trace| - 1 && trace[j] > maxT ==> newCalls[j + 1] == 0
    ensures forall j :: 0 <= j < |trace| - 1 && trace[j] > maxT ==> !Grew(queueLens, j)
    ensures Ready(clients, q)
  {
    q := Seed(clients, seeds);
    SeedLinked(clients, seeds);
    SeedInOrder(clients, seeds);
    drain := false;
    SetDrain(clients, drain);
    trace, newCalls, queueLens := [], [], [];
    while q != [] && |trace| < |draws|
      invariant |trace| <= |draws|
      invariant Recorded(q, trace, newCalls, queueLens, drain, maxT)
      invariant forall c <- clients :: c.Draining() == drain
      invariant Ready(clients, q)
      invariant forall call <- Calls(q) :: fresh(call) && fresh(Own(call))
      decreases |draws| - |trace|
    {
      ghost var q0 := q;
      ghost var e := PopMin(q).0;
      OwnedInWorld(clients, Owner(e.kind));
      if !e.kind.GenLoad? {
        assert e in q;
        var call := e.kind.call;
        assert call in Calls(q);
        assert fresh(call) && fresh(Own(call));
        forall o | o in CallObjects(e.kind) ensures o in World(clients) || !old(allocated(o)) {
          if o != call && o !in Own(call) {
            assert o in call.client.RetryStrategyOf().Shared();
          }
        }
      }
      label pre:
      assert draws[|trace|] in draws;
      q, trace, newCalls, queueLens, drain := StepAndDrain(clients, q, draws[|trace|], maxT, drain, trace, newCalls, queueLens);
      forall call | call in Calls(q) ensures fresh(call) && fresh(Own(call)) {
        if call !in Calls(q0) {
          assert old(allocated(call)) ==> old@pre(allocated(call));
          assert forall o <- Own(call) :: old(allocated(o)) ==> old@pre(allocated(o));
        }
      }
    }
  }
}
