/**
 * Retry policies of the retry simulator: a fixed per-call budget of N
 * retries, a token bucket shared by every call of a client, and a circuit
 * breaker that wraps a per-call budget with counters shared by every call.
 * Each policy object answers `ShouldRetry` after a failed attempt; the
 * factories build one policy per client and `NewCall` gives each call the
 * object it consults.
 */
module RetryStrategy {

  /** Per-call budget: the first N failures of a call are retried, every later one is not. */
  class NRetriesStrategy {
    const n: int
    var nTries: int

    constructor (n: int)
      ensures this.n == n && nTries == 0
    {
      this.n := n;
      nTries := 0;
    }

    /** Every call gets its own budget, with the same N and nothing spent. */
    method NewCall() returns (s: NRetriesStrategy)
      ensures fresh(s)
      ensures s.n == n && s.nTries == 0
    {
      s := new NRetriesStrategy(n);
    }

    /** Starting a call does not touch the budget. */
    method Start()
    {
    }

    method ShouldRetry() returns (retry: bool)
      modifies this
      ensures nTries == old(nTries) + 1
      ensures retry <==> nTries <= n
    {
      nTries := nTries + 1;
      retry := nTries <= n;
    }
  }

  /**
   * The answers a budget gives to `k` consecutive failures: answer i
   * (counting from 0) is a retry exactly when the try it spends is still
   * within the budget of N.
   */
  method ConsecutiveAnswers(s: NRetriesStrategy, k: nat) returns (answers: seq<bool>)
    modifies s
    ensures s.nTries == old(s.nTries) + k
    ensures |answers| == k
    ensures forall i :: 0 <= i < k ==> (answers[i] <==> old(s.nTries) + i + 1 <= s.n)
  {
    answers := [];
    while |answers| < k
      invariant |answers| <= k
      invariant s.nTries == old(s.nTries) + |answers|
      invariant forall i :: 0 <= i < |answers| ==> (answers[i] <==> old(s.nTries) + i + 1 <= s.n)
    {
      var r := s.ShouldRetry();
      answers := answers + [r];
    }
  }

  /** With N = 3, four consecutive failures of one call get retry, retry, retry, give up. */
  method ThreeRetriesScenario() returns (answers: seq<bool>)
    ensures answers == [true, true, true, false]
  {
    var s := new NRetriesStrategy(3);
    answers := ConsecutiveAnswers(s, 4);
  }

  /** Token bucket shared by all the calls made through one client. */
  class AdaptiveRetryStrategy {
    const bucketSize: real
    const bucketFillRate: real
    var bucket: real

    /** The bucket holds between zero and its size of tokens. */
    ghost predicate Valid()
      reads this
    {
      0.0 <= bucket <= bucketSize
    }

    constructor (bucketFillRate: real, bucketSize: real)
      ensures this.bucketFillRate == bucketFillRate && this.bucketSize == bucketSize
      ensures bucket == bucketSize
      ensures bucketSize >= 0.0 ==> Valid()
    {
      this.bucketSize := bucketSize;
      this.bucketFillRate := bucketFillRate;
      bucket := bucketSize;
    }

    /** Calls share this one bucket: a call consults the strategy object itself. */
    method NewCall() returns (s: AdaptiveRetryStrategy)
      ensures s == this
    {
      s := this;
    }

    /** Each started call refills the bucket by the fill rate, never past its size. */
    method Start()
      modifies this
      ensures bucket <= bucketSize
      ensures bucket == Min(old(bucket) + bucketFillRate, bucketSize)
      ensures old(Valid()) && bucketFillRate >= 0.0 ==> Valid()
    {
      bucket := Min(bucket + bucketFillRate, bucketSize);
    }

    /** A retry costs one token and is granted only while MORE than one token is left. */
    method ShouldRetry() returns (retry: bool)
      modifies this
      ensures retry <==> old(bucket) > 1.0
      ensures bucket == if retry then old(bucket) - 1.0 else old(bucket)
      ensures old(Valid()) ==> Valid()
    {
      if bucket > 1.0 {
        bucket := bucket - 1.0;
        retry := true;
      } else {
        retry := false;
      }
    }
  }

  function Min(a: real, b: real): (m: real)
    ensures m <= a && m <= b
    ensures m == a || m == b
  {
    if a <= b then a else b
  }

  /**
   * The answers a bucket holding `tokens` gives to `k` consecutive failures
   * with no call started in between, and the tokens left afterwards.
   */
  method DrainBucket(s: AdaptiveRetryStrategy, k: nat) returns (answers: seq<bool>)
    modifies s
    ensures |answers| == k
    ensures s.bucket == old(s.bucket) - Granted(answers) as real
    ensures answers == BucketAnswers(old(s.bucket), k)
  {
    answers := [];
    while |answers| < k
      invariant |answers| <= k
      invariant s.bucket == old(s.bucket) - Granted(answers) as real
      invariant answers == BucketAnswers(old(s.bucket), |answers|)
    {
      var r := s.ShouldRetry();
      BucketAnswersSpent(old(s.bucket), |answers|);
      GrantedAppend(answers, r);
      answers := answers + [r];
    }
  }

  /** Number of retries granted in a run of answers. */
  function Granted(answers: seq<bool>): nat
  {
    if answers == [] then 0
    else Granted(answers[..|answers| - 1]) + (if answers[|answers| - 1] then 1 else 0)
  }

  lemma GrantedAppend(answers: seq<bool>, r: bool)
    ensures Granted(answers + [r]) == Granted(answers) + (if r then 1 else 0)
  {
    assert (answers + [r])[..|answers|] == answers;
  }

  /**
   * Reference answers of a bucket that starts with `tokens` and is asked
   * `k` times in a row: retries while more than one token is left, with one
   * token spent per retry.
   */
  function BucketAnswers(tokens: real, k: nat): (answers: seq<bool>)
    ensures |answers| == k
    ensures forall i :: 0 <= i < k ==> (answers[i] <==> tokens - i as real > 1.0)
  {
    if k == 0 then [] else BucketAnswers(tokens, k - 1) + [tokens - (k - 1) as real > 1.0]
  }

  /**
   * Either every answer so far was a retry (one token spent per answer), or
   * the bucket is already down to one token or less and stays there.
   */
  lemma {:induction false} BucketAnswersSpent(tokens: real, k: nat)
    ensures Granted(BucketAnswers(tokens, k)) <= k
    ensures Granted(BucketAnswers(tokens, k)) == k || tokens - Granted(BucketAnswers(tokens, k)) as real <= 1.0
  {
    if k > 0 {
      BucketAnswersSpent(tokens, k - 1);
      GrantedAppend(BucketAnswers(tokens, k - 1), tokens - (k - 1) as real > 1.0);
    }
  }

  /**
   * A full bucket of 5 with no call started in between grants four retries
   * and refuses the fifth: the test is strictly greater than one token.
   */
  method FullBucketScenario() returns (answers: seq<bool>)
    ensures answers == [true, true, true, true, false]
  {
    var s := new AdaptiveRetryStrategy(0.1, 5.0);
    answers := DrainBucket(s, 5);
  }

  /** Counters of one circuit breaker, shared by every call made through it. */
  class CircuitBreakerRetryStrategy {
    const nRetriesStrategy: NRetriesStrategy
    const maxRate: real
    var calls: real
    var failures: real

    constructor (nRetriesStrategy: NRetriesStrategy, maxRate: real)
      ensures this.nRetriesStrategy == nRetriesStrategy && this.maxRate == maxRate
      ensures calls == 0.0 && failures == 0.0
    {
      this.nRetriesStrategy := nRetriesStrategy;
      this.maxRate := maxRate;
      calls := 0.0;
      failures := 0.0;
    }

    /** A call shares this breaker's counters but gets its own fresh retry budget. */
    method NewCall() returns (c: CircuitBreakerRetryCall)
      ensures fresh(c) && fresh(c.nrs)
      ensures c.cbrs == this
      ensures c.nrs.n == nRetriesStrategy.n && c.nrs.nTries == 0
    {
      var nrs := nRetriesStrategy.NewCall();
      c := new CircuitBreakerRetryCall(this, nrs);
    }
  }

  /** The policy one call consults when the breaker is in use. */
  class CircuitBreakerRetryCall {
    const cbrs: CircuitBreakerRetryStrategy
    const nrs: NRetriesStrategy

    constructor (cbrs: CircuitBreakerRetryStrategy, nrs: NRetriesStrategy)
      ensures this.cbrs == cbrs && this.nrs == nrs
    {
      this.cbrs := cbrs;
      this.nrs := nrs;
    }

    /** Every started call is counted on the shared breaker. */
    method Start()
      modifies cbrs
      ensures cbrs.calls == old(cbrs.calls) + 1.0
      ensures cbrs.failures == old(cbrs.failures)
    {
      cbrs.calls := cbrs.calls + 1.0;
    }

    /**
     * Every failure is counted on the shared breaker first; while the failure
     * rate exceeds the limit the call gives up without consulting (or
     * spending) its own budget, otherwise its budget decides.
     */
    method ShouldRetry() returns (retry: bool)
      requires cbrs.calls != 0.0
      modifies cbrs, nrs
      ensures cbrs.failures == old(cbrs.failures) + 1.0
      ensures cbrs.calls == old(cbrs.calls)
      ensures Tripped(cbrs.failures, cbrs.calls, cbrs.maxRate) ==> !retry && nrs.nTries == old(nrs.nTries)
      ensures !Tripped(cbrs.failures, cbrs.calls, cbrs.maxRate) ==>
                nrs.nTries == old(nrs.nTries) + 1 && (retry <==> nrs.nTries <= nrs.n)
    {
      cbrs.failures := cbrs.failures + 1.0;
      if cbrs.failures / cbrs.calls > cbrs.maxRate {
        retry := false;
      } else {
        retry := nrs.ShouldRetry();
      }
    }
  }

  /** The breaker is open when failures per call exceed the allowed rate. */
  predicate Tripped(failures: real, calls: real, maxRate: real)
    requires calls != 0.0
  {
    failures / calls > maxRate
  }

  /**
   * A breaker limited to 0.1 that has seen 10 calls and 1 failure opens on
   * the next failure (2 failures in 10 calls), whatever budget the call has left.
   */
  method BreakerScenario() returns (retry: bool, budgetUsed: int)
    ensures !retry && budgetUsed == 0
  {
    var template := new NRetriesStrategy(1000);
    var breaker := new CircuitBreakerRetryStrategy(template, 0.1);
    breaker.calls := 10.0;
    breaker.failures := 1.0;
    var call := breaker.NewCall();
    retry := call.ShouldRetry();
    budgetUsed := call.nrs.nTries;
  }

  /** The policy object a client holds, one of the three kinds. */
  datatype Strategy =
    | NRetries(nrs: NRetriesStrategy)
    | Adaptive(ars: AdaptiveRetryStrategy)
    | CircuitBreaker(cbs: CircuitBreakerRetryStrategy)
  {
    /** The objects every call made through this policy shares. */
    function Shared(): set<object>
    {
      match this
      case NRetries(_) => {}
      case Adaptive(s) => {s}
      case CircuitBreaker(s) => {s}
    }
  }

  /** The policy object a single call consults. */
  datatype CallStrategy =
    | CallNRetries(nrs: NRetriesStrategy)
    | CallAdaptive(ars: AdaptiveRetryStrategy)
    | CallBreaker(cb: CircuitBreakerRetryCall)
  {
    /** The objects that `Start` and `ShouldRetry` may change. */
    function Footprint(): set<object>
    {
      match this
      case CallNRetries(s) => {s}
      case CallAdaptive(s) => {s}
      case CallBreaker(c) => {c.cbrs, c.nrs}
    }

    /** What the call needs before it may ask `ShouldRetry`: a breaker must have counted a call. */
    predicate CanAsk()
      reads Footprint()
    {
      CallBreaker? ==> cb.cbrs.calls != 0.0
    }

    /** The per-call budget, where the policy has one. */
    function Budget(): NRetriesStrategy
      requires !CallAdaptive?
    {
      if CallNRetries? then nrs else cb.nrs
    }

    /** Whether `ShouldRetry`, asked in the current state, answers retry. */
    function WouldRetry(): bool
      requires CanAsk()
      reads Footprint()
    {
      match this
      case CallNRetries(s) => s.nTries + 1 <= s.n
      case CallAdaptive(s) => s.bucket > 1.0
      case CallBreaker(c) => !Tripped(c.cbrs.failures + 1.0, c.cbrs.calls, c.cbrs.maxRate) && c.nrs.nTries + 1 <= c.nrs.n
    }
  }

  /** `cs` is what `new_call` gives a call of a client holding `s`. */
  predicate IsCallOf(cs: CallStrategy, s: Strategy)
  {
    match s
    case NRetries(nrs) => cs.CallNRetries? && cs.nrs.n == nrs.n
    case Adaptive(ars) => cs == CallAdaptive(ars)
    case CircuitBreaker(cbs) => cs.CallBreaker? && cs.cb.cbrs == cbs && cs.cb.nrs.n == cbs.nRetriesStrategy.n
  }

  /** `new_call` on a client's policy: a fresh budget, the shared bucket, or a breaker call with a fresh budget. */
  method NewCall(s: Strategy) returns (cs: CallStrategy)
    ensures IsCallOf(cs, s)
    ensures fresh(cs.Footprint() - s.Shared())
    ensures cs.CallBreaker? ==> fresh(cs.cb)
    ensures !cs.CallAdaptive? ==> cs.Budget().nTries == 0
  {
    match s
    case NRetries(nrs) =>
      var c := nrs.NewCall();
      cs := CallNRetries(c);
    case Adaptive(ars) =>
      var c := ars.NewCall();
      cs := CallAdaptive(c);
    case CircuitBreaker(cbs) =>
      var c := cbs.NewCall();
      cs := CallBreaker(c);
  }

  /** The state change of `start` on a call's policy. */
  twostate predicate StartedFrom(cs: CallStrategy)
    reads cs.Footprint()
  {
    match cs
    case CallNRetries(s) => s.nTries == old(s.nTries)
    case CallAdaptive(s) => s.bucket == Min(old(s.bucket) + s.bucketFillRate, s.bucketSize)
    case CallBreaker(c) =>
      c.cbrs.calls == old(c.cbrs.calls) + 1.0 && c.cbrs.failures == old(c.cbrs.failures) && c.nrs.nTries == old(c.nrs.nTries)
  }

  /** The state change of `should_retry` on a call's policy that answered `retry`. */
  twostate predicate AnsweredFrom(cs: CallStrategy, retry: bool)
    reads cs.Footprint()
  {
    match cs
    case CallNRetries(s) => s.nTries == old(s.nTries) + 1
    case CallAdaptive(s) => s.bucket == if retry then old(s.bucket) - 1.0 else old(s.bucket)
    case CallBreaker(c) =>
      && c.cbrs.failures == old(c.cbrs.failures) + 1.0
      && c.cbrs.calls == old(c.cbrs.calls)
      && c.nrs.nTries == (if c.cbrs.calls != 0.0 && Tripped(c.cbrs.failures, c.cbrs.calls, c.cbrs.maxRate)
                          then old(c.nrs.nTries) else old(c.nrs.nTries) + 1)
  }

  /** `start` on a call's policy. */
  method StartCall(cs: CallStrategy)
    modifies cs.Footprint()
    ensures StartedFrom(cs)
    ensures forall b: CircuitBreakerRetryStrategy :: old(allocated(b)) ==> old(b.calls) <= b.calls
  {
    match cs
    case CallNRetries(s) => s.Start();
    case CallAdaptive(s) => s.Start();
    case CallBreaker(c) => c.Start();
  }

  /** `should_retry` on a call's policy: the answer its state called for, with that answer's state change. */
  method AskRetry(cs: CallStrategy) returns (retry: bool)
    requires cs.CanAsk()
    modifies cs.Footprint()
    ensures retry == old(cs.WouldRetry())
    ensures AnsweredFrom(cs, retry)
    ensures cs.CanAsk()
    ensures forall b: CircuitBreakerRetryStrategy :: old(allocated(b)) ==> old(b.calls) <= b.calls
  {
    match cs
    case CallNRetries(s) => retry := s.ShouldRetry();
    case CallAdaptive(s) => retry := s.ShouldRetry();
    case CallBreaker(c) => retry := c.ShouldRetry();
  }

  /** Factories: what a client is configured with. */
  datatype NRetriesFactory = NRetriesFactory(n: int)

  datatype AdaptiveRetryFactory = AdaptiveRetryFactory(bucketFillRate: real, bucketSize: real)

  datatype CircuitBreakerRetryFactory = CircuitBreakerRetryFactory(nRetriesFactory: NRetriesFactory, maxRate: real)

  datatype Factory =
    | MakeNRetries(nf: NRetriesFactory)
    | MakeAdaptive(af: AdaptiveRetryFactory)
    | MakeCircuitBreaker(cf: CircuitBreakerRetryFactory)

  /** `make`: every client gets its own fresh policy object, configured as the factory says. */
  method Make(f: Factory) returns (s: Strategy)
    ensures f.MakeNRetries? ==> s.NRetries? && fresh(s.nrs) && s.nrs.n == f.nf.n && s.nrs.nTries == 0
    ensures f.MakeAdaptive? ==> s.Adaptive? && fresh(s.ars) && s.ars.bucketFillRate == f.af.bucketFillRate
                                && s.ars.bucketSize == f.af.bucketSize && s.ars.bucket == f.af.bucketSize
    ensures f.MakeCircuitBreaker? ==> s.CircuitBreaker? && fresh(s.cbs) && fresh(s.cbs.nRetriesStrategy)
                                      && s.cbs.nRetriesStrategy.n == f.cf.nRetriesFactory.n
                                      && s.cbs.nRetriesStrategy.nTries == 0 && s.cbs.maxRate == f.cf.maxRate
                                      && s.cbs.calls == 0.0 && s.cbs.failures == 0.0
  {
    match f
    case MakeNRetries(nf) =>
      var nrs := new NRetriesStrategy(nf.n);
      s := NRetries(nrs);
    case MakeAdaptive(af) =>
      var ars := new AdaptiveRetryStrategy(af.bucketFillRate, af.bucketSize);
      s := Adaptive(ars);
    case MakeCircuitBreaker(cf) =>
      var nrs := new NRetriesStrategy(cf.nRetriesFactory.n);
      var cbs := new CircuitBreakerRetryStrategy(nrs, cf.maxRate);
      s := CircuitBreaker(cbs);
  }
}
