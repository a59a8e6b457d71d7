/**
 * Counters of the retry simulator: calls started, attempts made (first
 * tries plus retries) and successes.
 */
module RetryStats {

  class Stats {
    var successes: int
    var totalCalls: int
    var uniqueCalls: int
    const failureRate: real
    const name: string

    /** Every attempt is a first try or a retry, so attempts never fall below calls. */
    ghost predicate Valid()
      reads this
    {
      0 <= uniqueCalls <= totalCalls && 0 <= successes
    }

    constructor (failureRate: real, name: string)
      ensures successes == 0 && totalCalls == 0 && uniqueCalls == 0
      ensures this.failureRate == failureRate && this.name == name
      ensures Valid()
    {
      successes, totalCalls, uniqueCalls := 0, 0, 0;
      this.failureRate := failureRate;
      this.name := name;
    }

    /** A new call's first attempt: one more call and one more attempt. */
    method FirstTry()
      modifies this
      ensures uniqueCalls == old(uniqueCalls) + 1 && totalCalls == old(totalCalls) + 1
      ensures successes == old(successes)
      ensures old(Valid()) ==> Valid()
    {
      uniqueCalls := uniqueCalls + 1;
      totalCalls := totalCalls + 1;
    }

    /** A retry is one more attempt of a call already counted. */
    method Retry()
      modifies this
      ensures totalCalls == old(totalCalls) + 1
      ensures uniqueCalls == old(uniqueCalls) && successes == old(successes)
      ensures old(Valid()) ==> Valid()
    {
      totalCalls := totalCalls + 1;
    }

    method Success()
      modifies this
      ensures successes == old(successes) + 1
      ensures uniqueCalls == old(uniqueCalls) && totalCalls == old(totalCalls)
      ensures old(Valid()) ==> Valid()
    {
      successes := successes + 1;
    }
  }
}
