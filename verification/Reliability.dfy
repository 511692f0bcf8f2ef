/** Retrying a publisher: bounded attempts with capped exponential delays. */
module Reliability {
  import opened Base

  datatype RetryPolicy = RetryPolicy(maxAttempts: int, baseDelay: real, maxDelay: real) {
    function Attempts(): (n: nat)
      ensures n >= 1
    {
      Max(1, maxAttempts)
    }

    /** base * 2^(attempt - 1), at most the maximum. */
    function Delay(attempt: int): real {
      var d := baseDelay * Pow2(Max(0, attempt - 1)) as real;
      if d <= maxDelay then d else maxDelay
    }
  }

  function Total(xs: seq<real>): real { if xs == [] then 0.0 else Total(xs[..|xs| - 1]) + xs[|xs| - 1] }

  // ----- retrying one publisher ------------------------------------------------------------

  /** The publisher's answers: `replies(n)` tells whether call number n succeeds. An exception
      counts as a failure. */
  type Replies = nat -> bool

  /** How many calls are made, from call number c on, with at most n attempts. */
  function Tries(replies: Replies, c: nat, n: nat): (k: nat)
    requires n >= 1
    ensures 1 <= k <= n
    decreases n
  {
    if n == 1 || replies(c) then 1 else 1 + Tries(replies, c + 1, n - 1)
  }

  function Succeeds(replies: Replies, c: nat, n: nat): bool
    requires n >= 1
    decreases n
  {
    replies(c) || (n > 1 && Succeeds(replies, c + 1, n - 1))
  }

  /** The tries stop at the first success, and only there before the limit. */
  lemma {:induction false} TriesStopAtSuccess(replies: Replies, c: nat, n: nat)
    requires n >= 1
    ensures var k := Tries(replies, c, n);
      && (forall j :: c <= j < c + k - 1 ==> !replies(j))
      && (Succeeds(replies, c, n) <==> replies(c + k - 1))
      && (!Succeeds(replies, c, n) ==> k == n)
    decreases n
  {
    if n > 1 && !replies(c) {
      TriesStopAtSuccess(replies, c + 1, n - 1);
    }
  }

  class Publisher {
    const name: string
    const replies: Replies
    var calls: nat

    constructor (name: string, replies: Replies)
      ensures this.name == name && this.replies == replies && calls == 0
    {
      this.name, this.replies, calls := name, replies, 0;
    }

    method Publish() returns (success: bool)
      modifies this
      ensures calls == old(calls) + 1 && success == replies(old(calls))
    {
      success := replies(calls);
      calls := calls + 1;
    }
  }

  class ReliablePublisher {
    const publisher: Publisher
    const policy: RetryPolicy
    var attempts: int

    constructor (publisher: Publisher, policy: RetryPolicy)
      ensures this.publisher == publisher && this.policy == policy && attempts == 0
    {
      this.publisher, this.policy, attempts := publisher, policy, 0;
    }

    /** The recorded attempts are the calls made; between two calls the policy's delay is slept. */
    method Publish() returns (success: bool, slept: seq<real>)
      modifies this, publisher
      ensures attempts == Tries(publisher.replies, old(publisher.calls), policy.Attempts())
      ensures publisher.calls == old(publisher.calls) + attempts
      ensures success == Succeeds(publisher.replies, old(publisher.calls), policy.Attempts())
      ensures 1 <= attempts && (!success ==> attempts == if policy.maxAttempts >= 1 then policy.maxAttempts else 1)
      ensures success == publisher.replies(publisher.calls - 1)
      ensures forall c :: old(publisher.calls) <= c < publisher.calls - 1 ==> !publisher.replies(c)
      ensures |slept| == attempts - 1 && forall i :: 0 <= i < |slept| ==> slept[i] == policy.Delay(i + 1)
    {
      attempts := 0;
      slept := [];
      success := false;
      var maxAttempts := Max(1, policy.maxAttempts);
      ghost var c := publisher.calls;
      for attempt := 1 to maxAttempts + 1
        invariant attempts == attempt - 1 && publisher.calls == c + attempts && !success
        invariant attempt <= maxAttempts ==>
          && Tries(publisher.replies, c, maxAttempts) == attempts + Tries(publisher.replies, publisher.calls, maxAttempts - attempts)
          && Succeeds(publisher.replies, c, maxAttempts) == Succeeds(publisher.replies, publisher.calls, maxAttempts - attempts)
        invariant attempt > maxAttempts ==>
          Tries(publisher.replies, c, maxAttempts) == attempts && !Succeeds(publisher.replies, c, maxAttempts)
        invariant forall j :: c <= j < publisher.calls ==> !publisher.replies(j)
        invariant |slept| == if attempt > maxAttempts then attempts - 1 else attempts
        invariant forall i :: 0 <= i < |slept| ==> slept[i] == policy.Delay(i + 1)
      {
        attempts := attempt;
        var ok := publisher.Publish();
        if ok {
          success := true;
          return;
        }
        if attempt < maxAttempts {
          slept := slept + [policy.Delay(attempt)];
        }
      }
    }
  }

  /** Total sleep is at most (attempts - 1) times the maximal delay. */
  lemma {:induction false} SleepIsBounded(policy: RetryPolicy, slept: seq<real>)
    requires forall i :: 0 <= i < |slept| ==> slept[i] == policy.Delay(i + 1)
    ensures Total(slept) <= |slept| as real * policy.maxDelay
  {
    if slept != [] {
      var n := |slept| - 1;
      SleepIsBounded(policy, slept[..n]);
      assert n as real * policy.maxDelay + policy.maxDelay == (n + 1) as real * policy.maxDelay;
    }
  }

  /** The first delay is the base, and every further one doubles the one before, up to the maximum. */
  lemma DelaysDouble(policy: RetryPolicy, attempt: int)
    requires policy.baseDelay >= 0.0 && policy.maxDelay >= 0.0
    ensures attempt <= 1 ==> policy.Delay(attempt) == if policy.baseDelay <= policy.maxDelay then policy.baseDelay else policy.maxDelay
    ensures attempt >= 1 ==>
      policy.Delay(attempt + 1) == if 2.0 * policy.Delay(attempt) <= policy.maxDelay then 2.0 * policy.Delay(attempt) else policy.maxDelay
  {
    if attempt >= 1 {
      var p := Pow2(attempt - 1);
      assert policy.baseDelay * Pow2(attempt) as real == 2.0 * (policy.baseDelay * p as real);
      assert policy.baseDelay * p as real >= 0.0;
    }
  }

  /** The delays never shrink from one attempt to the next. */
  lemma DelaysGrow(policy: RetryPolicy, attempt: nat)
    requires policy.baseDelay >= 0.0
    ensures policy.Delay(attempt) <= policy.Delay(attempt + 1)
  {
    var p := Pow2(Max(0, attempt - 1));
    assert p <= Pow2(attempt);
    assert policy.baseDelay * p as real <= policy.baseDelay * Pow2(attempt) as real;
  }
}
