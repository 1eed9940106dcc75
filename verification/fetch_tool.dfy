/** The retry loop of `YFinanceStockTool._run`: up to three attempts, a retry
    only after an exception whose text contains "429" on a non-final attempt, and
    every other exception reported at once. The provider's answer to each attempt
    is given in advance; the sleeps between attempts are left out. */
module FetchTool {
  import opened Strings
  import opened MarketData

  const MaxRetries: nat := 3
  const RateLimitCode := "429"

  /** The retry rule: the message names the rate-limit status and this is not the
      last attempt. */
  predicate Retryable(message: string, attempt: nat) {
    Occurs(RateLimitCode, message) && attempt < MaxRetries - 1
  }

  /** One scripted provider answer per attempt the loop may make, each with real dates. */
  predicate ValidScript(attempts: seq<Attempt>) {
    |attempts| == MaxRetries && forall k :: 0 <= k < |attempts| ==> WellDated(attempts[k])
  }

  /** The tool's result once attempt `k` has settled: what it returned, or the
      error message for what it raised. */
  function Settle(symbol: string, s: Step): ToolOutput {
    match s
    case Returned(o) => o
    case Raised(m) => FetchError(symbol, m)
  }

  /** Attempt `k` raised an error the loop retries. */
  predicate RetriedAt(symbol: string, attempts: seq<Attempt>, clock: Clock, k: nat)
    requires ValidScript(attempts) && ValidClock(clock) && k < MaxRetries
  {
    var s := RunAttempt(symbol, attempts[k], clock);
    s.Raised? && Retryable(s.message, k)
  }

  /** Every attempt before attempt `n` raised an error the loop retries. */
  predicate RetriedBefore(symbol: string, attempts: seq<Attempt>, clock: Clock, n: nat)
    requires ValidScript(attempts) && ValidClock(clock) && n <= MaxRetries
  {
    forall k :: 0 <= k < n ==> RetriedAt(symbol, attempts, clock, k)
  }

  lemma RetriedBeforeExtends(symbol: string, attempts: seq<Attempt>, clock: Clock, n: nat)
    requires ValidScript(attempts) && ValidClock(clock) && n < MaxRetries
    requires RetriedBefore(symbol, attempts, clock, n) && RetriedAt(symbol, attempts, clock, n)
    ensures RetriedBefore(symbol, attempts, clock, n + 1)
  {
  }

  /** The result of running the loop from attempt `k` on. */
  function FetchFrom(symbol: string, attempts: seq<Attempt>, clock: Clock, k: nat): (r: ToolOutput)
    requires ValidScript(attempts) && ValidClock(clock) && k <= MaxRetries
    ensures k < MaxRetries ==> r.Data? || r.NoRecentData? || r.FetchError?
    ensures r.FetchError? ==> exists j :: k <= j < MaxRetries && RunAttempt(symbol, attempts[j], clock) == Raised(r.cause)
    decreases MaxRetries - k
  {
    if k == MaxRetries then RetriesExhausted(symbol, MaxRetries)
    else if RetriedAt(symbol, attempts, clock, k) then FetchFrom(symbol, attempts, clock, k + 1)
    else Settle(symbol, RunAttempt(symbol, attempts[k], clock))
  }

  /** The tool's result for `symbol`. */
  function Fetch(symbol: string, attempts: seq<Attempt>, clock: Clock): (r: ToolOutput)
    requires ValidScript(attempts) && ValidClock(clock)
    ensures !r.RetriesExhausted?
    ensures r.Data? || r.NoRecentData? ==> exists j :: 0 <= j < MaxRetries && RunAttempt(symbol, attempts[j], clock) == Returned(r)
    ensures r.FetchError? ==> r.symbol == symbol
  {
    FetchFrom(symbol, attempts, clock, 0)
  }

  /** The loop as the tool runs it. `tried` counts the attempts made. */
  method Run(symbol: string, attempts: seq<Attempt>, clock: Clock) returns (out: ToolOutput, ghost tried: nat)
    requires ValidScript(attempts) && ValidClock(clock)
    ensures out == Fetch(symbol, attempts, clock)
    ensures !out.RetriesExhausted?
    ensures 1 <= tried <= MaxRetries
    ensures RetriedBefore(symbol, attempts, clock, tried - 1)
    ensures !RetriedAt(symbol, attempts, clock, tried - 1)
    ensures out == Settle(symbol, RunAttempt(symbol, attempts[tried - 1], clock))
  {
    var attempt: nat := 0;
    tried := 0;
    while attempt < MaxRetries
      invariant attempt <= MaxRetries - 1
      invariant tried == attempt
      invariant RetriedBefore(symbol, attempts, clock, attempt)
      invariant FetchFrom(symbol, attempts, clock, attempt) == Fetch(symbol, attempts, clock)
      decreases MaxRetries - attempt
    {
      var step := RunAttempt(symbol, attempts[attempt], clock);
      tried := attempt + 1;
      match step {
        case Returned(o) =>
          out := o;
          return;
        case Raised(m) =>
          if Retryable(m, attempt) {
            assert RetriedAt(symbol, attempts, clock, attempt);
            RetriedBeforeExtends(symbol, attempts, clock, attempt);
            attempt := attempt + 1;
            continue;
          }
          out := FetchError(symbol, m);
          return;
      }
    }
    // Every pass returns or continues and the last pass cannot continue, so the
    // trailing "Failed to fetch data ... after 3 attempts" return is never reached.
    assert false;
    out := RetriesExhausted(symbol, MaxRetries);
  }

  /** The result is decided by the first attempt that does not raise a retryable
      error: every attempt before it raised a "429" error, and it is never later
      than the third. */
  lemma {:induction false} FetchSettlesAtFirstNonRetryable(symbol: string, attempts: seq<Attempt>, clock: Clock, k: nat)
    requires ValidScript(attempts) && ValidClock(clock) && k < MaxRetries
    requires RetriedBefore(symbol, attempts, clock, k)
    requires !RetriedAt(symbol, attempts, clock, k)
    ensures Fetch(symbol, attempts, clock) == Settle(symbol, RunAttempt(symbol, attempts[k], clock))
  {
    SkipRetried(symbol, attempts, clock, k);
  }

  lemma {:induction false} SkipRetried(symbol: string, attempts: seq<Attempt>, clock: Clock, k: nat)
    requires ValidScript(attempts) && ValidClock(clock) && k <= MaxRetries
    requires RetriedBefore(symbol, attempts, clock, k)
    ensures Fetch(symbol, attempts, clock) == FetchFrom(symbol, attempts, clock, k)
    decreases k
  {
    if k > 0 {
      assert RetriedAt(symbol, attempts, clock, k - 1);
      assert RetriedBefore(symbol, attempts, clock, k - 1);
      SkipRetried(symbol, attempts, clock, k - 1);
      assert FetchFrom(symbol, attempts, clock, k - 1) == FetchFrom(symbol, attempts, clock, k);
    }
  }

  /** An exception without "429" in its text ends the tool at once with its
      message, whatever later attempts would have answered. */
  lemma OtherErrorIsNotRetried(symbol: string, attempts: seq<Attempt>, clock: Clock, message: string)
    requires ValidScript(attempts) && ValidClock(clock)
    requires RunAttempt(symbol, attempts[0], clock) == Raised(message)
    requires !Occurs(RateLimitCode, message)
    ensures Fetch(symbol, attempts, clock) == FetchError(symbol, message)
  {
  }

  /** Three rate-limited attempts in a row: the third error is reported, there is
      no fourth attempt. */
  lemma RateLimitedThreeTimes(symbol: string, attempts: seq<Attempt>, clock: Clock, m0: string, m1: string, m2: string)
    requires ValidScript(attempts) && ValidClock(clock)
    requires RunAttempt(symbol, attempts[0], clock) == Raised(m0) && Occurs(RateLimitCode, m0)
    requires RunAttempt(symbol, attempts[1], clock) == Raised(m1) && Occurs(RateLimitCode, m1)
    requires RunAttempt(symbol, attempts[2], clock) == Raised(m2)
    ensures Fetch(symbol, attempts, clock) == FetchError(symbol, m2)
  {
    assert FetchFrom(symbol, attempts, clock, 2) == FetchError(symbol, m2);
    assert FetchFrom(symbol, attempts, clock, 1) == FetchError(symbol, m2);
  }

  /** An empty 1-month history on the first attempt yields the no-data message
      without any retry. */
  lemma EmptyHistoryIsFinal(symbol: string, attempts: seq<Attempt>, clock: Clock)
    requires ValidScript(attempts) && ValidClock(clock)
    requires attempts[0].Responds? && |attempts[0].month| == 0
    ensures Fetch(symbol, attempts, clock) == NoRecentData(symbol)
  {
  }
}
