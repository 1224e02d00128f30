/**
 * The retry/backoff/fallback executor of `src/error/error_handler.py`.
 *
 * The operation being retried is an oracle: `op(i)` is what its i-th call (counting from 0)
 * does, either return a value or raise an exception. The sleeps between attempts are not
 * performed; the executor reports them as the sequence `waits` of delays it would sleep, in order.
 */
module ErrorHandling {
  import opened Wrappers

  /** The error kinds the statistics are keyed by. */
  datatype ErrorType =
    | SttFailed | TtsFailed | LlmTimeout | LlmApiError | LlmRateLimit
    | MemoryError | AssetMissing | NetworkError | EncryptionError | UnknownError

  /** The enum's string value, the key `get_error_stats` reports a kind under. */
  function TypeValue(t: ErrorType): string {
    match t
    case SttFailed => "stt_failed"
    case TtsFailed => "tts_failed"
    case LlmTimeout => "llm_timeout"
    case LlmApiError => "llm_api_error"
    case LlmRateLimit => "llm_rate_limit"
    case MemoryError => "memory_error"
    case AssetMissing => "asset_missing"
    case NetworkError => "network_error"
    case EncryptionError => "encryption_error"
    case UnknownError => "unknown_error"
  }

  /** Distinct kinds have distinct string values, so the statistics lose no key. */
  lemma TypeValueInjective(t: ErrorType, u: ErrorType)
    requires TypeValue(t) == TypeValue(u)
    ensures t == u
  {
  }

  /** `ErrorConfig`: the retry policy. Delays are seconds. */
  datatype ErrorConfig = ErrorConfig(maxRetries: int, retryDelay: real, backoffMultiplier: real, timeoutSeconds: real)

  const DefaultConfig := ErrorConfig(3, 1.0, 2.0, 30.0)

  /** A Python exception: its class name and its `str()`. */
  datatype Exception = Exception(kind: string, message: string)

  /** What `asyncio.wait_for` raises when the deadline passes. */
  const TimeoutError := Exception("TimeoutError", "")

  /** What `raise last_error` raises while `last_error` is still `None`. */
  const RaiseNoneError := Exception("TypeError", "exceptions must derive from BaseException")

  /** The outcome of calling a unit of work once. */
  datatype Outcome<T> = Returned(value: T) | Raised(error: Exception)

  /** The outcome of one call awaited under a deadline. */
  datatype Attempt<T> = Completed(outcome: Outcome<T>) | DeadlineExceeded

  /** A deadline breach counts as a failure raising `TimeoutError`. */
  function Settle<T>(a: Attempt<T>): Outcome<T> {
    match a
    case Completed(o) => o
    case DeadlineExceeded => Raised(TimeoutError)
  }

  /** Every call awaited under the deadline: a call that completes keeps its outcome, one that overruns raises `TimeoutError`. */
  function Settled<T>(op: nat -> Attempt<T>): (settled: nat -> Outcome<T>)
    ensures forall i: nat :: op(i).Completed? ==> settled(i) == op(i).outcome
    ensures forall i: nat :: op(i).DeadlineExceeded? ==> settled(i) == Raised(TimeoutError)
  {
    (i: nat) => Settle(op(i))
  }

  /** The number of iterations of `range(max_retries)`. */
  function AttemptBudget(cfg: ErrorConfig): nat {
    if cfg.maxRetries > 0 then cfg.maxRetries else 0
  }

  function Pow(b: real, k: nat): real {
    if k == 0 then 1.0 else b * Pow(b, k - 1)
  }

  /** The length of the `k`-th sleep (counting from 0): `retry_delay * backoff_multiplier^k`. */
  function Delay(cfg: ErrorConfig, k: nat): real {
    cfg.retryDelay * Pow(cfg.backoffMultiplier, k)
  }

  /** The number of sleeps taken after `failures` failed attempts: one per failure except the last attempt's. */
  function WaitCount(cfg: ErrorConfig, failures: nat): nat {
    if failures < cfg.maxRetries - 1 then failures
    else if cfg.maxRetries > 0 then cfg.maxRetries - 1
    else 0
  }

  /**
   * The index of the first call in `from..n` that returns, or `n` when all of them raise.
   */
  function FirstReturned<T>(op: nat -> Outcome<T>, from: nat, n: nat): (k: nat)
    requires from <= n
    ensures from <= k <= n
    ensures forall j :: from <= j < k ==> op(j).Raised?
    ensures k < n ==> op(k).Returned?
    decreases n - from
  {
    if from == n then n
    else if op(from).Returned? then from
    else FirstReturned(op, from + 1, n)
  }

  /** Skipping calls known to raise does not change where the first success is. */
  lemma {:induction false} FirstReturnedSkip<T>(op: nat -> Outcome<T>, a: nat, n: nat)
    requires a <= n
    requires forall j :: 0 <= j < a ==> op(j).Raised?
    ensures FirstReturned(op, 0, n) == FirstReturned(op, a, n)
    decreases a
  {
    if a > 0 {
      FirstReturnedSkip(op, a - 1, n);
    }
  }

  /** How one call of the executor went. */
  datatype RetryRun<T> = RetryRun(result: Outcome<T>, attempts: nat, waits: seq<real>, fallbackCalled: bool)

  /**
   * The retry loop from iteration `attempt` on, with `delay` the next sleep, `waits` the sleeps
   * so far and `lastError` the exception of the latest failed call. `fallback` is what the
   * fallback does when called, or `None` when no fallback was given.
   */
  function RunFrom<T>(cfg: ErrorConfig, op: nat -> Outcome<T>, fallback: Option<Outcome<T>>,
                      attempt: nat, delay: real, waits: seq<real>, lastError: Option<Exception>): (run: RetryRun<T>)
    ensures run.fallbackCalled ==> fallback.Some? && run.result == fallback.value
    decreases AttemptBudget(cfg) - attempt
  {
    if attempt >= AttemptBudget(cfg) then
      match fallback
      case Some(f) => RetryRun(f, attempt, waits, true)
      case None => RetryRun(Raised(lastError.GetOr(RaiseNoneError)), attempt, waits, false)
    else
      match op(attempt)
      case Returned(v) => RetryRun(Returned(v), attempt + 1, waits, false)
      case Raised(e) =>
        if attempt < cfg.maxRetries - 1 then
          RunFrom(cfg, op, fallback, attempt + 1, NextDelay(cfg, delay), waits + [delay], Some(e))
        else
          RunFrom(cfg, op, fallback, attempt + 1, delay, waits, Some(e))
  }

  /** `current_delay *= backoff_multiplier`: the delay before the sleep after this one. */
  function NextDelay(cfg: ErrorConfig, delay: real): real {
    delay * cfg.backoffMultiplier
  }

  /** One whole call of the executor (`handle_with_retry_*` without the statistics). */
  function Retry<T>(cfg: ErrorConfig, op: nat -> Outcome<T>, fallback: Option<Outcome<T>>): (run: RetryRun<T>)
    ensures run.attempts <= AttemptBudget(cfg)
    ensures run.fallbackCalled ==> fallback.Some? && run.result == fallback.value
    ensures !run.fallbackCalled && run.result.Returned? ==> run.attempts >= 1 && run.result == op(run.attempts - 1)
  {
    RunFromClosedForm(cfg, op, fallback, 0, cfg.retryDelay, [], None);
    RunFrom(cfg, op, fallback, 0, cfg.retryDelay, [], None)
  }

  /** The number of failed calls in one executor call. */
  function Failures<T>(cfg: ErrorConfig, op: nat -> Outcome<T>): nat {
    FirstReturned(op, 0, AttemptBudget(cfg))
  }

  /** What the executor does once every attempt has failed. */
  function Exhausted<T>(cfg: ErrorConfig, op: nat -> Outcome<T>, fallback: Option<Outcome<T>>): Outcome<T> {
    match fallback
    case Some(f) => f
    case None =>
      if AttemptBudget(cfg) == 0 then Raised(RaiseNoneError) else op(AttemptBudget(cfg) - 1)
  }

  /** One failed attempt within the budget: the loop goes on with the next attempt. */
  lemma RunFromStep<T>(cfg: ErrorConfig, op: nat -> Outcome<T>, fallback: Option<Outcome<T>>,
                       attempt: nat, delay: real, waits: seq<real>, lastError: Option<Exception>)
    requires attempt < AttemptBudget(cfg) && op(attempt).Raised?
    ensures var e := Some(op(attempt).error);
            RunFrom(cfg, op, fallback, attempt, delay, waits, lastError)
            == if attempt < cfg.maxRetries - 1
               then RunFrom(cfg, op, fallback, attempt + 1, NextDelay(cfg, delay), waits + [delay], e)
               else RunFrom(cfg, op, fallback, attempt + 1, delay, waits, e)
  {
  }

  /** The closed form of the loop from any reachable iteration. */
  lemma {:induction false} RunFromClosedForm<T>(cfg: ErrorConfig, op: nat -> Outcome<T>, fallback: Option<Outcome<T>>,
                                                attempt: nat, delay: real, waits: seq<real>, lastError: Option<Exception>)
    requires attempt <= AttemptBudget(cfg)
    requires forall j :: 0 <= j < attempt ==> op(j).Raised?
    requires lastError == if attempt == 0 then None else Some(op(attempt - 1).error)
    requires |waits| == WaitCount(cfg, attempt)
    requires forall j :: 0 <= j < |waits| ==> waits[j] == Delay(cfg, j)
    requires delay == Delay(cfg, |waits|)
    ensures var run := RunFrom(cfg, op, fallback, attempt, delay, waits, lastError);
            var n := AttemptBudget(cfg);
            var k := FirstReturned(op, attempt, n);
            && run.attempts == (if k < n then k + 1 else n)
            && (k < n ==> run.result == op(k) && !run.fallbackCalled)
            && (k == n ==> run.result == Exhausted(cfg, op, fallback) && run.fallbackCalled == fallback.Some?)
            && |run.waits| == WaitCount(cfg, k)
            && (forall j :: 0 <= j < |run.waits| ==> run.waits[j] == Delay(cfg, j))
    decreases AttemptBudget(cfg) - attempt
  {
    var n := AttemptBudget(cfg);
    if attempt < n && op(attempt).Raised? {
      var e := op(attempt).error;
      RunFromStep(cfg, op, fallback, attempt, delay, waits, lastError);
      assert FirstReturned(op, attempt, n) == FirstReturned(op, attempt + 1, n);
      if attempt < cfg.maxRetries - 1 {
        WaitsExtend(cfg, waits, delay);
        RunFromClosedForm(cfg, op, fallback, attempt + 1, NextDelay(cfg, delay), waits + [delay], Some(e));
      } else {
        RunFromClosedForm(cfg, op, fallback, attempt + 1, delay, waits, Some(e));
      }
    }
  }

  /** A sleep of the scheduled length extends the schedule, and the next delay is the following one. */
  lemma WaitsExtend(cfg: ErrorConfig, waits: seq<real>, delay: real)
    requires forall j :: 0 <= j < |waits| ==> waits[j] == Delay(cfg, j)
    requires delay == Delay(cfg, |waits|)
    ensures forall j :: 0 <= j < |waits| + 1 ==> (waits + [delay])[j] == Delay(cfg, j)
    ensures NextDelay(cfg, delay) == Delay(cfg, |waits| + 1)
  {
    var b := cfg.backoffMultiplier;
    assert Pow(b, |waits| + 1) == b * Pow(b, |waits|);
  }

  /** A call that succeeds within the budget is returned at once: no later call, no fallback. */
  lemma RetryStopsAtFirstSuccess<T>(cfg: ErrorConfig, op: nat -> Outcome<T>, fallback: Option<Outcome<T>>)
    requires Failures(cfg, op) < AttemptBudget(cfg)
    ensures var run := Retry(cfg, op, fallback);
            && run.result == op(Failures(cfg, op))
            && run.result.Returned?
            && run.attempts == Failures(cfg, op) + 1
            && !run.fallbackCalled
  {
    RunFromClosedForm(cfg, op, fallback, 0, cfg.retryDelay, [], None);
  }

  /**
   * When every call fails, exactly `max_retries` calls are made; then the fallback is called
   * once and its outcome (value or exception) is the result, or without a fallback the last
   * call's exception is raised (a `TypeError` when no call was made at all).
   */
  lemma RetryExhaustion<T>(cfg: ErrorConfig, op: nat -> Outcome<T>, fallback: Option<Outcome<T>>)
    requires Failures(cfg, op) == AttemptBudget(cfg)
    ensures var run := Retry(cfg, op, fallback);
            && run.attempts == AttemptBudget(cfg)
            && run.fallbackCalled == fallback.Some?
            && (fallback.Some? ==> run.result == fallback.value)
            && (fallback.None? && AttemptBudget(cfg) > 0 ==> run.result == Raised(op(AttemptBudget(cfg) - 1).error))
            && (fallback.None? && AttemptBudget(cfg) == 0 ==> run.result == Raised(RaiseNoneError))
  {
    RunFromClosedForm(cfg, op, fallback, 0, cfg.retryDelay, [], None);
  }

  /** The operation is never called more than `max_retries` times, and never fewer than once while the budget lasts. */
  lemma RetryAttemptBound<T>(cfg: ErrorConfig, op: nat -> Outcome<T>, fallback: Option<Outcome<T>>)
    ensures Retry(cfg, op, fallback).attempts <= AttemptBudget(cfg)
    ensures AttemptBudget(cfg) > 0 ==> Retry(cfg, op, fallback).attempts >= 1
  {
    RunFromClosedForm(cfg, op, fallback, 0, cfg.retryDelay, [], None);
  }

  /**
   * Sleeps happen only after a failed attempt that is not the last one, so there are at most
   * `max_retries - 1` of them, and the k-th lasts `retry_delay * backoff_multiplier^k`.
   */
  lemma RetryWaitSchedule<T>(cfg: ErrorConfig, op: nat -> Outcome<T>, fallback: Option<Outcome<T>>)
    ensures var run := Retry(cfg, op, fallback);
            && |run.waits| == WaitCount(cfg, Failures(cfg, op))
            && |run.waits| < run.attempts + (if run.attempts == 0 then 1 else 0)
            && (cfg.maxRetries > 0 ==> |run.waits| <= cfg.maxRetries - 1)
            && forall j :: 0 <= j < |run.waits| ==> run.waits[j] == Delay(cfg, j)
  {
    RunFromClosedForm(cfg, op, fallback, 0, cfg.retryDelay, [], None);
  }

  lemma {:induction false} PowAtLeastOne(b: real, k: nat)
    requires b >= 1.0
    ensures Pow(b, k) >= 1.0
  {
    if k > 0 {
      PowAtLeastOne(b, k - 1);
      assert b * Pow(b, k - 1) >= 1.0 * Pow(b, k - 1);
    }
  }

  /** With a non-negative delay and a multiplier of at least 1, each sleep is at least as long as the one before. */
  lemma DelayNondecreasing(cfg: ErrorConfig, k: nat)
    requires cfg.retryDelay >= 0.0 && cfg.backoffMultiplier >= 1.0
    ensures 0.0 <= Delay(cfg, k) <= Delay(cfg, k + 1)
  {
    var b, p := cfg.backoffMultiplier, Pow(cfg.backoffMultiplier, k);
    PowAtLeastOne(b, k);
    assert Pow(b, k + 1) == b * p;
    assert cfg.retryDelay * (b * p) == (cfg.retryDelay * p) * b;
    assert cfg.retryDelay * p >= 0.0;
    assert (cfg.retryDelay * p) * b >= (cfg.retryDelay * p) * 1.0;
  }

  /** Python's `counts.get(t, 0)`. */
  function Count(counts: map<ErrorType, nat>, t: ErrorType): nat {
    if t in counts then counts[t] else 0
  }

  /**
   * The statistics after one executor call for kind `t` with `failures` failed attempts,
   * `succeeded` telling whether an attempt then returned: every failure adds one to the counter
   * of `t` and to no other; a success sets the counter to 0 if the key is present and leaves an
   * absent key absent.
   */
  function CountsAfterRetry(before: map<ErrorType, nat>, t: ErrorType, failures: nat, succeeded: bool): (after: map<ErrorType, nat>)
    ensures forall u :: u != t ==> (u in after <==> u in before)
    ensures forall u :: u != t && u in before ==> after[u] == before[u]
    ensures t in after <==> t in before || failures > 0
    ensures !succeeded ==> Count(after, t) == Count(before, t) + failures
    ensures succeeded ==> Count(after, t) == 0
  {
    var afterFailures := if failures == 0 then before else before[t := Count(before, t) + failures];
    if succeeded && t in afterFailures then afterFailures[t := 0] else afterFailures
  }

  /** The statistics one more failure further on. */
  lemma CountsStep(before: map<ErrorType, nat>, t: ErrorType, failures: nat)
    ensures var cur := CountsAfterRetry(before, t, failures, false);
            CountsAfterRetry(before, t, failures + 1, false) == cur[t := Count(cur, t) + 1]
  {
  }

  /** A success after `failures` failures resets a counter that is present. */
  lemma CountsSucceed(before: map<ErrorType, nat>, t: ErrorType, failures: nat)
    ensures var cur := CountsAfterRetry(before, t, failures, false);
            CountsAfterRetry(before, t, failures, true) == if t in cur then cur[t := 0] else cur
  {
  }

  /** `ErrorHandler`: the executor with its failure statistics. */
  class ErrorHandler {
    const config: ErrorConfig
    var errorCounts: map<ErrorType, nat>

    /** `config or ErrorConfig()`: a missing configuration takes the defaults. */
    constructor (config: Option<ErrorConfig>)
      ensures this.config == config.GetOr(DefaultConfig)
      ensures errorCounts == map[]
    {
      this.config := config.GetOr(DefaultConfig);
      errorCounts := map[];
    }

    /**
     * `handle_with_retry_async`: every call of the operation runs under the deadline
     * `timeout_seconds`; a breach is one more failure, raising `TimeoutError`. Apart from that
     * the loop is the one of `handle_with_retry_sync`, run over the settled outcomes.
     */
    method HandleWithRetryAsync<T>(op: nat -> Attempt<T>, errorType: ErrorType, fallback: Option<Outcome<T>>)
      returns (run: RetryRun<T>)
      modifies this
      ensures run == Retry(config, Settled(op), fallback)
      ensures errorCounts == CountsAfterRetry(old(errorCounts), errorType, Failures(config, Settled(op)),
                                              Failures(config, Settled(op)) < AttemptBudget(config))
    {
      run := HandleWithRetrySync(Settled(op), errorType, fallback);
    }

    /** `handle_with_retry_sync`: the same loop without a deadline. */
    method HandleWithRetrySync<T>(op: nat -> Outcome<T>, errorType: ErrorType, fallback: Option<Outcome<T>>)
      returns (run: RetryRun<T>)
      modifies this
      ensures run == Retry(config, op, fallback)
      ensures errorCounts == CountsAfterRetry(old(errorCounts), errorType, Failures(config, op),
                                              Failures(config, op) < AttemptBudget(config))
    {
      var n := AttemptBudget(config);
      var lastError: Option<Exception> := None;
      var delay := config.retryDelay;
      var waits: seq<real> := [];
      var attempt := 0;
      ghost var before := errorCounts;
      while attempt < n
        invariant attempt <= n
        invariant forall j :: 0 <= j < attempt ==> op(j).Raised?
        invariant RunFrom(config, op, fallback, attempt, delay, waits, lastError) == Retry(config, op, fallback)
        invariant errorCounts == CountsAfterRetry(before, errorType, attempt, false)
      {
        var outcome := op(attempt);
        match outcome {
          case Returned(_) =>
            FirstReturnedSkip(op, attempt, n);
            assert Failures(config, op) == attempt;
            CountsSucceed(before, errorType, attempt);
            if errorType in errorCounts {
              errorCounts := errorCounts[errorType := 0];
            }
            return RetryRun(outcome, attempt + 1, waits, false);
          case Raised(e) =>
            assert op(attempt) == Raised(e);
            RunFromStep(config, op, fallback, attempt, delay, waits, lastError);
            lastError := Some(e);
        }
        CountsStep(before, errorType, attempt);
        errorCounts := errorCounts[errorType := Count(errorCounts, errorType) + 1];
        if attempt < config.maxRetries - 1 {
          waits := waits + [delay];
          delay := NextDelay(config, delay);
        }
        attempt := attempt + 1;
      }
      FirstReturnedSkip(op, attempt, n);
      assert Failures(config, op) == n;
      match fallback {
        case Some(f) => run := RetryRun(f, attempt, waits, true);
        case None => run := RetryRun(Raised(lastError.GetOr(RaiseNoneError)), attempt, waits, false);
      }
    }

    /** `get_error_stats`: the counters keyed by the kinds' string values. */
    function GetErrorStats(): (stats: map<string, nat>)
      reads this
      ensures stats.Keys == set t | t in errorCounts :: TypeValue(t)
      ensures forall t :: t in errorCounts ==> stats[TypeValue(t)] == errorCounts[t]
    {
      map t | t in errorCounts :: TypeValue(t) := errorCounts[t]
    }

    /** `reset_stats`: all counters are dropped. */
    method ResetStats()
      modifies this
      ensures errorCounts == map[]
    {
      errorCounts := map[];
    }
  }
}
