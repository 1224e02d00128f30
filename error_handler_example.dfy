/**
 * The example fallback chains of `examples/error_handler_example.py`: a simpler copy of the
 * retry executor (no statistics, no deadline) and the speech-to-text, LLM and asset handlers
 * built on it. The retry loop follows the same rules as the one in `ErrorHandling`, so it is
 * specified by the same function `ErrorHandling.Retry`.
 */
module ErrorHandlerExample {
  import opened Wrappers
  import opened ErrorHandling

  /** The example's own, shorter list of error kinds (they only label log lines). */
  datatype ExampleErrorType = SttFailed | TtsFailed | LlmTimeout | LlmApiError | AssetMissing | NetworkError

  function ExampleTypeValue(t: ExampleErrorType): string {
    match t
    case SttFailed => "stt_failed"
    case TtsFailed => "tts_failed"
    case LlmTimeout => "llm_timeout"
    case LlmApiError => "llm_api_error"
    case AssetMissing => "asset_missing"
    case NetworkError => "network_error"
  }

  /** The canned reply of the last step of the LLM chain. */
  const Apology := "I'm sorry, I'm having trouble thinking right now. Could you try again?"

  /**
   * The executor configured from a dictionary: absent keys take 3 attempts, a 1-second first
   * delay and a multiplier of 2. It keeps no statistics and has no deadline.
   */
  class ExampleErrorHandler {
    const maxRetries: int
    const retryDelay: real
    const backoffMultiplier: real

    constructor (maxRetries: Option<int>, retryDelay: Option<real>, backoffMultiplier: Option<real>)
      ensures this.maxRetries == maxRetries.GetOr(3)
      ensures this.retryDelay == retryDelay.GetOr(1.0)
      ensures this.backoffMultiplier == backoffMultiplier.GetOr(2.0)
    {
      this.maxRetries := maxRetries.GetOr(3);
      this.retryDelay := retryDelay.GetOr(1.0);
      this.backoffMultiplier := backoffMultiplier.GetOr(2.0);
    }

    /** The policy as an `ErrorConfig` (the deadline plays no part here). */
    function Config(): (cfg: ErrorConfig)
      ensures cfg.maxRetries == maxRetries && cfg.retryDelay == retryDelay
      ensures cfg.backoffMultiplier == backoffMultiplier
    {
      ErrorConfig(maxRetries, retryDelay, backoffMultiplier, 0.0)
    }

    /**
     * `handle_with_retry`: at most `max_retries` calls, the first value returned at once,
     * a sleep after every failed call but the last, then the fallback once or the last error.
     */
    method HandleWithRetry<T>(op: nat -> Outcome<T>, errorType: ExampleErrorType, fallback: Option<Outcome<T>>)
      returns (run: RetryRun<T>)
      ensures run == Retry(Config(), op, fallback)
      ensures run.attempts <= AttemptBudget(Config())
      ensures Failures(Config(), op) < AttemptBudget(Config()) ==>
                run.result == op(Failures(Config(), op)) && run.attempts == Failures(Config(), op) + 1
                && !run.fallbackCalled
      ensures Failures(Config(), op) == AttemptBudget(Config()) ==>
                run.result == Exhausted(Config(), op, fallback) && run.fallbackCalled == fallback.Some?
    {
      var cfg := Config();
      var n := AttemptBudget(cfg);
      var lastError: Option<Exception> := None;
      var delay := retryDelay;
      var waits: seq<real> := [];
      var attempt := 0;
      while attempt < n
        invariant attempt <= n
        invariant forall j :: 0 <= j < attempt ==> op(j).Raised?
        invariant RunFrom(cfg, op, fallback, attempt, delay, waits, lastError) == Retry(cfg, op, fallback)
      {
        var outcome := op(attempt);
        match outcome {
          case Returned(_) =>
            run := RetryRun(outcome, attempt + 1, waits, false);
            RetryAttemptBound(cfg, op, fallback);
            FirstReturnedSkip(op, attempt, n);
            return;
          case Raised(e) =>
            assert op(attempt) == Raised(e);
            RunFromStep(cfg, op, fallback, attempt, delay, waits, lastError);
            lastError := Some(e);
        }
        if attempt < maxRetries - 1 {
          waits := waits + [delay];
          delay := NextDelay(cfg, delay);
        }
        attempt := attempt + 1;
      }
      match fallback {
        case Some(f) => run := RetryRun(f, attempt, waits, true);
        case None => run := RetryRun(Raised(lastError.GetOr(RaiseNoneError)), attempt, waits, false);
      }
      FirstReturnedSkip(op, attempt, n);
      RetryExhaustion(cfg, op, fallback);
    }
  }

  /** Speech-to-text with a fallback to text input mode. */
  class SttErrorHandler {
    const handler: ExampleErrorHandler

    constructor (handler: ExampleErrorHandler)
      ensures this.handler == handler
    {
      this.handler := handler;
    }

    /**
     * `transcribe_with_fallback`: the transcript of the first successful call, or the empty
     * string (text input mode) once every call failed. It never raises.
     */
    method TranscribeWithFallback(stt: nat -> Outcome<string>) returns (text: Outcome<string>)
      ensures text.Returned?
      ensures var cfg := handler.Config();
              Failures(cfg, stt) < AttemptBudget(cfg) ==> text == stt(Failures(cfg, stt))
      ensures var cfg := handler.Config();
              Failures(cfg, stt) == AttemptBudget(cfg) ==> text == Returned("")
    {
      var run := handler.HandleWithRetry(stt, ExampleErrorType.SttFailed, Some(Returned("")));
      text := run.result;
    }
  }

  /** LLM generation with a second model, a response cache and a canned reply behind it. */
  class LlmErrorHandler {
    const handler: ExampleErrorHandler
    /** The response cache: it starts empty and no method writes to it. */
    var cache: map<string, string>

    constructor (handler: ExampleErrorHandler)
      ensures this.handler == handler
      ensures cache == map[]
    {
      this.handler := handler;
      cache := map[];
    }

    /**
     * `generate_with_fallback`: the primary model with retries, then the fallback model once
     * (`None` when none is given), then the cache, then the apology. It never raises. No method
     * has this class in its `modifies` clause, so the cache stays empty and the third step never hits.
     */
    method GenerateWithFallback(prompt: string, llm: nat -> Outcome<string>, fallbackLlm: Option<Outcome<string>>)
      returns (text: string)
      ensures var cfg := handler.Config();
              Failures(cfg, llm) < AttemptBudget(cfg) ==> text == llm(Failures(cfg, llm)).value
      ensures var cfg := handler.Config();
              Failures(cfg, llm) == AttemptBudget(cfg) ==>
                text == (if fallbackLlm.Some? && fallbackLlm.value.Returned? then fallbackLlm.value.value
                         else if prompt in cache then cache[prompt]
                         else Apology)
    {
      var run := handler.HandleWithRetry(llm, ExampleErrorType.LlmTimeout, None);
      match run.result {
        case Returned(v) =>
          text := v;
          return;
        case Raised(_) =>
      }
      if fallbackLlm.Some? {
        match fallbackLlm.value {
          case Returned(v) =>
            text := v;
            return;
          case Raised(_) =>
        }
      }
      if prompt in cache {
        text := cache[prompt];
        return;
      }
      text := Apology;
    }
  }

  /** Asset loading with a fallback to a per-type default asset. */
  class AssetErrorHandler {
    const handler: ExampleErrorHandler
    const defaultAssets: map<string, string> := map["avatar" := "default_avatar.vrm", "animation" := "default_idle.anim"]

    constructor (handler: ExampleErrorHandler)
      ensures this.handler == handler
    {
      this.handler := handler;
    }

    /**
     * What the fallback does: load the type's default asset (as the loader's call number `call`),
     * or raise `FileNotFoundError` for a type without one.
     */
    function FallbackToDefault<T>(assetType: string, load: (string, nat) -> Outcome<T>, call: nat): (r: Outcome<T>)
      ensures assetType == "avatar" ==> r == load("default_avatar.vrm", call)
      ensures assetType == "animation" ==> r == load("default_idle.anim", call)
      ensures assetType != "avatar" && assetType != "animation" ==>
                r == Raised(Exception("FileNotFoundError", "No default asset for type: " + assetType))
    {
      if assetType in defaultAssets && defaultAssets[assetType] != "" then load(defaultAssets[assetType], call)
      else Raised(Exception("FileNotFoundError", "No default asset for type: " + assetType))
    }

    /**
     * `load_asset_with_fallback`: `load(path, i)` is what the loader's i-th call does with
     * `path`. The asset itself is retried; once every call failed, the default is loaded once.
     */
    method LoadAssetWithFallback<T>(assetPath: string, assetType: string, load: (string, nat) -> Outcome<T>)
      returns (asset: Outcome<T>)
      ensures var cfg := handler.Config();
              var op := (i: nat) => load(assetPath, i);
              && (Failures(cfg, op) < AttemptBudget(cfg) ==> asset == load(assetPath, Failures(cfg, op)))
              && (Failures(cfg, op) == AttemptBudget(cfg) ==>
                    asset == FallbackToDefault(assetType, load, AttemptBudget(cfg)))
    {
      var op := (i: nat) => load(assetPath, i);
      var n := AttemptBudget(handler.Config());
      var run := handler.HandleWithRetry(op, ExampleErrorType.AssetMissing, Some(FallbackToDefault(assetType, load, n)));
      asset := run.result;
    }
  }
}
