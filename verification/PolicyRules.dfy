/** The decisions `PolicyService` and `GatewayService` take, shared by the
    sequential model of one call and the interleaved model of many. */
module PolicyRules {
  import opened Unified
  import opened Breaker

  datatype Config = Config(maxRetries: nat, baseDelay: nat, timeoutMs: nat, idleMs: nat, limits: Limits)

  /** What the catch block of a retry loop does with a thrown attempt. */
  datatype Verdict =
    | GiveUpUnrecorded  // the caller is gone: not a provider failure
    | RecordAndGiveUp   // output already went out, or no retry is left
    | RecordAndRetry

  /** When the caller's signal fires, if at all, and at which event (counted from
      0) the consumer of a stream breaks off, if at all. */
  datatype Caller = Caller(abort: Option<nat>, breaksAt: Option<nat>) {
    /** The caller after one more event. */
    function After(): Caller {
      if breaksAt.Some? && breaksAt.value > 0 then this.(breaksAt := Some(breaksAt.value - 1)) else this
    }
  }

  /** A caller who stays to the end. */
  const STEADY := Caller(None, None)

  /** The caller's signal has fired. */
  predicate Gone(abort: Option<nat>, now: nat) {
    abort.Some? && abort.value <= now
  }

  function AfterThrow(cfg: Config, attempt: nat, yielded: bool, callerGone: bool): Verdict {
    if callerGone then GiveUpUnrecorded
    else if yielded || attempt >= cfg.maxRetries then RecordAndGiveUp
    else RecordAndRetry
  }

  function Pow2(n: nat): nat {
    if n == 0 then 1 else 2 * Pow2(n - 1)
  }

  function Backoff(cfg: Config, attempt: nat): nat {
    cfg.baseDelay * Pow2(attempt)
  }

  function BreakerOpenMessage(provider: string): string {
    "Circuit breaker is open for provider \"" + provider + "\"."
  }

  const ABORTED := "Operation aborted"
  const TIMED_OUT := "Operation timed out"
  const IDLE_TIMEOUT := "Stream idle timeout"

  function AllFailedMessage(lastError: Option<string>, model: string): string {
    match lastError
    case Some(e) => "All providers failed. Last error: " + e
    case None => "All providers failed for model \"" + model + "\""
  }
}
