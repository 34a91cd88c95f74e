/** One claimed job: attempts, backoff, and the outcome they produce (src/verification/worker.rs). */
module JobExecution {
  import opened Common
  import opened Records

  const ATTEMPT_CLEANUP_MILLIS: nat := 2_000

  datatype VerificationConfig = VerificationConfig(jobTimeout: nat, maxRetries: nat, retryBackoff: nat)

  /** What one call of a verifier backend did before its deadline, or that it missed it. */
  datatype AttemptResult = Returned(verdict: Verdict) | Reported(failure: VerificationFailure) | Panicked | TimedOut

  datatype Attempt = Attempt(result: AttemptResult, elapsed: nat)

  function Ascii(s: string): (b: Bytes)
    ensures |b| == |s|
  {
    seq(|s|, i requires 0 <= i < |s| => s[i] as int % 256)
  }

  /** "unsupported_proof_type" */
  const UNSUPPORTED: VerificationFailure := RawFailure(
    [117, 110, 115, 117, 112, 112, 111, 114, 116, 101, 100, 95, 112, 114, 111, 111, 102, 95, 116, 121, 112, 101],
    Ascii("no verifier backend is registered for this proof type"), false)

  /** "verifier_panicked" */
  const PANICKED: VerificationFailure := RawFailure(
    [118, 101, 114, 105, 102, 105, 101, 114, 95, 112, 97, 110, 105, 99, 107, 101, 100],
    Ascii("verifier backend panicked"), false)

  /** "verification_timeout" */
  const TIMED_OUT: VerificationFailure := RawFailure(
    [118, 101, 114, 105, 102, 105, 99, 97, 116, 105, 111, 110, 95, 116, 105, 109, 101, 111, 117, 116],
    Ascii("verification attempt timed out"), true)

  function Classify(r: AttemptResult): Outcome {
    match r
    case Returned(v) => Verdict(v)
    case Reported(f) => Failure(f)
    case Panicked => Failure(PANICKED)
    case TimedOut => Failure(TIMED_OUT)
  }

  predicate Retryable(o: Outcome) { o.Failure? && o.failure.retryable }

  /** Everything a finished job may look like: `results` are the attempts that really ran, the outcome
      is that of the last one, every earlier one was retryable, and a retryable outcome means the
      attempts ran out. With no backend there is no attempt and no verdict. */
  ghost predicate Produced(maxRetries: nat, registered: bool, results: seq<AttemptResult>, outcome: Outcome) {
    if !registered then results == [] && outcome == Failure(UNSUPPORTED)
    else
      && 1 <= |results| <= maxRetries + 1
      && outcome == Classify(results[|results| - 1])
      && (forall k :: 0 <= k < |results| - 1 ==> Retryable(Classify(results[k])))
      && (Retryable(outcome) ==> |results| == maxRetries + 1)
  }

  function Pow2(n: nat): nat { if n == 0 then 1 else 2 * Pow2(n - 1) }

  lemma {:induction false} Pow2Monotone(m: nat, n: nat)
    requires m <= n
    ensures 1 <= Pow2(m) <= Pow2(n)
  {
    if m < n { Pow2Monotone(m, n - 1); } else if n > 0 { Pow2Monotone(m - 1, n - 1); }
  }

  /** Timing of one attempt: a backend that answers does so within the timeout; a timed-out one is
      given the cleanup grace on top. */
  ghost predicate Timed(cfg: VerificationConfig, a: Attempt) {
    if a.result.TimedOut? then cfg.jobTimeout <= a.elapsed <= cfg.jobTimeout + ATTEMPT_CLEANUP_MILLIS
    else a.elapsed <= cfg.jobTimeout
  }

  ghost function TimeBudget(cfg: VerificationConfig, attempts: nat): int {
    attempts * (cfg.jobTimeout + ATTEMPT_CLEANUP_MILLIS)
    + if attempts == 0 then 0 else cfg.retryBackoff * (Pow2(attempts - 1) - 1)
  }

  /** Time spent when attempt number n is about to start: n attempts and the n backoffs between them. */
  ghost function SpentBefore(cfg: VerificationConfig, n: nat): int {
    n * (cfg.jobTimeout + ATTEMPT_CLEANUP_MILLIS) + cfg.retryBackoff * (Pow2(n) - 1)
  }

  lemma BudgetSteps(cfg: VerificationConfig, n: nat)
    ensures SpentBefore(cfg, 0) == 0
    ensures SpentBefore(cfg, n) + cfg.jobTimeout + ATTEMPT_CLEANUP_MILLIS == TimeBudget(cfg, n + 1)
    ensures SpentBefore(cfg, n + 1) == TimeBudget(cfg, n + 1) + cfg.retryBackoff * Pow2(n)
  {
    var unit := cfg.jobTimeout + ATTEMPT_CLEANUP_MILLIS;
    assert (n + 1) * unit == n * unit + unit;
    assert cfg.retryBackoff * (Pow2(n + 1) - 1) == cfg.retryBackoff * (Pow2(n) - 1) + cfg.retryBackoff * Pow2(n);
  }

  /** The attempt loop. `attempts[k]` is what attempt k does if it is made. The source panics after the
      loop and on a shift of 32 or more; neither can happen. */
  method ExecuteJob(cfg: VerificationConfig, registered: bool, attempts: seq<Attempt>)
    returns (outcome: Outcome, results: seq<AttemptResult>, time: nat)
    requires cfg.maxRetries <= 10
    requires |attempts| == cfg.maxRetries + 1
    requires forall k :: 0 <= k < |attempts| ==> Timed(cfg, attempts[k])
    ensures Produced(cfg.maxRetries, registered, results, outcome)
    ensures |results| <= |attempts|
    ensures forall k :: 0 <= k < |results| ==> results[k] == attempts[k].result
    ensures time <= TimeBudget(cfg, |results|)
  {
    results := [];
    time := 0;
    if !registered {
      return Failure(UNSUPPORTED), results, time;
    }
    BudgetSteps(cfg, 0);
    var attempt := 0;
    while true
      invariant |results| == attempt <= cfg.maxRetries
      invariant forall k :: 0 <= k < attempt ==> results[k] == attempts[k].result
      invariant forall k :: 0 <= k < attempt ==> Retryable(Classify(results[k]))
      invariant time <= SpentBefore(cfg, attempt)
      decreases cfg.maxRetries - attempt
    {
      BudgetSteps(cfg, attempt);
      results := results + [attempts[attempt].result];
      time := time + attempts[attempt].elapsed;
      outcome := Classify(attempts[attempt].result);
      if !Retryable(outcome) || attempt == cfg.maxRetries {
        return;
      }
      assert attempt < 32;
      time := time + cfg.retryBackoff * Pow2(attempt);
      attempt := attempt + 1;
    }
  }

  lemma ScaledLe(a: int, b: int, unit: nat)
    requires a <= b
    ensures a * unit <= b * unit && unit * a <= unit * b
  {
  }

  /** A completed job of any length stays within the budget of a full one. */
  lemma TimeBudgetBound(cfg: VerificationConfig, attempts: nat)
    requires attempts <= cfg.maxRetries + 1
    ensures TimeBudget(cfg, attempts) <=
            (cfg.maxRetries + 1) * (cfg.jobTimeout + ATTEMPT_CLEANUP_MILLIS)
            + cfg.retryBackoff * (Pow2(cfg.maxRetries) - 1)
  {
    Pow2Monotone(0, cfg.maxRetries);
    ScaledLe(attempts, cfg.maxRetries + 1, cfg.jobTimeout + ATTEMPT_CLEANUP_MILLIS);
    if attempts > 0 {
      Pow2Monotone(attempts - 1, cfg.maxRetries);
      ScaledLe(Pow2(attempts - 1) - 1, Pow2(cfg.maxRetries) - 1, cfg.retryBackoff);
    }
  }
}
