/** `make_api_call_with_retry`, in its two variants: the agents' wrapper
    (plain exponential backoff with jitter) and the Streamlit front end's
    wrapper, which may raise a delay to the one the service suggests. The
    backend and the jitter are parameters: `backend(p, n)` is the outcome of
    the n-th call (counting from 0) with prompt p, and `jitter(n)` stands for
    `random.uniform(0, 1)` drawn before the n-th sleep. */
module Retry {
  import opened Wrappers
  import opened Text
  import Prompt
  import opened Suggest

  /** What one `generate_content` call does: return text or raise. */
  datatype Outcome = Generated(text: string) | Raised(error: string)

  /** The rate-limit test applied to the text of a raised error. */
  predicate IsRateLimit(error: string) {
    Contains(error, "429") || Contains(Lower(error), "quota") || Contains(Lower(error), "rate limit")
  }

  /** The four ways a call can end; each variant renders them as text. */
  datatype Reply = Text(text: string) | Unavailable | Failed | Exhausted

  /** The reply, the number of backend calls made and the delays slept. */
  datatype Run = Run(reply: Reply, calls: nat, delays: seq<real>)

  /** Which delay rule applies. */
  datatype Variant = AgentsVariant | StreamlitVariant

  function Pow2(n: nat): (r: nat)
    ensures r >= 1
  {
    if n == 0 then 1 else 2 * Pow2(n - 1)
  }

  /** `base_delay * (2 ** attempt) + random.uniform(0, 1)`. */
  function Backoff(baseDelay: real, attempt: nat, jitter: real): real {
    baseDelay * (Pow2(attempt) as real) + jitter
  }

  /** With jitter drawn from [0, 1) the backoff lies within one second
      above base * 2^attempt. */
  lemma BackoffWithin(baseDelay: real, attempt: nat, jitter: real)
    requires 0.0 <= jitter < 1.0
    ensures baseDelay * (Pow2(attempt) as real) <= Backoff(baseDelay, attempt, jitter) < baseDelay * (Pow2(attempt) as real) + 1.0
  {
    var step := baseDelay * (Pow2(attempt) as real);
    assert Backoff(baseDelay, attempt, jitter) == step + jitter;
  }

  /** The Streamlit delay: the backoff, raised to the suggested delay when the
      message mentions "retry_delay" and "seconds" and the search finds one. */
  function StreamlitDelay(baseDelay: real, attempt: nat, jitter: real, error: string): (d: real)
    ensures d >= Backoff(baseDelay, attempt, jitter)
    ensures SuggestedDelay(error).Some? ==> d >= SuggestedDelay(error).value as real
    ensures SuggestedDelay(error).None? ==> d == Backoff(baseDelay, attempt, jitter)
    ensures d == Backoff(baseDelay, attempt, jitter) || (SuggestedDelay(error).Some? && d == SuggestedDelay(error).value as real)
  {
    var computed := Backoff(baseDelay, attempt, jitter);
    if Contains(error, "retry_delay") && Contains(error, "seconds") then
      match SuggestedDelay(error)
      case Some(n) => if computed >= n as real then computed else n as real
      case None => computed
    else
      GuardIsImpliedBySearch(error);
      computed
  }

  /** The delay slept after a rate-limited attempt, by variant. */
  function Delay(variant: Variant, baseDelay: real, attempt: nat, jitter: real, error: string): real {
    match variant
    case AgentsVariant => Backoff(baseDelay, attempt, jitter)
    case StreamlitVariant => StreamlitDelay(baseDelay, attempt, jitter, error)
  }

  /** The delay rule of a variant for attempt n and that attempt's error. */
  function DelayRule(variant: Variant, baseDelay: real, jitter: nat -> real): (nat, string) -> real {
    (n: nat, error: string) => Delay(variant, baseDelay, n, jitter(n), error)
  }

  /** The retry loop from `attempt` on, for a given rate-limit test and
      delay rule. `calls` counts every call made since attempt 0; `delays`
      holds the sleeps from `attempt` on. */
  function Loop(prompt: string, backend: (string, nat) -> Outcome, rateLimited: string -> bool,
                delay: (nat, string) -> real, maxRetries: int, attempt: nat): (run: Run)
    ensures maxRetries <= attempt ==> run == Run(Exhausted, attempt, [])
    ensures attempt < maxRetries ==>
              && attempt < run.calls <= maxRetries
              && |run.delays| == run.calls - 1 - attempt
              && run.reply != Exhausted
    ensures run.reply.Text? ==> backend(prompt, run.calls - 1) == Generated(run.reply.text)
    ensures run.reply == Unavailable ==>
              && run.calls == maxRetries
              && backend(prompt, run.calls - 1).Raised?
              && rateLimited(backend(prompt, run.calls - 1).error)
    ensures run.reply == Failed ==>
              && backend(prompt, run.calls - 1).Raised?
              && !rateLimited(backend(prompt, run.calls - 1).error)
    decreases maxRetries - attempt
  {
    if maxRetries <= attempt then Run(Exhausted, attempt, [])
    else
      match backend(prompt, attempt)
      case Generated(text) => Run(Text(text), attempt + 1, [])
      case Raised(error) =>
        if rateLimited(error) then
          if attempt < maxRetries - 1 then
            var rest := Loop(prompt, backend, rateLimited, delay, maxRetries, attempt + 1);
            Run(rest.reply, rest.calls, [delay(attempt, error)] + rest.delays)
          else Run(Unavailable, attempt + 1, [])
        else Run(Failed, attempt + 1, [])
  }

  /** Call j (from `attempt` on) was rate-limited. */
  predicate LimitedAt(prompt: string, backend: (string, nat) -> Outcome, rateLimited: string -> bool, j: nat) {
    backend(prompt, j).Raised? && rateLimited(backend(prompt, j).error)
  }

  /** A rate-limited call with attempts left sleeps and goes on. */
  lemma LoopStep(prompt: string, backend: (string, nat) -> Outcome, rateLimited: string -> bool,
                 delay: (nat, string) -> real, maxRetries: int, attempt: nat)
    requires attempt < maxRetries - 1 && LimitedAt(prompt, backend, rateLimited, attempt)
    ensures var rest := Loop(prompt, backend, rateLimited, delay, maxRetries, attempt + 1);
            Loop(prompt, backend, rateLimited, delay, maxRetries, attempt)
              == Run(rest.reply, rest.calls, [delay(attempt, backend(prompt, attempt).error)] + rest.delays)
  {
  }

  /** Any other call ends the run. */
  lemma LoopStops(prompt: string, backend: (string, nat) -> Outcome, rateLimited: string -> bool,
                  delay: (nat, string) -> real, maxRetries: int, attempt: nat)
    requires !(attempt < maxRetries - 1 && LimitedAt(prompt, backend, rateLimited, attempt))
    ensures Loop(prompt, backend, rateLimited, delay, maxRetries, attempt).calls <= attempt + 1
  {
  }

  /** Every call before the last one was rate-limited, and the sleep after
      call j is the delay rule's value for j and that call's error. */
  lemma {:induction false} LoopDelays(prompt: string, backend: (string, nat) -> Outcome, rateLimited: string -> bool,
                                      delay: (nat, string) -> real, maxRetries: int, attempt: nat, j: nat)
    requires attempt <= j
    ensures var run := Loop(prompt, backend, rateLimited, delay, maxRetries, attempt);
            j < run.calls - 1 ==>
              && LimitedAt(prompt, backend, rateLimited, j)
              && run.delays[j - attempt] == delay(j, backend(prompt, j).error)
    decreases maxRetries - attempt
  {
    var run := Loop(prompt, backend, rateLimited, delay, maxRetries, attempt);
    if attempt < maxRetries - 1 && LimitedAt(prompt, backend, rateLimited, attempt) {
      var rest := Loop(prompt, backend, rateLimited, delay, maxRetries, attempt + 1);
      var d := delay(attempt, backend(prompt, attempt).error);
      LoopStep(prompt, backend, rateLimited, delay, maxRetries, attempt);
      assert run.delays == [d] + rest.delays && run.calls == rest.calls;
      if attempt == j {
        assert run.delays[0] == d;
      } else {
        LoopDelays(prompt, backend, rateLimited, delay, maxRetries, attempt + 1, j);
        if j < run.calls - 1 {
          assert run.delays[j - attempt] == rest.delays[j - (attempt + 1)];
        }
      }
    } else {
      LoopStops(prompt, backend, rateLimited, delay, maxRetries, attempt);
    }
  }

  /** A run reaching a success on call k after rate limits on every earlier
      call from `attempt` on returns that text after k + 1 calls. */
  lemma {:induction false} LoopSuccess(prompt: string, backend: (string, nat) -> Outcome, rateLimited: string -> bool,
                                       delay: (nat, string) -> real, maxRetries: int, attempt: nat, k: nat)
    requires attempt <= k < maxRetries
    requires forall j :: attempt <= j < k ==> LimitedAt(prompt, backend, rateLimited, j)
    requires backend(prompt, k).Generated?
    ensures var run := Loop(prompt, backend, rateLimited, delay, maxRetries, attempt);
            run.reply == Text(backend(prompt, k).text) && run.calls == k + 1
    decreases k - attempt
  {
    if attempt < k {
      assert LimitedAt(prompt, backend, rateLimited, attempt);
      LoopSuccess(prompt, backend, rateLimited, delay, maxRetries, attempt + 1, k);
    }
  }

  /** The same for an error that is not a rate limit on call k. */
  lemma {:induction false} LoopFailure(prompt: string, backend: (string, nat) -> Outcome, rateLimited: string -> bool,
                                       delay: (nat, string) -> real, maxRetries: int, attempt: nat, k: nat)
    requires attempt <= k < maxRetries
    requires forall j :: attempt <= j < k ==> LimitedAt(prompt, backend, rateLimited, j)
    requires backend(prompt, k).Raised? && !rateLimited(backend(prompt, k).error)
    ensures var run := Loop(prompt, backend, rateLimited, delay, maxRetries, attempt);
            run.reply == Failed && run.calls == k + 1
    decreases k - attempt
  {
    if attempt < k {
      assert LimitedAt(prompt, backend, rateLimited, attempt);
      LoopFailure(prompt, backend, rateLimited, delay, maxRetries, attempt + 1, k);
    }
  }

  /** Rate limits on every call from `attempt` on exhaust the attempts. */
  lemma {:induction false} LoopAlwaysRateLimited(prompt: string, backend: (string, nat) -> Outcome, rateLimited: string -> bool,
                                                 delay: (nat, string) -> real, maxRetries: int, attempt: nat)
    requires attempt < maxRetries
    requires forall j: nat :: attempt <= j ==> LimitedAt(prompt, backend, rateLimited, j)
    ensures var run := Loop(prompt, backend, rateLimited, delay, maxRetries, attempt);
            run.reply == Unavailable && run.calls == maxRetries
    decreases maxRetries - attempt
  {
    assert LimitedAt(prompt, backend, rateLimited, attempt);
    if attempt < maxRetries - 1 {
      LoopAlwaysRateLimited(prompt, backend, rateLimited, delay, maxRetries, attempt + 1);
    }
  }

  /** `make_api_call_with_retry(model, prompt, max_retries, base_delay)`: the
      prompt is optimized first and the same optimized prompt is sent on
      every attempt. */
  function CallWithRetry(variant: Variant, prompt: string, backend: (string, nat) -> Outcome,
                         jitter: nat -> real, maxRetries: int, baseDelay: real): (run: Run)
    ensures run.reply == Exhausted <==> maxRetries <= 0
    ensures run.reply == Exhausted ==> run.calls == 0 && run.delays == []
    ensures maxRetries >= 1 ==> 1 <= run.calls <= maxRetries && |run.delays| == run.calls - 1
    ensures run.reply.Text? ==> backend(Sent(prompt), run.calls - 1) == Generated(run.reply.text)
  {
    Loop(Sent(prompt), backend, IsRateLimit, DelayRule(variant, baseDelay, jitter), maxRetries, 0)
  }

  /** The prompt every attempt sends. */
  function Sent(prompt: string): string {
    Prompt.OptimizePrompt(prompt, Prompt.MaxTokens)
  }

  /** The defaults every caller uses: three attempts, a one-second base. */
  const DefaultMaxRetries: int := 3
  const DefaultBaseDelay: real := 1.0

  /** The agents' reply texts. */
  function AgentsText(reply: Reply): string {
    match reply
    case Text(t) => t
    case Unavailable => "\U{1F6AB} **Service Temporarily Unavailable** - Please try again in a few minutes."
    case Failed => "Sorry, there was an issue processing your request. Please try again."
    case Exhausted => "Maximum retry attempts exceeded. Please try again later."
  }

  const Indent: string := "                    "

  /** The Streamlit front end's reply texts; its service-unavailable notice is
      a multi-line block indented by twenty spaces. */
  function StreamlitText(reply: Reply): string {
    match reply
    case Text(t) => t
    case Unavailable =>
      "\n"
      + Indent + "\U{1F6AB} **Service Temporarily Unavailable**\n"
      + Indent + "\n"
      + Indent + "The AI service is currently experiencing high demand.\n"
      + Indent + "\n"
      + Indent + "**What you can do:**\n"
      + Indent + "\n"
      + Indent + "\U{23F3} **Wait a moment** - The service will be available again shortly\n"
      + Indent + "\n"
      + Indent + "\U{1F4DD} **Try shorter requests** - Use more concise text for better results\n"
      + Indent + "\n"
      + Indent + "\U{1F504} **Try again** - The system will automatically retry your request\n"
      + Indent + "\n"
      + Indent + "We apologize for the inconvenience. Please try again in a few minutes.\n"
      + Indent
    case Failed => "Sorry, there was an issue processing your request. Please try again."
    case Exhausted => "Maximum retry attempts exceeded. Please try again later."
  }

  /** The first success is returned at once: after k rate-limited calls a
      success on call k ends the run with k sleeps. */
  lemma SuccessAfterRateLimits(variant: Variant, prompt: string, backend: (string, nat) -> Outcome,
                               jitter: nat -> real, maxRetries: int, baseDelay: real, k: nat, text: string)
    requires k < maxRetries
    requires forall j :: 0 <= j < k ==> backend(Sent(prompt), j).Raised? && IsRateLimit(backend(Sent(prompt), j).error)
    requires backend(Sent(prompt), k) == Generated(text)
    ensures var run := CallWithRetry(variant, prompt, backend, jitter, maxRetries, baseDelay);
            run.reply == Text(text) && run.calls == k + 1 && |run.delays| == k
  {
    var rule := DelayRule(variant, baseDelay, jitter);
    assert forall j :: 0 <= j < k ==> LimitedAt(Sent(prompt), backend, IsRateLimit, j);
    LoopSuccess(Sent(prompt), backend, IsRateLimit, rule, maxRetries, 0, k);
  }

  /** An error that is not a rate limit ends the run after k rate-limited
      calls with the generic failure and no further sleep. */
  lemma FailureAfterRateLimits(variant: Variant, prompt: string, backend: (string, nat) -> Outcome,
                               jitter: nat -> real, maxRetries: int, baseDelay: real, k: nat)
    requires k < maxRetries
    requires forall j :: 0 <= j < k ==> backend(Sent(prompt), j).Raised? && IsRateLimit(backend(Sent(prompt), j).error)
    requires backend(Sent(prompt), k).Raised? && !IsRateLimit(backend(Sent(prompt), k).error)
    ensures var run := CallWithRetry(variant, prompt, backend, jitter, maxRetries, baseDelay);
            run.reply == Failed && run.calls == k + 1 && |run.delays| == k
  {
    var rule := DelayRule(variant, baseDelay, jitter);
    assert forall j :: 0 <= j < k ==> LimitedAt(Sent(prompt), backend, IsRateLimit, j);
    LoopFailure(Sent(prompt), backend, IsRateLimit, rule, maxRetries, 0, k);
  }

  /** A backend that always rate-limits yields the service-unavailable reply
      after every allowed call and one sleep fewer. */
  lemma AlwaysRateLimited(variant: Variant, prompt: string, backend: (string, nat) -> Outcome,
                          jitter: nat -> real, maxRetries: int, baseDelay: real)
    requires maxRetries >= 1
    requires forall j: nat :: backend(Sent(prompt), j).Raised? && IsRateLimit(backend(Sent(prompt), j).error)
    ensures var run := CallWithRetry(variant, prompt, backend, jitter, maxRetries, baseDelay);
            run.reply == Unavailable && run.calls == maxRetries && |run.delays| == maxRetries - 1
  {
    var rule := DelayRule(variant, baseDelay, jitter);
    assert forall j: nat :: 0 <= j ==> LimitedAt(Sent(prompt), backend, IsRateLimit, j);
    LoopAlwaysRateLimited(Sent(prompt), backend, IsRateLimit, rule, maxRetries, 0);
  }

  /** The agents' i-th sleep lies in [base * 2^i, base * 2^i + 1), and the
      call before it was rate-limited. */
  lemma AgentsDelayBounds(prompt: string, backend: (string, nat) -> Outcome,
                          jitter: nat -> real, maxRetries: int, baseDelay: real, i: nat)
    requires 0.0 <= jitter(i) < 1.0
    ensures var run := CallWithRetry(AgentsVariant, prompt, backend, jitter, maxRetries, baseDelay);
            i < |run.delays| ==>
              && backend(Sent(prompt), i).Raised? && IsRateLimit(backend(Sent(prompt), i).error)
              && baseDelay * (Pow2(i) as real) <= run.delays[i] < baseDelay * (Pow2(i) as real) + 1.0
  {
    var rule := DelayRule(AgentsVariant, baseDelay, jitter);
    var run := Loop(Sent(prompt), backend, IsRateLimit, rule, maxRetries, 0);
    LoopDelays(Sent(prompt), backend, IsRateLimit, rule, maxRetries, 0, i);
    if i < |run.delays| {
      var e := backend(Sent(prompt), i).error;
      assert run.delays[i] == rule(i, e);
      assert rule(i, e) == Backoff(baseDelay, i, jitter(i));
      BackoffWithin(baseDelay, i, jitter(i));
    }
  }

  /** The Streamlit front end's i-th sleep is at least the backoff, and at
      least the delay that call i's error message suggests when one is found. */
  lemma StreamlitDelayBounds(prompt: string, backend: (string, nat) -> Outcome,
                             jitter: nat -> real, maxRetries: int, baseDelay: real, i: nat)
    ensures var run := CallWithRetry(StreamlitVariant, prompt, backend, jitter, maxRetries, baseDelay);
            i < |run.delays| ==>
              && backend(Sent(prompt), i).Raised? && IsRateLimit(backend(Sent(prompt), i).error)
              && run.delays[i] >= Backoff(baseDelay, i, jitter(i))
              && (SuggestedDelay(backend(Sent(prompt), i).error).Some? ==>
                    run.delays[i] >= SuggestedDelay(backend(Sent(prompt), i).error).value as real)
  {
    var rule := DelayRule(StreamlitVariant, baseDelay, jitter);
    var run := Loop(Sent(prompt), backend, IsRateLimit, rule, maxRetries, 0);
    LoopDelays(Sent(prompt), backend, IsRateLimit, rule, maxRetries, 0, i);
    if i < |run.delays| {
      var e := backend(Sent(prompt), i).error;
      assert run.delays[i] == rule(i, e);
      assert rule(i, e) == StreamlitDelay(baseDelay, i, jitter(i), e);
    }
  }

  /** Without a suggestion in the message the two variants sleep alike. */
  lemma VariantsAgreeWithoutSuggestion(baseDelay: real, attempt: nat, jitter: real, error: string)
    requires SuggestedDelay(error).None?
    ensures Delay(StreamlitVariant, baseDelay, attempt, jitter, error) == Delay(AgentsVariant, baseDelay, attempt, jitter, error)
  {
  }
}
