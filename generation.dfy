/**
 * What the generation client makes of one call's outcome, and the random
 * delay of the auto-generation timer.
 */
module Generation {
  import opened Wrappers
  import opened Text
  import opened Ints

  /** How the `fetch` of one generation call ends: a response with its HTTP
      status and `choices[0].message.content` (`None` when absent), an abort
      (the 60-second timeout), or a network or JSON failure. */
  datatype Outcome =
    | Response(status: int, content: Option<string>)
    | Aborted
    | NetworkFailure

  /** `resp.ok`: a status in the 2xx range. */
  predicate IsOk(status: int) { 200 <= status <= 299 }

  /** What `generate_response` returns once its guards have passed: the
      trimmed content of a 2xx response with non-empty content, `null`
      (`None`) in every other case. */
  function Reply(o: Outcome): Option<string>
  {
    match o
    case Response(status, content) =>
      if IsOk(status) && content.Some? && content.value != "" then Some(Trim(content.value)) else None
    case _ => None
  }

  /** A reply never starts or ends with whitespace, and it is the non-null
      but empty `""` exactly for a 2xx response whose content is non-empty
      and all whitespace. */
  lemma ReplyTrimmedOrBlank(o: Outcome)
    ensures Reply(o).Some? ==> Trimmed(Reply(o).value)
    ensures Reply(o) == Some("") <==>
      o.Response? && IsOk(o.status) && o.content.Some? && o.content.value != "" && AllWhitespace(o.content.value)
  {
    if o.Response? && o.content.Some? {
      TrimIsTrimmed(o.content.value);
      TrimEmptyIff(o.content.value);
    }
  }

  /** Callers append the reply only when it is truthy: a non-empty string.
      That holds exactly for a 2xx response whose content is not all
      whitespace (`"  "` gives a non-null but empty reply). */
  predicate Appends(reply: Option<string>) { reply.Some? && reply.value != "" }

  lemma AppendsIff(o: Outcome)
    ensures Appends(Reply(o)) <==>
      o.Response? && IsOk(o.status) && o.content.Some? && !AllWhitespace(o.content.value)
  {
    if o.Response? && o.content.Some? {
      TrimEmptyIff(o.content.value);
    }
  }

  /** The reply of a 2xx response is whatever the content holds between its
      leading and trailing whitespace. */
  lemma ReplyIsContentInfix(o: Outcome)
    requires Reply(o).Some?
    ensures var c, r := o.content.value, Reply(o).value;
      exists i, k :: 0 <= i <= k <= |c| && r == c[i..k] && AllWhitespace(c[..i]) && AllWhitespace(c[k..])
  {
    TrimIsInfix(o.content.value);
  }

  /** The retry delay, in milliseconds, when the timer fires during a call. */
  const RetryDelay := 5000

  /** `minWait + Math.random() * (actualMax - minWait)` in milliseconds, with
      `actualMax = max(maxWait, minWait + 10 s)`. The random draw is the
      caller's `choice`; every delay of the range is the result of some
      choice (see `EveryDelayIsChosen`). */
  function AutoGenDelay(minWait: int, maxWait: int, choice: nat): (d: int)
    ensures minWait * 1000 <= d < Max(maxWait * 1000, minWait * 1000 + 10000)
  {
    var lo := minWait * 1000;
    var hi := Max(maxWait * 1000, lo + 10000);
    lo + choice % (hi - lo)
  }

  lemma EveryDelayIsChosen(minWait: int, maxWait: int, d: int)
    requires minWait * 1000 <= d < Max(maxWait * 1000, minWait * 1000 + 10000)
    ensures AutoGenDelay(minWait, maxWait, d - minWait * 1000) == d
  {
    var lo := minWait * 1000;
    var hi := Max(maxWait * 1000, lo + 10000);
    ModOfSmaller(d - lo, hi - lo);
  }

  /** A non-negative number below the modulus is its own remainder; keeping
      this step separate keeps the nonlinear proof above stable. */
  lemma ModOfSmaller(c: int, m: int)
    requires 0 <= c < m
    ensures c % m == c
  {
  }

  /** With the defaults (30 s and 120 s) the timer waits between 30 and 120
      seconds; with `min_wait` raised to 300 over a `max_wait` of 60 it still
      waits at least 300 and less than 310 seconds. */
  lemma DelayRanges(choice: nat)
    ensures 30000 <= AutoGenDelay(30, 120, choice) < 120000
    ensures 300000 <= AutoGenDelay(300, 60, choice) < 310000
  {
  }
}
