/**
 * The resilient invoker of main.py (`retry_with_backoff`, main.py:66-100): at most
 * `max_retries` attempts; an error whose lower-cased text mentions "500", "internal error"
 * or "retry" is transient and retried after an exponential back-off, any other error is
 * raised at once, and a loop that makes no attempt raises "Máximo de tentativas excedido".
 */
module MainRetry {
  import opened Wrappers
  import opened Text
  import opened Upstream

  const MAX_ATTEMPTS_EXCEEDED := "Máximo de tentativas excedido"

  /** The marker test of main.py:85 (and main.py:860). */
  predicate IsTransient(msg: string) {
    ContainsAny(Lower(msg), ["500", "internal error", "retry"])
  }

  /** An error is transient exactly when its lower-cased text holds one of the three markers. */
  lemma IsTransientMarkers(msg: string)
    ensures IsTransient(msg) <==>
      Contains(Lower(msg), "500") || Contains(Lower(msg), "internal error") || Contains(Lower(msg), "retry")
  {
    var pats := ["500", "internal error", "retry"];
    ContainsAnyIff(Lower(msg), pats);
    assert pats[0] == "500" && pats[1] == "internal error" && pats[2] == "retry";
  }

  /** The markers are matched without regard to case. */
  lemma {:induction false} IsTransientIgnoresCase(msg: string)
    ensures IsTransient(Lower(msg)) == IsTransient(msg)
  {
    LowerIdempotent(msg);
  }

  predicate IsTransientFailure(r: Reply) {
    r.Err? && IsTransient(r.msg)
  }

  /** The loop from attempt number `attempt` on, attempt `k` seeing `replies(start + k)`.
      `attempts` in the result is the total number of attempts, `delays` the sleeps from
      `attempt` on. */
  function RetryFrom(replies: nat -> Reply, start: nat, attempt: nat, maxRetries: int, baseDelay: int): Run
    decreases maxRetries - attempt
  {
    if attempt >= maxRetries then Run(Err(MAX_ATTEMPTS_EXCEEDED), attempt, [])
    else match replies(start + attempt)
      case Ok(t) => Run(Ok(t), attempt + 1, [])
      case Err(m) =>
        if IsTransient(m) && attempt < maxRetries - 1 then
          var rest := RetryFrom(replies, start, attempt + 1, maxRetries, baseDelay);
          Run(rest.result, rest.attempts, [Backoff(baseDelay, attempt)] + rest.delays)
        else Run(Err(m), attempt + 1, [])
  }

  /** A whole call of `retry_with_backoff` whose first attempt sees `replies(start)`. */
  function Retry(replies: nat -> Reply, start: nat, maxRetries: int, baseDelay: int): Run {
    RetryFrom(replies, start, 0, maxRetries, baseDelay)
  }

  /** From attempt `attempt` on, the loop stops within `max_retries` attempts, on the first
      attempt that succeeds, fails fatally or is the last allowed. */
  lemma {:induction false} RetryFromStops(replies: nat -> Reply, start: nat, attempt: nat, maxRetries: int, baseDelay: int)
    requires attempt < maxRetries
    ensures var run := RetryFrom(replies, start, attempt, maxRetries, baseDelay);
      && attempt < run.attempts <= maxRetries
      && (forall i :: start + attempt <= i < start + run.attempts - 1 ==> IsTransientFailure(replies(i)))
      && run.result == replies(start + run.attempts - 1)
      && (run.result.Err? ==> run.attempts == maxRetries || !IsTransient(run.result.msg))
    decreases maxRetries - attempt
  {
    var r := replies(start + attempt);
    if r.Err? && IsTransient(r.msg) && attempt < maxRetries - 1 {
      RetryFromStops(replies, start, attempt + 1, maxRetries, baseDelay);
    }
  }

  /** From attempt `attempt` on, the loop sleeps the back-off delays of the attempts it
      retries, in order. */
  lemma {:induction false} RetryFromDelays(replies: nat -> Reply, start: nat, attempt: nat, maxRetries: int, baseDelay: int)
    requires attempt < maxRetries
    ensures var run := RetryFrom(replies, start, attempt, maxRetries, baseDelay);
      attempt < run.attempts && run.delays == Schedule(baseDelay, run.attempts - 1)[attempt..]
    decreases maxRetries - attempt
  {
    var r := replies(start + attempt);
    if r.Err? && IsTransient(r.msg) && attempt < maxRetries - 1 {
      RetryFromDelays(replies, start, attempt + 1, maxRetries, baseDelay);
      var rest := RetryFrom(replies, start, attempt + 1, maxRetries, baseDelay);
      var sched := Schedule(baseDelay, rest.attempts - 1);
      assert sched[attempt..] == [sched[attempt]] + sched[attempt + 1..];
    }
  }

  lemma RetryFromShape(replies: nat -> Reply, start: nat, attempt: nat, maxRetries: int, baseDelay: int)
    requires attempt < maxRetries
    ensures var run := RetryFrom(replies, start, attempt, maxRetries, baseDelay);
      && attempt < run.attempts <= maxRetries
      && run.delays == Schedule(baseDelay, run.attempts - 1)[attempt..]
      && (forall i :: start + attempt <= i < start + run.attempts - 1 ==> IsTransientFailure(replies(i)))
      && run.result == replies(start + run.attempts - 1)
      && (run.result.Err? ==> run.attempts == maxRetries || !IsTransient(run.result.msg))
  {
    RetryFromStops(replies, start, attempt, maxRetries, baseDelay);
    RetryFromDelays(replies, start, attempt, maxRetries, baseDelay);
  }

  /** Everything one call does: it makes between one and `max_retries` attempts when
      `max_retries` is positive; every attempt but the last failed transiently; the outcome is
      the last attempt's; an error is raised early only when it is not transient; and the
      sleeps fall between attempts, the one after attempt `k` being `base_delay * 2^k`. */
  lemma RetryCharacterization(replies: nat -> Reply, start: nat, maxRetries: int, baseDelay: int)
    ensures var run := Retry(replies, start, maxRetries, baseDelay);
      && (maxRetries <= 0 ==> run == Run(Err(MAX_ATTEMPTS_EXCEEDED), 0, []))
      && (maxRetries > 0 ==>
            && 1 <= run.attempts <= maxRetries
            && run.delays == Schedule(baseDelay, run.attempts - 1)
            && (forall i :: start <= i < start + run.attempts - 1 ==> IsTransientFailure(replies(i)))
            && run.result == replies(start + run.attempts - 1)
            && (run.result.Err? ==> run.attempts == maxRetries || !IsTransient(run.result.msg)))
  {
    if maxRetries > 0 {
      RetryFromShape(replies, start, 0, maxRetries, baseDelay);
    }
  }

  /** An always-transient error: exactly `max_retries` attempts, `max_retries - 1` sleeps of
      `base_delay * 2^k`, and the last error is raised. */
  lemma RetryExhaustion(replies: nat -> Reply, start: nat, maxRetries: int, baseDelay: int)
    requires maxRetries >= 1
    requires forall i :: start <= i < start + maxRetries ==> IsTransientFailure(replies(i))
    ensures var run := Retry(replies, start, maxRetries, baseDelay);
      && run.attempts == maxRetries
      && run.result == replies(start + maxRetries - 1)
      && run.delays == Schedule(baseDelay, maxRetries - 1)
  {
    RetryCharacterization(replies, start, maxRetries, baseDelay);
  }

  /** A non-transient error on the first attempt is raised after exactly that attempt. */
  lemma RetryStopsOnFatal(replies: nat -> Reply, start: nat, maxRetries: int, baseDelay: int)
    requires maxRetries >= 1
    requires replies(start).Err? && !IsTransient(replies(start).msg)
    ensures Retry(replies, start, maxRetries, baseDelay) == Run(replies(start), 1, [])
  {
  }

  /** A success is returned at once, whatever attempt it comes on. */
  lemma RetrySucceedsAt(replies: nat -> Reply, start: nat, maxRetries: int, baseDelay: int, k: nat)
    requires k < maxRetries
    requires forall i :: start <= i < start + k ==> IsTransientFailure(replies(i))
    requires replies(start + k).Ok?
    ensures Retry(replies, start, maxRetries, baseDelay) == Run(replies(start + k), k + 1, Schedule(baseDelay, k))
  {
    RetryCharacterization(replies, start, maxRetries, baseDelay);
  }

  /** `retry_with_backoff(model.generate_content, prompt, max_retries=…, base_delay=…)`
      under the active credential `key`. */
  method RetryWithBackoff<P>(up: Oracle<P>, ghost key: Option<string>, model: string, prompt: P,
                             maxRetries: int, baseDelay: int) returns (r: Reply)
    modifies up
    ensures var run := Retry(up.replies, old(up.attempts), maxRetries, baseDelay);
      && r == run.result
      && Performed(up, old(up.attempts), old(up.calls), old(up.sleeps),
                   Repeat(Call(key, model, prompt), run.attempts), run.delays)
  {
    ghost var start := up.attempts;
    ghost var whole := Retry(up.replies, start, maxRetries, baseDelay);
    RetryCharacterization(up.replies, start, maxRetries, baseDelay);
    var attempt := 0;
    while attempt < maxRetries
      invariant attempt == 0 || attempt < whole.attempts
      invariant Performed(up, start, old(up.calls), old(up.sleeps),
                          Repeat(Call(key, model, prompt), attempt), Schedule(baseDelay, attempt))
      decreases maxRetries - attempt
    {
      var reply := up.Generate(key, model, prompt);
      RepeatOnceMore(old(up.calls), Call(key, model, prompt), attempt);
      if reply.Ok? {
        // Every attempt before the last failed, so a success is the last attempt.
        assert attempt == whole.attempts - 1;
        return reply;
      }
      var transient := IsTransient(reply.msg);
      if transient && attempt < maxRetries - 1 {
        assert attempt < whole.attempts - 1;
        up.Sleep(Backoff(baseDelay, attempt));
        ScheduleOnceMore(baseDelay, attempt);
        attempt := attempt + 1;
      } else {
        assert attempt == whole.attempts - 1;
        return reply;
      }
    }
    r := Err(MAX_ATTEMPTS_EXCEEDED);
  }
}
