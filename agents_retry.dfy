/**
 * The resilient invoker of api/agents.py (`retry_with_backoff`, api/agents.py:69-97): up to
 * `max_retries + 1` attempts, every error retried whatever its text, a back-off sleep after
 * every failed attempt but the last, and the last error re-raised. With a negative
 * `max_retries` the loop makes no attempt and `raise None` fails with a `TypeError`.
 */
module AgentsRetry {
  import opened Wrappers
  import opened Upstream

  /** `str()` of the `TypeError` that `raise None` raises. */
  const RAISE_NONE := "exceptions must derive from BaseException"

  /** The loop from attempt number `attempt` on (`attempt <= max_retries`), attempt `k`
      seeing `replies(start + k)`. */
  function RetryFrom(replies: nat -> Reply, start: nat, attempt: nat, maxRetries: int, baseDelay: int): Run
    requires attempt <= maxRetries
    decreases maxRetries - attempt
  {
    match replies(start + attempt)
    case Ok(t) => Run(Ok(t), attempt + 1, [])
    case Err(m) =>
      if attempt < maxRetries then
        var rest := RetryFrom(replies, start, attempt + 1, maxRetries, baseDelay);
        Run(rest.result, rest.attempts, [Backoff(baseDelay, attempt)] + rest.delays)
      else Run(Err(m), attempt + 1, [])
  }

  /** A whole call whose first attempt sees `replies(start)`. */
  function Retry(replies: nat -> Reply, start: nat, maxRetries: int, baseDelay: int): Run {
    if maxRetries < 0 then Run(Err(RAISE_NONE), 0, [])
    else RetryFrom(replies, start, 0, maxRetries, baseDelay)
  }

  lemma {:induction false} RetryFromShape(replies: nat -> Reply, start: nat, attempt: nat, maxRetries: int, baseDelay: int)
    requires attempt <= maxRetries
    ensures var run := RetryFrom(replies, start, attempt, maxRetries, baseDelay);
      && attempt < run.attempts <= maxRetries + 1
      && (forall i :: start + attempt <= i < start + run.attempts - 1 ==> replies(i).Err?)
      && run.result == replies(start + run.attempts - 1)
      && (run.result.Err? ==> run.attempts == maxRetries + 1)
    decreases maxRetries - attempt
  {
    if replies(start + attempt).Err? && attempt < maxRetries {
      RetryFromShape(replies, start, attempt + 1, maxRetries, baseDelay);
    }
  }

  lemma {:induction false} RetryFromDelays(replies: nat -> Reply, start: nat, attempt: nat, maxRetries: int, baseDelay: int)
    requires attempt <= maxRetries
    ensures var run := RetryFrom(replies, start, attempt, maxRetries, baseDelay);
      attempt < run.attempts && run.delays == Schedule(baseDelay, run.attempts - 1)[attempt..]
    decreases maxRetries - attempt
  {
    if replies(start + attempt).Err? && attempt < maxRetries {
      RetryFromDelays(replies, start, attempt + 1, maxRetries, baseDelay);
      var rest := RetryFrom(replies, start, attempt + 1, maxRetries, baseDelay);
      var sched := Schedule(baseDelay, rest.attempts - 1);
      assert sched[attempt..] == [sched[attempt]] + sched[attempt + 1..];
    }
  }

  /** Everything one call does: between one and `max_retries + 1` attempts, every attempt
      but the last failed (with any error), the outcome is the last attempt's, an error is
      raised only once all attempts are spent, and the sleep after failed attempt `k` is
      `base_delay * 2^k`. A negative `max_retries` makes no attempt. */
  lemma RetryCharacterization(replies: nat -> Reply, start: nat, maxRetries: int, baseDelay: int)
    ensures var run := Retry(replies, start, maxRetries, baseDelay);
      && (maxRetries < 0 ==> run == Run(Err(RAISE_NONE), 0, []))
      && (maxRetries >= 0 ==>
            && 1 <= run.attempts <= maxRetries + 1
            && run.delays == Schedule(baseDelay, run.attempts - 1)
            && (forall i :: start <= i < start + run.attempts - 1 ==> replies(i).Err?)
            && run.result == replies(start + run.attempts - 1)
            && (run.result.Err? ==> run.attempts == maxRetries + 1))
  {
    if maxRetries >= 0 {
      RetryFromShape(replies, start, 0, maxRetries, baseDelay);
      RetryFromDelays(replies, start, 0, maxRetries, baseDelay);
    }
  }

  /** A call that always fails makes `max_retries + 1` attempts, sleeps `max_retries` times
      and re-raises the last error, whatever the errors say. */
  lemma RetryExhaustion(replies: nat -> Reply, start: nat, maxRetries: int, baseDelay: int)
    requires maxRetries >= 0
    requires forall i :: start <= i <= start + maxRetries ==> replies(i).Err?
    ensures var run := Retry(replies, start, maxRetries, baseDelay);
      && run.attempts == maxRetries + 1
      && |run.delays| == maxRetries
      && run.result == replies(start + maxRetries)
  {
    RetryCharacterization(replies, start, maxRetries, baseDelay);
  }

  /** A success is returned at once, after the failures before it. */
  lemma RetrySucceedsAt(replies: nat -> Reply, start: nat, maxRetries: int, baseDelay: int, k: nat)
    requires k <= maxRetries
    requires forall i :: start <= i < start + k ==> replies(i).Err?
    requires replies(start + k).Ok?
    ensures Retry(replies, start, maxRetries, baseDelay) == Run(replies(start + k), k + 1, Schedule(baseDelay, k))
  {
    RetryCharacterization(replies, start, maxRetries, baseDelay);
  }

  /** `retry_with_backoff(model.generate_content, prompt, max_retries=…, base_delay=…)`
      under the active credential `key`. */
  method RetryWithBackoff<P>(up: Oracle<P>, ghost key: Option<string>, model: string, prompt: P,
                             maxRetries: int, baseDelay: int) returns (r: Reply)
    modifies up
    ensures var run := Retry(up.replies, old(up.attempts), maxRetries, baseDelay);
      && r == run.result
      && Performed(up, old(up.attempts), old(up.calls), old(up.sleeps),
                   Repeat(Call(key, model, prompt), run.attempts), run.delays)
  {
    ghost var start := up.attempts;
    ghost var whole := Retry(up.replies, start, maxRetries, baseDelay);
    RetryCharacterization(up.replies, start, maxRetries, baseDelay);
    var lastError: Option<string> := None;
    var attempt := 0;
    while attempt < maxRetries + 1
      invariant attempt <= whole.attempts
      invariant attempt == 0 ==> lastError.None?
      invariant attempt > 0 ==> up.replies(start + attempt - 1).Err?
                                && lastError == Some(up.replies(start + attempt - 1).msg)
      invariant Performed(up, start, old(up.calls), old(up.sleeps),
                          Repeat(Call(key, model, prompt), attempt),
                          Schedule(baseDelay, if 0 <= maxRetries < attempt then maxRetries else attempt))
      decreases maxRetries + 1 - attempt
    {
      var reply := up.Generate(key, model, prompt);
      RepeatOnceMore(old(up.calls), Call(key, model, prompt), attempt);
      if reply.Ok? {
        assert attempt == whole.attempts - 1;
        return reply;
      }
      lastError := Some(reply.msg);
      if attempt < maxRetries {
        assert attempt < whole.attempts - 1;
        up.Sleep(Backoff(baseDelay, attempt));
        ScheduleOnceMore(baseDelay, attempt);
      } else {
        assert attempt == whole.attempts - 1;
      }
      attempt := attempt + 1;
    }
    // `raise last_exception`; raising `None` is itself a `TypeError`.
    match lastError
    case None => r := Err(RAISE_NONE);
    case Some(m) => r := Err(m);
  }
}
