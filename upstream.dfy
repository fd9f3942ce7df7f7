/**
 * The upstream generative model, reached through `GenerativeModel(name).generate_content(prompt)`.
 * It is an oracle: a fixed script of per-attempt outcomes, each a text or a raised error.
 * The oracle is generic in `P`, the way its user names the prompt of a call.
 * The oracle also keeps, as ghost logs, every call it received (with the credential that was
 * active at that moment) and every back-off sleep the retry loops asked for (its non-jitter part).
 */
module Upstream {
  import opened Wrappers
  import opened Config

  /** One attempt's outcome: `Ok(response.text)` or `Err(str(e))`. */
  type Reply = Result<string>

  datatype Call<P> = Call(key: Option<string>, model: string, prompt: P)

  class Oracle<P> {
    /** The outcome of the attempt with that number, counted over the whole process. */
    const replies: nat -> Reply
    /** How many attempts have been made so far. */
    var attempts: nat
    ghost var calls: seq<Call<P>>
    ghost var sleeps: seq<int>

    constructor (replies: nat -> Reply)
      ensures this.replies == replies
      ensures attempts == 0 && calls == [] && sleeps == []
    {
      this.replies := replies;
      attempts := 0;
      calls := [];
      sleeps := [];
    }

    /** One `generate_content` attempt under the credential `key`. */
    method Generate(ghost key: Option<string>, model: string, prompt: P) returns (r: Reply)
      modifies this
      ensures r == replies(old(attempts))
      ensures attempts == old(attempts) + 1
      ensures calls == old(calls) + [Call(key, model, prompt)]
      ensures sleeps == old(sleeps)
    {
      r := replies(attempts);
      attempts := attempts + 1;
      calls := calls + [Call(key, model, prompt)];
    }

    /** `asyncio.sleep(delay + jitter)`; only the integer part `delay` is recorded. */
    method Sleep(delay: int)
      modifies this
      ensures attempts == old(attempts) && calls == old(calls)
      ensures sleeps == old(sleeps) + [delay]
    {
      sleeps := sleeps + [delay];
    }
  }

  /** The oracle has, since the state (`start`, `calls0`, `sleeps0`), received exactly
      `calls` and slept exactly `delays`. */
  ghost predicate Performed<P>(up: Oracle<P>, start: nat, calls0: seq<Call<P>>, sleeps0: seq<int>,
                               calls: seq<Call<P>>, delays: seq<int>)
    reads up
  {
    up.attempts == start + |calls| && up.calls == calls0 + calls && up.sleeps == sleeps0 + delays
  }

  /** Two runs one after the other perform the calls and sleeps of both, in order. */
  lemma PerformedInSequence<P>(up: Oracle<P>, start: nat, calls0: seq<Call<P>>, sleeps0: seq<int>,
                               c1: seq<Call<P>>, d1: seq<int>, c2: seq<Call<P>>, d2: seq<int>)
    requires up.attempts == start + |c1| + |c2|
    requires up.calls == (calls0 + c1) + c2 && up.sleeps == (sleeps0 + d1) + d2
    ensures Performed(up, start, calls0, sleeps0, c1 + c2, d1 + d2)
  {
  }

  /** `n` copies of the same call: the attempts one retry loop makes. */
  function Repeat<P>(c: Call<P>, n: nat): (r: seq<Call<P>>)
    ensures |r| == n
    ensures forall i :: 0 <= i < n ==> r[i] == c
  {
    seq(n, _ => c)
  }

  /** One more attempt with the same call extends the log by that call. */
  lemma RepeatOnceMore<P>(calls0: seq<Call<P>>, c: Call<P>, n: nat)
    ensures (calls0 + Repeat(c, n)) + [c] == calls0 + Repeat(c, n + 1)
  {
    assert Repeat(c, n + 1) == Repeat(c, n) + [c];
  }

  // ---------------------------------------------------------------------
  // Exponential back-off, shared by both retry loops
  // ---------------------------------------------------------------------

  function Pow2(k: nat): (r: nat)
    ensures r >= 1
  {
    if k == 0 then 1 else 2 * Pow2(k - 1)
  }

  /** `base_delay * (2 ** attempt)`: the non-jitter delay after failed attempt number `attempt`. */
  function Backoff(baseDelay: int, attempt: nat): int {
    baseDelay * Pow2(attempt)
  }

  /** The first `n` back-off delays, in order: exponential back-off starts at the base delay
      and doubles the delay after every further failed attempt. */
  function Schedule(baseDelay: int, n: nat): (r: seq<int>)
    ensures |r| == n
    ensures n > 0 ==> r[0] == baseDelay
    ensures forall k :: 0 < k < n ==> r[k] == 2 * r[k - 1]
  {
    seq(n, k requires 0 <= k < n => Backoff(baseDelay, k))
  }

  /** One more back-off extends the schedule by the next delay. */
  lemma ScheduleOnceMore(baseDelay: int, n: nat)
    ensures Schedule(baseDelay, n) + [Backoff(baseDelay, n)] == Schedule(baseDelay, n + 1)
  {
    assert forall k :: 0 <= k <= n ==> (Schedule(baseDelay, n) + [Backoff(baseDelay, n)])[k] == Backoff(baseDelay, k);
  }

  // ---------------------------------------------------------------------
  // The world a handler runs in, and what it does to it
  // ---------------------------------------------------------------------

  /** The credential table, the keys `genai.configure` refuses, the settings and the
      upstream script. */
  datatype Env = Env(keys: KeyTable, refused: set<string>, settings: Settings, replies: nat -> Reply)

  /** A handler's whole effect: what it returned, the key left active, the upstream calls it
      made (one per attempt) and the delays it slept. */
  datatype Outcome<T, P> = Outcome(value: T, active: Option<string>, calls: seq<Call<P>>, delays: seq<int>)

  /** What one retry loop did: its outcome, how many attempts it made and the delays it slept. */
  datatype Run = Run(result: Reply, attempts: nat, delays: seq<int>)
}
