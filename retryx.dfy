/**
 * The retry/backoff engine of internal/retryx/retryx.go.
 *
 * Durations are integers of nanoseconds. The operation, the clock, the
 * random jitter source and the cancellation race are oracles: an `Env`
 * says, for each attempt number, what the operation returns, how much time
 * has elapsed at the elapsed-time check, which jitter draw is made and
 * whether cancellation wins the wait.
 */
module Retryx {
  import opened Wrappers

  const Millisecond: int := 1_000_000
  const Second: int := 1_000 * Millisecond

  /** rand.Float64() in thousandths: a draw `u` stands for u / 1000, in [0, 1). */
  const DrawScale: int := 1000
  type Draw = u: int | 0 <= u < DrawScale

  datatype Error =
    | Cause(msg: string)                          // any error returned by an operation
    | RetriesExhausted(attempts: int, last: Error) // "retry failed after %d attempts: %w"
    | ElapsedTimeExceeded(last: Error)             // "retry failed due to elapsed time limit: %w"
    | ContextError(reason: string)                 // ctx.Err()

  /** What one call of the operation returns. */
  datatype Attempt<T> = Ok(value: T) | Fail(err: Error)

  /** Do's (T, error) pair; a failure carries the zero value, left implicit. */
  datatype Result<T> = Success(value: T) | Failure(err: Error)

  /** The terminal state Do leaves its loop in. */
  datatype Exit = Succeeded | Rejected | Exhausted | OutOfTime | Cancelled

  /** One call of onRetry(err, attempt, nextDelay). */
  datatype Notice = Notice(err: Error, attempt: int, nextDelay: int)

  /**
   * Everything a call of Do makes observable: its result, the terminal
   * state, how many times the operation ran, the onRetry calls made and the
   * waits begun (in order).
   */
  datatype Run<T> = Run(result: Result<T>, exit: Exit, calls: nat, notices: seq<Notice>, delays: seq<int>)

  datatype Env<T> = Env(
    op: nat -> Attempt<T>,
    elapsed: nat -> int,
    draw: nat -> Draw,
    cancelled: nat -> bool,
    ctxErr: Error)

  /** The fields of a Retrier. backoffFactor is a whole multiplier, jitterPermille a factor in thousandths. */
  datatype Policy = Policy(
    maxRetries: int,
    maxElapsedTime: int,
    initialDelay: int,
    maxDelay: int,
    backoffFactor: int,
    jitterPermille: int,
    errorFilter: Option<Error -> bool>,
    onRetry: bool)

  /** NewRetrier's starting values: 5 retries, 30s, 100ms, 5s, factor 2.0, jitter 0.1. */
  const Defaults: Policy := Policy(5, 30 * Second, 100 * Millisecond, 5 * Second, 2, 100, None, false)

  /** The most calls Do can make: max(maxRetries, 1). */
  function Budget(p: Policy): (b: int)
    ensures b >= 1 && b >= p.maxRetries
  {
    if p.maxRetries < 1 then 1 else p.maxRetries
  }

  /** Division truncating toward zero, as a float-to-Duration conversion does. */
  function TruncDiv(a: int, b: int): (q: int)
    requires b > 0
    ensures a >= 0 ==> 0 <= q && q * b <= a
  {
    if a >= 0 then a / b else -((-a) / b)
  }

  /** The wait before jitter: min(delay * backoffFactor, maxDelay). */
  function Backoff(p: Policy, delay: int): (r: int)
    ensures r <= p.maxDelay
    ensures r <= delay * p.backoffFactor
    ensures r == p.maxDelay || r == delay * p.backoffFactor
  {
    var next := delay * p.backoffFactor;
    if next > p.maxDelay then p.maxDelay else next
  }

  /** The jitter added to a pre-jitter wait `pre` for draw `u`. */
  function Jitter(p: Policy, pre: int, u: Draw): int
  {
    if p.jitterPermille > 0 then TruncDiv(pre * (u * p.jitterPermille), DrawScale * 1000) else 0
  }

  /** The wait computed after a failed attempt whose previous wait was `delay`. */
  function NextDelay(p: Policy, delay: int, u: Draw): int
  {
    var pre := Backoff(p, delay);
    pre + Jitter(p, pre, u)
  }

  /** Jitter is additive and bounded: pre <= wait <= pre * (1 + jitterFactor). */
  lemma JitterBounds(p: Policy, pre: int, u: Draw)
    requires pre >= 0
    ensures 0 <= Jitter(p, pre, u)
    ensures 1000 * (pre + Jitter(p, pre, u)) <= pre * (1000 + (if p.jitterPermille > 0 then p.jitterPermille else 0))
  {
    if p.jitterPermille > 0 {
      var j := p.jitterPermille;
      var q := Jitter(p, pre, u);
      assert q * 1000000 <= pre * (u * j);
      MulMonotone(pre, u * j, 1000 * j);
      assert pre * (1000 * j) == (pre * j) * 1000;
      assert (q * 1000) * 1000 <= (pre * j) * 1000;
      CancelFactor(q * 1000, pre * j, 1000);
      assert pre * (1000 + j) == 1000 * pre + pre * j;
    }
  }

  lemma CancelFactor(a: int, b: int, c: int)
    requires c > 0 && a * c <= b * c
    ensures a <= b
  {
  }

  lemma MulMonotone(a: int, x: int, y: int)
    requires a >= 0 && x <= y
    ensures a * x <= a * y
  {
  }

  /** Attaches the onRetry calls and waits of earlier attempts to the rest of a run. */
  function Extend<T>(notices: seq<Notice>, delays: seq<int>, rest: Run<T>): Run<T>
  {
    rest.(notices := notices + rest.notices, delays := delays + rest.delays)
  }

  /**
   * The loop of Do from attempt `attempt` on, `delay` being the wait
   * computed last (initialDelay before the first failure).
   */
  function Loop<T>(p: Policy, env: Env<T>, attempt: nat, delay: int): Run<T>
    requires 1 <= attempt <= Budget(p)
    decreases Budget(p) - attempt
  {
    match env.op(attempt)
    case Ok(v) => Run(Success(v), Succeeded, attempt, [], [])
    case Fail(e) =>
      if p.errorFilter.Some? && !p.errorFilter.value(e) then
        Run(Failure(e), Rejected, attempt, [], [])
      else if attempt >= p.maxRetries then
        Run(Failure(RetriesExhausted(p.maxRetries, e)), Exhausted, attempt, [], [])
      else if p.maxElapsedTime > 0 && env.elapsed(attempt) >= p.maxElapsedTime then
        Run(Failure(ElapsedTimeExceeded(e)), OutOfTime, attempt, [], [])
      else
        var next := NextDelay(p, delay, env.draw(attempt));
        var notices := if p.onRetry then [Notice(e, attempt, next)] else [];
        if env.cancelled(attempt) then
          Run(Failure(env.ctxErr), Cancelled, attempt, notices, [next])
        else
          Extend(notices, [next], Loop(p, env, attempt + 1, next))
  }

  /** What Do(ctx, task) does under policy `p`. */
  function RunDo<T>(p: Policy, env: Env<T>): Run<T>
  {
    Loop(p, env, 1, p.initialDelay)
  }

  // ---------------------------------------------------------------------
  // Properties of the loop

  /** Whether the attempt fails in a way that leads to another wait and another call. */
  ghost predicate Continues<T>(p: Policy, env: Env<T>, attempt: nat)
  {
    && env.op(attempt).Fail?
    && !(p.errorFilter.Some? && !p.errorFilter.value(env.op(attempt).err))
    && attempt < p.maxRetries
    && !(p.maxElapsedTime > 0 && env.elapsed(attempt) >= p.maxElapsedTime)
    && !env.cancelled(attempt)
  }

  /** The onRetry call made for a failed attempt whose next wait is `next`. */
  function NoticesFor<T>(p: Policy, env: Env<T>, attempt: nat, next: int): seq<Notice>
    requires env.op(attempt).Fail?
  {
    if p.onRetry then [Notice(env.op(attempt).err, attempt, next)] else []
  }

  /** One turn of the loop: a continuing attempt adds one wait and possibly one onRetry call. */
  lemma Step<T>(p: Policy, env: Env<T>, attempt: nat, delay: int)
    requires 1 <= attempt <= Budget(p) && Continues(p, env, attempt)
    ensures attempt + 1 <= Budget(p)
    ensures var next := NextDelay(p, delay, env.draw(attempt));
      Loop(p, env, attempt, delay) == Extend(NoticesFor(p, env, attempt, next), [next], Loop(p, env, attempt + 1, next))
  {
  }

  /** A terminal attempt ends the loop with at most one wait begun. */
  lemma Stop<T>(p: Policy, env: Env<T>, attempt: nat, delay: int)
    requires 1 <= attempt <= Budget(p) && !Continues(p, env, attempt)
    ensures var r := Loop(p, env, attempt, delay);
      && r.calls == attempt
      && (r.exit == Cancelled ==> |r.delays| == 1)
      && (r.exit != Cancelled ==> r.delays == [] && r.notices == [])
  {
  }

  lemma ExtendTwice<T>(n1: seq<Notice>, d1: seq<int>, n2: seq<Notice>, d2: seq<int>, r: Run<T>)
    ensures Extend(n1, d1, Extend(n2, d2, r)) == Extend(n1 + n2, d1 + d2, r)
  {
    assert n1 + (n2 + r.notices) == (n1 + n2) + r.notices;
    assert d1 + (d2 + r.delays) == (d1 + d2) + r.delays;
  }

  /** A first call that succeeds is returned as it is, with no onRetry call and no wait. */
  lemma FirstSuccess<T>(p: Policy, env: Env<T>)
    requires env.op(1).Ok?
    ensures RunDo(p, env) == Run(Success(env.op(1).value), Succeeded, 1, [], [])
  {
  }

  /** An error the filter rejects is returned unchanged, with no further call and no onRetry. */
  lemma RejectedOnFirstFailure<T>(p: Policy, env: Env<T>)
    requires env.op(1).Fail? && p.errorFilter.Some? && !p.errorFilter.value(env.op(1).err)
    ensures RunDo(p, env) == Run(Failure(env.op(1).err), Rejected, 1, [], [])
  {
  }

  /** The operation runs at least once and never more than max(maxRetries, 1) times. */
  lemma {:induction false} CallsBounded<T>(p: Policy, env: Env<T>, attempt: nat, delay: int)
    requires 1 <= attempt <= Budget(p)
    ensures attempt <= Loop(p, env, attempt, delay).calls <= Budget(p)
    decreases Budget(p) - attempt
  {
    if Continues(p, env, attempt) {
      var next := NextDelay(p, delay, env.draw(attempt));
      Step(p, env, attempt, delay);
      CallsBounded(p, env, attempt + 1, next);
    } else {
      Stop(p, env, attempt, delay);
    }
  }

  /** Conditions under which nothing but the attempt cap can end the loop. */
  ghost predicate OnlyCapStops<T>(p: Policy, env: Env<T>)
  {
    && (forall k :: env.op(k).Fail?)
    && p.errorFilter.None?
    && p.maxElapsedTime <= 0
    && (forall k :: !env.cancelled(k))
  }

  /**
   * An operation that always fails, with no filter, no elapsed limit and no
   * cancellation, runs exactly max(maxRetries, 1) times, and Do reports
   * "retry failed after maxRetries attempts" wrapping the last error.
   */
  lemma {:induction false} AlwaysFailing<T>(p: Policy, env: Env<T>, attempt: nat, delay: int)
    requires OnlyCapStops(p, env)
    requires 1 <= attempt <= Budget(p)
    ensures Loop(p, env, attempt, delay).calls == Budget(p)
    ensures Loop(p, env, attempt, delay).exit == Exhausted
    ensures Loop(p, env, attempt, delay).result == Failure(RetriesExhausted(p.maxRetries, env.op(Budget(p)).err))
    ensures |Loop(p, env, attempt, delay).delays| == Budget(p) - attempt
    decreases Budget(p) - attempt
  {
    assert env.op(attempt).Fail?;
    assert !env.cancelled(attempt);
    if attempt < p.maxRetries {
      Step(p, env, attempt, delay);
      AlwaysFailing(p, env, attempt + 1, NextDelay(p, delay, env.draw(attempt)));
    }
  }

  /**
   * onRetry is called with consecutive attempt numbers, each below
   * maxRetries, once before each wait and with that wait; without an
   * onRetry callback nothing is reported.
   */
  lemma {:induction false} NoticesNumbered<T>(p: Policy, env: Env<T>, attempt: nat, delay: int)
    requires 1 <= attempt <= Budget(p)
    ensures var r := Loop(p, env, attempt, delay);
      && (p.onRetry ==> |r.notices| == |r.delays|)
      && (!p.onRetry ==> r.notices == [])
      && (p.onRetry ==> forall i :: 0 <= i < |r.notices| ==>
            && r.notices[i].attempt == attempt + i
            && r.notices[i].attempt < p.maxRetries
            && r.notices[i].nextDelay == r.delays[i])
    decreases Budget(p) - attempt
  {
    if Continues(p, env, attempt) {
      var next := NextDelay(p, delay, env.draw(attempt));
      Step(p, env, attempt, delay);
      NoticesNumbered(p, env, attempt + 1, next);
      var r := Loop(p, env, attempt, delay);
      var rest := Loop(p, env, attempt + 1, next);
      if p.onRetry {
        assert r.notices == [Notice(env.op(attempt).err, attempt, next)] + rest.notices;
        assert r.delays == [next] + rest.delays;
        forall i | 0 <= i < |r.notices|
          ensures r.notices[i].attempt == attempt + i
          ensures r.notices[i].attempt < p.maxRetries
          ensures r.notices[i].nextDelay == r.delays[i]
        {
          if i > 0 {
            assert r.notices[i] == rest.notices[i - 1];
            assert r.delays[i] == rest.delays[i - 1];
          }
        }
      }
    } else {
      Stop(p, env, attempt, delay);
    }
  }

  /** The i-th wait is computed from the one before it (from `start` for the first). */
  ghost predicate WaitAt(p: Policy, env_draw: nat -> Draw, start: int, attempt: nat, ds: seq<int>, i: nat)
    requires i < |ds|
  {
    ds[i] == NextDelay(p, if i == 0 then start else ds[i - 1], env_draw(attempt + i))
  }

  /**
   * Each wait is computed from the previous one (from `delay` for the
   * first) by the clamped geometric step plus the jitter of its draw.
   */
  lemma {:induction false} DelaysFollowSchedule<T>(p: Policy, env: Env<T>, attempt: nat, delay: int)
    requires 1 <= attempt <= Budget(p)
    ensures var ds := Loop(p, env, attempt, delay).delays;
      forall i :: 0 <= i < |ds| ==> WaitAt(p, env.draw, delay, attempt, ds, i)
    decreases Budget(p) - attempt
  {
    var ds := Loop(p, env, attempt, delay).delays;
    var next := NextDelay(p, delay, env.draw(attempt));
    if Continues(p, env, attempt) {
      Step(p, env, attempt, delay);
      DelaysFollowSchedule(p, env, attempt + 1, next);
      var rest := Loop(p, env, attempt + 1, next).delays;
      assert ds == [next] + rest;
      ScheduleCons(p, env.draw, delay, attempt, next, attempt + 1, rest);
    } else {
      Stop(p, env, attempt, delay);
      if Loop(p, env, attempt, delay).exit == Cancelled {
        assert ds == [next];
      }
    }
  }

  /** A schedule from the next wait on, preceded by that wait, is a schedule from the current one. */
  lemma ScheduleCons(p: Policy, draw: nat -> Draw, delay: int, attempt: nat, next: int, nextAttempt: nat, rest: seq<int>)
    requires next == NextDelay(p, delay, draw(attempt)) && nextAttempt == attempt + 1
    requires forall i :: 0 <= i < |rest| ==> WaitAt(p, draw, next, nextAttempt, rest, i)
    ensures var ds := [next] + rest;
      forall i :: 0 <= i < |ds| ==> WaitAt(p, draw, delay, attempt, ds, i)
  {
    var ds := [next] + rest;
    forall i | 0 <= i < |ds|
      ensures WaitAt(p, draw, delay, attempt, ds, i)
    {
      if i > 0 {
        assert WaitAt(p, draw, next, attempt + 1, rest, i - 1);
        assert ds[i] == rest[i - 1] && attempt + 1 + (i - 1) == attempt + i;
        assert ds[i - 1] == if i == 1 then next else rest[i - 2];
      }
    }
  }

  /**
   * Without jitter every wait is exactly min(previous * backoffFactor,
   * maxDelay), the first one starting from initialDelay, so that no wait
   * exceeds maxDelay.
   */
  lemma NoJitterWaits<T>(p: Policy, env: Env<T>)
    requires p.jitterPermille <= 0
    ensures var ds := RunDo(p, env).delays;
      forall i :: 0 <= i < |ds| ==>
        && ds[i] == Backoff(p, if i == 0 then p.initialDelay else ds[i - 1])
        && ds[i] <= p.maxDelay
  {
    var ds := RunDo(p, env).delays;
    assert ds == Loop(p, env, 1, p.initialDelay).delays;
    DelaysFollowSchedule(p, env, 1, p.initialDelay);
    forall i | 0 <= i < |ds|
      ensures ds[i] == Backoff(p, if i == 0 then p.initialDelay else ds[i - 1])
      ensures ds[i] <= p.maxDelay
    {
      var prev := if i == 0 then p.initialDelay else ds[i - 1];
      assert WaitAt(p, env.draw, p.initialDelay, 1, ds, i);
      assert Jitter(p, Backoff(p, prev), env.draw(1 + i)) == 0;
    }
  }

  /** The first wait is min(initialDelay * backoffFactor, maxDelay) plus jitter, not initialDelay itself. */
  lemma FirstWait<T>(p: Policy, env: Env<T>)
    requires |RunDo(p, env).delays| > 0
    ensures RunDo(p, env).delays[0] == NextDelay(p, p.initialDelay, env.draw(1))
    ensures p.jitterPermille <= 0 ==> RunDo(p, env).delays[0] == Backoff(p, p.initialDelay)
  {
    DelaysFollowSchedule(p, env, 1, p.initialDelay);
    assert WaitAt(p, env.draw, p.initialDelay, 1, RunDo(p, env).delays, 0);
  }

  /**
   * With non-negative delays each wait lies between its pre-jitter step and
   * that step times (1 + jitterFactor); since the jittered value feeds the
   * next step, a wait may exceed maxDelay by up to the jitter.
   */
  lemma JitteredWaits<T>(p: Policy, env: Env<T>)
    requires p.initialDelay >= 0 && p.backoffFactor >= 0 && p.maxDelay >= 0
    ensures WaitsWithinJitter(p, RunDo(p, env).delays)
  {
    var ds := RunDo(p, env).delays;
    assert ds == Loop(p, env, 1, p.initialDelay).delays;
    DelaysFollowSchedule(p, env, 1, p.initialDelay);
    forall i | 0 <= i < |ds|
      ensures WaitWithinJitter(p, if i == 0 then p.initialDelay else ds[i - 1], ds[i])
    {
      if i > 0 {
        WaitsNonNegative(p, env.draw, ds, i - 1);
      }
      assert WaitAt(p, env.draw, p.initialDelay, 1, ds, i);
      var prev := if i == 0 then p.initialDelay else ds[i - 1];
      NextDelayWithinJitter(p, prev, env.draw(1 + i));
      assert ds[i] == NextDelay(p, prev, env.draw(1 + i));
    }
    assert WaitsWithinJitter(p, ds);
  }

  /** Along a schedule started from a non-negative delay every wait is non-negative. */
  lemma {:induction false} WaitsNonNegative(p: Policy, draw: nat -> Draw, ds: seq<int>, k: nat)
    requires p.initialDelay >= 0 && p.backoffFactor >= 0 && p.maxDelay >= 0
    requires k < |ds|
    requires forall i :: 0 <= i < |ds| ==> WaitAt(p, draw, p.initialDelay, 1, ds, i)
    ensures ds[k] >= 0
  {
    assert WaitAt(p, draw, p.initialDelay, 1, ds, k);
    if k > 0 {
      WaitsNonNegative(p, draw, ds, k - 1);
    }
    NextDelayWithinJitter(p, if k == 0 then p.initialDelay else ds[k - 1], draw(1 + k));
  }

  /** Every wait of `ds` is within the jitter of the step from the wait before it. */
  ghost predicate WaitsWithinJitter(p: Policy, ds: seq<int>)
  {
    forall i :: 0 <= i < |ds| ==> WaitWithinJitter(p, if i == 0 then p.initialDelay else ds[i - 1], ds[i])
  }

  /** `wait` lies between the pre-jitter step from `prev` and that step times (1 + jitterFactor). */
  ghost predicate WaitWithinJitter(p: Policy, prev: int, wait: int)
  {
    var pre := Backoff(p, prev);
    && 0 <= pre <= wait
    && 1000 * wait <= pre * (1000 + (if p.jitterPermille > 0 then p.jitterPermille else 0))
  }

  lemma NextDelayWithinJitter(p: Policy, prev: int, u: Draw)
    requires prev >= 0 && p.backoffFactor >= 0 && p.maxDelay >= 0
    ensures WaitWithinJitter(p, prev, NextDelay(p, prev, u))
    ensures NextDelay(p, prev, u) >= 0
  {
    var pre := Backoff(p, prev);
    MulMonotone(prev, 0, p.backoffFactor);
    JitterBounds(p, pre, u);
  }

  /**
   * The five terminal states, as the loop's exit order makes them: the
   * attempt cap is checked before the elapsed-time limit, and a
   * cancellation returns ctx.Err() after the wait has begun.
   */
  lemma {:induction false} ExitsClassified<T>(p: Policy, env: Env<T>, attempt: nat, delay: int)
    requires 1 <= attempt <= Budget(p)
    ensures var r := Loop(p, env, attempt, delay);
      && (r.exit == Succeeded <==> r.result.Success?)
      && (r.exit == Succeeded ==> env.op(r.calls).Ok? && r.result == Success(env.op(r.calls).value))
      && (r.exit == Rejected ==>
            env.op(r.calls).Fail? && p.errorFilter.Some? && !p.errorFilter.value(env.op(r.calls).err)
            && r.result == Failure(env.op(r.calls).err))
      && (r.exit == Exhausted ==>
            env.op(r.calls).Fail? && r.calls >= p.maxRetries
            && r.result == Failure(RetriesExhausted(p.maxRetries, env.op(r.calls).err)))
      && (r.exit == OutOfTime ==>
            env.op(r.calls).Fail? && r.calls < p.maxRetries && 0 < p.maxElapsedTime <= env.elapsed(r.calls)
            && r.result == Failure(ElapsedTimeExceeded(env.op(r.calls).err)))
      && (r.exit == Cancelled ==>
            r.calls < p.maxRetries && env.cancelled(r.calls) && r.result == Failure(env.ctxErr))
      && (r.exit == Cancelled ==> |r.delays| == r.calls - attempt + 1)
      && (r.exit != Cancelled ==> |r.delays| == r.calls - attempt)
    decreases Budget(p) - attempt
  {
    if Continues(p, env, attempt) {
      Step(p, env, attempt, delay);
      ExitsClassified(p, env, attempt + 1, NextDelay(p, delay, env.draw(attempt)));
    } else {
      Stop(p, env, attempt, delay);
    }
  }

  /**
   * The schedule of a policy with maxRetries 4, initialDelay 100ms, factor
   * 2 and no jitter, for an operation failing three times: onRetry sees
   * attempts 1, 2, 3 and the waits are 200ms, 400ms and 800ms, since the
   * first wait is already scaled by the factor.
   */
  lemma FourthAttemptSucceeds(env: Env<int>)
    requires forall k :: env.op(k) == if k < 4 then Fail(Cause("busy")) else Ok(42)
    requires forall k :: !env.cancelled(k)
    requires forall k :: env.elapsed(k) < 30 * Second
    ensures var p := Defaults.(maxRetries := 4, jitterPermille := 0, onRetry := true);
      var r := RunDo(p, env);
      && r.result == Success(42)
      && r.calls == 4
      && r.delays == [200 * Millisecond, 400 * Millisecond, 800 * Millisecond]
      && r.notices == [Notice(Cause("busy"), 1, 200 * Millisecond),
                       Notice(Cause("busy"), 2, 400 * Millisecond),
                       Notice(Cause("busy"), 3, 800 * Millisecond)]
  {
    var p := Defaults.(maxRetries := 4, jitterPermille := 0, onRetry := true);
    var busy := Cause("busy");
    assert env.op(1) == Fail(busy) && env.op(2) == Fail(busy) && env.op(3) == Fail(busy);
    assert env.op(4) == Ok(42);
    assert NextDelay(p, 100 * Millisecond, env.draw(1)) == 200 * Millisecond;
    assert NextDelay(p, 200 * Millisecond, env.draw(2)) == 400 * Millisecond;
    assert NextDelay(p, 400 * Millisecond, env.draw(3)) == 800 * Millisecond;
    var r4 := Loop(p, env, 4, 800 * Millisecond);
    assert r4 == Run(Success(42), Succeeded, 4, [], []);
    Step(p, env, 3, 400 * Millisecond);
    var r3 := Loop(p, env, 3, 400 * Millisecond);
    assert r3 == Extend([Notice(busy, 3, 800 * Millisecond)], [800 * Millisecond], r4);
    Step(p, env, 2, 200 * Millisecond);
    var r2 := Loop(p, env, 2, 200 * Millisecond);
    assert r2 == Extend([Notice(busy, 2, 400 * Millisecond)], [400 * Millisecond], r3);
    Step(p, env, 1, 100 * Millisecond);
    assert RunDo(p, env) == Extend([Notice(busy, 1, 200 * Millisecond)], [200 * Millisecond], r2);
  }

  // ---------------------------------------------------------------------
  // Options

  /** The functional options WithMaxRetries ... WithOnRetry; each names one field. */
  datatype RetryOption =
    | WithMaxRetries(n: int)
    | WithInitialDelay(d: int)
    | WithMaxDelay(d: int)
    | WithMaxElapsedTime(d: int)
    | WithErrorFilter(filter: Option<Error -> bool>)
    | WithOnRetry(enabled: bool)

  datatype Field = MaxRetriesField | InitialDelayField | MaxDelayField | MaxElapsedTimeField
                 | ErrorFilterField | OnRetryField | BackoffFactorField | JitterField

  function FieldOf(o: RetryOption): Field
  {
    match o
    case WithMaxRetries(_) => MaxRetriesField
    case WithInitialDelay(_) => InitialDelayField
    case WithMaxDelay(_) => MaxDelayField
    case WithMaxElapsedTime(_) => MaxElapsedTimeField
    case WithErrorFilter(_) => ErrorFilterField
    case WithOnRetry(_) => OnRetryField
  }

  ghost predicate AgreeOn(p: Policy, q: Policy, f: Field)
  {
    match f
    case MaxRetriesField => p.maxRetries == q.maxRetries
    case InitialDelayField => p.initialDelay == q.initialDelay
    case MaxDelayField => p.maxDelay == q.maxDelay
    case MaxElapsedTimeField => p.maxElapsedTime == q.maxElapsedTime
    case ErrorFilterField => p.errorFilter == q.errorFilter
    case OnRetryField => p.onRetry == q.onRetry
    case BackoffFactorField => p.backoffFactor == q.backoffFactor
    case JitterField => p.jitterPermille == q.jitterPermille
  }

  /** What the closure returned by an option does to a Retrier. */
  function Applied(p: Policy, o: RetryOption): Policy
  {
    match o
    case WithMaxRetries(n) => p.(maxRetries := n)
    case WithInitialDelay(d) => p.(initialDelay := d)
    case WithMaxDelay(d) => p.(maxDelay := d)
    case WithMaxElapsedTime(d) => p.(maxElapsedTime := d)
    case WithErrorFilter(f) => p.(errorFilter := f)
    case WithOnRetry(b) => p.(onRetry := b)
  }

  /** The options applied in order. */
  function ApplyAll(p: Policy, opts: seq<RetryOption>): Policy
  {
    if opts == [] then p else Applied(ApplyAll(p, opts[..|opts| - 1]), opts[|opts| - 1])
  }

  /** Each option overwrites its own field and no other. */
  lemma OptionSetsOneField(p: Policy, o: RetryOption)
    ensures forall f :: f != FieldOf(o) ==> AgreeOn(Applied(p, o), p, f)
    ensures forall q :: AgreeOn(Applied(p, o), Applied(q, o), FieldOf(o))
  {
  }

  /** A field that no option names keeps its starting value. */
  lemma {:induction false} UnnamedFieldKept(p: Policy, opts: seq<RetryOption>, f: Field)
    requires forall i :: 0 <= i < |opts| ==> FieldOf(opts[i]) != f
    ensures AgreeOn(ApplyAll(p, opts), p, f)
  {
    if opts != [] {
      UnnamedFieldKept(p, opts[..|opts| - 1], f);
    }
  }

  /** The last option naming a field decides that field. */
  lemma {:induction false} LastOptionWins(p: Policy, opts: seq<RetryOption>, j: nat)
    requires j < |opts|
    requires forall i :: j < i < |opts| ==> FieldOf(opts[i]) != FieldOf(opts[j])
    ensures AgreeOn(ApplyAll(p, opts), Applied(p, opts[j]), FieldOf(opts[j]))
  {
    if j == |opts| - 1 {
      OptionSetsOneField(ApplyAll(p, opts[..j]), opts[j]);
    } else {
      LastOptionWins(p, opts[..|opts| - 1], j);
    }
  }

  // ---------------------------------------------------------------------
  // The Retrier object

  class Retrier {
    var maxRetries: int
    var maxElapsedTime: int
    var initialDelay: int
    var maxDelay: int
    var backoffFactor: int
    var jitterPermille: int
    var errorFilter: Option<Error -> bool>
    var onRetry: bool

    function Config(): Policy
      reads this
    {
      Policy(maxRetries, maxElapsedTime, initialDelay, maxDelay, backoffFactor, jitterPermille, errorFilter, onRetry)
    }

    /** The struct literal of NewRetrier, before any option runs. */
    constructor ()
      ensures Config() == Defaults
    {
      maxRetries := 5;
      maxElapsedTime := 30 * Second;
      initialDelay := 100 * Millisecond;
      maxDelay := 5 * Second;
      backoffFactor := 2;
      jitterPermille := 100;
      errorFilter := None;
      onRetry := false;
    }

    /** Runs one option closure on this Retrier. */
    method Apply(o: RetryOption)
      modifies this
      ensures Config() == Applied(old(Config()), o)
    {
      match o
      case WithMaxRetries(n) => maxRetries := n;
      case WithInitialDelay(d) => initialDelay := d;
      case WithMaxDelay(d) => maxDelay := d;
      case WithMaxElapsedTime(d) => maxElapsedTime := d;
      case WithErrorFilter(f) => errorFilter := f;
      case WithOnRetry(b) => onRetry := b;
    }

    /** The wait after a failure: the clamped geometric step plus its jitter. */
    method NextWait(delay: int, u: Draw) returns (next: int)
      ensures next == NextDelay(Config(), delay, u)
    {
      next := delay * backoffFactor;
      if next > maxDelay {
        next := maxDelay;
      }
      if jitterPermille > 0 {
        next := next + TruncDiv(next * (u * jitterPermille), DrawScale * 1000);
      }
    }

    /**
     * One turn of Do's loop: the call, then the checks that end the loop in
     * the source's order; a failure that goes on computes the next wait and
     * the onRetry call, and cancellation during that wait ends the loop too.
     */
    method Attempt<T>(env: Env<T>, attempt: nat, delay: int) returns (done: Option<Run<T>>, added: seq<Notice>, next: int)
      requires 1 <= attempt <= Budget(Config())
      ensures !Continues(Config(), env, attempt) ==> done == Some(Loop(Config(), env, attempt, delay))
      ensures Continues(Config(), env, attempt) ==>
        && done.None?
        && next == NextDelay(Config(), delay, env.draw(attempt))
        && added == NoticesFor(Config(), env, attempt, next)
    {
      next, added := delay, [];
      var outcome := env.op(attempt);
      if outcome.Ok? {
        return Some(Run(Success(outcome.value), Succeeded, attempt, [], [])), added, next;
      }
      var err := outcome.err;
      if errorFilter.Some? && !errorFilter.value(err) {
        return Some(Run(Failure(err), Rejected, attempt, [], [])), added, next;
      }
      if attempt >= maxRetries {
        return Some(Run(Failure(RetriesExhausted(maxRetries, err)), Exhausted, attempt, [], [])), added, next;
      }
      if maxElapsedTime > 0 && env.elapsed(attempt) >= maxElapsedTime {
        return Some(Run(Failure(ElapsedTimeExceeded(err)), OutOfTime, attempt, [], [])), added, next;
      }
      next := NextWait(delay, env.draw(attempt));
      if onRetry {
        added := [Notice(err, attempt, next)];
      }
      if env.cancelled(attempt) {
        return Some(Run(Failure(env.ctxErr), Cancelled, attempt, added, [next])), added, next;
      }
      done := None;
    }

    /**
     * Do: call the operation until it succeeds, the filter rejects its
     * error, the attempt cap or the elapsed-time limit is reached, or the
     * context is cancelled during a wait.
     */
    method Do<T>(env: Env<T>) returns (run: Run<T>)
      ensures run == RunDo(Config(), env)
    {
      ghost var p := Config();
      var attempt: nat := 1;
      var delay := initialDelay;
      var notices: seq<Notice> := [];
      var delays: seq<int> := [];
      while true
        invariant 1 <= attempt <= Budget(p)
        invariant RunDo(p, env) == Extend(notices, delays, Loop(p, env, attempt, delay))
        decreases Budget(p) - attempt
      {
        var done, added, next := Attempt(env, attempt, delay);
        if done.Some? {
          return Extend(notices, delays, done.value);
        }
        Step(p, env, attempt, delay);
        ExtendTwice(notices, delays, added, [next], Loop(p, env, attempt + 1, next));
        notices := notices + added;
        delays := delays + [next];
        delay := next;
        attempt := attempt + 1;
      }
    }
  }

  /** NewRetrier(opts...): the defaults, then each option in order. */
  method NewRetrier(opts: seq<RetryOption>) returns (r: Retrier)
    ensures fresh(r)
    ensures r.Config() == ApplyAll(Defaults, opts)
  {
    r := new Retrier();
    for i := 0 to |opts|
      invariant r.Config() == ApplyAll(Defaults, opts[..i])
    {
      r.Apply(opts[i]);
      assert opts[..i + 1][..i] == opts[..i];
    }
    assert opts[..|opts|] == opts;
  }
}
