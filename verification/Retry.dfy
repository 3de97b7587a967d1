/**
 Retry with backoff, alone and with every attempt guarded by a circuit breaker. The operation is
 given by what its k-th call would answer, and the clock by what it reads at the k-th attempt.
 Attempts are numbered from 0.
 */
module Retry {
  import opened Wrappers
  import B = CircuitBreaker

  datatype Strategy =
    | Fixed(delayMs: nat)
    | Exponential(baseMs: nat, maxMs: nat)

  datatype Policy = Policy(maxAttempts: nat, strategy: Strategy)

  datatype Error = Failed(message: string) | BreakerOpen | Internal

  // ----- the delay -----

  /** `1u64.checked_shl(n)`: nothing from 64 on, where the shift count is too large. */
  function CheckedShl(n: nat): Option<nat> {
    if n < 64 then Some(Pow2(n)) else None
  }

  function SaturatingMul(a: nat, b: nat): nat {
    if a * b <= U64_MAX then a * b else U64_MAX
  }

  function Min(a: nat, b: nat): nat {
    if a <= b then a else b
  }

  function Delay(strategy: Strategy, attempt: nat): nat {
    match strategy
    case Fixed(delayMs) => delayMs
    case Exponential(baseMs, maxMs) =>
      var shifted := CheckedShl(attempt);
      var multiplier := if shifted.Some? then shifted.value else U64_MAX;
      Min(SaturatingMul(baseMs, multiplier), maxMs)
  }

  lemma {:induction false} Pow2Grows(m: nat, n: nat)
    requires m <= n
    ensures Pow2(m) <= Pow2(n)
  {
    if m < n {
      Pow2Grows(m, n - 1);
    }
  }

  lemma {:induction false} Square(n: nat, x: nat)
    requires Pow2(n) == x
    ensures Pow2(n + n) == x * x
  {
    Pow2Adds(n, n);
  }

  lemma {:induction false} Pow2Of64(n: nat)
    requires n == 64
    ensures Pow2(n) == U64_MAX + 1
  {
    assert Pow2(4) == 16;
    Square(n / 16, 0x10);
    Square(n / 8, 0x100);
    Square(n / 4, 0x1_0000);
    Square(n / 2, 0x1_0000_0000);
  }

  lemma {:induction false} Twice(a: nat, b: nat)
    ensures 2 * (a * b) == a * (2 * b)
  {
  }

  lemma {:induction false} Pow2Adds(m: nat, n: nat)
    ensures Pow2(m + n) == Pow2(m) * Pow2(n)
  {
    if n > 0 {
      Pow2Adds(m, n - 1);
      Twice(Pow2(m), Pow2(n - 1));
    }
  }

  /** In spite of the checked shift and the saturating product the delay is base * 2^attempt, capped. */
  lemma {:induction false} DelayIsCappedPower(baseMs: nat, maxMs: nat, attempt: nat)
    requires baseMs <= U64_MAX && maxMs <= U64_MAX
    ensures Delay(Exponential(baseMs, maxMs), attempt) == Min(baseMs * Pow2(attempt), maxMs)
  {
    if attempt >= 64 {
      Pow2Grows(64, attempt);
      Pow2Of64(64);
      if baseMs == 0 {
        assert 0 * Pow2(attempt) == 0;
      } else {
        Larger(baseMs, Pow2(attempt));
        Larger(baseMs, U64_MAX);
      }
    }
  }

  lemma {:induction false} Larger(a: nat, b: nat)
    requires a >= 1
    ensures a * b >= b
  {
    assert (a - 1) * b >= 0;
  }

  predicate Exhausted(policy: Policy, attempt: nat) {
    attempt >= policy.maxAttempts
  }

  // ----- retrying -----

  /** The answer, how many attempts were made, and for how long the task slept between them. */
  datatype Outcome<T> = Outcome(result: Result<T, Error>, attempts: nat, sleptMs: nat)

  /** The total of the delays after the first `n` attempts. */
  function Slept(strategy: Strategy, n: nat): nat {
    if n == 0 then 0 else Slept(strategy, n - 1) + Delay(strategy, n - 1)
  }

  function Remembered(lastErr: Option<Error>): Error {
    if lastErr.Some? then lastErr.value else Internal
  }

  ghost predicate AllFailed<T>(answers: seq<Result<T, Error>>) {
    forall k :: 0 <= k < |answers| ==> answers[k].Err?
  }

  /**
   What a retry is, given what its attempts answered: the first success, or the last error when
   all attempts are used up, with a delay before every new attempt.
   */
  ghost predicate IsRetry<T>(policy: Policy, answers: seq<Result<T, Error>>, o: Outcome<T>) {
    && o.attempts == |answers| <= policy.maxAttempts
    && (answers == [] ==> policy.maxAttempts == 0 && o.result == Err(Internal) && o.sleptMs == 0)
    && (answers != [] ==>
          && o.result == answers[|answers| - 1]
          && AllFailed(answers[..|answers| - 1])
          && (o.result.Err? ==> o.attempts == policy.maxAttempts)
          && o.sleptMs == Slept(policy.strategy, o.attempts - 1))
  }

  ghost function Answers<T>(f: nat -> Result<T, Error>, n: nat): seq<Result<T, Error>> {
    if n == 0 then [] else Answers(f, n - 1) + [f(n - 1)]
  }

  lemma {:induction false} AnswersAre<T>(f: nat -> Result<T, Error>, n: nat)
    ensures |Answers(f, n)| == n && forall k :: 0 <= k < n ==> Answers(f, n)[k] == f(k)
  {
    if n > 0 {
      AnswersAre(f, n - 1);
    }
  }

  /** Said of the calls themselves: all but the last failed, and the last is the answer unless none was to be made. */
  lemma {:induction false} RetryOfCalls<T>(policy: Policy, f: nat -> Result<T, Error>, o: Outcome<T>)
    requires IsRetry(policy, Answers(f, o.attempts), o)
    ensures o.attempts <= policy.maxAttempts && (o.attempts == 0 <==> policy.maxAttempts == 0)
    ensures o.attempts == 0 ==> o.result == Err(Internal)
    ensures o.attempts > 0 ==> o.result == f(o.attempts - 1) && forall k :: 0 <= k < o.attempts - 1 ==> f(k).Err?
    ensures o.attempts > 0 && o.result.Err? ==> o.attempts == policy.maxAttempts
  {
    AnswersAre(f, o.attempts);
    var answers := Answers(f, o.attempts);
    if o.attempts > 0 {
      forall k | 0 <= k < o.attempts - 1 ensures f(k).Err? {
        assert answers[..|answers| - 1][k] == f(k);
      }
    }
  }

  method WithRetry<T>(policy: Policy, f: nat -> Result<T, Error>) returns (o: Outcome<T>)
    ensures IsRetry(policy, Answers(f, o.attempts), o)
  {
    var lastErr: Option<Error> := None;
    var slept: nat := 0;
    for attempt := 1 to policy.maxAttempts + 1
      invariant AllFailed(Answers(f, attempt - 1)) && |Answers(f, attempt - 1)| == attempt - 1
      invariant attempt - 1 < policy.maxAttempts || policy.maxAttempts == 0
      invariant attempt == 1 ==> lastErr.None?
      invariant slept == Slept(policy.strategy, attempt - 1)
    {
      assert Answers(f, attempt)[..attempt - 1] == Answers(f, attempt - 1);
      match f(attempt - 1)
      case Ok(val) => return Outcome(Ok(val), attempt, slept);
      case Err(e) =>
        if Exhausted(policy, attempt) {
          return Outcome(Err(e), attempt, slept);
        }
        slept := slept + Delay(policy.strategy, attempt - 1);
        lastErr := Some(e);
    }
    return Outcome(Err(Remembered(lastErr)), 0, slept);
  }

  function SumOfPowers(baseMs: nat, maxMs: nat, n: nat): nat {
    if n == 0 then 0 else SumOfPowers(baseMs, maxMs, n - 1) + Min(baseMs * Pow2(n - 1), maxMs)
  }

  /** After k attempts the task has slept exactly the sum over i < k - 1 of min(base * 2^i, max). */
  lemma {:induction false} SleptIsSum(baseMs: nat, maxMs: nat, n: nat)
    requires baseMs <= U64_MAX && maxMs <= U64_MAX
    ensures Slept(Exponential(baseMs, maxMs), n) == SumOfPowers(baseMs, maxMs, n)
  {
    if n > 0 {
      SleptIsSum(baseMs, maxMs, n - 1);
      DelayIsCappedPower(baseMs, maxMs, n - 1);
    }
  }

  /** With a fixed delay the sleep after k attempts is that delay, k - 1 times. */
  lemma {:induction false} FixedSleep(delayMs: nat, n: nat)
    ensures Slept(Fixed(delayMs), n) == n * delayMs
  {
    if n > 0 {
      FixedSleep(delayMs, n - 1);
    }
  }

  // ----- with a breaker -----

  /** The clock readings of one attempt: at its start, and around the recording of a failure. */
  datatype Readings = Readings(start: nat, before: nat, failure: nat, after: nat)

  predicate Lets(c: B.Config, s: B.State, t: Readings) {
    B.Queried(c, s, t.start).status != B.Open
  }

  /** The breaker after an attempt whose operation would answer `r`. */
  function BreakerNext<T>(c: B.Config, s: B.State, r: Result<T, Error>, t: Readings): B.State {
    var s1 := B.Queried(c, s, t.start);
    if s1.status == B.Open then s1
    else if r.Ok? then B.Succeeded(c, s1)
    else B.Queried(c, B.Failed(c, B.Queried(c, s1, t.before), t.failure), t.after)
  }

  /** The attempts so far: the breaker after them, which of them ran the operation, what each answered. */
  datatype Progress<T> = Progress(breaker: B.State, started: seq<nat>, answers: seq<Result<T, Error>>)

  function Guarded<T>(c: B.Config, p: Progress<T>, r: Result<T, Error>, t: Readings, k: nat): Progress<T> {
    var lets := Lets(c, p.breaker, t);
    Progress(BreakerNext(c, p.breaker, r, t),
             if lets then p.started + [k] else p.started,
             p.answers + [if lets then r else Err(BreakerOpen)])
  }

  function Play<T>(c: B.Config, s: B.State, f: nat -> Result<T, Error>, at: nat -> Readings, n: nat): Progress<T> {
    if n == 0 then Progress(s, [], []) else Guarded(c, Play(c, s, f, at, n - 1), f(n - 1), at(n - 1), n - 1)
  }

  /** One operation behind the breaker; `ran` says whether it was started at all. */
  method WithCircuitBreaker<T>(cb: B.CircuitBreaker, r: Result<T, Error>, t: Readings)
    returns (result: Result<T, Error>, ran: bool)
    requires cb.Valid()
    modifies cb
    ensures cb.Valid() && cb.Value() == BreakerNext(cb.config, old(cb.Value()), r, t)
    ensures ran <==> Lets(cb.config, old(cb.Value()), t)
    ensures result == if ran then r else Err(BreakerOpen)
  {
    var allowed := cb.AllowRequest(t.start);
    if !allowed {
      return Err(BreakerOpen), false;
    }
    match r
    case Ok(val) =>
      cb.RecordSuccess();
      return Ok(val), true;
    case Err(e) =>
      var prevState := cb.CurrentState(t.before);
      cb.RecordFailure(t.failure);
      var newState := cb.CurrentState(t.after);
      return Err(e), true;
  }

  /** All attempts so far failed, and the task has slept after each. */
  ghost predicate Retrying<T>(policy: Policy, answers: seq<Result<T, Error>>, attempt: nat, sleptMs: nat) {
    && |answers| == attempt && AllFailed(answers) && sleptMs == Slept(policy.strategy, attempt)
    && (attempt < policy.maxAttempts || policy.maxAttempts == 0)
  }

  lemma {:induction false} RetryEnds<T>(
      policy: Policy, answers: seq<Result<T, Error>>, attempt: nat, sleptMs: nat, result: Result<T, Error>)
    requires Retrying(policy, answers, attempt, sleptMs) && attempt < policy.maxAttempts
    requires result.Ok? || attempt + 1 >= policy.maxAttempts
    ensures IsRetry(policy, answers + [result], Outcome(result, attempt + 1, sleptMs))
  {
    assert (answers + [result])[..attempt] == answers;
  }

  lemma {:induction false} RetryGoesOn<T>(
      policy: Policy, answers: seq<Result<T, Error>>, attempt: nat, sleptMs: nat, result: Result<T, Error>)
    requires Retrying(policy, answers, attempt, sleptMs) && result.Err? && attempt + 1 < policy.maxAttempts
    ensures Retrying(policy, answers + [result], attempt + 1, sleptMs + Delay(policy.strategy, attempt))
  {
  }

  /** `play` tells what there is after each number of attempts, one guarded attempt after another. */
  ghost predicate Plays<T>(
      c: B.Config, s: B.State, f: nat -> Result<T, Error>, at: nat -> Readings, play: nat -> Progress<T>)
  {
    && play(0) == Progress(s, [], [])
    && (forall k: nat {:trigger Guarded(c, play(k), f(k), at(k), k)} ::
          play(k + 1) == Guarded(c, play(k), f(k), at(k), k))
  }

  lemma {:induction false} PlayPlays<T>(c: B.Config, s: B.State, f: nat -> Result<T, Error>, at: nat -> Readings)
    returns (play: nat -> Progress<T>)
    ensures Plays(c, s, f, at, play)
    ensures forall n: nat {:trigger Play(c, s, f, at, n)} :: play(n) == Play(c, s, f, at, n)
  {
    play := (n: nat) => Play(c, s, f, at, n);
  }

  /** The k-th attempt, after those that `earlier` and `answers` tell of. */
  method Attempt<T>(
      cb: B.CircuitBreaker, f: nat -> Result<T, Error>, at: nat -> Readings, k: nat, earlier: seq<nat>,
      ghost s: B.State, ghost play: nat -> Progress<T>, ghost answers: seq<Result<T, Error>>)
    returns (result: Result<T, Error>, started: seq<nat>)
    requires cb.Valid() && Plays(cb.config, s, f, at, play)
    requires Progress(cb.Value(), earlier, answers) == play(k)
    modifies cb
    ensures cb.Valid() && |started| <= |earlier| + 1
    ensures Progress(cb.Value(), started, answers + [result]) == play(k + 1)
  {
    ghost var next := Guarded(cb.config, play(k), f(k), at(k), k);
    var ran: bool;
    result, ran := WithCircuitBreaker(cb, f(k), at(k));
    started := if ran then earlier + [k] else earlier;
  }

  /** The attempts of `WithRetryAndBreaker`: there is at every head of the loop what `play` tells. */
  method Attempts<T>(
      policy: Policy, cb: B.CircuitBreaker, f: nat -> Result<T, Error>, at: nat -> Readings,
      ghost play: nat -> Progress<T>)
    returns (o: Outcome<T>, created: nat, started: seq<nat>, ghost answers: seq<Result<T, Error>>)
    requires cb.Valid() && Plays(cb.config, cb.Value(), f, at, play)
    modifies cb
    ensures cb.Valid()
    ensures Progress(cb.Value(), started, answers) == play(o.attempts)
    ensures created == o.attempts && |started| <= created
    ensures IsRetry(policy, answers, o)
  {
    ghost var s := cb.Value();
    var lastErr: Option<Error> := None;
    var slept: nat := 0;
    created, started, answers := 0, [], [];
    for attempt := 1 to policy.maxAttempts + 1
      invariant cb.Valid()
      invariant Progress(cb.Value(), started, answers) == play(attempt - 1)
      invariant Retrying(policy, answers, attempt - 1, slept)
      invariant attempt == 1 ==> lastErr.None?
      invariant created == attempt - 1 && |started| <= created
    {
      created := created + 1;
      ghost var before := answers;
      var result;
      result, started := Attempt(cb, f, at, attempt - 1, started, s, play, answers);
      answers := answers + [result];
      if result.Ok? || Exhausted(policy, attempt) {
        RetryEnds(policy, before, attempt - 1, slept, result);
        return Outcome(result, attempt, slept), created, started, answers;
      }
      RetryGoesOn(policy, before, attempt - 1, slept, result);
      slept := slept + Delay(policy.strategy, attempt - 1);
      lastErr := Some(result.error);
    }
    return Outcome(Err(Remembered(lastErr)), 0, slept), created, started, answers;
  }

  /**
   Every attempt calls the closure, before the breaker is asked; the future it makes is run only if
   the breaker lets it. `created` counts the futures made, `started` lists the attempts that ran theirs.
   */
  method WithRetryAndBreaker<T>(policy: Policy, cb: B.CircuitBreaker, f: nat -> Result<T, Error>, at: nat -> Readings)
    returns (o: Outcome<T>, created: nat, started: seq<nat>, ghost answers: seq<Result<T, Error>>)
    requires cb.Valid()
    modifies cb
    ensures cb.Valid()
    ensures Progress(cb.Value(), started, answers) == Play(cb.config, old(cb.Value()), f, at, o.attempts)
    ensures created == o.attempts && |started| <= created
    ensures IsRetry(policy, answers, o)
  {
    ghost var play := PlayPlays(cb.config, cb.Value(), f, at);
    o, created, started, answers := Attempts(policy, cb, f, at, play);
  }

  /** Each of the first `n` attempts answers what its operation does, or that the breaker is open; it runs it only in the first case. */
  lemma {:induction false} AttemptAnswers<T>(
      c: B.Config, s: B.State, f: nat -> Result<T, Error>, at: nat -> Readings, n: nat, k: nat)
    requires k < n
    ensures |Play(c, s, f, at, n).answers| == n
    ensures
      var lets := Lets(c, Play(c, s, f, at, k).breaker, at(k));
      && Play(c, s, f, at, n).answers[k] == (if lets then f(k) else Err(BreakerOpen))
      && (k in Play(c, s, f, at, n).started <==> lets)
  {
    StartedBelow(c, s, f, at, n);
    StartedBelow(c, s, f, at, n - 1);
    if k < n - 1 {
      AttemptAnswers(c, s, f, at, n - 1, k);
    }
  }

  /** The operation runs at most once in each attempt. */
  lemma {:induction false} StartedBelow<T>(c: B.Config, s: B.State, f: nat -> Result<T, Error>, at: nat -> Readings, n: nat)
    ensures |Play(c, s, f, at, n).answers| == n
    ensures |Play(c, s, f, at, n).started| <= n
    ensures forall i :: 0 <= i < |Play(c, s, f, at, n).started| ==> Play(c, s, f, at, n).started[i] < n
    ensures forall i, j :: 0 <= i < j < |Play(c, s, f, at, n).started| ==>
              Play(c, s, f, at, n).started[i] < Play(c, s, f, at, n).started[j]
  {
    if n > 0 {
      StartedBelow(c, s, f, at, n - 1);
    }
  }

  // ----- what the breaker hears of it -----

  /** The calls that one attempt makes on the breaker; only an attempt that is let through reports its outcome. */
  ghost function Told<T>(r: Result<T, Error>, t: Readings, lets: bool): seq<B.Event> {
    if !lets then [B.Query(t.start)]
    else if r.Ok? then [B.Query(t.start), B.Success]
    else [B.Query(t.start), B.Query(t.before), B.Failure(t.failure), B.Query(t.after)]
  }

  lemma {:induction false} OneMore(c: B.Config, h: seq<B.Event>, e: B.Event)
    ensures B.After(c, h + [e]) == B.Step(c, B.After(c, h), e)
  {
    assert (h + [e])[..|h + [e]| - 1] == h;
  }

  lemma {:induction false} ThreeMore(c: B.Config, h: seq<B.Event>, e: B.Event, e': B.Event, e'': B.Event)
    ensures B.After(c, h + [e] + [e'] + [e'']) == B.Step(c, B.Step(c, B.Step(c, B.After(c, h), e), e'), e'')
  {
    OneMore(c, h, e);
    OneMore(c, h + [e], e');
    OneMore(c, h + [e] + [e'], e'');
  }

  lemma {:induction false} ToldInTurn<T>(h: seq<B.Event>, r: Result<T, Error>, t: Readings)
    ensures h + Told(r, t, false) == h + [B.Query(t.start)]
    ensures h + Told(r, t, true) ==
            if r.Ok? then h + [B.Query(t.start)] + [B.Success]
            else h + [B.Query(t.start)] + [B.Query(t.before)] + [B.Failure(t.failure)] + [B.Query(t.after)]
  {
  }

  /** An attempt leaves the breaker as the history of its calls does, and is let through as its first query says. */
  lemma {:induction false} AttemptIsHeard<T>(
      c: B.Config, h: seq<B.Event>, r: Result<T, Error>, t: Readings, s: B.State, lets: bool)
    requires s == B.After(c, h) && lets == Lets(c, s, t)
    ensures lets <==> B.StatusAfter(c, h + [B.Query(t.start)]) != B.Open
    ensures BreakerNext(c, s, r, t) == B.After(c, h + Told(r, t, lets))
  {
    var h1 := h + [B.Query(t.start)];
    OneMore(c, h, B.Query(t.start));
    ToldInTurn(h, r, t);
    if lets && r.Ok? {
      OneMore(c, h1, B.Success);
    } else if lets {
      ThreeMore(c, h1, B.Query(t.before), B.Failure(t.failure), B.Query(t.after));
    }
  }

  ghost function Calls<T>(c: B.Config, s: B.State, f: nat -> Result<T, Error>, at: nat -> Readings, n: nat): seq<B.Event> {
    if n == 0 then []
    else Calls(c, s, f, at, n - 1) + Told(f(n - 1), at(n - 1), Lets(c, Play(c, s, f, at, n - 1).breaker, at(n - 1)))
  }

  /** How the operations of these attempts end. */
  ghost function Ends<T>(f: nat -> Result<T, Error>, at: nat -> Readings, started: seq<nat>): seq<B.Event> {
    seq(|started|, i requires 0 <= i < |started| =>
      if f(started[i]).Ok? then B.Success else B.Failure(at(started[i]).failure))
  }

  lemma {:induction false} OutcomesAppend(a: seq<B.Event>, b: seq<B.Event>)
    ensures B.Outcomes(a + b) == B.Outcomes(a) + B.Outcomes(b)
  {
    if a == [] {
      assert a + b == b;
    } else {
      assert (a + b)[0] == a[0] && (a + b)[1..] == a[1..] + b;
      OutcomesAppend(a[1..], b);
    }
  }

  lemma {:induction false} OutcomeTold<T>(r: Result<T, Error>, t: Readings, lets: bool)
    ensures B.Outcomes(Told(r, t, lets)) == if !lets then [] else [if r.Ok? then B.Success else B.Failure(t.failure)]
  {
    var told := Told(r, t, lets);
    OutcomesAppend([told[0]], told[1..]);
    assert told == [told[0]] + told[1..];
    if lets && r.Err? {
      assert told[1..] == [told[1]] + ([told[2]] + [told[3]]);
      OutcomesAppend([told[1]], [told[2]] + [told[3]]);
      OutcomesAppend([told[2]], [told[3]]);
    }
  }

  lemma {:induction false} Regroup(h: seq<B.Event>, calls: seq<B.Event>, told: seq<B.Event>)
    ensures (h + calls) + told == h + (calls + told)
  {
  }

  lemma {:induction false} EndsNext<T>(f: nat -> Result<T, Error>, at: nat -> Readings, started: seq<nat>, k: nat)
    ensures Ends(f, at, started + [k]) == Ends(f, at, started) + [if f(k).Ok? then B.Success else B.Failure(at(k).failure)]
  {
  }

  /** One more attempt: what is told of it, and which ends are among the outcomes. */
  lemma {:induction false} PlayNext<T>(
      c: B.Config, s: B.State, f: nat -> Result<T, Error>, at: nat -> Readings, n: nat, p: Progress<T>, lets: bool)
    requires p == Play(c, s, f, at, n) && lets == Lets(c, p.breaker, at(n))
    ensures Play(c, s, f, at, n + 1).breaker == BreakerNext(c, p.breaker, f(n), at(n))
    ensures Play(c, s, f, at, n + 1).started == if lets then p.started + [n] else p.started
    ensures Calls(c, s, f, at, n + 1) == Calls(c, s, f, at, n) + Told(f(n), at(n), lets)
  {
  }

  lemma {:induction false} CallsReachPlay<T>(
      c: B.Config, h: seq<B.Event>, s: B.State, f: nat -> Result<T, Error>, at: nat -> Readings, n: nat)
    requires s == B.After(c, h)
    ensures Play(c, s, f, at, n).breaker == B.After(c, h + Calls(c, s, f, at, n))
  {
    if n == 0 {
      assert h + [] == h;
    } else {
      var k, p, calls := n - 1, Play(c, s, f, at, n - 1), Calls(c, s, f, at, n - 1);
      var lets := Lets(c, p.breaker, at(k));
      CallsReachPlay(c, h, s, f, at, k);
      PlayNext(c, s, f, at, k, p, lets);
      AttemptIsHeard(c, h + calls, f(k), at(k), p.breaker, lets);
      Regroup(h, calls, Told(f(k), at(k), lets));
    }
  }

  lemma {:induction false} OutcomesOfCalls<T>(c: B.Config, s: B.State, f: nat -> Result<T, Error>, at: nat -> Readings, n: nat)
    ensures B.Outcomes(Calls(c, s, f, at, n)) == Ends(f, at, Play(c, s, f, at, n).started)
  {
    if n > 0 {
      var k, p, calls := n - 1, Play(c, s, f, at, n - 1), Calls(c, s, f, at, n - 1);
      var lets := Lets(c, p.breaker, at(k));
      OutcomesOfCalls(c, s, f, at, k);
      PlayNext(c, s, f, at, k, p, lets);
      OutcomesAppend(calls, Told(f(k), at(k), lets));
      OutcomeTold(f(k), at(k), lets);
      EndsNext(f, at, p.started, k);
    }
  }

  /**
   Whatever history the breaker had, a retry leaves it as that history and the calls of the attempts
   do, and of outcomes these calls report exactly those of the futures that were run, in order.
   */
  lemma {:induction false} BreakerHearsRuns<T>(
      c: B.Config, h: seq<B.Event>, s: B.State, f: nat -> Result<T, Error>, at: nat -> Readings, n: nat)
    requires s == B.After(c, h)
    ensures Play(c, s, f, at, n).breaker == B.After(c, h + Calls(c, s, f, at, n))
    ensures B.Outcomes(Calls(c, s, f, at, n)) == Ends(f, at, Play(c, s, f, at, n).started)
  {
    CallsReachPlay(c, h, s, f, at, n);
    OutcomesOfCalls(c, s, f, at, n);
  }

  /** The attempts 0 to n - 1 were all run. */
  ghost predicate AllRun(started: seq<nat>, n: nat) {
    |started| == n && forall i :: 0 <= i < n ==> started[i] == i
  }

  lemma {:induction false} FailuresCounted<T>(c: B.Config, f: nat -> Result<T, Error>, at: nat -> Readings, n: nat)
    requires n < B.AtLeastOne(c.failureThreshold) && forall k :: 0 <= k < n ==> f(k).Err?
    ensures
      var p := Play(c, B.FRESH, f, at, n);
      p.breaker.status == B.Closed && p.breaker.failures == n && AllRun(p.started, n)
  {
    if n > 0 {
      FailuresCounted(c, f, at, n - 1);
    }
  }

  /** Open, unless the time to stay open was over when the breaker was asked after the last failure. */
  ghost predicate Tripped(breaker: B.State, last: Readings, openSecs: nat) {
    var over := last.failure + openSecs * 1_000_000_000;
    breaker.status == B.Open <==> last.after < over && openSecs > 0
  }

  /** An attempt at `start` is let through iff that time is over by then. */
  ghost predicate LetsAgain(lets: bool, last: Readings, openSecs: nat, start: nat) {
    var over := last.failure + openSecs * 1_000_000_000;
    lets <==> openSecs == 0 || last.after >= over || start >= over
  }

  lemma {:induction false} LastFailureTrips<T>(c: B.Config, s: B.State, r: Result<T, Error>, t: Readings, next: Readings, s': B.State)
    requires s.status == B.Closed && s.failures + 1 == B.AtLeastOne(c.failureThreshold) && r.Err?
    requires s' == BreakerNext(c, s, r, t)
    ensures Tripped(s', t, c.openDurationSecs) && LetsAgain(Lets(c, s', next), t, c.openDurationSecs, next.start)
    ensures Lets(c, s, t)
  {
    B.WholeSeconds(t.failure, t.after, c.openDurationSecs);
    B.WholeSeconds(t.failure, next.start, c.openDurationSecs);
  }

  /**
   On a new breaker max(1, failure_threshold) failing attempts are all run and trip it: from then on
   an attempt is let through if and only if open_duration_secs have passed since the last failure,
   when it starts or already when that failure was recorded.
   */
  lemma {:induction false} FailingAttemptsTrip<T>(
      c: B.Config, f: nat -> Result<T, Error>, at: nat -> Readings, n: nat, next: Readings, p: Progress<T>)
    requires n == (if c.failureThreshold == 0 then 1 else c.failureThreshold)
    requires (forall k :: 0 <= k < n ==> f(k).Err?) && p == Play(c, B.FRESH, f, at, n)
    ensures AllRun(p.started, n)
    ensures Tripped(p.breaker, at(n - 1), c.openDurationSecs)
    ensures LetsAgain(Lets(c, p.breaker, next), at(n - 1), c.openDurationSecs, next.start)
  {
    var k, before := n - 1, Play(c, B.FRESH, f, at, n - 1);
    FailuresCounted(c, f, at, k);
    PlayNext(c, B.FRESH, f, at, k, before, Lets(c, before.breaker, at(k)));
    LastFailureTrips(c, before.breaker, f(k), at(k), next, p.breaker);
  }
}
