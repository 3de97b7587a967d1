/**
 The in-memory rate limiter: a token bucket per key. Time is in seconds and, like the tokens, a
 real number; every clock reading is an input.
 */
module TokenBucket {
  import opened Wrappers

  /** The tokens of a bucket at its last refill. */
  datatype Level = Level(tokens: real, at: real)

  /** A bucket never changes its size or its rate. */
  datatype Limits = Limits(burst: nat, rate: nat)

  datatype Verdict = Verdict(allowed: bool, remaining: nat, retryAfterMs: Option<nat>)

  function Min(a: real, b: real): real {
    if a <= b then a else b
  }

  /** A conversion to u64: towards zero, and at most the largest value. */
  function ToU64(x: real): (n: nat)
    requires x >= 0.0
    ensures n as real <= x
    ensures x < U64_MAX as real ==> x < n as real + 1.0
  {
    if x.Floor <= U64_MAX then x.Floor else U64_MAX
  }

  /** What `rate` tokens a second come to in a time: the product, as a sum. */
  ghost function Gain(rate: nat, time: real): real {
    if rate == 0 then 0.0 else time + Gain(rate - 1, time)
  }

  lemma {:induction false} GainIsProduct(rate: nat, time: real)
    ensures Gain(rate, time) == time * rate as real
  {
    if rate > 0 {
      GainIsProduct(rate - 1, time);
      OneMore(time, (rate - 1) as real);
      assert rate as real == (rate - 1) as real + 1.0;
    }
  }

  lemma {:induction false} OneMore(x: real, r: real)
    ensures x * (r + 1.0) == x * r + x
  {
  }

  lemma {:induction false} GainGrows(rate: nat, time: real)
    requires time >= 0.0
    ensures Gain(rate, time) >= 0.0
  {
    if rate > 0 {
      GainGrows(rate - 1, time);
    }
  }

  lemma {:induction false} GainAdds(rate: nat, a: real, b: real)
    ensures Gain(rate, a) + Gain(rate, b) == Gain(rate, a + b)
  {
    if rate > 0 {
      GainAdds(rate - 1, a, b);
    }
  }

  ghost function Refilled(c: Limits, b: Level, now: real): real {
    Min(b.tokens + Gain(c.rate, now - b.at), c.burst as real)
  }

  lemma {:induction false} WaitPositive(missing: real, rate: real)
    requires missing > 0.0 && rate > 0.0
    ensures missing / rate > 0.0
  {
    var q := missing / rate;
    assert q * rate == missing;
    if q <= 0.0 {
      NonNegative(0.0 - q, rate);
    }
  }

  /** How long until there is a whole token again, in milliseconds rounded down. */
  function RetryAfter(c: Limits, tokens: real): nat
    requires 0.0 <= tokens < 1.0
  {
    // a division by zero is infinite, and its conversion the largest value
    if c.rate == 0 then U64_MAX
    else
      WaitPositive(1.0 - tokens, c.rate as real);
      ToU64((1.0 - tokens) / c.rate as real * 1000.0)
  }

  ghost predicate LevelOk(c: Limits, b: Level) {
    0.0 <= b.tokens <= c.burst as real
  }

  function Verdicts(c: Limits, tokens: real): Verdict
    requires 0.0 <= tokens
  {
    if tokens >= 1.0 then Verdict(true, ToU64(tokens - 1.0), None)
    else Verdict(false, 0, Some(RetryAfter(c, tokens)))
  }

  ghost function After(c: Limits, b: Level, now: real): Level {
    var tokens := Refilled(c, b, now);
    Level(if tokens >= 1.0 then tokens - 1.0 else tokens, now)
  }

  lemma {:induction false} RefilledOk(c: Limits, b: Level, now: real)
    requires LevelOk(c, b) && b.at <= now
    ensures 0.0 <= Refilled(c, b, now) <= c.burst as real && b.tokens <= Refilled(c, b, now)
    ensures LevelOk(c, After(c, b, now))
  {
    GainGrows(c.rate, now - b.at);
  }

  lemma {:induction false} NonNegative(a: real, b: real)
    requires a >= 0.0 && b >= 0.0
    ensures a * b >= 0.0
  {
  }

  class Bucket {
    var tokens: real
    var lastRefill: real
    const limits: Limits

    ghost predicate Valid()
      reads this
    {
      LevelOk(limits, Level(tokens, lastRefill))
    }

    ghost function Value(): Level
      reads this
    {
      Level(tokens, lastRefill)
    }

    constructor (limits: Limits, now: real)
      ensures Valid() && Value() == Level(limits.burst as real, now) && this.limits == limits
    {
      this.limits := limits;
      tokens, lastRefill := limits.burst as real, now;
    }

    method TryConsume(now: real) returns (r: Verdict)
      requires Valid() && lastRefill <= now
      modifies this
      ensures Valid() && Value() == After(limits, old(Value()), now)
      ensures 0.0 <= Refilled(limits, old(Value()), now)
      ensures r == Verdicts(limits, Refilled(limits, old(Value()), now))
      ensures r.allowed <==> Refilled(limits, old(Value()), now) >= 1.0
      ensures r.allowed <==> r.retryAfterMs.None?
      ensures !r.allowed ==> r.remaining == 0 && tokens < 1.0
    {
      RefilledOk(limits, Value(), now);
      var elapsed := now - lastRefill;
      var gain := elapsed * limits.rate as real;
      assert gain == Gain(limits.rate, elapsed) by {
        GainIsProduct(limits.rate, elapsed);
      }
      tokens := Min(tokens + gain, limits.burst as real);
      lastRefill := now;
      assert tokens == Refilled(limits, old(Value()), now);
      if tokens >= 1.0 {
        tokens := tokens - 1.0;
        r := Verdict(true, ToU64(tokens), None);
      } else {
        r := Verdict(false, 0, Some(RetryAfter(limits, tokens)));
      }
    }
  }

  // ----- the limiter -----

  type Levels = map<string, Level>

  /** The bucket a check of the key works on: a new one is full. */
  function LevelOf(c: Limits, levels: Levels, key: string, now: real): Level {
    if key in levels then levels[key] else Level(c.burst as real, now)
  }

  class MemoryRateLimiter {
    var buckets: map<string, Bucket>
    const limits: Limits

    ghost predicate Valid()
      reads this, buckets.Values
    {
      && (forall k :: k in buckets ==> buckets[k].limits == limits && buckets[k].Valid())
      && (forall j, k :: j in buckets && k in buckets && j != k ==> buckets[j] != buckets[k])
    }

    ghost function Contents(): Levels
      reads this, buckets.Values
    {
      map k | k in buckets :: buckets[k].Value()
    }

    constructor (limits: Limits)
      ensures Valid() && Contents() == map[] && this.limits == limits
    {
      this.limits := limits;
      buckets := map[];
    }

    method Check(key: string, now: real) returns (r: Verdict)
      requires Valid() && forall k :: k in buckets ==> buckets[k].lastRefill <= now
      modifies this, buckets.Values
      ensures Valid()
      ensures Contents() == old(Contents())[key := After(limits, LevelOf(limits, old(Contents()), key, now), now)]
      ensures 0.0 <= Refilled(limits, LevelOf(limits, old(Contents()), key, now), now)
      ensures r == Verdicts(limits, Refilled(limits, LevelOf(limits, old(Contents()), key, now), now))
      ensures r.allowed <==> Refilled(limits, LevelOf(limits, old(Contents()), key, now), now) >= 1.0
    {
      if key !in buckets {
        var bucket := new Bucket(limits, now);
        buckets := buckets[key := bucket];
      }
      r := buckets[key].TryConsume(now);
    }

    method Reset(key: string)
      requires Valid()
      modifies this
      ensures Valid() && Contents() == old(Contents()) - {key}
    {
      buckets := buckets - {key};
    }
  }

  // ----- a run of checks on one bucket -----

  ghost predicate Ordered(b: Level, times: seq<real>) {
    && (times != [] ==> b.at <= times[0])
    && forall i :: 0 < i < |times| ==> times[i - 1] <= times[i]
  }

  ghost function Run(c: Limits, b: Level, times: seq<real>): Level
    decreases |times|
  {
    if times == [] then b else Run(c, After(c, b, times[0]), times[1..])
  }

  ghost function Allowed(c: Limits, b: Level, times: seq<real>): nat
    decreases |times|
  {
    if times == [] then 0
    else (if Refilled(c, b, times[0]) >= 1.0 then 1 else 0) + Allowed(c, After(c, b, times[0]), times[1..])
  }

  /** The checks counted are those whose verdict says that they are allowed, and only a refused one is told when to retry. */
  lemma {:induction false} AllowedIsVerdict(c: Limits, b: Level, now: real, v: Verdict)
    requires LevelOk(c, b) && b.at <= now && 0.0 <= Refilled(c, b, now) && v == Verdicts(c, Refilled(c, b, now))
    ensures Allowed(c, b, [now]) == if v.allowed then 1 else 0
    ensures v.allowed ==> v.retryAfterMs.None? && After(c, b, now).tokens == Refilled(c, b, now) - 1.0
    ensures !v.allowed ==> v.retryAfterMs.Some? && v.remaining == 0 && After(c, b, now).tokens == Refilled(c, b, now)
  {
    assert [now][1..] == [];
    assert Allowed(c, After(c, b, now), []) == 0;
  }

  lemma {:induction false} RunOk(c: Limits, b: Level, times: seq<real>)
    requires LevelOk(c, b) && Ordered(b, times)
    ensures LevelOk(c, Run(c, b, times))
    ensures times != [] ==> Run(c, b, times).at == times[|times| - 1]
    ensures times == [] ==> Run(c, b, times) == b
    decreases |times|
  {
    if times != [] {
      RefilledOk(c, b, times[0]);
      RunOk(c, After(c, b, times[0]), times[1..]);
    }
  }

  lemma {:induction false} OneCheckAccounted(c: Limits, b: Level, t: real, spent: nat)
    requires LevelOk(c, b) && b.at <= t && spent == if Refilled(c, b, t) >= 1.0 then 1 else 0
    ensures LevelOk(c, After(c, b, t)) && After(c, b, t).at == t
    ensures spent as real + After(c, b, t).tokens <= b.tokens + Gain(c.rate, t - b.at)
    ensures spent as real + After(c, b, t).tokens <= c.burst as real
  {
    RefilledOk(c, b, t);
  }

  /** What the bucket gains from one check to the next, summed over the run. */
  ghost function Supply(c: Limits, start: real, times: seq<real>): real
    decreases |times|
  {
    if times == [] then 0.0 else Gain(c.rate, times[0] - start) + Supply(c, times[0], times[1..])
  }

  lemma {:induction false} SupplyTelescopes(c: Limits, start: real, times: seq<real>)
    requires times != []
    ensures Supply(c, start, times) == Gain(c.rate, times[|times| - 1] - start)
    decreases |times|
  {
    var rest := times[1..];
    if rest == [] {
      assert Supply(c, times[0], rest) == 0.0;
    } else {
      SupplyTelescopes(c, times[0], rest);
      GainAdds(c.rate, times[0] - start, times[|times| - 1] - times[0]);
    }
  }

  /** Tokens are never made up: what was allowed and what is left came from the first level and the supply since. */
  lemma {:induction false} TokensAccounted(c: Limits, b: Level, times: seq<real>)
    requires LevelOk(c, b) && Ordered(b, times)
    ensures Allowed(c, b, times) as real + Run(c, b, times).tokens <= b.tokens + Supply(c, b.at, times)
    ensures LevelOk(c, Run(c, b, times))
    decreases |times|
  {
    if times != [] {
      var first, rest := times[0], times[1..];
      var b1 := After(c, b, first);
      var spent := if Refilled(c, b, first) >= 1.0 then 1 else 0;
      OneCheckAccounted(c, b, first, spent);
      TokensAccounted(c, b1, rest);
      Combine(spent, Allowed(c, b1, rest));
    }
  }

  lemma {:induction false} Combine(a: nat, b: nat)
    ensures (a + b) as real == a as real + b as real
  {
  }

  lemma {:induction false} RunSplits(c: Limits, b: Level, xs: seq<real>, ys: seq<real>)
    ensures Run(c, b, xs + ys) == Run(c, Run(c, b, xs), ys)
    ensures Allowed(c, b, xs + ys) == Allowed(c, b, xs) + Allowed(c, Run(c, b, xs), ys)
    decreases |xs|
  {
    if xs == [] {
      assert xs + ys == ys;
    } else {
      assert (xs + ys)[0] == xs[0] && (xs + ys)[1..] == xs[1..] + ys;
      RunSplits(c, After(c, b, xs[0]), xs[1..], ys);
    }
  }

  lemma {:induction false} OrderedPrefix(b: Level, xs: seq<real>, ys: seq<real>)
    requires Ordered(b, xs + ys)
    ensures Ordered(b, xs)
    ensures ys != [] ==> (xs == [] ==> b.at <= ys[0]) && (xs != [] ==> xs[|xs| - 1] <= ys[0])
    ensures forall i :: 0 < i < |ys| ==> ys[i - 1] <= ys[i]
  {
    var all := xs + ys;
    assert forall i :: 0 <= i < |xs| ==> all[i] == xs[i];
    forall i | 0 < i < |ys| ensures ys[i - 1] <= ys[i] {
      assert ys[i] == all[|xs| + i] && ys[i - 1] == all[|xs| + i - 1];
    }
    if ys != [] {
      assert all[|xs|] == ys[0];
    }
  }

  lemma {:induction false} OrderedSplits(c: Limits, b: Level, xs: seq<real>, ys: seq<real>)
    requires LevelOk(c, b) && Ordered(b, xs + ys)
    ensures Ordered(b, xs) && Ordered(Run(c, b, xs), ys)
  {
    OrderedPrefix(b, xs, ys);
    RunOk(c, b, xs);
  }

  lemma {:induction false} WindowFrom(c: Limits, b: Level, window: seq<real>)
    requires LevelOk(c, b) && Ordered(b, window) && window != []
    ensures Allowed(c, b, window) as real <= c.burst as real + Supply(c, window[0], window[1..])
  {
    var b1 := After(c, b, window[0]);
    var spent := if Refilled(c, b, window[0]) >= 1.0 then 1 else 0;
    OneCheckAccounted(c, b, window[0], spent);
    TokensAccounted(c, b1, window[1..]);
    Combine(spent, Allowed(c, b1, window[1..]));
  }

  lemma {:induction false} WindowSupply(c: Limits, window: seq<real>)
    requires window != []
    ensures Supply(c, window[0], window[1..]) == (window[|window| - 1] - window[0]) * c.rate as real
  {
    GainIsProduct(c.rate, window[|window| - 1] - window[0]);
    if |window| > 1 {
      SupplyTelescopes(c, window[0], window[1..]);
    }
  }

  /**
   In every run of checks on a key, from any check to any later one the requests allowed are at
   most the burst and what the rate gives in the time between them.
   */
  lemma {:induction false} WindowBound(c: Limits, b: Level, before: seq<real>, window: seq<real>) returns (inWindow: nat)
    requires LevelOk(c, b) && Ordered(b, before + window) && window != []
    ensures Allowed(c, b, before + window) == Allowed(c, b, before) + inWindow
    ensures inWindow as real <= c.burst as real + (window[|window| - 1] - window[0]) * c.rate as real
  {
    OrderedSplits(c, b, before, window);
    RunOk(c, b, before);
    RunSplits(c, b, before, window);
    WindowFrom(c, Run(c, b, before), window);
    WindowSupply(c, window);
    inWindow := Allowed(c, Run(c, b, before), window);
  }

  // ----- what `remaining` promises -----

  function Repeat(t: real, n: nat): (ts: seq<real>)
    ensures |ts| == n
  {
    if n == 0 then [] else [t] + Repeat(t, n - 1)
  }

  lemma {:induction false} FullTokensAllowed(c: Limits, b: Level, t: real, n: nat)
    requires LevelOk(c, b) && b.at == t
    ensures Allowed(c, b, Repeat(t, n)) as real <= b.tokens
    ensures Allowed(c, b, Repeat(t, n)) == n || b.tokens < Allowed(c, b, Repeat(t, n)) as real + 1.0
    ensures Allowed(c, b, Repeat(t, n)) <= n
    decreases n
  {
    if n > 0 {
      GainIsProduct(c.rate, 0.0);
      assert Refilled(c, b, t) == b.tokens;
      var times := Repeat(t, n);
      assert times[0] == t && times[1..] == Repeat(t, n - 1);
      RefilledOk(c, b, t);
      FullTokensAllowed(c, After(c, b, t), t, n - 1);
    }
  }

  /**
   `remaining` is exact: after an allowed check that says so, of n more checks at the same moment
   exactly min(n, remaining) are allowed.
   */
  lemma {:induction false} RemainingIsExact(c: Limits, b: Level, t: real, n: nat)
    requires LevelOk(c, b) && b.at <= t && Refilled(c, b, t) >= 1.0 && c.burst <= U64_MAX
    ensures
      var remaining := Verdicts(c, Refilled(c, b, t)).remaining;
      Allowed(c, After(c, b, t), Repeat(t, n)) == if n <= remaining then n else remaining
  {
    RefilledOk(c, b, t);
    FullTokensAllowed(c, After(c, b, t), t, n);
  }

  // ----- denied checks leave no trace -----

  /** A check that is denied changes nothing that a later check can see. */
  lemma {:induction false} DeniedUnseen(c: Limits, b: Level, t: real, later: real)
    requires LevelOk(c, b) && b.at <= t <= later && Refilled(c, b, t) < 1.0
    ensures Refilled(c, After(c, b, t), later) == Refilled(c, b, later)
    ensures After(c, After(c, b, t), later) == After(c, b, later)
  {
    GainAdds(c.rate, t - b.at, later - t);
    GainGrows(c.rate, t - b.at);
    GainGrows(c.rate, later - t);
  }

  /** Denied checks anywhere in a run change neither the later states nor any later answer. */
  lemma {:induction false} DeniedInserted(c: Limits, b: Level, xs: seq<real>, t: real, ys: seq<real>)
    requires LevelOk(c, b) && Ordered(b, xs + [t] + ys) && ys != []
    requires Refilled(c, Run(c, b, xs), t) < 1.0
    ensures Run(c, b, xs + [t] + ys) == Run(c, b, xs + ys)
    ensures Allowed(c, b, xs + [t] + ys) == Allowed(c, b, xs + ys)
    ensures forall n :: 0 < n <= |ys| ==> Run(c, b, xs + [t] + ys[..n]) == Run(c, b, xs + ys[..n])
  {
    forall n | 0 < n <= |ys|
      ensures Run(c, b, xs + [t] + ys[..n]) == Run(c, b, xs + ys[..n])
              && Allowed(c, b, xs + [t] + ys[..n]) == Allowed(c, b, xs + ys[..n])
    {
      var all := xs + [t] + ys;
      assert forall i :: 0 <= i < |xs| ==> all[i] == xs[i];
      assert all[|xs|] == t && all[|xs| + 1] == ys[0];
      assert |xs| > 0 ==> all[|xs| - 1] <= all[|xs|];
      assert all[|xs|] <= all[|xs| + 1];
      DeniedInsertedFirst(c, b, xs, t, ys[..n]);
    }
    assert ys[..|ys|] == ys;
  }

  lemma {:induction false} DeniedInsertedFirst(c: Limits, b: Level, xs: seq<real>, t: real, ys: seq<real>)
    requires LevelOk(c, b) && Ordered(b, xs) && ys != [] && t <= ys[0]
    requires (xs == [] ==> b.at <= t) && (xs != [] ==> xs[|xs| - 1] <= t)
    requires Refilled(c, Run(c, b, xs), t) < 1.0
    ensures Run(c, b, xs + [t] + ys) == Run(c, b, xs + ys)
    ensures Allowed(c, b, xs + [t] + ys) == Allowed(c, b, xs + ys)
  {
    RunOk(c, b, xs);
    var b1 := Run(c, b, xs);
    assert xs + [t] + ys == xs + ([t] + ys);
    RunSplits(c, b, xs, [t] + ys);
    RunSplits(c, b, xs, ys);
    assert ([t] + ys)[0] == t && ([t] + ys)[1..] == ys;
    DeniedUnseen(c, b1, t, ys[0]);
  }

  // ----- how long to wait -----

  /** The level at `later`, seen from a denied check at `t`. */
  lemma {:induction false} LevelAfterDenied(c: Limits, b: Level, t: real, later: real, tokens: real)
    requires LevelOk(c, b) && b.at <= t <= later && tokens == Refilled(c, b, t) && tokens < 1.0
    ensures Refilled(c, b, later) == Min(tokens + Gain(c.rate, later - t), c.burst as real)
    ensures 0.0 <= tokens
  {
    RefilledOk(c, b, t);
    DeniedUnseen(c, b, t, later);
  }

  lemma {:induction false} EnoughTime(tokens: real, dt: real, rate: real)
    requires tokens < 1.0 && rate >= 1.0
    ensures tokens + dt * rate >= 1.0 <==> dt >= (1.0 - tokens) / rate
  {
    var wait := (1.0 - tokens) / rate;
    assert wait * rate == 1.0 - tokens;
    Compare(dt, wait, rate);
  }

  lemma {:induction false} AllowedNext(c: Limits, b: Level, t: real, later: real)
    requires LevelOk(c, b) && b.at <= t <= later && Refilled(c, b, t) < 1.0
    ensures Refilled(c, b, later) >= 1.0 <==>
            c.burst >= 1 && c.rate >= 1 && later - t >= (1.0 - Refilled(c, b, t)) / c.rate as real
  {
    LevelAfterDenied(c, b, t, later, Refilled(c, b, t));
    if c.rate >= 1 {
      EnoughTime(Refilled(c, b, t), later - t, c.rate as real);
      GainIsProduct(c.rate, later - t);
    }
  }

  /** A whole run of denied checks changes nothing that a later check can see. */
  lemma {:induction false} DeniedRunUnseen(c: Limits, b: Level, denied: seq<real>, later: real)
    requires LevelOk(c, b) && Ordered(b, denied) && Allowed(c, b, denied) == 0
    requires b.at <= later && (denied != [] ==> denied[|denied| - 1] <= later)
    ensures Refilled(c, Run(c, b, denied), later) == Refilled(c, b, later)
    decreases |denied|
  {
    if denied != [] {
      var t, rest := denied[0], denied[1..];
      OrderedLast(b, denied);
      RefilledOk(c, b, t);
      DeniedUnseen(c, b, t, later);
      DeniedRunUnseen(c, After(c, b, t), rest, later);
    }
  }

  lemma {:induction false} OrderedLast(b: Level, times: seq<real>)
    requires Ordered(b, times) && times != []
    ensures times[0] <= times[|times| - 1]
    decreases |times|
  {
    if |times| > 1 {
      assert times[1..][0] == times[1];
      OrderedLast(Level(0.0, times[0]), times[1..]);
    }
  }

  /**
   After a denied check, and however many more denied ones, a check is allowed exactly when the
   bucket can hold a token, it is refilled at all, and (1 - tokens) / rate has gone by since the first.
   */
  lemma {:induction false} AllowedAfterWait(c: Limits, b: Level, t: real, denied: seq<real>, later: real)
    requires LevelOk(c, b) && b.at <= t <= later && Refilled(c, b, t) < 1.0
    requires Ordered(After(c, b, t), denied) && Allowed(c, After(c, b, t), denied) == 0
    requires denied != [] ==> denied[|denied| - 1] <= later
    ensures Refilled(c, Run(c, After(c, b, t), denied), later) >= 1.0 <==>
            c.burst >= 1 && c.rate >= 1 && later - t >= (1.0 - Refilled(c, b, t)) / c.rate as real
  {
    RefilledOk(c, b, t);
    DeniedRunUnseen(c, After(c, b, t), denied, later);
    DeniedUnseen(c, b, t, later);
    AllowedNext(c, b, t, later);
  }

  lemma {:induction false} Compare(a: real, b: real, r: real)
    requires r >= 1.0
    ensures a * r >= b * r <==> a >= b
  {
    if a >= b {
      assert (a - b) * r >= 0.0;
    } else {
      assert (b - a) * r > 0.0;
    }
  }

  /**
   `retry_after_ms` rounds down: waiting that long suffices exactly when the wait is a whole number
   of milliseconds; one millisecond more is always enough.
   */
  lemma {:induction false} RetryAfterSuffices(c: Limits, b: Level, t: real, ms: nat)
    requires LevelOk(c, b) && b.at <= t && Refilled(c, b, t) < 1.0 && c.burst >= 1 && c.rate >= 1
    requires 0.0 <= Refilled(c, b, t) && ms == RetryAfter(c, Refilled(c, b, t))
    ensures Refilled(c, b, t + ms as real / 1000.0) >= 1.0 <==>
            ms as real == (1.0 - Refilled(c, b, t)) / c.rate as real * 1000.0
    ensures Refilled(c, b, t + (ms + 1) as real / 1000.0) >= 1.0
  {
    var tokens, r := Refilled(c, b, t), c.rate as real;
    var wait := (1.0 - tokens) / r;
    AtMostOne(1.0 - tokens, r);
    AllowedNext(c, b, t, t + ms as real / 1000.0);
    AllowedNext(c, b, t, t + (ms + 1) as real / 1000.0);
  }

  lemma {:induction false} AtMostOne(x: real, r: real)
    requires 0.0 <= x <= 1.0 && r >= 1.0
    ensures 0.0 <= x / r <= 1.0
  {
    var q := x / r;
    assert q * r == x;
    Compare(1.0, q, r);
    Compare(q, 0.0, r);
  }

  /** With three tokens a second an emptied bucket asks for 333 ms, and a check then is denied again. */
  lemma {:induction false} RetryTooEarly(t: real)
    ensures RetryAfter(Limits(1, 3), 0.0) == 333
    ensures Refilled(Limits(1, 3), Level(0.0, t), t) == 0.0
    ensures Refilled(Limits(1, 3), Level(0.0, t), t + 333.0 / 1000.0) < 1.0
  {
    GainIsProduct(3, 0.0);
    GainIsProduct(3, 333.0 / 1000.0);
    var wait := 1.0 / 3.0 * 1000.0;
    assert 333.0 <= wait < 334.0;
    assert wait.Floor == 333;
  }

  // ----- many keys -----

  datatype Op = Check(key: string, at: real) | Reset(key: string)

  ghost function Apply(c: Limits, levels: Levels, op: Op): Levels {
    match op
    case Check(key, at) => levels[key := After(c, LevelOf(c, levels, key, at), at)]
    case Reset(key) => levels - {key}
  }

  ghost function ApplyAll(c: Limits, levels: Levels, ops: seq<Op>): Levels
    decreases |ops|
  {
    if ops == [] then levels else ApplyAll(c, Apply(c, levels, ops[0]), ops[1..])
  }

  /** The times at which the key is checked. */
  function TimesOf(ops: seq<Op>, key: string): seq<real> {
    if ops == [] then []
    else if ops[0].Check? && ops[0].key == key then [ops[0].at] + TimesOf(ops[1..], key)
    else TimesOf(ops[1..], key)
  }

  ghost predicate ResetFree(ops: seq<Op>, key: string) {
    forall i :: 0 <= i < |ops| ==> ops[i] != Reset(key)
  }

  /** How many checks of the key are allowed. */
  ghost function AllowedOf(c: Limits, levels: Levels, ops: seq<Op>, key: string): nat
    decreases |ops|
  {
    if ops == [] then 0
    else
      (if ops[0].Check? && ops[0].key == key && Refilled(c, LevelOf(c, levels, key, ops[0].at), ops[0].at) >= 1.0
       then 1 else 0)
      + AllowedOf(c, Apply(c, levels, ops[0]), ops[1..], key)
  }

  lemma {:induction false} KnownKey(c: Limits, levels: Levels, ops: seq<Op>, key: string)
    requires ResetFree(ops, key) && key in levels
    ensures key in ApplyAll(c, levels, ops)
    ensures ApplyAll(c, levels, ops)[key] == Run(c, levels[key], TimesOf(ops, key))
    ensures AllowedOf(c, levels, ops, key) == Allowed(c, levels[key], TimesOf(ops, key))
    decreases |ops|
  {
    if ops != [] {
      assert ops[0] != Reset(key);
      KnownKey(c, Apply(c, levels, ops[0]), ops[1..], key);
      if ops[0].Check? && ops[0].key == key {
        assert TimesOf(ops, key)[1..] == TimesOf(ops[1..], key);
      }
    }
  }

  /**
   Without resets of the key, whatever happens to other keys, its bucket goes through the run of its
   own checks, from where it was or, if it is new, from a full bucket at its first check; a key that
   is not checked keeps what it had.
   */
  lemma {:induction false} KeysIndependent(c: Limits, levels: Levels, ops: seq<Op>, key: string, times: seq<real>)
    requires ResetFree(ops, key) && times == TimesOf(ops, key)
    ensures times == [] ==>
              && (key in ApplyAll(c, levels, ops) <==> key in levels)
              && (key in levels ==> ApplyAll(c, levels, ops)[key] == levels[key])
              && AllowedOf(c, levels, ops, key) == 0
    ensures times != [] ==>
              && key in ApplyAll(c, levels, ops)
              && ApplyAll(c, levels, ops)[key] == Run(c, LevelOf(c, levels, key, times[0]), times)
              && AllowedOf(c, levels, ops, key) == Allowed(c, LevelOf(c, levels, key, times[0]), times)
    decreases |ops|
  {
    if ops != [] {
      assert ops[0] != Reset(key);
      var levels1 := Apply(c, levels, ops[0]);
      if ops[0].Check? && ops[0].key == key {
        KnownKey(c, levels1, ops[1..], key);
        assert times[1..] == TimesOf(ops[1..], key);
      } else {
        KeysIndependent(c, levels1, ops[1..], key, times);
      }
    }
  }

  /** A monotone clock: each check is no earlier than the one before, the first no earlier than `start`. */
  ghost predicate Clocked(ops: seq<Op>, start: real) {
    ops == []
    || (if ops[0].Check? then start <= ops[0].at && Clocked(ops[1..], ops[0].at) else Clocked(ops[1..], start))
  }

  ghost function EndOf(ops: seq<Op>, start: real): real {
    if ops == [] then start else EndOf(ops[1..], if ops[0].Check? then ops[0].at else start)
  }

  ghost predicate LevelsBy(c: Limits, levels: Levels, now: real) {
    forall k :: k in levels ==> LevelOk(c, levels[k]) && levels[k].at <= now
  }

  lemma {:induction false} LevelsStayOk(c: Limits, levels: Levels, ops: seq<Op>, start: real)
    requires LevelsBy(c, levels, start) && Clocked(ops, start)
    ensures LevelsBy(c, ApplyAll(c, levels, ops), EndOf(ops, start))
    decreases |ops|
  {
    if ops != [] {
      if ops[0].Check? {
        var b := LevelOf(c, levels, ops[0].key, ops[0].at);
        RefilledOk(c, b, ops[0].at);
        LevelsStayOk(c, Apply(c, levels, ops[0]), ops[1..], ops[0].at);
      } else {
        LevelsStayOk(c, Apply(c, levels, ops[0]), ops[1..], start);
      }
    }
  }

  lemma {:induction false} OpsSplit(c: Limits, levels: Levels, a: seq<Op>, b: seq<Op>, key: string, start: real)
    ensures Clocked(a + b, start) <==> Clocked(a, start) && Clocked(b, EndOf(a, start))
    ensures ApplyAll(c, levels, a + b) == ApplyAll(c, ApplyAll(c, levels, a), b)
    ensures AllowedOf(c, levels, a + b, key) ==
            AllowedOf(c, levels, a, key) + AllowedOf(c, ApplyAll(c, levels, a), b, key)
    decreases |a|
  {
    if a == [] {
      assert a + b == b;
    } else {
      assert (a + b)[0] == a[0] && (a + b)[1..] == a[1..] + b;
      OpsSplit(c, Apply(c, levels, a[0]), a[1..], b, key, if a[0].Check? then a[0].at else start);
    }
  }

  lemma {:induction false} TimesOrdered(ops: seq<Op>, key: string, start: real)
    requires Clocked(ops, start)
    ensures Ordered(Level(0.0, start), TimesOf(ops, key))
    decreases |ops|
  {
    if ops != [] {
      if ops[0].Check? {
        TimesOrdered(ops[1..], key, ops[0].at);
      } else {
        TimesOrdered(ops[1..], key, start);
      }
    }
  }

  /**
   In every run of a fresh limiter, with any keys and any resets before: a stretch without a reset of
   the key allows it at most the burst and what the rate gives between its first and its last check.
   */
  lemma {:induction false} LimiterBound(
      c: Limits, before: seq<Op>, window: seq<Op>, key: string, start: real, times: seq<real>)
      returns (inWindow: nat)
    requires Clocked(before + window, start) && ResetFree(window, key)
    requires times == TimesOf(window, key) && times != []
    ensures AllowedOf(c, map[], before + window, key) == AllowedOf(c, map[], before, key) + inWindow
    ensures inWindow as real <= c.burst as real + (times[|times| - 1] - times[0]) * c.rate as real
  {
    OpsSplit(c, map[], before, window, key, start);
    LevelsStayOk(c, map[], before, start);
    var levels := ApplyAll(c, map[], before);
    TimesOrdered(window, key, EndOf(before, start));
    KeysIndependent(c, levels, window, key, times);
    var b := LevelOf(c, levels, key, times[0]);
    inWindow := Allowed(c, b, times);
    WindowFrom(c, b, times);
    WindowSupply(c, times);
  }
}
