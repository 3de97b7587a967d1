/**
 The Redis rate limiter: one counter per key and window of time, with an expiry. Redis is a map of
 counters; a call reads the clock once for its window (`asked`) and is served by Redis a little
 later (`served`). Times are in milliseconds of one clock.
 */
module FixedWindow {
  import opened Wrappers

  datatype Config = Config(enabled: bool, requestsPerSecond: nat, windowSecs: nat)

  /** The Redis key, which names the caller's key and the window. */
  datatype Slot = Slot(key: string, window: nat)

  datatype Counter = Counter(value: nat, expiresAt: Option<nat>)

  type Store = map<Slot, Counter>

  datatype Verdict = Verdict(allowed: bool, remaining: nat, retryAfterMs: Option<nat>)

  function Width(c: Config): (w: nat)
    ensures w >= 1
  {
    if c.windowSecs >= 1 then c.windowSecs else 1
  }

  function Limit(c: Config): nat {
    c.requestsPerSecond * Width(c)
  }

  function RateKey(c: Config, key: string, nowMs: nat): Slot {
    Slot(key, nowMs / 1000 / Width(c))
  }

  /** The value a counter shows: one that has expired counts as absent. */
  function Shown(store: Store, slot: Slot, now: nat): nat {
    if slot in store && (store[slot].expiresAt.None? || now < store[slot].expiresAt.value) then store[slot].value else 0
  }

  /** INCR keeps the expiry of a counter that is still there and starts an absent one without any. */
  function Incremented(store: Store, slot: Slot, now: nat): Store {
    if Shown(store, slot, now) > 0 then store[slot := store[slot].(value := store[slot].value + 1)]
    else store[slot := Counter(1, None)]
  }

  function WithExpiry(store: Store, slot: Slot, at: nat): Store {
    if slot in store then store[slot := store[slot].(expiresAt := Some(at))] else store
  }

  function AfterCheck(c: Config, store: Store, slot: Slot, served: nat, expireOk: bool): Store {
    var store' := Incremented(store, slot, served);
    if Shown(store, slot, served) == 0 && expireOk then WithExpiry(store', slot, served + (Width(c) + 1) * 1000) else store'
  }

  function VerdictOf(c: Config, count: nat): Verdict {
    if count <= Limit(c) then Verdict(true, Limit(c) - count, None) else Verdict(false, 0, Some(Width(c) * 1000))
  }

  class RedisRateLimiter {
    const config: Config
    var connected: bool
    var store: Store

    constructor (config: Config)
      ensures !connected && store == map[] && this.config == config
    {
      this.config := config;
      connected, store := false, map[];
    }

    /** `incrOk` and `expireOk` say whether Redis answers the two commands. */
    method Check(key: string, asked: nat, served: nat, incrOk: bool, expireOk: bool) returns (r: Result<Verdict, string>)
      modifies this`store
      ensures r.Ok? <==> config.enabled && connected && incrOk
      ensures r.Ok? ==>
                && r.value == VerdictOf(config, Shown(old(store), RateKey(config, key, asked), served) + 1)
                && store == AfterCheck(config, old(store), RateKey(config, key, asked), served, expireOk)
      ensures r.Ok? ==>
                var count := Shown(old(store), RateKey(config, key, asked), served) + 1;
                var width := if config.windowSecs == 0 then 1 else config.windowSecs;
                var limit := config.requestsPerSecond * width;
                && (r.value.allowed <==> count <= limit)
                && r.value.remaining == (if count <= limit then limit - count else 0)
                && r.value.retryAfterMs == if count <= limit then None else Some(width * 1000)
      ensures r.Err? ==> store == old(store)
    {
      if !config.enabled {
        return Err("redis rate limiter not enabled");
      }
      if !connected {
        return Err("redis not connected");
      }
      var slot := RateKey(config, key, asked);
      if !incrOk {
        return Err("redis INCR failed");
      }
      store := Incremented(store, slot, served);
      var count := store[slot].value;
      if count == 1 {
        var ttl := Width(config) + 1;
        if expireOk {
          store := WithExpiry(store, slot, served + ttl * 1000);
        }
      }
      var limit := config.requestsPerSecond * Width(config);
      if count <= limit {
        return Ok(Verdict(true, limit - count, None));
      } else {
        return Ok(Verdict(false, 0, Some(Width(config) * 1000)));
      }
    }

    /** Only the counter of the window the clock is in is deleted. */
    method Reset(key: string, asked: nat, delOk: bool) returns (r: Result<(), string>)
      modifies this`store
      ensures r.Ok? <==> config.enabled && connected && delOk
      ensures store == if r.Ok? then old(store) - {RateKey(config, key, asked)} else old(store)
    {
      if !config.enabled {
        return Err("redis rate limiter not enabled");
      }
      if !connected {
        return Err("redis not connected");
      }
      if !delOk {
        return Err("redis DEL failed");
      }
      store := store - {RateKey(config, key, asked)};
      return Ok(());
    }
  }

  // ----- runs of checks -----

  datatype Call = Call(key: string, asked: nat, served: nat, expireOk: bool)

  /** Served within a second of being asked. */
  ghost predicate Prompt(call: Call) {
    call.asked <= call.served < call.asked + 1000
  }

  ghost predicate AllPrompt(calls: seq<Call>) {
    forall i :: 0 <= i < |calls| ==> Prompt(calls[i])
  }

  ghost function SlotOf(c: Config, call: Call): Slot {
    RateKey(c, call.key, call.asked)
  }

  ghost function StoreAfter(c: Config, store: Store, call: Call): Store {
    AfterCheck(c, store, SlotOf(c, call), call.served, call.expireOk)
  }

  ghost predicate IsAllowed(c: Config, store: Store, call: Call) {
    VerdictOf(c, Shown(store, SlotOf(c, call), call.served) + 1).allowed
  }

  /** How many calls of the slot were made, and how many of them were allowed. */
  ghost function Made(c: Config, calls: seq<Call>, slot: Slot): nat {
    if calls == [] then 0 else (if SlotOf(c, calls[0]) == slot then 1 else 0) + Made(c, calls[1..], slot)
  }

  ghost function Admitted(c: Config, store: Store, calls: seq<Call>, slot: Slot): nat
    decreases |calls|
  {
    if calls == [] then 0
    else
      (if SlotOf(c, calls[0]) == slot && IsAllowed(c, store, calls[0]) then 1 else 0)
      + Admitted(c, StoreAfter(c, store, calls[0]), calls[1..], slot)
  }

  function Least(a: int, b: int): int {
    if a <= b then a else b
  }

  lemma {:induction false} WindowOf(ms: nat, width: nat, window: nat)
    requires width >= 1 && window == ms / 1000 / width
    ensures window * width * 1000 <= ms < (window + 1) * width * 1000
  {
    var secs := ms / 1000;
    assert secs == window * width + secs % width;
    assert secs < (window + 1) * width;
  }

  lemma {:induction false} LastSecond(window: nat, width: nat)
    ensures window * width * 1000 + (width + 1) * 1000 == (window + 1) * width * 1000 + 1000
  {
  }

  // ----- which calls are counted -----

  /** The expiry that the call which starts a counter gives it; none when its EXPIRE fails. */
  ghost function GivenExpiry(c: Config, call: Call): Option<nat> {
    if call.expireOk then Some(call.served + (Width(c) + 1) * 1000) else None
  }

  ghost predicate ServedBefore(c: Config, calls: seq<Call>, slot: Slot, expiry: Option<nat>) {
    calls == []
    || ((SlotOf(c, calls[0]) == slot && expiry.Some? ==> calls[0].served < expiry.value)
        && ServedBefore(c, calls[1..], slot, expiry))
  }

  /** Every later call of the slot is served before the expiry that its first call gave the counter. */
  ghost predicate InTime(c: Config, calls: seq<Call>, slot: Slot) {
    calls == []
    || (if SlotOf(c, calls[0]) == slot then ServedBefore(c, calls[1..], slot, GivenExpiry(c, calls[0]))
        else InTime(c, calls[1..], slot))
  }

  /** Each call of the slot finds in the counter just the calls of the slot before it, of which there were `n` at first. */
  ghost predicate CountedByRank(c: Config, store: Store, calls: seq<Call>, slot: Slot, n: nat)
    decreases |calls|
  {
    calls == []
    || ((SlotOf(c, calls[0]) == slot ==> Shown(store, slot, calls[0].served) == n)
        && CountedByRank(c, StoreAfter(c, store, calls[0]), calls[1..], slot,
                         if SlotOf(c, calls[0]) == slot then n + 1 else n))
  }

  lemma {:induction false} RunningCounter(
      c: Config, store: Store, calls: seq<Call>, slot: Slot, n: nat, expiry: Option<nat>)
    requires n > 0 && slot in store && store[slot] == Counter(n, expiry)
    ensures CountedByRank(c, store, calls, slot, n) <==> ServedBefore(c, calls, slot, expiry)
    decreases |calls|
  {
    if calls != [] {
      var call := calls[0];
      var store' := StoreAfter(c, store, call);
      if SlotOf(c, call) != slot {
        assert store'[slot] == store[slot];
        RunningCounter(c, store', calls[1..], slot, n, expiry);
      } else if expiry.None? || call.served < expiry.value {
        RunningCounter(c, store', calls[1..], slot, n + 1, expiry);
      }
    }
  }

  lemma {:induction false} FirstOfSlot(c: Config, store: Store, calls: seq<Call>, slot: Slot)
    requires slot !in store
    ensures CountedByRank(c, store, calls, slot, 0) <==> InTime(c, calls, slot)
    decreases |calls|
  {
    if calls != [] {
      var call := calls[0];
      var store' := StoreAfter(c, store, call);
      if SlotOf(c, call) == slot {
        assert store'[slot] == Counter(1, GivenExpiry(c, call));
        RunningCounter(c, store', calls[1..], slot, 1, GivenExpiry(c, call));
      } else {
        FirstOfSlot(c, store', calls[1..], slot);
      }
    }
  }

  /**
   From an empty store every call of a slot is counted by its rank if and only if each later one is
   served before the expiry that the first gave the counter (for ever, if its EXPIRE failed).
   */
  lemma {:induction false} CountedIffInTime(c: Config, calls: seq<Call>, slot: Slot)
    ensures CountedByRank(c, map[], calls, slot, 0) <==> InTime(c, calls, slot)
  {
    FirstOfSlot(c, map[], calls, slot);
  }

  lemma {:induction false} RankAdmits(c: Config, store: Store, calls: seq<Call>, slot: Slot, n: nat)
    requires CountedByRank(c, store, calls, slot, n)
    ensures Least(n, Limit(c)) + Admitted(c, store, calls, slot) == Least(n + Made(c, calls, slot), Limit(c))
    decreases |calls|
  {
    if calls != [] {
      var n' := if SlotOf(c, calls[0]) == slot then n + 1 else n;
      RankAdmits(c, StoreAfter(c, store, calls[0]), calls[1..], slot, n');
    }
  }

  /**
   From an empty store, whatever the other keys and windows do and whether or not EXPIRE succeeds:
   a window whose calls are served in time admits its first `Limit` calls of a key, neither more
   nor fewer.
   */
  lemma {:induction false} WindowAdmits(c: Config, calls: seq<Call>, slot: Slot)
    requires InTime(c, calls, slot)
    ensures Admitted(c, map[], calls, slot) == Least(Made(c, calls, slot), Limit(c))
  {
    CountedIffInTime(c, calls, slot);
    RankAdmits(c, map[], calls, slot, 0);
  }

  /** How many more calls of the slot the verdict of this call leaves. */
  ghost function Remaining(c: Config, store: Store, call: Call): nat {
    VerdictOf(c, Shown(store, SlotOf(c, call), call.served) + 1).remaining
  }

  /**
   The number a verdict reports is exact: whichever calls follow, as long as they are counted by rank,
   that many more calls of its window are admitted, or as many as are made.
   */
  lemma {:induction false} RemainingIsExact(c: Config, store: Store, calls: seq<Call>, slot: Slot, n: nat)
    requires CountedByRank(c, store, calls, slot, n) && calls != [] && SlotOf(c, calls[0]) == slot
    ensures
      var left, later := Remaining(c, store, calls[0]), calls[1..];
      Admitted(c, StoreAfter(c, store, calls[0]), later, slot) == Least(Made(c, later, slot), left)
  {
    RankAdmits(c, StoreAfter(c, store, calls[0]), calls[1..], slot, n + 1);
  }

  lemma {:induction false} NextMultiple(k: nat, span: nat)
    ensures (k + 1) * span == k * span + span
  {
  }

  /** Asked again after the reported delay, a refused call is in the next window; the delay is one window. */
  lemma {:induction false} RetryInNextWindow(c: Config, key: string, asked: nat, count: nat)
    ensures VerdictOf(c, count).retryAfterMs.Some? <==> !VerdictOf(c, count).allowed
    ensures !VerdictOf(c, count).allowed ==>
              RateKey(c, key, asked + VerdictOf(c, count).retryAfterMs.value)
              == Slot(key, RateKey(c, key, asked).window + 1)
  {
    var w, k := Width(c), asked / 1000 / Width(c);
    WindowOf(asked, w, k);
    Times(k, w);
    Times(k + 1, w);
    NextMultiple(k, w * 1000);
    NextMultiple(k + 1, w * 1000);
    WhichWindow(asked + w * 1000, w, k + 1);
  }

  lemma {:induction false} PromptServedBefore(c: Config, calls: seq<Call>, slot: Slot, at: nat)
    requires AllPrompt(calls) && (slot.window + 1) * Width(c) * 1000 + 1000 <= at
    ensures ServedBefore(c, calls, slot, Some(at))
    decreases |calls|
  {
    if calls != [] {
      assert Prompt(calls[0]);
      if SlotOf(c, calls[0]) == slot {
        WindowOf(calls[0].asked, Width(c), slot.window);
      }
      PromptServedBefore(c, calls[1..], slot, at);
    }
  }

  lemma {:induction false} NoExpiryServedBefore(c: Config, calls: seq<Call>, slot: Slot)
    ensures ServedBefore(c, calls, slot, None)
    decreases |calls|
  {
    if calls != [] {
      NoExpiryServedBefore(c, calls[1..], slot);
    }
  }

  /** The expiry of W + 1 seconds is long enough for every call that is served within a second. */
  lemma {:induction false} PromptIsInTime(c: Config, calls: seq<Call>, slot: Slot)
    requires AllPrompt(calls)
    ensures InTime(c, calls, slot)
    decreases |calls|
  {
    if calls != [] {
      var call := calls[0];
      assert Prompt(call);
      if SlotOf(c, call) != slot {
        PromptIsInTime(c, calls[1..], slot);
      } else if call.expireOk {
        WindowOf(call.asked, Width(c), slot.window);
        LastSecond(slot.window, Width(c));
        PromptServedBefore(c, calls[1..], slot, GivenExpiry(c, call).value);
      } else {
        NoExpiryServedBefore(c, calls[1..], slot);
      }
    }
  }

  // ----- any stretch of one window's length -----

  /** The calls of a key asked from `start` on, for one window's length, that were allowed. */
  ghost function AllowedWithin(c: Config, store: Store, calls: seq<Call>, key: string, start: nat): nat
    decreases |calls|
  {
    if calls == [] then 0
    else
      (if calls[0].key == key && start <= calls[0].asked < start + Width(c) * 1000 && IsAllowed(c, store, calls[0])
       then 1 else 0)
      + AllowedWithin(c, StoreAfter(c, store, calls[0]), calls[1..], key, start)
  }

  lemma {:induction false} TwoWindows(c: Config, asked: nat, start: nat)
    requires start <= asked < start + Width(c) * 1000
    ensures
      var first := start / 1000 / Width(c);
      asked / 1000 / Width(c) == first || asked / 1000 / Width(c) == first + 1
  {
    var width := Width(c);
    var first, window := start / 1000 / width, asked / 1000 / width;
    WindowOf(start, width, first);
    WindowOf(asked, width, window);
    var span := width * 1000;
    Times(first, width);
    Times(window, width);
    Times(first + 1, width);
    Times(window + 1, width);
    Order(first, window + 1, span);
    Order(window, first + 2, span);
    assert (first + 2) * span == (first + 1) * span + span;
  }

  lemma {:induction false} Times(n: nat, width: nat)
    ensures n * width * 1000 == n * (width * 1000)
  {
  }

  lemma {:induction false} Order(a: nat, b: nat, span: nat)
    requires span > 0
    ensures a < b <==> a * span < b * span
  {
    if a < b {
      assert (b - a) * span > 0;
    } else {
      assert (a - b) * span >= 0;
    }
  }

  lemma {:induction false} CoveredByTwo(c: Config, store: Store, calls: seq<Call>, key: string, start: nat, first: nat)
    requires first == start / 1000 / Width(c)
    ensures AllowedWithin(c, store, calls, key, start)
            <= Admitted(c, store, calls, Slot(key, first)) + Admitted(c, store, calls, Slot(key, first + 1))
    decreases |calls|
  {
    if calls != [] {
      var call := calls[0];
      CoveredByTwo(c, StoreAfter(c, store, call), calls[1..], key, start, first);
      if call.key == key && start <= call.asked < start + Width(c) * 1000 {
        TwoWindows(c, call.asked, start);
      }
    }
  }

  /** In any stretch of one window's length, wherever it begins, at most twice the limit is allowed. */
  lemma {:induction false} SlidingBound(c: Config, calls: seq<Call>, key: string, start: nat)
    requires AllPrompt(calls)
    ensures AllowedWithin(c, map[], calls, key, start) <= 2 * Limit(c)
  {
    var first := start / 1000 / Width(c);
    CoveredByTwo(c, map[], calls, key, start, first);
    PromptIsInTime(c, calls, Slot(key, first));
    PromptIsInTime(c, calls, Slot(key, first + 1));
    WindowAdmits(c, calls, Slot(key, first));
    WindowAdmits(c, calls, Slot(key, first + 1));
  }

  // ----- when the sliding bound is the limit itself -----

  lemma {:induction false} OneWindow(c: Config, asked: nat, start: nat)
    requires start % (Width(c) * 1000) == 0 && start <= asked < start + Width(c) * 1000
    ensures asked / 1000 / Width(c) == start / 1000 / Width(c)
  {
    var span := Width(c) * 1000;
    var k := start / span;
    assert start == k * span && (k + 1) * span == k * span + span;
    WhichWindow(start, Width(c), k);
    WhichWindow(asked, Width(c), k);
  }

  lemma {:induction false} CoveredByOne(c: Config, store: Store, calls: seq<Call>, key: string, start: nat, first: nat)
    requires start % (Width(c) * 1000) == 0 && first == start / 1000 / Width(c)
    ensures AllowedWithin(c, store, calls, key, start) <= Admitted(c, store, calls, Slot(key, first))
    decreases |calls|
  {
    if calls != [] {
      var call := calls[0];
      CoveredByOne(c, StoreAfter(c, store, call), calls[1..], key, start, first);
      if call.key == key && start <= call.asked < start + Width(c) * 1000 {
        OneWindow(c, call.asked, start);
      }
    }
  }

  function Copies(call: Call, n: nat): (calls: seq<Call>)
    ensures |calls| == n && forall i :: 0 <= i < n ==> calls[i] == call
  {
    if n == 0 then [] else [call] + Copies(call, n - 1)
  }

  /** All calls of the key within the stretch: what is allowed is what its two windows admit. */
  lemma {:induction false} AllWithin(c: Config, store: Store, calls: seq<Call>, key: string, start: nat, w: nat)
    requires forall i :: 0 <= i < |calls| ==>
               && calls[i].key == key && start <= calls[i].asked < start + Width(c) * 1000
               && (SlotOf(c, calls[i]) == Slot(key, w) || SlotOf(c, calls[i]) == Slot(key, w + 1))
    ensures AllowedWithin(c, store, calls, key, start) ==
            Admitted(c, store, calls, Slot(key, w)) + Admitted(c, store, calls, Slot(key, w + 1))
    decreases |calls|
  {
    if calls != [] {
      assert calls[0].key == key;
      AllWithin(c, StoreAfter(c, store, calls[0]), calls[1..], key, start, w);
    }
  }

  lemma {:induction false} MadeAppend(c: Config, a: seq<Call>, b: seq<Call>, slot: Slot)
    ensures Made(c, a + b, slot) == Made(c, a, slot) + Made(c, b, slot)
    decreases |a|
  {
    if a == [] {
      assert a + b == b;
    } else {
      assert (a + b)[0] == a[0] && (a + b)[1..] == a[1..] + b;
      MadeAppend(c, a[1..], b, slot);
    }
  }

  lemma {:induction false} MadeCopies(c: Config, call: Call, n: nat, slot: Slot)
    ensures Made(c, Copies(call, n), slot) == if SlotOf(c, call) == slot then n else 0
  {
    if n > 0 {
      MadeCopies(c, call, n - 1, slot);
      assert Copies(call, n)[1..] == Copies(call, n - 1);
    }
  }

  lemma {:induction false} Edge(c: Config, start: nat, edge: nat)
    requires start % (Width(c) * 1000) != 0 && edge == (start / 1000 / Width(c) + 1) * Width(c) * 1000
    ensures start <= edge - 1 && edge < start + Width(c) * 1000
    ensures (edge - 1) / 1000 / Width(c) == start / 1000 / Width(c)
    ensures edge / 1000 / Width(c) == start / 1000 / Width(c) + 1
  {
    var width := Width(c);
    var span := width * 1000;
    var first := start / 1000 / width;
    WindowOf(start, width, first);
    Times(first, width);
    Times(first + 1, width);
    assert edge == first * span + span;
    NotAligned(start, first, span);
    WhichWindow(edge - 1, width, first);
    WhichWindow(edge, width, first + 1);
  }

  lemma {:induction false} NotAligned(start: nat, first: nat, span: nat)
    requires span > 0 && start % span != 0 && first * span <= start
    ensures start > first * span
  {
    Multiple(first, span);
  }

  lemma {:induction false} Multiple(n: nat, span: nat)
    requires span > 0
    ensures (n * span) % span == 0
  {
    if n > 0 {
      Multiple(n - 1, span);
      assert n * span == (n - 1) * span + span;
      PlusSpan((n - 1) * span, span);
    }
  }

  lemma {:induction false} PlusSpan(x: nat, span: nat)
    requires span > 0
    ensures (x + span) % span == x % span
  {
    var q, r := x / span, x % span;
    assert x + span == (q + 1) * span + r;
    Remainder(x + span, q + 1, r, span);
  }

  lemma {:induction false} Remainder(x: nat, q: nat, r: nat, span: nat)
    requires span > 0 && x == q * span + r && r < span
    ensures x % span == r && x / span == q
  {
    assert x == x / span * span + x % span;
    Order(x / span, q + 1, span);
    Order(q, x / span + 1, span);
    assert (q + 1) * span == q * span + span && (x / span + 1) * span == x / span * span + span;
  }

  lemma {:induction false} WhichWindow(ms: nat, width: nat, window: nat)
    requires width >= 1 && window * (width * 1000) <= ms < (window + 1) * (width * 1000)
    ensures ms / 1000 / width == window
  {
    var span := width * 1000;
    var w := ms / 1000 / width;
    WindowOf(ms, width, w);
    Times(w, width);
    Times(w + 1, width);
    Order(w, window + 1, span);
    Order(window, w + 1, span);
  }

  /** The limit in calls one millisecond before the edge of a window, and the limit again at the edge. */
  ghost function AroundEdge(c: Config, key: string, edge: nat): seq<Call>
    requires edge >= 1
  {
    Copies(Call(key, edge - 1, edge - 1, true), Limit(c)) + Copies(Call(key, edge, edge, true), Limit(c))
  }

  /** For every configuration and every start inside a window the factor two is reached. */
  lemma {:induction false} TwiceIsReached(c: Config, key: string, start: nat, edge: nat)
    requires start % (Width(c) * 1000) != 0 && edge == (start / 1000 / Width(c) + 1) * Width(c) * 1000
    ensures edge >= 1 && AllPrompt(AroundEdge(c, key, edge))
    ensures AllowedWithin(c, map[], AroundEdge(c, key, edge), key, start) == 2 * Limit(c)
  {
    Edge(c, start, edge);
    var first := start / 1000 / Width(c);
    var a, b := Call(key, edge - 1, edge - 1, true), Call(key, edge, edge, true);
    var calls := AroundEdge(c, key, edge);
    assert forall i :: 0 <= i < |calls| ==> calls[i] == if i < Limit(c) then a else b;
    AllWithin(c, map[], calls, key, start, first);
    MadeAroundEdge(c, a, b, first, key);
    FullWindow(c, calls, Slot(key, first));
    FullWindow(c, calls, Slot(key, first + 1));
  }

  lemma {:induction false} FullWindow(c: Config, calls: seq<Call>, slot: Slot)
    requires AllPrompt(calls) && Made(c, calls, slot) == Limit(c)
    ensures Admitted(c, map[], calls, slot) == Limit(c)
  {
    PromptIsInTime(c, calls, slot);
    WindowAdmits(c, calls, slot);
  }

  lemma {:induction false} MadeAroundEdge(c: Config, a: Call, b: Call, first: nat, key: string)
    requires SlotOf(c, a) == Slot(key, first) && SlotOf(c, b) == Slot(key, first + 1)
    ensures Made(c, Copies(a, Limit(c)) + Copies(b, Limit(c)), Slot(key, first)) == Limit(c)
    ensures Made(c, Copies(a, Limit(c)) + Copies(b, Limit(c)), Slot(key, first + 1)) == Limit(c)
  {
    MadeAppend(c, Copies(a, Limit(c)), Copies(b, Limit(c)), Slot(key, first));
    MadeAppend(c, Copies(a, Limit(c)), Copies(b, Limit(c)), Slot(key, first + 1));
    MadeCopies(c, a, Limit(c), Slot(key, first));
    MadeCopies(c, b, Limit(c), Slot(key, first));
    MadeCopies(c, a, Limit(c), Slot(key, first + 1));
    MadeCopies(c, b, Limit(c), Slot(key, first + 1));
  }

  /**
   The limiter is a sliding window, that is, no stretch of a window's length from `start` ever
   admits more than the limit, if and only if the stretch is itself a window or the limit is 0.
   */
  lemma {:induction false} SlidingIffAligned(c: Config, key: string, start: nat)
    ensures (forall calls :: AllPrompt(calls) ==> AllowedWithin(c, map[], calls, key, start) <= Limit(c))
            <==> start % (Width(c) * 1000) == 0 || Limit(c) == 0
  {
    if start % (Width(c) * 1000) == 0 {
      var first := start / 1000 / Width(c);
      forall calls | AllPrompt(calls) ensures AllowedWithin(c, map[], calls, key, start) <= Limit(c) {
        CoveredByOne(c, map[], calls, key, start, first);
        PromptIsInTime(c, calls, Slot(key, first));
        WindowAdmits(c, calls, Slot(key, first));
      }
    } else {
      forall calls | AllPrompt(calls) ensures AllowedWithin(c, map[], calls, key, start) <= 2 * Limit(c) {
        SlidingBound(c, calls, key, start);
      }
      var edge := (start / 1000 / Width(c) + 1) * Width(c) * 1000;
      TwiceIsReached(c, key, start, edge);
      assert AllPrompt(AroundEdge(c, key, edge));
    }
  }

  // ----- a call served late -----

  /**
   After the limit in calls, one more call of the same window is admitted exactly when it is served
   only after the counter's expiry, W + 1 seconds after the first.
   */
  lemma {:induction false} LateCallRestarts(c: Config, key: string, asked: nat, served: nat, calls: seq<Call>)
    requires Limit(c) >= 1
    requires calls == Copies(Call(key, asked, asked, true), Limit(c)) + [Call(key, asked, served, true)]
    ensures Admitted(c, map[], calls, RateKey(c, key, asked)) ==
            if served >= asked + (Width(c) + 1) * 1000 then Limit(c) + 1 else Limit(c)
  {
    var slot := RateKey(c, key, asked);
    var early, late := Call(key, asked, asked, true), Call(key, asked, served, true);
    var rest := Copies(early, Limit(c) - 1) + [late];
    assert calls[0] == early && calls[1..] == rest;
    var store := StoreAfter(c, map[], early);
    assert store[slot] == Counter(1, Some(asked + (Width(c) + 1) * 1000));
    CopiesThenLate(c, store, early, late, Limit(c) - 1, 1, slot);
  }

  lemma {:induction false} CopiesThenLate(c: Config, store: Store, early: Call, late: Call, k: nat, n: nat, slot: Slot)
    requires n > 0 && n + k == Limit(c) && early.served == early.asked
    requires SlotOf(c, early) == slot && SlotOf(c, late) == slot && slot in store
    requires store[slot] == Counter(n, Some(early.asked + (Width(c) + 1) * 1000))
    ensures Admitted(c, store, Copies(early, k) + [late], slot) ==
            if late.served >= early.asked + (Width(c) + 1) * 1000 then k + 1 else k
    decreases k
  {
    var calls := Copies(early, k) + [late];
    if k == 0 {
      assert calls == [late] && calls[1..] == [];
      assert Admitted(c, StoreAfter(c, store, late), [], slot) == 0;
    } else {
      assert calls[0] == early && calls[1..] == Copies(early, k - 1) + [late];
      CopiesThenLate(c, StoreAfter(c, store, early), early, late, k - 1, n + 1, slot);
    }
  }
}
