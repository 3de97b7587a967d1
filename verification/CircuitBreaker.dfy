/**
 The circuit breaker: closed, open or half open, with a failure and a success counter. Time is in
 nanoseconds of a monotone clock whose readings are inputs.
 */
module CircuitBreaker {
  import opened Wrappers

  datatype Status = Closed | Open | HalfOpen

  datatype Config = Config(failureThreshold: nat, successThreshold: nat, openDurationSecs: nat)

  datatype State = State(status: Status, failures: nat, successes: nat, lastFailureAt: Option<nat>)

  const FRESH: State := State(Closed, 0, 0, None)

  function AtLeastOne(n: nat): nat {
    if n >= 1 then n else 1
  }

  /** Whole seconds between two readings. */
  function ElapsedSecs(start: nat, now: nat): nat {
    if now >= start then (now - start) / SECOND else 0
  }

  function Queried(c: Config, s: State, now: nat): State {
    if s.status.Open? && s.lastFailureAt.Some? && ElapsedSecs(s.lastFailureAt.value, now) >= c.openDurationSecs
    then s.(status := HalfOpen, successes := 0)
    else s
  }

  function Succeeded(c: Config, s: State): State {
    match s.status
    case Closed => s.(failures := 0)
    case HalfOpen =>
      if s.successes + 1 >= c.successThreshold then FRESH else s.(successes := s.successes + 1)
    case Open => s
  }

  function Failed(c: Config, s: State, now: nat): State {
    var s' := s.(lastFailureAt := Some(now));
    match s.status
    case Closed =>
      if s.failures + 1 >= c.failureThreshold then s'.(status := Open, failures := s.failures + 1, successes := 0)
      else s'.(failures := s.failures + 1)
    case HalfOpen => s'.(status := Open, successes := 0)
    case Open => s'
  }

  /** The counters stay within the thresholds, so 32 bits always hold them. */
  ghost predicate Bounded(c: Config, s: State) {
    && s.failures <= AtLeastOne(c.failureThreshold) && s.successes < AtLeastOne(c.successThreshold)
    && (s.status.Closed? ==> s.failures < AtLeastOne(c.failureThreshold))
    && (s.status.Open? ==> s.lastFailureAt.Some?)
  }

  class CircuitBreaker {
    const config: Config
    var status: Status
    var failureCount: nat
    var successCount: nat
    var lastFailureAt: Option<nat>

    ghost function Value(): State
      reads this
    {
      State(status, failureCount, successCount, lastFailureAt)
    }

    ghost predicate Valid()
      reads this
    {
      Bounded(config, Value())
    }

    constructor (config: Config)
      ensures Valid() && Value() == FRESH && this.config == config
    {
      this.config := config;
      status, failureCount, successCount, lastFailureAt := Closed, 0, 0, None;
    }

    method MaybeTransitionHalfOpen(now: nat)
      requires Valid()
      modifies this
      ensures Valid() && Value() == Queried(config, old(Value()), now)
    {
      if status == Open {
        if lastFailureAt.Some? {
          if ElapsedSecs(lastFailureAt.value, now) >= config.openDurationSecs {
            status := HalfOpen;
            successCount := 0;
          }
        }
      }
    }

    method CurrentState(now: nat) returns (s: Status)
      requires Valid()
      modifies this
      ensures Valid() && Value() == Queried(config, old(Value()), now) && s == status
    {
      MaybeTransitionHalfOpen(now);
      s := status;
    }

    method AllowRequest(now: nat) returns (allowed: bool)
      requires Valid()
      modifies this
      ensures Valid() && Value() == Queried(config, old(Value()), now)
      ensures allowed <==> Queried(config, old(Value()), now).status != Open
    {
      MaybeTransitionHalfOpen(now);
      match status
      case Closed => allowed := true;
      case Open => allowed := false;
      case HalfOpen => allowed := true;
    }

    method RecordSuccess()
      requires Valid()
      modifies this
      ensures Valid() && Value() == Succeeded(config, old(Value()))
    {
      match status
      case Closed => failureCount := 0;
      case HalfOpen =>
        successCount := successCount + 1;
        if successCount >= config.successThreshold {
          status := Closed;
          failureCount := 0;
          successCount := 0;
          lastFailureAt := None;
        }
      case Open =>
    }

    method RecordFailure(now: nat)
      requires Valid()
      modifies this
      ensures Valid() && Value() == Failed(config, old(Value()), now)
    {
      lastFailureAt := Some(now);
      match status
      case Closed =>
        failureCount := failureCount + 1;
        if failureCount >= config.failureThreshold {
          status := Open;
          successCount := 0;
        }
      case HalfOpen =>
        status := Open;
        successCount := 0;
      case Open =>
    }

    method Reset()
      modifies this
      ensures Valid() && Value() == FRESH
    {
      status := Closed;
      failureCount := 0;
      successCount := 0;
      lastFailureAt := None;
    }
  }

  // ----- histories -----

  /** One call on the breaker; `state` and `allow_request` are both queries. */
  datatype Event =
    | Query(at: nat)
    | Success
    | Failure(at: nat)
    | ForceReset

  function Step(c: Config, s: State, e: Event): State {
    match e
    case Query(at) => Queried(c, s, at)
    case Success => Succeeded(c, s)
    case Failure(at) => Failed(c, s, at)
    case ForceReset => FRESH
  }

  /** The breaker after a history, oldest call first. */
  function After(c: Config, h: seq<Event>): State
    decreases |h|
  {
    if h == [] then FRESH else Step(c, After(c, h[..|h| - 1]), h[|h| - 1])
  }

  function StatusAfter(c: Config, h: seq<Event>): Status {
    After(c, h).status
  }

  /** Failures in a row since the last success, or since the breaker was last closed. */
  function FailureRun(c: Config, h: seq<Event>): nat
    decreases |h|
  {
    if h == [] then 0
    else
      var before, e := h[..|h| - 1], h[|h| - 1];
      if StatusAfter(c, before) != Closed then 0
      else
        match e
        case Failure(_) => 1 + FailureRun(c, before)
        case Query(_) => FailureRun(c, before)
        case _ => 0
  }

  /** Successes since the breaker last became half open. */
  function SuccessRun(c: Config, h: seq<Event>): nat
    decreases |h|
  {
    if h == [] then 0
    else
      var before, e := h[..|h| - 1], h[|h| - 1];
      if StatusAfter(c, before) != HalfOpen then 0
      else
        match e
        case Success => 1 + SuccessRun(c, before)
        case Query(_) => SuccessRun(c, before)
        case _ => 0
  }

  /** The time of the last failure of all, whatever the breaker did with it. */
  function LatestFailure(h: seq<Event>): Option<nat>
    decreases |h|
  {
    if h == [] then None
    else if h[|h| - 1].Failure? then Some(h[|h| - 1].at)
    else LatestFailure(h[..|h| - 1])
  }

  /** The fields are the functions of history that they stand for. */
  lemma {:induction false} FieldsAreHistory(c: Config, h: seq<Event>)
    ensures Bounded(c, After(c, h))
    ensures StatusAfter(c, h) == Closed ==> After(c, h).failures == FailureRun(c, h)
    ensures StatusAfter(c, h) == HalfOpen ==> After(c, h).successes == SuccessRun(c, h)
    ensures StatusAfter(c, h) == Open ==>
              LatestFailure(h).Some? && After(c, h).lastFailureAt == LatestFailure(h)
    ensures StatusAfter(c, h) != HalfOpen ==> After(c, h).successes == 0
    ensures StatusAfter(c, h) != Closed ==> After(c, h).failures == AtLeastOne(c.failureThreshold)
    decreases |h|
  {
    if h != [] {
      FieldsAreHistory(c, h[..|h| - 1]);
    }
  }

  /**
   After every history the next call changes the status exactly as it should: closed trips on the
   failure that completes a run of max(1, failure_threshold); open turns half open on the first
   query open_duration_secs after the latest failure; half open closes on the success that
   completes max(1, success_threshold) and opens on any failure; a reset closes.
   */
  lemma {:induction false} StatusIsHistory(c: Config, h: seq<Event>, e: Event)
    ensures StatusAfter(c, h) == Closed ==>
              StatusAfter(c, h + [e]) ==
              if e.Failure? && FailureRun(c, h) + 1 >= AtLeastOne(c.failureThreshold) then Open else Closed
    ensures StatusAfter(c, h) == Open ==>
              && LatestFailure(h).Some?
              && StatusAfter(c, h + [e]) ==
                 if e.ForceReset? then Closed
                 else if e.Query? && e.at >= LatestFailure(h).value + c.openDurationSecs * SECOND then HalfOpen
                 else if e.Query? && c.openDurationSecs == 0 then HalfOpen
                 else Open
    ensures StatusAfter(c, h) == HalfOpen ==>
              StatusAfter(c, h + [e]) ==
              if e.ForceReset? then Closed
              else if e.Failure? then Open
              else if e.Success? && SuccessRun(c, h) + 1 >= AtLeastOne(c.successThreshold) then Closed
              else HalfOpen
  {
    FieldsAreHistory(c, h);
    assert (h + [e])[..|h + [e]| - 1] == h;
    assert After(c, h + [e]) == Step(c, After(c, h), e);
    if StatusAfter(c, h) == Open && e.Query? {
      WholeSeconds(LatestFailure(h).value, e.at, c.openDurationSecs);
    }
  }

  /** Rounding the elapsed time down to whole seconds does not delay the transition. */
  lemma {:induction false} WholeSeconds(start: nat, now: nat, secs: nat)
    ensures ElapsedSecs(start, now) >= secs <==> now >= start + secs * SECOND || secs == 0
  {
    if now >= start {
      var d := now - start;
      assert d == d / SECOND * SECOND + d % SECOND;
      if d / SECOND >= secs {
        assert d / SECOND * SECOND >= secs * SECOND;
      } else {
        assert (d / SECOND + 1) * SECOND <= secs * SECOND;
      }
    } else {
      assert secs >= 1 ==> start + secs * SECOND > now;
    }
  }

  /** Open is never permanent: a query long enough after the latest failure is let through. */
  lemma {:induction false} OpenEnds(c: Config, h: seq<Event>, at: nat)
    requires StatusAfter(c, h) == Open && LatestFailure(h).Some?
    requires at >= LatestFailure(h).value + c.openDurationSecs * SECOND
    ensures StatusAfter(c, h + [Query(at)]) == HalfOpen
  {
    StatusIsHistory(c, h, Query(at));
  }

  /** No history brings a counter past its threshold. */
  lemma {:induction false} CountersBounded(c: Config, h: seq<Event>)
    ensures After(c, h).failures <= AtLeastOne(c.failureThreshold)
    ensures After(c, h).successes < AtLeastOne(c.successThreshold)
  {
    FieldsAreHistory(c, h);
  }

  /** A breaker that stays open for no time at all never turns a request away. */
  lemma {:induction false} NoOpenTime(c: Config, h: seq<Event>, at: nat)
    requires c.openDurationSecs == 0
    ensures StatusAfter(c, h + [Query(at)]) != Open
  {
    StatusIsHistory(c, h, Query(at));
  }

  // ----- a stretch of calls, in terms of the calls alone -----

  /** What a breaker is like just after its status has changed. */
  lemma {:induction false} JustEntered(c: Config, s: State, e: Event, s': State)
    requires Bounded(c, s) && s' == Step(c, s, e) && s'.status != s.status
    ensures s'.status.Closed? ==> s' == FRESH
    ensures s'.status.HalfOpen? ==> s.status.Open? && s'.successes == 0
    ensures s'.status.Open? ==> e.Failure? && s'.lastFailureAt == Some(e.at)
  {
  }

  /** A success or a reset, which ends a run of failures. */
  predicate Breaks(e: Event) {
    e.Success? || e.ForceReset?
  }

  predicate Unbroken(h: seq<Event>) {
    h == [] || (!Breaks(h[0]) && Unbroken(h[1..]))
  }

  function Failures(h: seq<Event>): nat {
    if h == [] then 0 else (if h[0].Failure? then 1 else 0) + Failures(h[1..])
  }

  ghost predicate ClosedThroughout(c: Config, s: State, h: seq<Event>)
    decreases |h|
  {
    s.status.Closed? && (h != [] ==> ClosedThroughout(c, Step(c, s, h[0]), h[1..]))
  }

  /** No unbroken stretch at the start, with `run` failures before it, comes to `k` failures. */
  ghost predicate PrefixesShort(h: seq<Event>, run: nat, k: nat) {
    forall j :: 0 <= j <= |h| && Unbroken(h[..j]) ==> run + Failures(h[..j]) < k
  }

  /** No stretch without a success or a reset holds `k` failures. */
  ghost predicate StretchesShort(h: seq<Event>, k: nat) {
    forall i, j :: 0 <= i <= j <= |h| && Unbroken(h[i..j]) ==> Failures(h[i..j]) < k
  }

  ghost predicate RunsShort(h: seq<Event>, run: nat, k: nat)
    decreases |h|
  {
    h == []
    || match h[0]
       case Failure(_) => run + 1 < k && RunsShort(h[1..], run + 1, k)
       case Query(_) => RunsShort(h[1..], run, k)
       case _ => RunsShort(h[1..], 0, k)
  }

  lemma {:induction false} ClosedIsRunsShort(c: Config, s: State, h: seq<Event>)
    requires s.status.Closed? && s.failures < AtLeastOne(c.failureThreshold)
    ensures ClosedThroughout(c, s, h) <==> RunsShort(h, s.failures, AtLeastOne(c.failureThreshold))
    decreases |h|
  {
    if h != [] {
      var s1 := Step(c, s, h[0]);
      if s1.status.Closed? {
        ClosedIsRunsShort(c, s1, h[1..]);
      }
    }
  }

  lemma {:induction false} PrefixesNext(h: seq<Event>, run: nat, k: nat)
    requires h != [] && run < k
    ensures Breaks(h[0]) ==> PrefixesShort(h, run, k)
    ensures !Breaks(h[0]) ==>
              (PrefixesShort(h, run, k) <==> PrefixesShort(h[1..], run + if h[0].Failure? then 1 else 0, k))
  {
    var rest := h[1..];
    var more := if h[0].Failure? then 1 else 0;
    assert h[..0] == [];
    forall j | 1 <= j <= |h|
      ensures Unbroken(h[..j]) <==> !Breaks(h[0]) && Unbroken(rest[..j - 1])
      ensures Failures(h[..j]) == more + Failures(rest[..j - 1])
    {
      assert h[..j][1..] == rest[..j - 1];
    }
    if !Breaks(h[0]) {
      assert rest[..0] == [];
      if PrefixesShort(h, run, k) {
        forall j | 0 <= j <= |rest| && Unbroken(rest[..j]) ensures run + more + Failures(rest[..j]) < k {
          assert Unbroken(h[..j + 1]);
        }
      }
    }
  }

  lemma {:induction false} SliceShift(h: seq<Event>, i: nat, j: nat)
    requires i <= j < |h|
    ensures h[i + 1..j + 1] == h[1..][i..j]
  {
  }

  lemma {:induction false} StretchesOfRest(h: seq<Event>, k: nat)
    requires h != [] && StretchesShort(h, k)
    ensures StretchesShort(h[1..], k)
  {
    var rest := h[1..];
    forall i, j | 0 <= i <= j <= |rest| && Unbroken(rest[i..j]) ensures Failures(rest[i..j]) < k {
      SliceShift(h, i, j);
      assert Unbroken(h[i + 1..j + 1]);
    }
  }

  lemma {:induction false} StretchesFromBoth(h: seq<Event>, k: nat)
    requires h != [] && PrefixesShort(h, 0, k) && StretchesShort(h[1..], k)
    ensures StretchesShort(h, k)
  {
    var rest := h[1..];
    forall i, j | 0 <= i <= j <= |h| && Unbroken(h[i..j]) ensures Failures(h[i..j]) < k {
      if i == 0 {
        assert h[i..j] == h[..j];
      } else {
        SliceShift(h, i - 1, j - 1);
        assert Unbroken(rest[i - 1..j - 1]);
      }
    }
  }

  lemma {:induction false} StretchesNext(h: seq<Event>, k: nat)
    requires h != []
    ensures StretchesShort(h, k) <==> PrefixesShort(h, 0, k) && StretchesShort(h[1..], k)
  {
    if StretchesShort(h, k) {
      StretchesCoverPrefixes(h, k);
      StretchesOfRest(h, k);
    }
    if PrefixesShort(h, 0, k) && StretchesShort(h[1..], k) {
      StretchesFromBoth(h, k);
    }
  }

  lemma {:induction false} StretchesCoverPrefixes(h: seq<Event>, k: nat)
    requires StretchesShort(h, k)
    ensures PrefixesShort(h, 0, k)
  {
    forall j | 0 <= j <= |h| && Unbroken(h[..j]) ensures 0 + Failures(h[..j]) < k {
      assert h[0..j] == h[..j];
    }
  }

  lemma {:induction false} RunsAreStretches(h: seq<Event>, run: nat, k: nat)
    requires run < k
    ensures RunsShort(h, run, k) <==> PrefixesShort(h, run, k) && StretchesShort(h, k)
    decreases |h|
  {
    if h == [] {
      assert h[..0] == [] && h[0..0] == [];
    } else {
      var rest := h[1..];
      PrefixesNext(h, run, k);
      PrefixesNext(h, 0, k);
      StretchesNext(h, k);
      match h[0]
      case Failure(_) =>
        if run + 1 < k {
          RunsAreStretches(rest, run + 1, k);
          FewerBefore(rest, run + 1, 1, k);
        } else {
          assert rest[..0] == [] && Unbroken(rest[..0]);
        }
      case Query(_) =>
        RunsAreStretches(rest, run, k);
        FewerBefore(rest, run, 0, k);
      case _ =>
        RunsAreStretches(rest, 0, k);
        if StretchesShort(rest, k) {
          StretchesCoverPrefixes(rest, k);
        }
    }
  }

  lemma {:induction false} FewerBefore(h: seq<Event>, run: nat, less: nat, k: nat)
    requires less <= run
    ensures PrefixesShort(h, run, k) ==> PrefixesShort(h, less, k)
  {
  }

  /**
   From a breaker just closed, over any calls whatever: it stays closed throughout if and only if
   nowhere max(1, failure_threshold) failures come without a success or a reset between them.
   */
  lemma {:induction false} ClosedIffStretchesShort(c: Config, s: State, h: seq<Event>)
    requires s.status.Closed? && s.failures == 0
    ensures ClosedThroughout(c, s, h) <==> StretchesShort(h, AtLeastOne(c.failureThreshold))
  {
    ClosedIsRunsShort(c, s, h);
    RunsAreStretches(h, 0, AtLeastOne(c.failureThreshold));
    if StretchesShort(h, AtLeastOne(c.failureThreshold)) {
      StretchesCoverPrefixes(h, AtLeastOne(c.failureThreshold));
    }
  }

  /** The calls that record an outcome. */
  function Outcomes(h: seq<Event>): (os: seq<Event>)
    ensures |os| <= |h|
  {
    if h == [] then [] else if h[0].Query? then Outcomes(h[1..]) else [h[0]] + Outcomes(h[1..])
  }

  /** The status for which a half-open breaker is first left, if it is. */
  ghost function LeftFor(c: Config, s: State, h: seq<Event>): Option<Status>
    decreases |h|
  {
    if s.status != HalfOpen then Some(s.status)
    else if h == [] then None
    else LeftFor(c, Step(c, s, h[0]), h[1..])
  }

  ghost predicate SuccessesFirst(os: seq<Event>, n: nat) {
    n <= |os| && forall i :: 0 <= i < n ==> os[i].Success?
  }

  ghost predicate FailureAmongFirst(os: seq<Event>, n: nat) {
    exists i :: 0 <= i < n && i < |os| && os[i].Failure?
  }

  lemma {:induction false} HalfOpenStep(os: seq<Event>, n: nat)
    requires os != [] && n > 0
    ensures SuccessesFirst(os, n) <==> os[0].Success? && SuccessesFirst(os[1..], n - 1)
    ensures FailureAmongFirst(os, n) <==> os[0].Failure? || FailureAmongFirst(os[1..], n - 1)
  {
    if FailureAmongFirst(os, n) {
      var i :| 0 <= i < n && i < |os| && os[i].Failure?;
      assert i > 0 ==> os[1..][i - 1] == os[i];
    }
    if FailureAmongFirst(os[1..], n - 1) {
      var i :| 0 <= i < n - 1 && i < |os[1..]| && os[1..][i].Failure?;
      assert os[i + 1] == os[1..][i];
    }
    if os[0].Success? && SuccessesFirst(os[1..], n - 1) {
      assert forall i :: 1 <= i < n ==> os[i] == os[1..][i - 1];
    }
  }

  lemma {:induction false} HalfOpenFrom(c: Config, s: State, h: seq<Event>, left: nat)
    requires s.status == HalfOpen && s.successes < AtLeastOne(c.successThreshold)
    requires left == AtLeastOne(c.successThreshold) - s.successes
    requires forall i :: 0 <= i < |h| ==> !h[i].ForceReset?
    ensures LeftFor(c, s, h) == Some(Closed) <==> SuccessesFirst(Outcomes(h), left)
    ensures LeftFor(c, s, h) == Some(Open) <==> FailureAmongFirst(Outcomes(h), left) && !SuccessesFirst(Outcomes(h), left)
    decreases |h|
  {
    if h != [] {
      var e, rest := h[0], h[1..];
      var s1 := Step(c, s, e);
      assert !e.ForceReset?;
      if e.Query? {
        HalfOpenFrom(c, s1, rest, left);
      } else {
        var os := Outcomes(h);
        assert os[0] == e && os[1..] == Outcomes(rest);
        HalfOpenStep(os, left);
        if s1.status == HalfOpen {
          HalfOpenFrom(c, s1, rest, left - 1);
        }
      }
    }
  }

  /**
   From a breaker just half open, over any queries, successes and failures: it closes if and only if
   the first max(1, success_threshold) outcomes are all successes, opens if and only if one of them
   is a failure, and is half open as long as there are too few.
   */
  lemma {:induction false} HalfOpenIffOutcomes(c: Config, s: State, h: seq<Event>)
    requires s.status == HalfOpen && s.successes == 0
    requires forall i :: 0 <= i < |h| ==> !h[i].ForceReset?
    ensures LeftFor(c, s, h) == Some(Closed) <==> SuccessesFirst(Outcomes(h), AtLeastOne(c.successThreshold))
    ensures LeftFor(c, s, h) == Some(Open) <==> FailureAmongFirst(Outcomes(h), AtLeastOne(c.successThreshold))
    ensures LeftFor(c, s, h) != Some(HalfOpen)
  {
    HalfOpenFrom(c, s, h, AtLeastOne(c.successThreshold));
    NeverLeftForItself(c, s, h);
  }

  lemma {:induction false} NeverLeftForItself(c: Config, s: State, h: seq<Event>)
    ensures LeftFor(c, s, h) != Some(HalfOpen)
    decreases |h|
  {
    if s.status == HalfOpen && h != [] {
      NeverLeftForItself(c, Step(c, s, h[0]), h[1..]);
    }
  }

  ghost predicate OpenThroughout(c: Config, s: State, h: seq<Event>)
    decreases |h|
  {
    s.status.Open? && (h != [] ==> OpenThroughout(c, Step(c, s, h[0]), h[1..]))
  }

  /** Each query is asked before the open duration after the latest failure is over, and nothing is reset. */
  ghost predicate QueriesTooEarly(h: seq<Event>, latest: nat, secs: nat)
  {
    h == []
    || (!h[0].ForceReset?
        && (h[0].Query? ==> h[0].at < latest + secs * SECOND && secs > 0)
        && QueriesTooEarly(h[1..], if h[0].Failure? then h[0].at else latest, secs))
  }

  /**
   From an open breaker, over any calls: it stays open throughout if and only if no call is a reset
   and every query comes before open_duration_secs after the latest failure are over.
   */
  lemma {:induction false} OpenIffQueriesTooEarly(c: Config, s: State, h: seq<Event>)
    requires s.status.Open? && s.lastFailureAt.Some?
    ensures OpenThroughout(c, s, h) <==> QueriesTooEarly(h, s.lastFailureAt.value, c.openDurationSecs)
    decreases |h|
  {
    if h != [] {
      var s1 := Step(c, s, h[0]);
      if h[0].Query? {
        WholeSeconds(s.lastFailureAt.value, h[0].at, c.openDurationSecs);
      }
      if s1.status.Open? {
        OpenIffQueriesTooEarly(c, s1, h[1..]);
      }
    }
  }
}
