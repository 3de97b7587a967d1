/**
 What a run of the timer engine shows of one loop: when its handler is started, which answer its
 status reports, and whose lock can keep it from running.
 */
module TimerRuns {
  import opened Wrappers
  import opened MemoryLock
  import opened TimerTasks
  import opened TimerEngine

  // ----- when a handler is started -----

  ghost predicate StartsHandler(s: Timers, e: Event, l: nat) {
    && e.InLoop? && e.l == l && l in s.loops && Apply(s, e).Some?
    && Apply(s, e).value.loops[l].started > s.loops[l].started
  }

  /** The clock at each start of the loop's handler. */
  ghost function Starts(s: Timers, es: seq<Event>, l: nat): seq<nat>
    decreases |es|
  {
    if es == [] || Apply(s, es[0]).None? then []
    else (if StartsHandler(s, es[0], l) then [s.now] else []) + Starts(Apply(s, es[0]).value, es[1..], l)
  }

  /** The first start comes `gap` after t, and each further one `gap` after the one before. */
  ghost predicate Spaced(t: nat, starts: seq<nat>, gap: nat)
    decreases |starts|
  {
    starts == [] || (t + gap <= starts[0] && Spaced(starts[0], starts[1..], gap))
  }

  /** The loop's handler was last started at t, and will not be again before `gap` is over. */
  ghost predicate Rested(now: nat, pc: Pc, t: nat, gap: nat) {
    && t <= now
    && (pc.Asleep? ==> t + gap <= pc.until)
    && (pc.AwaitPermit? || pc.AtLock? ==> t + gap <= now)
  }

  ghost predicate SleepsFor(task: Task, secs: nat) {
    task.schedule == Interval(secs) || task.schedule == Delay(secs)
  }

  lemma {:induction false} RestOfLoop(
      now: nat, locks: Locks, owners: map<Token, Owner>, engine: Engine, l: nat, loop: Loop, e: LoopEvent, x: Effect,
      t: nat, secs: nat)
    requires LoopStep(now, locks, owners, engine, l, loop, e) == Some(x)
    requires SleepsFor(loop.task, secs) && Rested(now, loop.pc, t, secs * 1_000_000_000)
    ensures x.loop.task == loop.task
    ensures x.loop.started == loop.started ==> Rested(now, x.loop.pc, t, secs * 1_000_000_000)
    ensures x.loop.started != loop.started ==>
              && x.loop.started == loop.started + 1
              && t + secs * 1_000_000_000 <= now && Rested(now, x.loop.pc, now, secs * 1_000_000_000)
  {
  }

  lemma {:induction false} RestStep(s: Timers, e: Event, s': Timers, l: nat, t: nat, secs: nat)
    requires Apply(s, e) == Some(s') && l in s.loops
    requires SleepsFor(s.loops[l].task, secs) && Rested(s.now, s.loops[l].pc, t, secs * 1_000_000_000)
    ensures l in s'.loops && SleepsFor(s'.loops[l].task, secs)
    ensures
      if StartsHandler(s, e, l)
      then t + secs * 1_000_000_000 <= s.now && Rested(s'.now, s'.loops[l].pc, s.now, secs * 1_000_000_000)
      else Rested(s'.now, s'.loops[l].pc, t, secs * 1_000_000_000)
  {
    if e.InLoop? {
      if e.l == l {
        var engine := s.engines[s.loops[l].engine];
        var x := LoopStep(s.now, s.locks, s.owners, engine, l, s.loops[l], e.step).value;
        RestOfLoop(s.now, s.locks, s.owners, engine, l, s.loops[l], e.step, x, t, secs);
      }
    } else if e.ScheduleTask? || e.Cancel? || e.Shutdown? {
      CallsKeepLoops(s, e, s');
    }
  }

  lemma {:induction false} SpacedFrom(s: Timers, es: seq<Event>, l: nat, t: nat, secs: nat)
    requires l in s.loops && SleepsFor(s.loops[l].task, secs) && Rested(s.now, s.loops[l].pc, t, secs * 1_000_000_000)
    ensures Spaced(t, Starts(s, es, l), secs * 1_000_000_000)
    decreases |es|
  {
    if es != [] && Apply(s, es[0]).Some? {
      var s1 := Apply(s, es[0]).value;
      RestStep(s, es[0], s1, l, t, secs);
      var later := Starts(s1, es[1..], l);
      if StartsHandler(s, es[0], l) {
        SpacedFrom(s1, es[1..], l, s.now, secs);
        assert ([s.now] + later)[1..] == later;
      } else {
        SpacedFrom(s1, es[1..], l, t, secs);
        assert [] + later == later;
      }
    }
  }

  /**
   From its scheduling on, over every run, the handler of an Interval or Delay task of `secs` seconds
   is never started before `secs` seconds are over, nor again within `secs` seconds.
   */
  lemma {:induction false} HandlerStartsSpaced(s: Timers, e: Event, s1: Timers, es: seq<Event>, secs: nat)
    requires e.ScheduleTask? && Apply(s, e) == Some(s1)
    requires e.task.schedule == Interval(secs) || e.task.schedule == Delay(secs)
    ensures Spaced(s.now, Starts(s1, es, e.l), secs * 1_000_000_000)
  {
    SpacedFrom(s1, es, e.l, s.now, secs);
  }

  /** Whenever the loop works out its next fire, the wall clock agrees with the monotone one. */
  ghost predicate ClocksAgree(s: Timers, es: seq<Event>, l: nat)
    decreases |es|
  {
    es == [] || Apply(s, es[0]).None?
    || ((es[0].InLoop? && es[0].l == l && es[0].step.Compute? ==> es[0].step.nowMs == s.now / 1_000_000)
        && ClocksAgree(Apply(s, es[0]).value, es[1..], l))
  }

  /** The loop will not start its handler before the time. */
  ghost predicate NotBefore(now: nat, pc: Pc, time: nat) {
    && (pc.Asleep? ==> time <= pc.until)
    && (pc.AwaitPermit? || pc.AtLock? ==> time <= now)
  }

  lemma {:induction false} OnceLoop(
      now: nat, locks: Locks, owners: map<Token, Owner>, engine: Engine, l: nat, loop: Loop, e: LoopEvent, x: Effect, at: nat)
    requires LoopStep(now, locks, owners, engine, l, loop, e) == Some(x)
    requires loop.task.schedule == Once(at) && NotBefore(now, loop.pc, at * 1_000_000)
    requires e.Compute? ==> e.nowMs == now / 1_000_000
    ensures x.loop.task == loop.task && NotBefore(now, x.loop.pc, at * 1_000_000)
    ensures x.loop.started > loop.started ==> at * 1_000_000 <= now
  {
    if e.Compute? {
      NextFireDue(loop.task.schedule, e.nowMs, e.cron);
    }
  }

  lemma {:induction false} OnceStep(s: Timers, e: Event, s': Timers, l: nat, at: nat)
    requires Apply(s, e) == Some(s') && l in s.loops
    requires s.loops[l].task.schedule == Once(at) && NotBefore(s.now, s.loops[l].pc, at * 1_000_000)
    requires e.InLoop? && e.l == l && e.step.Compute? ==> e.step.nowMs == s.now / 1_000_000
    ensures l in s'.loops && s'.loops[l].task == s.loops[l].task && NotBefore(s'.now, s'.loops[l].pc, at * 1_000_000)
    ensures StartsHandler(s, e, l) ==> at * 1_000_000 <= s.now
  {
    if e.InLoop? {
      if e.l == l {
        var engine := s.engines[s.loops[l].engine];
        var x := LoopStep(s.now, s.locks, s.owners, engine, l, s.loops[l], e.step).value;
        OnceLoop(s.now, s.locks, s.owners, engine, l, s.loops[l], e.step, x, at);
      }
    } else if e.ScheduleTask? || e.Cancel? || e.Shutdown? {
      CallsKeepLoops(s, e, s');
    }
  }

  lemma {:induction false} OnceFrom(s: Timers, es: seq<Event>, l: nat, at: nat)
    requires l in s.loops && s.loops[l].task.schedule == Once(at) && NotBefore(s.now, s.loops[l].pc, at * 1_000_000)
    requires ClocksAgree(s, es, l)
    ensures forall i :: 0 <= i < |Starts(s, es, l)| ==> at * 1_000_000 <= Starts(s, es, l)[i]
    decreases |es|
  {
    if es != [] && Apply(s, es[0]).Some? {
      OnceStep(s, es[0], Apply(s, es[0]).value, l, at);
      OnceFrom(Apply(s, es[0]).value, es[1..], l, at);
    }
  }

  /** As long as the two clocks agree, the handler of a Once task is never started before its time. */
  lemma {:induction false} OnceNotEarly(s: Timers, e: Event, s1: Timers, es: seq<Event>, at: nat, i: nat)
    requires e.ScheduleTask? && Apply(s, e) == Some(s1) && e.task.schedule == Once(at) && ClocksAgree(s1, es, e.l)
    requires i < |Starts(s1, es, e.l)|
    ensures at * 1_000_000 <= Starts(s1, es, e.l)[i]
  {
    OnceFrom(s1, es, e.l, at);
  }

  // ----- what a one-shot task reports -----

  /** The last answer of the loop's handler among the events, after `before`. */
  ghost function LastAnswer(es: seq<Event>, l: nat, before: Option<bool>): Option<bool>
    decreases |es|
  {
    if es == [] then before
    else LastAnswer(es[1..], l, if es[0].InLoop? && es[0].l == l && es[0].step.Return? then Some(es[0].step.ok) else before)
  }

  ghost predicate OneShot(task: Task) {
    task.schedule.Delay? || task.schedule.Once?
  }

  /** The status agrees with the answer of the handler, if it has answered. */
  ghost predicate AnswerOk(loop: Loop, answer: Option<bool>) {
    OneShot(loop.task) && !loop.aborted ==>
      match loop.pc
      case Running(_) => answer.None?
      case Returned(_, ok) => answer == Some(ok)
      case Recording(ok) => answer == Some(ok)
      case Done => loop.status == if answer.None? then Scheduled else if answer.value then Completed else Failed
      case _ => answer.None? && loop.status == Scheduled
  }

  lemma {:induction false} AnswerOfLoop(
      now: nat, locks: Locks, owners: map<Token, Owner>, engine: Engine, l: nat, loop: Loop, e: LoopEvent, x: Effect,
      answer: Option<bool>)
    requires LoopStep(now, locks, owners, engine, l, loop, e) == Some(x) && AnswerOk(loop, answer)
    ensures AnswerOk(x.loop, if e.Return? then Some(e.ok) else answer)
  {
  }

  ghost predicate AnswerKept(s: Timers, l: nat, answer: Option<bool>) {
    if l in s.loops then AnswerOk(s.loops[l], answer) else answer.None?
  }

  lemma {:induction false} CallsKeepAnswer(s: Timers, e: Event, s': Timers, l: nat, answer: Option<bool>)
    requires e.ScheduleTask? || e.Cancel? || e.Shutdown?
    requires Apply(s, e) == Some(s') && AnswerKept(s, l, answer)
    ensures AnswerKept(s', l, answer)
  {
  }

  lemma {:induction false} AnswerRun(s: Timers, es: seq<Event>, s': Timers, l: nat, answer: Option<bool>)
    requires Run(s, es) == Some(s') && AnswerKept(s, l, answer)
    ensures AnswerKept(s', l, LastAnswer(es, l, answer))
    decreases |es|
  {
    if es != [] {
      var e, s1 := es[0], Apply(s, es[0]).value;
      var next := if e.InLoop? && e.l == l && e.step.Return? then Some(e.step.ok) else answer;
      if e.InLoop? {
        var engine := s.engines[s.loops[e.l].engine];
        var x := LoopStep(s.now, s.locks, s.owners, engine, e.l, s.loops[e.l], e.step).value;
        if e.l == l {
          AnswerOfLoop(s.now, s.locks, s.owners, engine, l, s.loops[l], e.step, x, answer);
        }
      } else if e.ScheduleTask? || e.Cancel? || e.Shutdown? {
        CallsKeepAnswer(s, e, s1, l, answer);
      }
      AnswerRun(s1, es[1..], s', l, next);
    }
  }

  /**
   A Delay or Once task that has ended by itself reports Completed if its handler answered Ok, Failed
   if it answered with an error, and Scheduled if it was never called.
   */
  lemma {:induction false} OneShotReportsAnswer(s: Timers, es: seq<Event>, s': Timers, l: nat)
    requires Initial(s) && Run(s, es) == Some(s') && l in s'.loops
    requires s'.loops[l].task.schedule.Delay? || s'.loops[l].task.schedule.Once?
    requires s'.loops[l].pc.Done? && !s'.loops[l].aborted
    ensures s'.loops[l].status == Completed <==> LastAnswer(es, l, None) == Some(true)
    ensures s'.loops[l].status == Failed <==> LastAnswer(es, l, None) == Some(false)
    ensures s'.loops[l].status == Scheduled <==> LastAnswer(es, l, None) == None
  {
    AnswerRun(s, es, s', l, None);
  }

  // ----- whose lock can keep a task from running -----

  /** Tasks share a lock key if and only if they have the same id. */
  lemma {:induction false} LockKeyIsId(a: Task, b: Task)
    ensures LockKey(a) == LockKey(b) <==> a.id == b.id
  {
    assert LockKey(a)[6..] == a.id && LockKey(b)[6..] == b.id;
  }

  /** The owner of each entry is on record, and an entry that a loop has made is under its task's key. */
  ghost predicate EntryKeyed(owners: map<Token, Owner>, loops: map<nat, Loop>, key: string, token: Token) {
    && token in owners
    && (owners[token].OfLoop? ==> owners[token].l in loops && key == LockKey(loops[owners[token].l].task))
  }

  ghost predicate OwnersKeyed(s: Timers) {
    forall k :: k in s.locks ==> EntryKeyed(s.owners, s.loops, k, s.locks[k].token)
  }

  lemma {:induction false} KeyOfLoop(
      now: nat, locks: Locks, owners: map<Token, Owner>, engine: Engine, l: nat, loop: Loop, e: LoopEvent, x: Effect)
    requires LoopStep(now, locks, owners, engine, l, loop, e) == Some(x)
    ensures x.loop.task == loop.task
    ensures forall k :: k in x.locks ==>
              || (k in locks && x.locks[k] == locks[k])
              || (k == LockKey(loop.task) && x.locks[k].token in x.owners && x.owners[x.locks[k].token] == OfLoop(l))
    ensures forall t :: t in owners ==> t in x.owners && x.owners[t] == owners[t]
  {
  }

  lemma {:induction false} LoopKeepsKeys(s: Timers, e: Event, s': Timers)
    requires OwnersKeyed(s) && e.InLoop? && Apply(s, e) == Some(s')
    ensures OwnersKeyed(s')
  {
    var engine := s.engines[s.loops[e.l].engine];
    var x := LoopStep(s.now, s.locks, s.owners, engine, e.l, s.loops[e.l], e.step).value;
    KeyOfLoop(s.now, s.locks, s.owners, engine, e.l, s.loops[e.l], e.step, x);
    forall k | k in s'.locks ensures EntryKeyed(s'.owners, s'.loops, k, s'.locks[k].token) {
      if k in s.locks && s'.locks[k] == s.locks[k] {
        assert EntryKeyed(s.owners, s.loops, k, s.locks[k].token);
      }
    }
  }

  lemma {:induction false} OutsideKeepsKeys(s: Timers, e: Event, s': Timers)
    requires OwnersKeyed(s) && (e.OutsideAcquire? || e.OutsideRelease? || e.OutsideExtend?) && Apply(s, e) == Some(s')
    ensures OwnersKeyed(s')
  {
    forall k | k in s'.locks ensures EntryKeyed(s'.owners, s'.loops, k, s'.locks[k].token) {
      if k in s.locks && s'.locks[k].token == s.locks[k].token {
        assert EntryKeyed(s.owners, s.loops, k, s.locks[k].token);
      }
    }
  }

  lemma {:induction false} RunKeepsKeys(s: Timers, es: seq<Event>, s': Timers)
    requires OwnersKeyed(s) && Run(s, es) == Some(s')
    ensures OwnersKeyed(s')
    decreases |es|
  {
    if es != [] {
      var e, s1 := es[0], Apply(s, es[0]).value;
      if e.InLoop? {
        LoopKeepsKeys(s, e, s1);
      } else if e.ScheduleTask? || e.Cancel? || e.Shutdown? {
        CallsKeepLoops(s, e, s1);
        forall k | k in s1.locks ensures EntryKeyed(s1.owners, s1.loops, k, s1.locks[k].token) {
          assert EntryKeyed(s.owners, s.loops, k, s.locks[k].token);
        }
      } else if !e.Tick? {
        OutsideKeepsKeys(s, e, s1);
      }
      RunKeepsKeys(s1, es[1..], s');
    }
  }

  /**
   When nothing but clients outside the engines had locked anything before, a loop that finds its
   lock taken is kept out by an unexpired entry of a client outside or of a loop of a task with the
   same id: tasks with different ids never get in each other's way.
   */
  lemma {:induction false} OnlyOwnIdBlocks(s: Timers, es: seq<Event>, s': Timers, l: nat, token: Token)
    requires Initial(s) && (forall k :: k in s.locks ==> s.locks[k].token in s.owners && s.owners[s.locks[k].token] == Outside)
    requires Run(s, es) == Some(s') && l in s'.loops && s'.loops[l].pc.AtLock?
    requires s'.loops[l].engine in s'.engines && NeedsLock(s'.engines[s'.loops[l].engine].locked, s'.loops[l].task)
    requires token !in s'.owners && !Apply(s', InLoop(l, TryLock(token))).value.loops[l].pc.Running?
    ensures
      var key := LockKey(s'.loops[l].task);
      && key in s'.locks && s'.now < s'.locks[key].expiresAt && s'.locks[key].token in s'.owners
      && var owner := s'.owners[s'.locks[key].token];
         owner.OfLoop? ==> owner.l in s'.loops && s'.loops[owner.l].task.id == s'.loops[l].task.id
  {
    RunKeepsKeys(s, es, s');
    var key := LockKey(s'.loops[l].task);
    assert EntryKeyed(s'.owners, s'.loops, key, s'.locks[key].token);
    var owner := s'.owners[s'.locks[key].token];
    if owner.OfLoop? {
      LockKeyIsId(s'.loops[owner.l].task, s'.loops[l].task);
    }
  }

  // ----- the lock under a run -----

  /** The operation on the lock that an event is, if it is one. */
  ghost function OpOf(s: Timers, e: Event): Option<Op> {
    match e
    case Tick(ns) => Some(Advance(ns))
    case OutsideAcquire(key, ttl, token) => Some(Op.TryAcquire(key, ttl, token))
    case OutsideRelease(h) => Some(Op.Release(h))
    case OutsideExtend(h, ttl) => Some(Op.Extend(h, ttl))
    case InLoop(l, TryLock(token)) =>
      if l in s.loops && s.loops[l].engine in s.engines && NeedsLock(s.engines[s.loops[l].engine].locked, s.loops[l].task)
      then Some(Op.TryAcquire(LockKey(s.loops[l].task), LockTtl(s.loops[l].task), token)) else None
    case InLoop(l, ReleaseLock) =>
      if l in s.loops && s.loops[l].pc.Returned? && s.loops[l].pc.lease.Some?
      then Some(Op.Release(s.loops[l].pc.lease.value.handle)) else None
    case _ => None
  }

  ghost function OpsOf(s: Timers, es: seq<Event>): seq<Op>
    decreases |es|
  {
    if es == [] || Apply(s, es[0]).None? then []
    else (if OpOf(s, es[0]).Some? then [OpOf(s, es[0]).value] else []) + OpsOf(Apply(s, es[0]).value, es[1..])
  }

  lemma {:induction false} EventIsOp(s: Timers, e: Event, s': Timers, l: Ledger)
    requires Apply(s, e) == Some(s') && l.now == s.now && l.locks == s.locks
    ensures
      var op := OpOf(s, e);
      if op.Some? then Step(l, op.value).now == s'.now && Step(l, op.value).locks == s'.locks
      else s'.now == s.now && s'.locks == s.locks
  {
  }

  /**
   A run of engines and outside clients does to the lock exactly what its operations do one after
   another, so that whatever is proved of runs of the lock holds under the engines as well.
   */
  lemma {:induction false} RunIsLockRun(s: Timers, es: seq<Event>, s': Timers, l: Ledger)
    requires Run(s, es) == Some(s') && l.now == s.now && l.locks == s.locks
    ensures After(l, OpsOf(s, es)).now == s'.now && After(l, OpsOf(s, es)).locks == s'.locks
    decreases |es|
  {
    if es != [] {
      var s1, op, later := Apply(s, es[0]).value, OpOf(s, es[0]), OpsOf(Apply(s, es[0]).value, es[1..]);
      EventIsOp(s, es[0], s1, l);
      if op.Some? {
        RunIsLockRun(s1, es[1..], s', Step(l, op.value));
        assert ([op.value] + later)[1..] == later;
      } else {
        RunIsLockRun(s1, es[1..], s', l);
        assert [] + later == later;
      }
    }
  }

  /** Only an unreadable cron expression is not scheduled; every other task has a loop from then on, and its id. */
  lemma {:induction false} ScheduledIff(s: Timers, n: nat, l: nat, task: Task, nowMs: nat, cron: Option<int>)
    requires n in s.engines && l !in s.loops
    ensures Apply(s, ScheduleTask(n, l, task, nowMs, cron)).Some? <==> !(task.schedule.Cron? && cron.None?)
    ensures
      var s' := Apply(s, ScheduleTask(n, l, task, nowMs, cron));
      s'.Some? ==> Known(s'.value, l) && s'.value.loops[l].task == task && s'.value.loops[l].started == 0
  {
  }
}
