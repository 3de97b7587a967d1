/**
 The in-process timer engine: each scheduled task is a loop that sleeps, takes a permit of its
 engine, takes the cluster-wide lock when the task asks for it, runs the handler and goes round
 again. Engines share one lock with each other and with outside clients. A state machine whose
 events are single steps of one loop, calls on an engine, and uses of the lock by others.
 */
module TimerEngine {
  import opened Wrappers
  import opened MemoryLock
  import opened TimerTasks

  datatype Timers = Timers(
    now: nat, locks: Locks, owners: map<Token, Owner>, engines: map<nat, Engine>, loops: map<nat, Loop>)

  datatype Event =
    | InLoop(l: nat, step: LoopEvent)
    | ScheduleTask(engine: nat, l: nat, task: Task, nowMs: nat, cron: Option<int>)
    | Cancel(engine: nat, id: string)
    | Shutdown(engine: nat)
    | Tick(ns: nat)
    | OutsideAcquire(key: string, ttl: nat, token: Token)
    | OutsideRelease(handle: LockHandle)
    | OutsideExtend(handle: LockHandle, ttl: nat)

  ghost function Abort(loops: map<nat, Loop>, which: set<nat>): map<nat, Loop> {
    map l | l in loops :: if l in which then loops[l].(aborted := true) else loops[l]
  }

  ghost function Apply(s: Timers, e: Event): Option<Timers> {
    match e
    case InLoop(l, step) =>
      if l in s.loops && s.loops[l].engine in s.engines then
        var engine := s.engines[s.loops[l].engine];
        match LoopStep(s.now, s.locks, s.owners, engine, l, s.loops[l], step)
        case None => None
        case Some(x) =>
          Some(Timers(s.now, x.locks, x.owners,
                      s.engines[s.loops[l].engine := engine.(permits := x.permits)], s.loops[l := x.loop]))
      else None
    case ScheduleTask(n, l, task, nowMs, cron) =>
      // an id that is already scheduled is overwritten; its loop goes on
      if n in s.engines && l !in s.loops && NextFire(task.schedule, nowMs, cron).Some? then
        var engine := s.engines[n];
        Some(s.(engines := s.engines[n := engine.(tasks := engine.tasks[task.id := l])],
                loops := s.loops[l := Loop(n, task, Head, Scheduled, 0, 0, 0, false)]))
      else None
    case Cancel(n, id) =>
      if n in s.engines && id in s.engines[n].tasks then
        var engine := s.engines[n];
        var l := engine.tasks[id];
        Some(s.(engines := s.engines[n := engine.(tasks := engine.tasks - {id})],
                loops := if l in s.loops then s.loops[l := s.loops[l].(aborted := true, status := Cancelled)]
                         else s.loops))
      else None
    case Shutdown(n) =>
      if n in s.engines then
        Some(s.(engines := s.engines[n := s.engines[n].(tasks := map[])],
                loops := Abort(s.loops, s.engines[n].tasks.Values)))
      else None
    case Tick(ns) => Some(s.(now := s.now + ns))
    case OutsideAcquire(key, ttl, token) =>
      if !Free(s.locks, key, s.now) then Some(s)
      else if token in s.owners then None
      else Some(s.(locks := AfterAcquire(s.locks, key, ttl, s.now, token), owners := s.owners[token := Outside]))
    case OutsideRelease(h) =>
      // nobody outside holds a handle of a loop
      if h.token in s.owners && s.owners[h.token] == Outside then Some(s.(locks := AfterRelease(s.locks, h))) else None
    case OutsideExtend(h, ttl) =>
      if h.token in s.owners && s.owners[h.token] == Outside then
        Some(s.(locks := AfterExtend(s.locks, h, ttl, s.now)))
      else None
  }

  ghost function Run(s: Timers, es: seq<Event>): Option<Timers>
    decreases |es|
  {
    if es == [] then Some(s)
    else
      match Apply(s, es[0])
      case None => None
      case Some(s') => Run(s', es[1..])
  }

  /** Engines with all their permits and nothing scheduled yet; the lock may be in use by others. */
  ghost predicate Initial(s: Timers) {
    && s.loops == map[]
    && forall n :: n in s.engines ==> s.engines[n].permits == s.engines[n].capacity && s.engines[n].tasks == map[]
  }

  // ----- the lease of a running handler -----

  ghost function LeaseOf(pc: Pc): Option<Lease> {
    match pc
    case Running(lease) => lease
    case Returned(lease, _) => lease
    case _ => None
  }

  /** The lease is the loop's own, and until it runs out the lock says so. */
  ghost predicate LeaseOk(now: nat, locks: Locks, owners: map<Token, Owner>, l: nat, task: Task, lease: Lease) {
    && lease.handle.key == LockKey(task)
    && lease.handle.token in owners && owners[lease.handle.token] == OfLoop(l)
    && (now < lease.expiry ==>
          lease.handle.key in locks && locks[lease.handle.key] == LockEntry(lease.handle.token, lease.expiry))
    && (lease.handle.key in locks && locks[lease.handle.key].token == lease.handle.token ==>
          locks[lease.handle.key].expiresAt == lease.expiry)
  }

  ghost predicate LeasesOk(s: Timers) {
    forall l :: l in s.loops && LeaseOf(s.loops[l].pc).Some? ==>
      LeaseOk(s.now, s.locks, s.owners, l, s.loops[l].task, LeaseOf(s.loops[l].pc).value)
  }

  /** What an event may do to the lock: nothing to an unexpired entry that somebody else owns. */
  ghost predicate Respects(
      now: nat, locks: Locks, owners: map<Token, Owner>, locks': Locks, owners': map<Token, Owner>, who: Owner)
  {
    && (forall t :: t in owners ==> t in owners' && owners'[t] == owners[t])
    && (forall k :: k in locks && now < locks[k].expiresAt && locks[k].token in owners && owners[locks[k].token] != who
                    ==> k in locks' && locks'[k] == locks[k])
    && (forall k :: k in locks' && locks'[k].token in owners && owners[locks'[k].token] != who
                    ==> k in locks && locks'[k] == locks[k])
  }

  lemma {:induction false} StepRespects(
      now: nat, locks: Locks, owners: map<Token, Owner>, engine: Engine, l: nat, loop: Loop, e: LoopEvent, x: Effect)
    requires LoopStep(now, locks, owners, engine, l, loop, e) == Some(x)
    requires LeaseOf(loop.pc).Some? ==> LeaseOk(now, locks, owners, l, loop.task, LeaseOf(loop.pc).value)
    ensures Respects(now, locks, owners, x.locks, x.owners, OfLoop(l))
    ensures LeaseOf(x.loop.pc).Some? ==> LeaseOk(now, x.locks, x.owners, l, x.loop.task, LeaseOf(x.loop.pc).value)
    ensures x.loop.task == loop.task && x.loop.engine == loop.engine && x.loop.aborted == loop.aborted
  {
  }

  lemma {:induction false} OutsideRespects(s: Timers, e: Event, s': Timers)
    requires e.OutsideAcquire? || e.OutsideRelease? || e.OutsideExtend?
    requires Apply(s, e) == Some(s')
    ensures Respects(s.now, s.locks, s.owners, s'.locks, s'.owners, Outside)
    ensures s' == s.(locks := s'.locks, owners := s'.owners)
  {
  }

  lemma {:induction false} LeaseSurvives(
      s: Timers, s': Timers, who: Owner, l: nat, task: Task, lease: Lease)
    requires Respects(s.now, s.locks, s.owners, s'.locks, s'.owners, who) && who != OfLoop(l) && s.now <= s'.now
    requires LeaseOk(s.now, s.locks, s.owners, l, task, lease)
    ensures LeaseOk(s'.now, s'.locks, s'.owners, l, task, lease)
  {
  }

  lemma {:induction false} LoopKeepsLeases(s: Timers, e: Event, s': Timers)
    requires LeasesOk(s) && e.InLoop? && Apply(s, e) == Some(s')
    ensures LeasesOk(s')
  {
    var engine := s.engines[s.loops[e.l].engine];
    var x := LoopStep(s.now, s.locks, s.owners, engine, e.l, s.loops[e.l], e.step).value;
    StepRespects(s.now, s.locks, s.owners, engine, e.l, s.loops[e.l], e.step, x);
    forall l | l in s'.loops && LeaseOf(s'.loops[l].pc).Some?
      ensures LeaseOk(s'.now, s'.locks, s'.owners, l, s'.loops[l].task, LeaseOf(s'.loops[l].pc).value)
    {
      if l != e.l {
        LeaseSurvives(s, s', OfLoop(e.l), l, s.loops[l].task, LeaseOf(s.loops[l].pc).value);
      }
    }
  }

  /** Calls on an engine leave the lock and every step of every loop alone. */
  lemma {:induction false} CallsKeepLoops(s: Timers, e: Event, s': Timers)
    requires e.ScheduleTask? || e.Cancel? || e.Shutdown?
    requires Apply(s, e) == Some(s')
    ensures s'.now == s.now && s'.locks == s.locks && s'.owners == s.owners
    ensures forall l :: l in s.loops ==>
              && l in s'.loops && s'.loops[l].pc == s.loops[l].pc && s'.loops[l].task == s.loops[l].task
              && s'.loops[l].engine == s.loops[l].engine && (s.loops[l].aborted ==> s'.loops[l].aborted)
              && s'.loops[l].runCount == s.loops[l].runCount && s'.loops[l].started == s.loops[l].started
              && s'.loops[l].returned == s.loops[l].returned
    ensures forall l :: l in s'.loops && l !in s.loops ==> s'.loops[l].pc.Head?
    ensures forall l :: l in s'.loops && l !in s.loops ==>
              s'.loops[l].runCount == s'.loops[l].started == s'.loops[l].returned == 0
    ensures s'.engines.Keys == s.engines.Keys
    ensures forall n :: n in s.engines ==>
              && s'.engines[n].permits == s.engines[n].permits && s'.engines[n].capacity == s.engines[n].capacity
              && s'.engines[n].locked == s.engines[n].locked
  {
  }

  lemma {:induction false} LeasesStep(s: Timers, e: Event, s': Timers)
    requires LeasesOk(s) && Apply(s, e) == Some(s')
    ensures LeasesOk(s')
  {
    match e
    case InLoop(_, _) => LoopKeepsLeases(s, e, s');
    case ScheduleTask(_, _, _, _, _) => CallsKeepLoops(s, e, s');
    case Cancel(_, _) => CallsKeepLoops(s, e, s');
    case Shutdown(_) => CallsKeepLoops(s, e, s');
    case Tick(_) =>
    case _ =>
      OutsideRespects(s, e, s');
      forall l | l in s'.loops && LeaseOf(s'.loops[l].pc).Some?
        ensures LeaseOk(s'.now, s'.locks, s'.owners, l, s'.loops[l].task, LeaseOf(s'.loops[l].pc).value)
      {
        LeaseSurvives(s, s', Outside, l, s.loops[l].task, LeaseOf(s.loops[l].pc).value);
      }
  }

  // ----- a Cluster task runs once at a time -----

  /** Every running handler of a Cluster task on a locking engine has a lease. */
  ghost predicate Guarded(s: Timers) {
    forall l :: l in s.loops && s.loops[l].pc.Running? && s.loops[l].engine in s.engines
                && NeedsLock(s.engines[s.loops[l].engine].locked, s.loops[l].task)
                ==> s.loops[l].pc.lease.Some?
  }

  ghost predicate LockAnswers(es: seq<Event>) {
    forall i :: 0 <= i < |es| ==> !(es[i].InLoop? && es[i].step.LockErrs?)
  }

  ghost predicate InTime(s: Timers) {
    forall l :: l in s.loops && s.loops[l].pc.Running? && s.loops[l].pc.lease.Some? ==>
      s.now < s.loops[l].pc.lease.value.expiry
  }

  lemma {:induction false} StepGuarded(
      now: nat, locks: Locks, owners: map<Token, Owner>, engine: Engine, l: nat, loop: Loop, e: LoopEvent, x: Effect)
    requires LoopStep(now, locks, owners, engine, l, loop, e) == Some(x) && !e.LockErrs?
    requires x.loop.pc.Running? && NeedsLock(engine.locked, x.loop.task)
    ensures x.loop.pc.lease.Some?
  {
  }

  lemma {:induction false} GuardedStep(s: Timers, e: Event, s': Timers)
    requires Guarded(s) && LeasesOk(s) && Apply(s, e) == Some(s') && !(e.InLoop? && e.step.LockErrs?)
    ensures Guarded(s')
  {
    match e
    case InLoop(l, step) =>
      var engine := s.engines[s.loops[l].engine];
      var x := LoopStep(s.now, s.locks, s.owners, engine, l, s.loops[l], step).value;
      StepRespects(s.now, s.locks, s.owners, engine, l, s.loops[l], step, x);
      if x.loop.pc.Running? && NeedsLock(engine.locked, x.loop.task) {
        StepGuarded(s.now, s.locks, s.owners, engine, l, s.loops[l], step, x);
      }
    case ScheduleTask(_, _, _, _, _) => CallsKeepLoops(s, e, s');
    case Cancel(_, _) => CallsKeepLoops(s, e, s');
    case Shutdown(_) => CallsKeepLoops(s, e, s');
    case Tick(_) =>
    case _ => OutsideRespects(s, e, s');
  }

  lemma {:induction false} RunKeepsLeases(s: Timers, es: seq<Event>, s': Timers)
    requires LeasesOk(s) && Run(s, es) == Some(s')
    ensures LeasesOk(s')
    ensures Guarded(s) && LockAnswers(es) ==> Guarded(s')
    decreases |es|
  {
    if es != [] {
      var s1 := Apply(s, es[0]).value;
      LeasesStep(s, es[0], s1);
      if Guarded(s) && LockAnswers(es) {
        GuardedStep(s, es[0], s1);
      }
      RunKeepsLeases(s1, es[1..], s');
    }
  }

  /** Of two handlers running under leases for one task, at least one has outlived its lease. */
  lemma {:induction false} TwoLeases(s: Timers, i: nat, j: nat)
    requires LeasesOk(s) && i in s.loops && j in s.loops && i != j
    requires LeaseOf(s.loops[i].pc).Some? && LeaseOf(s.loops[j].pc).Some? && s.loops[i].task.id == s.loops[j].task.id
    ensures LeaseOf(s.loops[i].pc).value.expiry <= s.now || LeaseOf(s.loops[j].pc).value.expiry <= s.now
  {
  }

  /**
   Any number of engines, loops, cancellations and outside users of the lock: as long as the lock
   answers and every handler run has ended before its lock expired, no two handlers of the same
   Cluster task are ever running at once on engines that use the lock.
   */
  lemma {:induction false} ClusterTaskRunsOnce(s: Timers, es: seq<Event>, s': Timers, i: nat, j: nat)
    requires Initial(s) && Run(s, es) == Some(s') && LockAnswers(es) && InTime(s')
    requires i in s'.loops && j in s'.loops && s'.loops[i].task.id == s'.loops[j].task.id
    requires s'.loops[i].engine in s'.engines && NeedsLock(s'.engines[s'.loops[i].engine].locked, s'.loops[i].task)
    requires s'.loops[j].engine in s'.engines && NeedsLock(s'.engines[s'.loops[j].engine].locked, s'.loops[j].task)
    requires s'.loops[i].pc.Running? && s'.loops[j].pc.Running?
    ensures i == j
  {
    RunKeepsLeases(s, es, s');
    if i != j {
      TwoLeases(s', i, j);
    }
  }

  /**
   While one handler holds a lease, another loop gets past the lock for the same task exactly when
   the lease has run out and no third client has taken the lock since for longer than now.
   */
  lemma {:induction false} SecondRunsIffExpired(s: Timers, i: nat, j: nat, lease: Lease, token: Token)
    requires LeasesOk(s) && i in s.loops && j in s.loops && LeaseOf(s.loops[i].pc) == Some(lease)
    requires s.loops[j].pc.AtLock? && s.loops[j].task.id == s.loops[i].task.id && token !in s.owners
    requires s.loops[j].engine in s.engines && NeedsLock(s.engines[s.loops[j].engine].locked, s.loops[j].task)
    ensures Apply(s, InLoop(j, TryLock(token))).Some?
    ensures Apply(s, InLoop(j, TryLock(token))).value.loops[j].pc.Running? <==>
            && lease.expiry <= s.now
            && (lease.handle.key in s.locks && s.locks[lease.handle.key].token != lease.handle.token ==>
                  s.locks[lease.handle.key].expiresAt <= s.now)
  {
  }

  // ----- a dropped loop keeps its lock -----

  /** The entry belongs to a loop that is over. */
  ghost predicate Abandoned(s: Timers, key: string, l: nat) {
    && key in s.locks && s.locks[key].token in s.owners && s.owners[s.locks[key].token] == OfLoop(l)
    && l in s.loops && s.loops[l].pc.Done?
  }

  lemma {:induction false} AbandonedStep(s: Timers, e: Event, s': Timers, key: string, l: nat)
    requires LeasesOk(s) && Abandoned(s, key, l) && Apply(s, e) == Some(s') && s'.now < s.locks[key].expiresAt
    ensures Abandoned(s', key, l) && s'.locks[key] == s.locks[key]
  {
    match e
    case InLoop(k, step) =>
      var engine := s.engines[s.loops[k].engine];
      var x := LoopStep(s.now, s.locks, s.owners, engine, k, s.loops[k], step).value;
      StepRespects(s.now, s.locks, s.owners, engine, k, s.loops[k], step, x);
      assert k != l;
    case ScheduleTask(_, _, _, _, _) => CallsKeepLoops(s, e, s');
    case Cancel(_, _) => CallsKeepLoops(s, e, s');
    case Shutdown(_) => CallsKeepLoops(s, e, s');
    case Tick(_) =>
    case _ => OutsideRespects(s, e, s');
  }

  lemma {:induction false} AbandonedRun(s: Timers, es: seq<Event>, s': Timers, key: string, l: nat)
    requires LeasesOk(s) && Abandoned(s, key, l) && Run(s, es) == Some(s') && s'.now < s.locks[key].expiresAt
    ensures Abandoned(s', key, l) && s'.locks[key] == s.locks[key] && LeasesOk(s')
    decreases |es|
  {
    if es != [] {
      var s1 := Apply(s, es[0]).value;
      NowGrows(s1, es[1..], s');
      AbandonedStep(s, es[0], s1, key, l);
      LeasesStep(s, es[0], s1);
      AbandonedRun(s1, es[1..], s', key, l);
    }
  }

  lemma {:induction false} NowGrows(s: Timers, es: seq<Event>, s': Timers)
    requires Run(s, es) == Some(s')
    ensures s.now <= s'.now
    decreases |es|
  {
    if es != [] {
      var s1 := Apply(s, es[0]).value;
      assert s.now <= s1.now;
      NowGrows(s1, es[1..], s');
    }
  }

  /**
   A loop that is aborted while it holds a lease, its handler running or just returned, gives back
   its permit at once but never releases the lock. The entry stays at least until the lease runs
   out, and as long as it is there a loop that needs the lock can run the task, on any engine,
   exactly when the lease has run out.
   */
  lemma {:induction false} DroppedLoopBlocksTask(
      s: Timers, l: nat, lease: Lease, s1: Timers, es: seq<Event>, s': Timers, j: nat, token: Token)
    requires LeasesOk(s) && l in s.loops && LeaseOf(s.loops[l].pc) == Some(lease) && s.now < lease.expiry
    requires Apply(s, InLoop(l, Drop)) == Some(s1) && Run(s1, es) == Some(s')
    requires j in s'.loops && s'.loops[j].task.id == s.loops[l].task.id && s'.loops[j].pc.AtLock?
    requires s'.loops[j].engine in s'.engines && NeedsLock(s'.engines[s'.loops[j].engine].locked, s'.loops[j].task)
    requires token !in s'.owners
    ensures s1.engines[s.loops[l].engine].permits == s.engines[s.loops[l].engine].permits + 1 && s1.locks == s.locks
    ensures Apply(s', InLoop(j, TryLock(token))).Some?
    ensures
      var key, entry := lease.handle.key, LockEntry(lease.handle.token, lease.expiry);
      var held := key in s'.locks && s'.locks[key] == entry;
      && (s'.now < lease.expiry ==> held)
      && (held ==> (Apply(s', InLoop(j, TryLock(token))).value.loops[j].pc.Running? <==> lease.expiry <= s'.now))
  {
    NowGrows(s1, es, s');
    assert LeaseOk(s.now, s.locks, s.owners, l, s.loops[l].task, lease);
    LeasesStep(s, InLoop(l, Drop), s1);
    if s'.now < lease.expiry {
      AbandonedRun(s1, es, s', lease.handle.key, l);
    }
  }

  // ----- permits -----

  ghost function Holders(s: Timers, n: nat): set<nat> {
    set l | l in s.loops && s.loops[l].engine == n && HoldsPermit(s.loops[l].pc)
  }

  /** Free permits and loops holding one add up to the engine's capacity. */
  ghost predicate PermitsOk(s: Timers) {
    && (forall n :: n in s.engines ==> s.engines[n].permits + |Holders(s, n)| == s.engines[n].capacity)
    && (forall l :: l in s.loops ==> s.loops[l].engine in s.engines)
  }

  function Held(pc: Pc): nat {
    if HoldsPermit(pc) then 1 else 0
  }

  lemma {:induction false} StepPermits(
      now: nat, locks: Locks, owners: map<Token, Owner>, engine: Engine, l: nat, loop: Loop, e: LoopEvent, x: Effect)
    requires LoopStep(now, locks, owners, engine, l, loop, e) == Some(x)
    ensures x.permits + Held(x.loop.pc) == engine.permits + Held(loop.pc) && x.loop.engine == loop.engine
  {
  }

  lemma {:induction false} HoldersChange(s: Timers, s': Timers, l: nat, n: nat)
    requires l in s.loops && l in s'.loops && s'.loops[l].engine == s.loops[l].engine == n
    requires s'.loops == s.loops[l := s'.loops[l]]
    ensures |Holders(s', n)| + Held(s.loops[l].pc) == |Holders(s, n)| + Held(s'.loops[l].pc)
  {
    OtherHolders(s, s', l, n);
    var rest := Holders(s, n) - {l};
    WithOne(Holders(s, n), rest, l, HoldsPermit(s.loops[l].pc));
    WithOne(Holders(s', n), rest, l, HoldsPermit(s'.loops[l].pc));
  }

  lemma {:induction false} OtherHolders(s: Timers, s': Timers, l: nat, n: nat)
    requires l in s.loops && l in s'.loops && s'.loops == s.loops[l := s'.loops[l]]
    ensures Holders(s', n) - {l} == Holders(s, n) - {l}
  {
  }

  lemma {:induction false} WithOne(all: set<nat>, rest: set<nat>, l: nat, holds: bool)
    requires rest == all - {l} && (l in all <==> holds)
    ensures |all| == |rest| + if holds then 1 else 0
  {
    assert all == if holds then rest + {l} else rest;
  }

  lemma {:induction false} LoopPermits(s: Timers, e: Event, s': Timers)
    requires PermitsOk(s) && e.InLoop? && Apply(s, e) == Some(s')
    ensures PermitsOk(s') && forall n :: n in s.engines ==> n in s'.engines && s'.engines[n].capacity == s.engines[n].capacity
  {
    var home := s.loops[e.l].engine;
    var x := LoopStep(s.now, s.locks, s.owners, s.engines[home], e.l, s.loops[e.l], e.step).value;
    StepPermits(s.now, s.locks, s.owners, s.engines[home], e.l, s.loops[e.l], e.step, x);
    HoldersChange(s, s', e.l, home);
    forall n | n in s'.engines ensures s'.engines[n].permits + |Holders(s', n)| == s'.engines[n].capacity {
      if n != home {
        assert Holders(s', n) == Holders(s, n);
      }
    }
  }

  lemma {:induction false} SameHolders(s: Timers, s': Timers, n: nat)
    requires forall l :: l in s.loops ==>
               l in s'.loops && s'.loops[l].pc == s.loops[l].pc && s'.loops[l].engine == s.loops[l].engine
    requires forall l :: l in s'.loops && l !in s.loops ==> s'.loops[l].pc.Head?
    ensures Holders(s', n) == Holders(s, n)
  {
  }

  lemma {:induction false} CallsKeepPermits(s: Timers, e: Event, s': Timers)
    requires PermitsOk(s) && (e.ScheduleTask? || e.Cancel? || e.Shutdown?) && Apply(s, e) == Some(s')
    ensures PermitsOk(s') && forall n :: n in s.engines ==> n in s'.engines && s'.engines[n].capacity == s.engines[n].capacity
  {
    CallsKeepLoops(s, e, s');
    forall n | n in s'.engines ensures Holders(s', n) == Holders(s, n) {
      SameHolders(s, s', n);
    }
  }

  lemma {:induction false} PermitsStep(s: Timers, e: Event, s': Timers)
    requires PermitsOk(s) && Apply(s, e) == Some(s')
    ensures PermitsOk(s') && forall n :: n in s.engines ==> n in s'.engines && s'.engines[n].capacity == s.engines[n].capacity
  {
    if e.InLoop? {
      LoopPermits(s, e, s');
    } else if e.ScheduleTask? || e.Cancel? || e.Shutdown? {
      CallsKeepPermits(s, e, s');
    } else {
      assert s'.loops == s.loops && s'.engines == s.engines;
      forall n | n in s'.engines ensures Holders(s', n) == Holders(s, n) {
      }
    }
  }

  ghost function RunningOn(s: Timers, n: nat): set<nat> {
    set l | l in s.loops && s.loops[l].engine == n && s.loops[l].pc.Running?
  }

  /** At every point of every run, an engine runs at most `capacity` handlers at once. */
  lemma {:induction false} AtMostCapacityRunning(s: Timers, es: seq<Event>, s': Timers, n: nat)
    requires Initial(s) && Run(s, es) == Some(s') && n in s.engines
    ensures n in s'.engines && s'.engines[n].capacity == s.engines[n].capacity
    ensures s'.engines[n].permits + |Holders(s', n)| == s.engines[n].capacity
    ensures |RunningOn(s', n)| <= s.engines[n].capacity
  {
    forall m | m in s.engines ensures Holders(s, m) == {} {
    }
    RunKeepsPermits(s, es, s');
    Fewer(RunningOn(s', n), Holders(s', n));
  }

  lemma {:induction false} Fewer(a: set<nat>, b: set<nat>)
    requires a <= b
    ensures |a| <= |b|
  {
    assert b == a + (b - a);
  }

  lemma {:induction false} RunKeepsPermits(s: Timers, es: seq<Event>, s': Timers)
    requires PermitsOk(s) && Run(s, es) == Some(s')
    ensures PermitsOk(s')
    ensures forall n :: n in s.engines ==> n in s'.engines && s'.engines[n].capacity == s.engines[n].capacity
    decreases |es|
  {
    if es != [] {
      var s1 := Apply(s, es[0]).value;
      PermitsStep(s, es[0], s1);
      RunKeepsPermits(s1, es[1..], s');
    }
  }

  // ----- how often a handler is called -----

  ghost predicate CountsOk(loop: Loop) {
    match loop.pc
    case Running(_) => loop.started == loop.returned + 1 && loop.returned == loop.runCount
                       && (!Recurring(loop.task) ==> loop.started == 1)
    case Returned(_, _) => loop.started == loop.returned == loop.runCount + 1 && (!Recurring(loop.task) ==> loop.started == 1)
    case Recording(_) => loop.started == loop.returned == loop.runCount + 1 && (!Recurring(loop.task) ==> loop.started == 1)
    case Done => loop.runCount <= loop.returned <= loop.started <= loop.runCount + 1
                 && (!loop.aborted ==> loop.started == loop.runCount) && (!Recurring(loop.task) ==> loop.started <= 1)
    case _ => loop.started == loop.returned == loop.runCount && (!Recurring(loop.task) ==> loop.started == 0)
  }

  lemma {:induction false} StepCounts(
      now: nat, locks: Locks, owners: map<Token, Owner>, engine: Engine, l: nat, loop: Loop, e: LoopEvent, x: Effect)
    requires LoopStep(now, locks, owners, engine, l, loop, e) == Some(x) && CountsOk(loop)
    ensures CountsOk(x.loop)
  {
  }

  /** A call on an engine changes of a loop no more than its status and whether it is aborted. */
  lemma {:induction false} CallsKeepCounts(s: Timers, e: Event, s': Timers, l: nat)
    requires e.ScheduleTask? || e.Cancel? || e.Shutdown?
    requires Apply(s, e) == Some(s') && l in s'.loops && (l in s.loops ==> CountsOk(s.loops[l]))
    ensures CountsOk(s'.loops[l])
  {
    CallsKeepLoops(s, e, s');
  }

  ghost predicate AllCountsOk(s: Timers) {
    forall l :: l in s.loops ==> CountsOk(s.loops[l])
  }

  lemma {:induction false} CountsStep(s: Timers, e: Event, s': Timers)
    requires AllCountsOk(s) && Apply(s, e) == Some(s')
    ensures AllCountsOk(s')
  {
    if e.InLoop? {
      var engine := s.engines[s.loops[e.l].engine];
      var x := LoopStep(s.now, s.locks, s.owners, engine, e.l, s.loops[e.l], e.step).value;
      StepCounts(s.now, s.locks, s.owners, engine, e.l, s.loops[e.l], e.step, x);
    } else if e.ScheduleTask? || e.Cancel? || e.Shutdown? {
      forall l | l in s'.loops ensures CountsOk(s'.loops[l]) {
        CallsKeepCounts(s, e, s', l);
      }
    } else {
      assert s'.loops == s.loops;
    }
  }

  lemma {:induction false} RunKeepsCounts(s: Timers, es: seq<Event>, s': Timers)
    requires AllCountsOk(s) && Run(s, es) == Some(s')
    ensures AllCountsOk(s')
    decreases |es|
  {
    if es != [] {
      var s1 := Apply(s, es[0]).value;
      CountsStep(s, es[0], s1);
      RunKeepsCounts(s1, es[1..], s');
    }
  }

  /**
   A Delay or Once task calls its handler at most once. At the head of the loop the reported run
   count is the number of calls that have returned, whatever the calls answered; the same holds of
   a loop that has ended by itself.
   */
  lemma {:induction false} HandlerCalls(s: Timers, es: seq<Event>, s': Timers, l: nat)
    requires Initial(s) && Run(s, es) == Some(s') && l in s'.loops
    ensures s'.loops[l].task.schedule.Delay? || s'.loops[l].task.schedule.Once? ==> s'.loops[l].started <= 1
    ensures s'.loops[l].pc.Head? || (s'.loops[l].pc.Done? && !s'.loops[l].aborted) ==>
              s'.loops[l].runCount == s'.loops[l].returned == s'.loops[l].started
  {
    RunKeepsCounts(s, es, s');
    assert CountsOk(s'.loops[l]);
  }

  // ----- what a loop that ends by itself reports -----

  ghost predicate StatusOk(loop: Loop) {
    !loop.aborted ==>
      match loop.pc
      case Running(_) => loop.status == InProgress
      case Returned(_, _) => loop.status == InProgress
      case Recording(_) => loop.status == InProgress
      case Done =>
        if Recurring(loop.task) then loop.status == Failed
        else if loop.runCount == 0 then loop.status == Scheduled
        else loop.status == Completed || loop.status == Failed
      case _ => loop.status == Scheduled && (!Recurring(loop.task) ==> loop.runCount == 0)
  }

  lemma {:induction false} StepStatus(
      now: nat, locks: Locks, owners: map<Token, Owner>, engine: Engine, l: nat, loop: Loop, e: LoopEvent, x: Effect)
    requires LoopStep(now, locks, owners, engine, l, loop, e) == Some(x) && StatusOk(loop)
    ensures StatusOk(x.loop)
  {
  }

  lemma {:induction false} CallsKeepStatus(s: Timers, e: Event, s': Timers, l: nat)
    requires e.ScheduleTask? || e.Cancel? || e.Shutdown?
    requires Apply(s, e) == Some(s') && l in s'.loops && (l in s.loops ==> StatusOk(s.loops[l]))
    ensures StatusOk(s'.loops[l])
  {
  }

  ghost predicate AllStatusOk(s: Timers) {
    forall l :: l in s.loops ==> StatusOk(s.loops[l])
  }

  lemma {:induction false} StatusStep(s: Timers, e: Event, s': Timers)
    requires AllStatusOk(s) && Apply(s, e) == Some(s')
    ensures AllStatusOk(s')
  {
    if e.InLoop? {
      var engine := s.engines[s.loops[e.l].engine];
      var x := LoopStep(s.now, s.locks, s.owners, engine, e.l, s.loops[e.l], e.step).value;
      StepStatus(s.now, s.locks, s.owners, engine, e.l, s.loops[e.l], e.step, x);
    } else if e.ScheduleTask? || e.Cancel? || e.Shutdown? {
      forall l | l in s'.loops ensures StatusOk(s'.loops[l]) {
        CallsKeepStatus(s, e, s', l);
      }
    } else {
      assert s'.loops == s.loops;
    }
  }

  lemma {:induction false} RunKeepsStatus(s: Timers, es: seq<Event>, s': Timers)
    requires AllStatusOk(s) && Run(s, es) == Some(s')
    ensures AllStatusOk(s')
    decreases |es|
  {
    if es != [] {
      var s1 := Apply(s, es[0]).value;
      StatusStep(s, es[0], s1);
      RunKeepsStatus(s1, es[1..], s');
    }
  }

  /**
   A one-shot task that has ended by itself reports Completed or Failed if and only if its handler
   ran; one that found the lock taken never ran, never will, and reports Scheduled for ever.
   */
  lemma {:induction false} OneShotReports(s: Timers, es: seq<Event>, s': Timers, l: nat)
    requires Initial(s) && Run(s, es) == Some(s') && l in s'.loops
    requires s'.loops[l].task.schedule.Delay? || s'.loops[l].task.schedule.Once?
    requires s'.loops[l].pc.Done? && !s'.loops[l].aborted
    ensures s'.loops[l].started == 1 <==> s'.loops[l].status == Completed || s'.loops[l].status == Failed
    ensures s'.loops[l].started == 0 <==> s'.loops[l].status == Scheduled
  {
    RunKeepsStatus(s, es, s');
    RunKeepsCounts(s, es, s');
    assert StatusOk(s'.loops[l]) && CountsOk(s'.loops[l]);
  }

  // ----- scheduling an id again -----

  /** No engine can reach the loop any more. */
  ghost predicate Unreachable(s: Timers, l: nat) {
    && l in s.loops
    && forall n, id :: n in s.engines && id in s.engines[n].tasks ==> s.engines[n].tasks[id] != l
  }

  lemma {:induction false} UnreachableStep(s: Timers, e: Event, s': Timers, l: nat)
    requires Unreachable(s, l) && Apply(s, e) == Some(s')
    ensures Unreachable(s', l) && s'.loops[l].aborted == s.loops[l].aborted
  {
    if e.InLoop? {
      var engine := s.engines[s.loops[e.l].engine];
      var x := LoopStep(s.now, s.locks, s.owners, engine, e.l, s.loops[e.l], e.step).value;
      assert x.loop.aborted == s.loops[e.l].aborted;
      assert forall n :: n in s'.engines ==> n in s.engines && s'.engines[n].tasks == s.engines[n].tasks;
    } else if e.Shutdown? {
      assert l !in s.engines[e.engine].tasks.Values;
    }
  }

  lemma {:induction false} UnreachableRun(s: Timers, es: seq<Event>, s': Timers, l: nat)
    requires Unreachable(s, l) && Run(s, es) == Some(s')
    ensures Unreachable(s', l) && s'.loops[l].aborted == s.loops[l].aborted
    decreases |es|
  {
    if es != [] {
      var s1 := Apply(s, es[0]).value;
      UnreachableStep(s, es[0], s1, l);
      UnreachableRun(s1, es[1..], s', l);
    }
  }

  /** Each loop that an engine knows is one of its own, known under its id, and has not been aborted. */
  ghost predicate KnownOk(s: Timers) {
    forall n, id :: n in s.engines && id in s.engines[n].tasks ==>
          s.engines[n].tasks[id] in s.loops
          && var loop := s.loops[s.engines[n].tasks[id]];
             !loop.aborted && loop.engine == n && loop.task.id == id
  }

  lemma {:induction false} StepFixed(
      now: nat, locks: Locks, owners: map<Token, Owner>, engine: Engine, l: nat, loop: Loop, e: LoopEvent, x: Effect)
    requires LoopStep(now, locks, owners, engine, l, loop, e) == Some(x)
    ensures x.loop.aborted == loop.aborted && x.loop.engine == loop.engine && x.loop.task == loop.task
  {
  }

  lemma {:induction false} LoopKeepsKnown(s: Timers, e: Event, s': Timers)
    requires e.InLoop? && Apply(s, e) == Some(s')
    ensures s'.loops.Keys == s.loops.Keys && s'.engines.Keys == s.engines.Keys
    ensures forall l :: l in s.loops ==>
              && s'.loops[l].aborted == s.loops[l].aborted && s'.loops[l].engine == s.loops[l].engine
              && s'.loops[l].task == s.loops[l].task
    ensures forall n :: n in s.engines ==> s'.engines[n].tasks == s.engines[n].tasks
  {
    var engine := s.engines[s.loops[e.l].engine];
    var x := LoopStep(s.now, s.locks, s.owners, engine, e.l, s.loops[e.l], e.step).value;
    StepFixed(s.now, s.locks, s.owners, engine, e.l, s.loops[e.l], e.step, x);
  }

  lemma {:induction false} KnownStep(s: Timers, e: Event, s': Timers)
    requires KnownOk(s) && Apply(s, e) == Some(s')
    ensures KnownOk(s')
  {
    if e.InLoop? {
      LoopKeepsKnown(s, e, s');
    } else if e.Shutdown? {
      forall n, id | n in s'.engines && id in s'.engines[n].tasks
        ensures s'.engines[n].tasks[id] in s'.loops && !s'.loops[s'.engines[n].tasks[id]].aborted
      {
        assert n != e.engine && s.loops[s.engines[n].tasks[id]].engine == n;
        assert forall k :: k in s.engines[e.engine].tasks ==> s.loops[s.engines[e.engine].tasks[k]].engine == e.engine;
      }
    }
  }

  lemma {:induction false} RunKeepsKnown(s: Timers, es: seq<Event>, s': Timers)
    requires KnownOk(s) && Run(s, es) == Some(s')
    ensures KnownOk(s')
    decreases |es|
  {
    if es != [] {
      var s1 := Apply(s, es[0]).value;
      KnownStep(s, es[0], s1);
      RunKeepsKnown(s1, es[1..], s');
    }
  }

  /**
   Scheduling an id that the engine already has does not stop the old loop `l`: it goes on, and no
   later cancel or shutdown will ever abort it.
   */
  lemma {:induction false} RescheduleOrphans(
      s0: Timers, es0: seq<Event>, s: Timers, e: Event, l: nat, s1: Timers, es: seq<Event>, s': Timers)
    requires Initial(s0) && Run(s0, es0) == Some(s)
    requires e.ScheduleTask? && Apply(s, e) == Some(s1) && Run(s1, es) == Some(s')
    requires e.task.id in s.engines[e.engine].tasks && s.engines[e.engine].tasks[e.task.id] == l
    ensures l in s'.loops && !s'.loops[l].aborted
  {
    RunKeepsKnown(s0, es0, s);
    assert Unreachable(s1, l);
    UnreachableRun(s1, es, s', l);
  }

  /** The loop's engine knows it under its id, so that a cancel reaches it. */
  ghost predicate Known(s: Timers, l: nat) {
    && l in s.loops && s.loops[l].engine in s.engines
    && var engine := s.engines[s.loops[l].engine];
       s.loops[l].task.id in engine.tasks && engine.tasks[s.loops[l].task.id] == l
  }

  ghost predicate WithinReach(s: Timers, l: nat) {
    Known(s, l) || (l in s.loops && s.loops[l].aborted)
  }

  /** The id of a loop that is known is scheduled again on its engine. */
  ghost predicate Displaces(s: Timers, e: Event, l: nat) {
    e.ScheduleTask? && Known(s, l) && e.engine == s.loops[l].engine && e.task.id == s.loops[l].task.id
  }

  lemma {:induction false} ReachStep(s: Timers, e: Event, s': Timers, l: nat)
    requires KnownOk(s) && WithinReach(s, l) && Apply(s, e) == Some(s')
    ensures WithinReach(s', l) <==> !Displaces(s, e, l)
  {
    if e.InLoop? {
      LoopKeepsKnown(s, e, s');
    } else if e.Shutdown? && Known(s, l) {
      if s.loops[l].engine == e.engine {
        assert l in s.engines[e.engine].tasks.Values;
      }
    } else if e.Cancel? && Known(s, l) {
      assert e.id in s.engines[e.engine].tasks;
    }
  }

  ghost predicate ReachThroughout(s: Timers, es: seq<Event>, l: nat)
    decreases |es|
  {
    && WithinReach(s, l)
    && (es != [] && Apply(s, es[0]).Some? ==> ReachThroughout(Apply(s, es[0]).value, es[1..], l))
  }

  ghost predicate NeverDisplaced(s: Timers, es: seq<Event>, l: nat)
    decreases |es|
  {
    es != [] && Apply(s, es[0]).Some? ==>
      !Displaces(s, es[0], l) && NeverDisplaced(Apply(s, es[0]).value, es[1..], l)
  }

  lemma {:induction false} ReachRun(s: Timers, es: seq<Event>, l: nat)
    requires KnownOk(s) && WithinReach(s, l)
    ensures ReachThroughout(s, es, l) <==> NeverDisplaced(s, es, l)
    decreases |es|
  {
    if es != [] && Apply(s, es[0]).Some? {
      var s1 := Apply(s, es[0]).value;
      KnownStep(s, es[0], s1);
      ReachStep(s, es[0], s1, l);
      if WithinReach(s1, l) {
        ReachRun(s1, es[1..], l);
      } else {
        assert !ReachThroughout(s1, es[1..], l);
      }
    }
  }

  /**
   From its scheduling on, over every run, a loop stays known to its engine or is aborted if and only
   if its id is never scheduled again on that engine while it is known.
   */
  lemma {:induction false} ReachedIffNotDisplaced(
      s0: Timers, es0: seq<Event>, s: Timers, e: Event, s1: Timers, es: seq<Event>)
    requires Initial(s0) && Run(s0, es0) == Some(s) && e.ScheduleTask? && Apply(s, e) == Some(s1)
    ensures ReachThroughout(s1, es, e.l) <==> NeverDisplaced(s1, es, e.l)
  {
    RunKeepsKnown(s0, es0, s);
    KnownStep(s, e, s1);
    ReachRun(s1, es, e.l);
  }

  /** A cancel of its id, and a shutdown of its engine, abort a loop that is known. */
  lemma {:induction false} KnownIsCancelled(s: Timers, l: nat)
    requires Known(s, l)
    ensures
      var cancelled := Apply(s, Cancel(s.loops[l].engine, s.loops[l].task.id));
      && cancelled.Some? && l in cancelled.value.loops
      && cancelled.value.loops[l].aborted && cancelled.value.loops[l].status == Cancelled
    ensures
      var down := Apply(s, Shutdown(s.loops[l].engine));
      down.Some? && l in down.value.loops && down.value.loops[l].aborted
  {
    assert l in s.engines[s.loops[l].engine].tasks.Values;
  }

  // ----- a run in which a lease runs out -----

  lemma {:induction false} Extend(s: Timers, es: seq<Event>, s1: Timers, e: Event, s2: Timers)
    requires Run(s, es) == Some(s1) && Apply(s1, e) == Some(s2)
    ensures Run(s, es + [e]) == Some(s2)
    decreases |es|
  {
    if es == [] {
      assert es + [e] == [e] && [e][1..] == [];
      assert Run(s2, []) == Some(s2);
    } else {
      assert (es + [e])[0] == es[0] && (es + [e])[1..] == es[1..] + [e];
      Extend(Apply(s, es[0]).value, es[1..], s1, e, s2);
    }
  }

  /** Loop `l` of engine `n`, and only it, brought to `pc`. */
  ghost function With(s: Timers, n: nat, l: nat, task: Task, pc: Pc, permits: nat): Timers
    requires n in s.engines
  {
    s.(engines := s.engines[n := s.engines[n].(permits := permits, tasks := s.engines[n].tasks[task.id := l])],
       loops := s.loops[l := Loop(n, task, pc, Scheduled, 0, 0, 0, false)])
  }

  lemma {:induction false} LoopTurn(s: Timers, n: nat, l: nat, task: Task, pc: Pc, permits: nat, e: LoopEvent, pc': Pc, permits': nat)
    requires n in s.engines
    requires var loop := Loop(n, task, pc, Scheduled, 0, 0, 0, false);
             var engine := With(s, n, l, task, pc, permits).engines[n];
             LoopStep(s.now, s.locks, s.owners, engine, l, loop, e) ==
             Some(Effect(loop.(pc := pc'), s.locks, s.owners, permits'))
    ensures Apply(With(s, n, l, task, pc, permits), InLoop(l, e)) == Some(With(s, n, l, task, pc', permits'))
  {
    var before, after := With(s, n, l, task, pc, permits), With(s, n, l, task, pc', permits');
    assert before.engines[n := after.engines[n]] == after.engines;
    assert before.loops[l := after.loops[l]] == after.loops;
  }

  /** A zero-second interval task gets to the lock at once. */
  lemma {:induction false} ReachesLock(s: Timers, n: nat, l: nat, task: Task, start: Timers, es: seq<Event>) returns (es': seq<Event>)
    requires n in s.engines && l !in s.loops && s.engines[n].permits > 0 && task.schedule == Interval(0)
    requires Run(start, es) == Some(s)
    ensures Run(start, es') == Some(With(s, n, l, task, AtLock, s.engines[n].permits - 1))
  {
    var p := s.engines[n].permits;
    Extend(start, es, s, ScheduleTask(n, l, task, 0, None), With(s, n, l, task, Head, p));
    es' := es + [ScheduleTask(n, l, task, 0, None)];
    LoopTurn(s, n, l, task, Head, p, Compute(0, None), Asleep(s.now), p);
    Extend(start, es', With(s, n, l, task, Head, p), InLoop(l, Compute(0, None)), With(s, n, l, task, Asleep(s.now), p));
    es' := es' + [InLoop(l, Compute(0, None))];
    LoopTurn(s, n, l, task, Asleep(s.now), p, Wake, AwaitPermit, p);
    Extend(start, es', With(s, n, l, task, Asleep(s.now), p), InLoop(l, Wake), With(s, n, l, task, AwaitPermit, p));
    es' := es' + [InLoop(l, Wake)];
    LoopTurn(s, n, l, task, AwaitPermit, p, TakePermit, AtLock, p - 1);
    Extend(start, es', With(s, n, l, task, AwaitPermit, p), InLoop(l, TakePermit), With(s, n, l, task, AtLock, p - 1));
    es' := es' + [InLoop(l, TakePermit)];
  }

  ghost function TwoEngines(now: nat): Timers {
    var engine := Engine(1, 1, true, map[]);
    Timers(now, map[], map[], map[0 := engine, 1 := engine], map[])
  }

  lemma {:induction false} LockTurn(s: Timers, l: nat, token: Token)
    requires l in s.loops && s.loops[l].engine in s.engines && s.loops[l].pc.AtLock? && token !in s.owners
    requires NeedsLock(s.engines[s.loops[l].engine].locked, s.loops[l].task) && Free(s.locks, LockKey(s.loops[l].task), s.now)
    ensures Apply(s, InLoop(l, TryLock(token))).Some?
    ensures
      var s' := Apply(s, InLoop(l, TryLock(token))).value;
      var key := LockKey(s.loops[l].task);
      var expiry := s.now + LockTtl(s.loops[l].task) * SECOND;
      && s'.loops.Keys == s.loops.Keys && (forall k :: k in s.loops && k != l ==> s'.loops[k] == s.loops[k])
      && s'.loops[l].task == s.loops[l].task && s'.loops[l].engine == s.loops[l].engine
      && s'.loops[l].pc == Running(Some(Lease(LockHandle(key, token), expiry)))
      && s'.locks == s.locks[key := LockEntry(token, expiry)] && s'.owners == s.owners[token := OfLoop(l)]
      && s'.engines == s.engines && s'.now == s.now
  {
    var engine := s.engines[s.loops[l].engine];
    assert s.engines[s.loops[l].engine := engine.(permits := engine.permits)] == s.engines;
  }

  lemma {:induction false} WithFacts(s: Timers, n: nat, l: nat, task: Task, pc: Pc, permits: nat, s1: Timers)
    requires n in s.engines && l !in s.loops && s1 == With(s, n, l, task, pc, permits)
    ensures s1.now == s.now && s1.locks == s.locks && s1.owners == s.owners
    ensures s1.engines.Keys == s.engines.Keys && s1.engines[n].locked == s.engines[n].locked
    ensures forall m :: m in s.engines && m != n ==> s1.engines[m] == s.engines[m]
    ensures s1.loops.Keys == s.loops.Keys + {l} && forall k :: k in s.loops ==> s1.loops[k] == s.loops[k]
    ensures s1.loops[l].pc == pc && s1.loops[l].task == task && s1.loops[l].engine == n
  {
  }

  lemma {:induction false} Occupies(
      s: Timers, n: nat, l: nat, task: Task, token: Token, start: Timers, es: seq<Event>)
      returns (es': seq<Event>, s': Timers)
    requires n in s.engines && l !in s.loops && s.engines[n].permits > 0 && s.engines[n].locked
    requires task.schedule == Interval(0) && task.scope.Cluster? && Run(start, es) == Some(s)
    requires Free(s.locks, LockKey(task), s.now) && token !in s.owners
    ensures Run(start, es') == Some(s')
    ensures s'.loops.Keys == s.loops.Keys + {l} && forall k :: k in s.loops ==> s'.loops[k] == s.loops[k]
    ensures s'.loops[l].pc.Running? && s'.loops[l].task == task
    ensures s'.engines.Keys == s.engines.Keys && forall m :: m in s.engines && m != n ==> s'.engines[m] == s.engines[m]
    ensures s'.now == s.now && s'.owners == s.owners[token := OfLoop(l)]
    ensures s'.locks == s.locks[LockKey(task) := LockEntry(token, s.now + LockTtl(task) * SECOND)]
  {
    es' := ReachesLock(s, n, l, task, start, es);
    var s1 := With(s, n, l, task, AtLock, s.engines[n].permits - 1);
    WithFacts(s, n, l, task, AtLock, s.engines[n].permits - 1, s1);
    LockTurn(s1, l, token);
    s' := Apply(s1, InLoop(l, TryLock(token))).value;
    Extend(start, es', s1, InLoop(l, TryLock(token)), s');
    es' := es' + [InLoop(l, TryLock(token))];
  }

  /**
   The condition that runs end in time is needed: with two engines and any ttl there is a run in
   which a handler outlives its lease and the same Cluster task runs twice at once.
   */
  lemma {:induction false} OutlivedLease(now: nat, id: string, ttl: nat) returns (es: seq<Event>, s: Timers)
    ensures Initial(TwoEngines(now)) && Run(TwoEngines(now), es) == Some(s)
    ensures 0 in s.loops && 1 in s.loops && s.loops[0].pc.Running? && s.loops[1].pc.Running?
    ensures s.loops[0].task == s.loops[1].task == Task(id, Interval(0), Cluster, Some(ttl))
  {
    var task := Task(id, Interval(0), Cluster, Some(ttl));
    var start := TwoEngines(now);
    assert Run(start, []) == Some(start);
    var s1: Timers;
    es, s1 := Occupies(start, 0, 0, task, "a", start, []);
    var s2 := s1.(now := s1.now + ttl * SECOND);
    Extend(start, es, s1, Tick(ttl * SECOND), s2);
    es := es + [Tick(ttl * SECOND)];
    assert "b" != "a";
    es, s := Occupies(s2, 1, 1, task, "b", start, es);
  }
}
