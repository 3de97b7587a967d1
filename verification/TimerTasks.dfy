/**
 One task of the in-process timer engine, step by step: sleep, take a permit of the engine, take the
 cluster-wide lock when the task asks for it, run the handler, release, and go round again. A step
 is what the loop does between two points at which it waits.
 */
module TimerTasks {
  import opened Wrappers
  import opened MemoryLock

  datatype Schedule =
    | Cron(expr: string)
    | Interval(secs: nat)
    | Delay(secs: nat)
    | Once(atUnixMs: nat)

  datatype Scope = Node | Cluster

  datatype Status = Scheduled | InProgress | Completed | Failed | Cancelled

  datatype Task = Task(id: string, schedule: Schedule, scope: Scope, lockTtl: Option<nat>)

  const MILLISECOND: nat := 1_000_000
  const DEFAULT_LOCK_TTL: nat := 300

  /**
   How long to sleep. `cron` is what the cron library says: the time to the next fire, which is
   negative when it has just passed, or None for an expression that does not parse or never fires.
   */
  function NextFire(schedule: Schedule, nowMs: nat, cron: Option<int>): Option<nat> {
    match schedule
    case Cron(_) => if cron.None? then None else if cron.value < 0 then Some(100 * MILLISECOND) else Some(cron.value)
    case Interval(secs) => Some(secs * SECOND)
    case Delay(secs) => Some(secs * SECOND)
    case Once(at) => if at <= nowMs then Some(0) else Some((at - nowMs) * MILLISECOND)
  }

  predicate Recurring(task: Task) {
    task.schedule.Cron? || task.schedule.Interval?
  }

  function LockTtl(task: Task): nat {
    if task.lockTtl.Some? then task.lockTtl.value else DEFAULT_LOCK_TTL
  }

  function LockKey(task: Task): string {
    "timer:" + task.id
  }

  datatype Lease = Lease(handle: LockHandle, expiry: nat)

  /** Where a loop stands. */
  datatype Pc =
    | Head
    | Asleep(until: nat)
    | AwaitPermit
    | AtLock
    | Running(lease: Option<Lease>)
    | Returned(lease: Option<Lease>, ok: bool)
    | Recording(ok: bool)
    | Done

  /** `started` and `returned` count the handler calls; `runCount` is what the engine reports. */
  datatype Loop = Loop(
    engine: nat, task: Task, pc: Pc, status: Status, runCount: nat, started: nat, returned: nat, aborted: bool)

  datatype Engine = Engine(capacity: nat, permits: nat, locked: bool, tasks: map<string, nat>)

  datatype Owner = OfLoop(l: nat) | Outside

  datatype LoopEvent =
    | Compute(nowMs: nat, cron: Option<int>)
    | Wake
    | TakePermit
    | TryLock(token: Token)
    | LockErrs
    | Return(ok: bool)
    | ReleaseLock
    | Record
    | Drop

  /** What one step of a loop leaves behind. */
  datatype Effect = Effect(loop: Loop, locks: Locks, owners: map<Token, Owner>, permits: nat)

  predicate HoldsPermit(pc: Pc) {
    pc.AtLock? || pc.Running? || pc.Returned? || pc.Recording?
  }

  predicate NeedsLock(locked: bool, task: Task) {
    task.scope.Cluster? && locked
  }

  function NextRound(task: Task): Pc {
    if Recurring(task) then Head else Done
  }

  ghost function LockStep(
      now: nat, locks: Locks, owners: map<Token, Owner>, engine: Engine, l: nat, loop: Loop, token: Token)
      : Option<Effect>
  {
    var started := loop.(status := InProgress, started := loop.started + 1);
    if !NeedsLock(engine.locked, loop.task) then
      Some(Effect(started.(pc := Running(None)), locks, owners, engine.permits))
    else if !Free(locks, LockKey(loop.task), now) then
      Some(Effect(loop.(pc := NextRound(loop.task)), locks, owners, engine.permits + 1))
    else if token in owners then None
    else
      var lease := Lease(LockHandle(LockKey(loop.task), token), now + LockTtl(loop.task) * SECOND);
      Some(Effect(started.(pc := Running(Some(lease))),
                  AfterAcquire(locks, LockKey(loop.task), LockTtl(loop.task), now, token),
                  owners[token := OfLoop(l)], engine.permits))
  }

  ghost function LoopStep(
      now: nat, locks: Locks, owners: map<Token, Owner>, engine: Engine, l: nat, loop: Loop, e: LoopEvent)
      : Option<Effect>
  {
    match e
    case Compute(nowMs, cron) =>
      if !loop.pc.Head? then None
      else
        var delay := NextFire(loop.task.schedule, nowMs, cron);
        if delay.None? then Some(Effect(loop.(pc := Done, status := Failed), locks, owners, engine.permits))
        else Some(Effect(loop.(pc := Asleep(now + delay.value), status := Scheduled), locks, owners, engine.permits))
    case Wake =>
      if loop.pc.Asleep? && loop.pc.until <= now then Some(Effect(loop.(pc := AwaitPermit), locks, owners, engine.permits))
      else None
    case TakePermit =>
      if loop.pc.AwaitPermit? && engine.permits > 0 then
        Some(Effect(loop.(pc := AtLock), locks, owners, engine.permits - 1))
      else None
    case TryLock(token) =>
      if loop.pc.AtLock? then LockStep(now, locks, owners, engine, l, loop, token) else None
    case LockErrs =>
      // the lock could not be asked: the handler runs without it
      if loop.pc.AtLock? && NeedsLock(engine.locked, loop.task) then
        Some(Effect(loop.(pc := Running(None), status := InProgress, started := loop.started + 1),
                    locks, owners, engine.permits))
      else None
    case Return(ok) =>
      if loop.pc.Running? then
        Some(Effect(loop.(pc := Returned(loop.pc.lease, ok), returned := loop.returned + 1), locks, owners, engine.permits))
      else None
    case ReleaseLock =>
      if loop.pc.Returned? then
        Some(Effect(loop.(pc := Recording(loop.pc.ok)),
                    if loop.pc.lease.Some? then AfterRelease(locks, loop.pc.lease.value.handle) else locks,
                    owners, engine.permits))
      else None
    case Record =>
      if loop.pc.Recording? then
        var status := if Recurring(loop.task) then Scheduled else if loop.pc.ok then Completed else Failed;
        Some(Effect(loop.(pc := NextRound(loop.task), status := status, runCount := loop.runCount + 1),
                    locks, owners, engine.permits + 1))
      else None
    case Drop =>
      // an aborted loop disappears wherever it stands; its permit returns, its lock does not
      if loop.aborted && !loop.pc.Done? then
        Some(Effect(loop.(pc := Done), locks, owners, engine.permits + if HoldsPermit(loop.pc) then 1 else 0))
      else None
  }

  /** Only an unreadable cron expression has no next fire; a fixed time is met exactly, or at once when it has passed. */
  lemma {:induction false} NextFireDue(schedule: Schedule, nowMs: nat, cron: Option<int>)
    ensures NextFire(schedule, nowMs, cron).None? <==> schedule.Cron? && cron.None?
    ensures schedule.Once? ==>
              var due := if schedule.atUnixMs <= nowMs then nowMs else schedule.atUnixMs;
              nowMs * 1_000_000 + NextFire(schedule, nowMs, cron).value == due * 1_000_000
    ensures schedule.Interval? || schedule.Delay? ==> NextFire(schedule, nowMs, cron).value == schedule.secs * 1_000_000_000
    ensures schedule.Cron? && cron.Some? ==>
              NextFire(schedule, nowMs, cron).value == if cron.value >= 0 then cron.value else 100_000_000
  {
    if schedule.Once? && schedule.atUnixMs > nowMs {
      assert (schedule.atUnixMs - nowMs) * MILLISECOND == schedule.atUnixMs * MILLISECOND - nowMs * MILLISECOND;
    }
  }

  // ----- the engine and its loops as objects -----

  class SimpleTimerEngine {
    const number: nat
    const capacity: nat
    const locked: bool
    const lock: InMemoryLock
    var permits: nat
    var tasks: map<string, TaskLoop>

    constructor (number: nat, capacity: nat, locked: bool, lock: InMemoryLock)
      ensures this.number == number && this.capacity == capacity && this.locked == locked && this.lock == lock
      ensures permits == capacity && tasks == map[]
    {
      this.number, this.capacity, this.locked, this.lock := number, capacity, locked, lock;
      permits, tasks := capacity, map[];
    }

    /** A loop already there under the id is only forgotten. */
    method Schedule(task: Task, loopNumber: nat, nowMs: nat, cron: Option<int>) returns (r: Result<TaskLoop, string>)
      modifies this`tasks
      ensures r.Ok? <==> NextFire(task.schedule, nowMs, cron).Some?
      ensures r.Err? ==> tasks == old(tasks)
      ensures r.Ok? ==>
                && fresh(r.value) && r.value.engine == this && r.value.number == loopNumber
                && tasks == old(tasks)[task.id := r.value]
                && r.value.Value() == Loop(number, task, Head, Scheduled, 0, 0, 0, false)
    {
      if NextFire(task.schedule, nowMs, cron).None? {
        return Err("invalid cron expression");
      }
      var loop := new TaskLoop(this, loopNumber, task);
      tasks := tasks[task.id := loop];
      return Ok(loop);
    }

    method Cancel(id: string) returns (found: bool)
      modifies this`tasks, set l | l in tasks.Values :: l`aborted, set l | l in tasks.Values :: l`status
      ensures found <==> id in old(tasks)
      ensures tasks == old(tasks) - {id}
      ensures forall l :: l in old(tasks.Values) ==>
                && l.aborted == (old(l.aborted) || (found && l == old(tasks)[id]))
                && l.status == if found && l == old(tasks)[id] then Cancelled else old(l.status)
    {
      if id !in tasks {
        return false;
      }
      var entry := tasks[id];
      assert entry in tasks.Values;
      tasks := tasks - {id};
      entry.aborted := true;
      entry.status := Cancelled;
      return true;
    }

    method Shutdown()
      modifies this`tasks, set l | l in tasks.Values :: l`aborted
      ensures tasks == map[]
      ensures forall l :: l in old(tasks.Values) ==> l.aborted
    {
      ghost var all := tasks.Values;
      var rest := tasks;
      while rest != map[]
        invariant tasks == old(tasks) && rest.Values <= all
        invariant forall l :: l in all && l !in rest.Values ==> l.aborted
        decreases |rest|
      {
        var id :| id in rest;
        var entry := rest[id];
        assert entry in rest.Values;
        entry.aborted := true;
        ghost var before := rest;
        rest := rest - {id};
        forall l | l in all && l !in rest.Values && l != entry ensures l !in before.Values {
          assert forall k :: k in before && k != id ==> before[k] in rest.Values by {
            forall k | k in before && k != id ensures before[k] in rest.Values {
              assert rest[k] == before[k];
            }
          }
        }
      }
      tasks := map[];
    }
  }

  class TaskLoop {
    const engine: SimpleTimerEngine
    const number: nat
    const task: Task
    var pc: Pc
    var status: Status
    var runCount: nat
    ghost var started: nat
    ghost var returned: nat
    var aborted: bool

    ghost function Value(): Loop
      reads this
    {
      Loop(engine.number, task, pc, status, runCount, started, returned, aborted)
    }

    ghost function EngineValue(): Engine
      reads engine`permits
    {
      Engine(engine.capacity, engine.permits, engine.locked, map[])
    }

    /** The step leaves the loop, the lock and the permits as the specification says. */
    ghost predicate Left(x: Option<Effect>)
      reads this, engine`permits, engine.lock
    {
      && x.Some? && Value() == x.value.loop && engine.lock.locks == x.value.locks
      && engine.permits == x.value.permits
    }

    constructor (engine: SimpleTimerEngine, number: nat, task: Task)
      ensures this.engine == engine && this.number == number && this.task == task
      ensures Value() == Loop(engine.number, task, Head, Scheduled, 0, 0, 0, false)
    {
      this.engine, this.number, this.task := engine, number, task;
      pc, status, runCount, aborted := Head, Scheduled, 0, false;
      started, returned := 0, 0;
    }

    method OnHead(now: nat, nowMs: nat, cron: Option<int>, ghost owners: map<Token, Owner>)
      requires pc.Head?
      modifies this
      ensures Left(LoopStep(now, old(engine.lock.locks), owners, old(EngineValue()), number, old(Value()),
                            Compute(nowMs, cron)))
    {
      var delay := NextFire(task.schedule, nowMs, cron);
      if delay.None? {
        status := Failed;
        pc := Done;
        return;
      }
      status := Scheduled;
      pc := Asleep(now + delay.value);
    }

    method OnWake(now: nat, ghost owners: map<Token, Owner>)
      requires pc.Asleep? && pc.until <= now
      modifies this`pc
      ensures Left(LoopStep(now, old(engine.lock.locks), owners, old(EngineValue()), number, old(Value()), Wake))
    {
      pc := AwaitPermit;
    }

    method OnPermit(now: nat, ghost owners: map<Token, Owner>)
      requires pc.AwaitPermit? && engine.permits > 0
      modifies this`pc, engine`permits
      ensures Left(LoopStep(now, old(engine.lock.locks), owners, old(EngineValue()), number, old(Value()), TakePermit))
    {
      engine.permits := engine.permits - 1;
      pc := AtLock;
    }

    method OnLock(now: nat, token: Token, ghost owners: map<Token, Owner>)
      requires pc.AtLock? && token !in owners
      modifies this, engine`permits, engine.lock
      ensures Left(LoopStep(now, old(engine.lock.locks), owners, old(EngineValue()), number, old(Value()),
                            LoopEvent.TryLock(token)))
      ensures pc.Running? && pc.lease.Some? ==>
                && LockHandle("timer:" + task.id, token) == pc.lease.value.handle
                && pc.lease.value.expiry ==
                   now + (if task.lockTtl.Some? then task.lockTtl.value else 300) * 1_000_000_000
      ensures task.scope.Node? || !engine.locked ==> pc == Running(None) && engine.lock.locks == old(engine.lock.locks)
      ensures task.scope.Cluster? && engine.locked && pc.Running? ==> pc.lease.Some?
      ensures !pc.Running? ==>
                && pc == (if task.schedule.Cron? || task.schedule.Interval? then Head else Done)
                && status == old(status) && engine.permits == old(engine.permits) + 1
    {
      var needLock := task.scope == Cluster && engine.locked;
      var lease: Option<Lease> := None;
      if needLock {
        var lockKey := "timer:" + task.id;
        var ttl := LockTtl(task);
        var handle := engine.lock.TryAcquire(lockKey, ttl, now, token);
        if handle.None? {
          // the permit is dropped with the round
          engine.permits := engine.permits + 1;
          pc := NextRound(task);
          return;
        }
        lease := Some(Lease(handle.value, now + ttl * SECOND));
      }
      status := InProgress;
      started := started + 1;
      pc := Running(lease);
    }

    /** The lock could not be asked: the handler runs on this node without it. */
    method OnLockError(now: nat, ghost owners: map<Token, Owner>)
      requires pc.AtLock? && NeedsLock(engine.locked, task)
      modifies this
      ensures Left(LoopStep(now, old(engine.lock.locks), owners, old(EngineValue()), number, old(Value()), LockErrs))
    {
      status := InProgress;
      started := started + 1;
      pc := Running(None);
    }

    method OnReturn(now: nat, ok: bool, ghost owners: map<Token, Owner>)
      requires pc.Running?
      modifies this
      ensures Left(LoopStep(now, old(engine.lock.locks), owners, old(EngineValue()), number, old(Value()),
                            LoopEvent.Return(ok)))
    {
      returned := returned + 1;
      pc := Returned(pc.lease, ok);
    }

    method OnRelease(now: nat, ghost owners: map<Token, Owner>)
      requires pc.Returned?
      modifies this`pc, engine.lock
      ensures Left(LoopStep(now, old(engine.lock.locks), owners, old(EngineValue()), number, old(Value()), ReleaseLock))
    {
      if pc.lease.Some? {
        var released := engine.lock.Release(pc.lease.value.handle);
      }
      pc := Recording(pc.ok);
    }

    method OnRecord(now: nat, ghost owners: map<Token, Owner>)
      requires pc.Recording?
      modifies this, engine`permits
      ensures Left(LoopStep(now, old(engine.lock.locks), owners, old(EngineValue()), number, old(Value()), Record))
      ensures task.schedule.Cron? || task.schedule.Interval? ==> pc == Head && status == Scheduled
      ensures task.schedule.Delay? || task.schedule.Once? ==>
                pc == Done && status == if old(pc).ok then Completed else Failed
      ensures runCount == old(runCount) + 1 && engine.permits == old(engine.permits) + 1
    {
      runCount := runCount + 1;
      status := if Recurring(task) then Scheduled else if pc.ok then Completed else Failed;
      engine.permits := engine.permits + 1;
      pc := NextRound(task);
    }

    /** The aborted future is dropped: its permit goes back, its lock handle is lost. */
    method OnDrop(now: nat, ghost owners: map<Token, Owner>)
      requires aborted && !pc.Done?
      modifies this`pc, engine`permits
      ensures Left(LoopStep(now, old(engine.lock.locks), owners, old(EngineValue()), number, old(Value()), Drop))
    {
      if HoldsPermit(pc) {
        engine.permits := engine.permits + 1;
      }
      pc := Done;
    }
  }
}
