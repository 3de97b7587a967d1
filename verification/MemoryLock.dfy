/**
 The in-memory token lock: a map from keys to a token and an expiry, and the ledger of every token
 it has issued. Time is in nanoseconds; the clock reading and the fresh token are inputs.
 */
module MemoryLock {
  import opened Wrappers

  type Token = string

  datatype LockEntry = LockEntry(token: Token, expiresAt: nat)

  datatype LockHandle = LockHandle(key: string, token: Token)

  type Locks = map<string, LockEntry>

  /** Nobody has the key, or whoever had it has run out of time. */
  predicate Free(locks: Locks, key: string, now: nat) {
    key in locks ==> now >= locks[key].expiresAt
  }

  predicate Owns(locks: Locks, h: LockHandle) {
    h.key in locks && locks[h.key].token == h.token
  }

  function AfterAcquire(locks: Locks, key: string, ttl: nat, now: nat, token: Token): Locks {
    if Free(locks, key, now) then locks[key := LockEntry(token, now + ttl * SECOND)] else locks
  }

  function AfterRelease(locks: Locks, h: LockHandle): Locks {
    if Owns(locks, h) then locks - {h.key} else locks
  }

  function AfterExtend(locks: Locks, h: LockHandle, ttl: nat, now: nat): Locks {
    if Owns(locks, h) then locks[h.key := LockEntry(h.token, now + ttl * SECOND)] else locks
  }

  /** One round of waiting: the lock as it is found, and the clock at the attempt and after it. */
  datatype Round = Round(found: Locks, tried: nat, checked: nat)

  class InMemoryLock {
    var locks: Locks

    constructor ()
      ensures locks == map[]
    {
      locks := map[];
    }

    method TryAcquire(key: string, ttl: nat, now: nat, token: Token) returns (handle: Option<LockHandle>)
      modifies this
      ensures locks == AfterAcquire(old(locks), key, ttl, now, token)
      ensures handle == if Free(old(locks), key, now) then Some(LockHandle(key, token)) else None
      ensures handle.Some? ==> key in locks && locks[key] == LockEntry(token, now + ttl * 1_000_000_000)
    {
      if key in locks {
        var entry := locks[key];
        if now >= entry.expiresAt {
          locks := locks - {key};
        }
      }
      if key in locks {
        return None;
      }
      locks := locks[key := LockEntry(token, now + ttl * SECOND)];
      assert locks == AfterAcquire(old(locks), key, ttl, now, token);
      return Some(LockHandle(key, token));
    }

    /**
     Tries, reads the clock again, and waits for a notification or the deadline, until an attempt
     succeeds or that second reading has reached the deadline. In each round the lock is found as
     other clients have left it in the meantime.
     */
    method Acquire(key: string, ttl: nat, wait: nat, start: nat, rounds: seq<Round>, token: Token)
      returns (r: Result<LockHandle, string>)
      requires rounds != [] && rounds[0].found == locks && rounds[|rounds| - 1].checked >= start + wait * SECOND
      modifies this
      ensures r.Ok? ==>
                && r.value == LockHandle(key, token)
                && exists i ::
                     && 0 <= i < |rounds| && Free(rounds[i].found, key, rounds[i].tried)
                     && (forall j :: 0 <= j < i ==>
                           !Free(rounds[j].found, key, rounds[j].tried)
                           && rounds[j].checked < start + wait * 1_000_000_000)
                     && locks == AfterAcquire(rounds[i].found, key, ttl, rounds[i].tried, token)
      ensures r.Err? ==>
                exists i ::
                  && 0 <= i < |rounds| && !Free(rounds[i].found, key, rounds[i].tried)
                  && rounds[i].checked >= start + wait * 1_000_000_000 && locks == rounds[i].found
                  && (forall j :: 0 <= j < i ==>
                        !Free(rounds[j].found, key, rounds[j].tried)
                        && rounds[j].checked < start + wait * 1_000_000_000)
    {
      var deadline := start + wait * SECOND;
      var i := 0;
      while true
        invariant 0 <= i < |rounds|
        invariant forall j :: 0 <= j < i ==>
                    !Free(rounds[j].found, key, rounds[j].tried) && rounds[j].checked < deadline
        decreases |rounds| - i
      {
        locks := rounds[i].found;
        var handle := TryAcquire(key, ttl, rounds[i].tried, token);
        if handle.Some? {
          return Ok(handle.value);
        }
        if rounds[i].checked >= deadline {
          return Err("timed out waiting for lock '" + key + "'");
        }
        i := i + 1;
      }
    }

    method Release(h: LockHandle) returns (released: bool)
      modifies this
      ensures locks == AfterRelease(old(locks), h)
      ensures released <==> Owns(old(locks), h)
    {
      if h.key in locks {
        var entry := locks[h.key];
        if entry.token == h.token {
          locks := locks - {h.key};
          return true;
        }
      }
      return false;
    }

    /** The expiry is not looked at: an expired entry that nobody has replaced is revived. */
    method Extend(h: LockHandle, ttl: nat, now: nat) returns (extended: bool)
      modifies this
      ensures locks == AfterExtend(old(locks), h, ttl, now)
      ensures extended <==> Owns(old(locks), h)
      ensures extended ==> h.key in locks && locks[h.key] == LockEntry(h.token, now + ttl * 1_000_000_000)
    {
      if h.key in locks {
        var entry := locks[h.key];
        if entry.token == h.token {
          locks := locks[h.key := entry.(expiresAt := now + ttl * SECOND)];
          return true;
        }
      }
      return false;
    }
  }

  // ----- the ledger of issued tokens -----

  /** What has become of an issued token. */
  datatype Fate =
    | Present
    | Released
    | Superseded(expiry: nat, at: nat)

  datatype Ledger = Ledger(now: nat, locks: Locks, fates: map<Token, Fate>)

  datatype Op =
    | Advance(ns: nat)
    | TryAcquire(key: string, ttl: nat, token: Token)
    | Release(handle: LockHandle)
    | Extend(handle: LockHandle, ttl: nat)

  /** A successful acquisition must issue a token never issued before. */
  ghost predicate Enabled(l: Ledger, op: Op) {
    op.TryAcquire? && Free(l.locks, op.key, l.now) ==> op.token !in l.fates
  }

  ghost function Step(l: Ledger, op: Op): Ledger {
    match op
    case Advance(ns) => l.(now := l.now + ns)
    case TryAcquire(key, ttl, token) =>
      if Free(l.locks, key, l.now) then
        var fates := if key in l.locks
                     then l.fates[l.locks[key].token := Superseded(l.locks[key].expiresAt, l.now)]
                     else l.fates;
        Ledger(l.now, AfterAcquire(l.locks, key, ttl, l.now, token), fates[token := Present])
      else l
    case Release(h) =>
      if Owns(l.locks, h) then Ledger(l.now, AfterRelease(l.locks, h), l.fates[h.token := Released]) else l
    case Extend(h, ttl) => l.(locks := AfterExtend(l.locks, h, ttl, l.now))
  }

  /** The answer a caller gets. */
  ghost function Answer(l: Ledger, op: Op): bool {
    match op
    case Advance(_) => true
    case TryAcquire(key, _, _) => Free(l.locks, key, l.now)
    case Release(h) => Owns(l.locks, h)
    case Extend(h, _) => Owns(l.locks, h)
  }

  ghost predicate Runs(l: Ledger, ops: seq<Op>)
    decreases |ops|
  {
    ops == [] || (Enabled(l, ops[0]) && Runs(Step(l, ops[0]), ops[1..]))
  }

  ghost function After(l: Ledger, ops: seq<Op>): Ledger
    decreases |ops|
  {
    if ops == [] then l else After(Step(l, ops[0]), ops[1..])
  }

  /** The token of each entry is present, and every present token has exactly one entry. */
  ghost predicate Balanced(l: Ledger) {
    && (forall k :: k in l.locks ==> l.locks[k].token in l.fates && l.fates[l.locks[k].token].Present?)
    && (forall k1, k2 :: k1 in l.locks && k2 in l.locks && l.locks[k1].token == l.locks[k2].token ==> k1 == k2)
    && (forall t :: t in l.fates && l.fates[t].Present? ==> exists k :: k in l.locks && l.locks[k].token == t)
    && (forall t :: t in l.fates && l.fates[t].Superseded? ==> l.fates[t].expiry <= l.fates[t].at <= l.now)
  }

  /** A token that is released or superseded. */
  ghost predicate Gone(l: Ledger, t: Token) {
    t in l.fates && !l.fates[t].Present?
  }

  lemma {:induction false} AcquireBalanced(l: Ledger, op: Op)
    requires Balanced(l) && Enabled(l, op) && op.TryAcquire?
    ensures Balanced(Step(l, op))
  {
    var l' := Step(l, op);
    if Free(l.locks, op.key, l.now) {
      forall t | t in l'.fates && l'.fates[t].Present?
        ensures exists k :: k in l'.locks && l'.locks[k].token == t
      {
        if t == op.token {
          assert l'.locks[op.key].token == t;
        } else {
          var k :| k in l.locks && l.locks[k].token == t;
          assert k != op.key;
          assert l'.locks[k] == l.locks[k];
        }
      }
    }
  }

  lemma {:induction false} ReleaseBalanced(l: Ledger, op: Op)
    requires Balanced(l) && op.Release?
    ensures Balanced(Step(l, op))
  {
    var l' := Step(l, op);
    if Owns(l.locks, op.handle) {
      forall t | t in l'.fates && l'.fates[t].Present?
        ensures exists k :: k in l'.locks && l'.locks[k].token == t
      {
        var k :| k in l.locks && l.locks[k].token == t;
        assert k in l'.locks;
      }
    }
  }

  lemma {:induction false} ExtendBalanced(l: Ledger, op: Op)
    requires Balanced(l) && op.Extend?
    ensures Balanced(Step(l, op))
  {
    var l' := Step(l, op);
    assert forall k :: k in l.locks ==> k in l'.locks && l'.locks[k].token == l.locks[k].token;
  }

  /** One operation keeps the ledger balanced, and a token that is gone keeps its fate. */
  lemma {:induction false} StepBalanced(l: Ledger, op: Op)
    requires Balanced(l) && Enabled(l, op)
    ensures Balanced(Step(l, op)) && l.now <= Step(l, op).now
    ensures forall t :: Gone(l, t) ==> Gone(Step(l, op), t) && Step(l, op).fates[t] == l.fates[t]
  {
    match op
    case Advance(_) =>
    case TryAcquire(_, _, _) => AcquireBalanced(l, op);
    case Release(_) => ReleaseBalanced(l, op);
    case Extend(_, _) => ExtendBalanced(l, op);
  }

  /**
   Over every run each issued token is in exactly one of present, released or superseded, and a
   token once gone never comes back. (Supersession happened at or after the token's last expiry.)
   */
  lemma {:induction false} RunBalanced(l: Ledger, ops: seq<Op>)
    requires Balanced(l) && Runs(l, ops)
    ensures Balanced(After(l, ops)) && l.now <= After(l, ops).now
    ensures forall t :: Gone(l, t) ==> Gone(After(l, ops), t) && After(l, ops).fates[t] == l.fates[t]
    decreases |ops|
  {
    if ops != [] {
      StepBalanced(l, ops[0]);
      RunBalanced(Step(l, ops[0]), ops[1..]);
    }
  }

  /** The holder of a token that is gone gets false from release and from extend, for ever. */
  lemma {:induction false} GoneGetsFalse(l: Ledger, ops: seq<Op>, h: LockHandle, ttl: nat)
    requires Balanced(l) && Runs(l, ops) && Gone(l, h.token)
    ensures !Answer(After(l, ops), Release(h)) && !Answer(After(l, ops), Extend(h, ttl))
  {
    RunBalanced(l, ops);
  }

  /** How many releases of the token were answered true. */
  ghost function TrueReleases(l: Ledger, ops: seq<Op>, t: Token): nat
    decreases |ops|
  {
    if ops == [] then 0
    else
      (if ops[0].Release? && ops[0].handle.token == t && Answer(l, ops[0]) then 1 else 0)
      + TrueReleases(Step(l, ops[0]), ops[1..], t)
  }

  /** A token is released true at most once, and exactly when that is its fate. */
  lemma {:induction false} ReleasedOnce(l: Ledger, ops: seq<Op>, t: Token)
    requires Balanced(l) && Runs(l, ops) && !Gone(l, t)
    ensures t in After(l, ops).fates && After(l, ops).fates[t].Released? ==> TrueReleases(l, ops, t) == 1
    ensures !(t in After(l, ops).fates && After(l, ops).fates[t].Released?) ==> TrueReleases(l, ops, t) == 0
    decreases |ops|
  {
    if ops != [] {
      var l1 := Step(l, ops[0]);
      StepBalanced(l, ops[0]);
      if Gone(l1, t) {
        RunBalanced(l1, ops[1..]);
        NoReleaseWhenGone(l1, ops[1..], t);
      } else {
        ReleasedOnce(l1, ops[1..], t);
      }
    }
  }

  lemma {:induction false} NoReleaseWhenGone(l: Ledger, ops: seq<Op>, t: Token)
    requires Balanced(l) && Runs(l, ops) && Gone(l, t)
    ensures TrueReleases(l, ops, t) == 0
    decreases |ops|
  {
    if ops != [] {
      StepBalanced(l, ops[0]);
      NoReleaseWhenGone(Step(l, ops[0]), ops[1..], t);
    }
  }

  // ----- the lease is honoured -----

  /** The operation neither releases nor extends with the token. */
  ghost predicate LeavesAlone(op: Op, t: Token) {
    (op.Release? || op.Extend? ==> op.handle.token != t)
  }

  lemma {:induction false} EntryKept(l: Ledger, op: Op, key: string, t: Token)
    requires Owns(l.locks, LockHandle(key, t)) && LeavesAlone(op, t) && l.now < l.locks[key].expiresAt
    ensures key in Step(l, op).locks && Step(l, op).locks[key] == l.locks[key]
  {
  }

  /**
   Until the lease runs out nobody but its owner can end it: the entry is unchanged, every other
   acquisition of the key fails, and the owner's release would still be answered true.
   */
  lemma {:induction false} LeaseHonoured(l: Ledger, ops: seq<Op>, key: string, t: Token, ttl: nat, other: Token)
    requires Balanced(l) && Runs(l, ops) && Owns(l.locks, LockHandle(key, t))
    requires forall i :: 0 <= i < |ops| ==> LeavesAlone(ops[i], t)
    requires After(l, ops).now < l.locks[key].expiresAt
    ensures key in After(l, ops).locks && After(l, ops).locks[key] == l.locks[key]
    ensures !Answer(After(l, ops), TryAcquire(key, ttl, other)) && Answer(After(l, ops), Release(LockHandle(key, t)))
    decreases |ops|
  {
    if ops != [] {
      var l1 := Step(l, ops[0]);
      StepBalanced(l, ops[0]);
      RunBalanced(l1, ops[1..]);
      EntryKept(l, ops[0], key, t);
      LeaseHonoured(l1, ops[1..], key, t, ttl, other);
    }
  }

  /** No acquisition of the key is answered true. */
  ghost predicate NotTaken(l: Ledger, ops: seq<Op>, key: string)
    decreases |ops|
  {
    ops == []
    || (!(ops[0].TryAcquire? && ops[0].key == key && Answer(l, ops[0])) && NotTaken(Step(l, ops[0]), ops[1..], key))
  }

  lemma {:induction false} NowGrows(l: Ledger, ops: seq<Op>)
    ensures l.now <= After(l, ops).now
    decreases |ops|
  {
    if ops != [] {
      NowGrows(Step(l, ops[0]), ops[1..]);
    }
  }

  lemma {:induction false} EntryLasts(l: Ledger, ops: seq<Op>, key: string, t: Token)
    requires Owns(l.locks, LockHandle(key, t)) && forall i :: 0 <= i < |ops| ==> LeavesAlone(ops[i], t)
    ensures After(l, ops).now < l.locks[key].expiresAt ==> NotTaken(l, ops, key)
    ensures NotTaken(l, ops, key) ==> key in After(l, ops).locks && After(l, ops).locks[key] == l.locks[key]
    decreases |ops|
  {
    if ops != [] {
      var l1 := Step(l, ops[0]);
      assert LeavesAlone(ops[0], t);
      NowGrows(l1, ops[1..]);
      if !(ops[0].TryAcquire? && ops[0].key == key && Answer(l, ops[0])) {
        EntryLasts(l1, ops[1..], key, t);
      }
    }
  }

  /**
   A lease got or renewed for `ttl` seconds lasts for exactly that long: unless its own token ends
   or renews it, every acquisition of the key fails before `ttl` times 10^9 nanoseconds are over, and
   the first one from then on succeeds.
   */
  lemma {:induction false} LeaseLasts(l: Ledger, op: Op, ops: seq<Op>, key: string, t: Token, ttl: nat, next: Op)
    requires op == TryAcquire(key, ttl, t) || op == Extend(LockHandle(key, t), ttl)
    requires Answer(l, op) && forall i :: 0 <= i < |ops| ==> LeavesAlone(ops[i], t)
    requires next.TryAcquire? && next.key == key
    ensures
      var l1, due := Step(l, op), l.now + ttl * 1_000_000_000;
      && (After(l1, ops).now < due ==> NotTaken(l1, ops, key))
      && (NotTaken(l1, ops, key) ==> (Answer(After(l1, ops), next) <==> After(l1, ops).now >= due))
  {
    EntryLasts(Step(l, op), ops, key, t);
  }

  /**
   From the expiry on, the key is anybody's: whoever asks first gets it. If that is another client
   the owner's token is superseded; if the owner extends first, the lease runs on from now.
   */
  lemma {:induction false} ExpiredLease(l: Ledger, key: string, t: Token, ttl: nat, other: Token)
    requires Balanced(l) && Owns(l.locks, LockHandle(key, t)) && l.locks[key].expiresAt <= l.now
    requires other !in l.fates
    ensures Answer(l, TryAcquire(key, ttl, other))
    ensures Step(l, TryAcquire(key, ttl, other)).fates[t] == Superseded(l.locks[key].expiresAt, l.now)
    ensures Answer(l, Extend(LockHandle(key, t), ttl))
    ensures
      var revived := Step(l, Extend(LockHandle(key, t), ttl));
      Answer(revived, TryAcquire(key, ttl, other)) <==> ttl == 0
  {
  }
}
