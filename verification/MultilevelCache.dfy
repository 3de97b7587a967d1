/**
 The two-level cache: a fast level that may drop entries at any time, and a shared one behind it.
 Either level may fail on any call, and then stays as it was.
 */
module MultilevelCache {
  import opened Wrappers

  type Bytes = seq<byte>

  type Entries = map<string, Bytes>

  function Look(entries: Entries, key: string): Option<Bytes> {
    if key in entries then Some(entries[key]) else None
  }

  /** One level. `fails` says that the call finds it out of order. */
  class Level {
    var entries: Entries

    constructor ()
      ensures entries == map[]
    {
      entries := map[];
    }

    method Get(key: string, fails: bool) returns (r: Result<Option<Bytes>, string>)
      ensures r == if fails then Err("level failed") else Ok(Look(entries, key))
    {
      if fails {
        return Err("level failed");
      }
      return Ok(Look(entries, key));
    }

    method Set(key: string, value: Bytes, fails: bool) returns (r: Result<(), string>)
      modifies this
      ensures entries == if fails then old(entries) else old(entries)[key := value]
      ensures r.Err? <==> fails
    {
      if fails {
        return Err("level failed");
      }
      entries := entries[key := value];
      return Ok(());
    }

    method Delete(key: string, fails: bool) returns (r: Result<(), string>)
      modifies this
      ensures entries == if fails then old(entries) else old(entries) - {key}
      ensures r.Err? <==> fails
    {
      if fails {
        return Err("level failed");
      }
      entries := entries - {key};
      return Ok(());
    }
  }

  /** The contents of both levels. */
  datatype State = State(l1: Entries, l2: Entries)

  /** Which of the calls on the levels fail. */
  datatype Faults = Faults(l1: bool, l2: bool, backfill: bool)

  function AfterGet(s: State, key: string, f: Faults): State {
    if f.l1 || key in s.l1 || f.l2 || key !in s.l2 || f.backfill then s
    else s.(l1 := s.l1[key := s.l2[key]])
  }

  function Answer(s: State, key: string, f: Faults): Option<Option<Bytes>> {
    if f.l1 then None
    else if key in s.l1 then Some(Some(s.l1[key]))
    else if f.l2 then None
    else Some(Look(s.l2, key))
  }

  function AfterSet(s: State, key: string, value: Bytes, f: Faults): State {
    if f.l1 then s
    else if f.l2 then s.(l1 := s.l1[key := value])
    else State(s.l1[key := value], s.l2[key := value])
  }

  function AfterDelete(s: State, key: string, f: Faults): State {
    if f.l1 then s
    else if f.l2 then s.(l1 := s.l1 - {key})
    else State(s.l1 - {key}, s.l2 - {key})
  }

  class MultilevelCache {
    const l1: Level
    const l2: Level

    ghost predicate Valid() {
      l1 != l2
    }

    ghost function Contents(): State
      reads l1, l2
    {
      State(l1.entries, l2.entries)
    }

    constructor (l1: Level, l2: Level)
      requires l1 != l2
      ensures Valid() && this.l1 == l1 && this.l2 == l2
    {
      this.l1 := l1;
      this.l2 := l2;
    }

    method Get(key: string, f: Faults) returns (r: Result<Option<Bytes>, string>)
      requires Valid()
      modifies l1
      ensures Contents() == AfterGet(old(Contents()), key, f)
      ensures r.Ok? <==> Answer(old(Contents()), key, f).Some?
      ensures r.Ok? ==> r.value == Answer(old(Contents()), key, f).value
      ensures !f.l1 && key in old(l1.entries) ==> r == Ok(Some(old(l1.entries)[key]))
      ensures l2.entries == old(l2.entries)
    {
      var first := l1.Get(key, f.l1);
      if first.Err? {
        return first;
      }
      if first.value.Some? {
        return first;
      }
      var second := l2.Get(key, f.l2);
      if second.Err? {
        return second;
      }
      if second.value.Some? {
        // a failure of the backfill is not reported
        var ignored := l1.Set(key, second.value.value, f.backfill);
        return second;
      }
      return Ok(None);
    }

    method Set(key: string, value: Bytes, f: Faults) returns (r: Result<(), string>)
      requires Valid()
      modifies l1, l2
      ensures Contents() == AfterSet(old(Contents()), key, value, f)
      ensures f.l1 ==> l2.entries == old(l2.entries)
      ensures l1.entries == if f.l1 then old(l1.entries) else old(l1.entries)[key := value]
      ensures r.Ok? <==> !f.l1 && !f.l2
    {
      r := l1.Set(key, value, f.l1);
      if r.Err? {
        return r;
      }
      r := l2.Set(key, value, f.l2);
    }

    method Delete(key: string, f: Faults) returns (r: Result<(), string>)
      requires Valid()
      modifies l1, l2
      ensures Contents() == AfterDelete(old(Contents()), key, f)
      ensures f.l1 ==> l2.entries == old(l2.entries)
      ensures l1.entries == if f.l1 then old(l1.entries) else old(l1.entries) - {key}
      ensures r.Ok? <==> !f.l1 && !f.l2
    {
      r := l1.Delete(key, f.l1);
      if r.Err? {
        return r;
      }
      r := l2.Delete(key, f.l2);
    }
  }

  /**
   After a get has answered a value, the first level alone answers that same value, even while the
   second is down, if and only if it had it before or was backfilled.
   */
  lemma {:induction false} BackfilledIff(s: State, key: string, f: Faults, value: Bytes, later: Faults)
    requires Answer(s, key, f) == Some(Some(value)) && !later.l1 && later.l2
    ensures Answer(AfterGet(s, key, f), key, later) == Some(Some(value)) <==> key in s.l1 || !f.backfill
    ensures AfterGet(s, key, f).l2 == s.l2
    ensures forall k :: k != key ==> (k in AfterGet(s, key, f).l1 <==> k in s.l1)
    ensures forall k :: k != key && k in s.l1 ==> AfterGet(s, key, f).l1[k] == s.l1[k]
  {
  }

  // ----- histories -----

  datatype Op =
    | Get(key: string, f: Faults)
    | Set(key: string, value: Bytes, f: Faults)
    | Delete(key: string, f: Faults)
    | Evict(key: string)

  function Step(s: State, op: Op): State {
    match op
    case Get(key, f) => AfterGet(s, key, f)
    case Set(key, value, f) => AfterSet(s, key, value, f)
    case Delete(key, f) => AfterDelete(s, key, f)
    case Evict(key) => s.(l1 := s.l1 - {key})
  }

  /** Both levels after a history, oldest operation first, starting empty. */
  function After(h: seq<Op>): State
    decreases |h|
  {
    if h == [] then State(map[], map[]) else Step(After(h[..|h| - 1]), h[|h| - 1])
  }

  predicate Writes(op: Op, key: string) {
    (op.Set? || op.Delete?) && op.key == key
  }

  /** The state of a key that the n-th operation would give it; the 0-th is the empty cache. */
  function Written(h: seq<Op>, n: nat): Option<Bytes>
    requires n <= |h|
  {
    if n > 0 && h[n - 1].Set? then Some(h[n - 1].value) else None
  }

  /** The number of the last write of the key that both levels took; 0 if there was none. */
  function LastFull(h: seq<Op>, key: string): (n: nat)
    ensures n <= |h|
    ensures n > 0 ==> Writes(h[n - 1], key) && !h[n - 1].f.l1 && !h[n - 1].f.l2
    decreases |h|
  {
    if h == [] then 0
    else
      var op := h[|h| - 1];
      if Writes(op, key) && !op.f.l1 && !op.f.l2 then |h| else LastFull(h[..|h| - 1], key)
  }

  /** The shared level holds exactly what the last full write left. */
  lemma {:induction false} SharedLevelIsLastFull(h: seq<Op>, key: string)
    ensures Look(After(h).l2, key) == Written(h, LastFull(h, key))
    decreases |h|
  {
    if h != [] {
      var before, op := h[..|h| - 1], h[|h| - 1];
      SharedLevelIsLastFull(before, key);
      SharedStep(After(before), op, key);
      WrittenBefore(h, key, LastFull(before, key));
    }
  }

  lemma {:induction false} SharedStep(s: State, op: Op, key: string)
    ensures Look(Step(s, op).l2, key) ==
            if Writes(op, key) && !op.f.l1 && !op.f.l2 then (if op.Set? then Some(op.value) else None)
            else Look(s.l2, key)
  {
  }

  /** Where an entry of the fast level comes from: this write, the state before, or a backfill. */
  lemma {:induction false} FastEntryComesFrom(s: State, op: Op, key: string)
    requires key in Step(s, op).l1
    ensures
      || (op.Set? && op.key == key && !op.f.l1 && Step(s, op).l1[key] == op.value)
      || (Look(s.l1, key) == Some(Step(s, op).l1[key]) && !(Writes(op, key) && !op.f.l1))
      || (Look(s.l2, key) == Some(Step(s, op).l1[key]) && op.Get?)
  {
  }

  lemma {:induction false} WrittenBefore(h: seq<Op>, key: string, n: nat)
    requires h != [] && n < |h|
    ensures Written(h, n) == Written(h[..|h| - 1], n)
    ensures n > 0 ==> h[n - 1] == h[..|h| - 1][n - 1]
  {
  }

  lemma {:induction false} LastFullBefore(h: seq<Op>, key: string)
    requires h != [] && !(Writes(h[|h| - 1], key) && !h[|h| - 1].f.l1)
    ensures LastFull(h, key) == LastFull(h[..|h| - 1], key)
  {
  }

  /** What the fast level holds was written by the last full write of the key or by one after it. */
  lemma {:induction false} FastLevelNotOlder(h: seq<Op>, key: string) returns (n: nat)
    requires key in After(h).l1
    ensures LastFull(h, key) <= n <= |h| && Written(h, n) == Some(After(h).l1[key])
    ensures n > 0 ==> Writes(h[n - 1], key) && !h[n - 1].f.l1
    decreases |h|
  {
    var before, op := h[..|h| - 1], h[|h| - 1];
    var s := After(before);
    FastEntryComesFrom(s, op, key);
    if op.Set? && op.key == key && !op.f.l1 {
      n := |h|;
    } else {
      LastFullBefore(h, key);
      if Look(s.l1, key) == Some(After(h).l1[key]) {
        n := FastLevelNotOlder(before, key);
      } else {
        SharedLevelIsLastFull(before, key);
        n := LastFull(before, key);
      }
      WrittenBefore(h, key, n);
    }
  }

  /**
   After any history of gets, sets, deletes, evictions and failures, a get that succeeds answers
   the state given by the last full write of the key or by a later one; if the fast level did not
   have the key, it is exactly the last full write's.
   */
  lemma {:induction false} GetNotOlder(h: seq<Op>, key: string, f: Faults) returns (n: nat)
    requires Answer(After(h), key, f).Some?
    ensures LastFull(h, key) <= n <= |h| && Written(h, n) == Answer(After(h), key, f).value
    ensures n > 0 ==> Writes(h[n - 1], key) && !h[n - 1].f.l1
    ensures key !in After(h).l1 ==> n == LastFull(h, key)
  {
    if key in After(h).l1 {
      n := FastLevelNotOlder(h, key);
    } else {
      SharedLevelIsLastFull(h, key);
      n := LastFull(h, key);
    }
  }

  // ----- when an answer can go back -----

  const FINE: Faults := Faults(false, false, false)

  /** The value that only the fast level was given since the last full write, and has not dropped again. */
  function Pending(h: seq<Op>, key: string): Option<Bytes>
    decreases |h|
  {
    if h == [] then None
    else
      var before, op := h[..|h| - 1], h[|h| - 1];
      match op
      case Set(k, value, f) =>
        if k != key || f.l1 then Pending(before, key) else if f.l2 then Some(value) else None
      case Delete(k, f) => if k != key || f.l1 then Pending(before, key) else None
      case Evict(k) => if k == key then None else Pending(before, key)
      case Get(_, _) => Pending(before, key)
  }

  /** What a get without failures answers after a history. */
  function Seen(h: seq<Op>, key: string): Option<Bytes> {
    if Pending(h, key).Some? then Pending(h, key) else Written(h, LastFull(h, key))
  }

  /** The fast level is ahead of the shared one with a different value. */
  predicate Ahead(h: seq<Op>, key: string) {
    Pending(h, key).Some? && Pending(h, key) != Written(h, LastFull(h, key))
  }

  lemma {:induction false} FastLevelIs(h: seq<Op>, key: string)
    ensures Pending(h, key).Some? ==> Look(After(h).l1, key) == Pending(h, key)
    ensures Pending(h, key).None? && key in After(h).l1 ==> Look(After(h).l1, key) == Look(After(h).l2, key)
    decreases |h|
  {
    if h != [] {
      FastLevelIs(h[..|h| - 1], key);
    }
  }

  /** The answers of any history, from its calls alone. */
  lemma {:induction false} AnswerIsSeen(h: seq<Op>, key: string)
    ensures Answer(After(h), key, FINE) == Some(Seen(h, key))
    ensures key !in After(h).l1 ==> Pending(h, key).None?
    ensures key in After(h).l1 ==> After(h).l1[key] == Seen(h, key).value && Seen(h, key).Some?
  {
    FastLevelIs(h, key);
    SharedLevelIsLastFull(h, key);
  }

  /** An eviction leaves the answer as it was exactly when the fast level held what the last full write left. */
  lemma {:induction false} SurvivesEviction(h: seq<Op>, key: string)
    requires key in After(h).l1
    ensures Answer(After(h + [Evict(key)]), key, FINE) == Answer(After(h), key, FINE)
            <==> Written(h, LastFull(h, key)) == Some(After(h).l1[key])
  {
    assert (h + [Evict(key)])[..|h|] == h;
    SharedLevelIsLastFull(h, key);
  }

  predicate NoWrites(es: seq<Op>, key: string) {
    es == [] || (!Writes(es[0], key) && NoWrites(es[1..], key))
  }

  lemma {:induction false} QuietOp(h: seq<Op>, op: Op, key: string)
    requires !Writes(op, key)
    ensures LastFull(h + [op], key) == LastFull(h, key)
    ensures Written(h + [op], LastFull(h, key)) == Written(h, LastFull(h, key))
    ensures Pending(h + [op], key) == if op == Evict(key) then None else Pending(h, key)
  {
    assert (h + [op])[..|h|] == h;
  }

  lemma {:induction false} Rejoin(h: seq<Op>, es: seq<Op>)
    requires es != []
    ensures h + [es[0]] + es[1..] == h + es
  {
  }

  /** Without a difference between the levels no eviction, failure or backfill changes what is seen. */
  lemma {:induction false} SeenStays(h: seq<Op>, es: seq<Op>, key: string)
    requires NoWrites(es, key) && !Ahead(h, key)
    ensures Seen(h + es, key) == Seen(h, key)
    decreases |es|
  {
    if es == [] {
      assert h + es == h;
    } else {
      QuietOp(h, es[0], key);
      SeenStays(h + [es[0]], es[1..], key);
      Rejoin(h, es);
    }
  }

  lemma {:induction false} AnsweredIsSeen(h: seq<Op>, key: string, f: Faults)
    requires Answer(After(h), key, f).Some?
    ensures Answer(After(h), key, f).value == Seen(h, key)
  {
    AnswerIsSeen(h, key);
  }

  /**
   After any history: whatever gets, evictions, failures and operations on other keys follow, every
   get of the key that succeeds goes on answering the same if and only if no half write of a value
   other than the last full write's is still in the fast level.
   */
  lemma {:induction false} NeverGoesBackIff(h: seq<Op>, key: string)
    ensures (forall es, f :: NoWrites(es, key) && Answer(After(h + es), key, f).Some? ==>
               Answer(After(h + es), key, f).value == Seen(h, key))
            <==> !Ahead(h, key)
  {
    if !Ahead(h, key) {
      forall es, f | NoWrites(es, key) && Answer(After(h + es), key, f).Some?
        ensures Answer(After(h + es), key, f).value == Seen(h, key)
      {
        SeenStays(h, es, key);
        AnsweredIsSeen(h + es, key, f);
      }
    } else {
      var es := [Evict(key)];
      assert es[1..] == [] && NoWrites(es, key);
      QuietOp(h, Evict(key), key);
      AnswerIsSeen(h + es, key);
      assert Answer(After(h + es), key, FINE).value == Written(h, LastFull(h, key)) != Seen(h, key);
    }
  }

  /** The operation is a write of the key that at least the fast level took. */
  predicate Reaches(op: Op, key: string) {
    Writes(op, key) && !op.f.l1
  }

  /** Within a history: no answer ever changes except by a write that reached a level. */
  predicate Steady(h: seq<Op>, key: string)
    decreases |h|
  {
    h == []
    || (Steady(h[..|h| - 1], key)
        && (Reaches(h[|h| - 1], key) || Seen(h, key) == Seen(h[..|h| - 1], key)))
  }

  /** No eviction of the key comes while the fast level is ahead. */
  predicate NoLossyEviction(h: seq<Op>, key: string)
    decreases |h|
  {
    h == []
    || (NoLossyEviction(h[..|h| - 1], key) && (h[|h| - 1] == Evict(key) ==> !Ahead(h[..|h| - 1], key)))
  }

  /** Along a history gets never go back exactly when no eviction meets a half write of a different value. */
  lemma {:induction false} SteadyIff(h: seq<Op>, key: string)
    ensures Steady(h, key) <==> NoLossyEviction(h, key)
    decreases |h|
  {
    if h != [] {
      var before, op := h[..|h| - 1], h[|h| - 1];
      SteadyIff(before, key);
      assert h == before + [op];
      if !Writes(op, key) {
        QuietOp(before, op, key);
      } else if !Reaches(op, key) {
        FailedWrite(before, op, key);
      }
    }
  }

  lemma {:induction false} FailedWrite(h: seq<Op>, op: Op, key: string)
    requires Writes(op, key) && op.f.l1
    ensures Seen(h + [op], key) == Seen(h, key)
  {
    assert (h + [op])[..|h|] == h;
    var n := LastFull(h, key);
    assert n > 0 ==> (h + [op])[n - 1] == h[n - 1];
  }

  /**
   It can still go back in time: a set that only the fast level took is seen, and after an eviction
   the older value is seen again.
   */
  lemma {:induction false} HalfWriteVanishes(key: string, first: Bytes, second: Bytes)
    ensures
      var fine := Faults(false, false, false);
      var h := [Set(key, first, fine), Set(key, second, Faults(false, true, false))];
      && Answer(After(h), key, fine) == Some(Some(second))
      && Answer(After(h + [Evict(key)]), key, fine) == Some(Some(first))
  {
    var fine := Faults(false, false, false);
    var a, b := Set(key, first, fine), Set(key, second, Faults(false, true, false));
    var h := [a, b];
    assert h[..1] == [a] && [a][..0] == [];
    assert After([a]) == Step(After([]), a);
    assert After(h) == Step(After([a]), b);
    assert (h + [Evict(key)])[..2] == h;
    assert After(h + [Evict(key)]) == Step(After(h), Evict(key));
  }
}
