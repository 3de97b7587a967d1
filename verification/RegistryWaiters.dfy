/** What becomes of the callers that wait for a message: nobody is forgotten, and nobody is answered after a timeout. */
module RegistryWaiters {
  import opened Wrappers
  import opened Framing
  import opened RegistryClient

  /** The waiter has been given a message that it asked for. */
  ghost predicate Answered(mail: Mail, w: Waiter) {
    exists i :: 0 <= i < |mail.resolved| && mail.resolved[i].waiter == w && Wants(w, mail.resolved[i].message)
  }

  /** The waiter is still there or has been answered. */
  ghost predicate Kept(mail: Mail, w: Waiter) {
    w in mail.waiters || Answered(mail, w)
  }

  lemma {:induction false} WaitingHas(rs: seq<Resolution>, w: Waiter)
    requires w in Waiting(rs)
    ensures exists i :: 0 <= i < |rs| && rs[i].waiter == w
  {
    if rs[0].waiter != w {
      WaitingHas(rs[1..], w);
      var i :| 0 <= i < |rs[1..]| && rs[1..][i].waiter == w;
      assert rs[i + 1].waiter == w;
    }
  }

  lemma {:induction false} WaitingOf(rs: seq<Resolution>, i: nat)
    requires i < |rs|
    ensures rs[i].waiter in Waiting(rs)
  {
    if i > 0 {
      WaitingOf(rs[1..], i - 1);
    }
  }

  lemma {:induction false} AnsweredLater(mail: Mail, mail': Mail, w: Waiter)
    requires Answered(mail, w) && mail.resolved <= mail'.resolved
    ensures Answered(mail', w)
  {
    var i :| 0 <= i < |mail.resolved| && mail.resolved[i].waiter == w && Wants(w, mail.resolved[i].message);
    assert mail'.resolved[i] == mail.resolved[i];
  }

  lemma {:induction false} DrainAnswers(inbox: seq<Message>, waiters: seq<Waiter>, d: Mail, w: Waiter)
    requires d == Drain(inbox, waiters) && w in waiters && w !in d.waiters
    ensures exists i :: 0 <= i < |d.resolved| && d.resolved[i].waiter == w && Wants(w, d.resolved[i].message)
  {
    DrainConserves(inbox, waiters, d);
    assert w in multiset(waiters);
    assert w in multiset(Waiting(d.resolved));
    WaitingHas(d.resolved, w);
  }

  lemma {:induction false} DrainedKeeps(mail: Mail, w: Waiter)
    requires Kept(mail, w)
    ensures Kept(Drained(mail), w)
  {
    var d, after := Drain(mail.inbox, mail.waiters), Drained(mail);
    if Answered(mail, w) {
      AnsweredLater(mail, after, w);
    } else if w !in d.waiters {
      DrainAnswers(mail.inbox, mail.waiters, d, w);
      var i :| 0 <= i < |d.resolved| && d.resolved[i].waiter == w && Wants(w, d.resolved[i].message);
      assert after.resolved[|mail.resolved| + i] == d.resolved[i];
    }
  }

  lemma {:induction false} HandleAllKeeps(
      parse: Bytes -> Parsed, connected: bool, b: Bytes, mail: Mail, sent: Bytes, w: Waiter)
    requires Kept(mail, w)
    ensures Kept(HandleAll(parse, connected, b, mail, sent).mail, w)
    decreases |b|
  {
    if Complete(b) {
      var p, later := parse(b[4..4 + ReadWord(b)]), b[4 + ReadWord(b)..];
      if p != Throws {
        match p {
          case Object(m) => DrainedKeeps(mail.(inbox := mail.inbox + [m]), w);
          case Scalar => DrainedKeeps(mail, w);
          case _ =>
        }
        HandleAllKeeps(parse, connected, later, Deliver(mail, p), if connected && p == PingText then sent + Frame(PONG) else sent, w);
      }
    }
  }

  /**
   A caller that waits is never forgotten: in every run it goes on waiting until it is given a message
   that it asked for, unless its own timeout comes first.
   */
  lemma {:induction false} WaiterIsKept(parse: Bytes -> Parsed, connected: bool, s: State, es: seq<Event>, w: Waiter)
    requires Kept(s.mail, w) && forall i :: 0 <= i < |es| ==> es[i] != Expire(w.id)
    ensures Kept(Run(parse, connected, s, es).mail, w)
    decreases |es|
  {
    if es != [] {
      var s1 := Step(parse, connected, s, es[0]);
      assert es[0] != Expire(w.id);
      if es[0].Data? {
        HandleAllKeeps(parse, connected, s.buffered + es[0].chunk, s.mail, s.sent, w);
      }
      WaiterIsKept(parse, connected, s1, es[1..], w);
    }
  }

  /** A call that the inbox does not answer waits, last of all, under a number no other has. */
  lemma {:induction false} CallWaits(parse: Bytes -> Parsed, connected: bool, s: State, variant: string, s1: State)
    requires Sound(s) && s1 == Step(parse, connected, s, Wait(variant))
    ensures Ready(s.mail.inbox, variant).Some? ==> s1 == s
    ensures Ready(s.mail.inbox, variant).None? ==>
              && s1.mail.waiters == s.mail.waiters + [Waiter(s.nextId, variant)]
              && (forall w :: w in s.mail.waiters ==> w.id != s.nextId)
              && s1.mail.inbox == s.mail.inbox && s1.mail.resolved == s.mail.resolved
  {
  }

  /** Nobody waits under the number, and no later caller will get it. */
  ghost predicate Forgotten(s: State, id: nat) {
    id < s.nextId && forall w :: w in s.mail.waiters ==> w.id != id
  }

  /** The mail goes on from the other one, and no answer since then is under the number. */
  ghost predicate Silent(mail: Mail, mail': Mail, id: nat) {
    && mail.resolved <= mail'.resolved
    && (forall i :: |mail.resolved| <= i < |mail'.resolved| ==> mail'.resolved[i].waiter.id != id)
    && (forall w :: w in mail'.waiters ==> w.id != id)
  }

  lemma {:induction false} DrainedFrom(inbox: seq<Message>, waiters: seq<Waiter>, d: Mail, w: Waiter)
    requires d == Drain(inbox, waiters) && (w in d.waiters || w in Waiting(d.resolved))
    ensures w in waiters
  {
    DrainConserves(inbox, waiters, d);
    assert w in multiset(d.waiters) || w in multiset(Waiting(d.resolved));
    assert w in multiset(waiters);
  }

  lemma {:induction false} DrainedSilent(mail: Mail, id: nat)
    requires forall w :: w in mail.waiters ==> w.id != id
    ensures Silent(mail, Drained(mail), id)
  {
    var d, after := Drain(mail.inbox, mail.waiters), Drained(mail);
    forall i | |mail.resolved| <= i < |after.resolved| ensures after.resolved[i].waiter.id != id {
      WaitingOf(d.resolved, i - |mail.resolved|);
      DrainedFrom(mail.inbox, mail.waiters, d, d.resolved[i - |mail.resolved|].waiter);
    }
    forall w | w in d.waiters ensures w.id != id {
      DrainedFrom(mail.inbox, mail.waiters, d, w);
    }
  }

  lemma {:induction false} SilentTwice(a: Mail, b: Mail, c: Mail, id: nat)
    requires Silent(a, b, id) && Silent(b, c, id)
    ensures Silent(a, c, id)
  {
    forall i | |a.resolved| <= i < |c.resolved| ensures c.resolved[i].waiter.id != id {
      if i < |b.resolved| {
        assert c.resolved[i] == b.resolved[i];
      }
    }
  }

  lemma {:induction false} DeliverSilent(mail: Mail, p: Parsed, id: nat)
    requires forall w :: w in mail.waiters ==> w.id != id
    ensures Silent(mail, Deliver(mail, p), id)
  {
    match p
    case Object(m) => DrainedSilent(mail.(inbox := mail.inbox + [m]), id);
    case Scalar => DrainedSilent(mail, id);
    case _ =>
  }

  lemma {:induction false} HandleAllSilent(
      parse: Bytes -> Parsed, connected: bool, b: Bytes, mail: Mail, sent: Bytes, id: nat)
    requires forall w :: w in mail.waiters ==> w.id != id
    ensures Silent(mail, HandleAll(parse, connected, b, mail, sent).mail, id)
    decreases |b|
  {
    if Complete(b) {
      var p, later := parse(b[4..4 + ReadWord(b)]), b[4 + ReadWord(b)..];
      if p != Throws {
        var sent' := if connected && p == PingText then sent + Frame(PONG) else sent;
        DeliverSilent(mail, p, id);
        HandleAllSilent(parse, connected, later, Deliver(mail, p), sent', id);
        SilentTwice(mail, Deliver(mail, p), HandleAll(parse, connected, later, Deliver(mail, p), sent').mail, id);
      }
    }
  }

  lemma {:induction false} SilentRun(parse: Bytes -> Parsed, connected: bool, s: State, es: seq<Event>, id: nat)
    requires Forgotten(s, id)
    ensures Silent(s.mail, Run(parse, connected, s, es).mail, id)
    decreases |es|
  {
    if es != [] {
      var s1 := Step(parse, connected, s, es[0]);
      if es[0].Data? {
        HandleAllSilent(parse, connected, s.buffered + es[0].chunk, s.mail, s.sent, id);
      }
      SilentRun(parse, connected, s1, es[1..], id);
      SilentTwice(s.mail, s1.mail, Run(parse, connected, s1, es[1..]).mail, id);
    }
  }

  /** Once its timeout has come, a caller is never answered any more, and nobody waits under its number. */
  lemma {:induction false} TimeoutIsFinal(parse: Bytes -> Parsed, connected: bool, s: State, id: nat, es: seq<Event>, s': State)
    requires id < s.nextId && s' == Run(parse, connected, Step(parse, connected, s, Expire(id)), es)
    ensures Silent(s.mail, s'.mail, id)
  {
    SilentRun(parse, connected, Step(parse, connected, s, Expire(id)), es, id);
  }
}
