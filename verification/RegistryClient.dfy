/**
 The TypeScript registry client between its socket and its callers: received bytes are cut into
 frames, each frame is a JSON text, and objects wait in an inbox for the first caller that asked
 for one of their fields. What a frame parses to is an input of the model.
 */
module RegistryClient {
  import opened Wrappers
  import opened Framing

  type Body = string

  type Message = map<string, Body>

  /** What JSON.parse makes of a payload. */
  datatype Parsed =
    | Throws
    | PingText
    | PongText
    | Object(message: Message)
    | Scalar

  datatype Waiter = Waiter(id: nat, variant: string)

  datatype Resolution = Resolution(waiter: Waiter, message: Message)

  /** Unclaimed messages, callers still waiting, and the answers given so far. */
  datatype Mail = Mail(inbox: seq<Message>, waiters: seq<Waiter>, resolved: seq<Resolution>)

  /** The text "Pong" with its quotes. */
  const PONG: Bytes := [34, 80, 111, 110, 103, 34]

  lemma {:induction false} PongText()
    ensures |PONG| == |"\"Pong\""| && forall i :: 0 <= i < |PONG| ==> PONG[i] as int == "\"Pong\""[i] as int
  {
  }

  predicate Wants(w: Waiter, m: Message) {
    w.variant in m
  }

  // ----- handing messages to waiters -----

  /** The place of the first waiter that wants the message, or the number of waiters. */
  function FirstWaiter(waiters: seq<Waiter>, m: Message): (k: nat)
    ensures k <= |waiters|
    ensures k < |waiters| ==> Wants(waiters[k], m)
    ensures forall j :: 0 <= j < k ==> !Wants(waiters[j], m)
  {
    if waiters == [] || Wants(waiters[0], m) then 0 else 1 + FirstWaiter(waiters[1..], m)
  }

  /** Each message in turn goes to the first waiter that wants it, or stays. */
  function Drain(inbox: seq<Message>, waiters: seq<Waiter>): Mail {
    if inbox == [] then Mail([], waiters, [])
    else
      var m := inbox[0];
      var k := FirstWaiter(waiters, m);
      if k == |waiters| then
        var later := Drain(inbox[1..], waiters);
        Mail([m] + later.inbox, later.waiters, later.resolved)
      else
        var later := Drain(inbox[1..], waiters[..k] + waiters[k + 1..]);
        Mail(later.inbox, later.waiters, [Resolution(waiters[k], m)] + later.resolved)
  }

  ghost predicate Distinct(waiters: seq<Waiter>) {
    forall i, j :: 0 <= i < j < |waiters| ==> waiters[i].id != waiters[j].id
  }

  ghost predicate NoneWanted(inbox: seq<Message>, waiters: seq<Waiter>) {
    forall i, j :: 0 <= i < |inbox| && 0 <= j < |waiters| ==> !Wants(waiters[j], inbox[i])
  }

  /** `part` is `whole` with some elements left out. */
  predicate Subsequence<T(==)>(part: seq<T>, whole: seq<T>)
    decreases |whole|
  {
    part == []
    || (whole != [] && ((part[0] == whole[0] && Subsequence(part[1..], whole[1..])) || Subsequence(part, whole[1..])))
  }

  function Waiting(rs: seq<Resolution>): seq<Waiter> {
    if rs == [] then [] else [rs[0].waiter] + Waiting(rs[1..])
  }

  function Answers(rs: seq<Resolution>): seq<Message> {
    if rs == [] then [] else [rs[0].message] + Answers(rs[1..])
  }

  lemma {:induction false} SubsequenceSelf<T>(s: seq<T>)
    ensures Subsequence(s, s)
  {
    if s != [] {
      SubsequenceSelf(s[1..]);
    }
  }

  lemma {:induction false} SubsequenceSkip<T>(part: seq<T>, whole: seq<T>, k: nat)
    requires k < |whole| && Subsequence(part, whole[..k] + whole[k + 1..])
    ensures Subsequence(part, whole)
    decreases |whole|
  {
    if part == [] {
    } else if k == 0 {
      assert whole[..0] + whole[1..] == whole[1..];
    } else {
      var less := whole[..k] + whole[k + 1..];
      assert less[0] == whole[0] && less[1..] == whole[1..][..k - 1] + whole[1..][k..];
      if part[0] == whole[0] && Subsequence(part[1..], less[1..]) {
        SubsequenceSkip(part[1..], whole[1..], k - 1);
      } else {
        SubsequenceSkip(part, whole[1..], k - 1);
      }
    }
  }

  lemma {:induction false} RemoveOne<T>(s: seq<T>, k: nat)
    requires k < |s|
    ensures multiset(s) == multiset(s[..k] + s[k + 1..]) + multiset{s[k]}
  {
    assert s == s[..k] + ([s[k]] + s[k + 1..]);
  }

  lemma {:induction false} DrainKeeps(inbox: seq<Message>, waiters: seq<Waiter>)
    requires inbox != [] && FirstWaiter(waiters, inbox[0]) == |waiters|
    ensures
      var later := Drain(inbox[1..], waiters);
      Drain(inbox, waiters) == later.(inbox := [inbox[0]] + later.inbox)
  {
  }

  lemma {:induction false} DrainGives(inbox: seq<Message>, waiters: seq<Waiter>, k: nat)
    requires inbox != [] && FirstWaiter(waiters, inbox[0]) == k < |waiters|
    ensures
      var later := Drain(inbox[1..], waiters[..k] + waiters[k + 1..]);
      Drain(inbox, waiters) == later.(resolved := [Resolution(waiters[k], inbox[0])] + later.resolved)
  {
  }

  /** What a drain does with the first message. */
  lemma {:induction false} DrainStep(inbox: seq<Message>, waiters: seq<Waiter>, k: nat, others: seq<Waiter>, d: Mail)
    requires inbox != [] && d == Drain(inbox, waiters) && k == FirstWaiter(waiters, inbox[0])
    requires others == if k < |waiters| then waiters[..k] + waiters[k + 1..] else waiters
    ensures
      var later := Drain(inbox[1..], others);
      && d.waiters == later.waiters
      && d.inbox == (if k < |waiters| then later.inbox else [inbox[0]] + later.inbox)
      && d.resolved == (if k < |waiters| then [Resolution(waiters[k], inbox[0])] + later.resolved else later.resolved)
  {
    if k < |waiters| {
      DrainGives(inbox, waiters, k);
    } else {
      DrainKeeps(inbox, waiters);
    }
  }

  lemma {:induction false} WaitingCons(r: Resolution, rs: seq<Resolution>)
    ensures Waiting([r] + rs) == [r.waiter] + Waiting(rs) && Answers([r] + rs) == [r.message] + Answers(rs)
  {
    assert ([r] + rs)[1..] == rs;
  }

  lemma {:induction false} CountOne<T>(x: T, s: seq<T>)
    ensures multiset([x] + s) == multiset{x} + multiset(s) && |[x] + s| == 1 + |s|
  {
  }

  lemma {:induction false} Reorder<T>(x: multiset<T>, a: multiset<T>, b: multiset<T>)
    ensures x + (a + b) == a + (x + b) && x + (a + b) == (x + a) + b
  {
  }

  lemma {:induction false} KeptCounts(inbox: seq<Message>, rest: seq<Message>, kept: seq<Message>, answers: seq<Message>)
    requires inbox != [] && rest == inbox[1..] && multiset(rest) == multiset(kept) + multiset(answers)
    ensures multiset(inbox) == multiset([inbox[0]] + kept) + multiset(answers)
  {
    assert inbox == [inbox[0]] + rest;
    CountOne(inbox[0], rest);
    CountOne(inbox[0], kept);
    Reorder(multiset{inbox[0]}, multiset(kept), multiset(answers));
  }

  lemma {:induction false} GivenCounts(inbox: seq<Message>, rest: seq<Message>, kept: seq<Message>, answers: seq<Message>)
    requires inbox != [] && rest == inbox[1..] && multiset(rest) == multiset(kept) + multiset(answers)
    ensures multiset(inbox) == multiset(kept) + multiset([inbox[0]] + answers)
  {
    assert inbox == [inbox[0]] + rest;
    CountOne(inbox[0], rest);
    CountOne(inbox[0], answers);
    Reorder(multiset{inbox[0]}, multiset(kept), multiset(answers));
  }

  lemma {:induction false} DrainConservesMessages(inbox: seq<Message>, waiters: seq<Waiter>, d: Mail)
    requires d == Drain(inbox, waiters)
    ensures multiset(inbox) == multiset(d.inbox) + multiset(Answers(d.resolved))
    ensures |inbox| == |d.inbox| + |d.resolved|
    decreases |inbox|
  {
    if inbox != [] {
      var k := FirstWaiter(waiters, inbox[0]);
      var others := if k < |waiters| then waiters[..k] + waiters[k + 1..] else waiters;
      var later := Drain(inbox[1..], others);
      DrainConservesMessages(inbox[1..], others, later);
      MessagesStep(inbox, waiters, k, others, d, later);
    }
  }

  lemma {:induction false} MessagesStep(
      inbox: seq<Message>, waiters: seq<Waiter>, k: nat, others: seq<Waiter>, d: Mail, later: Mail)
    requires inbox != [] && d == Drain(inbox, waiters) && k == FirstWaiter(waiters, inbox[0])
    requires others == if k < |waiters| then waiters[..k] + waiters[k + 1..] else waiters
    requires later == Drain(inbox[1..], others)
    requires multiset(inbox[1..]) == multiset(later.inbox) + multiset(Answers(later.resolved))
    requires |inbox[1..]| == |later.inbox| + |later.resolved|
    ensures multiset(inbox) == multiset(d.inbox) + multiset(Answers(d.resolved))
    ensures |inbox| == |d.inbox| + |d.resolved|
  {
    DrainStep(inbox, waiters, k, others, d);
    if k < |waiters| {
      WaitingCons(Resolution(waiters[k], inbox[0]), later.resolved);
      GivenCounts(inbox, inbox[1..], later.inbox, Answers(later.resolved));
    } else {
      KeptCounts(inbox, inbox[1..], later.inbox, Answers(later.resolved));
    }
  }

  lemma {:induction false} DrainConservesWaiters(inbox: seq<Message>, waiters: seq<Waiter>, d: Mail)
    requires d == Drain(inbox, waiters)
    ensures multiset(waiters) == multiset(d.waiters) + multiset(Waiting(d.resolved))
    ensures |waiters| == |d.waiters| + |d.resolved|
    decreases |inbox|
  {
    if inbox != [] {
      var k := FirstWaiter(waiters, inbox[0]);
      var others := if k < |waiters| then waiters[..k] + waiters[k + 1..] else waiters;
      var later := Drain(inbox[1..], others);
      DrainStep(inbox, waiters, k, others, d);
      DrainConservesWaiters(inbox[1..], others, later);
      if k < |waiters| {
        RemoveOne(waiters, k);
        WaitingCons(Resolution(waiters[k], inbox[0]), later.resolved);
      }
    }
  }

  lemma {:induction false} DrainAnswersWanted(inbox: seq<Message>, waiters: seq<Waiter>, d: Mail)
    requires d == Drain(inbox, waiters)
    ensures forall i :: 0 <= i < |d.resolved| ==> Wants(d.resolved[i].waiter, d.resolved[i].message)
    decreases |inbox|
  {
    if inbox != [] {
      var k := FirstWaiter(waiters, inbox[0]);
      if k == |waiters| {
        DrainAnswersWanted(inbox[1..], waiters, Drain(inbox[1..], waiters));
      } else {
        var others := waiters[..k] + waiters[k + 1..];
        DrainAnswersWanted(inbox[1..], others, Drain(inbox[1..], others));
      }
    }
  }

  /**
   A drain loses and repeats nothing: every message is kept or answers one waiter, every waiter
   stays or is answered once, and each answer is one the waiter asked for.
   */
  lemma {:induction false} DrainConserves(inbox: seq<Message>, waiters: seq<Waiter>, d: Mail)
    requires d == Drain(inbox, waiters)
    ensures multiset(inbox) == multiset(d.inbox) + multiset(Answers(d.resolved))
    ensures multiset(waiters) == multiset(d.waiters) + multiset(Waiting(d.resolved))
    ensures |inbox| - |d.inbox| == |waiters| - |d.waiters| == |d.resolved|
    ensures forall i :: 0 <= i < |d.resolved| ==> Wants(d.resolved[i].waiter, d.resolved[i].message)
  {
    DrainConservesMessages(inbox, waiters, d);
    DrainConservesWaiters(inbox, waiters, d);
    DrainAnswersWanted(inbox, waiters, d);
  }

  /** The messages kept and the waiters left are in the order they were in. */
  lemma {:induction false} DrainKeepsOrder(inbox: seq<Message>, waiters: seq<Waiter>, d: Mail)
    requires d == Drain(inbox, waiters)
    ensures Subsequence(d.inbox, inbox) && Subsequence(d.waiters, waiters)
    decreases |inbox|
  {
    if inbox == [] {
      SubsequenceSelf(waiters);
    } else {
      var k := FirstWaiter(waiters, inbox[0]);
      if k == |waiters| {
        var later := Drain(inbox[1..], waiters);
        DrainKeepsOrder(inbox[1..], waiters, later);
        assert d.inbox[1..] == later.inbox;
      } else {
        var others := waiters[..k] + waiters[k + 1..];
        DrainKeepsOrder(inbox[1..], others, Drain(inbox[1..], others));
        SubsequenceSkip(d.waiters, waiters, k);
      }
    }
  }

  /** Afterwards no kept message is wanted by a waiter that is left. */
  lemma {:induction false} DrainLeavesNoMatch(inbox: seq<Message>, waiters: seq<Waiter>, d: Mail)
    requires d == Drain(inbox, waiters)
    ensures NoneWanted(d.inbox, d.waiters)
    ensures forall w :: w in d.waiters ==> w in waiters
    decreases |inbox|
  {
    if inbox != [] {
      var m := inbox[0];
      var k := FirstWaiter(waiters, m);
      if k == |waiters| {
        var later := Drain(inbox[1..], waiters);
        DrainLeavesNoMatch(inbox[1..], waiters, later);
        forall i, j | 0 <= i < |d.inbox| && 0 <= j < |d.waiters| ensures !Wants(d.waiters[j], d.inbox[i]) {
          assert d.waiters[j] in waiters;
          if i > 0 {
            assert d.inbox[i] == later.inbox[i - 1];
          }
        }
      } else {
        var others := waiters[..k] + waiters[k + 1..];
        DrainLeavesNoMatch(inbox[1..], others, Drain(inbox[1..], others));
      }
    }
  }

  /** When nothing in the inbox was wanted, only the newest message can be handed over. */
  lemma {:induction false} DrainNewest(inbox: seq<Message>, m: Message, waiters: seq<Waiter>)
    requires NoneWanted(inbox, waiters)
    ensures
      var k := FirstWaiter(waiters, m);
      Drain(inbox + [m], waiters) ==
      if k == |waiters| then Mail(inbox + [m], waiters, [])
      else Mail(inbox, waiters[..k] + waiters[k + 1..], [Resolution(waiters[k], m)])
    decreases |inbox|
  {
    var all := inbox + [m];
    if inbox == [] {
      assert all == [m] && all[1..] == [];
      var k := FirstWaiter(waiters, m);
      assert Drain([], waiters) == Mail([], waiters, []);
      if k < |waiters| {
        assert Drain([], waiters[..k] + waiters[k + 1..]) == Mail([], waiters[..k] + waiters[k + 1..], []);
      }
    } else {
      assert all[0] == inbox[0] && all[1..] == inbox[1..] + [m];
      assert FirstWaiter(waiters, inbox[0]) == |waiters|;
      DrainNewest(inbox[1..], m, waiters);
      assert [inbox[0]] + (inbox[1..] + [m]) == inbox + [m] && [inbox[0]] + inbox[1..] == inbox;
    }
  }

  lemma {:induction false} DrainNothing(inbox: seq<Message>, waiters: seq<Waiter>)
    requires NoneWanted(inbox, waiters)
    ensures Drain(inbox, waiters) == Mail(inbox, waiters, [])
    decreases |inbox|
  {
    if inbox != [] {
      assert FirstWaiter(waiters, inbox[0]) == |waiters|;
      DrainNothing(inbox[1..], waiters);
      assert [inbox[0]] + inbox[1..] == inbox;
    }
  }

  // ----- one frame after another -----

  function Drained(mail: Mail): Mail {
    var d := Drain(mail.inbox, mail.waiters);
    Mail(d.inbox, d.waiters, mail.resolved + d.resolved)
  }

  function Deliver(mail: Mail, p: Parsed): Mail {
    match p
    case Object(m) => Drained(mail.(inbox := mail.inbox + [m]))
    case Scalar => Drained(mail)
    case _ => mail
  }

  function DeliverAll(parse: Bytes -> Parsed, mail: Mail, frames: seq<Bytes>): Mail
    decreases |frames|
  {
    if frames == [] then mail else DeliverAll(parse, Deliver(mail, parse(frames[0])), frames[1..])
  }

  /** How many of the frames are handled: all of them, or those up to the first that does not parse. */
  function Used(parse: Bytes -> Parsed, frames: seq<Bytes>): (n: nat)
    ensures n <= |frames|
    ensures forall i :: 0 <= i < n - 1 ==> parse(frames[i]) != Throws
    ensures n < |frames| ==> n > 0 && parse(frames[n - 1]) == Throws
  {
    if frames == [] then 0 else if parse(frames[0]) == Throws then 1 else 1 + Used(parse, frames[1..])
  }

  predicate Stumbles(parse: Bytes -> Parsed, frames: seq<Bytes>) {
    frames != [] && (parse(frames[0]) == Throws || Stumbles(parse, frames[1..]))
  }

  function Pongs(parse: Bytes -> Parsed, frames: seq<Bytes>): Bytes {
    if frames == [] then []
    else (if parse(frames[0]) == PingText then Frame(PONG) else []) + Pongs(parse, frames[1..])
  }

  /** The body that waitVariant would answer with at once. */
  function Ready(inbox: seq<Message>, variant: string): (r: Option<Body>)
    ensures r.None? <==> forall i :: 0 <= i < |inbox| ==> variant !in inbox[i]
  {
    if inbox == [] then None
    else if variant in inbox[0] then Some(inbox[0][variant])
    else Ready(inbox[1..], variant)
  }

  function Without(waiters: seq<Waiter>, id: nat): (r: seq<Waiter>)
    ensures forall w :: w in r <==> w in waiters && w.id != id
    ensures |r| <= |waiters|
  {
    if waiters == [] then []
    else if waiters[0].id == id then Without(waiters[1..], id)
    else [waiters[0]] + Without(waiters[1..], id)
  }

  lemma {:induction false} DistinctRest(waiters: seq<Waiter>)
    requires Distinct(waiters) && waiters != []
    ensures Distinct(waiters[1..])
  {
  }

  lemma {:induction false} CutAfterFirst(waiters: seq<Waiter>, k: nat)
    requires 0 < k < |waiters|
    ensures [waiters[0]] + (waiters[1..][..k - 1] + waiters[1..][k..]) == waiters[..k] + waiters[k + 1..]
  {
  }

  lemma {:induction false} WithoutAt(waiters: seq<Waiter>, k: nat)
    requires k < |waiters| && Distinct(waiters)
    ensures Without(waiters, waiters[k].id) == waiters[..k] + waiters[k + 1..]
  {
    var rest := waiters[1..];
    if k == 0 {
      assert forall i :: 0 <= i < |rest| ==> rest[i] == waiters[i + 1];
      WithoutAbsent(rest, waiters[0].id);
      assert waiters[..0] + rest == rest;
    } else {
      DistinctRest(waiters);
      WithoutAt(rest, k - 1);
      CutAfterFirst(waiters, k);
    }
  }

  lemma {:induction false} WithoutAbsent(waiters: seq<Waiter>, id: nat)
    requires forall w :: w in waiters ==> w.id != id
    ensures Without(waiters, id) == waiters
  {
    if waiters != [] {
      WithoutAbsent(waiters[1..], id);
    }
  }

  lemma {:induction false} WithoutDistinct(waiters: seq<Waiter>, id: nat)
    requires Distinct(waiters)
    ensures Distinct(Without(waiters, id))
  {
    if waiters != [] {
      WithoutDistinct(waiters[1..], id);
      if waiters[0].id != id {
        var rest := Without(waiters[1..], id);
        forall j | 0 <= j < |rest| ensures rest[j].id != waiters[0].id {
          assert rest[j] in waiters[1..];
        }
      }
    }
  }

  /** The frames handled when the stream is `b`, and what is left of it. */
  function Taken(parse: Bytes -> Parsed, b: Bytes): seq<Bytes> {
    var frames := Deframe(b).frames;
    frames[..Used(parse, frames)]
  }

  function Left(parse: Bytes -> Parsed, b: Bytes): Decoded {
    var d := Deframe(b);
    Decoded(d.frames[Used(parse, d.frames)..], d.rest)
  }

  /** What handling the buffered bytes leaves behind. */
  datatype Outcome = Outcome(mail: Mail, sent: Bytes, buffered: Bytes, threw: bool)

  /** Frames are handled one by one until none is complete or one does not parse. */
  function HandleAll(parse: Bytes -> Parsed, connected: bool, b: Bytes, mail: Mail, sent: Bytes): Outcome
    decreases |b|
  {
    if !Complete(b) then Outcome(mail, sent, b, false)
    else
      var p := parse(b[4..4 + ReadWord(b)]);
      var later := b[4 + ReadWord(b)..];
      if p == Throws then Outcome(mail, sent, later, true)
      else HandleAll(parse, connected, later, Deliver(mail, p),
                     if connected && p == PingText then sent + Frame(PONG) else sent)
  }

  lemma {:induction false} TakenNext(parse: Bytes -> Parsed, b: Bytes)
    requires Complete(b) && parse(b[4..4 + ReadWord(b)]) != Throws
    ensures Taken(parse, b) == [b[4..4 + ReadWord(b)]] + Taken(parse, b[4 + ReadWord(b)..])
    ensures Taken(parse, b)[1..] == Taken(parse, b[4 + ReadWord(b)..])
    ensures Left(parse, b) == Left(parse, b[4 + ReadWord(b)..])
  {
    var frames := Deframe(b).frames;
    assert frames[1..] == Deframe(b[4 + ReadWord(b)..]).frames;
    var n := Used(parse, frames[1..]);
    assert frames[..n + 1] == [frames[0]] + frames[1..][..n];
    assert frames[n + 1..] == frames[1..][n..];
  }

  lemma {:induction false} TakenStumble(parse: Bytes -> Parsed, b: Bytes)
    requires Complete(b) && parse(b[4..4 + ReadWord(b)]) == Throws
    ensures Taken(parse, b) == [b[4..4 + ReadWord(b)]] && Left(parse, b) == Deframe(b[4 + ReadWord(b)..])
    ensures Stumbles(parse, Deframe(b).frames)
  {
    var frames := Deframe(b).frames;
    assert frames[..1] == [frames[0]];
    assert frames[1..] == Deframe(b[4 + ReadWord(b)..]).frames;
  }

  lemma {:induction false} DeliverOne(parse: Bytes -> Parsed, mail: Mail, frame: Bytes)
    ensures DeliverAll(parse, mail, [frame]) == Deliver(mail, parse(frame))
    ensures Pongs(parse, [frame]) == if parse(frame) == PingText then Frame(PONG) else []
  {
    assert [frame][1..] == [];
    assert DeliverAll(parse, Deliver(mail, parse(frame)), []) == Deliver(mail, parse(frame));
  }

  /**
   The loop over the buffer delivers exactly the frames of the stream, up to the first that does
   not parse; the frames after that one and the incomplete suffix stay in the buffer.
   */
  lemma {:induction false} HandleAllDeframes(
      parse: Bytes -> Parsed, connected: bool, b: Bytes, mail: Mail, sent: Bytes, o: Outcome)
    requires o == HandleAll(parse, connected, b, mail, sent)
    ensures o.mail == DeliverAll(parse, mail, Taken(parse, b)) && Deframe(o.buffered) == Left(parse, b)
    ensures o.threw <==> Stumbles(parse, Deframe(b).frames)
    ensures !o.threw ==> o.buffered == Deframe(b).rest
    decreases |b|
  {
    if !Complete(b) {
      assert Deframe(b).frames[..0] == [];
    } else {
      var frame, later := b[4..4 + ReadWord(b)], b[4 + ReadWord(b)..];
      if parse(frame) == Throws {
        TakenStumble(parse, b);
        DeliverOne(parse, mail, frame);
      } else {
        var sent' := if connected && parse(frame) == PingText then sent + Frame(PONG) else sent;
        HandleAllDeframes(parse, connected, later, Deliver(mail, parse(frame)), sent', o);
        TakenNext(parse, b);
        StumblesLater(parse, b);
      }
    }
  }

  lemma {:induction false} StumblesLater(parse: Bytes -> Parsed, b: Bytes)
    requires Complete(b) && parse(b[4..4 + ReadWord(b)]) != Throws
    ensures Stumbles(parse, Deframe(b).frames) == Stumbles(parse, Deframe(b[4 + ReadWord(b)..]).frames)
  {
    assert Deframe(b).frames[1..] == Deframe(b[4 + ReadWord(b)..]).frames;
  }

  /** Every Ping handled is answered with one Pong frame, in order, and nothing else is sent. */
  lemma {:induction false} HandleAllReplies(
      parse: Bytes -> Parsed, connected: bool, b: Bytes, mail: Mail, sent: Bytes, o: Outcome)
    requires o == HandleAll(parse, connected, b, mail, sent)
    ensures o.sent == if connected then sent + Pongs(parse, Taken(parse, b)) else sent
    decreases |b|
  {
    if !Complete(b) {
      assert Deframe(b).frames[..0] == [] && sent + [] == sent;
    } else {
      var frame, later := b[4..4 + ReadWord(b)], b[4 + ReadWord(b)..];
      if parse(frame) == Throws {
        TakenStumble(parse, b);
        DeliverOne(parse, mail, frame);
        assert sent + [] == sent;
      } else {
        var reply := if parse(frame) == PingText then Frame(PONG) else [];
        var sent' := if connected && parse(frame) == PingText then sent + Frame(PONG) else sent;
        HandleAllReplies(parse, connected, later, Deliver(mail, parse(frame)), sent', o);
        TakenNext(parse, b);
        PongsNext(parse, Taken(parse, b), sent);
      }
    }
  }

  lemma {:induction false} PongsNext(parse: Bytes -> Parsed, frames: seq<Bytes>, sent: Bytes)
    requires frames != []
    ensures sent + Pongs(parse, frames) ==
            (if parse(frames[0]) == PingText then sent + Frame(PONG) else sent) + Pongs(parse, frames[1..])
  {
  }

  /** A drain half done: what is set aside and answered so far, and what is still to be gone through. */
  ghost predicate Partly(
      goal: Mail, aside: seq<Message>, rest: seq<Message>, waiters: seq<Waiter>, resolved: seq<Resolution>)
  {
    var d := Drain(rest, waiters);
    goal == Mail(aside + d.inbox, d.waiters, resolved + d.resolved)
  }

  lemma {:induction false} PartlyStarts(
      goal: Mail, inbox: seq<Message>, waiters: seq<Waiter>, resolved: seq<Resolution>)
    requires goal == Drained(Mail(inbox, waiters, resolved))
    ensures Partly(goal, [], inbox[0..], waiters, resolved)
  {
    assert inbox[0..] == inbox;
    assert [] + Drain(inbox, waiters).inbox == Drain(inbox, waiters).inbox;
  }

  lemma {:induction false} PartlyEnds(
      goal: Mail, aside: seq<Message>, rest: seq<Message>, waiters: seq<Waiter>, resolved: seq<Resolution>)
    requires Partly(goal, aside, rest, waiters, resolved) && rest == []
    ensures goal == Mail(aside, waiters, resolved)
  {
    assert aside + [] == aside && resolved + [] == resolved;
  }

  lemma {:induction false} Join<T>(a: seq<T>, b: seq<T>, c: seq<T>)
    ensures a + (b + c) == (a + b) + c
  {
  }

  /** The first waiter that wants the message gets it and leaves; with none of them all stays as it is. */
  ghost predicate Offered(
      m: Message, waiters: seq<Waiter>, resolved: seq<Resolution>, consumed: bool,
      waiters': seq<Waiter>, resolved': seq<Resolution>)
  {
    var k := FirstWaiter(waiters, m);
    && (consumed <==> k < |waiters|)
    && waiters' == (if k < |waiters| then waiters[..k] + waiters[k + 1..] else waiters)
    && resolved' == (if k < |waiters| then resolved + [Resolution(waiters[k], m)] else resolved)
  }

  lemma {:induction false} PartlyNext(
      goal: Mail, aside: seq<Message>, m: Message, rest: seq<Message>, waiters: seq<Waiter>, resolved: seq<Resolution>,
      consumed: bool, waiters': seq<Waiter>, resolved': seq<Resolution>)
    requires Partly(goal, aside, [m] + rest, waiters, resolved)
    requires Offered(m, waiters, resolved, consumed, waiters', resolved')
    ensures Partly(goal, if consumed then aside else aside + [m], rest, waiters', resolved')
  {
    var k, later := FirstWaiter(waiters, m), Drain(rest, waiters');
    assert ([m] + rest)[1..] == rest;
    DrainStep([m] + rest, waiters, k, waiters', Drain([m] + rest, waiters));
    Join(aside, [m], later.inbox);
    if k < |waiters| {
      Join(resolved, [Resolution(waiters[k], m)], later.resolved);
    }
  }

  // ----- the client object -----

  class Client {
    var connected: bool
    var sent: Bytes
    var buffered: Bytes
    var inbox: seq<Message>
    var waiters: seq<Waiter>
    var resolved: seq<Resolution>
    var nextId: nat
    const parse: Bytes -> Parsed

    /** Between any two events no message in the inbox is wanted by a registered waiter. */
    ghost predicate Valid()
      reads this
    {
      && Distinct(waiters) && (forall w :: w in waiters ==> w.id < nextId)
      && NoneWanted(inbox, waiters)
    }

    ghost function Mailbox(): Mail
      reads this
    {
      Mail(inbox, waiters, resolved)
    }

    constructor (parse: Bytes -> Parsed)
      ensures Valid() && !connected && sent == [] && buffered == [] && Mailbox() == Mail([], [], [])
      ensures this.parse == parse
    {
      this.parse := parse;
      connected, sent, buffered := false, [], [];
      inbox, waiters, resolved, nextId := [], [], [], 0;
    }

    /** Writes one frame to the socket, if there is one; a payload that does not fit its header is refused. */
    method Send(payload: Bytes) returns (ok: bool)
      modifies this`sent
      ensures ok <==> !connected || |payload| < WORD
      ensures sent == if connected && ok then old(sent) + Frame(payload) else old(sent)
    {
      if !connected {
        return true;
      }
      if |payload| >= WORD {
        return false;
      }
      sent := sent + (BigEndian(|payload|) + payload);
      return true;
    }

    /** The waiters are distinct and were all registered here. */
    ghost predicate Registered()
      reads this`waiters, this`nextId
    {
      Distinct(waiters) && forall w :: w in waiters ==> w.id < nextId
    }

    /** The inner loop of drainWaiters: the first waiter that wants the message gets it. */
    method Offer(msg: Message) returns (consumed: bool)
      requires Registered()
      modifies this`waiters, this`resolved
      ensures Registered()
      ensures Offered(msg, old(waiters), old(resolved), consumed, waiters, resolved)
    {
      var k := 0;
      while k < |waiters|
        invariant 0 <= k <= |waiters| && waiters == old(waiters) && resolved == old(resolved)
        invariant forall j :: 0 <= j < k ==> !Wants(waiters[j], msg)
      {
        var waiter := waiters[k];
        if Wants(waiter, msg) {
          resolved := resolved + [Resolution(waiter, msg)];
          WithoutAt(waiters, k);
          WithoutDistinct(waiters, waiter.id);
          waiters := Without(waiters, waiter.id);
          assert k == FirstWaiter(old(waiters), msg);
          return true;
        }
        k := k + 1;
      }
      return false;
    }

    /** One round of the outer loop: the message is handed over or set aside. */
    method Pass(msg: Message, ghost goal: Mail, ghost aside: seq<Message>, ghost rest: seq<Message>)
      returns (consumed: bool)
      requires Registered() && Partly(goal, aside, [msg] + rest, waiters, resolved)
      modifies this`waiters, this`resolved
      ensures Registered()
      ensures Partly(goal, if consumed then aside else aside + [msg], rest, waiters, resolved)
    {
      ghost var waiting, answered := waiters, resolved;
      consumed := Offer(msg);
      PartlyNext(goal, aside, msg, rest, waiting, answered, consumed, waiters, resolved);
    }

    method DrainWaiters()
      requires Registered()
      modifies this`inbox, this`waiters, this`resolved
      ensures Mailbox() == Drained(old(Mailbox())) && Valid()
    {
      ghost var goal := Drained(Mailbox());
      DrainLeavesNoMatch(inbox, waiters, Drain(inbox, waiters));
      if |waiters| == 0 || |inbox| == 0 {
        DrainNothing(inbox, waiters);
        assert resolved + [] == resolved;
        return;
      }
      var nextInbox: seq<Message> := [];
      var i := 0;
      PartlyStarts(goal, inbox, waiters, resolved);
      while i < |inbox|
        invariant 0 <= i <= |inbox| && inbox == old(inbox)
        invariant Registered()
        invariant Partly(goal, nextInbox, inbox[i..], waiters, resolved)
      {
        var msg := inbox[i];
        assert inbox[i..] == [msg] + inbox[i + 1..];
        var consumed := Pass(msg, goal, nextInbox, inbox[i + 1..]);
        if !consumed {
          nextInbox := nextInbox + [msg];
        }
        i := i + 1;
      }
      PartlyEnds(goal, nextInbox, inbox[i..], waiters, resolved);
      inbox := nextInbox;
    }

    /** What the loop of handleData does with one payload. */
    method HandlePayload(payload: Bytes) returns (threw: bool)
      requires Valid()
      modifies this`sent, this`inbox, this`waiters, this`resolved
      ensures Valid()
      ensures threw <==> parse(payload) == Throws
      ensures Mailbox() == Deliver(old(Mailbox()), parse(payload))
      ensures sent == if connected && parse(payload) == PingText then old(sent) + Frame(PONG) else old(sent)
    {
      var parsed := parse(payload);
      if parsed == Throws {
        return true;
      }
      threw := false;
      if parsed == PingText {
        var ok := Send(PONG);
        return;
      }
      if parsed == PongText {
        return;
      }
      if parsed.Object? {
        inbox := inbox + [parsed.message];
      }
      DrainWaiters();
    }

    method HandleData(chunk: Bytes) returns (threw: bool)
      requires Valid()
      modifies this`buffered, this`sent, this`inbox, this`waiters, this`resolved
      ensures Valid()
      ensures Outcome(Mailbox(), sent, buffered, threw) ==
              HandleAll(parse, connected, old(buffered) + chunk, old(Mailbox()), old(sent))
    {
      buffered := buffered + chunk;
      ghost var goal := HandleAll(parse, connected, buffered, Mailbox(), sent);
      while |buffered| >= 4
        invariant Valid()
        invariant goal == HandleAll(parse, connected, buffered, Mailbox(), sent)
        decreases |buffered|
      {
        var size := ReadWord(buffered);
        if |buffered| < 4 + size {
          break;
        }
        var payload := buffered[4..4 + size];
        buffered := buffered[4 + size..];
        threw := HandlePayload(payload);
        if threw {
          return;
        }
      }
      return false;
    }

    /** Answers at once from the inbox, leaving the message there, or registers a waiter. */
    method WaitVariant(variant: string) returns (answer: Option<Body>)
      requires Valid()
      modifies this`waiters, this`nextId
      ensures Valid()
      ensures answer == Ready(inbox, variant)
      ensures answer.Some? ==> waiters == old(waiters) && nextId == old(nextId)
      ensures answer.None? ==> waiters == old(waiters) + [Waiter(old(nextId), variant)] && nextId == old(nextId) + 1
    {
      var i := 0;
      while i < |inbox|
        invariant 0 <= i <= |inbox|
        invariant waiters == old(waiters) && nextId == old(nextId)
        invariant Ready(inbox, variant) == Ready(inbox[i..], variant)
      {
        if variant in inbox[i] {
          return Some(inbox[i][variant]);
        }
        assert inbox[i..][1..] == inbox[i + 1..];
        i := i + 1;
      }
      waiters := waiters + [Waiter(nextId, variant)];
      nextId := nextId + 1;
      return None;
    }

    /** The timer of a waiter: whoever has been answered is no longer there. */
    method Expire(id: nat)
      requires Valid()
      modifies this`waiters
      ensures Valid() && waiters == Without(old(waiters), id)
    {
      WithoutDistinct(waiters, id);
      ghost var before := waiters;
      waiters := Without(waiters, id);
      forall i, j | 0 <= i < |inbox| && 0 <= j < |waiters| ensures !Wants(waiters[j], inbox[i]) {
        assert waiters[j] in before;
      }
    }
  }

  // ----- any way of cutting the stream -----

  /** The client as a value, and what an event makes of it. */
  datatype State = State(buffered: Bytes, mail: Mail, sent: Bytes, nextId: nat)

  datatype Event =
    | Data(chunk: Bytes)
    | Wait(variant: string)
    | Expire(id: nat)

  ghost function Step(parse: Bytes -> Parsed, connected: bool, s: State, e: Event): State {
    match e
    case Data(chunk) =>
      var o := HandleAll(parse, connected, s.buffered + chunk, s.mail, s.sent);
      State(o.buffered, o.mail, o.sent, s.nextId)
    case Wait(variant) =>
      if Ready(s.mail.inbox, variant).Some? then s
      else s.(mail := s.mail.(waiters := s.mail.waiters + [Waiter(s.nextId, variant)]), nextId := s.nextId + 1)
    case Expire(id) => s.(mail := s.mail.(waiters := Without(s.mail.waiters, id)))
  }

  ghost function Run(parse: Bytes -> Parsed, connected: bool, s: State, es: seq<Event>): State
    decreases |es|
  {
    if es == [] then s else Run(parse, connected, Step(parse, connected, s, es[0]), es[1..])
  }

  function Arrivals(chunks: seq<Bytes>): seq<Event> {
    if chunks == [] then [] else [Data(chunks[0])] + Arrivals(chunks[1..])
  }

  function Concat(chunks: seq<Bytes>): Bytes {
    if chunks == [] then [] else chunks[0] + Concat(chunks[1..])
  }

  lemma {:induction false} DeliverAppend(parse: Bytes -> Parsed, mail: Mail, a: seq<Bytes>, b: seq<Bytes>)
    ensures DeliverAll(parse, mail, a + b) == DeliverAll(parse, DeliverAll(parse, mail, a), b)
    decreases |a|
  {
    if a == [] {
      assert a + b == b;
    } else {
      assert (a + b)[0] == a[0] && (a + b)[1..] == a[1..] + b;
      DeliverAppend(parse, Deliver(mail, parse(a[0])), a[1..], b);
    }
  }

  /** How the frames still to come look after a first part `b` of the stream has been handled. */
  lemma {:induction false} AfterFirstPart(parse: Bytes -> Parsed, b: Bytes, left: Bytes, more: Bytes)
    requires Deframe(left) == Left(parse, b)
    ensures |Taken(parse, b)| <= |Deframe(b + more).frames|
    ensures Taken(parse, b) == Deframe(b + more).frames[..|Taken(parse, b)|]
    ensures Deframe(left + more) == Decoded(Deframe(b + more).frames[|Taken(parse, b)|..], Deframe(b + more).rest)
  {
    DeframeAppend(b, more);
    DeframeAppend(left, more);
    CutPrefix(Deframe(b).frames, Deframe(Deframe(b).rest + more).frames, Used(parse, Deframe(b).frames));
  }

  lemma {:induction false} CutPrefix(frames: seq<Bytes>, later: seq<Bytes>, n: nat)
    requires n <= |frames|
    ensures (frames + later)[..n] == frames[..n] && (frames + later)[n..] == frames[n..] + later
  {
  }

  lemma {:induction false} OneChunk(parse: Bytes -> Parsed, connected: bool, s: State, chunk: Bytes, s1: State)
    requires s1 == Step(parse, connected, s, Data(chunk))
    ensures s1.mail == DeliverAll(parse, s.mail, Taken(parse, s.buffered + chunk))
    ensures Deframe(s1.buffered) == Left(parse, s.buffered + chunk)
    ensures !Stumbles(parse, Deframe(s.buffered + chunk).frames) ==> !Complete(s1.buffered)
  {
    var b := s.buffered + chunk;
    HandleAllDeframes(parse, connected, b, s.mail, s.sent, HandleAll(parse, connected, b, s.mail, s.sent));
  }

  lemma {:induction false} FirstChunk(parse: Bytes -> Parsed, connected: bool, s: State, chunks: seq<Bytes>)
    requires chunks != []
    ensures Run(parse, connected, s, Arrivals(chunks)) ==
            Run(parse, connected, Step(parse, connected, s, Data(chunks[0])), Arrivals(chunks[1..]))
    ensures s.buffered + Concat(chunks) == (s.buffered + chunks[0]) + Concat(chunks[1..])
  {
    RunCons(parse, connected, s, Data(chunks[0]), Arrivals(chunks[1..]));
    Join(s.buffered, chunks[0], Concat(chunks[1..]));
  }

  lemma {:induction false} RunCons(parse: Bytes -> Parsed, connected: bool, s: State, e: Event, es: seq<Event>)
    ensures Run(parse, connected, s, [e] + es) == Run(parse, connected, Step(parse, connected, s, e), es)
  {
    assert ([e] + es)[1..] == es;
  }

  /** The first `n` frames of the stream have been delivered and the rest is still in the buffer `b`. */
  ghost predicate DeliveredUpTo(parse: Bytes -> Parsed, mail: Mail, stream: Bytes, n: nat, mail': Mail, b: Bytes) {
    && n <= |Deframe(stream).frames|
    && mail' == DeliverAll(parse, mail, Deframe(stream).frames[..n])
    && Deframe(b) == Decoded(Deframe(stream).frames[n..], Deframe(stream).rest)
  }

  lemma {:induction false} DeliveredJoin(
      parse: Bytes -> Parsed, mail: Mail, b: Bytes, left: Bytes, more: Bytes, k: nat, mail': Mail, b': Bytes)
    requires Deframe(left) == Left(parse, b)
    requires DeliveredUpTo(parse, DeliverAll(parse, mail, Taken(parse, b)), left + more, k, mail', b')
    ensures DeliveredUpTo(parse, mail, b + more, |Taken(parse, b)| + k, mail', b')
  {
    AfterFirstPart(parse, b, left, more);
    DeliverTwice(parse, mail, Deframe(b + more).frames, |Taken(parse, b)|, k);
  }

  lemma {:induction false} DeliverTwice(parse: Bytes -> Parsed, mail: Mail, frames: seq<Bytes>, n: nat, k: nat)
    requires n <= |frames| && k <= |frames| - n
    ensures DeliverAll(parse, mail, frames[..n + k]) ==
            DeliverAll(parse, DeliverAll(parse, mail, frames[..n]), frames[n..][..k])
    ensures frames[n + k..] == frames[n..][k..]
  {
    assert frames[..n + k] == frames[..n] + frames[n..][..k];
    DeliverAppend(parse, mail, frames[..n], frames[n..][..k]);
  }

  /**
   Whatever the chunks, the payloads delivered are the first `n` frames of the whole stream in
   order, and the buffer holds the rest: nothing is lost, repeated or reordered, even when some
   frames do not parse.
   */
  lemma {:induction false} ChunksDeliver(
      parse: Bytes -> Parsed, connected: bool, s: State, chunks: seq<Bytes>, stream: Bytes, s': State) returns (n: nat)
    requires stream == s.buffered + Concat(chunks) && s' == Run(parse, connected, s, Arrivals(chunks))
    ensures DeliveredUpTo(parse, s.mail, stream, n, s'.mail, s'.buffered)
    decreases |chunks|
  {
    if chunks == [] {
      n := 0;
      assert stream == s.buffered && Deframe(stream).frames[..0] == [];
    } else {
      var b, more := s.buffered + chunks[0], Concat(chunks[1..]);
      FirstChunk(parse, connected, s, chunks);
      var s1 := Step(parse, connected, s, Data(chunks[0]));
      OneChunk(parse, connected, s, chunks[0], s1);
      var k := ChunksDeliver(parse, connected, s1, chunks[1..], s1.buffered + more, s');
      DeliveredJoin(parse, s.mail, b, s1.buffered, more, k, s'.mail, s'.buffered);
      n := |Taken(parse, b)| + k;
    }
  }

  lemma {:induction false} NoStumble(parse: Bytes -> Parsed, frames: seq<Bytes>)
    requires !Stumbles(parse, frames)
    ensures forall i :: 0 <= i < |frames| ==> parse(frames[i]) != Throws
  {
    if frames != [] {
      NoStumble(parse, frames[1..]);
      assert forall i :: 1 <= i < |frames| ==> frames[i] == frames[1..][i - 1];
    }
  }

  lemma {:induction false} StumbleWitness(parse: Bytes -> Parsed, frames: seq<Bytes>)
    ensures Stumbles(parse, frames) ==> exists i :: 0 <= i < |frames| && parse(frames[i]) == Throws
  {
    if Stumbles(parse, frames) {
      if parse(frames[0]) != Throws {
        StumbleWitness(parse, frames[1..]);
        var i :| 0 <= i < |frames[1..]| && parse(frames[1..][i]) == Throws;
        assert parse(frames[i + 1]) == Throws;
      }
    }
  }

  lemma {:induction false} NoStumbleLater(parse: Bytes -> Parsed, b: Bytes, left: Bytes, more: Bytes)
    requires Deframe(left) == Left(parse, b) && !Stumbles(parse, Deframe(b + more).frames)
    ensures !Stumbles(parse, Deframe(b).frames) && !Stumbles(parse, Deframe(left + more).frames)
  {
    AfterFirstPart(parse, b, left, more);
    var all, n := Deframe(b + more).frames, |Taken(parse, b)|;
    NoStumble(parse, all);
    StumbleWitness(parse, all[n..]);
    DeframeAppend(b, more);
    var first := Deframe(b).frames;
    CutPrefix(first, Deframe(Deframe(b).rest + more).frames, |first|);
    assert first[..|first|] == first;
    assert forall i :: 0 <= i < |first| ==> first[i] == all[i];
    StumbleWitness(parse, first);
  }

  /** When every frame parses, none is held back in the buffer. */
  lemma {:induction false} NothingHeldBack(
      parse: Bytes -> Parsed, connected: bool, s: State, chunks: seq<Bytes>, stream: Bytes, s': State)
    requires stream == s.buffered + Concat(chunks) && s' == Run(parse, connected, s, Arrivals(chunks))
    requires !Complete(s.buffered) && !Stumbles(parse, Deframe(stream).frames)
    ensures !Complete(s'.buffered)
    decreases |chunks|
  {
    if chunks != [] {
      var b, more := s.buffered + chunks[0], Concat(chunks[1..]);
      FirstChunk(parse, connected, s, chunks);
      var s1 := Step(parse, connected, s, Data(chunks[0]));
      OneChunk(parse, connected, s, chunks[0], s1);
      NoStumbleLater(parse, b, s1.buffered, more);
      NothingHeldBack(parse, connected, s1, chunks[1..], s1.buffered + more, s');
    }
  }

  lemma {:induction false} DeframeAll(ps: seq<Bytes>, tail: Bytes)
    requires Fit(ps) && !Complete(tail)
    ensures Deframe(Stream(ps) + tail) == Decoded(ps, tail)
  {
    DeframeStream(ps, tail);
    assert ps + [] == ps;
  }

  /** The payloads a peer frames arrive exactly as sent, in order, however the bytes are cut. */
  lemma {:induction false} StreamDelivered(
      parse: Bytes -> Parsed, connected: bool, s: State, ps: seq<Bytes>, tail: Bytes, chunks: seq<Bytes>, s': State)
    requires s.buffered == [] && Fit(ps) && !Complete(tail) && Concat(chunks) == Stream(ps) + tail
    requires forall i :: 0 <= i < |ps| ==> parse(ps[i]) != Throws
    requires s' == Run(parse, connected, s, Arrivals(chunks))
    ensures s'.mail == DeliverAll(parse, s.mail, ps) && s'.buffered == tail
  {
    var stream := Concat(chunks);
    assert s.buffered + stream == stream;
    DeframeAll(ps, tail);
    StumbleWitness(parse, ps);
    var n := ChunksDeliver(parse, connected, s, chunks, stream, s');
    NothingHeldBack(parse, connected, s, chunks, stream, s');
    assert ps[n..] == [] && ps[..n] == ps;
  }

  // ----- between any two events -----

  ghost predicate Sound(s: State) {
    && Distinct(s.mail.waiters) && (forall w :: w in s.mail.waiters ==> w.id < s.nextId)
    && NoneWanted(s.mail.inbox, s.mail.waiters)
  }

  lemma {:induction false} HandOver(inbox: seq<Message>, m: Message, waiters: seq<Waiter>, k: nat)
    requires NoneWanted(inbox, waiters) && Distinct(waiters) && k == FirstWaiter(waiters, m)
    ensures k < |waiters| ==> Distinct(waiters[..k] + waiters[k + 1..]) && NoneWanted(inbox, waiters[..k] + waiters[k + 1..])
    ensures k < |waiters| ==> forall w :: w in waiters[..k] + waiters[k + 1..] ==> w in waiters
    ensures k == |waiters| ==> NoneWanted(inbox + [m], waiters)
  {
  }

  lemma {:induction false} DeliverSound(parse: Bytes -> Parsed, mail: Mail, p: Parsed, nextId: nat)
    requires Sound(State([], mail, [], nextId))
    ensures Sound(State([], Deliver(mail, p), [], nextId)) && mail.inbox <= Deliver(mail, p).inbox
  {
    match p
    case Object(m) =>
      DrainNewest(mail.inbox, m, mail.waiters);
      HandOver(mail.inbox, m, mail.waiters, FirstWaiter(mail.waiters, m));
    case Scalar => DrainNothing(mail.inbox, mail.waiters);
    case _ =>
  }

  lemma {:induction false} HandleAllSound(
      parse: Bytes -> Parsed, connected: bool, b: Bytes, mail: Mail, sent: Bytes, nextId: nat)
    requires Sound(State([], mail, [], nextId))
    ensures Sound(State([], HandleAll(parse, connected, b, mail, sent).mail, [], nextId))
    ensures mail.inbox <= HandleAll(parse, connected, b, mail, sent).mail.inbox
    decreases |b|
  {
    if Complete(b) {
      var p, later := parse(b[4..4 + ReadWord(b)]), b[4 + ReadWord(b)..];
      if p != Throws {
        var sent' := if connected && p == PingText then sent + Frame(PONG) else sent;
        DeliverSound(parse, mail, p, nextId);
        HandleAllSound(parse, connected, later, Deliver(mail, p), sent', nextId);
      }
    }
  }

  lemma {:induction false} StepSound(parse: Bytes -> Parsed, connected: bool, s: State, e: Event)
    requires Sound(s)
    ensures Sound(Step(parse, connected, s, e)) && s.mail.inbox <= Step(parse, connected, s, e).mail.inbox
  {
    match e
    case Data(chunk) => HandleAllSound(parse, connected, s.buffered + chunk, s.mail, s.sent, s.nextId);
    case Wait(variant) =>
    case Expire(id) =>
      WithoutDistinct(s.mail.waiters, id);
      var left := Without(s.mail.waiters, id);
      forall i, j | 0 <= i < |s.mail.inbox| && 0 <= j < |left| ensures !Wants(left[j], s.mail.inbox[i]) {
        assert left[j] in s.mail.waiters;
      }
  }

  /**
   In every run of arrivals, waits and timeouts no message in the inbox is wanted by a waiter
   between two events, and what is in the inbox never leaves it again.
   */
  lemma {:induction false} InboxOnlyGrows(parse: Bytes -> Parsed, connected: bool, s: State, es: seq<Event>)
    requires Sound(s)
    ensures Sound(Run(parse, connected, s, es)) && s.mail.inbox <= Run(parse, connected, s, es).mail.inbox
    decreases |es|
  {
    if es != [] {
      StepSound(parse, connected, s, es[0]);
      InboxOnlyGrows(parse, connected, Step(parse, connected, s, es[0]), es[1..]);
    }
  }

  lemma {:induction false} ReadyPrefix(a: seq<Message>, b: seq<Message>, variant: string)
    requires a <= b && Ready(a, variant).Some?
    ensures Ready(b, variant) == Ready(a, variant)
    decreases |a|
  {
    if variant !in a[0] {
      ReadyPrefix(a[1..], b[1..], variant);
    }
  }

  /** Once a message answers a variant from the inbox, every later call for it gets that same answer. */
  lemma {:induction false} StaleAnswer(parse: Bytes -> Parsed, connected: bool, s: State, es: seq<Event>, variant: string)
    requires Sound(s) && Ready(s.mail.inbox, variant).Some?
    ensures Ready(Run(parse, connected, s, es).mail.inbox, variant) == Ready(s.mail.inbox, variant)
  {
    InboxOnlyGrows(parse, connected, s, es);
    ReadyPrefix(s.mail.inbox, Run(parse, connected, s, es).mail.inbox, variant);
  }

  /**
   A reply that comes after its caller has timed out is such a message: from then on every call
   for its variant gets this old reply, whatever arrives later.
   */
  lemma {:induction false} LateReply(
      parse: Bytes -> Parsed, connected: bool, s: State, m: Message, variant: string, mail: Mail, es: seq<Event>)
    requires Sound(s) && Ready(s.mail.inbox, variant).None? && variant in m
    requires forall w :: w in s.mail.waiters ==> !Wants(w, m)
    requires mail == Deliver(s.mail, Object(m))
    ensures Ready(Run(parse, connected, s.(mail := mail), es).mail.inbox, variant) == Some(m[variant])
  {
    DrainNewest(s.mail.inbox, m, s.mail.waiters);
    DeliverSound(parse, s.mail, Object(m), s.nextId);
    ReadyLast(s.mail.inbox, m, variant);
    StaleAnswer(parse, connected, s.(mail := mail), es, variant);
  }

  lemma {:induction false} ReadyLast(inbox: seq<Message>, m: Message, variant: string)
    requires Ready(inbox, variant).None? && variant in m
    ensures Ready(inbox + [m], variant) == Some(m[variant])
  {
    if inbox != [] {
      assert (inbox + [m])[1..] == inbox[1..] + [m];
      ReadyLast(inbox[1..], m, variant);
    }
  }
}