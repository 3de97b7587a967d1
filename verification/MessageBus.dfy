/**
 The in-memory message bus: a list of senders per topic and a round-robin index per topic.
 A channel is known by a number; its log holds everything that was ever put into it.
 */
module MessageBus {
  import opened Wrappers

  /** The `seqNo`-th call of publish on this bus. */
  datatype Message = Message(seqNo: nat, topic: string, payload: string)

  datatype Channel = Channel(open: bool, log: seq<Message>)

  datatype Bus = Bus(senders: map<string, seq<nat>>, roundRobin: map<string, nat>, channels: map<nat, Channel>, calls: nat)

  datatype Outcome = NoSubscriber | SentTo(channel: nat) | SendFailed

  predicate IsOpen(channels: map<nat, Channel>, c: nat) {
    c in channels && channels[c].open
  }

  /** The senders whose receiver is still there, in order. */
  function Retained(channels: map<nat, Channel>, senders: seq<nat>): (live: seq<nat>)
    ensures |live| <= |senders|
    ensures forall c :: c in live <==> c in senders && IsOpen(channels, c)
  {
    if senders == [] then []
    else if IsOpen(channels, senders[0]) then [senders[0]] + Retained(channels, senders[1..])
    else Retained(channels, senders[1..])
  }

  function IndexOf(roundRobin: map<string, nat>, topic: string): nat {
    if topic in roundRobin then roundRobin[topic] else 0
  }

  function Put(channels: map<nat, Channel>, c: nat, m: Message): map<nat, Channel>
    requires c in channels
  {
    channels[c := channels[c].(log := channels[c].log + [m])]
  }

  function Closed(channels: map<nat, Channel>, c: nat): map<nat, Channel> {
    if c in channels then channels[c := channels[c].(open := false)] else channels
  }

  /**
   A call of publish. `vanishes` says that the chosen receiver is dropped after the closed ones
   were removed and before the message is in its channel.
   */
  function Published(b: Bus, topic: string, payload: string, vanishes: bool): (Bus, Outcome) {
    var m := Message(b.calls, topic, payload);
    var called := b.(calls := b.calls + 1);
    if topic !in b.senders then (called, NoSubscriber)
    else
      var live := Retained(b.channels, b.senders[topic]);
      var pruned := called.(senders := b.senders[topic := live]);
      if live == [] then (pruned, NoSubscriber)
      else
        var idx := IndexOf(b.roundRobin, topic) % |live|;
        var c := live[idx];
        if vanishes then (pruned.(roundRobin := b.roundRobin[topic := idx], channels := Closed(b.channels, c)), SendFailed)
        else
          assert c in live;
          (pruned.(roundRobin := b.roundRobin[topic := (idx + 1) % |live|], channels := Put(b.channels, c, m)), SentTo(c))
  }

  function Subscribed(b: Bus, topic: string, c: nat): Bus {
    b.(senders := b.senders[topic := (if topic in b.senders then b.senders[topic] else []) + [c]],
       channels := b.channels[c := Channel(true, [])])
  }

  class InMemoryBus {
    var senders: map<string, seq<nat>>
    var roundRobin: map<string, nat>
    var channels: map<nat, Channel>
    var calls: nat
    var nextChannel: nat

    ghost predicate Valid()
      reads this
    {
      Sound(Value()) && forall c :: c in channels ==> c < nextChannel
    }

    ghost function Value(): Bus
      reads this
    {
      Bus(senders, roundRobin, channels, calls)
    }

    constructor ()
      ensures Valid() && Value() == Bus(map[], map[], map[], 0)
    {
      senders, roundRobin, channels, calls, nextChannel := map[], map[], map[], 0, 0;
    }

    method Subscribe(topic: string) returns (channel: nat)
      requires Valid()
      modifies this
      ensures Valid()
      ensures channel !in old(channels) && Value() == Subscribed(old(Value()), topic, channel)
    {
      SubscribeSound(Value(), topic, nextChannel);
      channel := nextChannel;
      nextChannel := nextChannel + 1;
      channels := channels[channel := Channel(true, [])];
      var list := if topic in senders then senders[topic] else [];
      senders := senders[topic := list + [channel]];
    }

    /** The receiver is dropped. */
    method Close(channel: nat)
      requires Valid()
      modifies this`channels
      ensures Valid() && Value() == old(Value()).(channels := Closed(old(channels), channel))
    {
      CloseSound(Value(), channel);
      if channel in channels {
        channels := channels[channel := channels[channel].(open := false)];
      }
    }

    method DoPublish(topic: string, payload: string, vanishes: bool) returns (outcome: Outcome)
      modifies this`senders, this`roundRobin, this`channels, this`calls
      ensures (Value(), outcome) == Published(old(Value()), topic, payload, vanishes)
    {
      var m := Message(calls, topic, payload);
      calls := calls + 1;
      if topic !in senders {
        return NoSubscriber;
      }
      var live := Retained(channels, senders[topic]);
      senders := senders[topic := live];
      if |live| == 0 {
        return NoSubscriber;
      }
      var idx := IndexOf(roundRobin, topic) % |live|;
      roundRobin := roundRobin[topic := idx];
      var c := live[idx];
      assert c in live;
      if vanishes {
        channels := Closed(channels, c);
        return SendFailed;
      }
      channels := Put(channels, c, m);
      roundRobin := roundRobin[topic := (idx + 1) % |live|];
      assert roundRobin == old(roundRobin)[topic := (idx + 1) % |live|];
      return SentTo(c);
    }

    method Publish(topic: string, payload: string, vanishes: bool) returns (outcome: Outcome)
      requires Valid()
      modifies this`senders, this`roundRobin, this`channels, this`calls
      ensures Valid() && (Value(), outcome) == Published(old(Value()), topic, payload, vanishes)
    {
      PublishSound(Value(), topic, payload, vanishes);
      outcome := DoPublish(topic, payload, vanishes);
    }
  }

  // ----- what every call keeps -----

  ghost predicate Increasing(log: seq<Message>) {
    forall i, j :: 0 <= i < j < |log| ==> log[i].seqNo < log[j].seqNo
  }

  ghost predicate Apart(s: seq<nat>, t: seq<nat>) {
    forall c :: c in s ==> c !in t
  }

  ghost predicate NoRepeats(s: seq<nat>) {
    forall i, j :: 0 <= i < j < |s| ==> s[i] != s[j]
  }

  /**
   Senders are known channels, each listed once and for one topic; every log is in the order of
   publishing; and no message is in two logs.
   */
  ghost predicate Sound(b: Bus) {
    && (forall t :: t in b.senders ==> NoRepeats(b.senders[t]) && forall c :: c in b.senders[t] ==> c in b.channels)
    && (forall t, u :: t in b.senders && u in b.senders && t != u ==> Apart(b.senders[t], b.senders[u]))
    && (forall c :: c in b.channels ==> Increasing(b.channels[c].log))
    && (forall c, i :: c in b.channels && 0 <= i < |b.channels[c].log| ==> b.channels[c].log[i].seqNo < b.calls)
    && (forall c, d, i, j ::
          (c in b.channels && d in b.channels && c != d && 0 <= i < |b.channels[c].log| && 0 <= j < |b.channels[d].log|) ==>
          b.channels[c].log[i].seqNo != b.channels[d].log[j].seqNo)
  }

  lemma {:induction false} RetainedNoRepeats(channels: map<nat, Channel>, senders: seq<nat>)
    requires NoRepeats(senders)
    ensures NoRepeats(Retained(channels, senders))
  {
    if senders != [] {
      RetainedNoRepeats(channels, senders[1..]);
      var rest := Retained(channels, senders[1..]);
      if IsOpen(channels, senders[0]) {
        forall j | 0 <= j < |rest| ensures rest[j] != senders[0] {
          assert rest[j] in senders[1..];
        }
      }
    }
  }

  lemma {:induction false} SubscribeSound(b: Bus, topic: string, c: nat)
    requires Sound(b) && c !in b.channels
    ensures Sound(Subscribed(b, topic, c))
  {
  }

  lemma {:induction false} CloseSound(b: Bus, c: nat)
    requires Sound(b)
    ensures Sound(b.(channels := Closed(b.channels, c)))
  {
  }

  lemma {:induction false} PutSound(b: Bus, c: nat, m: Message)
    requires Sound(b) && c in b.channels && m.seqNo == b.calls
    ensures Sound(b.(channels := Put(b.channels, c, m), calls := b.calls + 1))
  {
  }

  lemma {:induction false} PruneSound(b: Bus, topic: string, live: seq<nat>, rr: map<string, nat>)
    requires Sound(b) && topic in b.senders && live == Retained(b.channels, b.senders[topic])
    ensures Sound(b.(senders := b.senders[topic := live], roundRobin := rr))
  {
    RetainedNoRepeats(b.channels, b.senders[topic]);
  }

  /** Somebody is subscribed. */
  lemma {:induction false} SendSound(b: Bus, topic: string, payload: string, vanishes: bool, live: seq<nat>)
    requires Sound(b) && topic in b.senders && live == Retained(b.channels, b.senders[topic]) && live != []
    ensures Sound(Published(b, topic, payload, vanishes).0)
  {
    var idx := IndexOf(b.roundRobin, topic) % |live|;
    assert live[idx] in live;
    var next := if vanishes then idx else (idx + 1) % |live|;
    var pruned := b.(senders := b.senders[topic := live], roundRobin := b.roundRobin[topic := next]);
    PruneSound(b, topic, live, pruned.roundRobin);
    if vanishes {
      CloseSound(pruned, live[idx]);
      CalledSound(pruned.(channels := Closed(b.channels, live[idx])));
    } else {
      PutSound(pruned, live[idx], Message(b.calls, topic, payload));
    }
  }

  lemma {:induction false} PublishSound(b: Bus, topic: string, payload: string, vanishes: bool)
    requires Sound(b)
    ensures Sound(Published(b, topic, payload, vanishes).0)
    ensures Published(b, topic, payload, vanishes).0.channels.Keys == b.channels.Keys
  {
    if topic !in b.senders {
      CalledSound(b);
    } else {
      var live := Retained(b.channels, b.senders[topic]);
      if live != [] {
        SendSound(b, topic, payload, vanishes, live);
        assert live[IndexOf(b.roundRobin, topic) % |live|] in live;
      } else {
        PruneSound(b, topic, [], b.roundRobin);
        CalledSound(b.(senders := b.senders[topic := []]));
      }
    }
  }

  lemma {:induction false} CalledSound(b: Bus)
    requires Sound(b)
    ensures Sound(b.(calls := b.calls + 1))
  {
  }

  // ----- one publish -----

  /** Somebody is subscribed to the topic and has not gone. */
  ghost predicate Attended(b: Bus, topic: string) {
    topic in b.senders && exists c :: c in b.senders[topic] && IsOpen(b.channels, c)
  }

  lemma {:induction false} AttendedIsLive(b: Bus, topic: string)
    ensures Attended(b, topic) <==> topic in b.senders && Retained(b.channels, b.senders[topic]) != []
  {
    if topic in b.senders {
      var live := Retained(b.channels, b.senders[topic]);
      if live != [] {
        assert live[0] in live;
      } else {
        forall c | c in b.senders[topic] ensures !IsOpen(b.channels, c) {
          assert c !in live;
        }
      }
    }
  }

  /**
   A call goes to exactly one subscriber, an open one of the topic, if and only if there is one and
   the chosen one stays. It fails if and only if the chosen one vanishes, however many others there
   are; then and when nobody is there the message is in no channel and the turn is not passed on.
   */
  lemma {:induction false} PublishReachesOne(b: Bus, topic: string, payload: string, vanishes: bool, after: Bus, answer: Outcome)
    requires Sound(b) && (after, answer) == Published(b, topic, payload, vanishes)
    ensures answer.SentTo? <==> Attended(b, topic) && !vanishes
    ensures answer == SendFailed <==> Attended(b, topic) && vanishes
    ensures answer.SentTo? ==>
              && answer.channel in b.senders[topic] && IsOpen(b.channels, answer.channel)
              && after.channels == Put(b.channels, answer.channel, Message(b.calls, topic, payload))
    ensures !answer.SentTo? ==>
              && after.channels.Keys == b.channels.Keys
              && (forall c :: c in b.channels ==> after.channels[c].log == b.channels[c].log)
              && (topic in b.senders ==>
                    var live := Retained(b.channels, b.senders[topic]);
                    live != [] ==> IndexOf(after.roundRobin, topic) == IndexOf(b.roundRobin, topic) % |live|)
    ensures answer == NoSubscriber ==> after.channels == b.channels && after.roundRobin == b.roundRobin
    ensures after.senders.Keys == b.senders.Keys
    ensures topic in b.senders ==>
              && |after.senders[topic]| <= |b.senders[topic]|
              && forall c :: c in after.senders[topic] <==> c in b.senders[topic] && IsOpen(b.channels, c)
    ensures forall t :: t in b.senders && t != topic ==> after.senders[t] == b.senders[t]
  {
    AttendedIsLive(b, topic);
    if topic in b.senders {
      var live := Retained(b.channels, b.senders[topic]);
      if live != [] {
        assert live[IndexOf(b.roundRobin, topic) % |live|] in live;
      }
    }
  }

  // ----- whole runs -----

  datatype Event =
    | Publish(topic: string, payload: string, vanishes: bool)
    | Subscribe(topic: string, channel: nat)
    | Close(channel: nat)

  function Step(b: Bus, e: Event): Bus {
    match e
    case Publish(topic, payload, vanishes) => Published(b, topic, payload, vanishes).0
    case Subscribe(topic, c) => if c in b.channels then b else Subscribed(b, topic, c)
    case Close(c) => b.(channels := Closed(b.channels, c))
  }

  function Run(b: Bus, es: seq<Event>): Bus
    decreases |es|
  {
    if es == [] then b else Run(Step(b, es[0]), es[1..])
  }

  /** The answers of the calls of publish, in order. */
  function Outcomes(b: Bus, es: seq<Event>): seq<Outcome>
    decreases |es|
  {
    if es == [] then []
    else
      (if es[0].Publish? then [Published(b, es[0].topic, es[0].payload, es[0].vanishes).1] else [])
      + Outcomes(Step(b, es[0]), es[1..])
  }

  ghost predicate Has(b: Bus, c: nat, seqNo: nat) {
    c in b.channels && exists i :: 0 <= i < |b.channels[c].log| && b.channels[c].log[i].seqNo == seqNo
  }

  lemma {:induction false} StepSound(b: Bus, e: Event)
    requires Sound(b)
    ensures Sound(Step(b, e))
    ensures Step(b, e).calls == b.calls + if e.Publish? then 1 else 0
  {
    match e
    case Publish(topic, payload, vanishes) => PublishSound(b, topic, payload, vanishes);
    case Subscribe(topic, c) =>
      if c !in b.channels {
        SubscribeSound(b, topic, c);
      }
    case Close(c) => CloseSound(b, c);
  }

  /** What one event adds to the logs: the message just published, where the answer says it went. */
  lemma {:induction false} StepHas(b: Bus, e: Event, c: nat, n: nat)
    requires Sound(b)
    ensures n < b.calls ==> (Has(Step(b, e), c, n) <==> Has(b, c, n))
    ensures n == b.calls && e.Publish? ==>
              (Has(Step(b, e), c, n) <==> Published(b, e.topic, e.payload, e.vanishes).1 == SentTo(c))
  {
    match e
    case Publish(topic, payload, vanishes) =>
      var after := Published(b, topic, payload, vanishes);
      if after.1.SentTo? {
        var d := after.1.channel;
        assert after.0.channels == Put(b.channels, d, Message(b.calls, topic, payload));
        PutHas(b, after.0, d, Message(b.calls, topic, payload), c, n);
      } else {
        assert forall k :: k in b.channels ==> k in after.0.channels && after.0.channels[k].log == b.channels[k].log;
        assert after.0.channels.Keys == b.channels.Keys;
      }
    case Subscribe(_, _) =>
    case Close(_) =>
  }

  lemma {:induction false} PutHas(b: Bus, b': Bus, d: nat, m: Message, c: nat, n: nat)
    requires Sound(b) && d in b.channels && m.seqNo == b.calls && b'.channels == Put(b.channels, d, m)
    ensures Has(b', c, n) <==> Has(b, c, n) || (c == d && n == b.calls)
    ensures !Has(b, c, b.calls)
  {
    if c == d {
      var log := b.channels[c].log;
      assert b'.channels[c].log == log + [m];
      assert (log + [m])[|log|] == m;
      assert forall i :: 0 <= i < |log| ==> (log + [m])[i] == log[i];
    }
  }

  lemma {:induction false} RunKeeps(b: Bus, es: seq<Event>, c: nat, n: nat)
    requires Sound(b) && n < b.calls
    ensures Has(Run(b, es), c, n) <==> Has(b, c, n)
    decreases |es|
  {
    if es != [] {
      StepSound(b, es[0]);
      StepHas(b, es[0], c, n);
      RunKeeps(Step(b, es[0]), es[1..], c, n);
    }
  }

  /**
   Over every run of subscribes, closes and publishes: the n-th message is in the log of a channel
   exactly when its call answered that it went there. So a message is never lost once the call has
   succeeded, and never in two places.
   */
  lemma {:induction false} DeliveredAsAnswered(b: Bus, es: seq<Event>, c: nat, n: nat)
    requires Sound(b) && n < |Outcomes(b, es)|
    ensures Has(Run(b, es), c, b.calls + n) <==> Outcomes(b, es)[n] == SentTo(c)
    decreases |es|
  {
    var b1, rest := Step(b, es[0]), es[1..];
    StepSound(b, es[0]);
    FirstEvent(b, es, b1);
    if es[0].Publish? && n == 0 {
      StepHas(b, es[0], c, b.calls);
      RunKeeps(b1, rest, c, b.calls);
    } else if es[0].Publish? {
      DeliveredAsAnswered(b1, rest, c, n - 1);
    } else {
      DeliveredAsAnswered(b1, rest, c, n);
    }
  }

  lemma {:induction false} FirstEvent(b: Bus, es: seq<Event>, b1: Bus)
    requires es != [] && b1 == Step(b, es[0])
    ensures Run(b, es) == Run(b1, es[1..])
    ensures es[0].Publish? ==>
              Outcomes(b, es) == [Published(b, es[0].topic, es[0].payload, es[0].vanishes).1] + Outcomes(b1, es[1..])
    ensures !es[0].Publish? ==> Outcomes(b, es) == Outcomes(b1, es[1..])
  {
    if !es[0].Publish? {
      assert [] + Outcomes(b1, es[1..]) == Outcomes(b1, es[1..]);
    }
  }

  /** The message is in no channel. */
  ghost predicate Nowhere(b: Bus, seqNo: nat) {
    forall c :: !Has(b, c, seqNo)
  }

  /** The bus at the n-th publish of a run, and that publish. */
  ghost function AtPublish(b: Bus, es: seq<Event>, n: nat): (Bus, Event)
    requires n < |Outcomes(b, es)|
    decreases |es|
  {
    if es[0].Publish? then
      if n == 0 then (b, es[0]) else AtPublish(Step(b, es[0]), es[1..], n - 1)
    else AtPublish(Step(b, es[0]), es[1..], n)
  }

  lemma {:induction false} OutcomeAtPublish(b: Bus, es: seq<Event>, n: nat)
    requires Sound(b) && n < |Outcomes(b, es)|
    ensures
      var (at, e) := AtPublish(b, es, n);
      && Sound(at) && e.Publish? && at.calls == b.calls + n
      && Outcomes(b, es)[n] == Published(at, e.topic, e.payload, e.vanishes).1
    decreases |es|
  {
    StepSound(b, es[0]);
    if es[0].Publish? {
      if n > 0 {
        OutcomeAtPublish(Step(b, es[0]), es[1..], n - 1);
      }
    } else {
      OutcomeAtPublish(Step(b, es[0]), es[1..], n);
    }
  }

  /**
   Over every run the n-th message is in no channel if and only if at its call nobody open was
   subscribed to its topic or the receiver chosen for it vanished.
   */
  lemma {:induction false} LostMessages(b: Bus, es: seq<Event>, n: nat)
    requires Sound(b) && n < |Outcomes(b, es)|
    ensures
      var (at, e) := AtPublish(b, es, n);
      e.Publish? && (Nowhere(Run(b, es), b.calls + n) <==> !Attended(at, e.topic) || e.vanishes)
  {
    OutcomeAtPublish(b, es, n);
    var (at, e) := AtPublish(b, es, n);
    var (after, answer) := Published(at, e.topic, e.payload, e.vanishes);
    PublishReachesOne(at, e.topic, e.payload, e.vanishes, after, answer);
    if answer.SentTo? {
      DeliveredAsAnswered(b, es, answer.channel, n);
    } else {
      var last, number := Run(b, es), b.calls + n;
      forall c ensures !Has(last, c, number) {
        DeliveredAsAnswered(b, es, c, n);
      }
    }
  }

  /** Over every run each log is in publishing order and no message is in two logs. */
  lemma {:induction false} RunSound(b: Bus, es: seq<Event>)
    requires Sound(b)
    ensures Sound(Run(b, es))
    decreases |es|
  {
    if es != [] {
      StepSound(b, es[0]);
      RunSound(Step(b, es[0]), es[1..]);
    }
  }

  // ----- who comes and goes -----

  lemma {:induction false} RetainedAppend(channels: map<nat, Channel>, senders: seq<nat>, c: nat)
    ensures Retained(channels, senders + [c])
         == Retained(channels, senders) + if IsOpen(channels, c) then [c] else []
  {
    if senders == [] {
      assert [] + [c] == [c] && [c][1..] == [];
    } else {
      assert (senders + [c])[1..] == senders[1..] + [c];
      RetainedAppend(channels, senders[1..], c);
    }
  }

  lemma {:induction false} RetainedSame(channels: map<nat, Channel>, channels': map<nat, Channel>, senders: seq<nat>)
    requires forall c :: c in senders ==> (IsOpen(channels, c) <==> IsOpen(channels', c))
    ensures Retained(channels', senders) == Retained(channels, senders)
  {
    if senders != [] {
      assert senders[0] in senders;
      RetainedSame(channels, channels', senders[1..]);
    }
  }

  /** A new subscriber is the last of the topic's open ones, after all that were open before, with nothing received yet. */
  lemma {:induction false} NewcomerIsLast(b: Bus, topic: string, c: nat, b1: Bus)
    requires Sound(b) && c !in b.channels && b1 == Step(b, Subscribe(topic, c))
    ensures topic in b1.senders && c in b1.channels && b1.channels[c].log == []
    ensures Retained(b1.channels, b1.senders[topic])
         == (if topic in b.senders then Retained(b.channels, b.senders[topic]) else []) + [c]
  {
    var before := if topic in b.senders then b.senders[topic] else [];
    RetainedAppend(b1.channels, before, c);
    RetainedSame(b.channels, b1.channels, before);
  }

  lemma {:induction false} ClosedStep(b: Bus, e: Event, c: nat)
    requires c in b.channels && !b.channels[c].open
    ensures c in Step(b, e).channels && Step(b, e).channels[c] == b.channels[c]
  {
    if e.Publish? && e.topic in b.senders {
      var live := Retained(b.channels, b.senders[e.topic]);
      if live != [] {
        assert live[IndexOf(b.roundRobin, e.topic) % |live|] in live;
      }
    }
  }

  lemma {:induction false} ClosedStays(b: Bus, es: seq<Event>, c: nat)
    requires c in b.channels && !b.channels[c].open
    ensures c in Run(b, es).channels && Run(b, es).channels[c] == b.channels[c]
    decreases |es|
  {
    if es != [] {
      ClosedStep(b, es[0], c);
      ClosedStays(Step(b, es[0]), es[1..], c);
    }
  }

  /** A receiver that has been dropped gets nothing more, whatever is published afterwards. */
  lemma {:induction false} ClosedGetsNothing(b: Bus, es: seq<Event>, c: nat)
    requires c in b.channels
    ensures
      var later := Run(Step(b, Close(c)), es).channels;
      c in later && !later[c].open && later[c].log == b.channels[c].log
  {
    ClosedStays(Step(b, Close(c)), es, c);
  }

  // ----- fairness -----

  /** How many of `n` consecutive turns, the first being turn `start`, fall to place `p` of `k`. */
  function Turns(start: nat, n: nat, k: nat, p: nat): nat
    requires k > 0
    decreases n
  {
    if n == 0 then 0 else (if start % k == p then 1 else 0) + Turns((start + 1) % k, n - 1, k, p)
  }

  /** The open subscribers of the topic are `live`, and the first turn falls to place `start`. */
  ghost predicate Ready(b: Bus, topic: string, live: seq<nat>, start: nat) {
    && Sound(b) && live != [] && topic in b.senders && Retained(b.channels, b.senders[topic]) == live
    && IndexOf(b.roundRobin, topic) % |live| == start
  }

  /** Whatever else happens, the open subscribers of the topic stay the same ones. */
  ghost predicate Undisturbed(b: Bus, es: seq<Event>, topic: string, live: seq<nat>)
    decreases |es|
  {
    && topic in b.senders && Retained(b.channels, b.senders[topic]) == live
    && (es != [] ==> Undisturbed(Step(b, es[0]), es[1..], topic, live))
  }

  /** How many publishes on the topic there are. */
  function PublishesOn(es: seq<Event>, topic: string): nat {
    if es == [] then 0
    else (if es[0].Publish? && es[0].topic == topic then 1 else 0) + PublishesOn(es[1..], topic)
  }

  lemma {:induction false} RetainedAgain(channels: map<nat, Channel>, senders: seq<nat>)
    requires forall c :: c in senders ==> IsOpen(channels, c)
    ensures Retained(channels, senders) == senders
  {
    if senders != [] {
      assert senders[0] in senders;
      RetainedAgain(channels, senders[1..]);
    }
  }

  /** The channel chosen for a publish that vanishes is no longer among the open ones. */
  lemma {:induction false} VanishingDisturbs(b: Bus, topic: string, payload: string, live: seq<nat>, start: nat)
    requires Ready(b, topic, live, start)
    ensures
      var b1 := Published(b, topic, payload, true).0;
      topic in b1.senders && Retained(b1.channels, b1.senders[topic]) != live
  {
    var b1 := Published(b, topic, payload, true).0;
    assert live[start] in live;
    assert !IsOpen(b1.channels, live[start]);
    assert live[start] !in Retained(b1.channels, b1.senders[topic]);
  }

  lemma {:induction false} TurnTaken(b: Bus, topic: string, payload: string, live: seq<nat>, start: nat, p: nat, b1: Bus)
    requires Ready(b, topic, live, start) && p < |live| && b1 == Published(b, topic, payload, false).0
    ensures IndexOf(b1.roundRobin, topic) == (start + 1) % |live|
    ensures live[p] in b.channels && live[p] in b1.channels
    ensures |b1.channels[live[p]].log| == |b.channels[live[p]].log| + if start == p then 1 else 0
  {
    RetainedNoRepeats(b.channels, b.senders[topic]);
    assert live[p] in live && live[start] in live;
    assert start != p ==> live[start] != live[p];
  }

  /** An event that is no publish on the topic gives its subscribers nothing and leaves the turn. */
  lemma {:induction false} OtherEvent(b: Bus, topic: string, e: Event, live: seq<nat>, start: nat, p: nat, b1: Bus)
    requires Ready(b, topic, live, start) && p < |live| && b1 == Step(b, e)
    requires !(e.Publish? && e.topic == topic)
    ensures IndexOf(b1.roundRobin, topic) == IndexOf(b.roundRobin, topic)
    ensures live[p] in b.channels && live[p] in b1.channels
    ensures |b1.channels[live[p]].log| == |b.channels[live[p]].log|
  {
    assert live[p] in live;
    if e.Publish? && e.topic in b.senders {
      assert Apart(b.senders[topic], b.senders[e.topic]);
      var others := Retained(b.channels, b.senders[e.topic]);
      if others != [] {
        var d := others[IndexOf(b.roundRobin, e.topic) % |others|];
        assert d in others;
        assert d != live[p];
      }
    }
  }

  lemma {:induction false} FirstTurn(start: nat, n: nat, k: nat, p: nat)
    requires start < k && n > 0
    ensures Turns(start, n, k, p) == (if start == p then 1 else 0) + Turns((start + 1) % k, n - 1, k, p)
  {
    assert start % k == start;
  }

  /** One event of an undisturbed run: who gets something, and whose turn it is then. */
  lemma {:induction false} OneEvent(
      b: Bus, topic: string, e: Event, live: seq<nat>, start: nat, p: nat, b1: Bus, next: nat, got: nat)
    requires Ready(b, topic, live, start) && p < |live| && b1 == Step(b, e)
    requires topic in b1.senders && Retained(b1.channels, b1.senders[topic]) == live
    requires next == if e.Publish? && e.topic == topic then (start + 1) % |live| else start
    requires got == if e.Publish? && e.topic == topic && start == p then 1 else 0
    ensures Ready(b1, topic, live, next)
    ensures live[p] in b.channels && live[p] in b1.channels
    ensures |b1.channels[live[p]].log| == |b.channels[live[p]].log| + got
  {
    StepSound(b, e);
    if e.Publish? && e.topic == topic {
      if e.vanishes {
        VanishingDisturbs(b, topic, e.payload, live, start);
        assert false;
      } else {
        TurnTaken(b, topic, e.payload, live, start, p, b1);
        Quotient((start + 1) % |live|, 0, (start + 1) % |live|, |live|);
      }
    } else {
      OtherEvent(b, topic, e, live, start, p, b1);
    }
  }

  lemma {:induction false} UndisturbedNext(b: Bus, es: seq<Event>, topic: string, live: seq<nat>, b1: Bus)
    requires Undisturbed(b, es, topic, live) && es != [] && b1 == Step(b, es[0])
    ensures Undisturbed(b1, es[1..], topic, live) && topic in b1.senders && Retained(b1.channels, b1.senders[topic]) == live
    ensures Run(b, es) == Run(b1, es[1..])
  {
  }

  lemma {:induction false} TurnsNext(es: seq<Event>, topic: string, start: nat, k: nat, p: nat, next: nat, got: nat)
    requires es != [] && start < k
    requires next == if es[0].Publish? && es[0].topic == topic then (start + 1) % k else start
    requires got == if es[0].Publish? && es[0].topic == topic && start == p then 1 else 0
    ensures Turns(start, PublishesOn(es, topic), k, p) == got + Turns(next, PublishesOn(es[1..], topic), k, p)
  {
    if es[0].Publish? && es[0].topic == topic {
      FirstTurn(start, PublishesOn(es, topic), k, p);
    }
  }

  lemma {:induction false} TurnsTaken(b: Bus, topic: string, es: seq<Event>, live: seq<nat>, start: nat, p: nat)
    requires Ready(b, topic, live, start) && Undisturbed(b, es, topic, live) && p < |live|
    ensures live[p] in b.channels && live[p] in Run(b, es).channels
    ensures |Run(b, es).channels[live[p]].log|
            == |b.channels[live[p]].log| + Turns(start, PublishesOn(es, topic), |live|, p)
    decreases |es|
  {
    if es == [] {
      assert live[p] in live;
    } else {
      var b1 := Step(b, es[0]);
      var mine := es[0].Publish? && es[0].topic == topic;
      var next := if mine then (start + 1) % |live| else start;
      var got := if mine && start == p then 1 else 0;
      UndisturbedNext(b, es, topic, live, b1);
      OneEvent(b, topic, es[0], live, start, p, b1, next, got);
      TurnsTaken(b1, topic, es[1..], live, next, p);
      TurnsNext(es, topic, start, |live|, p, next, got);
    }
  }

  /** The turns until place `p` comes round again. */
  function Distance(start: nat, k: nat, p: nat): (d: nat)
    requires start < k && p < k
    ensures d < k
  {
    if start <= p then p - start else p + k - start
  }

  lemma {:induction false} NextPlace(start: nat, k: nat, p: nat)
    requires start < k && p < k
    ensures (start + 1) % k < k
    ensures start == p ==> Distance(start, k, p) == 0 && Distance((start + 1) % k, k, p) == k - 1
    ensures start != p ==> Distance((start + 1) % k, k, p) == Distance(start, k, p) - 1
  {
    if start + 1 == k {
      Quotient(start + 1, 1, 0, k);
    } else {
      Quotient(start + 1, 0, start + 1, k);
    }
  }

  lemma {:induction false} TurnsCount(start: nat, n: nat, k: nat, p: nat)
    requires k > 0 && start < k && p < k
    ensures Turns(start, n, k, p) == (n + k - 1 - Distance(start, k, p)) / k
    decreases n
  {
    var d := Distance(start, k, p);
    if n == 0 {
      Quotient(k - 1 - d, 0, k - 1 - d, k);
    } else {
      FirstTurn(start, n, k, p);
      NextPlace(start, k, p);
      TurnsCount((start + 1) % k, n - 1, k, p);
      if start == p {
        DivAdd(n - 1, k);
      }
    }
  }

  lemma {:induction false} DivAdd(n: nat, k: nat)
    requires k > 0
    ensures (n + k) / k == n / k + 1
  {
    assert n == n / k * k + n % k;
    assert (n / k + 1) * k == n / k * k + k;
    Quotient(n + k, n / k + 1, n % k, k);
  }

  lemma {:induction false} FloorOrCeiling(n: nat, k: nat, d: nat)
    requires k > 0 && d < k
    ensures (n + k - 1 - d) / k == n / k || (n + k - 1 - d) / k == (n + k - 1) / k
  {
    var q, r := n / k, n % k;
    assert n == q * k + r;
    var x := n + k - 1 - d;
    if r <= d {
      assert x == q * k + (r + k - 1 - d);
      Quotient(x, q, r + k - 1 - d, k);
    } else {
      assert x == (q + 1) * k + (r - 1 - d);
      Quotient(x, q + 1, r - 1 - d, k);
      Quotient(n + k - 1, q + 1, r - 1, k);
    }
  }

  lemma {:induction false} Quotient(x: nat, q: nat, r: nat, k: nat)
    requires k > 0 && x == q * k + r && r < k
    ensures x / k == q && x % k == r
  {
    assert x == x / k * k + x % k;
    assert (x / k - q) * k == r - x % k;
    Multiple(x / k - q, k);
  }

  lemma {:induction false} Multiple(a: int, k: int)
    requires k > 0
    ensures a >= 1 ==> a * k >= k
    ensures a <= -1 ==> a * k <= -k
  {
    if a >= 1 {
      assert (a - 1) * k >= 0;
    } else if a <= -1 {
      assert (-1 - a) * k >= 0;
    }
  }

  /**
   Over any run that leaves the open subscribers of a topic alone, with closed ones still listed and
   anything going on elsewhere: n publishes on the topic give each of the k subscribers n / k
   messages, rounded down or up.
   */
  lemma {:induction false} RoundRobinIsFair(b: Bus, topic: string, es: seq<Event>, live: seq<nat>, p: nat)
    requires Sound(b) && Undisturbed(b, es, topic, live) && p < |live|
    ensures live[p] in b.channels && live[p] in Run(b, es).channels
    ensures
      var n, k := PublishesOn(es, topic), |live|;
      var got := |Run(b, es).channels[live[p]].log| - |b.channels[live[p]].log|;
      got == n / k || got == (n + k - 1) / k
  {
    var start := IndexOf(b.roundRobin, topic) % |live|;
    TurnsTaken(b, topic, es, live, start, p);
    TurnsCount(start, PublishesOn(es, topic), |live|, p);
    FloorOrCeiling(PublishesOn(es, topic), |live|, Distance(start, |live|, p));
  }

  /** The answers of the publishes on one topic, in order. */
  function AnswersOn(b: Bus, es: seq<Event>, topic: string): seq<Outcome>
    decreases |es|
  {
    if es == [] then []
    else
      (if es[0].Publish? && es[0].topic == topic then [Published(b, topic, es[0].payload, es[0].vanishes).1] else [])
      + AnswersOn(Step(b, es[0]), es[1..], topic)
  }

  lemma {:induction false} ModAdd(a: nat, i: nat, k: nat)
    requires k > 0
    ensures (a % k + i) % k == (a + i) % k
  {
    var x := a % k + i;
    assert a == a / k * k + a % k && x == x / k * k + x % k;
    assert a + i == (a / k + x / k) * k + x % k;
    Quotient(a + i, a / k + x / k, x % k, k);
  }

  /** The n-th answer of some publishes on the topic is the subscriber whose turn it is. */
  ghost predicate InTurn(answers: seq<Outcome>, live: seq<nat>, first: nat)
    requires live != []
  {
    forall n :: 0 <= n < |answers| ==> answers[n] == SentTo(live[(first + n) % |live|])
  }

  lemma {:induction false} InTurnNext(answer: Outcome, later: seq<Outcome>, live: seq<nat>, start: nat)
    requires start < |live| && answer == SentTo(live[start]) && InTurn(later, live, (start + 1) % |live|)
    ensures InTurn([answer] + later, live, start)
  {
    var all := [answer] + later;
    forall n | 0 <= n < |all| ensures all[n] == SentTo(live[(start + n) % |live|]) {
      if n == 0 {
        Quotient(start, 0, start, |live|);
      } else {
        ModAdd(start + 1, n - 1, |live|);
        assert all[n] == later[n - 1];
      }
    }
  }

  lemma {:induction false} OneAnswer(b: Bus, topic: string, e: Event, live: seq<nat>, start: nat, b1: Bus)
    requires Ready(b, topic, live, start) && e.Publish? && e.topic == topic && b1 == Step(b, e)
    requires topic in b1.senders && Retained(b1.channels, b1.senders[topic]) == live
    ensures Published(b, topic, e.payload, e.vanishes).1 == SentTo(live[start])
  {
    if e.vanishes {
      VanishingDisturbs(b, topic, e.payload, live, start);
    }
  }

  lemma {:induction false} AnswersNext(b: Bus, es: seq<Event>, topic: string, later: seq<Outcome>)
    requires es != [] && later == AnswersOn(Step(b, es[0]), es[1..], topic)
    ensures AnswersOn(b, es, topic) ==
            if es[0].Publish? && es[0].topic == topic
            then [Published(b, topic, es[0].payload, es[0].vanishes).1] + later else later
  {
    assert [] + later == later;
  }

  lemma {:induction false} ServedFrom(b: Bus, topic: string, es: seq<Event>, live: seq<nat>, start: nat)
    requires Ready(b, topic, live, start) && Undisturbed(b, es, topic, live)
    ensures |AnswersOn(b, es, topic)| == PublishesOn(es, topic)
    ensures InTurn(AnswersOn(b, es, topic), live, start)
    decreases |es|
  {
    if es != [] {
      var b1, e := Step(b, es[0]), es[0];
      var mine := e.Publish? && e.topic == topic;
      var next := if mine then (start + 1) % |live| else start;
      var later := AnswersOn(b1, es[1..], topic);
      UndisturbedNext(b, es, topic, live, b1);
      OneEvent(b, topic, e, live, start, 0, b1, next, if mine && start == 0 then 1 else 0);
      ServedFrom(b1, topic, es[1..], live, next);
      AnswersNext(b, es, topic, later);
      if mine {
        OneAnswer(b, topic, e, live, start, b1);
        InTurnNext(SentTo(live[start]), later, live, start);
      }
    }
  }

  lemma {:induction false} TurnOf(answers: seq<Outcome>, live: seq<nat>, first: nat, n: nat)
    requires live != [] && InTurn(answers, live, first % |live|) && n < |answers|
    ensures answers[n] == SentTo(live[(first + n) % |live|])
  {
    ModAdd(first, n, |live|);
  }

  /**
   In such a run the n-th publish on the topic, counted from 0, goes to the n-th subscriber after the
   one whose turn it was, round and round; on a topic never served before, beginning with the first.
   */
  lemma {:induction false} ServedInTurn(b: Bus, topic: string, es: seq<Event>, live: seq<nat>, n: nat, first: nat, answers: seq<Outcome>)
    requires Sound(b) && Undisturbed(b, es, topic, live) && live != []
    requires first == if topic in b.roundRobin then b.roundRobin[topic] else 0
    requires answers == AnswersOn(b, es, topic) && n < PublishesOn(es, topic)
    ensures |answers| == PublishesOn(es, topic) && answers[n] == SentTo(live[(first + n) % |live|])
  {
    var start := first % |live|;
    assert Ready(b, topic, live, start);
    ServedFrom(b, topic, es, live, start);
    TurnOf(answers, live, first, n);
  }
}
