/**
 Pings, requests and giving up in the cluster protocol: when a main node may lose patience with a
 worker, that every frame is handled, and that a worker which fails to start stays stopped.
 */
module ClusterPings {
  import opened Wrappers
  import opened ClusterRegistry
  import opened ClusterTasks
  import opened ClusterProtocol

  // ----- pings are answered -----

  function Count(q: seq<Message>, m: Message): nat {
    if q == [] then 0 else (if q[0] == m then 1 else 0) + Count(q[1..], m)
  }

  lemma {:induction false} CountMore(q: seq<Message>, x: Message, m: Message)
    ensures Count(q + [x], m) == Count(q, m) + if x == m then 1 else 0
  {
    if q == [] {
      assert [] + [x] == [x] && [x][1..] == [];
    } else {
      assert (q + [x])[1..] == q[1..] + [x];
      CountMore(q[1..], x, m);
    }
  }

  /** Pings on their way to the worker and pongs on their way back. */
  ghost function UnderWay(conn: Conn): nat {
    Count(conn.toWorker, Ping) + Count(conn.toMain, Pong)
  }

  /** Each pong that the handler misses is still under way, as a ping or as a pong. */
  ghost predicate Accounted(conn: Conn) {
    conn.handler.Serving? ==> conn.handler.missedPongs <= UnderWay(conn)
  }

  ghost predicate Uses(node: WorkerNode, c: nat) {
    (node.phase.Registering? || node.phase.Looping?) && node.phase.conn == c
  }

  /** Every worker has its connection to itself, and pings on it are accounted for. */
  ghost predicate PingsKept(s: Cluster) {
    && (forall w, c :: w in s.workers && Uses(s.workers[w], c) ==> c in s.conns && Accounted(s.conns[c]))
    && Unshared(s)
  }

  ghost predicate Unshared(s: Cluster) {
    forall v, w, c :: v in s.workers && w in s.workers && v != w && Uses(s.workers[v], c) ==> !Uses(s.workers[w], c)
  }

  /** What a worker's step does to the connection it uses afterwards. */
  lemma {:induction false} ActingAccounted(s: Cluster, e: Event, s': Cluster, c: nat)
    requires s.history != [] && OfWorker(e) && !e.Connect? && Apply(s, e) == Some(s')
    requires Uses(s'.workers[e.w], c) && c in s.conns && Accounted(s.conns[c])
    ensures Uses(s.workers[e.w], c) && c in s'.conns && Accounted(s'.conns[c])
  {
    var conn, conn' := s.conns[c], s'.conns[c];
    CountMore(conn.toMain, Pong, Pong);
    CountMore(conn.toMain, Ping, Pong);
    CountMore(conn.toMain, ListNodes, Pong);
  }

  lemma {:induction false} WorkerTouchesOwn(s: Cluster, e: Event, s': Cluster)
    requires s.history != [] && OfWorker(e) && Apply(s, e) == Some(s')
    ensures forall c :: c in s.conns && !Uses(s.workers[e.w], c) ==> c in s'.conns && s'.conns[c] == s.conns[c]
    ensures s'.workers.Keys == s.workers.Keys && forall w :: w in s.workers && w != e.w ==> s'.workers[w] == s.workers[w]
    ensures e.Connect? ==> forall c :: Uses(s'.workers[e.w], c) ==> c !in s.conns && c in s'.conns && Accounted(s'.conns[c])
    ensures !e.Connect? ==> forall c :: Uses(s'.workers[e.w], c) ==> Uses(s.workers[e.w], c)
  {
  }

  lemma {:induction false} WorkerKeepsAccounts(s: Cluster, e: Event, s': Cluster, w: nat, c: nat)
    requires s.history != [] && PingsKept(s) && OfWorker(e) && Apply(s, e) == Some(s')
    requires w in s'.workers && Uses(s'.workers[w], c)
    ensures c in s'.conns && Accounted(s'.conns[c])
  {
    WorkerTouchesOwn(s, e, s');
    if w != e.w {
      assert Uses(s.workers[w], c);
    } else if !e.Connect? {
      ActingAccounted(s, e, s', c);
    }
  }

  lemma {:induction false} WorkerKeepsUnshared(s: Cluster, e: Event, s': Cluster)
    requires s.history != [] && PingsKept(s) && OfWorker(e) && Apply(s, e) == Some(s')
    ensures Unshared(s')
  {
    WorkerTouchesOwn(s, e, s');
    forall v, w, c | v in s'.workers && w in s'.workers && v != w && Uses(s'.workers[v], c)
      ensures !Uses(s'.workers[w], c)
    {
      assert Uses(s.workers[v], c) ==> c in s.conns;
      assert Uses(s.workers[w], c) ==> c in s.conns;
    }
  }

  lemma {:induction false} WorkerKeepsPings(s: Cluster, e: Event, s': Cluster)
    requires s.history != [] && PingsKept(s) && OfWorker(e) && Apply(s, e) == Some(s')
    ensures PingsKept(s')
  {
    WorkerKeepsUnshared(s, e, s');
    forall w, c | w in s'.workers && Uses(s'.workers[w], c) ensures c in s'.conns && Accounted(s'.conns[c]) {
      WorkerKeepsAccounts(s, e, s', w, c);
    }
  }

  lemma {:induction false} HandlerAccounted(s: Cluster, e: Event, s': Cluster)
    requires s.history != [] && !OfWorker(e) && Apply(s, e) == Some(s') && Accounted(s.conns[e.c])
    ensures e.c in s'.conns && Accounted(s'.conns[e.c])
    ensures s'.workers == s.workers && forall c :: c in s.conns && c != e.c ==> c in s'.conns && s'.conns[c] == s.conns[c]
  {
    var conn := s.conns[e.c];
    CountMore(conn.toWorker, Ping, Ping);
    CountMore(conn.toWorker, Pong, Ping);
    if e.HandlerReceive? {
      CountMore(conn.toWorker, NodeList(e.listing, |s.history| - 1), Ping);
    }
  }

  lemma {:induction false} HandlerKeepsPings(s: Cluster, e: Event, s': Cluster)
    requires s.history != [] && PingsKept(s) && !OfWorker(e) && Apply(s, e) == Some(s')
    ensures PingsKept(s')
  {
    HandlerEvolves(s, e, s');
    forall w, c | w in s'.workers && Uses(s'.workers[w], c) ensures c in s'.conns && Accounted(s'.conns[c]) {
      assert Uses(s.workers[w], c);
      if c == e.c {
        HandlerAccounted(s, e, s');
      }
    }
  }

  lemma {:induction false} RunKeepsPings(s: Cluster, es: seq<Event>, s': Cluster)
    requires s.history != [] && PingsKept(s) && Run(s, es) == Some(s')
    ensures PingsKept(s')
    decreases |es|
  {
    if es != [] {
      var s1 := Apply(s, es[0]).value;
      if OfWorker(es[0]) {
        WorkerKeepsPings(s, es[0], s1);
      } else {
        HandlerKeepsPings(s, es[0], s1);
      }
      HistoryGrows(s, es[0], s1);
      RunKeepsPings(s1, es[1..], s');
    }
  }

  /**
   In every run: when a tick makes the main node give up a connection on which its worker is still
   connected, at least three pings or pongs are still under way on it. A worker whose answers have
   all arrived is never given up.
   */
  lemma {:induction false} GivenUpOnlyUnanswered(s: Cluster, es: seq<Event>, s1: Cluster, c: nat, s2: Cluster, w: nat)
    requires Initial(s) && Run(s, es) == Some(s1) && Apply(s1, PingTick(c)) == Some(s2)
    requires w in s1.workers && s1.workers[w].phase == Looping(c)
    ensures s2.conns[c].handler.Leaving? ==> UnderWay(s1.conns[c]) >= 3
    ensures !s2.conns[c].handler.Leaving? ==> s2.conns[c].toWorker == s1.conns[c].toWorker + [Ping]
  {
    RunKeepsPings(s, es, s1);
    assert Uses(s1.workers[w], c);
  }

  // ----- every frame is handled -----

  lemma {:induction false} ListingExists(nodes: Nodes) returns (listing: seq<NodeInfo>)
    requires Keyed(nodes)
    ensures Lists(listing, nodes)
    decreases |nodes|
  {
    listing := [];
    if |nodes| > 0 {
      var id :| id in nodes;
      var rest := nodes - {id};
      assert nodes.Keys == rest.Keys + {id};
      var others := ListingExists(rest);
      listing := others + [nodes[id]];
      forall k | k in nodes ensures nodes[k] in listing {
        if k != id {
          assert rest[k] in others;
        }
      }
    }
  }

  ghost predicate AllKeyed(s: Cluster) {
    forall k :: 0 <= k < |s.history| ==> Keyed(s.history[k])
  }

  lemma {:induction false} KeyedStep(s: Cluster, e: Event, s': Cluster)
    requires s.history != [] && AllKeyed(s) && Apply(s, e) == Some(s')
    ensures s'.history != [] && AllKeyed(s')
  {
    HistoryGrows(s, e, s');
    assert Keyed(Current(s));
    if OfWorker(e) {
      WorkerEvolves(s, e, s');
    } else {
      HandlerEvolves(s, e, s');
      assert Keyed(Current(s'));
    }
  }

  lemma {:induction false} RunKeepsKeyed(s: Cluster, es: seq<Event>, s': Cluster)
    requires s.history != [] && AllKeyed(s) && Run(s, es) == Some(s')
    ensures s'.history != [] && AllKeyed(s')
    decreases |es|
  {
    if es != [] {
      var s1 := Apply(s, es[0]).value;
      KeyedStep(s, es[0], s1);
      RunKeepsKeyed(s1, es[1..], s');
    }
  }

  /**
   In every run a serving handler can handle the next frame, whatever it is: a request is answered by
   the entries the registry has now, a ping by a pong, and nothing else by anything.
   */
  lemma {:induction false} FrameIsHandled(s: Cluster, es: seq<Event>, s1: Cluster, c: nat)
    returns (listing: seq<NodeInfo>, s2: Cluster)
    requires Initial(s) && Run(s, es) == Some(s1)
    requires c in s1.conns && s1.conns[c].handler.Serving? && s1.conns[c].toMain != []
    ensures s1.history != [] && Apply(s1, HandlerReceive(c, listing)) == Some(s2)
    ensures s2.conns[c].toMain == s1.conns[c].toMain[1..]
    ensures
      var m, before, after := s1.conns[c].toMain[0], s1.conns[c].toWorker, s2.conns[c].toWorker;
      if m.ListNodes? then after == before + [NodeList(listing, |s1.history| - 1)] && Lists(listing, Current(s1))
      else if m.Ping? then after == before + [Pong]
      else after == before
  {
    RunKeepsKeyed(s, es, s1);
    listing := ListingExists(Current(s1));
    s2 := Apply(s1, HandlerReceive(c, listing)).value;
  }

  // ----- a start that fails -----

  lemma {:induction false} StoppedStays(s: Cluster, es: seq<Event>, s': Cluster, w: nat)
    requires s.history != [] && Run(s, es) == Some(s') && w in s.workers && s.workers[w].phase.Stopped?
    ensures w in s'.workers && s'.workers[w] == s.workers[w]
    decreases |es|
  {
    if es != [] {
      var s1 := Apply(s, es[0]).value;
      HistoryGrows(s, es[0], s1);
      if !OfWorker(es[0]) {
        HandlerEvolves(s, es[0], s1);
      }
      StoppedStays(s1, es[1..], s', w);
    }
  }

  /** The first, throw-away registration of a worker fails. */
  ghost predicate ProbeFails(s: Cluster, e: Event, w: nat) {
    && OfWorker(e) && e.w == w && w in s.workers
    && var phase := s.workers[w].phase;
       (phase.Connecting? || phase.Registering?) && phase.probe
       && (e.ConnectFails? || e.RegisterFails?
           || (e.ReceiveAck? && phase.Registering? && phase.conn in s.conns && s.conns[phase.conn].toWorker != []
               && s.conns[phase.conn].toWorker[0] != RegisterAck(true)))
  }

  /** A worker whose first registration fails is stopped, and in every run from there it never does anything again. */
  lemma {:induction false} FailedStartStops(s: Cluster, e: Event, s1: Cluster, es: seq<Event>, s': Cluster, w: nat)
    requires s.history != [] && ProbeFails(s, e, w) && Apply(s, e) == Some(s1) && Run(s1, es) == Some(s')
    ensures w in s'.workers && s'.workers[w] == s.workers[w].(phase := Stopped)
  {
    HistoryGrows(s, e, s1);
    StoppedStays(s1, es, s', w);
  }

  /**
   A worker can be told to stop exactly when it waits or is connected; a connected one deregisters, and
   in every run from there it never does anything again.
   */
  lemma {:induction false} StopIsFinal(s: Cluster, w: nat, es: seq<Event>)
    requires s.history != [] && w in s.workers && (s.workers[w].phase.Looping? ==> s.workers[w].phase.conn in s.conns)
    ensures Apply(s, Stop(w)).Some? <==> s.workers[w].phase.Sleeping? || s.workers[w].phase.Looping?
    ensures Apply(s, Stop(w)).Some? && s.workers[w].phase.Looping? ==>
              var c := s.workers[w].phase.conn;
              Apply(s, Stop(w)).value.conns[c].toMain == s.conns[c].toMain + [Deregister]
    ensures Apply(s, Stop(w)).Some? && Run(Apply(s, Stop(w)).value, es).Some? ==>
              var s' := Run(Apply(s, Stop(w)).value, es).value;
              w in s'.workers && s'.workers[w] == s.workers[w].(phase := Stopped)
  {
    var stopped := Apply(s, Stop(w));
    if stopped.Some? && Run(stopped.value, es).Some? {
      HistoryGrows(s, Stop(w), stopped.value);
      StoppedStays(stopped.value, es, Run(stopped.value, es).value, w);
    }
  }

  // ----- how long a worker waits -----

  /** How many waits the worker has had since it was last told that it is registered, after `n` before. */
  ghost function WaitsSince(s: Cluster, es: seq<Event>, w: nat, n: nat): nat
    decreases |es|
  {
    if es == [] || Apply(s, es[0]).None? then n
    else
      var next := if Acks(s, es[0], w) then 0 else if es[0].Wake? && es[0].w == w then n + 1 else n;
      WaitsSince(Apply(s, es[0]).value, es[1..], w, next)
  }

  ghost predicate Waited(node: WorkerNode, n: nat) {
    node.waits == n && ((node.phase.Connecting? || node.phase.Registering?) && node.phase.probe ==> n == 0)
  }

  lemma {:induction false} WaitedStep(s: Cluster, e: Event, s': Cluster, w: nat, n: nat)
    requires s.history != [] && Apply(s, e) == Some(s') && w in s.workers && Waited(s.workers[w], n)
    ensures w in s'.workers
    ensures Waited(s'.workers[w], if Acks(s, e, w) then 0 else if e.Wake? && e.w == w then n + 1 else n)
  {
    if !OfWorker(e) {
      HandlerEvolves(s, e, s');
    }
  }

  lemma {:induction false} WaitedRun(s: Cluster, es: seq<Event>, s': Cluster, w: nat, n: nat)
    requires s.history != [] && Run(s, es) == Some(s') && w in s.workers && Waited(s.workers[w], n)
    ensures w in s'.workers && Waited(s'.workers[w], WaitsSince(s, es, w, n))
    decreases |es|
  {
    if es != [] {
      var e, s1 := es[0], Apply(s, es[0]).value;
      WaitedStep(s, e, s1, w, n);
      HistoryGrows(s, e, s1);
      WaitedRun(s1, es[1..], s', w, if Acks(s, e, w) then 0 else if e.Wake? && e.w == w then n + 1 else n);
    }
  }

  /**
   In every run a worker's next wait is min(3 * 2^n, 30) seconds, n being the waits it has had since
   it was last told that it is registered.
   */
  lemma {:induction false} BackoffFromStart(s: Cluster, es: seq<Event>, s': Cluster, w: nat, n: nat)
    requires Initial(s) && Run(s, es) == Some(s') && w in s.workers && n == WaitsSince(s, es, w, 0)
    ensures w in s'.workers && s'.workers[w].backoff == if 3 * Pow2(n) < 30 then 3 * Pow2(n) else 30
  {
    WaitedRun(s, es, s', w, 0);
    InitialBounded(s);
    RunBounded(s, es, s');
  }
}
