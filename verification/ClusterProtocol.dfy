/**
 The cluster protocol as a state machine: one main node with any number of connection handlers,
 worker nodes that register, ask for the node list and reconnect, and a pair of FIFO channels
 for each connection. An event is one atomic step of a handler, a worker or the network.
 `history` records every registry state; `version` says which of them a node list was copied from.
 */
module ClusterProtocol {
  import opened Wrappers
  import opened ClusterRegistry
  import opened ClusterTasks

  datatype Conn = Conn(handler: Handler, toMain: seq<Message>, toWorker: seq<Message>)

  datatype Cluster = Cluster(
    token: string, history: seq<Nodes>, conns: map<nat, Conn>, workers: map<nat, WorkerNode>)

  datatype Event =
    | Connect(w: nat, conn: nat)
    | ConnectFails(w: nat)
    | ReceiveAck(w: nat)
    | RegisterFails(w: nat)
    | Wake(w: nat)
    | Stop(w: nat)
    | AskNodes(w: nat)
    | SendPing(w: nat)
    | WorkerReceive(w: nat)
    | WorkerLost(w: nat)
    | HandleRegister(c: nat)
    | HandlerRejects(c: nat)
    | EnterRegistry(c: nat)
    | HandlerReceive(c: nat, listing: seq<NodeInfo>)
    | PingTick(c: nat)
    | HandlerBreaks(c: nat)
    | MarkOffline(c: nat)
    | Unregister(c: nat)

  ghost function Current(s: Cluster): Nodes
    requires s.history != []
  {
    s.history[|s.history| - 1]
  }

  ghost function ToMain(s: Cluster, c: nat, m: Message): Cluster
    requires c in s.conns
  {
    s.(conns := s.conns[c := s.conns[c].(toMain := s.conns[c].toMain + [m])])
  }

  ghost function ToWorker(s: Cluster, c: nat, m: Message): Cluster
    requires c in s.conns
  {
    s.(conns := s.conns[c := s.conns[c].(toWorker := s.conns[c].toWorker + [m])])
  }

  ghost function Replied(s: Cluster, c: nat, m: Option<Message>): Cluster
    requires c in s.conns
  {
    if m.Some? then ToWorker(s, c, m.value) else s
  }

  ghost function SetHandler(s: Cluster, c: nat, h: Handler): Cluster
    requires c in s.conns
  {
    s.(conns := s.conns[c := s.conns[c].(handler := h)])
  }

  ghost function SetWorker(s: Cluster, w: nat, node: WorkerNode): Cluster {
    s.(workers := s.workers[w := node])
  }

  ghost function Write(s: Cluster, nodes: Nodes): Cluster {
    s.(history := s.history + [nodes])
  }

  // ----- the worker -----

  /** The next message for the worker, taken off its channel. */
  ghost function PopWorker(s: Cluster, c: nat): Cluster
    requires c in s.conns && s.conns[c].toWorker != []
  {
    s.(conns := s.conns[c := s.conns[c].(toWorker := s.conns[c].toWorker[1..])])
  }

  ghost function WorkerStep(s: Cluster, w: nat, node: WorkerNode, e: Event): Option<Cluster> {
    match e
    case Connect(_, c) =>
      // a new TCP connection; the registration is the first thing sent on it
      if node.phase.Connecting? && c !in s.conns then
        var conn := Conn(AwaitRegister, [Register(node.info, node.token)], []);
        Some(SetWorker(s.(conns := s.conns[c := conn]), w, Dialled(node, c)))
      else None
    case ConnectFails(_) =>
      if node.phase.Connecting? then Some(SetWorker(s, w, Failed(node))) else None
    case ReceiveAck(_) =>
      if node.phase.Registering? && node.phase.conn in s.conns && s.conns[node.phase.conn].toWorker != [] then
        var c := node.phase.conn;
        Some(SetWorker(PopWorker(s, c), w, Acknowledged(node, s.conns[c].toWorker[0])))
      else None
    case RegisterFails(_) =>
      if node.phase.Registering? then Some(SetWorker(s, w, Failed(node))) else None
    case Wake(_) =>
      if node.phase.Sleeping? then Some(SetWorker(s, w, Woken(node))) else None
    case Stop(_) =>
      if node.phase.Sleeping? then Some(SetWorker(s, w, node.(phase := Stopped)))
      else if node.phase.Looping? && node.phase.conn in s.conns then
        Some(SetWorker(ToMain(s, node.phase.conn, Deregister), w, node.(phase := Stopped)))
      else None
    case AskNodes(_) =>
      if node.phase.Looping? && node.phase.conn in s.conns then Some(ToMain(s, node.phase.conn, ListNodes)) else None
    case SendPing(_) =>
      if node.phase.Looping? && node.phase.conn in s.conns then Some(ToMain(s, node.phase.conn, Ping)) else None
    case WorkerReceive(_) =>
      if node.phase.Looping? && node.phase.conn in s.conns && s.conns[node.phase.conn].toWorker != [] then
        var c := node.phase.conn;
        var m := s.conns[c].toWorker[0];
        var s' := PopWorker(s, c);
        Some(SetWorker(if m.Ping? then ToMain(s', c, Pong) else s', w, Informed(node, m)))
      else None
    case WorkerLost(_) =>
      if node.phase.Looping? then Some(SetWorker(s, w, Lost(node))) else None
    case _ => None
  }

  // ----- the handler -----

  ghost function PopMain(s: Cluster, c: nat): Cluster
    requires c in s.conns && s.conns[c].toMain != []
  {
    s.(conns := s.conns[c := s.conns[c].(toMain := s.conns[c].toMain[1..])])
  }

  ghost function HandlerStep(s: Cluster, c: nat, e: Event): Option<Cluster>
    requires c in s.conns && s.history != []
  {
    var h := s.conns[c].handler;
    match e
    case HandleRegister(_) =>
      if h.AwaitRegister? && s.conns[c].toMain != [] then
        var m := s.conns[c].toMain[0];
        Some(SetHandler(Replied(PopMain(s, c), c, AdmissionReply(s.token, m)), c, Admitted(s.token, m)))
      else None
    case HandlerRejects(_) =>
      // five seconds without a registration, or the stream ends first
      if h.AwaitRegister? then Some(SetHandler(s, c, Ended)) else None
    case EnterRegistry(_) =>
      if h.Acked? then Some(SetHandler(Write(s, WithNode(Current(s), h.info)), c, Serving(h.info.id, 0))) else None
    case HandlerReceive(_, listing) =>
      if h.Serving? && s.conns[c].toMain != [] then
        var m := s.conns[c].toMain[0];
        if m.ListNodes? && !Lists(listing, Current(s)) then None
        else Some(SetHandler(Replied(PopMain(s, c), c, ReplyTo(m, listing, |s.history| - 1)), c, Received(h, m)))
      else None
    case PingTick(_) =>
      if h.Serving? then
        Some(SetHandler(if Ticked(h).Leaving? then s else ToWorker(s, c, Ping), c, Ticked(h)))
      else None
    case HandlerBreaks(_) =>
      // shutdown, a send or read error, or the end of the stream
      if h.Serving? then Some(SetHandler(s, c, Leaving(h.id))) else None
    case MarkOffline(_) =>
      if h.Leaving? then Some(SetHandler(Write(s, Finalised(h, Current(s))), c, Ended)) else None
    case Unregister(_) =>
      if h.Deregistering? then Some(SetHandler(Write(s, Finalised(h, Current(s))), c, Ended)) else None
    case _ => None
  }

  // ----- runs -----

  predicate OfWorker(e: Event) {
    e.Connect? || e.ConnectFails? || e.ReceiveAck? || e.RegisterFails? || e.Wake? || e.Stop? || e.AskNodes?
    || e.SendPing? || e.WorkerReceive? || e.WorkerLost?
  }

  /** The state after an event, or None when the event cannot happen. */
  ghost function Apply(s: Cluster, e: Event): Option<Cluster> {
    if s.history == [] then None
    else if OfWorker(e) then
      if e.w in s.workers then WorkerStep(s, e.w, s.workers[e.w], e) else None
    else if e.c in s.conns then HandlerStep(s, e.c, e)
    else None
  }

  ghost function Run(s: Cluster, es: seq<Event>): Option<Cluster>
    decreases |es|
  {
    if es == [] then Some(s)
    else
      match Apply(s, es[0])
      case None => None
      case Some(s') => Run(s', es[1..])
  }

  /** Nothing registered, no connection, and every worker about to start. */
  ghost predicate Initial(s: Cluster) {
    && s.history == [map[]] && s.conns == map[]
    && forall w :: w in s.workers ==>
         s.workers[w] == WorkerNode(s.workers[w].info, s.workers[w].token, Connecting(true), MIN_BACKOFF, 0, Connected, [], 0)
  }

  // ----- the invariant -----

  /** Node lists under way were copied from recorded states, in the order of the channel. */
  ghost predicate ChannelOk(history: seq<Nodes>, q: seq<Message>) {
    && (forall i :: 0 <= i < |q| && q[i].NodeList? ==>
          q[i].version < |history| && Lists(q[i].nodes, history[q[i].version]))
    && (forall i, j :: 0 <= i < j < |q| && q[i].NodeList? && q[j].NodeList? ==> q[i].version <= q[j].version)
  }

  /** No node list under way is older than `version`. */
  ghost predicate NoneOlder(q: seq<Message>, version: nat) {
    forall i :: 0 <= i < |q| && q[i].NodeList? ==> version <= q[i].version
  }

  ghost predicate WorkerOk(s: Cluster, node: WorkerNode) {
    && node.version < |s.history| && Lists(node.nodeList, s.history[node.version])
    && (node.phase.Registering? || node.phase.Looping? ==>
          node.phase.conn in s.conns && NoneOlder(s.conns[node.phase.conn].toWorker, node.version))
  }

  ghost predicate HoldsNode(h: Handler, id: string) {
    (h.Serving? || h.Leaving? || h.Deregistering?) && h.id == id
  }

  /** A node marked Online has a handler that registered it and has not yet finalised. */
  ghost predicate OnlineHeld(s: Cluster)
    requires s.history != []
  {
    forall id :: id in Current(s) && Current(s)[id].status == Online ==>
      exists c :: c in s.conns && HoldsNode(s.conns[c].handler, id)
  }

  ghost predicate Inv(s: Cluster) {
    && s.history != []
    && (forall c :: c in s.conns ==> ChannelOk(s.history, s.conns[c].toWorker))
    && (forall w :: w in s.workers ==> WorkerOk(s, s.workers[w]))
    && OnlineHeld(s)
  }

  // ----- each event keeps the invariant -----

  /** How one event may change a connection's channel to the worker. */
  ghost predicate ChannelStep(s: Cluster, q: seq<Message>, q': seq<Message>)
    requires s.history != []
  {
    || q' == q
    || (q != [] && q' == q[1..])
    || (|q'| == |q| + 1 && q'[..|q|] == q
        && (q'[|q|].NodeList? ==> q'[|q|].version == |s.history| - 1 && Lists(q'[|q|].nodes, Current(s))))
  }

  /** What every event does to the history and the channels. */
  ghost predicate Evolves(s: Cluster, s': Cluster)
    requires s.history != []
  {
    && s.token == s'.token
    && (s'.history == s.history || (|s'.history| == |s.history| + 1 && s'.history[..|s.history|] == s.history))
    && (forall c :: c in s'.conns ==>
          if c in s.conns then ChannelStep(s, s.conns[c].toWorker, s'.conns[c].toWorker)
          else s'.conns[c].toWorker == [])
    && (forall c :: c in s.conns ==> c in s'.conns)
    && s'.workers.Keys == s.workers.Keys
  }

  lemma {:induction false} WorkerReceiveEvolves(s: Cluster, e: Event, s': Cluster)
    requires s.history != [] && e.WorkerReceive? && Apply(s, e) == Some(s')
    ensures Evolves(s, s') && s'.history == s.history
  {
  }

  lemma {:induction false} WorkerRegisterEvolves(s: Cluster, e: Event, s': Cluster)
    requires s.history != [] && (e.Connect? || e.ReceiveAck?) && Apply(s, e) == Some(s')
    ensures Evolves(s, s') && s'.history == s.history
  {
  }

  lemma {:induction false} WorkerEvolves(s: Cluster, e: Event, s': Cluster)
    requires s.history != [] && OfWorker(e) && Apply(s, e) == Some(s')
    ensures Evolves(s, s') && s'.history == s.history
  {
    if e.WorkerReceive? {
      WorkerReceiveEvolves(s, e, s');
    } else if e.Connect? || e.ReceiveAck? {
      WorkerRegisterEvolves(s, e, s');
    }
  }

  lemma {:induction false} ReceiveEvolves(s: Cluster, e: Event, s': Cluster)
    requires s.history != [] && e.HandlerReceive? && Apply(s, e) == Some(s')
    ensures Evolves(s, s') && s'.workers == s.workers
  {
    var m := s.conns[e.c].toMain[0];
    var reply := ReplyTo(m, e.listing, |s.history| - 1);
    var q := s.conns[e.c].toWorker;
    assert s'.conns[e.c].toWorker == if reply.Some? then q + [reply.value] else q;
  }

  lemma {:induction false} RegisterEvolves(s: Cluster, e: Event, s': Cluster)
    requires s.history != [] && e.HandleRegister? && Apply(s, e) == Some(s')
    ensures Evolves(s, s') && s'.workers == s.workers
  {
  }

  lemma {:induction false} HandlerEvolves(s: Cluster, e: Event, s': Cluster)
    requires s.history != [] && !OfWorker(e) && Apply(s, e) == Some(s')
    ensures Evolves(s, s') && s'.workers == s.workers
  {
    if e.HandlerReceive? {
      ReceiveEvolves(s, e, s');
    } else if e.HandleRegister? {
      RegisterEvolves(s, e, s');
    }
  }

  lemma {:induction false} ChannelOfLonger(history: seq<Nodes>, history': seq<Nodes>, q: seq<Message>)
    requires ChannelOk(history, q) && |history| <= |history'| && history'[..|history|] == history
    ensures ChannelOk(history', q)
  {
    assert forall i :: 0 <= i < |history| ==> history'[i] == history[i];
  }

  lemma {:induction false} ChannelOfTail(history: seq<Nodes>, q: seq<Message>)
    requires ChannelOk(history, q) && q != []
    ensures ChannelOk(history, q[1..])
  {
  }

  /** A node list sent now is at least as new as all before it on the channel. */
  lemma {:induction false} ChannelOfMore(history: seq<Nodes>, history': seq<Nodes>, q: seq<Message>, m: Message)
    requires ChannelOk(history, q) && ChannelOk(history', q) && history != [] && |history| <= |history'|
    requires m.NodeList? ==> m.version == |history| - 1 && Lists(m.nodes, history'[m.version])
    ensures ChannelOk(history', q + [m])
  {
  }

  /** A channel that was in order stays in order. */
  lemma {:induction false} ChannelsStayOk(s: Cluster, s': Cluster, c: nat)
    requires Inv(s) && Evolves(s, s') && c in s'.conns
    ensures ChannelOk(s'.history, s'.conns[c].toWorker)
  {
    if c in s.conns {
      var q, q' := s.conns[c].toWorker, s'.conns[c].toWorker;
      assert ChannelOk(s.history, q);
      ChannelOfLonger(s.history, s'.history, q);
      if q != [] && q' == q[1..] {
        ChannelOfTail(s'.history, q);
      } else if q' != q {
        var m := q'[|q|];
        assert q' == q + [m];
        assert m.NodeList? ==> m.version == |s.history| - 1 && Lists(m.nodes, s'.history[m.version]);
        ChannelOfMore(s.history, s'.history, q, m);
      }
    }
  }

  /** A worker that an event leaves alone keeps its guarantees. */
  lemma {:induction false} WorkersStayOk(s: Cluster, s': Cluster, node: WorkerNode)
    requires Inv(s) && Evolves(s, s') && WorkerOk(s, node)
    ensures WorkerOk(s', node)
  {
    assert s'.history[node.version] == s.history[node.version];
    if node.phase.Registering? || node.phase.Looping? {
      var q, q' := s.conns[node.phase.conn].toWorker, s'.conns[node.phase.conn].toWorker;
      if q' != q && !(q != [] && q' == q[1..]) {
        assert forall i :: 0 <= i < |q| ==> q'[i] == q[i];
      }
    }
  }

  lemma {:induction false} ReceivedMessage(s: Cluster, e: Event, s': Cluster)
    requires s.history != [] && e.WorkerReceive? && Apply(s, e) == Some(s')
    ensures e.w in s.workers && s.workers[e.w].phase.Looping?
    ensures
      var node := s.workers[e.w];
      var c := node.phase.conn;
      && c in s.conns && s.conns[c].toWorker != [] && c in s'.conns
      && s'.conns[c].toWorker == s.conns[c].toWorker[1..] && s'.history == s.history
      && s'.workers == s.workers[e.w := Informed(node, s.conns[c].toWorker[0])]
  {
  }

  lemma {:induction false} NodeListIsNewer(history: seq<Nodes>, q: seq<Message>, version: nat)
    requires ChannelOk(history, q) && q != [] && q[0].NodeList? && NoneOlder(q, version)
    ensures version <= q[0].version < |history| && Lists(q[0].nodes, history[q[0].version])
    ensures NoneOlder(q[1..], q[0].version)
  {
  }

  lemma {:induction false} ReceivingWorkerOk(s: Cluster, e: Event, s': Cluster, node: WorkerNode)
    requires Inv(s) && e.WorkerReceive? && Apply(s, e) == Some(s') && node == s.workers[e.w]
    ensures e.w in s'.workers && WorkerOk(s', s'.workers[e.w]) && node.version <= s'.workers[e.w].version
    ensures s'.workers == s.workers[e.w := s'.workers[e.w]]
  {
    ReceivedMessage(s, e, s');
    var q := s.conns[node.phase.conn].toWorker;
    assert WorkerOk(s, node) && ChannelOk(s.history, q);
    if q[0].NodeList? {
      NodeListIsNewer(s.history, q, node.version);
    } else {
      assert NoneOlder(q[1..], node.version);
    }
  }

  lemma {:induction false} ConnectingWorkerOk(s: Cluster, e: Event, s': Cluster, node: WorkerNode)
    requires Inv(s) && e.Connect? && Apply(s, e) == Some(s') && node == s.workers[e.w]
    ensures e.w in s'.workers && WorkerOk(s', s'.workers[e.w]) && node.version <= s'.workers[e.w].version
    ensures s'.workers == s.workers[e.w := s'.workers[e.w]]
  {
    assert WorkerOk(s, node);
    assert s'.conns[e.conn].toWorker == [];
    assert s'.history == s.history;
  }

  /** The worker knows what it knew, and is on no connection it was not on. */
  ghost predicate SameView(node: WorkerNode, node': WorkerNode) {
    && node'.nodeList == node.nodeList && node'.version == node.version
    && (node'.phase.Registering? || node'.phase.Looping? ==>
          (node.phase.Registering? || node.phase.Looping?) && node'.phase.conn == node.phase.conn)
  }

  lemma {:induction false} OtherWorkerView(s: Cluster, e: Event, s': Cluster, node: WorkerNode)
    requires s.history != [] && OfWorker(e) && !e.Connect? && !e.WorkerReceive? && Apply(s, e) == Some(s')
    requires e.w in s.workers && node == s.workers[e.w]
    ensures e.w in s'.workers && SameView(node, s'.workers[e.w])
    ensures s'.workers == s.workers[e.w := s'.workers[e.w]]
  {
  }

  lemma {:induction false} OtherWorkerOk(s: Cluster, e: Event, s': Cluster, node: WorkerNode)
    requires Inv(s) && OfWorker(e) && !e.Connect? && !e.WorkerReceive? && Apply(s, e) == Some(s')
    requires e.w in s.workers && node == s.workers[e.w]
    ensures e.w in s'.workers && WorkerOk(s', s'.workers[e.w]) && node.version <= s'.workers[e.w].version
    ensures s'.workers == s.workers[e.w := s'.workers[e.w]]
  {
    WorkerEvolves(s, e, s');
    WorkersStayOk(s, s', node);
    OtherWorkerView(s, e, s', node);
  }

  /** Only the acting worker changes, and what it knows never gets older. */
  lemma {:induction false} ActingWorkerOk(s: Cluster, e: Event, s': Cluster)
    requires Inv(s) && OfWorker(e) && Apply(s, e) == Some(s')
    ensures e.w in s.workers && e.w in s'.workers && WorkerOk(s', s'.workers[e.w])
    ensures s.workers[e.w].version <= s'.workers[e.w].version
    ensures s'.workers == s.workers[e.w := s'.workers[e.w]]
  {
    if e.WorkerReceive? {
      ReceivingWorkerOk(s, e, s', s.workers[e.w]);
    } else if e.Connect? {
      ConnectingWorkerOk(s, e, s', s.workers[e.w]);
    } else {
      OtherWorkerOk(s, e, s', s.workers[e.w]);
    }
  }

  // ----- who holds an Online entry -----

  lemma {:induction false} WorkerKeepsHandlers(s: Cluster, e: Event, s': Cluster)
    requires s.history != [] && OfWorker(e) && Apply(s, e) == Some(s')
    ensures forall c :: c in s.conns ==> c in s'.conns && s'.conns[c].handler == s.conns[c].handler
    ensures forall c :: c in s'.conns && c !in s.conns ==> s'.conns[c].handler == AwaitRegister
  {
  }

  lemma {:induction false} HandlerKeepsOthers(s: Cluster, e: Event, s': Cluster)
    requires s.history != [] && !OfWorker(e) && Apply(s, e) == Some(s')
    ensures e.c in s.conns && s'.conns.Keys == s.conns.Keys
    ensures forall c :: c in s.conns && c != e.c ==> s'.conns[c] == s.conns[c]
  {
  }

  predicate Writes(e: Event) {
    e.EnterRegistry? || e.MarkOffline? || e.Unregister?
  }

  /** A handler that does not write the registry goes on holding what it held. */
  lemma {:induction false} QuietHandler(s: Cluster, e: Event, s': Cluster, id: string)
    requires s.history != [] && !OfWorker(e) && !Writes(e) && Apply(s, e) == Some(s')
    ensures s'.history == s.history && e.c in s'.conns
    ensures HoldsNode(s.conns[e.c].handler, id) <==> HoldsNode(s'.conns[e.c].handler, id)
  {
  }

  lemma {:induction false} WritingHandler(s: Cluster, e: Event, s': Cluster)
    requires s.history != [] && Writes(e) && Apply(s, e) == Some(s')
    ensures s'.history != [] && e.c in s.conns && e.c in s'.conns
    ensures e.EnterRegistry? ==>
              && s.conns[e.c].handler.Acked?
              && s'.conns[e.c].handler == Serving(s.conns[e.c].handler.info.id, 0)
              && Current(s') == WithNode(Current(s), s.conns[e.c].handler.info)
    ensures e.MarkOffline? ==>
              && s.conns[e.c].handler.Leaving?
              && s'.conns[e.c].handler == Ended
              && Current(s') == WithStatus(Current(s), s.conns[e.c].handler.id, Offline)
    ensures e.Unregister? ==>
              && s.conns[e.c].handler.Deregistering?
              && s'.conns[e.c].handler == Ended
              && Current(s') == WithoutNode(Current(s), s.conns[e.c].handler.id)
  {
  }

  /** The connection that still holds an entry Online after the event. */
  lemma {:induction false} HolderAfter(s: Cluster, e: Event, s': Cluster, id: string) returns (c: nat)
    requires s.history != [] && OnlineHeld(s) && Apply(s, e) == Some(s') && s'.history != []
    requires id in Current(s') && Current(s')[id].status == Online
    ensures c in s'.conns && HoldsNode(s'.conns[c].handler, id)
  {
    if OfWorker(e) {
      WorkerEvolves(s, e, s');
      WorkerKeepsHandlers(s, e, s');
      assert id in Current(s) && Current(s)[id].status == Online;
      c :| c in s.conns && HoldsNode(s.conns[c].handler, id);
    } else {
      HandlerKeepsOthers(s, e, s');
      if Writes(e) {
        WritingHandler(s, e, s');
        if e.EnterRegistry? && s.conns[e.c].handler.info.id == id {
          c := e.c;
        } else {
          assert id in Current(s) && Current(s)[id].status == Online;
          c :| c in s.conns && HoldsNode(s.conns[c].handler, id);
        }
      } else {
        QuietHandler(s, e, s', id);
        assert id in Current(s) && Current(s)[id].status == Online;
        c :| c in s.conns && HoldsNode(s.conns[c].handler, id);
      }
    }
  }

  lemma {:induction false} OnlineStaysHeld(s: Cluster, e: Event, s': Cluster)
    requires s.history != [] && OnlineHeld(s) && Apply(s, e) == Some(s') && s'.history != []
    ensures OnlineHeld(s')
  {
    forall id | id in Current(s') && Current(s')[id].status == Online
      ensures exists c :: c in s'.conns && HoldsNode(s'.conns[c].handler, id)
    {
      var c := HolderAfter(s, e, s', id);
    }
  }

  // ----- whole runs -----

  lemma {:induction false} InvStep(s: Cluster, e: Event, s': Cluster)
    requires Inv(s) && Apply(s, e) == Some(s')
    ensures Inv(s') && Evolves(s, s')
    ensures forall w :: w in s.workers ==> w in s'.workers && s.workers[w].version <= s'.workers[w].version
  {
    if OfWorker(e) {
      WorkerEvolves(s, e, s');
      ActingWorkerOk(s, e, s');
    } else {
      HandlerEvolves(s, e, s');
    }
    forall c | c in s'.conns ensures ChannelOk(s'.history, s'.conns[c].toWorker) {
      ChannelsStayOk(s, s', c);
    }
    forall w | w in s'.workers ensures WorkerOk(s', s'.workers[w]) {
      if !(OfWorker(e) && w == e.w) {
        WorkersStayOk(s, s', s.workers[w]);
      }
    }
    OnlineStaysHeld(s, e, s');
  }

  /**
   Along any run, the history only grows and no worker's node list ever goes back to an older
   registry state, across every reconnect; and the invariant holds at the end.
   */
  lemma {:induction false} RunKeepsInv(s: Cluster, es: seq<Event>, s': Cluster)
    requires Inv(s) && Run(s, es) == Some(s')
    ensures Inv(s')
    ensures |s.history| <= |s'.history| && s'.history[..|s.history|] == s.history
    ensures forall w :: w in s.workers ==> w in s'.workers && s.workers[w].version <= s'.workers[w].version
    decreases |es|
  {
    if es != [] {
      var s1 := Apply(s, es[0]).value;
      InvStep(s, es[0], s1);
      RunKeepsInv(s1, es[1..], s');
      assert s1.history[..|s.history|] == s.history;
      assert s'.history[..|s.history|] == s1.history[..|s.history|];
    }
  }

  lemma {:induction false} InitialInv(s: Cluster)
    requires Initial(s)
    ensures Inv(s)
  {
    forall w | w in s.workers ensures WorkerOk(s, s.workers[w]) {
      assert s.history[0] == map[];
    }
  }

  /** Every worker's node list is a state the registry has been in, at every point of every run. */
  lemma {:induction false} NodeListsArePastStates(s: Cluster, es: seq<Event>, s': Cluster, w: nat)
    requires Initial(s) && Run(s, es) == Some(s') && w in s'.workers
    ensures s'.workers[w].version < |s'.history|
    ensures Lists(s'.workers[w].nodeList, s'.history[s'.workers[w].version])
  {
    InitialInv(s);
    RunKeepsInv(s, es, s');
    assert WorkerOk(s', s'.workers[w]);
  }

  /** When no handler holds a registration any more, nothing is Online. */
  lemma {:induction false} NobodyHeldNobodyOnline(s: Cluster, es: seq<Event>, s': Cluster, id: string)
    requires Initial(s) && Run(s, es) == Some(s') && s'.history != []
    requires forall c :: c in s'.conns ==> !HoldsNode(s'.conns[c].handler, id)
    ensures id !in Current(s') || Current(s')[id].status != Online
  {
    InitialInv(s);
    RunKeepsInv(s, es, s');
  }

  lemma {:induction false} HistoryGrows(s: Cluster, e: Event, s': Cluster)
    requires s.history != [] && Apply(s, e) == Some(s')
    ensures s'.history != []
  {
    if OfWorker(e) {
      WorkerEvolves(s, e, s');
    } else {
      HandlerEvolves(s, e, s');
    }
  }

  // ----- reconnect backoff and missed pongs -----

  function CappedBackoff(waits: nat): nat {
    if MIN_BACKOFF * Pow2(waits) < MAX_BACKOFF then MIN_BACKOFF * Pow2(waits) else MAX_BACKOFF
  }

  ghost predicate Bounded(s: Cluster) {
    && (forall w :: w in s.workers ==> s.workers[w].backoff == CappedBackoff(s.workers[w].waits))
    && (forall c :: c in s.conns && s.conns[c].handler.Serving? ==> s.conns[c].handler.missedPongs <= 3)
  }

  lemma {:induction false} BackoffStep(s: Cluster, e: Event, s': Cluster)
    requires s.history != [] && OfWorker(e) && Apply(s, e) == Some(s')
    ensures e.w in s.workers && e.w in s'.workers && s'.workers == s.workers[e.w := s'.workers[e.w]]
    ensures
      var node, node' := s.workers[e.w], s'.workers[e.w];
      || (node'.waits == node.waits && node'.backoff == node.backoff)
      || (node'.waits == node.waits + 1 && node'.backoff == Doubled(node.backoff))
      || (node'.waits == 0 && node'.backoff == MIN_BACKOFF)
  {
    if e.WorkerReceive? {
      ReceivedMessage(s, e, s');
    } else if !e.Connect? {
      OtherWorkerView(s, e, s', s.workers[e.w]);
    }
  }

  lemma {:induction false} PongStep(s: Cluster, e: Event, s': Cluster)
    requires s.history != [] && !OfWorker(e) && Apply(s, e) == Some(s')
    requires s.conns[e.c].handler.Serving? ==> s.conns[e.c].handler.missedPongs <= 3
    ensures s'.workers == s.workers && e.c in s'.conns
    ensures s'.conns[e.c].handler.Serving? ==> s'.conns[e.c].handler.missedPongs <= 3
  {
    HandlerEvolves(s, e, s');
  }

  lemma {:induction false} BoundedWorkerStep(s: Cluster, e: Event, s': Cluster)
    requires s.history != [] && Bounded(s) && OfWorker(e) && Apply(s, e) == Some(s')
    ensures Bounded(s')
  {
    WorkerKeepsHandlers(s, e, s');
    BackoffStep(s, e, s');
    var node, node' := s.workers[e.w], s'.workers[e.w];
    assert node'.backoff == CappedBackoff(node'.waits);
  }

  lemma {:induction false} BoundedStep(s: Cluster, e: Event, s': Cluster)
    requires s.history != [] && Bounded(s) && Apply(s, e) == Some(s')
    ensures Bounded(s') && s'.history != []
  {
    HistoryGrows(s, e, s');
    if OfWorker(e) {
      BoundedWorkerStep(s, e, s');
    } else {
      HandlerKeepsOthers(s, e, s');
      PongStep(s, e, s');
    }
  }

  /**
   After n waits since it was last registered a worker's next wait is min(3 * 2^n, 30) seconds, and
   a handler never counts more than three missed pongs.
   */
  lemma {:induction false} RunBounded(s: Cluster, es: seq<Event>, s': Cluster)
    requires s.history != [] && Bounded(s) && Run(s, es) == Some(s')
    ensures Bounded(s')
    decreases |es|
  {
    if es != [] {
      var s1 := Apply(s, es[0]).value;
      BoundedStep(s, es[0], s1);
      RunBounded(s1, es[1..], s');
    }
  }

  // ----- a served node need not be Online -----

  /** Every node that a handler serves is marked Online. */
  ghost predicate ServedOnline(s: Cluster)
    requires s.history != []
  {
    forall c :: c in s.conns && s.conns[c].handler.Serving? ==>
      var id := s.conns[c].handler.id;
      id in Current(s) && Current(s)[id].status == Online
  }

  /** The event finalises a node that another connection is serving. */
  ghost predicate Overtakes(s: Cluster, e: Event) {
    && (e.MarkOffline? || e.Unregister?) && e.c in s.conns
    && (s.conns[e.c].handler.Leaving? || s.conns[e.c].handler.Deregistering?)
    && exists c :: c in s.conns && c != e.c && s.conns[c].handler.Serving?
                   && s.conns[c].handler.id == s.conns[e.c].handler.id
  }

  lemma {:induction false} QuietServing(s: Cluster, e: Event, s': Cluster)
    requires s.history != [] && !OfWorker(e) && !Writes(e) && Apply(s, e) == Some(s')
    ensures s'.history == s.history && e.c in s.conns && e.c in s'.conns
    ensures s'.conns[e.c].handler.Serving? ==>
              s.conns[e.c].handler.Serving? && s'.conns[e.c].handler.id == s.conns[e.c].handler.id
  {
  }

  /** One event keeps every served node Online, unless it finalises a node served elsewhere. */
  lemma {:induction false} ServedOnlineStep(s: Cluster, e: Event, s': Cluster)
    requires s.history != [] && ServedOnline(s) && Apply(s, e) == Some(s') && s'.history != []
    ensures ServedOnline(s') <==> !Overtakes(s, e)
  {
    if OfWorker(e) {
      WorkerEvolves(s, e, s');
      WorkerKeepsHandlers(s, e, s');
      assert Current(s') == Current(s);
    } else {
      HandlerKeepsOthers(s, e, s');
      if Writes(e) {
        WritingHandler(s, e, s');
        ServedOnlineWrite(s, e, s');
      } else {
        QuietServing(s, e, s');
        assert Current(s') == Current(s);
      }
    }
  }

  lemma {:induction false} ServedOnlineWrite(s: Cluster, e: Event, s': Cluster)
    requires s.history != [] && ServedOnline(s) && Writes(e) && Apply(s, e) == Some(s') && s'.history != []
    ensures ServedOnline(s') <==> !Overtakes(s, e)
  {
    HandlerKeepsOthers(s, e, s');
    WritingHandler(s, e, s');
    if Overtakes(s, e) {
      var c :| c in s.conns && c != e.c && s.conns[c].handler.Serving? && s.conns[c].handler.id == s.conns[e.c].handler.id;
      assert s'.conns[c] == s.conns[c];
    }
  }

  ghost predicate ServedOnlineThroughout(s: Cluster, es: seq<Event>)
    requires s.history != []
    decreases |es|
  {
    && ServedOnline(s)
    && (es != [] ==>
          match Apply(s, es[0])
          case None => true
          case Some(s1) => s1.history != [] && ServedOnlineThroughout(s1, es[1..]))
  }

  ghost predicate NeverOvertakes(s: Cluster, es: seq<Event>)
    decreases |es|
  {
    es != [] && Apply(s, es[0]).Some? ==>
      !Overtakes(s, es[0]) && NeverOvertakes(Apply(s, es[0]).value, es[1..])
  }

  /** Along a run every served node stays Online exactly when no handler finalises a node served by another. */
  lemma {:induction false} ServedOnlineRun(s: Cluster, es: seq<Event>)
    requires s.history != [] && ServedOnline(s)
    ensures ServedOnlineThroughout(s, es) <==> NeverOvertakes(s, es)
    decreases |es|
  {
    if es != [] && Apply(s, es[0]).Some? {
      var s1 := Apply(s, es[0]).value;
      HistoryGrows(s, es[0], s1);
      ServedOnlineStep(s, es[0], s1);
      if ServedOnline(s1) {
        ServedOnlineRun(s1, es[1..]);
      } else {
        assert !ServedOnlineThroughout(s1, es[1..]);
      }
    }
  }

  lemma {:induction false} InitialBounded(s: Cluster)
    requires Initial(s)
    ensures Bounded(s) && ServedOnline(s)
  {
    assert CappedBackoff(0) == MIN_BACKOFF;
  }

  // ----- who gets into the registry -----

  /** Some worker has this id and a token that the main node accepts. */
  ghost predicate Vouched(s: Cluster, id: string) {
    exists w :: w in s.workers && s.workers[w].info.id == id && Authorised(s.token, s.workers[w].token)
  }

  ghost predicate RegistersVouched(s: Cluster, q: seq<Message>) {
    forall i :: 0 <= i < |q| && q[i].Register? && Authorised(s.token, q[i].token) ==> Vouched(s, q[i].info.id)
  }

  ghost predicate HandlerVouched(s: Cluster, h: Handler) {
    && (h.Acked? ==> Vouched(s, h.info.id))
    && (h.Serving? || h.Leaving? || h.Deregistering? ==> Vouched(s, h.id))
  }

  ghost predicate StateVouched(s: Cluster, nodes: Nodes) {
    forall id :: id in nodes ==> Vouched(s, id)
  }

  /** Every registration under way, every handler and every registry state there has been is vouched for. */
  ghost predicate AllVouched(s: Cluster) {
    && (forall c :: c in s.conns ==> RegistersVouched(s, s.conns[c].toMain) && HandlerVouched(s, s.conns[c].handler))
    && (forall k :: 0 <= k < |s.history| ==> StateVouched(s, s.history[k]))
  }

  /** Workers keep their ids and tokens, so what was vouched for stays so. */
  ghost predicate SameWorkers(s: Cluster, s': Cluster) {
    && s'.token == s.token && s'.workers.Keys == s.workers.Keys
    && forall w :: w in s.workers ==> s'.workers[w].info == s.workers[w].info && s'.workers[w].token == s.workers[w].token
  }

  lemma {:induction false} WorkersSame(s: Cluster, e: Event, s': Cluster)
    requires s.history != [] && Apply(s, e) == Some(s')
    ensures SameWorkers(s, s')
  {
    if !OfWorker(e) {
      HandlerEvolves(s, e, s');
    }
  }

  lemma {:induction false} StillVouched(s: Cluster, s': Cluster, id: string)
    requires SameWorkers(s, s')
    ensures Vouched(s', id) <==> Vouched(s, id)
  {
    if Vouched(s, id) {
      var w :| w in s.workers && s.workers[w].info.id == id && Authorised(s.token, s.workers[w].token);
      assert w in s'.workers && s'.workers[w].info.id == id;
    }
    if Vouched(s', id) {
      var w :| w in s'.workers && s'.workers[w].info.id == id && Authorised(s'.token, s'.workers[w].token);
      assert w in s.workers && s.workers[w].info.id == id;
    }
  }

  /** What a worker's step puts on a channel to the main node: its own registration on a new one, or no registration. */
  lemma {:induction false} WorkerSends(s: Cluster, e: Event, s': Cluster, c: nat)
    requires s.history != [] && OfWorker(e) && Apply(s, e) == Some(s') && c in s'.conns
    ensures e.w in s.workers
    ensures c !in s.conns ==> s'.conns[c].toMain == [Register(s.workers[e.w].info, s.workers[e.w].token)]
    ensures c in s.conns ==>
              || s'.conns[c].toMain == s.conns[c].toMain
              || exists m: Message :: !m.Register? && s'.conns[c].toMain == s.conns[c].toMain + [m]
  {
    if c in s.conns {
      if e.Stop? && s'.conns[c].toMain != s.conns[c].toMain {
        assert s'.conns[c].toMain == s.conns[c].toMain + [Deregister];
      } else if e.AskNodes? && s'.conns[c].toMain != s.conns[c].toMain {
        assert s'.conns[c].toMain == s.conns[c].toMain + [ListNodes];
      } else if e.SendPing? && s'.conns[c].toMain != s.conns[c].toMain {
        assert s'.conns[c].toMain == s.conns[c].toMain + [Ping];
      } else if e.WorkerReceive? && s'.conns[c].toMain != s.conns[c].toMain {
        assert s'.conns[c].toMain == s.conns[c].toMain + [Pong];
      }
    }
  }

  lemma {:induction false} WorkerKeepsVouched(s: Cluster, e: Event, s': Cluster, c: nat)
    requires s.history != [] && AllVouched(s) && OfWorker(e) && Apply(s, e) == Some(s') && c in s'.conns
    ensures RegistersVouched(s, s'.conns[c].toMain) && HandlerVouched(s, s'.conns[c].handler)
  {
    WorkerSends(s, e, s', c);
    WorkerKeepsHandlers(s, e, s');
    if c in s.conns {
      assert RegistersVouched(s, s.conns[c].toMain) && HandlerVouched(s, s.conns[c].handler);
    }
  }

  lemma {:induction false} ActingHandlerVouched(s: Cluster, e: Event, s': Cluster)
    requires s.history != [] && AllVouched(s) && !OfWorker(e) && Apply(s, e) == Some(s')
    ensures e.c in s'.conns
    ensures RegistersVouched(s, s'.conns[e.c].toMain) && HandlerVouched(s, s'.conns[e.c].handler)
  {
    var q, h := s.conns[e.c].toMain, s.conns[e.c].handler;
    assert RegistersVouched(s, q) && HandlerVouched(s, h);
    assert s'.conns[e.c].toMain == q || (q != [] && s'.conns[e.c].toMain == q[1..]);
  }

  lemma {:induction false} HandlerKeepsVouched(s: Cluster, e: Event, s': Cluster, c: nat)
    requires s.history != [] && AllVouched(s) && !OfWorker(e) && Apply(s, e) == Some(s') && c in s'.conns
    ensures RegistersVouched(s, s'.conns[c].toMain) && HandlerVouched(s, s'.conns[c].handler)
  {
    HandlerKeepsOthers(s, e, s');
    if c == e.c {
      ActingHandlerVouched(s, e, s');
    }
  }

  lemma {:induction false} NewestVouched(s: Cluster, e: Event, s': Cluster)
    requires s.history != [] && AllVouched(s) && Apply(s, e) == Some(s') && s'.history != []
    ensures StateVouched(s, Current(s'))
  {
    assert StateVouched(s, Current(s));
    if OfWorker(e) {
      WorkerEvolves(s, e, s');
    } else if Writes(e) {
      WritingHandler(s, e, s');
      assert HandlerVouched(s, s.conns[e.c].handler);
    } else {
      QuietHandler(s, e, s', "");
    }
  }

  lemma {:induction false} VouchedStep(s: Cluster, e: Event, s': Cluster)
    requires s.history != [] && AllVouched(s) && Apply(s, e) == Some(s')
    ensures s'.history != [] && AllVouched(s')
  {
    HistoryGrows(s, e, s');
    WorkersSame(s, e, s');
    forall id ensures Vouched(s', id) <==> Vouched(s, id) {
      StillVouched(s, s', id);
    }
    forall c | c in s'.conns
      ensures RegistersVouched(s', s'.conns[c].toMain) && HandlerVouched(s', s'.conns[c].handler)
    {
      if OfWorker(e) {
        WorkerKeepsVouched(s, e, s', c);
      } else {
        HandlerKeepsVouched(s, e, s', c);
      }
    }
    NewestVouched(s, e, s');
    HistoryVouched(s, e, s');
  }

  lemma {:induction false} HistoryVouched(s: Cluster, e: Event, s': Cluster)
    requires s.history != [] && AllVouched(s) && Apply(s, e) == Some(s') && s'.history != []
    requires StateVouched(s, Current(s'))
    requires forall id :: Vouched(s', id) <==> Vouched(s, id)
    ensures forall k :: 0 <= k < |s'.history| ==> StateVouched(s', s'.history[k])
  {
    if OfWorker(e) {
      WorkerEvolves(s, e, s');
    } else {
      HandlerEvolves(s, e, s');
    }
    forall k | 0 <= k < |s'.history| ensures StateVouched(s', s'.history[k]) {
      if k < |s.history| {
        assert s'.history[k] == s.history[k] && StateVouched(s, s.history[k]);
      }
    }
  }

  lemma {:induction false} RunKeepsVouched(s: Cluster, es: seq<Event>, s': Cluster)
    requires s.history != [] && AllVouched(s) && Run(s, es) == Some(s')
    ensures AllVouched(s')
    decreases |es|
  {
    if es != [] {
      var s1 := Apply(s, es[0]).value;
      VouchedStep(s, es[0], s1);
      RunKeepsVouched(s1, es[1..], s');
    }
  }

  /**
   In every run, every id that was ever in the registry belongs to a worker whose token the main
   node accepts: a wrong token never enters, under any interleaving or reconnect.
   */
  lemma {:induction false} OnlyAuthorisedEnter(s: Cluster, es: seq<Event>, s': Cluster, k: nat, id: string)
    requires Initial(s) && Run(s, es) == Some(s') && k < |s'.history| && id in s'.history[k]
    ensures exists w :: w in s'.workers && s'.workers[w].info.id == id && (s'.token == "" || s'.workers[w].token == s'.token)
  {
    RunKeepsVouched(s, es, s');
    assert StateVouched(s', s'.history[k]) && Vouched(s', id);
  }

  // ----- what the worker's handle says -----

  /** Reconnecting is never said while the worker is connected, and always while it waits; Disconnected is never said. */
  ghost predicate LinkOk(node: WorkerNode) {
    && node.link != Disconnected
    && (node.phase.Looping? ==> node.link == Connected)
    && (node.phase.Sleeping? ==> node.link == Reconnecting)
    && (node.phase.Connecting? || node.phase.Registering? ==> node.phase.probe ==> node.link == Connected)
  }

  lemma {:induction false} LinkStep(s: Cluster, e: Event, s': Cluster, w: nat)
    requires s.history != [] && Apply(s, e) == Some(s') && w in s.workers && LinkOk(s.workers[w])
    ensures w in s'.workers && LinkOk(s'.workers[w])
  {
    if !OfWorker(e) {
      HandlerEvolves(s, e, s');
    }
  }

  lemma {:induction false} LinkRun(s: Cluster, es: seq<Event>, s': Cluster, w: nat)
    requires s.history != [] && Run(s, es) == Some(s') && w in s.workers && LinkOk(s.workers[w])
    ensures w in s'.workers && LinkOk(s'.workers[w])
    decreases |es|
  {
    if es != [] {
      var s1 := Apply(s, es[0]).value;
      LinkStep(s, es[0], s1, w);
      HistoryGrows(s, es[0], s1);
      LinkRun(s1, es[1..], s', w);
    }
  }

  /** In every run a connected worker's handle says Connected, a waiting one's says Reconnecting. */
  lemma {:induction false} LinkFromStart(s: Cluster, es: seq<Event>, s': Cluster, w: nat)
    requires Initial(s) && Run(s, es) == Some(s') && w in s.workers
    ensures w in s'.workers && LinkOk(s'.workers[w])
  {
    LinkRun(s, es, s', w);
  }

  /** The worker is told that it is registered. */
  ghost predicate Acks(s: Cluster, e: Event, w: nat) {
    && e.ReceiveAck? && e.w == w && w in s.workers
    && var node := s.workers[w];
       && node.phase.Registering? && node.phase.conn in s.conns && s.conns[node.phase.conn].toWorker != []
       && s.conns[node.phase.conn].toWorker[0] == RegisterAck(true)
  }

  /** The reconnect loop loses its connection, or fails to connect or to register. */
  ghost predicate Outage(s: Cluster, e: Event, w: nat) {
    && OfWorker(e) && e.w == w && w in s.workers
    && var node := s.workers[w];
       || e.WorkerLost?
       || ((e.ConnectFails? || e.RegisterFails? || (e.ReceiveAck? && !Acks(s, e, w)))
           && (node.phase.Connecting? || node.phase.Registering?) && !node.phase.probe)
  }

  ghost predicate AckIn(s: Cluster, es: seq<Event>, w: nat)
    decreases |es|
  {
    es != [] && Apply(s, es[0]).Some? && (Acks(s, es[0], w) || AckIn(Apply(s, es[0]).value, es[1..], w))
  }

  /** There is an outage with no acknowledgement after it. */
  ghost predicate OutageLast(s: Cluster, es: seq<Event>, w: nat)
    decreases |es|
  {
    es != [] && Apply(s, es[0]).Some?
    && ((Outage(s, es[0], w) && !AckIn(Apply(s, es[0]).value, es[1..], w))
        || OutageLast(Apply(s, es[0]).value, es[1..], w))
  }

  lemma {:induction false} LinkMoves(s: Cluster, e: Event, s': Cluster, w: nat)
    requires s.history != [] && Apply(s, e) == Some(s') && w in s.workers && s.workers[w].link != Disconnected
    ensures w in s'.workers
    ensures s'.workers[w].link ==
            if Acks(s, e, w) then Connected else if Outage(s, e, w) then Reconnecting else s.workers[w].link
  {
    if !OfWorker(e) {
      HandlerEvolves(s, e, s');
    }
  }

  lemma {:induction false} LinkFollows(s: Cluster, es: seq<Event>, s': Cluster, w: nat)
    requires s.history != [] && Run(s, es) == Some(s') && w in s.workers && s.workers[w].link != Disconnected
    ensures w in s'.workers
    ensures s'.workers[w].link == Connected <==>
            !OutageLast(s, es, w) && (AckIn(s, es, w) || s.workers[w].link == Connected)
    decreases |es|
  {
    if es != [] {
      var s1 := Apply(s, es[0]).value;
      HistoryGrows(s, es[0], s1);
      LinkMoves(s, es[0], s1, w);
      LinkFollows(s1, es[1..], s', w);
    }
  }

  /**
   In every run the handle says Connected if and only if the reconnect loop has had no outage since
   the worker was last told that it is registered; until the first outage it says so from the start.
   */
  lemma {:induction false} ConnectedIffNoOutage(s: Cluster, es: seq<Event>, s': Cluster, w: nat)
    requires Initial(s) && Run(s, es) == Some(s') && w in s.workers
    ensures w in s'.workers
    ensures s'.workers[w].link == Connected <==> !OutageLast(s, es, w)
  {
    LinkFollows(s, es, s', w);
  }

  // ----- what the registry says of a node -----

  ghost predicate Enters(s: Cluster, e: Event, id: string) {
    e.EnterRegistry? && e.c in s.conns && s.conns[e.c].handler.Acked? && s.conns[e.c].handler.info.id == id
  }

  ghost predicate Leaves(s: Cluster, e: Event, id: string) {
    e.MarkOffline? && e.c in s.conns && s.conns[e.c].handler == Leaving(id)
  }

  ghost predicate Removes(s: Cluster, e: Event, id: string) {
    e.Unregister? && e.c in s.conns && s.conns[e.c].handler == Deregistering(id)
  }

  ghost predicate RemovedIn(s: Cluster, es: seq<Event>, id: string)
    decreases |es|
  {
    es != [] && Apply(s, es[0]).Some? && (Removes(s, es[0], id) || RemovedIn(Apply(s, es[0]).value, es[1..], id))
  }

  ghost predicate FinalisedIn(s: Cluster, es: seq<Event>, id: string)
    decreases |es|
  {
    es != [] && Apply(s, es[0]).Some?
    && (Leaves(s, es[0], id) || Removes(s, es[0], id) || FinalisedIn(Apply(s, es[0]).value, es[1..], id))
  }

  /** Some handler entered the node, and none has removed it since. */
  ghost predicate EnteredNotRemoved(s: Cluster, es: seq<Event>, id: string)
    decreases |es|
  {
    es != [] && Apply(s, es[0]).Some?
    && ((Enters(s, es[0], id) && !RemovedIn(Apply(s, es[0]).value, es[1..], id))
        || EnteredNotRemoved(Apply(s, es[0]).value, es[1..], id))
  }

  /** Some handler entered the node, and none has finalised it since. */
  ghost predicate EnteredNotFinalised(s: Cluster, es: seq<Event>, id: string)
    decreases |es|
  {
    es != [] && Apply(s, es[0]).Some?
    && ((Enters(s, es[0], id) && !FinalisedIn(Apply(s, es[0]).value, es[1..], id))
        || EnteredNotFinalised(Apply(s, es[0]).value, es[1..], id))
  }

  ghost predicate Listed(s: Cluster, id: string) {
    s.history != [] && id in Current(s)
  }

  ghost predicate ListedOnline(s: Cluster, id: string) {
    Listed(s, id) && Current(s)[id].status == Online
  }

  lemma {:induction false} EntryMoves(s: Cluster, e: Event, s': Cluster, id: string)
    requires s.history != [] && Apply(s, e) == Some(s')
    ensures s'.history != []
    ensures Listed(s', id) <==> Enters(s, e, id) || (Listed(s, id) && !Removes(s, e, id))
    ensures ListedOnline(s', id) <==>
            Enters(s, e, id) || (ListedOnline(s, id) && !Leaves(s, e, id) && !Removes(s, e, id))
  {
    HistoryGrows(s, e, s');
    if OfWorker(e) {
      WorkerEvolves(s, e, s');
    } else if Writes(e) {
      WritingHandler(s, e, s');
    } else {
      QuietHandler(s, e, s', id);
    }
  }

  lemma {:induction false} EntryFollows(s: Cluster, es: seq<Event>, s': Cluster, id: string)
    requires s.history != [] && Run(s, es) == Some(s')
    ensures Listed(s', id) <==> EnteredNotRemoved(s, es, id) || (Listed(s, id) && !RemovedIn(s, es, id))
    ensures ListedOnline(s', id) <==>
            EnteredNotFinalised(s, es, id) || (ListedOnline(s, id) && !FinalisedIn(s, es, id))
    decreases |es|
  {
    if es != [] {
      var s1 := Apply(s, es[0]).value;
      EntryMoves(s, es[0], s1, id);
      EntryFollows(s1, es[1..], s', id);
    }
  }

  /**
   In every run a node is listed if and only if some handler entered it and none has removed it
   since, and listed as Online if and only if none has finalised it since in either way.
   */
  lemma {:induction false} ListedIffEntered(s: Cluster, es: seq<Event>, s': Cluster, id: string)
    requires Initial(s) && Run(s, es) == Some(s')
    ensures Listed(s', id) <==> EnteredNotRemoved(s, es, id)
    ensures ListedOnline(s', id) <==> EnteredNotFinalised(s, es, id)
  {
    EntryFollows(s, es, s', id);
  }

  // ----- how new a node list is -----

  lemma {:induction false} FreshStays(s: Cluster, es: seq<Event>, s': Cluster, c: nat, base: nat)
    requires Inv(s) && Run(s, es) == Some(s') && c in s.conns
    requires base < |s.history| && NoneOlder(s.conns[c].toWorker, base)
    ensures c in s'.conns && NoneOlder(s'.conns[c].toWorker, base)
    decreases |es|
  {
    if es != [] {
      var s1 := Apply(s, es[0]).value;
      InvStep(s, es[0], s1);
      FreshAppended(s, s1, c, base);
      FreshStays(s1, es[1..], s', c, base);
    }
  }

  lemma {:induction false} FreshAppended(s: Cluster, s': Cluster, c: nat, base: nat)
    requires s.history != [] && Evolves(s, s') && c in s.conns
    requires base < |s.history| && NoneOlder(s.conns[c].toWorker, base)
    ensures c in s'.conns && NoneOlder(s'.conns[c].toWorker, base) && base < |s'.history|
  {
    var q, q' := s.conns[c].toWorker, s'.conns[c].toWorker;
    if q' != q && !(q != [] && q' == q[1..]) {
      assert forall i :: 0 <= i < |q| ==> q'[i] == q[i];
    }
  }

  /**
   A node list that comes in on a connection is at least as new as the registry was when that
   connection was made: after a reconnect the first list already makes up for what was missed.
   */
  lemma {:induction false} ListsAreFresh(
      s0: Cluster, es0: seq<Event>, s: Cluster, w: nat, c: nat, s1: Cluster, es: seq<Event>, s2: Cluster, s3: Cluster)
    requires Initial(s0) && Run(s0, es0) == Some(s) && s.history != []
    requires Apply(s, Connect(w, c)) == Some(s1) && Run(s1, es) == Some(s2)
    requires w in s2.workers && s2.workers[w].phase == Looping(c) && c in s2.conns
    requires s2.conns[c].toWorker != [] && s2.conns[c].toWorker[0].NodeList? && Apply(s2, WorkerReceive(w)) == Some(s3)
    ensures w in s3.workers && |s.history| - 1 <= s3.workers[w].version < |s3.history|
    ensures Lists(s3.workers[w].nodeList, s3.history[s3.workers[w].version])
  {
    InitialInv(s0);
    RunKeepsInv(s0, es0, s);
    InvStep(s, Connect(w, c), s1);
    assert s1.conns[c].toWorker == [] && |s1.history| == |s.history|;
    FreshStays(s1, es, s2, c, |s.history| - 1);
    RunKeepsInv(s1, es, s2);
    ReceivedMessage(s2, WorkerReceive(w), s3);
    InvStep(s2, WorkerReceive(w), s3);
    assert WorkerOk(s3, s3.workers[w]);
  }

  // ----- the startup race -----

  lemma {:induction false} Extend(s: Cluster, es: seq<Event>, s1: Cluster, e: Event, s2: Cluster)
    requires Run(s, es) == Some(s1) && Apply(s1, e) == Some(s2)
    ensures Run(s, es + [e]) == Some(s2)
    decreases |es|
  {
    if es == [] {
      assert es + [e] == [e] && [e][1..] == [];
      assert Run(s2, []) == Some(s2);
    } else {
      assert (es + [e])[0] == es[0] && (es + [e])[1..] == es[1..] + [e];
      Extend(Apply(s, es[0]).value, es[1..], s1, e, s2);
    }
  }

  /** One open cluster with a single worker that has not failed yet. */
  ghost function Lone(info: NodeInfo, phase: Phase, history: seq<Nodes>, conns: map<nat, Conn>): Cluster {
    Cluster("", history, conns, map[0 := WorkerNode(info, "", phase, MIN_BACKOFF, 0, Connected, [], 0)])
  }

  lemma {:induction false} LoneConnects(info: NodeInfo, probe: bool, h: seq<Nodes>, conns: map<nat, Conn>, c: nat)
    requires h != [] && c !in conns
    ensures Apply(Lone(info, Connecting(probe), h, conns), Connect(0, c)) ==
            Some(Lone(info, Registering(c, probe), h, conns[c := Conn(AwaitRegister, [Register(info, "")], [])]))
  {
    var node := WorkerNode(info, "", Connecting(probe), MIN_BACKOFF, 0, Connected, [], 0);
    var node' := node.(phase := Registering(c, probe));
    assert map[0 := node][0 := node'] == map[0 := node'];
  }

  lemma {:induction false} LoneHandled(info: NodeInfo, probe: bool, h: seq<Nodes>, conns: map<nat, Conn>, c: nat)
    requires h != [] && c in conns && conns[c] == Conn(AwaitRegister, [Register(info, "")], [])
    ensures Apply(Lone(info, Registering(c, probe), h, conns), HandleRegister(c)) ==
            Some(Lone(info, Registering(c, probe), h, conns[c := Conn(Acked(info), [], [RegisterAck(true)])]))
  {
    var m := Register(info, "");
    assert [m][1..] == [] && [] + [RegisterAck(true)] == [RegisterAck(true)];
    var popped := Conn(AwaitRegister, [], []);
    var acked := Conn(AwaitRegister, [], [RegisterAck(true)]);
    assert conns[c := popped][c := acked][c := acked.(handler := Acked(info))] == conns[c := acked.(handler := Acked(info))];
  }

  lemma {:induction false} LoneEnters(info: NodeInfo, probe: bool, h: seq<Nodes>, conns: map<nat, Conn>, c: nat)
    requires h != [] && c in conns && conns[c] == Conn(Acked(info), [], [RegisterAck(true)])
    ensures Apply(Lone(info, Registering(c, probe), h, conns), EnterRegistry(c)) ==
            Some(Lone(info, Registering(c, probe), h + [WithNode(h[|h| - 1], info)],
                      conns[c := Conn(Serving(info.id, 0), [], [RegisterAck(true)])]))
  {
  }

  lemma {:induction false} LoneAcked(info: NodeInfo, probe: bool, h: seq<Nodes>, conns: map<nat, Conn>, c: nat)
    requires h != [] && c in conns && conns[c] == Conn(Serving(info.id, 0), [], [RegisterAck(true)])
    ensures Apply(Lone(info, Registering(c, probe), h, conns), ReceiveAck(0)) ==
            Some(Lone(info, if probe then Connecting(false) else Looping(c), h,
                      conns[c := Conn(Serving(info.id, 0), [], [])]))
  {
    var node := WorkerNode(info, "", Registering(c, probe), MIN_BACKOFF, 0, Connected, [], 0);
    var node' := node.(phase := if probe then Connecting(false) else Looping(c));
    assert map[0 := node][0 := node'] == map[0 := node'];
    assert [RegisterAck(true)][1..] == [];
  }

  lemma {:induction false} LoneArrives(
      info: NodeInfo, probe: bool, h: seq<Nodes>, conns: map<nat, Conn>, c: nat, s: Cluster, es: seq<Event>)
      returns (es': seq<Event>)
    requires h != [] && c !in conns && Run(s, es) == Some(Lone(info, Connecting(probe), h, conns))
    ensures Run(s, es') == Some(Lone(info, Registering(c, probe), h, conns[c := Conn(Acked(info), [], [RegisterAck(true)])]))
  {
    var c1 := conns[c := Conn(AwaitRegister, [Register(info, "")], [])];
    var c2 := conns[c := Conn(Acked(info), [], [RegisterAck(true)])];
    LoneConnects(info, probe, h, conns, c);
    Extend(s, es, Lone(info, Connecting(probe), h, conns), Connect(0, c), Lone(info, Registering(c, probe), h, c1));
    es' := es + [Connect(0, c)];
    LoneHandled(info, probe, h, c1, c);
    assert c1[c := c2[c]] == c2;
    Extend(s, es', Lone(info, Registering(c, probe), h, c1), HandleRegister(c), Lone(info, Registering(c, probe), h, c2));
    es' := es' + [HandleRegister(c)];
  }

  /** A connection is made, accepted and entered in the registry. */
  lemma {:induction false} LoneJoins(
      info: NodeInfo, probe: bool, h: seq<Nodes>, conns: map<nat, Conn>, c: nat, s: Cluster, es: seq<Event>)
      returns (es': seq<Event>)
    requires h != [] && c !in conns && Run(s, es) == Some(Lone(info, Connecting(probe), h, conns))
    ensures Run(s, es') ==
            Some(Lone(info, if probe then Connecting(false) else Looping(c), h + [WithNode(h[|h| - 1], info)],
                      conns[c := Conn(Serving(info.id, 0), [], [])]))
  {
    es' := LoneArrives(info, probe, h, conns, c, s, es);
    var h1 := h + [WithNode(h[|h| - 1], info)];
    var c2 := conns[c := Conn(Acked(info), [], [RegisterAck(true)])];
    var c3 := conns[c := Conn(Serving(info.id, 0), [], [RegisterAck(true)])];
    LoneEnters(info, probe, h, c2, c);
    assert c2[c := c3[c]] == c3;
    Extend(s, es', Lone(info, Registering(c, probe), h, c2), EnterRegistry(c), Lone(info, Registering(c, probe), h1, c3));
    es' := es' + [EnterRegistry(c)];
    LoneAcked(info, probe, h1, c3, c);
    var c4 := conns[c := Conn(Serving(info.id, 0), [], [])];
    assert c3[c := c4[c]] == c4;
    var phase := if probe then Connecting(false) else Looping(c);
    Extend(s, es', Lone(info, Registering(c, probe), h1, c3), ReceiveAck(0), Lone(info, phase, h1, c4));
    es' := es' + [ReceiveAck(0)];
  }

  lemma {:induction false} LoneDrops(
      info: NodeInfo, phase: Phase, h: seq<Nodes>, conns: map<nat, Conn>, c: nat, s: Cluster, es: seq<Event>)
      returns (es': seq<Event>)
    requires h != [] && c in conns && conns[c] == Conn(Serving(info.id, 0), [], [])
    requires Run(s, es) == Some(Lone(info, phase, h, conns))
    ensures Run(s, es') == Some(Lone(info, phase, h + [WithStatus(h[|h| - 1], info.id, Offline)],
                                     conns[c := Conn(Ended, [], [])]))
  {
    var c1 := conns[c := Conn(Leaving(info.id), [], [])];
    var s1 := Lone(info, phase, h, c1);
    assert Apply(Lone(info, phase, h, conns), HandlerBreaks(c)) == Some(s1);
    Extend(s, es, Lone(info, phase, h, conns), HandlerBreaks(c), s1);
    es' := es + [HandlerBreaks(c)];
    var c2 := conns[c := Conn(Ended, [], [])];
    assert c1[c := c2[c]] == c2;
    var s2 := Lone(info, phase, h + [WithStatus(h[|h| - 1], info.id, Offline)], c2);
    assert Apply(s1, MarkOffline(c)) == Some(s2);
    Extend(s, es', s1, MarkOffline(c), s2);
    es' := es' + [MarkOffline(c)];
  }

  /**
   The ordinary startup of one worker: the probe connection registers and is dropped, the loop
   registers again, and only then does the main node finish with the probe connection. The worker
   is connected and served, yet it is listed as Offline.
   */
  lemma {:induction false} StartupRace(info: NodeInfo) returns (es: seq<Event>, s: Cluster)
    ensures Initial(Lone(info, Connecting(true), [map[]], map[]))
    ensures Run(Lone(info, Connecting(true), [map[]], map[]), es) == Some(s)
    ensures 0 in s.workers && s.workers[0].phase == Looping(1)
    ensures 1 in s.conns && s.conns[1].handler == Serving(info.id, 0)
    ensures s.history != [] && info.id in Current(s) && Current(s)[info.id].status == Offline
  {
    var s0 := Lone(info, Connecting(true), [map[]], map[]);
    assert Run(s0, []) == Some(s0);
    var h0: seq<Nodes> := [map[]];
    var served := Conn(Serving(info.id, 0), [], []);
    es := LoneJoins(info, true, h0, map[], 0, s0, []);
    var h1 := h0 + [WithNode(h0[|h0| - 1], info)];
    es := LoneJoins(info, false, h1, map[][0 := served], 1, s0, es);
    var h2 := h1 + [WithNode(h1[|h1| - 1], info)];
    es := LoneDrops(info, Looping(1), h2, map[][0 := served][1 := served], 0, s0, es);
    s := Run(s0, es).value;
  }

  /** The handle already says Connected when the probe has registered and nothing is connected yet. */
  lemma {:induction false} ConnectedTooEarly(info: NodeInfo) returns (es: seq<Event>, s: Cluster)
    ensures Run(Lone(info, Connecting(true), [map[]], map[]), es) == Some(s)
    ensures 0 in s.workers && s.workers[0].phase == Connecting(false) && s.workers[0].link == Connected
  {
    var s0 := Lone(info, Connecting(true), [map[]], map[]);
    assert Run(s0, []) == Some(s0);
    es := LoneJoins(info, true, [map[]], map[], 0, s0, []);
    s := Run(s0, es).value;
  }
}
