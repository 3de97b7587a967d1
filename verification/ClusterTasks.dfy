/**
 The two kinds of task of the cluster, one step at a time: the main node's handler of a connection
 and a worker's reconnect loop. A step is what a task does between two points at which it waits.
 */
module ClusterTasks {
  import opened Wrappers
  import opened ClusterRegistry

  /** A node list carries the number of the registry state it was copied from. */
  datatype Message =
    | Register(info: NodeInfo, token: string)
    | RegisterAck(success: bool)
    | Deregister
    | ListNodes
    | NodeList(nodes: seq<NodeInfo>, version: nat)
    | Ping
    | Pong

  // ----- the handler of one connection -----

  /** Where a connection's handler on the main node stands. */
  datatype Handler =
    | AwaitRegister
    | Acked(info: NodeInfo)
    | Serving(id: string, missedPongs: nat)
    | Leaving(id: string)
    | Deregistering(id: string)
    | Ended

  /** An empty token on the main node lets everybody in. */
  predicate Authorised(expected: string, token: string) {
    expected == "" || token == expected
  }

  function Admitted(expected: string, first: Message): Handler {
    if first.Register? && Authorised(expected, first.token) then Acked(first.info) else Ended
  }

  function AdmissionReply(expected: string, first: Message): Option<Message> {
    if first.Register? then Some(RegisterAck(Authorised(expected, first.token))) else None
  }

  /** A tick of the ping timer: the third unanswered ping in a row is the last. */
  function Ticked(h: Handler): Handler
    requires h.Serving?
  {
    if h.missedPongs >= 3 then Leaving(h.id) else Serving(h.id, h.missedPongs + 1)
  }

  function Received(h: Handler, m: Message): Handler
    requires h.Serving?
  {
    match m
    case Pong => Serving(h.id, 0)
    case Deregister => Deregistering(h.id)
    case _ => h
  }

  function ReplyTo(m: Message, listing: seq<NodeInfo>, version: nat): Option<Message> {
    match m
    case Ping => Some(Pong)
    case ListNodes => Some(NodeList(listing, version))
    case _ => None
  }

  /** What a handler writes to the registry at its end. */
  function Finalised(h: Handler, nodes: Nodes): Nodes
    requires h.Leaving? || h.Deregistering?
  {
    if h.Leaving? then WithStatus(nodes, h.id, Offline) else WithoutNode(nodes, h.id)
  }

  function Sending(sent: seq<Message>, m: Option<Message>): seq<Message> {
    if m.Some? then sent + [m.value] else sent
  }

  // ----- how long a handler serves -----

  /** What reaches a serving handler: a tick of its ping timer or a frame. */
  datatype Beat = Tick | Frame(m: Message)

  ghost function Heard(h: Handler, b: Beat): Handler {
    if !h.Serving? then h else if b.Tick? then Ticked(h) else Received(h, b.m)
  }

  ghost function HeardAll(h: Handler, bs: seq<Beat>): Handler {
    if bs == [] then h else Heard(HeardAll(h, bs[..|bs| - 1]), bs[|bs| - 1])
  }

  /** How many ticks there were since the last pong. */
  function TicksSincePong(bs: seq<Beat>): nat {
    if bs == [] || bs[|bs| - 1] == Frame(Pong) then 0
    else TicksSincePong(bs[..|bs| - 1]) + if bs[|bs| - 1].Tick? then 1 else 0
  }

  /** Never more than three ticks without a pong, and no deregistration. */
  ghost predicate PongsCome(bs: seq<Beat>) {
    && (forall i :: 0 <= i <= |bs| ==> TicksSincePong(bs[..i]) <= 3)
    && Frame(Deregister) !in bs
  }

  lemma {:induction false} PongsComeNext(bs: seq<Beat>)
    requires bs != []
    ensures PongsCome(bs) <==>
            PongsCome(bs[..|bs| - 1]) && TicksSincePong(bs) <= 3 && bs[|bs| - 1] != Frame(Deregister)
  {
    var before := bs[..|bs| - 1];
    assert bs == before + [bs[|bs| - 1]];
    assert forall i :: 0 <= i <= |before| ==> before[..i] == bs[..i];
    assert bs[..|bs|] == bs;
  }

  /**
   A handler that has just begun to serve goes on serving for as long as its pings are answered: it
   leaves at the fourth tick without a pong and not before, whatever other frames come in between.
   */
  lemma {:induction false} ServesIffPongsCome(id: string, bs: seq<Beat>)
    ensures HeardAll(Serving(id, 0), bs).Serving? <==> PongsCome(bs)
    ensures PongsCome(bs) ==> HeardAll(Serving(id, 0), bs) == Serving(id, TicksSincePong(bs))
  {
    if bs == [] {
      assert bs[..0] == [];
    } else {
      ServesIffPongsCome(id, bs[..|bs| - 1]);
      PongsComeNext(bs);
    }
  }

  class HandlerTask {
    const registry: ConnectedRegistry
    const expectedToken: string
    var state: Handler
    var sent: seq<Message>

    ghost predicate Valid()
      reads registry
    {
      Keyed(registry.nodes)
    }

    constructor (registry: ConnectedRegistry, expectedToken: string)
      ensures this.registry == registry && this.expectedToken == expectedToken
      ensures state == AwaitRegister && sent == []
    {
      this.registry, this.expectedToken := registry, expectedToken;
      state, sent := AwaitRegister, [];
    }

    /** The first frame, or none within five seconds. */
    method HandleRegister(first: Option<Message>)
      requires state.AwaitRegister?
      modifies this`state, this`sent
      ensures state == if first.Some? then Admitted(expectedToken, first.value) else Ended
      ensures sent == Sending(old(sent), if first.Some? then AdmissionReply(expectedToken, first.value) else None)
      ensures first.Some? && first.value.Register? && expectedToken != "" && first.value.token != expectedToken ==>
                state == Ended && sent == old(sent) + [RegisterAck(false)]
      ensures first.Some? && first.value.Register? && (expectedToken == "" || first.value.token == expectedToken) ==>
                state == Acked(first.value.info) && sent == old(sent) + [RegisterAck(true)]
      ensures first.None? || !first.value.Register? ==> state == Ended && sent == old(sent)
    {
      state := Ended;
      if first.None? {
        return;
      }
      match first.value
      case Register(info, token) =>
        if expectedToken != "" && token != expectedToken {
          sent := sent + [RegisterAck(false)];
          return;
        }
        sent := sent + [RegisterAck(true)];
        state := Acked(info);
      case _ =>
    }

    method EnterRegistry()
      requires Valid() && state.Acked?
      modifies this`state, registry
      ensures Valid() && state == Serving(old(state).info.id, 0)
      ensures registry.nodes == WithNode(old(registry.nodes), old(state).info)
    {
      var info := state.info;
      registry.Register(info.id, info.role, info.endpoints, info.metadata);
      state := Serving(info.id, 0);
    }

    method OnTick(sendFails: bool)
      requires state.Serving?
      modifies this`state, this`sent
      ensures state == if sendFails then Leaving(old(state).id) else Ticked(old(state))
      ensures sent == if sendFails || state.Leaving? then old(sent) else old(sent) + [Ping]
    {
      var missedPongs := state.missedPongs;
      if missedPongs >= 3 || sendFails {
        state := Leaving(state.id);
        return;
      }
      sent := sent + [Ping];
      missedPongs := missedPongs + 1;
      state := Serving(state.id, missedPongs);
    }

    /** `version` numbers the registry state the frame finds. */
    method OnFrame(m: Message, version: nat) returns (listing: seq<NodeInfo>)
      requires Valid() && state.Serving?
      modifies this`state, this`sent
      ensures state == Received(old(state), m)
      ensures m.ListNodes? ==> Lists(listing, registry.nodes)
      ensures sent == Sending(old(sent), ReplyTo(m, listing, version))
      ensures m.Ping? ==> sent == old(sent) + [Pong]
      ensures m.ListNodes? ==> sent == old(sent) + [NodeList(listing, version)]
      ensures !m.Ping? && !m.ListNodes? ==> sent == old(sent)
    {
      listing := [];
      match m
      case Pong => state := Serving(state.id, 0);
      case Deregister => state := Deregistering(state.id);
      case Ping => sent := sent + [Pong];
      case ListNodes =>
        listing := registry.ListNodes();
        sent := sent + [NodeList(listing, version)];
      case _ =>
    }

    /** Shutdown, a read error or the end of the stream. */
    method OnBreak()
      requires state.Serving?
      modifies this`state
      ensures state == Leaving(old(state).id)
    {
      state := Leaving(state.id);
    }

    method Finish()
      requires Valid() && (state.Leaving? || state.Deregistering?)
      modifies this`state, registry
      ensures Valid() && state == Ended && registry.nodes == Finalised(old(state), old(registry.nodes))
    {
      if state.Deregistering? {
        registry.Unregister(state.id);
      } else {
        registry.SetStatus(state.id, Offline);
      }
      state := Ended;
    }
  }

  // ----- a worker -----

  /** Where a worker stands: its first, throw-away registration (`probe`), then its reconnect loop. */
  datatype Phase =
    | Connecting(probe: bool)
    | Registering(conn: nat, probe: bool)
    | Looping(conn: nat)
    | Sleeping
    | Stopped

  /** What the worker's handle says about its connection. */
  datatype LinkState = Connected | Disconnected | Reconnecting

  /** `waits` counts the backoff waits since the worker was last registered. */
  datatype WorkerNode = WorkerNode(
    info: NodeInfo, token: string, phase: Phase, backoff: nat, waits: nat, link: LinkState,
    nodeList: seq<NodeInfo>, version: nat)

  const MIN_BACKOFF: nat := 3
  const MAX_BACKOFF: nat := 30

  function Doubled(backoff: nat): nat {
    if 2 * backoff < MAX_BACKOFF then 2 * backoff else MAX_BACKOFF
  }

  function Dialled(node: WorkerNode, conn: nat): WorkerNode
    requires node.phase.Connecting?
  {
    node.(phase := Registering(conn, node.phase.probe))
  }

  /** Connecting or registering failed: the probe gives up, the loop sleeps. */
  function Failed(node: WorkerNode): WorkerNode
    requires node.phase.Connecting? || node.phase.Registering?
  {
    if node.phase.probe then node.(phase := Stopped) else node.(phase := Sleeping, link := Reconnecting)
  }

  function Acknowledged(node: WorkerNode, m: Message): WorkerNode
    requires node.phase.Registering?
  {
    if m != RegisterAck(true) then Failed(node)
    else if node.phase.probe then node.(phase := Connecting(false), link := Connected)
    else node.(phase := Looping(node.phase.conn), link := Connected, backoff := MIN_BACKOFF, waits := 0)
  }

  function Woken(node: WorkerNode): WorkerNode
    requires node.phase.Sleeping?
  {
    node.(phase := Connecting(false), backoff := Doubled(node.backoff), waits := node.waits + 1)
  }

  function Informed(node: WorkerNode, m: Message): WorkerNode {
    if m.NodeList? then node.(nodeList := m.nodes, version := m.version) else node
  }

  function Lost(node: WorkerNode): WorkerNode {
    node.(phase := Connecting(false), link := Reconnecting)
  }

  class WorkerTask {
    const info: NodeInfo
    const token: string
    var phase: Phase
    var backoff: nat
    ghost var waits: nat
    var link: LinkState
    var nodeList: seq<NodeInfo>
    var version: nat

    ghost function Value(): WorkerNode
      reads this
    {
      WorkerNode(info, token, phase, backoff, waits, link, nodeList, version)
    }

    constructor (info: NodeInfo, token: string)
      ensures Value() == WorkerNode(info, token, Connecting(true), MIN_BACKOFF, 0, Connected, [], 0)
    {
      this.info, this.token := info, token;
      phase, backoff, waits, link := Connecting(true), MIN_BACKOFF, 0, Connected;
      nodeList, version := [], 0;
    }

    /** A new connection, on which the registration goes out first; or none. */
    method OnConnect(conn: Option<nat>) returns (out: Option<Message>)
      requires phase.Connecting?
      modifies this
      ensures Value() == if conn.Some? then Dialled(old(Value()), conn.value) else Failed(old(Value()))
      ensures out == if conn.Some? then Some(Register(info, token)) else None
    {
      if conn.None? {
        GiveUp();
        return None;
      }
      phase := Registering(conn.value, phase.probe);
      return Some(Register(info, token));
    }

    method GiveUp()
      requires phase.Connecting? || phase.Registering?
      modifies this
      ensures Value() == Failed(old(Value()))
    {
      if phase.probe {
        phase := Stopped;
        return;
      }
      link := Reconnecting;
      phase := Sleeping;
    }

    /** The answer to the registration, or None after five seconds or at the end of the stream. */
    method OnAck(answer: Option<Message>)
      requires phase.Registering?
      modifies this
      ensures Value() == if answer.Some? then Acknowledged(old(Value()), answer.value) else Failed(old(Value()))
    {
      if answer != Some(RegisterAck(true)) {
        GiveUp();
        return;
      }
      link := Connected;
      if phase.probe {
        // the connection is dropped and the loop spawned
        phase := Connecting(false);
        return;
      }
      backoff, waits := MIN_BACKOFF, 0;
      phase := Looping(phase.conn);
    }

    method OnSleepOver(shutdown: bool)
      requires phase.Sleeping?
      modifies this
      ensures Value() == if shutdown then old(Value()).(phase := Stopped) else Woken(old(Value()))
    {
      if shutdown {
        phase := Stopped;
        return;
      }
      backoff := if backoff * 2 < MAX_BACKOFF then backoff * 2 else MAX_BACKOFF;
      waits := waits + 1;
      phase := Connecting(false);
    }

    method OnMessage(m: Message, sendFails: bool) returns (out: Option<Message>)
      requires phase.Looping?
      modifies this
      ensures Value() == if m.Ping? && sendFails then Lost(old(Value())) else Informed(old(Value()), m)
      ensures out == if m.Ping? && !sendFails then Some(Pong) else None
    {
      out := None;
      match m
      case Ping =>
        if sendFails {
          OnLost();
          return;
        }
        out := Some(Pong);
      case NodeList(nodes, v) =>
        nodeList, version := nodes, v;
      case _ =>
    }

    method OnLost()
      requires phase.Looping?
      modifies this
      ensures Value() == Lost(old(Value()))
    {
      link := Reconnecting;
      phase := Connecting(false);
    }

    /** Shutdown while connected: the node deregisters; the handle goes on saying Connected. */
    method OnShutdown() returns (out: Message)
      requires phase.Looping?
      modifies this
      ensures Value() == old(Value()).(phase := Stopped) && out == Deregister
    {
      phase := Stopped;
      return Deregister;
    }
  }
}
