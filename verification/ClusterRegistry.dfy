/** The main node's registry of connected nodes. */
module ClusterRegistry {
  import opened Wrappers

  datatype NodeRole = Main | Worker

  datatype NodeStatus = Online | Offline | Draining

  datatype Endpoint = Endpoint(protocol: string, address: string)

  datatype NodeInfo = NodeInfo(
    id: string, role: NodeRole, endpoints: seq<Endpoint>, metadata: map<string, string>, status: NodeStatus)

  type Nodes = map<string, NodeInfo>

  function WithNode(nodes: Nodes, info: NodeInfo): Nodes {
    nodes[info.id := info.(status := Online)]
  }

  function WithoutNode(nodes: Nodes, id: string): Nodes {
    nodes - {id}
  }

  function WithStatus(nodes: Nodes, id: string, status: NodeStatus): Nodes {
    if id in nodes then nodes[id := nodes[id].(status := status)] else nodes
  }

  /** Every entry is stored under its own id. */
  ghost predicate Keyed(nodes: Nodes) {
    forall id :: id in nodes ==> nodes[id].id == id
  }

  /** `list` holds exactly the registry's entries, each once, in some order. */
  ghost predicate Lists(list: seq<NodeInfo>, nodes: Nodes) {
    && |list| == |nodes|
    && (forall i :: 0 <= i < |list| ==> list[i].id in nodes && nodes[list[i].id] == list[i])
    && (forall id :: id in nodes ==> nodes[id] in list)
  }

  class ConnectedRegistry {
    var nodes: Nodes

    constructor ()
      ensures nodes == map[]
    {
      nodes := map[];
    }

    method Register(id: string, role: NodeRole, endpoints: seq<Endpoint>, metadata: map<string, string>)
      requires Keyed(nodes)
      modifies this
      ensures Keyed(nodes)
      ensures nodes == WithNode(old(nodes), NodeInfo(id, role, endpoints, metadata, Online))
    {
      var node := NodeInfo(id, role, endpoints, metadata, Online);
      nodes := nodes[id := node];
    }

    method Unregister(id: string)
      requires Keyed(nodes)
      modifies this
      ensures Keyed(nodes)
      ensures nodes == WithoutNode(old(nodes), id)
    {
      nodes := nodes - {id};
    }

    method SetStatus(id: string, status: NodeStatus)
      requires Keyed(nodes)
      modifies this
      ensures Keyed(nodes)
      ensures nodes == WithStatus(old(nodes), id, status)
    {
      if id in nodes {
        nodes := nodes[id := nodes[id].(status := status)];
      }
    }

    method GetNode(id: string) returns (node: Option<NodeInfo>)
      requires Keyed(nodes)
      ensures node.Some? <==> id in nodes
      ensures node.Some? ==> node.value == nodes[id] && node.value.id == id
    {
      node := if id in nodes then Some(nodes[id]) else None;
    }

    /** Copies the entries out one by one; the order is the map's and not fixed. */
    method ListNodes() returns (list: seq<NodeInfo>)
      requires Keyed(nodes)
      ensures Lists(list, nodes)
    {
      list := [];
      var rest := nodes.Keys;
      while rest != {}
        invariant rest <= nodes.Keys
        invariant |list| + |rest| == |nodes|
        invariant forall i :: 0 <= i < |list| ==> list[i].id in nodes && nodes[list[i].id] == list[i]
        invariant forall id :: id in nodes && id !in rest ==> nodes[id] in list
        decreases |rest|
      {
        var id :| id in rest;
        list := list + [nodes[id]];
        rest := rest - {id};
      }
      assert |nodes.Keys| == |nodes|;
    }
  }
}
