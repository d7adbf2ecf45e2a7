/**
 * The editor's nodes and edges as the front end stores them. A node's `kind`
 * is its editor type ('input', 'output', an operation name, ...); the
 * operation it performs is `data.processType`, which may be absent.
 */
module Graph {

  import opened JsValues

  datatype NodeData = NodeData(id: string, nodeLabel: JsValue, processType: JsValue, dataType: JsValue)

  datatype Node = Node(id: string, kind: JsValue, data: NodeData)

  /** `targetHandle` is 'secondary' for the second input of a blend node,
      and anything else (usually null) for the primary input. */
  datatype Edge = Edge(source: string, target: string, targetHandle: JsValue)

  predicate IsInput(n: Node) {
    n.kind == Str("input")
  }

  predicate IsOutput(n: Node) {
    n.kind == Str("output")
  }

  /** `edges.filter(edge => edge.target === id)`. */
  function Incoming(edges: seq<Edge>, id: string): (r: seq<Edge>)
    ensures |r| <= |edges|
    ensures forall e :: e in r <==> e in edges && e.target == id
  {
    if edges == [] then []
    else if edges[0].target == id then [edges[0]] + Incoming(edges[1..], id)
    else Incoming(edges[1..], id)
  }

  /** Filtering distributes over concatenation, so the incoming edges keep
      the edge-array order, with repeats. */
  lemma {:induction false} IncomingAppend(a: seq<Edge>, b: seq<Edge>, id: string)
    ensures Incoming(a + b, id) == Incoming(a, id) + Incoming(b, id)
  {
    if a == [] {
      assert a + b == b;
    } else {
      assert (a + b)[0] == a[0] && (a + b)[1..] == a[1..] + b;
      IncomingAppend(a[1..], b, id);
    }
  }

  /** An edge into the node sits in the incoming list at the position given
      by the number of incoming edges before it. */
  lemma IncomingOrder(edges: seq<Edge>, id: string, i: nat)
    requires i < |edges| && edges[i].target == id
    ensures var r, k := Incoming(edges, id), |Incoming(edges[..i], id)|;
      k < |r| && r[k] == edges[i]
  {
    assert edges == edges[..i] + [edges[i]] + edges[i + 1..];
    IncomingAppend(edges[..i] + [edges[i]], edges[i + 1..], id);
    IncomingAppend(edges[..i], [edges[i]], id);
    assert Incoming([edges[i]], id) == [edges[i]];
  }

  /** A list with no edge into the node contributes no incoming edge. */
  lemma {:induction false} IncomingNone(edges: seq<Edge>, id: string)
    requires forall k :: 0 <= k < |edges| ==> edges[k].target != id
    ensures Incoming(edges, id) == []
  {
    if edges != [] {
      assert forall k :: 0 <= k < |edges[1..]| ==> edges[1..][k] == edges[k + 1];
      IncomingNone(edges[1..], id);
    }
  }

  /** The first and second incoming edges are the edges into the node with
      the least and the next-least index. */
  lemma IncomingFirstTwo(edges: seq<Edge>, id: string, i: nat, j: nat)
    requires i < j < |edges| && edges[i].target == id && edges[j].target == id
    requires forall k :: 0 <= k < j && k != i ==> edges[k].target != id
    ensures var r := Incoming(edges, id); |r| >= 2 && r[0] == edges[i] && r[1] == edges[j]
  {
    IncomingNone(edges[..i], id);
    IncomingNone(edges[i + 1..j], id);
    assert edges[..j] == edges[..i] + [edges[i]] + edges[i + 1..j];
    IncomingAppend(edges[..i] + [edges[i]], edges[i + 1..j], id);
    IncomingAppend(edges[..i], [edges[i]], id);
    assert Incoming([edges[i]], id) == [edges[i]];
    IncomingOrder(edges, id, i);
    IncomingOrder(edges, id, j);
  }

  /** The ids of all nodes of a node list. */
  function NodeIds(nodes: seq<Node>): set<string> {
    set i | 0 <= i < |nodes| :: nodes[i].id
  }

  /** The ids of the input nodes of a node list. */
  function InputIds(nodes: seq<Node>): set<string> {
    set i | 0 <= i < |nodes| && IsInput(nodes[i]) :: nodes[i].id
  }

  lemma InputIdsStep(nodes: seq<Node>, i: nat)
    requires i < |nodes|
    ensures InputIds(nodes[..i + 1]) ==
            InputIds(nodes[..i]) + (if IsInput(nodes[i]) then {nodes[i].id} else {})
  {
    var p := nodes[..i + 1];
    forall x | x in InputIds(p)
      ensures x in InputIds(nodes[..i]) + (if IsInput(nodes[i]) then {nodes[i].id} else {})
    {
      var j :| 0 <= j < |p| && IsInput(p[j]) && p[j].id == x;
      if j < i {
        assert nodes[..i][j] == p[j];
      }
    }
    forall x | x in InputIds(nodes[..i]) ensures x in InputIds(p) {
      var j :| 0 <= j < i && IsInput(nodes[..i][j]) && nodes[..i][j].id == x;
      assert p[j] == nodes[..i][j];
    }
  }
}
