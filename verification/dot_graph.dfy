/** The Graphviz rendering of a list of operations (`operations_to_dot_graph`):
    one box per operation, in order, then one edge from the producer of every
    consumed tensor to its consumer. `idText` is the display of a tensor id,
    which is not part of this model. */
module DotGraph {
  import opened Ir
  import opened Text
  import opened Names
  import opened Dataflow

  const DotHeader := "digraph OperationGraph {\n" + "  rankdir=TB;\n" + "  node [shape=box];\n\n"
  const DotFooter := "}\n"

  /** An edge of the graph: producer, consumer, and the tensor passed between them. */
  datatype Edge = Edge(producer: nat, consumer: nat, tensor: TensorId)

  /** The box label of an operation: its rendering with every double quote turned
      into a single quote, so that it cannot end the label early. */
  function NodeLabel(op: OperationIr, idText: TensorId -> string): (r: string)
    ensures |r| == |OperationToString(op, idText)|
    ensures '"' !in r
    ensures forall k :: 0 <= k < |r| && OperationToString(op, idText)[k] != '"' ==> r[k] == OperationToString(op, idText)[k]
    ensures forall k :: 0 <= k < |r| && OperationToString(op, idText)[k] == '"' ==> r[k] == '\''
  {
    ReplaceChar(OperationToString(op, idText), '"', '\'')
  }

  function NodeLine(ops: seq<OperationIr>, i: nat, idText: TensorId -> string): string
    requires i < |ops|
  {
    "  op" + NatText(i) + " [label=\"Op[" + NatText(i) + "]\\n" + NodeLabel(ops[i], idText) + "\"];\n"
  }

  /** Every operation gets a box of its own: the node name `op<i>` that opens a
      box line tells the operations apart. */
  lemma NodeLinesDistinct(ops: seq<OperationIr>, i: nat, j: nat, idText: TensorId -> string)
    requires i < |ops| && j < |ops|
    ensures NodeLine(ops, i, idText) == NodeLine(ops, j, idText) <==> i == j
  {
    if NodeLine(ops, i, idText) == NodeLine(ops, j, idText) {
      var ri := " [label=\"Op[" + NatText(i) + "]\\n" + NodeLabel(ops[i], idText) + "\"];\n";
      var rj := " [label=\"Op[" + NatText(j) + "]\\n" + NodeLabel(ops[j], idText) + "\"];\n";
      assert NodeLine(ops, i, idText) == "  op" + NatText(i) + ri by {
        AppendAssoc5("  op" + NatText(i), " [label=\"Op[", NatText(i), "]\\n", NodeLabel(ops[i], idText), "\"];\n");
      }
      assert NodeLine(ops, j, idText) == "  op" + NatText(j) + rj by {
        AppendAssoc5("  op" + NatText(j), " [label=\"Op[", NatText(j), "]\\n", NodeLabel(ops[j], idText), "\"];\n");
      }
      assert ri[0] == ' ' && rj[0] == ' ';
      DigitsTokenUnique("  op", NatText(i), ri, NatText(j), rj);
      NatTextInjective(i, j);
    }
  }

  /** The box lines of the first `n` operations. */
  function NodeLines(ops: seq<OperationIr>, n: nat, idText: TensorId -> string): string
    requires n <= |ops|
  {
    if n == 0 then "" else NodeLines(ops, n - 1, idText) + NodeLine(ops, n - 1, idText)
  }

  /** The edges into operation `i` from the consumed nodes among `nodes`, in node order. */
  function OpEdges(nodes: seq<TensorIr>, i: nat, producers: map<TensorId, nat>): seq<Edge>
  {
    if nodes == [] then []
    else
      var n := nodes[|nodes| - 1];
      OpEdges(nodes[..|nodes| - 1], i, producers)
      + if IsRead(n) && n.id in producers then [Edge(producers[n.id], i, n.id)] else []
  }

  /** The edges into the first `n` operations, operation by operation. */
  function EdgesUpTo(ops: seq<OperationIr>, n: nat, producers: map<TensorId, nat>): seq<Edge>
    requires n <= |ops|
  {
    if n == 0 then [] else EdgesUpTo(ops, n - 1, producers) + OpEdges(Nodes(ops[n - 1]), n - 1, producers)
  }

  /** Every edge of the graph, in the order the renderer emits them. */
  function EdgeList(ops: seq<OperationIr>): seq<Edge>
  {
    EdgesUpTo(ops, |ops|, ProducerMap(ops))
  }

  function EdgeLine(e: Edge, idText: TensorId -> string): string
  {
    "  op" + NatText(e.producer) + " -> op" + NatText(e.consumer) + " [label=\"" + idText(e.tensor) + "\"];\n"
  }

  function EdgeLines(edges: seq<Edge>, idText: TensorId -> string): string
  {
    if edges == [] then "" else EdgeLines(edges[..|edges| - 1], idText) + EdgeLine(edges[|edges| - 1], idText)
  }

  /** The whole Graphviz text. */
  function DotGraph(ops: seq<OperationIr>, idText: TensorId -> string): string
  {
    DotHeader + NodeLines(ops, |ops|, idText) + EdgeLines(EdgeList(ops), idText) + DotFooter
  }

  lemma {:induction false} OpEdgesMembers(nodes: seq<TensorIr>, i: nat, producers: map<TensorId, nat>, e: Edge)
    ensures e in OpEdges(nodes, i, producers) <==>
      && e.consumer == i
      && (TensorIr(e.tensor, ReadOnly) in nodes || TensorIr(e.tensor, ReadWrite) in nodes)
      && e.tensor in producers && producers[e.tensor] == e.producer
  {
    if nodes != [] {
      var init := nodes[..|nodes| - 1];
      OpEdgesMembers(init, i, producers, e);
      assert nodes == init + [nodes[|nodes| - 1]];
    }
  }

  lemma OpEdgesOfOperation(op: OperationIr, i: nat, producers: map<TensorId, nat>, e: Edge)
    ensures e in OpEdges(Nodes(op), i, producers) <==>
      e.consumer == i && Consumes(op, e.tensor) && e.tensor in producers && producers[e.tensor] == e.producer
  {
    OpEdgesMembers(Nodes(op), i, producers, e);
  }

  /** Every edge into operation `i` names `i` as its consumer. */
  lemma OpEdgesConsumer(nodes: seq<TensorIr>, i: nat, producers: map<TensorId, nat>, e: Edge)
    ensures e in OpEdges(nodes, i, producers) ==> e.consumer == i
  {
    OpEdgesMembers(nodes, i, producers, e);
  }

  lemma EdgesUpToStepMember(ops: seq<OperationIr>, i: nat, producers: map<TensorId, nat>, e: Edge)
    requires i < |ops|
    ensures e in EdgesUpTo(ops, i + 1, producers)
        <==> e in EdgesUpTo(ops, i, producers) || e in OpEdges(Nodes(ops[i]), i, producers)
  {
  }

  /** An edge is among those into the first `n` operations exactly when it is among
      the edges its own consumer contributes. */
  lemma {:induction false} EdgesUpToMembers(ops: seq<OperationIr>, n: nat, producers: map<TensorId, nat>, e: Edge)
    requires n <= |ops|
    ensures e in EdgesUpTo(ops, n, producers) <==>
      e.consumer < n && e in OpEdges(Nodes(ops[e.consumer]), e.consumer, producers)
  {
    if n > 0 {
      var k := n - 1;
      EdgesUpToStepMember(ops, k, producers, e);
      EdgesUpToMembers(ops, k, producers, e);
      OpEdgesConsumer(Nodes(ops[k]), k, producers, e);
    }
  }

  /** There is an edge from `p` to `i` labelled with tensor `id` exactly when
      operation `i` consumes `id` and `p` is the last operation producing it; there
      are no other edges. */
  lemma EdgeListMeaning(ops: seq<OperationIr>, e: Edge)
    ensures e in EdgeList(ops) <==>
      && e.consumer < |ops| && Consumes(ops[e.consumer], e.tensor)
      && LastProducer(ops, e.producer, e.tensor)
  {
    EdgesUpToMembers(ops, |ops|, ProducerMap(ops), e);
    if e.consumer < |ops| {
      OpEdgesOfOperation(ops[e.consumer], e.consumer, ProducerMap(ops), e);
    }
    ProducerMapIsLast(ops, e.tensor);
    if LastProducer(ops, e.producer, e.tensor) {
      LastProducerUnique(ops, ProducerMap(ops)[e.tensor], e.producer, e.tensor);
    }
  }

  /** Edges come grouped by consumer, in operation order. */
  lemma {:induction false} EdgesUpToOrdered(ops: seq<OperationIr>, n: nat, producers: map<TensorId, nat>)
    requires n <= |ops|
    ensures forall a, b :: 0 <= a < b < |EdgesUpTo(ops, n, producers)| ==>
      EdgesUpTo(ops, n, producers)[a].consumer <= EdgesUpTo(ops, n, producers)[b].consumer
    ensures forall a :: 0 <= a < |EdgesUpTo(ops, n, producers)| ==> EdgesUpTo(ops, n, producers)[a].consumer < n
  {
    if n > 0 {
      EdgesUpToOrdered(ops, n - 1, producers);
      var prev, last := EdgesUpTo(ops, n - 1, producers), OpEdges(Nodes(ops[n - 1]), n - 1, producers);
      forall a | 0 <= a < |last| ensures last[a].consumer == n - 1 {
        OpEdgesMembers(Nodes(ops[n - 1]), n - 1, producers, last[a]);
      }
    }
  }

  /** The lines of two runs of edges are the lines of the first run, then those of the second. */
  lemma {:induction false} EdgeLinesConcat(a: seq<Edge>, b: seq<Edge>, idText: TensorId -> string)
    ensures EdgeLines(a + b, idText) == EdgeLines(a, idText) + EdgeLines(b, idText)
  {
    if b == [] {
      assert a + b == a;
    } else {
      var init, e := b[..|b| - 1], b[|b| - 1];
      assert (a + b)[..|a + b| - 1] == a + init;
      EdgeLinesConcat(a, init, idText);
      Assoc(EdgeLines(a, idText), EdgeLines(init, idText), EdgeLine(e, idText));
    }
  }

  lemma OpEdgeLinesStep(nodes: seq<TensorIr>, k: nat, i: nat, producers: map<TensorId, nat>, idText: TensorId -> string)
    requires k < |nodes|
    ensures IsRead(nodes[k]) && nodes[k].id in producers ==>
      EdgeLines(OpEdges(nodes[..k + 1], i, producers), idText)
      == EdgeLines(OpEdges(nodes[..k], i, producers), idText)
         + EdgeLine(Edge(producers[nodes[k].id], i, nodes[k].id), idText)
    ensures !(IsRead(nodes[k]) && nodes[k].id in producers) ==>
      OpEdges(nodes[..k + 1], i, producers) == OpEdges(nodes[..k], i, producers)
  {
    assert nodes[..k + 1][..k] == nodes[..k];
    var before := OpEdges(nodes[..k], i, producers);
    if IsRead(nodes[k]) && nodes[k].id in producers {
      var e := Edge(producers[nodes[k].id], i, nodes[k].id);
      assert (before + [e])[..|before|] == before;
    }
  }

  /** The edge pass for operation `i`: one line per consumed node with a producer. */
  method PushOpEdges(dot0: string, nodes: seq<TensorIr>, i: nat, producers: map<TensorId, nat>, idText: TensorId -> string)
    returns (dot: string)
    ensures dot == dot0 + EdgeLines(OpEdges(nodes, i, producers), idText)
  {
    dot := dot0;
    for k := 0 to |nodes|
      invariant dot == dot0 + EdgeLines(OpEdges(nodes[..k], i, producers), idText)
    {
      var node := nodes[k];
      OpEdgeLinesStep(nodes, k, i, producers, idText);
      if (node.status == ReadOnly || node.status == ReadWrite) && node.id in producers {
        Assoc(dot0, EdgeLines(OpEdges(nodes[..k], i, producers), idText),
              EdgeLine(Edge(producers[node.id], i, node.id), idText));
        dot := dot + ("  op" + NatText(producers[node.id]) + " -> op" + NatText(i) + " [label=\"" + idText(node.id) + "\"];\n");
      }
    }
    assert nodes[..|nodes|] == nodes;
  }

  lemma NoEdgesYet(dot0: string, ops: seq<OperationIr>, producers: map<TensorId, nat>, idText: TensorId -> string)
    ensures dot0 + EdgeLines(EdgesUpTo(ops, 0, producers), idText) == dot0
  {
    assert EdgesUpTo(ops, 0, producers) == [];
    assert dot0 + "" == dot0;
  }

  /** Pushes the box line of every operation, in order. */
  method PushNodeLines(dot0: string, ops: seq<OperationIr>, idText: TensorId -> string) returns (dot: string)
    ensures dot == dot0 + NodeLines(ops, |ops|, idText)
  {
    dot := dot0;
    for i := 0 to |ops|
      invariant dot == dot0 + NodeLines(ops, i, idText)
    {
      var boxLabel := ReplaceChar(OperationToString(ops[i], idText), '"', '\'');
      Assoc(dot0, NodeLines(ops, i, idText), NodeLine(ops, i, idText));
      dot := dot + ("  op" + NatText(i) + " [label=\"Op[" + NatText(i) + "]\\n" + boxLabel + "\"];\n");
    }
  }

  lemma EdgeLinesStep(ops: seq<OperationIr>, i: nat, producers: map<TensorId, nat>, idText: TensorId -> string)
    requires i < |ops|
    ensures EdgeLines(EdgesUpTo(ops, i + 1, producers), idText)
         == EdgeLines(EdgesUpTo(ops, i, producers), idText) + EdgeLines(OpEdges(Nodes(ops[i]), i, producers), idText)
  {
    EdgeLinesConcat(EdgesUpTo(ops, i, producers), OpEdges(Nodes(ops[i]), i, producers), idText);
  }

  /** After the edges of operation `i`, the text holds the edges into the first `i + 1` operations. */
  lemma EdgesPushed(dot0: string, dot: string, ops: seq<OperationIr>, i: nat, producers: map<TensorId, nat>,
                    idText: TensorId -> string)
    requires i < |ops|
    requires dot == dot0 + EdgeLines(EdgesUpTo(ops, i, producers), idText)
    ensures dot + EdgeLines(OpEdges(Nodes(ops[i]), i, producers), idText)
         == dot0 + EdgeLines(EdgesUpTo(ops, i + 1, producers), idText)
  {
    EdgeLinesStep(ops, i, producers, idText);
    Assoc(dot0, EdgeLines(EdgesUpTo(ops, i, producers), idText), EdgeLines(OpEdges(Nodes(ops[i]), i, producers), idText));
  }

  /** The edge pass: for every operation in order, its incoming edges. */
  method PushEdges(dot0: string, ops: seq<OperationIr>, producers: map<TensorId, nat>, idText: TensorId -> string)
    returns (dot: string)
    ensures dot == dot0 + EdgeLines(EdgesUpTo(ops, |ops|, producers), idText)
  {
    dot := dot0;
    NoEdgesYet(dot0, ops, producers, idText);
    for i := 0 to |ops|
      invariant dot == dot0 + EdgeLines(EdgesUpTo(ops, i, producers), idText)
    {
      ghost var before := dot;
      dot := PushOpEdges(dot, Nodes(ops[i]), i, producers, idText);
      EdgesPushed(dot0, before, ops, i, producers, idText);
    }
  }

  /** `operations_to_dot_graph`: the header, the boxes, the producer pass, the edges
      and the closing brace. */
  method OperationsToDotGraph(ops: seq<OperationIr>, idText: TensorId -> string) returns (dot: string)
    ensures dot == DotGraph(ops, idText)
  {
    dot := "";
    dot := dot + "digraph OperationGraph {\n";
    dot := dot + "  rankdir=TB;\n";
    dot := dot + "  node [shape=box];\n\n";
    assert dot == DotHeader;
    dot := PushNodeLines(dot, ops, idText);
    var producers := CollectProducers(ops);
    dot := PushEdges(dot, ops, producers, idText);
    dot := dot + "}\n";
  }
}
