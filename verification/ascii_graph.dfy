/** The text rendering of a list of operations before optimization
    (`operations_to_ascii_graph`): one section per operation, listing where each
    input comes from and what it outputs, then the Dependency Flow lines.
    `idText` is the display of a tensor id, which is not part of this model. */
module AsciiGraph {
  import opened Ir
  import opened Text
  import opened Names
  import opened Dataflow

  const Header := "Pre-optimized Operation Graph:\n" + "============================\n\n"
  const NoOperations := "No operations found.\n"
  const FlowHeader := "Dependency Flow:\n" + "================\n"

  /** How an input is labelled: by the operation that produced it, or as external. */
  function InputLabel(n: TensorIr, producers: map<TensorId, nat>, idText: TensorId -> string): string
  {
    if n.id in producers then idText(n.id) + "(from Op[" + NatText(producers[n.id]) + "]) "
    else idText(n.id) + "(external) "
  }

  /** The labels of `inputs`, in order. */
  function InputLabels(inputs: seq<TensorIr>, producers: map<TensorId, nat>, idText: TensorId -> string): string
  {
    if inputs == [] then ""
    else InputLabels(inputs[..|inputs| - 1], producers, idText) + InputLabel(inputs[|inputs| - 1], producers, idText)
  }

  /** The ids of `outputs`, each followed by a space. */
  function OutputLabels(outputs: seq<TensorIr>, idText: TensorId -> string): string
  {
    if outputs == [] then ""
    else OutputLabels(outputs[..|outputs| - 1], idText) + idText(outputs[|outputs| - 1].id) + " "
  }

  /** The `Inputs:` line of an operation, absent when it consumes nothing. */
  function InputsLine(nodes: seq<TensorIr>, producers: map<TensorId, nat>, idText: TensorId -> string): string
  {
    var inputs := ReadNodes(nodes);
    if inputs == [] then "" else "  Inputs:  " + InputLabels(inputs, producers, idText) + "\n"
  }

  /** The `Outputs:` line of an operation, absent when it produces nothing. */
  function OutputsLine(nodes: seq<TensorIr>, idText: TensorId -> string): string
  {
    var outputs := WriteNodes(nodes);
    if outputs == [] then "" else "  Outputs: " + OutputLabels(outputs, idText) + "\n"
  }

  function OpTitle(ops: seq<OperationIr>, i: nat, idText: TensorId -> string): string
    requires i < |ops|
  {
    "Op[" + NatText(i) + "]: " + OperationToString(ops[i], idText) + "\n"
  }

  /** Different operations get different titles: the index in `Op[<i>]` tells
      them apart. */
  lemma OpTitlesDistinct(ops: seq<OperationIr>, i: nat, j: nat, idText: TensorId -> string)
    requires i < |ops| && j < |ops|
    ensures OpTitle(ops, i, idText) == OpTitle(ops, j, idText) <==> i == j
  {
    if OpTitle(ops, i, idText) == OpTitle(ops, j, idText) {
      var ri := "]: " + OperationToString(ops[i], idText) + "\n";
      var rj := "]: " + OperationToString(ops[j], idText) + "\n";
      assert OpTitle(ops, i, idText) == "Op[" + NatText(i) + ri by {
        AppendAssoc("Op[" + NatText(i), "]: ", OperationToString(ops[i], idText), "\n");
      }
      assert OpTitle(ops, j, idText) == "Op[" + NatText(j) + rj by {
        AppendAssoc("Op[" + NatText(j), "]: ", OperationToString(ops[j], idText), "\n");
      }
      assert ri[0] == ']' && rj[0] == ']';
      DigitsTokenUnique("Op[", NatText(i), ri, NatText(j), rj);
      NatTextInjective(i, j);
    }
  }

  /** The section of operation `i`: its title, its inputs and outputs, and a blank line. */
  function OpSection(ops: seq<OperationIr>, i: nat, producers: map<TensorId, nat>, idText: TensorId -> string): string
    requires i < |ops|
  {
    OpTitle(ops, i, idText) + InputsLine(Nodes(ops[i]), producers, idText) + OutputsLine(Nodes(ops[i]), idText) + "\n"
  }

  /** The sections of the first `n` operations. */
  function OpSections(ops: seq<OperationIr>, n: nat, producers: map<TensorId, nat>, idText: TensorId -> string): string
    requires n <= |ops|
  {
    if n == 0 then "" else OpSections(ops, n - 1, producers, idText) + OpSection(ops, n - 1, producers, idText)
  }

  lemma OpSectionStartsWithTitle(ops: seq<OperationIr>, i: nat, producers: map<TensorId, nat>, idText: TensorId -> string)
    requires i < |ops|
    ensures OpTitle(ops, i, idText) <= OpSection(ops, i, producers, idText)
  {
    var title := OpTitle(ops, i, idText);
    var ins, outs := InputsLine(Nodes(ops[i]), producers, idText), OutputsLine(Nodes(ops[i]), idText);
    PrefixExtends(title, title, ins);
    PrefixExtends(title, title + ins, outs);
    PrefixExtends(title, title + ins + outs, "\n");
  }

  /** Any non-empty run of sections starts with the title of operation 0. */
  lemma {:induction false} OpSectionsStartWithFirst(ops: seq<OperationIr>, n: nat, producers: map<TensorId, nat>,
                                                    idText: TensorId -> string)
    requires 0 < n <= |ops|
    ensures OpTitle(ops, 0, idText) <= OpSections(ops, n, producers, idText)
  {
    if n == 1 {
      OpSectionStartsWithTitle(ops, 0, producers, idText);
      assert OpSections(ops, 1, producers, idText) == "" + OpSection(ops, 0, producers, idText);
      assert "" + OpSection(ops, 0, producers, idText) == OpSection(ops, 0, producers, idText);
    } else {
      OpSectionsStartWithFirst(ops, n - 1, producers, idText);
      PrefixExtends(OpTitle(ops, 0, idText), OpSections(ops, n - 1, producers, idText), OpSection(ops, n - 1, producers, idText));
    }
  }

  /** The Dependency Flow line of operation `i`. */
  function FlowLine(ops: seq<OperationIr>, i: nat): (r: string)
    requires i < |ops|
    ensures r == "" <==> DependencySet(ops, i) == {}
  {
    if DependencySet(ops, i) == {} then ""
    else "Op[" + NatText(i) + "] depends on: " + DebugList(SortedDependencies(ops, i)) + "\n"
  }

  /** The Dependency Flow lines of the first `n` operations. */
  function FlowLines(ops: seq<OperationIr>, n: nat): string
    requires n <= |ops|
  {
    if n == 0 then "" else FlowLines(ops, n - 1) + FlowLine(ops, n - 1)
  }

  /** The whole rendering of a list of operations. */
  function AsciiGraph(ops: seq<OperationIr>, idText: TensorId -> string): string
  {
    Header + if ops == [] then NoOperations
             else OpSections(ops, |ops|, ProducerMap(ops), idText) + FlowHeader + FlowLines(ops, |ops|)
  }

  /** An input is labelled with the last operation producing it, and as external
      exactly when no operation of the list produces it. */
  lemma InputLabelMeaning(ops: seq<OperationIr>, n: TensorIr, idText: TensorId -> string)
    ensures forall p: nat :: LastProducer(ops, p, n.id) ==>
      InputLabel(n, ProducerMap(ops), idText) == idText(n.id) + "(from Op[" + NatText(p) + "]) "
    ensures (forall p :: 0 <= p < |ops| ==> !Produces(ops[p], n.id)) ==>
      InputLabel(n, ProducerMap(ops), idText) == idText(n.id) + "(external) "
  {
    ProducerMapIsLast(ops, n.id);
    forall p: nat | LastProducer(ops, p, n.id)
      ensures InputLabel(n, ProducerMap(ops), idText) == idText(n.id) + "(from Op[" + NatText(p) + "]) "
    {
      LastProducerUnique(ops, ProducerMap(ops)[n.id], p, n.id);
    }
  }

  /** The Dependency Flow line of operation `i` is absent when no operation produces
      a tensor `i` consumes; otherwise it lists, in increasing order and once each,
      exactly the operations that last produced a tensor `i` consumes. */
  lemma FlowLineMeaning(ops: seq<OperationIr>, i: nat)
    requires i < |ops|
    ensures FlowLine(ops, i) == "" <==>
      forall id, p: nat :: Consumes(ops[i], id) && p < |ops| ==> !Produces(ops[p], id)
    ensures FlowLine(ops, i) != "" ==>
      var deps := SortedDependencies(ops, i);
      && FlowLine(ops, i) == "Op[" + NatText(i) + "] depends on: " + DebugList(deps) + "\n"
      && StrictlyIncreasing(deps)
      && forall p: nat :: p in deps <==> exists id :: Consumes(ops[i], id) && LastProducer(ops, p, id)
  {
    DependencySetEmpty(ops, i);
    ProducerMapBounded(ops);
    forall p: nat ensures p in DependencySet(ops, i) <==> exists id :: Consumes(ops[i], id) && LastProducer(ops, p, id) {
      DependencySetMeaning(ops, i, p);
    }
  }

  lemma InputLabelsStep(inputs: seq<TensorIr>, k: nat, producers: map<TensorId, nat>, idText: TensorId -> string)
    requires k < |inputs|
    ensures InputLabels(inputs[..k + 1], producers, idText)
         == InputLabels(inputs[..k], producers, idText) + InputLabel(inputs[k], producers, idText)
  {
    assert inputs[..k + 1][..k] == inputs[..k];
  }

  lemma OutputLabelsStep(outputs: seq<TensorIr>, k: nat, idText: TensorId -> string)
    requires k < |outputs|
    ensures OutputLabels(outputs[..k + 1], idText) == OutputLabels(outputs[..k], idText) + (idText(outputs[k].id) + " ")
  {
    assert outputs[..k + 1][..k] == outputs[..k];
    Assoc(OutputLabels(outputs[..k], idText), idText(outputs[k].id), " ");
  }

  /** Pushes the `Inputs:` line of an operation whose nodes are `nodes`. */
  method PushInputs(graph0: string, nodes: seq<TensorIr>, producers: map<TensorId, nat>, idText: TensorId -> string)
    returns (graph: string)
    ensures graph == graph0 + InputsLine(nodes, producers, idText)
  {
    graph := graph0;
    var inputs := ReadNodes(nodes);
    if inputs != [] {
      graph := graph + "  Inputs:  ";
      ghost var start := graph;
      for k := 0 to |inputs|
        invariant graph == start + InputLabels(inputs[..k], producers, idText)
      {
        var input := inputs[k];
        InputLabelsStep(inputs, k, producers, idText);
        Assoc(start, InputLabels(inputs[..k], producers, idText), InputLabel(input, producers, idText));
        if input.id in producers {
          graph := graph + (idText(input.id) + "(from Op[" + NatText(producers[input.id]) + "]) ");
        } else {
          graph := graph + (idText(input.id) + "(external) ");
        }
      }
      assert inputs[..|inputs|] == inputs;
      graph := graph + "\n";
      AppendAssoc(graph0, "  Inputs:  ", InputLabels(inputs, producers, idText), "\n");
    }
  }

  /** Pushes the `Outputs:` line of an operation whose nodes are `nodes`. */
  method PushOutputs(graph0: string, nodes: seq<TensorIr>, idText: TensorId -> string)
    returns (graph: string)
    ensures graph == graph0 + OutputsLine(nodes, idText)
  {
    graph := graph0;
    var outputs := WriteNodes(nodes);
    if outputs != [] {
      graph := graph + "  Outputs: ";
      ghost var start := graph;
      for k := 0 to |outputs|
        invariant graph == start + OutputLabels(outputs[..k], idText)
      {
        OutputLabelsStep(outputs, k, idText);
        Assoc(start, OutputLabels(outputs[..k], idText), idText(outputs[k].id) + " ");
        graph := graph + (idText(outputs[k].id) + " ");
      }
      assert outputs[..|outputs|] == outputs;
      graph := graph + "\n";
      AppendAssoc(graph0, "  Outputs: ", OutputLabels(outputs, idText), "\n");
    }
  }

  /** Pushes the section of operation `i`. */
  method PushOpSection(graph0: string, ops: seq<OperationIr>, i: nat, producers: map<TensorId, nat>,
                       idText: TensorId -> string)
    returns (graph: string)
    requires i < |ops|
    ensures graph == graph0 + OpSection(ops, i, producers, idText)
  {
    graph := graph0 + ("Op[" + NatText(i) + "]: " + OperationToString(ops[i], idText) + "\n");
    var nodes := Nodes(ops[i]);
    graph := PushInputs(graph, nodes, producers, idText);
    graph := PushOutputs(graph, nodes, idText);
    graph := graph + "\n";
    var title, ins, outs := OpTitle(ops, i, idText), InputsLine(nodes, producers, idText), OutputsLine(nodes, idText);
    AppendAssoc(graph0, title, ins, outs);
    Assoc(graph0, title + ins + outs, "\n");
  }

  /** Pushes the Dependency Flow line of operation `i`. */
  method PushFlowLine(graph0: string, ops: seq<OperationIr>, producers: map<TensorId, nat>,
                      consumers: map<TensorId, seq<nat>>, i: nat)
    returns (graph: string)
    requires i < |ops|
    requires producers == ProducerMap(ops) && consumers == ConsumerMap(ops)
    ensures graph == graph0 + FlowLine(ops, i)
  {
    graph := graph0;
    var dependencies, uniqueDeps := DependencyList(ops, producers, consumers, i);
    if dependencies != [] {
      graph := graph + ("Op[" + NatText(i) + "] depends on: " + DebugList(uniqueDeps) + "\n");
    }
  }

  lemma OpSectionsStep(ops: seq<OperationIr>, i: nat, producers: map<TensorId, nat>, idText: TensorId -> string)
    requires i < |ops|
    ensures OpSections(ops, i + 1, producers, idText)
         == OpSections(ops, i, producers, idText) + OpSection(ops, i, producers, idText)
  {
  }

  lemma FlowLinesStep(ops: seq<OperationIr>, i: nat)
    requires i < |ops|
    ensures FlowLines(ops, i + 1) == FlowLines(ops, i) + FlowLine(ops, i)
  {
  }

  /** The second pass: pushes the section of every operation, in order. */
  method PushOpSections(graph0: string, ops: seq<OperationIr>, producers: map<TensorId, nat>, idText: TensorId -> string)
    returns (graph: string)
    ensures graph == graph0 + OpSections(ops, |ops|, producers, idText)
  {
    graph := graph0;
    assert OpSections(ops, 0, producers, idText) == "";
    AppendEmpty(graph0);
    for i := 0 to |ops|
      invariant graph == graph0 + OpSections(ops, i, producers, idText)
    {
      OpSectionsStep(ops, i, producers, idText);
      Assoc(graph0, OpSections(ops, i, producers, idText), OpSection(ops, i, producers, idText));
      graph := PushOpSection(graph, ops, i, producers, idText);
    }
  }

  /** The last pass: pushes the Dependency Flow line of every operation, in order. */
  method PushFlowLines(graph0: string, ops: seq<OperationIr>, producers: map<TensorId, nat>,
                       consumers: map<TensorId, seq<nat>>)
    returns (graph: string)
    requires producers == ProducerMap(ops) && consumers == ConsumerMap(ops)
    ensures graph == graph0 + FlowLines(ops, |ops|)
  {
    graph := graph0;
    assert FlowLines(ops, 0) == "";
    AppendEmpty(graph0);
    for i := 0 to |ops|
      invariant graph == graph0 + FlowLines(ops, i)
    {
      FlowLinesStep(ops, i);
      Assoc(graph0, FlowLines(ops, i), FlowLine(ops, i));
      graph := PushFlowLine(graph, ops, producers, consumers, i);
    }
  }

  /** The rendering of a non-empty list starts with the header and the title of
      operation 0; that of the empty list is the header and the notice alone. */
  lemma AsciiGraphStart(ops: seq<OperationIr>, idText: TensorId -> string)
    ensures ops == [] ==> AsciiGraph(ops, idText) == Header + NoOperations
    ensures ops != [] ==> Header + OpTitle(ops, 0, idText) <= AsciiGraph(ops, idText)
  {
    if ops != [] {
      var sections := OpSections(ops, |ops|, ProducerMap(ops), idText);
      var start := Header + OpTitle(ops, 0, idText);
      OpSectionsStartWithFirst(ops, |ops|, ProducerMap(ops), idText);
      PrefixPrepend(Header, OpTitle(ops, 0, idText), sections);
      PrefixExtends(start, Header + sections, FlowHeader);
      PrefixExtends(start, Header + sections + FlowHeader, FlowLines(ops, |ops|));
      AppendAssoc(Header, sections, FlowHeader, FlowLines(ops, |ops|));
    }
  }

  /** `operations_to_ascii_graph`, pushing onto the text piece by piece. */
  method OperationsToAsciiGraph(ops: seq<OperationIr>, idText: TensorId -> string) returns (graph: string)
    ensures graph == AsciiGraph(ops, idText)
  {
    graph := "";
    graph := graph + "Pre-optimized Operation Graph:\n";
    graph := graph + "============================\n\n";
    assert graph == Header;
    if ops == [] {
      graph := graph + "No operations found.\n";
      return;
    }
    var producers, consumers := CollectDataflow(ops);
    graph := PushOpSections(graph, ops, producers, idText);
    ghost var sections := graph;
    graph := graph + "Dependency Flow:\n";
    graph := graph + "================\n";
    Assoc(sections, "Dependency Flow:\n", "================\n");
    graph := PushFlowLines(graph, ops, producers, consumers);
    AppendAssoc(Header, OpSections(ops, |ops|, producers, idText), FlowHeader, FlowLines(ops, |ops|));
  }
}
