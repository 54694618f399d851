# Execution-plan store and fusion debug renderers of burn-fusion

This project models two parts of the `burn-fusion` crate in Dafny and proves
properties about them.

The first part is the **execution-plan store**. It is the append-only cache of
explorations done on one device. Every plan gets the id equal to its position.
The store keeps an index from operation lists to plan ids. It also offers
debug views: counts, summaries, and a description of each plan's strategy.

The second part is the set of **debug renderers** over a recorded list of
operations:

- the pre-optimization ASCII graph. Each operation gets its inputs, labelled
  with the operation that produced them or as external, then its outputs.
  After all operations comes the "Dependency Flow" list.
- the Graphviz DOT graph: one box per operation and one edge per consumed
  tensor that has a producer.
- the category name of an operation.
- the settings line read out of a fuse trace's debug text.
- the recursive text description of an execution strategy.

Modules:

- `Ir` (ir.dfy): operations, tensors and tensor status, as far as the core
  looks at them.
- `Text` (text.dfy): decimal rendering of indices, `{:?}` of index lists,
  `join`, `contains` and single-character `replace`.
- `Plans` (plans.dfy): strategies, triggers, plans and summaries.
- `Store` (store.dfy): the class `ExecutionPlanStore`.
- `Names` (names.dfy): `operation_type_name` and `operation_to_string`.
- `Dataflow` (dataflow.dfy): the producer and consumer maps, each operation's
  dependency set, and the loops that compute them.
- `AsciiGraph`, `DotGraph` (ascii_graph.dfy, dot_graph.dfy): the two renderers.
  Each is specified by a function and implemented by a method with the
  source's loops.
- `FuseTrace` (fuse_trace.dfy): `extract_settings` and `extract_fuse_trace_info`.

Some pieces of text come from code outside the model. These are parameters of
type `... -> string`:

- the display of a tensor id (`idText`);
- the pretty debug rendering of an optimization payload (`optText`);
- the fuse-trace pretty printer (`pretty`).

An operation's inner description is kept as its already-rendered debug text.

The three headings of strategy descriptions start with emoji: U+1F525 (fire) for a
fused optimization, U+26A1 (high voltage) for plain operations and U+1F517 (link)
for a composition. The model reads the UTF-8 bytes of `debug.rs` lines 220, 234
and 238 as those characters and writes them as `\U{...}` escapes.

The producer and consumer maps are `map`s. In the source they are `HashMap`s.
The Dependency Flow loop visits consumer lists in the map's unspecified order.
The model picks that order nondeterministically and proves the printed line
does not depend on it.

## Model

| member | source | states |
|---|---|---|
| Plans.WithTrigger | crates/burn-fusion/src/stream/store/base.rs:87-93 | the new trigger is present afterwards; members are the old ones plus the new one; the old list is an unchanged prefix and at most one trigger is appended; a duplicate-free list stays duplicate-free |
| Plans.WithTriggerIdempotent | crates/burn-fusion/src/stream/store/base.rs:87-93 | adding the same trigger twice has the effect of adding it once |
| Store.IndexOf | crates/burn-fusion/src/stream/store/base.rs:66-73 | the index holds an entry (operations, id) exactly when plan id is stored with those operations |
| Store.IndexOfAppend | crates/burn-fusion/src/stream/store/base.rs:66-73 | storing a plan under the next id adds exactly its own entry to the index |
| Store.IndexSize | crates/burn-fusion/src/stream/store/base.rs:61-76 | the index has exactly one entry per stored plan |
| Store.Summaries | crates/burn-fusion/src/stream/store/base.rs:121-131 | one summary entry per plan |
| Store.SummariesAppend | crates/burn-fusion/src/stream/store/base.rs:121-131 | adding a plan appends one entry carrying the new id and the plan's counts; earlier entries are unchanged |
| Store.SummariesWithTrigger | crates/burn-fusion/src/stream/store/base.rs:87-93 | adding a trigger changes only that plan's trigger count: by one for a new trigger, not at all for a known one |
| Store.ExecutionPlanStore.constructor | crates/burn-fusion/src/stream/store/base.rs:50-55 | a new store is empty, its index is empty, and it is consistent |
| Store.ExecutionPlanStore.Find | crates/burn-fusion/src/stream/store/base.rs:57-59 | the ids returned are exactly the stored plans whose operations match the query |
| Store.ExecutionPlanStore.Add | crates/burn-fusion/src/stream/store/base.rs:61-76 | non-empty operations are required (the source panics otherwise); the id is the old plan count; the plan is appended; earlier plans keep their ids and contents; the index gains exactly the new entry; consistency is kept |
| Store.ExecutionPlanStore.GetUnchecked | crates/burn-fusion/src/stream/store/base.rs:82-84 | requires an id in range; the plan returned is non-empty and indexed under that id |
| Store.ExecutionPlanStore.GetMutUnchecked | crates/burn-fusion/src/stream/store/base.rs:78-80 | requires an id in range; only plan id changes; the index is untouched; consistency is kept when the edit keeps the plan's operations |
| Store.ExecutionPlanStore.AddTrigger | crates/burn-fusion/src/stream/store/base.rs:87-93 | only plan id's trigger list changes, to the list with the trigger added unless already present; nothing changes when it is present; the index is untouched |
| Store.ExecutionPlanStore.DebugPlanCount | crates/burn-fusion/src/stream/store/base.rs:103-105 | the plan count equals the summary length and the number of index entries |
| Store.ExecutionPlanStore.DebugSummary | crates/burn-fusion/src/stream/store/base.rs:121-131 | entry i has id i and plan i's operation and trigger counts; every operation count is positive |
| Store.ExecutionPlanStore.DebugSummaryWithOperations | crates/burn-fusion/src/stream/store/base.rs:134-152 | entry i has id i and plan i's counts; the type names list the category name of each operation, in order |
| Store.ExecutionPlanStore.DebugFuseTraceInfo | crates/burn-fusion/src/stream/store/base.rs:185-192 | one description per plan, in id order: the description of that plan's strategy |
| Names.VariantIndex | crates/burn-fusion/src/debug.rs:195-210 | every operation falls in one of the twelve categories |
| Names.OperationTypeName | crates/burn-fusion/src/debug.rs:195-210 | the name is the entry of the twelve category names at the operation's variant position |
| Names.TypeNamesDistinct | crates/burn-fusion/src/debug.rs:195-210 | the twelve names are pairwise different |
| Names.TypeNameIdentifiesVariant | crates/burn-fusion/src/debug.rs:195-210 | two operations get the same name if and only if they are of the same variant |
| Names.OperationToStringShape | crates/burn-fusion/src/debug.rs:173-192 | every rendering of an operation opens with its category name (the `operation_type_name` of the same variant) and "(", and closes with ")" |
| Dataflow.ReadNodes | crates/burn-fusion/src/debug.rs:43-45 | the inputs are exactly the read-only and read-write nodes, each as often as it occurs among the nodes |
| Dataflow.WriteNodes | crates/burn-fusion/src/debug.rs:46-48 | the outputs are exactly the not-initialised nodes, each as often as it occurs among the nodes |
| Dataflow.RecordWritesMeaning | crates/burn-fusion/src/debug.rs:24-29 | after one operation's nodes, a tensor is mapped iff it was before or is produced here; a tensor produced here maps to this operation, and any other keeps its old value |
| Dataflow.ProducerMapIsLast | crates/burn-fusion/src/debug.rs:17-36 | a tensor is in the producer map iff some operation produces it, and it then maps to the last operation producing it |
| Dataflow.ProducerMapBounded | crates/burn-fusion/src/debug.rs:17-36 | every producer is a position in the operation list |
| Dataflow.AddReadsMembers | crates/burn-fusion/src/debug.rs:30-33 | after one operation's nodes, a position is listed under a tensor iff it was before or it is this operation and this operation reads the tensor |
| Dataflow.ConsumerMapMembers | crates/burn-fusion/src/debug.rs:17-36 | position j is listed under a tensor iff operation j reads that tensor |
| Dataflow.ReadProducers | crates/burn-fusion/src/debug.rs:82-90 | the list holds exactly the recorded producers of the operation's consumed nodes |
| Dataflow.DependencySetMeaning | crates/burn-fusion/src/debug.rs:76-93 | operation i depends on p iff i consumes some tensor whose last producer is p |
| Dataflow.DependencySetEmpty | crates/burn-fusion/src/debug.rs:95-99 | operation i has no dependency iff no operation produces a tensor i consumes |
| Dataflow.Ascending | crates/burn-fusion/src/debug.rs:96-97 | the result is strictly increasing and holds exactly the set's members below the bound |
| Dataflow.StrictlyIncreasingUnique | crates/burn-fusion/src/debug.rs:96-97 | two strictly increasing lists with the same elements are equal, so the sorted list is fixed by its set |
| Dataflow.InsertSorted | crates/burn-fusion/src/debug.rs:96-97 | inserting into a strictly increasing list keeps it strictly increasing, adds the element, and adds nothing else |
| Dataflow.SortedUnique | crates/burn-fusion/src/debug.rs:96-97 | collecting into a hash set and sorting gives a strictly increasing list with exactly the input's elements |
| Dataflow.ScanNodes | crates/burn-fusion/src/debug.rs:24-35 | the inner loop's maps are the producer and consumer maps extended by this operation's nodes |
| Dataflow.CollectDataflow | crates/burn-fusion/src/debug.rs:17-36 | the first pass computes exactly the producer map and the consumer map |
| Dataflow.CollectProducers | crates/burn-fusion/src/debug.rs:401-410 | the producer pass of the DOT renderer computes exactly the producer map |
| Dataflow.ReadProducersAreDependencies | crates/burn-fusion/src/debug.rs:80-91 | the mapped producers of operation i's consumed nodes are exactly its dependencies |
| Dataflow.ListedWhenDependent | crates/burn-fusion/src/debug.rs:77-79 | an operation with a dependency occurs in some consumer list, so the flatten-filter visits it |
| Dataflow.ScanConsumers | crates/burn-fusion/src/debug.rs:77-93 | after one consumer list, the collected producers are those of i iff i was seen so far |
| Dataflow.CollectDependencies | crates/burn-fusion/src/debug.rs:76-93 | whatever the map's iteration order, the collected list holds exactly the dependencies of i |
| Dataflow.DependencyList | crates/burn-fusion/src/debug.rs:76-98 | the raw list is empty iff there is no dependency; deduplicated and sorted, it is the increasing list of the dependencies |
| AsciiGraph.OpTitlesDistinct | crates/burn-fusion/src/debug.rs:40 | two operations get the same `Op[i]:` title line if and only if they are the same position |
| AsciiGraph.OpSectionStartsWithTitle | crates/burn-fusion/src/debug.rs:39-40 | every operation section opens with its title line |
| AsciiGraph.OpSectionsStartWithFirst | crates/burn-fusion/src/debug.rs:39-71 | a non-empty run of sections opens with the title of operation 0 |
| AsciiGraph.FlowLine | crates/burn-fusion/src/debug.rs:95-99 | the Dependency Flow line of i is absent iff i has no dependency |
| AsciiGraph.InputLabelMeaning | crates/burn-fusion/src/debug.rs:52-58 | an input is labelled "(from Op[p])" with p its last producer; it is labelled "(external)" when no operation produces it |
| AsciiGraph.FlowLineMeaning | crates/burn-fusion/src/debug.rs:76-99 | the line is absent iff nothing produces a tensor i consumes; otherwise it lists, increasing and once each, exactly the last producers of the tensors i consumes |
| AsciiGraph.PushInputs | crates/burn-fusion/src/debug.rs:50-60 | the loop appends exactly the Inputs line, which is absent when there are no inputs |
| AsciiGraph.PushOutputs | crates/burn-fusion/src/debug.rs:62-68 | the loop appends exactly the Outputs line, which is absent when there are no outputs |
| AsciiGraph.PushOpSection | crates/burn-fusion/src/debug.rs:40-70 | appends exactly operation i's section |
| AsciiGraph.PushOpSections | crates/burn-fusion/src/debug.rs:39-71 | appends the sections of all operations, in order |
| AsciiGraph.PushFlowLine | crates/burn-fusion/src/debug.rs:77-99 | appends exactly operation i's Dependency Flow line |
| AsciiGraph.PushFlowLines | crates/burn-fusion/src/debug.rs:74-100 | appends the Dependency Flow lines of all operations, in order |
| AsciiGraph.AsciiGraphStart | crates/burn-fusion/src/debug.rs:6-14 | an empty list renders as the header plus "No operations found."; otherwise the header is followed by operation 0's title |
| AsciiGraph.OperationsToAsciiGraph | crates/burn-fusion/src/debug.rs:6-103 | the rendered text is the specified graph |
| DotGraph.NodeLabel | crates/burn-fusion/src/debug.rs:396 | the label has the rendering's length and no double quote; each double quote became a single quote and every other character is unchanged |
| DotGraph.NodeLinesDistinct | crates/burn-fusion/src/debug.rs:397 | two operations get the same box line if and only if they are the same position: the node names `op<i>` differ |
| DotGraph.OpEdgesMembers | crates/burn-fusion/src/debug.rs:414-419 | operation i's edges are exactly those into i from the recorded producer of each consumed tensor |
| DotGraph.OpEdgesOfOperation | crates/burn-fusion/src/debug.rs:414-419 | the same, stated for one operation's nodes |
| DotGraph.EdgesUpToMembers | crates/burn-fusion/src/debug.rs:413-421 | an edge is among those of the first n operations iff its consumer is below n and contributes it |
| DotGraph.EdgeListMeaning | crates/burn-fusion/src/debug.rs:400-421 | there is an edge p -> i labelled t iff operation i consumes t and p is the last producer of t; there are no other edges |
| DotGraph.EdgesUpToOrdered | crates/burn-fusion/src/debug.rs:413-421 | edges come grouped by consumer, in operation order |
| DotGraph.EdgeLinesConcat | crates/burn-fusion/src/debug.rs:413-421 | the lines of two runs of edges are the first run's lines, then the second's |
| DotGraph.PushOpEdges | crates/burn-fusion/src/debug.rs:414-420 | appends one edge line per consumed node that has a producer, in node order |
| DotGraph.PushNodeLines | crates/burn-fusion/src/debug.rs:395-398 | appends one box line per operation, in order |
| DotGraph.PushEdges | crates/burn-fusion/src/debug.rs:413-421 | appends the lines of all edges, in order |
| DotGraph.OperationsToDotGraph | crates/burn-fusion/src/debug.rs:388-425 | the rendered text is the specified graph: header, boxes, edges, footer |
| FuseTrace.SelectedLabels | crates/burn-fusion/src/debug.rs:368-378 | at most three labels; none iff no marker occurs |
| FuseTrace.ExtractSettings | crates/burn-fusion/src/debug.rs:367-385 | nothing iff no marker occurs; otherwise a non-empty text |
| FuseTrace.ExtractSettingsText | crates/burn-fusion/src/debug.rs:367-385 | for each of the eight combinations of markers, the exact text: labels in the fixed order, joined by ", " |
| FuseTrace.ExtractSettingsIdentifiesMarkers | crates/burn-fusion/src/debug.rs:367-385 | two traces get the same result iff they contain the same markers |
| FuseTrace.SectionsDependOnPrefix | crates/burn-fusion/src/debug.rs:239-242 | the first n sections depend only on the first n children |
| FuseTrace.AppendChildAppendsSection | crates/burn-fusion/src/debug.rs:237-244 | one more child adds one more section, numbered after the existing ones, and leaves the earlier sections as they were |
| FuseTrace.DescribeOptimization | crates/burn-fusion/src/debug.rs:218-232 | the optimization case is its header, then the pretty trace when the payload's text mentions FuseTrace, else the raw details |
| FuseTrace.ExtractSections | crates/burn-fusion/src/debug.rs:237-244 | the loop appends, for each child in order, its numbered header and its description |
| FuseTrace.ExtractFuseTraceInfo | crates/burn-fusion/src/debug.rs:214-246 | the recursive description is the specified one for each kind of strategy |

## Left out

- crates/burn-fusion/src/server.rs is not part of this model. Its methods delegate to stream and handle containers whose code is not available.
- `generate_optimization_summary` is not modelled. It computes a floating-point percentage and prints a `HashMap` in its unspecified order.
- `execution_plans_to_ascii_graph` is not modelled. It is dead code (marked `allow(dead_code)`), it lies outside the store and renderers modelled here, and its `Strategy:` line is the `{:?}` rendering of a strategy, which is opaque here.
- `debug_plans`, `debug_detailed_plans` and `debug_optimizations` are not modelled. They return the plan list or `{:?}` renderings of it.
- `debug_to_json` is not modelled. It returns a constant error text.
- `pretty_print_fuse_trace` and the `extract_operations`, `extract_reads_writes` and `extract_scalars` helpers are not modelled. They are canned text keyed off the debug output of an opaque payload, so they enter as the `pretty` parameter. `extract_settings`, which they call, is modelled.
- The Display of tensor ids and the `{:?}` / `{:#?}` renderings of operations and payloads are outside the model. They appear as the `idText` and `optText` parameters and as each operation's stored text.
- Store.ExecutionPlanStore.Find: the index's data structure and its matching rule are not available. The index is modelled as the ghost set of entries inserted so far, and the matching rule is a caller-given relation. The result is a set of ids, whereas the source returns a list, so the order of the returned ids and any repetition among them are not modelled.
- Store.ExecutionPlanStore.GetMutUnchecked: a mutable reference is modelled as writing back an edit of the plan. Aliasing through the reference is not captured.
- `Arc` sharing of orderings is not modelled. An ordering is a plain sequence.
- Shapes and data types of tensors are not modelled. Only ids and read/write status matter to the core.
- Integer widths are not modelled (`usize` is `nat`). No count in the core approaches its bound.
