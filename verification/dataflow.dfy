/** The dataflow facts both graph renderers derive from a list of operations:
    which operation produced each tensor, which operations read it, and, for each
    operation, the operations it depends on. */
module Dataflow {
  import opened Ir

  /** The nodes an operation consumes, in node order (the renderer's `inputs`). */
  function ReadNodes(nodes: seq<TensorIr>): (r: seq<TensorIr>)
    ensures forall n :: n in r <==> n in nodes && IsRead(n)
    ensures forall n :: multiset(r)[n] == if IsRead(n) then multiset(nodes)[n] else 0
  {
    if nodes == [] then []
    else
      assert nodes == nodes[..|nodes| - 1] + [nodes[|nodes| - 1]];
      ReadNodes(nodes[..|nodes| - 1]) + (if IsRead(nodes[|nodes| - 1]) then [nodes[|nodes| - 1]] else [])
  }

  /** The nodes an operation produces, in node order (the renderer's `outputs`). */
  function WriteNodes(nodes: seq<TensorIr>): (r: seq<TensorIr>)
    ensures forall n :: n in r <==> n in nodes && IsWrite(n)
    ensures forall n :: multiset(r)[n] == if IsWrite(n) then multiset(nodes)[n] else 0
  {
    if nodes == [] then []
    else
      assert nodes == nodes[..|nodes| - 1] + [nodes[|nodes| - 1]];
      WriteNodes(nodes[..|nodes| - 1]) + (if IsWrite(nodes[|nodes| - 1]) then [nodes[|nodes| - 1]] else [])
  }

  /** `m` after recording position `i` for every produced node among `nodes`, in
      order; a later entry for the same tensor overwrites an earlier one. */
  function RecordWrites(m: map<TensorId, nat>, nodes: seq<TensorIr>, i: nat): map<TensorId, nat>
  {
    if nodes == [] then m
    else
      var m' := RecordWrites(m, nodes[..|nodes| - 1], i);
      var n := nodes[|nodes| - 1];
      if IsWrite(n) then m'[n.id := i] else m'
  }

  /** The producer map (`tensor_producers`) after scanning `ops` in order. */
  function ProducerMap(ops: seq<OperationIr>): map<TensorId, nat>
  {
    if ops == [] then map[]
    else RecordWrites(ProducerMap(ops[..|ops| - 1]), Nodes(ops[|ops| - 1]), |ops| - 1)
  }

  lemma {:induction false} RecordWritesMeaning(m: map<TensorId, nat>, nodes: seq<TensorIr>, i: nat, id: TensorId)
    ensures id in RecordWrites(m, nodes, i) <==> id in m || TensorIr(id, NotInit) in nodes
    ensures id in RecordWrites(m, nodes, i) ==>
      RecordWrites(m, nodes, i)[id] == if TensorIr(id, NotInit) in nodes then i else m[id]
  {
    if nodes != [] {
      var init := nodes[..|nodes| - 1];
      RecordWritesMeaning(m, init, i, id);
      assert nodes == init + [nodes[|nodes| - 1]];
    }
  }

  /** Operation `p` is the last operation of `ops` producing tensor `id`. */
  predicate LastProducer(ops: seq<OperationIr>, p: nat, id: TensorId)
  {
    p < |ops| && Produces(ops[p], id) && forall q :: p < q < |ops| ==> !Produces(ops[q], id)
  }

  /** A tensor has at most one last producer. */
  lemma LastProducerUnique(ops: seq<OperationIr>, p: nat, p': nat, id: TensorId)
    requires LastProducer(ops, p, id) && LastProducer(ops, p', id)
    ensures p == p'
  {
  }

  /** The producer map sends each produced tensor to the LAST operation producing
      it, and holds no tensor that no operation produces. */
  lemma {:induction false} ProducerMapIsLast(ops: seq<OperationIr>, id: TensorId)
    ensures id in ProducerMap(ops) <==> exists q :: 0 <= q < |ops| && Produces(ops[q], id)
    ensures id in ProducerMap(ops) ==> LastProducer(ops, ProducerMap(ops)[id], id)
  {
    if ops != [] {
      var i := |ops| - 1;
      var init := ops[..i];
      ProducerMapIsLast(init, id);
      RecordWritesMeaning(ProducerMap(init), Nodes(ops[i]), i, id);
      if Produces(ops[i], id) {
        assert ProducerMap(ops)[id] == i;
      } else if id in ProducerMap(init) {
        var p := ProducerMap(init)[id];
        assert ProducerMap(ops)[id] == p;
        assert forall q :: p < q < |ops| ==> !Produces(ops[q], id) by {
          forall q | p < q < |ops| ensures !Produces(ops[q], id) {
            if q < i { assert init[q] == ops[q]; }
          }
        }
        assert init[p] == ops[p];
      } else {
        forall q | 0 <= q < |ops| ensures !Produces(ops[q], id) {
          if q < i { assert init[q] == ops[q]; }
        }
      }
    }
  }

  /** Every value of the producer map is a position in `ops`. */
  lemma ProducerMapBounded(ops: seq<OperationIr>)
    ensures forall id :: id in ProducerMap(ops) ==> ProducerMap(ops)[id] < |ops|
  {
    forall id | id in ProducerMap(ops) ensures ProducerMap(ops)[id] < |ops| {
      ProducerMapIsLast(ops, id);
    }
  }

  /** The list kept for `id` in a consumer map, empty when there is none. */
  function ListAt(m: map<TensorId, seq<nat>>, id: TensorId): seq<nat>
  {
    if id in m then m[id] else []
  }

  /** `m` after recording position `i` once for every consumed node among `nodes`, in order. */
  function AddReads(m: map<TensorId, seq<nat>>, nodes: seq<TensorIr>, i: nat): map<TensorId, seq<nat>>
  {
    if nodes == [] then m
    else
      var m' := AddReads(m, nodes[..|nodes| - 1], i);
      var n := nodes[|nodes| - 1];
      if IsRead(n) then m'[n.id := ListAt(m', n.id) + [i]] else m'
  }

  /** The consumer map (`tensor_consumers`) after scanning `ops` in order. */
  function ConsumerMap(ops: seq<OperationIr>): map<TensorId, seq<nat>>
  {
    if ops == [] then map[]
    else AddReads(ConsumerMap(ops[..|ops| - 1]), Nodes(ops[|ops| - 1]), |ops| - 1)
  }

  lemma {:induction false} AddReadsMembers(m: map<TensorId, seq<nat>>, nodes: seq<TensorIr>, i: nat, id: TensorId, j: nat)
    ensures j in ListAt(AddReads(m, nodes, i), id) <==>
      j in ListAt(m, id) || (j == i && (TensorIr(id, ReadOnly) in nodes || TensorIr(id, ReadWrite) in nodes))
  {
    if nodes != [] {
      var init := nodes[..|nodes| - 1];
      AddReadsMembers(m, init, i, id, j);
      assert nodes == init + [nodes[|nodes| - 1]];
    }
  }

  /** Position `j` is listed under tensor `id` in the consumer map exactly when
      operation `j` consumes `id`. */
  lemma {:induction false} ConsumerMapMembers(ops: seq<OperationIr>, id: TensorId, j: nat)
    ensures j in ListAt(ConsumerMap(ops), id) <==> j < |ops| && Consumes(ops[j], id)
  {
    if ops != [] {
      var i := |ops| - 1;
      var init := ops[..i];
      ConsumerMapMembers(init, id, j);
      AddReadsMembers(ConsumerMap(init), Nodes(ops[i]), i, id, j);
      if j < i {
        assert init[j] == ops[j];
      }
    }
  }

  /** The producers of the consumed nodes among `nodes`, in node order (the
      `filter_map` in the Dependency Flow loop). */
  function ReadProducers(nodes: seq<TensorIr>, producers: map<TensorId, nat>): (r: seq<nat>)
    ensures forall p :: p in r <==>
      exists n :: n in nodes && IsRead(n) && n.id in producers && producers[n.id] == p
  {
    if nodes == [] then []
    else
      var n := nodes[|nodes| - 1];
      ReadProducers(nodes[..|nodes| - 1], producers)
      + (if IsRead(n) && n.id in producers then [producers[n.id]] else [])
  }

  /** The operations that operation `i` depends on: the producers of the tensors it consumes. */
  function DependencySet(ops: seq<OperationIr>, i: nat): set<nat>
    requires i < |ops|
  {
    var producers := ProducerMap(ops);
    set n | n in Nodes(ops[i]) && IsRead(n) && n.id in producers :: producers[n.id]
  }

  /** Operation `i` depends on operation `p` exactly when `i` consumes some tensor
      whose last producer in `ops` is `p`. */
  lemma DependencySetMeaning(ops: seq<OperationIr>, i: nat, p: nat)
    requires i < |ops|
    ensures p in DependencySet(ops, i) <==> exists id :: Consumes(ops[i], id) && LastProducer(ops, p, id)
  {
    var producers := ProducerMap(ops);
    if p in DependencySet(ops, i) {
      var n :| n in Nodes(ops[i]) && IsRead(n) && n.id in producers && producers[n.id] == p;
      ProducerMapIsLast(ops, n.id);
      assert Consumes(ops[i], n.id) by {
        assert n == TensorIr(n.id, n.status);
      }
    }
    if exists id :: Consumes(ops[i], id) && LastProducer(ops, p, id) {
      var id :| Consumes(ops[i], id) && LastProducer(ops, p, id);
      ProducerMapIsLast(ops, id);
      LastProducerUnique(ops, producers[id], p, id);
      var n := if TensorIr(id, ReadOnly) in Nodes(ops[i]) then TensorIr(id, ReadOnly) else TensorIr(id, ReadWrite);
      assert n in Nodes(ops[i]) && IsRead(n);
    }
  }

  /** Operation `i` depends on nothing exactly when no operation produces a tensor it consumes. */
  lemma DependencySetEmpty(ops: seq<OperationIr>, i: nat)
    requires i < |ops|
    ensures DependencySet(ops, i) == {} <==>
      forall id, p: nat :: Consumes(ops[i], id) && p < |ops| ==> !Produces(ops[p], id)
  {
    if exists id, p: nat :: Consumes(ops[i], id) && p < |ops| && Produces(ops[p], id) {
      var id, p: nat :| Consumes(ops[i], id) && p < |ops| && Produces(ops[p], id);
      ProducerMapIsLast(ops, id);
      DependencySetMeaning(ops, i, ProducerMap(ops)[id]);
    }
    if DependencySet(ops, i) != {} {
      var p :| p in DependencySet(ops, i);
      DependencySetMeaning(ops, i, p);
    }
  }

  predicate StrictlyIncreasing(s: seq<nat>)
  {
    forall a, b :: 0 <= a < b < |s| ==> s[a] < s[b]
  }

  /** The members of `s` below `n`, in increasing order. */
  function Ascending(s: set<nat>, n: nat): (r: seq<nat>)
    ensures StrictlyIncreasing(r)
    ensures forall x :: x in r <==> x in s && x < n
  {
    if n == 0 then []
    else
      var r := Ascending(s, n - 1);
      assert forall k :: 0 <= k < |r| ==> r[k] < n - 1 by {
        forall k | 0 <= k < |r| ensures r[k] < n - 1 {
          assert r[k] in r;
        }
      }
      r + (if n - 1 in s then [n - 1] else [])
  }

  /** The dependencies of operation `i` in increasing order: the content of its
      Dependency Flow line. */
  function SortedDependencies(ops: seq<OperationIr>, i: nat): seq<nat>
    requires i < |ops|
  {
    Ascending(DependencySet(ops, i), |ops|)
  }

  lemma SameElementsBothEmpty(a: seq<nat>, b: seq<nat>)
    requires forall x :: x in a <==> x in b
    ensures a == [] <==> b == []
  {
    if a != [] {
      assert a[0] in a;
    }
    if b != [] {
      assert b[0] in b;
    }
  }

  /** The tail of a strictly increasing sequence holds every element but the head. */
  lemma TailMembers(a: seq<nat>, x: nat)
    requires StrictlyIncreasing(a) && a != []
    ensures x in a[1..] <==> x in a && x != a[0]
  {
    if x in a && x != a[0] {
      var k :| 0 <= k < |a| && a[k] == x;
      assert a[1..][k - 1] == x;
    }
  }

  /** The head of `a` is at most the head of any sequence holding the same elements. */
  lemma HeadIsLeast(a: seq<nat>, b: seq<nat>)
    requires StrictlyIncreasing(b) && a != [] && b != []
    requires forall x :: x in a <==> x in b
    ensures b[0] <= a[0]
  {
    assert a[0] in a;
    var k :| 0 <= k < |b| && b[k] == a[0];
  }

  /** A strictly increasing sequence is determined by its elements. */
  lemma {:induction false} StrictlyIncreasingUnique(a: seq<nat>, b: seq<nat>)
    requires StrictlyIncreasing(a) && StrictlyIncreasing(b)
    requires forall x :: x in a <==> x in b
    ensures a == b
  {
    SameElementsBothEmpty(a, b);
    if a != [] {
      HeadIsLeast(a, b);
      HeadIsLeast(b, a);
      forall x ensures x in a[1..] <==> x in b[1..] {
        TailMembers(a, x);
        TailMembers(b, x);
      }
      StrictlyIncreasingUnique(a[1..], b[1..]);
      assert a == [a[0]] + a[1..] && b == [b[0]] + b[1..];
    }
  }

  /** `x` inserted into a strictly increasing sequence, unless already present. */
  function InsertSorted(r: seq<nat>, x: nat): (r': seq<nat>)
    requires StrictlyIncreasing(r)
    ensures StrictlyIncreasing(r')
    ensures forall y :: y in r' <==> y in r || y == x
  {
    if r == [] then [x]
    else if x < r[0] then [x] + r
    else if x == r[0] then r
    else
      assert forall y :: y in r[1..] ==> r[0] < y;
      var rest := InsertSorted(r[1..], x);
      assert forall k :: 0 <= k < |rest| ==> r[0] < rest[k] by {
        forall k | 0 <= k < |rest| ensures r[0] < rest[k] {
          assert rest[k] in rest;
        }
      }
      [r[0]] + rest
  }

  /** Deduplicating through a hash set and then sorting: the distinct elements of
      `xs` in increasing order. */
  function SortedUnique(xs: seq<nat>): (r: seq<nat>)
    ensures StrictlyIncreasing(r)
    ensures forall y :: y in r <==> y in xs
  {
    if xs == [] then []
    else InsertSorted(SortedUnique(xs[..|xs| - 1]), xs[|xs| - 1])
  }

  /** One operation's share of the first pass of the ASCII renderer: each produced
      node is recorded as a producer and each consumed node as a consumer, node by node. */
  method ScanNodes(nodes: seq<TensorIr>, i: nat, producers0: map<TensorId, nat>, consumers0: map<TensorId, seq<nat>>)
    returns (producers: map<TensorId, nat>, consumers: map<TensorId, seq<nat>>)
    ensures producers == RecordWrites(producers0, nodes, i)
    ensures consumers == AddReads(consumers0, nodes, i)
  {
    producers, consumers := producers0, consumers0;
    for k := 0 to |nodes|
      invariant producers == RecordWrites(producers0, nodes[..k], i)
      invariant consumers == AddReads(consumers0, nodes[..k], i)
    {
      var node := nodes[k];
      assert nodes[..k + 1][..k] == nodes[..k];
      match node.status {
        case NotInit =>
          producers := producers[node.id := i];
        case ReadOnly | ReadWrite =>
          consumers := consumers[node.id := ListAt(consumers, node.id) + [i]];
      }
    }
    assert nodes[..|nodes|] == nodes;
  }

  /** The first pass of the ASCII renderer: fills the producer and consumer maps,
      operation by operation. */
  method CollectDataflow(ops: seq<OperationIr>) returns (producers: map<TensorId, nat>, consumers: map<TensorId, seq<nat>>)
    ensures producers == ProducerMap(ops)
    ensures consumers == ConsumerMap(ops)
  {
    producers := map[];
    consumers := map[];
    for i := 0 to |ops|
      invariant producers == ProducerMap(ops[..i])
      invariant consumers == ConsumerMap(ops[..i])
    {
      assert ops[..i + 1][..i] == ops[..i];
      producers, consumers := ScanNodes(Nodes(ops[i]), i, producers, consumers);
    }
    assert ops[..|ops|] == ops;
  }

  /** The producer pass of the DOT renderer: fills the producer map alone. */
  method CollectProducers(ops: seq<OperationIr>) returns (producers: map<TensorId, nat>)
    ensures producers == ProducerMap(ops)
  {
    producers := map[];
    for i := 0 to |ops|
      invariant producers == ProducerMap(ops[..i])
    {
      assert ops[..i + 1][..i] == ops[..i];
      var nodes := Nodes(ops[i]);
      ghost var before := producers;
      for k := 0 to |nodes|
        invariant producers == RecordWrites(before, nodes[..k], i)
      {
        var node := nodes[k];
        assert nodes[..k + 1][..k] == nodes[..k];
        if node.status == NotInit {
          producers := producers[node.id := i];
        }
      }
      assert nodes[..|nodes|] == nodes;
    }
    assert ops[..|ops|] == ops;
  }

  /** The producers of the tensors operation `i` consumes are its dependencies. */
  lemma ReadProducersAreDependencies(ops: seq<OperationIr>, i: nat)
    requires i < |ops|
    ensures forall p :: p in ReadProducers(Nodes(ops[i]), ProducerMap(ops)) <==> p in DependencySet(ops, i)
  {
    var producers := ProducerMap(ops);
    forall p | p in DependencySet(ops, i) ensures p in ReadProducers(Nodes(ops[i]), producers) {
      var n :| n in Nodes(ops[i]) && IsRead(n) && n.id in producers && producers[n.id] == p;
    }
  }

  /** When operation `i` has a dependency, it occurs in some consumer list. */
  lemma ListedWhenDependent(ops: seq<OperationIr>, i: nat)
    requires i < |ops|
    ensures ReadProducers(Nodes(ops[i]), ProducerMap(ops)) != [] ==>
      exists id :: id in ConsumerMap(ops) && i in ConsumerMap(ops)[id]
  {
    var producers := ProducerMap(ops);
    var own := ReadProducers(Nodes(ops[i]), producers);
    if own != [] {
      assert own[0] in own;
      var n :| n in Nodes(ops[i]) && IsRead(n) && n.id in producers;
      assert Consumes(ops[i], n.id) by {
        assert n == TensorIr(n.id, n.status);
      }
      ConsumerMapMembers(ops, n.id, i);
    }
  }

  /** The inner loop over one consumer list: for each occurrence of `i`, the
      producers `own` of `i`'s consumed tensors are appended once more. */
  method ScanConsumers(consumerList: seq<nat>, i: nat, own: seq<nat>, deps0: seq<nat>, ghost seen0: bool)
    returns (dependencies: seq<nat>, ghost seen: bool)
    requires forall p :: p in deps0 <==> seen0 && p in own
    ensures forall p :: p in dependencies <==> seen && p in own
    ensures seen <==> seen0 || i in consumerList
  {
    dependencies, seen := deps0, seen0;
    for k := 0 to |consumerList|
      invariant forall p :: p in dependencies <==> seen && p in own
      invariant seen <==> seen0 || i in consumerList[..k]
    {
      if consumerList[k] == i {
        dependencies := dependencies + own;
        seen := true;
      }
      assert consumerList[..k + 1] == consumerList[..k] + [consumerList[k]];
    }
    assert consumerList[..|consumerList|] == consumerList;
  }

  /** The dependency list the Dependency Flow loop builds for operation `i`: for
      every occurrence of `i` in any consumer list (visited in the map's own,
      unspecified order), the producers of `i`'s consumed tensors are appended.
      Whatever the order, the result holds exactly the dependencies of `i`. */
  method CollectDependencies(ops: seq<OperationIr>, producers: map<TensorId, nat>,
                             consumers: map<TensorId, seq<nat>>, i: nat)
    returns (dependencies: seq<nat>)
    requires i < |ops|
    requires producers == ProducerMap(ops) && consumers == ConsumerMap(ops)
    ensures forall p :: p in dependencies <==> p in DependencySet(ops, i)
  {
    // The source recomputes this list for every occurrence; it is the same each time.
    var own := ReadProducers(Nodes(ops[i]), producers);
    dependencies := [];
    ghost var seen := false;
    var remaining := consumers.Keys;
    while remaining != {}
      invariant remaining <= consumers.Keys
      invariant forall p :: p in dependencies <==> seen && p in own
      invariant forall id :: id in consumers && id !in remaining && i in consumers[id] ==> seen
      decreases remaining
    {
      var id :| id in remaining;
      remaining := remaining - {id};
      dependencies, seen := ScanConsumers(consumers[id], i, own, dependencies, seen);
    }
    ListedWhenDependent(ops, i);
    ReadProducersAreDependencies(ops, i);
  }

  /** The sorted, duplicate-free dependency list of operation `i`, as the Dependency
      Flow loop computes it, equals the specification's list. */
  method DependencyList(ops: seq<OperationIr>, producers: map<TensorId, nat>,
                        consumers: map<TensorId, seq<nat>>, i: nat)
    returns (dependencies: seq<nat>, unique: seq<nat>)
    requires i < |ops|
    requires producers == ProducerMap(ops) && consumers == ConsumerMap(ops)
    ensures dependencies == [] <==> DependencySet(ops, i) == {}
    ensures unique == SortedDependencies(ops, i)
  {
    dependencies := CollectDependencies(ops, producers, consumers, i);
    if dependencies != [] {
      assert dependencies[0] in DependencySet(ops, i);
    }
    unique := SortedUnique(dependencies);
    ProducerMapBounded(ops);
    StrictlyIncreasingUnique(unique, SortedDependencies(ops, i));
  }
}
