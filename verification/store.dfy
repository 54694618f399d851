/** The execution-plan store: the append-only cache of every exploration done
    on a device, together with the index that finds plans by their operations. */
module Store {
  import opened Ir
  import opened Plans
  import Names
  import FuseTrace

  /** What the index holds once every plan has been inserted in id order: one
      entry `(operations, id)` per stored plan, and nothing else. */
  ghost function IndexOf<O>(plans: seq<ExecutionPlan<O>>): (index: set<(seq<OperationIr>, nat)>)
    ensures forall ops, id :: (ops, id) in index <==> 0 <= id < |plans| && plans[id].operations == ops
  {
    set id | 0 <= id < |plans| :: (plans[id].operations, id)
  }

  /** Inserting the plan with the next id adds exactly its entry to the index. */
  lemma IndexOfAppend<O>(plans: seq<ExecutionPlan<O>>, p: ExecutionPlan<O>)
    ensures IndexOf(plans + [p]) == IndexOf(plans) + {(p.operations, |plans|)}
  {
    var ps := plans + [p];
    forall e | e in IndexOf(ps) ensures e in IndexOf(plans) + {(p.operations, |plans|)} {
      if e.1 < |plans| {
        assert ps[e.1] == plans[e.1];
      }
    }
    forall e | e in IndexOf(plans) ensures e in IndexOf(ps) {
      assert ps[e.1] == plans[e.1];
    }
  }

  /** The index has exactly one entry per stored plan. */
  lemma {:induction false} IndexSize<O>(plans: seq<ExecutionPlan<O>>)
    ensures |IndexOf(plans)| == |plans|
  {
    if plans != [] {
      var init := plans[..|plans| - 1];
      assert plans == init + [plans[|plans| - 1]];
      IndexOfAppend(init, plans[|plans| - 1]);
      IndexSize(init);
      assert (plans[|plans| - 1].operations, |init|) !in IndexOf(init);
    }
  }

  /** The debug summary of a list of plans: entry `i` describes plan `i`. */
  function Summaries<O>(plans: seq<ExecutionPlan<O>>): (r: seq<ExecutionPlanSummary>)
    ensures |r| == |plans|
  {
    seq(|plans|, i requires 0 <= i < |plans| =>
      ExecutionPlanSummary(i, |plans[i].operations|, |plans[i].triggers|))
  }

  /** Adding a plan appends one summary entry, with the new plan's id, and leaves
      the entries of earlier plans as they were. */
  lemma SummariesAppend<O>(plans: seq<ExecutionPlan<O>>, p: ExecutionPlan<O>)
    ensures Summaries(plans + [p])
         == Summaries(plans) + [ExecutionPlanSummary(|plans|, |p.operations|, |p.triggers|)]
  {
    var ps := plans + [p];
    assert forall i :: 0 <= i < |plans| ==> ps[i] == plans[i];
  }

  /** Adding a trigger to plan `id` changes only that plan's trigger count, by
      one when the trigger is new and not at all when it was already there. */
  lemma SummariesWithTrigger<O>(plans: seq<ExecutionPlan<O>>, id: nat, t: ExecutionTrigger)
    requires id < |plans|
    ensures var after := plans[id := plans[id].(triggers := WithTrigger(plans[id].triggers, t))];
      var before := Summaries(plans);
      Summaries(after) == before[id := before[id].(triggerCount := before[id].triggerCount
                                                     + if t in plans[id].triggers then 0 else 1)]
  {
  }

  class ExecutionPlanStore<O> {
    /** The plans, at positions equal to their ids. */
    var plans: seq<ExecutionPlan<O>>
    /** The plan index, seen as the set of `(operations, id)` entries inserted into it. */
    ghost var index: set<(seq<OperationIr>, nat)>

    /** The index is in step with the plan list, and no stored plan is empty. */
    ghost predicate Valid()
      reads this
    {
      && index == IndexOf(plans)
      && forall id :: 0 <= id < |plans| ==> plans[id].operations != []
    }

    /** `new`: an empty store with an empty index. */
    constructor ()
      ensures Valid()
      ensures plans == [] && index == {}
    {
      plans := [];
      index := {};
    }

    /** `find`: the ids the index returns for a query. How the index matches a query
        against the indexed operations is given by `matches`; every id it returns
        names a stored plan whose operations match. */
    ghost function Find<Q>(query: Q, matches: (Q, seq<OperationIr>) -> bool): (ids: set<nat>)
      reads this
      requires Valid()
      ensures forall id :: id in ids <==> 0 <= id < |plans| && matches(query, plans[id].operations)
    {
      var ids := set e | e in index && matches(query, e.0) :: e.1;
      assert forall id :: 0 <= id < |plans| && matches(query, plans[id].operations) ==> id in ids by {
        forall id | 0 <= id < |plans| && matches(query, plans[id].operations) ensures id in ids {
          assert (plans[id].operations, id) in index;
        }
      }
      ids
    }

    /** `add`: stores a non-empty exploration under the next id, inserting its
        operations into the index first. An empty exploration is a caller error
        (the source panics). */
    method Add(exploration: ExecutionPlan<O>) returns (id: nat)
      requires Valid()
      requires exploration.operations != []
      modifies this
      ensures Valid()
      ensures id == old(|plans|)
      ensures plans == old(plans) + [exploration]
      ensures |plans| == old(|plans|) + 1 && plans[id] == exploration
      ensures forall i :: 0 <= i < old(|plans|) ==> plans[i] == old(plans[i])
      ensures index == old(index) + {(exploration.operations, id)}
    {
      id := |plans|;
      index := index + {(exploration.operations, id)};
      IndexOfAppend(plans, exploration);
      plans := plans + [exploration];
    }

    /** `get_unchecked`: the plan stored under `id`; the id must be in range. */
    function GetUnchecked(id: nat): (plan: ExecutionPlan<O>)
      reads this
      requires id < |plans|
      ensures Valid() ==> plan.operations != [] && (plan.operations, id) in index
    {
      plans[id]
    }

    /** `get_mut_unchecked`: the caller's changes through the returned reference,
        written back as `edit`. The index is not touched, so the store stays
        consistent as long as the edit keeps the plan's operations. */
    method GetMutUnchecked(id: nat, edit: ExecutionPlan<O> -> ExecutionPlan<O>)
      requires Valid()
      requires id < |plans|
      modifies this
      ensures plans == old(plans)[id := edit(old(plans[id]))]
      ensures index == old(index)
      ensures edit(old(plans[id])).operations == old(plans[id].operations) ==> Valid()
    {
      plans := plans[id := edit(plans[id])];
    }

    /** `add_trigger`: adds a trigger to plan `id` unless it is already there. No
        other plan and not the index change. */
    method AddTrigger(id: nat, trigger: ExecutionTrigger)
      requires Valid()
      requires id < |plans|
      modifies this
      ensures Valid()
      ensures plans == old(plans)[id := old(plans[id]).(triggers := WithTrigger(old(plans[id].triggers), trigger))]
      ensures trigger in old(plans[id].triggers) ==> plans == old(plans)
      ensures index == old(index)
    {
      var criteria := plans[id].triggers;
      if trigger !in criteria {
        plans := plans[id := plans[id].(triggers := criteria + [trigger])];
      }
    }

    /** `debug_plan_count`: the number of stored plans, which is also the number of
        index entries. */
    function DebugPlanCount(): (n: nat)
      reads this
      ensures n == |DebugSummary()|
      ensures Valid() ==> n == |index|
    {
      IndexSize(plans); |plans|
    }

    /** `debug_summary`: one entry per plan, in id order. */
    function DebugSummary(): (r: seq<ExecutionPlanSummary>)
      reads this
      ensures |r| == |plans|
      ensures forall i :: 0 <= i < |r| ==>
        r[i].id == i && r[i].operationCount == |plans[i].operations| && r[i].triggerCount == |plans[i].triggers|
      ensures Valid() ==> forall i :: 0 <= i < |r| ==> r[i].operationCount > 0
    {
      Summaries(plans)
    }

    /** `debug_summary_with_operations`: the summary entries, each with the category
        name of every operation of the plan, in order. */
    function DebugSummaryWithOperations(): (r: seq<ExecutionPlanSummaryWithOps>)
      reads this
      ensures |r| == |plans|
      ensures forall i :: 0 <= i < |r| ==>
        && r[i].id == i && r[i].operationCount == |r[i].operationTypes| == |plans[i].operations|
        && r[i].triggerCount == |plans[i].triggers|
        && forall j :: 0 <= j < |r[i].operationTypes| ==>
             r[i].operationTypes[j] == Names.OperationTypeName(plans[i].operations[j])
    {
      seq(|plans|, i requires 0 <= i < |plans| reads this =>
        var ops := plans[i].operations;
        ExecutionPlanSummaryWithOps(
          i, |ops|, |plans[i].triggers|,
          seq(|ops|, j requires 0 <= j < |ops| => Names.OperationTypeName(ops[j]))))
    }

    /** `debug_fuse_trace_info`: the description of every plan's strategy, in id order. */
    function DebugFuseTraceInfo(optText: O -> string, pretty: string -> string): (r: seq<string>)
      reads this
      ensures |r| == |plans|
      ensures forall i :: 0 <= i < |r| ==>
        r[i] == FuseTrace.FuseTraceInfo(plans[i].optimization.strategy, optText, pretty)
    {
      seq(|plans|, i requires 0 <= i < |plans| reads this =>
        FuseTrace.FuseTraceInfo(plans[i].optimization.strategy, optText, pretty))
    }
  }
}
