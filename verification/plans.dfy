/** The values kept by the execution-plan store: how a list of operations is to
    be executed, when a stored plan applies, and the plan itself. The
    optimization payload `O` is left generic, as in the source. */
module Plans {
  import opened Ir

  /** How a list of operations should be executed: a fused optimization with
      the order of the original operations it covers, each operation on its own
      in the given order, or a composition of sub-strategies. */
  datatype ExecutionStrategy<O> =
    | Optimization(opt: O, ordering: seq<nat>)
    | Operations(ordering: seq<nat>)
    | Composed(strategies: seq<ExecutionStrategy<O>>)

  /** When exploration stops and a stored plan may be used. */
  datatype ExecutionTrigger =
    | OnOperations(operations: seq<OperationIr>)
    | OnSync
    | Always

  /** The part of a block optimization the store's debug views read: its strategy. */
  datatype BlockOptimization<O> = BlockOptimization(strategy: ExecutionStrategy<O>)

  /** The outcome of one exploration: the operations it covers, the triggers
      under which it applies, and the optimization chosen for it. */
  datatype ExecutionPlan<O> = ExecutionPlan(
    operations: seq<OperationIr>,
    triggers: seq<ExecutionTrigger>,
    optimization: BlockOptimization<O>)

  /** Per-plan counts for debugging. */
  datatype ExecutionPlanSummary = ExecutionPlanSummary(id: nat, operationCount: nat, triggerCount: nat)

  /** Per-plan counts together with the type name of each operation. */
  datatype ExecutionPlanSummaryWithOps =
    ExecutionPlanSummaryWithOps(id: nat, operationCount: nat, triggerCount: nat, operationTypes: seq<string>)

  predicate NoDuplicates<T(==)>(s: seq<T>)
  {
    forall i, j :: 0 <= i < j < |s| ==> s[i] != s[j]
  }

  /** A plan's trigger list after adding `t`: a trigger already present is not
      added again, a new one goes at the end. */
  function WithTrigger(triggers: seq<ExecutionTrigger>, t: ExecutionTrigger): (r: seq<ExecutionTrigger>)
    ensures t in r
    ensures forall x :: x in r <==> x in triggers || x == t
    ensures |triggers| <= |r| <= |triggers| + 1 && r[..|triggers|] == triggers
    ensures NoDuplicates(triggers) ==> NoDuplicates(r)
  {
    if t in triggers then triggers else triggers + [t]
  }

  /** Adding the same trigger twice has the effect of adding it once. */
  lemma WithTriggerIdempotent(triggers: seq<ExecutionTrigger>, t: ExecutionTrigger)
    ensures WithTrigger(WithTrigger(triggers, t), t) == WithTrigger(triggers, t)
    ensures |WithTrigger(WithTrigger(triggers, t), t)| == |WithTrigger(triggers, t)|
  {
  }
}
