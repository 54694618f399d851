/** Text descriptions of execution strategies (`extract_fuse_trace_info`) and
    the settings line read out of a fuse trace's debug text (`extract_settings`). */
module FuseTrace {
  import opened Plans
  import opened Text

  datatype Option<T> = None | Some(value: T)

  const BroadcastMarker := "broadcast: true"
  const InplaceMarker := "inplace: true"
  const VectorizationMarker := "vectorization: Activated"

  const BroadcastLabel := "Broadcasting enabled"
  const InplaceLabel := "In-place optimization"
  const VectorizationLabel := "Vectorization active"

  /** Which of the three setting markers occur in a trace's text, in the fixed order
      broadcast, in-place, vectorization. */
  function Markers(trace: string): (bool, bool, bool)
  {
    (ContainsText(trace, BroadcastMarker), ContainsText(trace, InplaceMarker),
     ContainsText(trace, VectorizationMarker))
  }

  /** The labels of the settings a trace enables, in the fixed order. */
  function SelectedLabels(trace: string): (labels: seq<string>)
    ensures |labels| <= 3
    ensures labels == [] <==> Markers(trace) == (false, false, false)
  {
    (if ContainsText(trace, BroadcastMarker) then [BroadcastLabel] else [])
    + (if ContainsText(trace, InplaceMarker) then [InplaceLabel] else [])
    + (if ContainsText(trace, VectorizationMarker) then [VectorizationLabel] else [])
  }

  /** `extract_settings`: nothing when no marker occurs, otherwise the matched labels
      joined by ", ". */
  function ExtractSettings(trace: string): (r: Option<string>)
    ensures r.None? <==> Markers(trace) == (false, false, false)
    ensures r.Some? ==> r.value != ""
  {
    var settings := SelectedLabels(trace);
    if settings != [] then Some(Join(settings, ", ")) else None
  }

  /** The settings text for each combination of markers: the labels in the fixed
      order broadcast, in-place, vectorization, separated by ", ". */
  lemma {:induction false} ExtractSettingsText(trace: string)
    ensures var r := ExtractSettings(trace);
      match Markers(trace)
      case (false, false, false) => r == None
      case (true, false, false) => r == Some(BroadcastLabel)
      case (false, true, false) => r == Some(InplaceLabel)
      case (false, false, true) => r == Some(VectorizationLabel)
      case (true, true, false) => r == Some(BroadcastLabel + ", " + InplaceLabel)
      case (true, false, true) => r == Some(BroadcastLabel + ", " + VectorizationLabel)
      case (false, true, true) => r == Some(InplaceLabel + ", " + VectorizationLabel)
      case (true, true, true) => r == Some(BroadcastLabel + ", " + InplaceLabel + ", " + VectorizationLabel)
  {
    var labels := SelectedLabels(trace);
    if |labels| == 2 {
      assert Join(labels, ", ") == labels[0] + ", " + labels[1];
    } else if |labels| == 3 {
      assert Join(labels[1..], ", ") == labels[1] + ", " + labels[2];
      AppendAssoc(labels[0] + ", ", labels[1], ", ", labels[2]);
    }
  }

  /** The settings text tells exactly which markers occurred: two traces get the
      same result if and only if they contain the same markers. */
  lemma ExtractSettingsIdentifiesMarkers(t1: string, t2: string)
    ensures ExtractSettings(t1) == ExtractSettings(t2) <==> Markers(t1) == Markers(t2)
  {
    ExtractSettingsText(t1);
    ExtractSettingsText(t2);
    var r1, r2 := ExtractSettings(t1), ExtractSettings(t2);
    if r1.Some? && r2.Some? {
      // The seven non-empty texts differ in length or in their first or last character.
      var a, b := r1.value, r2.value;
      assert |a| > 0 && |b| > 0;
      assert a[0] == BroadcastLabel[0] || a[0] == InplaceLabel[0] || a[0] == VectorizationLabel[0];
    }
  }

  /** Measure for the mutual recursion between a strategy and its child sections. */
  function Width<O>(s: ExecutionStrategy<O>): nat
  {
    if s.Composed? then |s.strategies| + 1 else 0
  }

  function SectionHeader(k: nat): string
  {
    "\n--- Sub-strategy " + NatText(k) + " ---\n"
  }

  function ComposedHeader(n: nat): string
  {
    "\U{1F517} COMPOSED STRATEGY (" + NatText(n) + " sub-strategies)\n"
  }

  function OptimizationHeader(ordering: seq<nat>): string
  {
    "\U{1F525} FUSED OPTIMIZATION (" + NatText(|ordering|) + " operations)\n"
    + "   Execution order: " + DebugList(ordering) + "\n\n"
  }

  /** A fuse trace is handed to its pretty printer; any other payload is shown as is. */
  function OptimizationDetails(optStr: string, pretty: string -> string): string
  {
    if ContainsText(optStr, "FuseTrace") then pretty(optStr)
    else "   Optimization details:\n" + ("   " + optStr + "\n")
  }

  /** The description of a strategy. `optText` is the pretty `{:#?}` rendering of
      an optimization payload and `pretty` the rendering of a fuse trace's text;
      neither is part of this model. */
  function FuseTraceInfo<O>(s: ExecutionStrategy<O>, optText: O -> string, pretty: string -> string): string
    decreases s, Width(s)
  {
    match s
    case Optimization(opt, ordering) =>
      OptimizationHeader(ordering) + OptimizationDetails(optText(opt), pretty)
    case Operations(ordering) =>
      "\U{26A1} OPERATIONS STRATEGY (" + NatText(|ordering|) + " operations)\n   Execution order: "
      + DebugList(ordering) + "\n   (No fusion optimization applied)\n"
    case Composed(children) =>
      ComposedHeader(|children|) + Sections(s, |children|, optText, pretty)
  }

  /** The sections of the first `n` children of a composed strategy: for each child
      in order, its numbered header followed by the child's own description. */
  function Sections<O>(s: ExecutionStrategy<O>, n: nat, optText: O -> string, pretty: string -> string): string
    requires s.Composed? && n <= |s.strategies|
    decreases s, n
  {
    if n == 0 then ""
    else Sections(s, n - 1, optText, pretty) + SectionHeader(n - 1) + FuseTraceInfo(s.strategies[n - 1], optText, pretty)
  }

  lemma SectionsStep<O>(s: ExecutionStrategy<O>, n: nat, optText: O -> string, pretty: string -> string)
    requires s.Composed? && n < |s.strategies|
    ensures Sections(s, n + 1, optText, pretty)
         == Sections(s, n, optText, pretty) + SectionHeader(n) + FuseTraceInfo(s.strategies[n], optText, pretty)
  {
  }

  /** The first `n` sections depend only on the first `n` children. */
  lemma {:induction false} SectionsDependOnPrefix<O>(s: ExecutionStrategy<O>, t: ExecutionStrategy<O>, n: nat,
                                                     optText: O -> string, pretty: string -> string)
    requires s.Composed? && t.Composed? && n <= |s.strategies| && n <= |t.strategies|
    requires s.strategies[..n] == t.strategies[..n]
    ensures Sections(s, n, optText, pretty) == Sections(t, n, optText, pretty)
  {
    if n > 0 {
      assert s.strategies[..n - 1] == t.strategies[..n - 1] by {
        assert s.strategies[..n - 1] == s.strategies[..n][..n - 1];
        assert t.strategies[..n - 1] == t.strategies[..n][..n - 1];
      }
      assert s.strategies[n - 1] == s.strategies[..n][n - 1];
      SectionsDependOnPrefix(s, t, n - 1, optText, pretty);
    }
  }

  /** Appending a child to a composition appends exactly one section, numbered after
      the existing children, and leaves the earlier sections as they were. */
  lemma AppendChildAppendsSection<O>(children: seq<ExecutionStrategy<O>>, c: ExecutionStrategy<O>,
                                     optText: O -> string, pretty: string -> string)
    ensures Sections(Composed(children + [c]), |children| + 1, optText, pretty)
         == Sections(Composed(children), |children|, optText, pretty)
            + SectionHeader(|children|) + FuseTraceInfo(c, optText, pretty)
  {
    var s, t := Composed(children + [c]), Composed(children);
    var n := |children|;
    assert (children + [c])[..n] == children;
    SectionsDependOnPrefix(s, t, n, optText, pretty);
    SectionsStep(s, n, optText, pretty);
  }

  /** `extract_fuse_trace_info` as the source writes it; the composed case is the
      loop of `ExtractSections`. */
  method ExtractFuseTraceInfo<O>(s: ExecutionStrategy<O>, optText: O -> string, pretty: string -> string)
    returns (result: string)
    ensures result == FuseTraceInfo(s, optText, pretty)
    decreases s, Width(s)
  {
    match s
    case Optimization(opt, ordering) =>
      result := DescribeOptimization(ordering, optText(opt), pretty);
    case Operations(ordering) =>
      result := "\U{26A1} OPERATIONS STRATEGY (" + NatText(|ordering|) + " operations)\n   Execution order: "
        + DebugList(ordering) + "\n   (No fusion optimization applied)\n";
    case Composed(children) =>
      result := ComposedHeader(|children|);
      result := ExtractSections(s, result, optText, pretty);
  }

  /** The optimization case: the header, then the details of the payload's text. */
  method DescribeOptimization(ordering: seq<nat>, optStr: string, pretty: string -> string) returns (result: string)
    ensures result == OptimizationHeader(ordering) + OptimizationDetails(optStr, pretty)
  {
    result := "";
    EmptyConcat("\U{1F525} FUSED OPTIMIZATION (");
    result := result + "\U{1F525} FUSED OPTIMIZATION (" + NatText(|ordering|) + " operations)\n";
    result := result + "   Execution order: " + DebugList(ordering) + "\n\n";
    ghost var header := result;
    assert header == OptimizationHeader(ordering);
    if ContainsText(optStr, "FuseTrace") {
      result := result + pretty(optStr);
    } else {
      result := result + "   Optimization details:\n";
      result := result + ("   " + optStr + "\n");
      Assoc(header, "   Optimization details:\n", "   " + optStr + "\n");
    }
  }

  /** The loop of the composed case: pushes, for each child in order, its numbered
      header and its description onto `prefix`. */
  method ExtractSections<O>(s: ExecutionStrategy<O>, prefix: string, optText: O -> string, pretty: string -> string)
    returns (result: string)
    requires s.Composed?
    ensures result == prefix + Sections(s, |s.strategies|, optText, pretty)
    decreases s, |s.strategies|
  {
    var children := s.strategies;
    result := prefix;
    var i := 0;
    assert Sections(s, 0, optText, pretty) == "";
    AppendEmpty(prefix);
    while i < |children|
      invariant 0 <= i <= |children|
      invariant result == prefix + Sections(s, i, optText, pretty)
    {
      var sub := ExtractFuseTraceInfo(children[i], optText, pretty);
      ghost var done := Sections(s, i, optText, pretty);
      SectionsStep(s, i, optText, pretty);
      AppendAssoc(prefix, done, SectionHeader(i), sub);
      result := result + SectionHeader(i);
      result := result + sub;
      i := i + 1;
    }
  }
}
