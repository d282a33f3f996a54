/** Root-cause analysis of failed traces and warnings about suspicious
    traces (src/agentval/analysis.py). */
module Analysis {
  import opened Wrappers
  import opened Values
  import opened Types
  import opened Sequences

  // ---------------------------------------------------------------------
  // Causal links and the data-dependency walk
  // ---------------------------------------------------------------------

  /** `_is_empty_output`: the output is empty, or its "result" is missing,
      null, or an empty string, list or mapping. A number or a boolean
      result is never empty. */
  predicate IsEmptyOutput(output: Payload)
  {
    output == map[] ||
    "result" !in output ||
    (match output["result"]
       case Null => true
       case Str(s) => s == ""
       case List(items) => items == []
       case Map(entries) => entries == map[]
       case _ => false)
  }

  /** Which outputs count as empty: one without a "result", or whose result
      is null or a zero-length string, list or mapping. A number or boolean
      result is never empty, zero and `false` included, and neither is a
      non-empty string, list or mapping. */
  lemma EmptyOutputCases(output: Payload)
    ensures "result" !in output ==> IsEmptyOutput(output)
    ensures "result" in output && output["result"] in {Null, Str(""), List([]), Map(map[])} ==> IsEmptyOutput(output)
    ensures "result" in output && (output["result"].Int? || output["result"].Bool?) ==> !IsEmptyOutput(output)
    ensures "result" in output && output["result"].Str? && output["result"].s != "" ==> !IsEmptyOutput(output)
    ensures "result" in output && output["result"].List? && output["result"].items != [] ==> !IsEmptyOutput(output)
    ensures "result" in output && output["result"].Map? && output["result"].entries != map[] ==> !IsEmptyOutput(output)
  { }

  /** Why a step is part of a causal chain; the text of each reason is left
      to rendering. */
  datatype Reason =
    | FailedWithError(error: Option<string>)
    | EmptyOutput
    | ParentFailed(error: Option<string>)

  datatype CausalLink = CausalLink(stepIndex: nat, step: Step, reason: Reason)

  /** The failed step has a parent reference (`if failed_step.parent_id`:
      an empty id counts as none). */
  predicate HasParent(s: Step)
  {
    s.parentId.Some? && s.parentId.value != ""
  }

  /** What the backward walk records for step `i`. */
  function BackwardLink(steps: seq<Step>, i: nat): seq<CausalLink>
    requires i < |steps|
  {
    if steps[i].Failed() then [CausalLink(i, steps[i], FailedWithError(steps[i].error))]
    else if IsEmptyOutput(steps[i].output) then [CausalLink(i, steps[i], EmptyOutput)]
    else []
  }

  /** The links of the backward walk over indices `hi - 1` down to `lo`,
      in the order the walk finds them. */
  function BackwardChain(steps: seq<Step>, lo: nat, hi: nat): seq<CausalLink>
    requires lo <= hi <= |steps|
    decreases hi - lo
  {
    if lo == hi then [] else BackwardChain(steps, lo + 1, hi) + BackwardLink(steps, lo)
  }

  /** The links of the forward scan over indices below `n` for failed steps
      whose id is `parentId`. */
  function ParentChain(steps: seq<Step>, parentId: string, n: nat): seq<CausalLink>
    requires n <= |steps|
  {
    if n == 0 then []
    else
      var s := steps[n - 1];
      ParentChain(steps, parentId, n - 1) +
      (if s.stepId == parentId && s.Failed() then [CausalLink(n - 1, s, ParentFailed(s.error))] else [])
  }

  /** A link the heuristic may report for the failure at `f`: an earlier
      failed step, an earlier step with empty output that did not fail, or a
      failed step whose id is the failed step's parent id. */
  predicate Justified(steps: seq<Step>, f: nat, l: CausalLink)
    requires f < |steps|
  {
    l.stepIndex < |steps| && l.step == steps[l.stepIndex] &&
    match l.reason
    case FailedWithError(e) =>
      l.stepIndex < f && l.step.Failed() && e == l.step.error
    case EmptyOutput =>
      l.stepIndex < f && !l.step.Failed() && IsEmptyOutput(l.step.output)
    case ParentFailed(e) =>
      HasParent(steps[f]) && l.step.stepId == steps[f].parentId.value && l.step.Failed() && e == l.step.error
  }

  lemma {:induction false} BackwardChainMembers(steps: seq<Step>, lo: nat, hi: nat, l: CausalLink)
    requires lo <= hi <= |steps|
    ensures l in BackwardChain(steps, lo, hi) <==> lo <= l.stepIndex < hi && l in BackwardLink(steps, l.stepIndex)
    decreases hi - lo
  {
    if lo < hi {
      BackwardChainMembers(steps, lo + 1, hi, l);
    }
  }

  lemma {:induction false} ParentChainMembers(steps: seq<Step>, parentId: string, n: nat, l: CausalLink)
    requires n <= |steps|
    ensures l in ParentChain(steps, parentId, n) <==>
      l.stepIndex < n && steps[l.stepIndex].stepId == parentId && steps[l.stepIndex].Failed() &&
      l == CausalLink(l.stepIndex, steps[l.stepIndex], ParentFailed(steps[l.stepIndex].error))
  {
    if n > 0 {
      ParentChainMembers(steps, parentId, n - 1, l);
    }
  }

  // ---------------------------------------------------------------------
  // Stable sort by step index (`chain.sort(key=lambda c: c.step_index)`)
  // ---------------------------------------------------------------------

  predicate SortedByIndex(links: seq<CausalLink>)
  {
    forall i, j :: 0 <= i < j < |links| ==> links[i].stepIndex <= links[j].stepIndex
  }

  /** The links with step index `k`, in their order. */
  function WithIndex(links: seq<CausalLink>, k: nat): seq<CausalLink>
  {
    if links == [] then []
    else (if links[0].stepIndex == k then [links[0]] else []) + WithIndex(links[1..], k)
  }

  /** Every link of `s` has index at least `b`. */
  predicate Above(b: nat, s: seq<CausalLink>)
  {
    forall i :: 0 <= i < |s| ==> b <= s[i].stepIndex
  }

  lemma SortedTail(s: seq<CausalLink>)
    requires s != [] && SortedByIndex(s)
    ensures SortedByIndex(s[1..]) && Above(s[0].stepIndex, s[1..])
  {
    assert forall i :: 0 <= i < |s| - 1 ==> s[1..][i] == s[i + 1];
  }

  lemma ConsSorted(a: CausalLink, rest: seq<CausalLink>)
    requires SortedByIndex(rest) && Above(a.stepIndex, rest)
    ensures SortedByIndex([a] + rest)
  {
    var r := [a] + rest;
    forall i, j | 0 <= i < j < |r|
      ensures r[i].stepIndex <= r[j].stepIndex
    {
      assert r[j] == rest[j - 1];
      if i > 0 {
        assert r[i] == rest[i - 1];
      }
    }
  }

  /** A bound on every link survives adding one more link that meets it. */
  lemma AboveAdd(b: nat, s: seq<CausalLink>, x: CausalLink, t: seq<CausalLink>)
    requires Above(b, s) && b <= x.stepIndex && multiset(t) == multiset(s) + multiset{x}
    ensures Above(b, t)
  {
    forall i | 0 <= i < |t|
      ensures b <= t[i].stepIndex
    {
      assert t[i] in multiset(t);
      if t[i] != x {
        assert t[i] in multiset(s);
        var m :| 0 <= m < |s| && s[m] == t[i];
      }
    }
  }

  /** Inserts `x` before the first link whose index is not smaller. */
  function Insert(x: CausalLink, s: seq<CausalLink>): (r: seq<CausalLink>)
    ensures multiset(r) == multiset(s) + multiset{x}
  {
    if s == [] then [x]
    else if x.stepIndex <= s[0].stepIndex then [x] + s
    else
      assert s == [s[0]] + s[1..];
      [s[0]] + Insert(x, s[1..])
  }

  /** Inserting into a sorted list keeps it sorted. */
  lemma {:induction false} InsertSorted(x: CausalLink, s: seq<CausalLink>)
    requires SortedByIndex(s)
    ensures SortedByIndex(Insert(x, s))
  {
    if s == [] {
    } else if x.stepIndex <= s[0].stepIndex {
      assert Above(x.stepIndex, s);
      ConsSorted(x, s);
    } else {
      SortedTail(s);
      InsertSorted(x, s[1..]);
      var rest := Insert(x, s[1..]);
      AboveAdd(s[0].stepIndex, s[1..], x, rest);
      ConsSorted(s[0], rest);
    }
  }

  lemma WithIndexCons(a: CausalLink, t: seq<CausalLink>, k: nat)
    ensures WithIndex([a] + t, k) == (if a.stepIndex == k then [a] else []) + WithIndex(t, k)
  {
    assert ([a] + t)[1..] == t;
  }

  /** Inserting `x` puts it ahead of every link with the same index. */
  lemma {:induction false} InsertStable(x: CausalLink, s: seq<CausalLink>, k: nat)
    ensures WithIndex(Insert(x, s), k) == (if x.stepIndex == k then [x] else []) + WithIndex(s, k)
  {
    if s == [] {
      WithIndexCons(x, [], k);
    } else if x.stepIndex <= s[0].stepIndex {
      WithIndexCons(x, s, k);
    } else {
      var ins := Insert(x, s[1..]);
      InsertStable(x, s[1..], k);
      assert Insert(x, s) == [s[0]] + ins;
      WithIndexCons(s[0], ins, k);
      assert s == [s[0]] + s[1..];
      WithIndexCons(s[0], s[1..], k);
      var a := if s[0].stepIndex == k then [s[0]] else [];
      var b := if x.stepIndex == k then [x] else [];
      var w := WithIndex(s[1..], k);
      assert WithIndex(Insert(x, s), k) == a + (b + w);
      assert WithIndex(s, k) == a + w;
      // `x` and `s[0]` have different indices, so at most one of them has index `k`
      if b == [] {
        assert a + (b + w) == b + (a + w);
      } else {
        assert a == [];
        assert a + (b + w) == b + (a + w);
      }
    }
  }

  /** Python's `list.sort` with a key: a permutation of its input. */
  function SortByIndex(links: seq<CausalLink>): (r: seq<CausalLink>)
    ensures multiset(r) == multiset(links)
  {
    if links == [] then []
    else
      assert links == [links[0]] + links[1..];
      Insert(links[0], SortByIndex(links[1..]))
  }

  /** The sort's result is ascending by step index. */
  lemma {:induction false} SortByIndexSorted(links: seq<CausalLink>)
    ensures SortedByIndex(SortByIndex(links))
  {
    if links != [] {
      SortByIndexSorted(links[1..]);
      InsertSorted(links[0], SortByIndex(links[1..]));
    }
  }

  /** Stability: the links sharing any one index keep their relative order. */
  lemma {:induction false} SortByIndexStable(links: seq<CausalLink>, k: nat)
    ensures WithIndex(SortByIndex(links), k) == WithIndex(links, k)
  {
    if links != [] {
      SortByIndexStable(links[1..], k);
      InsertStable(links[0], SortByIndex(links[1..]), k);
    }
  }

  // ---------------------------------------------------------------------
  // `_find_data_dependency` and `analyze_root_cause`
  // ---------------------------------------------------------------------

  /** The chain `_find_data_dependency` returns for the failure at `f`. */
  function DataDependency(steps: seq<Step>, f: nat): seq<CausalLink>
    requires f < |steps|
  {
    SortByIndex(BackwardChain(steps, 0, f) +
                (if HasParent(steps[f]) then ParentChain(steps, steps[f].parentId.value, |steps|) else []))
  }

  /** The backward walk finds exactly the justified links other than parent links. */
  lemma BackwardChainJustified(steps: seq<Step>, f: nat, l: CausalLink)
    requires f < |steps|
    ensures l in BackwardChain(steps, 0, f) <==> Justified(steps, f, l) && !l.reason.ParentFailed?
  {
    BackwardChainMembers(steps, 0, f, l);
  }

  /** The parent scan finds exactly the justified parent links. */
  lemma ParentChainJustified(steps: seq<Step>, f: nat, l: CausalLink)
    requires f < |steps| && HasParent(steps[f])
    ensures l in ParentChain(steps, steps[f].parentId.value, |steps|) <==> Justified(steps, f, l) && l.reason.ParentFailed?
  {
    ParentChainMembers(steps, steps[f].parentId.value, |steps|, l);
  }

  /** The chain is sorted by index and holds exactly the justified links. */
  lemma DataDependencyExact(steps: seq<Step>, f: nat)
    requires f < |steps|
    ensures SortedByIndex(DataDependency(steps, f))
    ensures forall l :: l in DataDependency(steps, f) <==> Justified(steps, f, l)
  {
    var back := BackwardChain(steps, 0, f);
    var parents := if HasParent(steps[f]) then ParentChain(steps, steps[f].parentId.value, |steps|) else [];
    var r := DataDependency(steps, f);
    SortByIndexSorted(back + parents);
    assert multiset(r) == multiset(back + parents);
    forall l
      ensures l in r <==> Justified(steps, f, l)
    {
      assert l in r <==> l in multiset(back + parents);
      BackwardChainJustified(steps, f, l);
      if HasParent(steps[f]) {
        ParentChainJustified(steps, f, l);
      }
    }
  }

  /** The backward walk of `_find_data_dependency`: from the step before the
      failure down to the first step, collect failed and empty-output steps. */
  method WalkBack(steps: seq<Step>, f: nat) returns (chain: seq<CausalLink>)
    requires f < |steps|
    ensures chain == BackwardChain(steps, 0, f)
  {
    chain := [];
    var i: int := f - 1;
    while i >= 0
      invariant -1 <= i < f
      invariant chain == BackwardChain(steps, i + 1, f)
      decreases i
    {
      var step := steps[i];
      ghost var before := chain;
      if step.Failed() {
        chain := chain + [CausalLink(i, step, FailedWithError(step.error))];
      } else if IsEmptyOutput(step.output) {
        chain := chain + [CausalLink(i, step, EmptyOutput)];
      }
      assert chain == before + BackwardLink(steps, i);
      i := i - 1;
    }
  }

  /** The parent scan of `_find_data_dependency`: append every failed step
      whose id is `parentId`, in step order. */
  method ScanParents(steps: seq<Step>, parentId: string, chain: seq<CausalLink>) returns (chain': seq<CausalLink>)
    ensures chain' == chain + ParentChain(steps, parentId, |steps|)
  {
    chain' := chain;
    var j := 0;
    while j < |steps|
      invariant 0 <= j <= |steps|
      invariant chain' == chain + ParentChain(steps, parentId, j)
    {
      var step := steps[j];
      if step.stepId == parentId && step.Failed() {
        chain' := chain' + [CausalLink(j, step, ParentFailed(step.error))];
      }
      assert ParentChain(steps, parentId, j + 1) == ParentChain(steps, parentId, j) +
        (if step.stepId == parentId && step.Failed() then [CausalLink(j, step, ParentFailed(step.error))] else []);
      j := j + 1;
    }
  }

  /** `_find_data_dependency`: walk backwards from the failure collecting
      failed and empty-output steps, then collect the failed parent, then
      sort by index. */
  method FindDataDependency(trace: Trace, f: nat) returns (chain: seq<CausalLink>)
    requires f < |trace.steps|
    ensures chain == DataDependency(trace.steps, f)
  {
    var steps := trace.steps;
    var failed := steps[f];
    chain := WalkBack(steps, f);
    ghost var back := chain;
    if HasParent(failed) {
      chain := ScanParents(steps, failed.parentId.value, chain);
    }
    assert chain == back + (if HasParent(steps[f]) then ParentChain(steps, steps[f].parentId.value, |steps|) else []);
    chain := SortByIndex(chain);
  }

  /** How the report summarises the failure: traced to an upstream link, or
      no identifiable upstream cause. */
  datatype Summary = TracedTo(root: CausalLink) | NoUpstreamCause

  datatype RootCauseReport = RootCauseReport(
    failedStepIndex: nat,
    failedStep: Step,
    rootCauseIndex: nat,
    rootCauseStep: Step,
    causalChain: seq<CausalLink>,
    summary: Summary)

  /** The link for the failed step itself, closing every chain. */
  function FailureLink(steps: seq<Step>, f: nat): CausalLink
    requires f < |steps|
  {
    CausalLink(f, steps[f], FailedWithError(steps[f].error))
  }

  /** `analyze_root_cause`: the chain is the data dependency followed by the
      failed step; the root cause is the first link of the chain. */
  function RootCause(steps: seq<Step>, f: nat): RootCauseReport
    requires f < |steps|
  {
    var deps := DataDependency(steps, f);
    var chain := deps + [FailureLink(steps, f)];
    if deps != [] then
      RootCauseReport(f, steps[f], deps[0].stepIndex, deps[0].step, chain, TracedTo(deps[0]))
    else
      RootCauseReport(f, steps[f], f, steps[f], chain, NoUpstreamCause)
  }

  /** What a root-cause report says: the root is the earliest justified link,
      or the failed step itself when there is none. */
  lemma RootCauseShape(steps: seq<Step>, f: nat)
    requires f < |steps|
    ensures var r := RootCause(steps, f);
      r.failedStepIndex == f && r.failedStep == steps[f] &&
      r.causalChain == DataDependency(steps, f) + [FailureLink(steps, f)] &&
      r.rootCauseIndex < |steps| && r.rootCauseStep == steps[r.rootCauseIndex] &&
      r.rootCauseIndex == r.causalChain[0].stepIndex && r.rootCauseStep == r.causalChain[0].step
    ensures var r := RootCause(steps, f);
      (DataDependency(steps, f) == [] <==> r.summary == NoUpstreamCause) &&
      (DataDependency(steps, f) == [] ==> r.rootCauseIndex == f)
    ensures var r := RootCause(steps, f);
      DataDependency(steps, f) != [] ==>
        r.summary == TracedTo(r.causalChain[0]) && Justified(steps, f, r.causalChain[0]) &&
        forall l :: l in DataDependency(steps, f) ==> r.rootCauseIndex <= l.stepIndex
  {
    DataDependencyExact(steps, f);
    var deps := DataDependency(steps, f);
    if deps != [] {
      assert deps[0] in deps;
    }
  }

  /** `analyze_root_cause` computed through the data-dependency walk. */
  method AnalyzeRootCause(trace: Trace, f: nat) returns (r: RootCauseReport)
    requires f < |trace.steps|
    ensures r == RootCause(trace.steps, f)
  {
    var failed := trace.steps[f];
    var chain := FindDataDependency(trace, f);
    var root: CausalLink;
    var summary: Summary;
    if chain != [] {
      root := chain[0];
      chain := chain + [CausalLink(f, failed, FailedWithError(failed.error))];
      summary := TracedTo(root);
    } else {
      root := CausalLink(f, failed, FailedWithError(failed.error));
      chain := [root];
      summary := NoUpstreamCause;
    }
    r := RootCauseReport(f, failed, chain[0].stepIndex, chain[0].step, chain, summary);
  }

  // ---------------------------------------------------------------------
  // Warnings
  // ---------------------------------------------------------------------

  datatype Warning =
    | PossibleLoop(tool: string, count: int)
    | HighStepCount(stepCount: nat, threshold: int)

  /** The names of the tool-call steps, in order. */
  function ToolNames(steps: seq<Step>): seq<string>
  {
    if steps == [] then []
    else
      var last := steps[|steps| - 1];
      ToolNames(steps[..|steps| - 1]) + (if IsToolCall(last) then [last.name] else [])
  }

  /** One more step adds its name exactly when it is a tool call. */
  lemma ToolNamesSnoc(steps: seq<Step>, i: nat)
    requires i < |steps|
    ensures ToolNames(steps[..i + 1]) == ToolNames(steps[..i]) + (if IsToolCall(steps[i]) then [steps[i].name] else [])
  {
    assert steps[..i + 1][..i] == steps[..i];
  }

  /** A name is among the tool names exactly when some tool-call step has it. */
  lemma {:induction false} ToolNamesMembers(steps: seq<Step>, x: string)
    ensures x in ToolNames(steps) <==> exists i :: 0 <= i < |steps| && IsToolCall(steps[i]) && steps[i].name == x
  {
    if steps != [] {
      var init := steps[..|steps| - 1];
      ToolNamesMembers(init, x);
      assert forall i :: 0 <= i < |init| ==> init[i] == steps[i];
    }
  }

  /** The number of copies of `n` at the end of `ns`. */
  function TrailingRun(ns: seq<string>, n: string): (k: nat)
    ensures k <= |ns|
  {
    if ns == [] || ns[|ns| - 1] != n then 0 else 1 + TrailingRun(ns[..|ns| - 1], n)
  }

  /** The length of the latest run of consecutive copies of `n`: the run
      that ends at the last occurrence of `n` (0 when `n` does not occur). */
  function LatestRun(ns: seq<string>, n: string): nat
  {
    if ns == [] then 0
    else if ns[|ns| - 1] == n then TrailingRun(ns, n)
    else LatestRun(ns[..|ns| - 1], n)
  }

  lemma {:induction false} TrailingRunShape(ns: seq<string>, n: string)
    ensures forall i :: |ns| - TrailingRun(ns, n) <= i < |ns| ==> ns[i] == n
    ensures TrailingRun(ns, n) < |ns| ==> ns[|ns| - TrailingRun(ns, n) - 1] != n
  {
    if ns != [] && ns[|ns| - 1] == n {
      var init := ns[..|ns| - 1];
      TrailingRunShape(init, n);
      assert forall i :: 0 <= i < |init| ==> init[i] == ns[i];
    }
  }

  /** `ns[j..j+k]` is a maximal run of `n` after which `n` does not occur. */
  predicate LastMaximalRunAt(ns: seq<string>, n: string, j: nat, k: nat)
  {
    j + k <= |ns| &&
    (j == 0 || ns[j - 1] != n) &&
    (forall i :: j <= i < j + k ==> ns[i] == n) &&
    (forall i :: j + k <= i < |ns| ==> ns[i] != n)
  }

  /** `LatestRun` is the length of the maximal run of `n` after which `n`
      does not occur again; it is zero exactly when `n` does not occur. */
  lemma {:induction false} LatestRunIsLastMaximalRun(ns: seq<string>, n: string)
    requires n in ns
    ensures LatestRun(ns, n) > 0
    ensures exists j: nat :: LastMaximalRunAt(ns, n, j, LatestRun(ns, n))
  {
    var k := LatestRun(ns, n);
    if ns[|ns| - 1] == n {
      TrailingRunShape(ns, n);
      var j := |ns| - k;
      assert LastMaximalRunAt(ns, n, j, k);
    } else {
      var init := ns[..|ns| - 1];
      assert forall i :: 0 <= i < |init| ==> init[i] == ns[i];
      assert n in init by {
        var i :| 0 <= i < |ns| && ns[i] == n;
        assert i < |init|;
      }
      LatestRunIsLastMaximalRun(init, n);
      var j: nat :| LastMaximalRunAt(init, n, j, k);
      assert LastMaximalRunAt(ns, n, j, k);
    }
  }

  /** The distinct names of `ns`, in order of first appearance. */
  function FirstSeen(ns: seq<string>): (r: seq<string>)
    ensures forall x :: x in r <==> x in ns
    ensures forall i, j :: 0 <= i < j < |r| ==> r[i] != r[j]
  {
    if ns == [] then []
    else
      var init := ns[..|ns| - 1];
      assert ns == init + [ns[|ns| - 1]];
      var p := FirstSeen(init);
      if ns[|ns| - 1] in p then p else p + [ns[|ns| - 1]]
  }

  function LatestRuns(ns: seq<string>): map<string, int>
  {
    map n | n in ns :: LatestRun(ns, n)
  }

  /** The loop warnings for `order`, each name with its count when the count
      is at least 3. */
  function Render(order: seq<string>, counts: map<string, int>): (r: seq<Warning>)
    requires forall i :: 0 <= i < |order| ==> order[i] in counts
    ensures forall w :: w in r <==>
      w.PossibleLoop? && w.tool in order && w.tool in counts && w.count == counts[w.tool] && w.count >= 3
  {
    if order == [] then []
    else
      var init := order[..|order| - 1];
      var n := order[|order| - 1];
      assert order == init + [n];
      Render(init, counts) + (if counts[n] >= 3 then [PossibleLoop(n, counts[n])] else [])
  }

  /** Reference definition of the loop warnings: for each tool name, in order
      of first call, the length of its latest run of consecutive tool calls
      when that run is at least 3 long. Steps of other types do not break a
      run of tool calls. */
  function LoopWarnings(steps: seq<Step>): (r: seq<Warning>)
    ensures forall w :: w in r <==>
      w.PossibleLoop? && w.tool in ToolNames(steps) &&
      w.count == LatestRun(ToolNames(steps), w.tool) && w.count >= 3
  {
    var ns := ToolNames(steps);
    Render(FirstSeen(ns), LatestRuns(ns))
  }

  /** Each name of `FirstSeen(ns)` first occurs in `ns` before the next one
      does: the key order is the order of first appearance. */
  lemma FirstSeenOrder(ns: seq<string>)
    ensures var r := FirstSeen(ns);
      forall i, j :: 0 <= i < j < |r| ==> IndexOf(ns, r[i]) < IndexOf(ns, r[j])
  {
    var r := FirstSeen(ns);
    forall i, j | 0 <= i < j < |r|
      ensures IndexOf(ns, r[i]) < IndexOf(ns, r[j])
    {
      FirstSeenPair(ns, i, j);
    }
  }

  lemma {:induction false} FirstSeenPair(ns: seq<string>, i: nat, j: nat)
    requires i < j < |FirstSeen(ns)|
    ensures IndexOf(ns, FirstSeen(ns)[i]) < IndexOf(ns, FirstSeen(ns)[j])
  {
    var init := ns[..|ns| - 1];
    var n := ns[|ns| - 1];
    assert ns == init + [n];
    var p := FirstSeen(init);
    var r := FirstSeen(ns);
    assert r[i] == p[i] && p[i] in p;
    IndexOfAppend(init, [n], p[i]);
    if j < |p| {
      assert r[j] == p[j] && p[j] in p;
      IndexOfAppend(init, [n], p[j]);
      FirstSeenPair(init, i, j);
    } else {
      assert n !in init && r[j] == n;
      IndexOfUnique(ns, n, |init|);
    }
  }

  /** Over a key order without repeats, the warnings follow the key order;
      in particular no tool is warned about twice. */
  lemma RenderOrder(order: seq<string>, counts: map<string, int>)
    requires forall i :: 0 <= i < |order| ==> order[i] in counts
    requires forall i, j :: 0 <= i < j < |order| ==> order[i] != order[j]
    ensures var r := Render(order, counts);
      forall i, j :: 0 <= i < j < |r| ==> IndexOf(order, r[i].tool) < IndexOf(order, r[j].tool)
  {
    var r := Render(order, counts);
    forall i, j | 0 <= i < j < |r|
      ensures IndexOf(order, r[i].tool) < IndexOf(order, r[j].tool)
    {
      RenderPair(order, counts, i, j);
    }
  }

  lemma {:induction false} RenderPair(order: seq<string>, counts: map<string, int>, i: nat, j: nat)
    requires forall i :: 0 <= i < |order| ==> order[i] in counts
    requires forall i, j :: 0 <= i < j < |order| ==> order[i] != order[j]
    requires i < j < |Render(order, counts)|
    ensures Render(order, counts)[i].tool in order && Render(order, counts)[j].tool in order
    ensures IndexOf(order, Render(order, counts)[i].tool) < IndexOf(order, Render(order, counts)[j].tool)
  {
    var r := Render(order, counts);
    assert r[i] in r && r[j] in r;
    var init := order[..|order| - 1];
    var n := order[|order| - 1];
    assert order == init + [n];
    assert forall k :: 0 <= k < |init| ==> init[k] == order[k];
    var p := Render(init, counts);
    assert r[i] == p[i] && p[i] in p;
    IndexOfAppend(init, [n], p[i].tool);
    if j < |p| {
      assert r[j] == p[j] && p[j] in p;
      IndexOfAppend(init, [n], p[j].tool);
      RenderPair(init, counts, i, j);
    } else {
      assert r[j].tool == n && n !in init;
      IndexOfUnique(order, n, |init|);
    }
  }

  /** At most one loop warning per tool, in the order of each tool's first
      call: the order in which `consecutive` received its keys. */
  lemma LoopWarningsOrder(steps: seq<Step>)
    ensures var r := LoopWarnings(steps);
      forall i, j :: 0 <= i < j < |r| ==>
        r[i].tool != r[j].tool && IndexOf(ToolNames(steps), r[i].tool) < IndexOf(ToolNames(steps), r[j].tool)
  {
    var ns := ToolNames(steps);
    var order := FirstSeen(ns);
    var r := LoopWarnings(steps);
    assert r == Render(order, LatestRuns(ns));
    forall i, j | 0 <= i < j < |r|
      ensures r[i].tool != r[j].tool && IndexOf(ns, r[i].tool) < IndexOf(ns, r[j].tool)
    {
      RenderPair(order, LatestRuns(ns), i, j);
      var a := IndexOf(order, r[i].tool);
      var b := IndexOf(order, r[j].tool);
      FirstSeenPair(ns, a, b);
    }
  }

  /** State of `_detect_loops`'s first loop: the `consecutive` dictionary, the
      order its keys were inserted in, and the last name seen. */
  datatype LoopScan = LoopScan(counts: map<string, int>, order: seq<string>, last: Option<string>)

  /** One iteration of `_detect_loops`'s first loop, for a tool call named `n`:
      the dictionary keeps a key at its first insertion position. */
  function ScanStep(prev: LoopScan, n: string): (r: LoopScan)
    requires forall m :: m in prev.order <==> m in prev.counts
    ensures forall m :: m in r.order <==> m in r.counts
  {
    var order := if n in prev.counts then prev.order else prev.order + [n];
    if prev.last == Some(n) then
      LoopScan(prev.counts[n := (if n in prev.counts then prev.counts[n] else 1) + 1], order, prev.last)
    else
      LoopScan(prev.counts[n := 1], order, Some(n))
  }

  /** `_detect_loops`'s first loop over the tool-call names `ns`, starting from
      `start` as the last name seen. */
  function Scan(ns: seq<string>, start: Option<string>): (r: LoopScan)
    ensures forall n :: n in r.order <==> n in r.counts
  {
    if ns == [] then LoopScan(map[], [], start)
    else ScanStep(Scan(ns[..|ns| - 1], start), ns[|ns| - 1])
  }

  lemma ScanSnoc(ns: seq<string>, n: string, start: Option<string>)
    ensures Scan(ns + [n], start) == ScanStep(Scan(ns, start), n)
  {
    assert (ns + [n])[..|ns|] == ns;
  }

  /** Appending one name extends the latest run of that name, or starts it,
      and leaves the latest runs of other names alone. */
  lemma LatestRunSnoc(ns: seq<string>, n: string, m: string)
    ensures LatestRun(ns + [n], m) ==
      if m != n then LatestRun(ns, m)
      else if ns != [] && ns[|ns| - 1] == n then LatestRun(ns, n) + 1
      else 1
  {
    assert (ns + [n])[..|ns|] == ns;
  }

  lemma FirstSeenSnoc(ns: seq<string>, n: string)
    ensures FirstSeen(ns + [n]) == if n in ns then FirstSeen(ns) else FirstSeen(ns) + [n]
  {
    assert (ns + [n])[..|ns|] == ns;
  }

  /** One more name, for a single key `m`: when the scan of `init` holds the
      latest runs of `init`, the scan of `init + [n]` holds those of `init + [n]`. */
  lemma ScanCountsSnoc(init: seq<string>, n: string, m: string)
    requires Scan(init, None).counts == LatestRuns(init)
    requires Scan(init, None).last == if init == [] then None else Some(init[|init| - 1])
    ensures m in Scan(init + [n], None).counts <==> m in init + [n]
    ensures m in Scan(init + [n], None).counts ==> Scan(init + [n], None).counts[m] == LatestRun(init + [n], m)
  {
    ScanSnoc(init, n, None);
    LatestRunSnoc(init, n, m);
    assert m in init + [n] <==> m in init || m == n;
    if m == n && init != [] && init[|init| - 1] == n {
      assert n in init;
    }
  }

  /** Starting with no last name, the scan computes the reference counts. */
  lemma {:induction false} ScanFromNothing(ns: seq<string>)
    ensures Scan(ns, None).order == FirstSeen(ns)
    ensures Scan(ns, None).counts == LatestRuns(ns)
    ensures Scan(ns, None).last == if ns == [] then None else Some(ns[|ns| - 1])
  {
    if ns != [] {
      var init := ns[..|ns| - 1];
      var n := ns[|ns| - 1];
      assert ns == init + [n];
      ScanFromNothing(init);
      ScanSnoc(init, n, None);
      FirstSeenSnoc(init, n);
      var r := Scan(ns, None);
      forall m
        ensures m in r.counts <==> m in LatestRuns(ns)
        ensures m in r.counts ==> r.counts[m] == LatestRuns(ns)[m]
      {
        ScanCountsSnoc(init, n, m);
      }
      assert r.counts == LatestRuns(ns);
    }
  }

  /** `_detect_loops` as written: the last name starts as the empty string. */
  function DetectLoopsAsWritten(steps: seq<Step>): (r: seq<Warning>)
    ensures forall w :: w in r ==> w.PossibleLoop? && w.tool in ToolNames(steps) && w.count >= 3
  {
    var scan := Scan(ToolNames(steps), Some(""));
    ScanKeysOccur(ToolNames(steps), Some(""));
    Render(scan.order, scan.counts)
  }

  /** Whatever the starting name, the loop only counts names it has seen. */
  lemma {:induction false} ScanKeysOccur(ns: seq<string>, start: Option<string>)
    ensures forall n :: n in Scan(ns, start).counts ==> n in ns
  {
    if ns != [] {
      var init := ns[..|ns| - 1];
      ScanKeysOccur(init, start);
      assert ns == init + [ns[|ns| - 1]];
    }
  }

  lemma {:induction false} ScanStartIrrelevant(ns: seq<string>)
    requires ns != [] && ns[0] != ""
    ensures Scan(ns, Some("")) == Scan(ns, None)
  {
    if |ns| > 1 {
      ScanStartIrrelevant(ns[..|ns| - 1]);
    }
  }

  /** As written and corrected agree unless the first tool call has an empty name. */
  lemma AsWrittenAgreesUnlessEmptyFirstName(steps: seq<Step>)
    requires ToolNames(steps) == [] || ToolNames(steps)[0] != ""
    ensures DetectLoopsAsWritten(steps) == LoopWarnings(steps)
  {
    var ns := ToolNames(steps);
    ScanFromNothing(ns);
    if ns != [] {
      ScanStartIrrelevant(ns);
    }
  }

  /** As written, two consecutive tool calls with an empty name are reported
      as three; the reference reports no loop. */
  lemma EmptyNameCountedFromTwo()
    ensures var s := Step("", ToolCall, map[], map[], Success, None, 0, 0, map[], None, "a");
      DetectLoopsAsWritten([s, s]) == [PossibleLoop("", 3)] && LoopWarnings([s, s]) == []
  {
    var s := Step("", ToolCall, map[], map[], Success, None, 0, 0, map[], None, "a");
    var ns := ["", ""];
    assert ToolNames([s]) == [""] by { assert [s][..0] == []; }
    assert ToolNames([s, s]) == ns by { assert [s, s][..1] == [s]; }
    assert ns[..1] == [""] && [""][..0] == [];
    // as written: the first call already counts as a repeat of ""
    var first := Scan([""], Some(""));
    assert first == LoopScan(map["" := 2], [""], Some(""));
    assert Scan(ns, Some("")) == LoopScan(map["" := 3], [""], Some(""));
    assert [""][..0] == [];
    // reference: the latest run of "" has length 2
    assert TrailingRun([""], "") == 1;
    assert LatestRun(ns, "") == 2;
    assert FirstSeen(ns) == [""];
    assert LatestRuns(ns) == map["" := 2];
  }

  /** One tool call in the first loop of `_detect_loops`. */
  method CountCall(consecutive: map<string, int>, order: seq<string>, last: Option<string>, name: string)
    returns (consecutive': map<string, int>, order': seq<string>, last': Option<string>)
    requires forall m :: m in order <==> m in consecutive
    ensures LoopScan(consecutive', order', last') == ScanStep(LoopScan(consecutive, order, last), name)
  {
    // keys keep their first insertion position, as in a Python dict
    order' := if name in consecutive then order else order + [name];
    if last == Some(name) {
      consecutive' := consecutive[name := (if name in consecutive then consecutive[name] else 1) + 1];
      last' := last;
    } else {
      last' := Some(name);
      consecutive' := consecutive[name := 1];
    }
  }

  /** One pass of the first loop of `_detect_loops`: a tool step is counted,
      any other step is skipped. */
  method CountStep(steps: seq<Step>, i: nat, consecutive: map<string, int>, order: seq<string>, last: Option<string>)
    returns (consecutive': map<string, int>, order': seq<string>, last': Option<string>)
    requires i < |steps|
    requires Scan(ToolNames(steps[..i]), None) == LoopScan(consecutive, order, last)
    ensures Scan(ToolNames(steps[..i + 1]), None) == LoopScan(consecutive', order', last')
  {
    ToolNamesSnoc(steps, i);
    var names := ToolNames(steps[..i]);
    if steps[i].stepType == ToolCall {
      ScanSnoc(names, steps[i].name, None);
      consecutive', order', last' := CountCall(consecutive, order, last, steps[i].name);
    } else {
      assert names + [] == names;
      consecutive', order', last' := consecutive, order, last;
    }
  }

  /** The first loop of `_detect_loops`, with the last name starting as
      "no name yet": the run counts and their dictionary order. */
  method CountRuns(steps: seq<Step>) returns (consecutive: map<string, int>, order: seq<string>)
    ensures consecutive == Scan(ToolNames(steps), None).counts
    ensures order == Scan(ToolNames(steps), None).order
  {
    consecutive := map[];
    order := [];
    var last: Option<string> := None;
    var i := 0;
    while i < |steps|
      invariant 0 <= i <= |steps|
      invariant Scan(ToolNames(steps[..i]), None) == LoopScan(consecutive, order, last)
    {
      consecutive, order, last := CountStep(steps, i, consecutive, order, last);
      i := i + 1;
    }
    assert steps[..|steps|] == steps;
  }

  /** The second loop of `_detect_loops`: a warning for each key, in
      dictionary order, whose count is at least 3. */
  method ReportRuns(consecutive: map<string, int>, order: seq<string>) returns (warnings: seq<Warning>)
    requires forall m :: m in order ==> m in consecutive
    ensures warnings == Render(order, consecutive)
  {
    warnings := [];
    var j := 0;
    while j < |order|
      invariant 0 <= j <= |order|
      invariant warnings == Render(order[..j], consecutive)
    {
      var name := order[j];
      assert order[..j + 1][..j] == order[..j] && order[..j + 1][j] == name;
      if consecutive[name] >= 3 {
        warnings := warnings + [PossibleLoop(name, consecutive[name])];
      }
      j := j + 1;
    }
    assert order[..|order|] == order;
  }

  /** `_detect_loops` with the last name starting as "no name yet". */
  method DetectLoops(trace: Trace) returns (warnings: seq<Warning>)
    ensures warnings == LoopWarnings(trace.steps)
  {
    var consecutive, order := CountRuns(trace.steps);
    warnings := ReportRuns(consecutive, order);
    assert warnings == LoopWarnings(trace.steps) by {
      ScanFromNothing(ToolNames(trace.steps));
    }
  }

  /** The default threshold of `_detect_high_step_count`. */
  const DefaultThreshold: int := 20

  /** `_detect_high_step_count`: one warning exactly when the trace has more
      steps than the threshold. */
  function DetectHighStepCount(steps: seq<Step>, threshold: int): (r: seq<Warning>)
    ensures |r| <= 1
    ensures r != [] <==> |steps| > threshold
    ensures forall w :: w in r ==> w == HighStepCount(|steps|, threshold)
  {
    if |steps| > threshold then [HighStepCount(|steps|, threshold)] else []
  }

  // ---------------------------------------------------------------------
  // `analyze`
  // ---------------------------------------------------------------------

  /** The indices below `n` of failed steps, ascending. */
  function FailedBelow(steps: seq<Step>, n: nat): (r: seq<nat>)
    requires n <= |steps|
    ensures forall k :: 0 <= k < |r| ==> r[k] < n && steps[r[k]].Failed()
    ensures forall i :: 0 <= i < n && steps[i].Failed() ==> i in r
    ensures forall a, b :: 0 <= a < b < |r| ==> r[a] < r[b]
  {
    if n == 0 then []
    else FailedBelow(steps, n - 1) + (if steps[n - 1].Failed() then [n - 1] else [])
  }

  function FailedIndices(steps: seq<Step>): (r: seq<nat>)
    ensures (forall k :: 0 <= k < |r| ==> r[k] < |steps| && steps[r[k]].Failed())
    ensures (forall i :: 0 <= i < |steps| && steps[i].Failed() ==> i in r)
  {
    FailedBelow(steps, |steps|)
  }

  datatype AnalysisReport = AnalysisReport(trace: Trace, rootCauses: seq<RootCauseReport>, warnings: seq<Warning>)
  {
    predicate HasFailures() { |rootCauses| > 0 }
  }

  /** The root-cause reports for the failed steps below `n`, in step order. */
  function RootCausesBelow(steps: seq<Step>, n: nat): seq<RootCauseReport>
    requires n <= |steps|
  {
    if n == 0 then []
    else RootCausesBelow(steps, n - 1) + (if steps[n - 1].Failed() then [RootCause(steps, n - 1)] else [])
  }

  /** One report per failed index below `n`, each for that index. */
  lemma {:induction false} RootCausesBelowAt(steps: seq<Step>, n: nat)
    requires n <= |steps|
    ensures |RootCausesBelow(steps, n)| == |FailedBelow(steps, n)|
    ensures forall k :: 0 <= k < |FailedBelow(steps, n)| ==>
      RootCausesBelow(steps, n)[k] == RootCause(steps, FailedBelow(steps, n)[k])
  {
    if n > 0 {
      RootCausesBelowAt(steps, n - 1);
      var prev, fb := RootCausesBelow(steps, n - 1), FailedBelow(steps, n - 1);
      var rcb, fbn := RootCausesBelow(steps, n), FailedBelow(steps, n);
      forall k | 0 <= k < |fbn|
        ensures rcb[k] == RootCause(steps, fbn[k])
      {
        if k < |fb| {
          assert rcb[k] == prev[k] && fbn[k] == fb[k];
        } else {
          assert rcb[k] == RootCause(steps, n - 1) && fbn[k] == n - 1;
        }
      }
    }
  }

  /** The loop of `analyze`: a root-cause report for each failed step, in
      step order. */
  method CollectRootCauses(trace: Trace) returns (rootCauses: seq<RootCauseReport>)
    ensures |rootCauses| == |FailedIndices(trace.steps)|
    ensures forall k :: 0 <= k < |rootCauses| ==>
      rootCauses[k] == RootCause(trace.steps, FailedIndices(trace.steps)[k])
  {
    var steps := trace.steps;
    rootCauses := [];
    var i := 0;
    while i < |steps|
      invariant 0 <= i <= |steps| && steps == trace.steps
      invariant rootCauses == RootCausesBelow(steps, i)
    {
      if steps[i].status == StepStatus.Failed {
        var rc := AnalyzeRootCause(trace, i);
        rootCauses := rootCauses + [rc];
      }
      i := i + 1;
    }
    RootCausesBelowAt(steps, |steps|);
  }

  /** `analyze`: one root-cause report per failed step, in step order, then
      the loop warnings followed by the step-count warning. */
  method Analyze(trace: Trace) returns (report: AnalysisReport)
    ensures report.trace == trace
    ensures |report.rootCauses| == |FailedIndices(trace.steps)|
    ensures forall k :: 0 <= k < |report.rootCauses| ==>
      report.rootCauses[k] == RootCause(trace.steps, FailedIndices(trace.steps)[k])
    ensures report.HasFailures() <==> HasFailures(trace.steps)
    ensures report.warnings == LoopWarnings(trace.steps) + DetectHighStepCount(trace.steps, DefaultThreshold)
  {
    var rootCauses := CollectRootCauses(trace);
    if FailedIndices(trace.steps) != [] {
      assert trace.steps[FailedIndices(trace.steps)[0]].Failed();
    }
    var loops := DetectLoops(trace);
    report := AnalysisReport(trace, rootCauses, loops + DetectHighStepCount(trace.steps, DefaultThreshold));
  }
}
