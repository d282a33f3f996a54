/** The assertion library: checks over a trace that either pass or fail with
    a description of what went wrong (src/agentval/assertions.py). */
module Assertions {
  import opened Wrappers
  import opened Values
  import opened Sequences
  import opened Types
  import Capture

  /** What an assertion reports on failure; the message text is left to
      rendering. `KwargsNotMapping` stands for the attribute error
      `tool_called_with` runs into when a call's "kwargs" is no mapping. */
  datatype AssertionFailure =
    | NeverCalled(tool: string)
    | CalledWrongTimes(tool: string, expected: int, actual: nat)
    | UnexpectedlyCalled(tool: string, times: nat)
    | NeverCalledWith(tool: string, expectedKwargs: Payload)
    | KwargsNotMapping(tool: string)
    | NotFoundInOrder(name: string, lastIndex: int)
    | OrderMismatch(expectedOrder: seq<string>, actualOrder: seq<string>)
    | AppearedAfter(name: string, index: nat, notAfter: string, afterIndex: nat)
    | TooManySteps(maximum: int, actual: nat)
    | TooFewSteps(minimum: int, actual: nat)
    | StepsFailed(failed: seq<Step>)
    | StepNotFound(name: string)
    | DidNotSucceed(step: Step)
    | DidNotFail(step: Step)
    | StepDidNotMatch(step: Step, message: Option<string>)
    | TraceDidNotMatch(message: Option<string>)
    | RepeatedCalls(tool: string, count: nat, maxRepeats: int)

  type Check = Outcome<AssertionFailure>

  /** `message or <default>`: an empty custom message means the default one. */
  function CustomMessage(message: string): Option<string>
  {
    if message == "" then None else Some(message)
  }

  // ---------------------------------------------------------------------------
  // Tool call assertions
  // ---------------------------------------------------------------------------

  /** `[s for s in trace.tool_calls if s.name == tool_name]`. */
  function CallsNamed(steps: seq<Step>, tool: string): (r: seq<Step>)
    ensures forall s :: multiset(r)[s] == if s.stepType == ToolCall && s.name == tool then multiset(steps)[s] else 0
  {
    FindSteps(ToolCalls(steps), tool)
  }

  /** Reference count: the tool-call steps named `tool`. */
  function CountCalls(steps: seq<Step>, tool: string): nat
  {
    if steps == [] then 0
    else (if IsToolCall(steps[0]) && steps[0].name == tool then 1 else 0) + CountCalls(steps[1..], tool)
  }

  /** The filtered call list has exactly as many entries as the reference count. */
  lemma {:induction false} CallsNamedCount(steps: seq<Step>, tool: string)
    ensures |CallsNamed(steps, tool)| == CountCalls(steps, tool)
  {
    if steps != [] {
      CallsNamedCount(steps[1..], tool);
      var rest := ToolCalls(steps[1..]);
      if IsToolCall(steps[0]) {
        assert ToolCalls(steps) == [steps[0]] + rest;
        assert ([steps[0]] + rest)[1..] == rest;
      } else {
        assert ToolCalls(steps) == rest;
      }
    }
  }

  /** `tool_called`: the tool was called, and exactly `times` times when given. */
  function ToolCalled(trace: Trace, tool: string, times: Option<int>): (r: Check)
    reads trace
    ensures r.Pass? <==> CountCalls(trace.steps, tool) > 0 && (times.None? || times.value == CountCalls(trace.steps, tool))
    ensures r == Fail(NeverCalled(tool)) <==> CountCalls(trace.steps, tool) == 0
    ensures r.Fail? && CountCalls(trace.steps, tool) > 0 ==>
      r == Fail(CalledWrongTimes(tool, times.value, CountCalls(trace.steps, tool)))
  {
    CallsNamedCount(trace.steps, tool);
    var calls := CallsNamed(trace.steps, tool);
    if calls == [] then Fail(NeverCalled(tool))
    else if times.Some? && |calls| != times.value then Fail(CalledWrongTimes(tool, times.value, |calls|))
    else Pass
  }

  /** `tool_not_called`: the tool was never called. */
  function ToolNotCalled(trace: Trace, tool: string): (r: Check)
    reads trace
    ensures r.Pass? <==> CountCalls(trace.steps, tool) == 0
    ensures r.Fail? ==> r == Fail(UnexpectedlyCalled(tool, CountCalls(trace.steps, tool)))
  {
    CallsNamedCount(trace.steps, tool);
    var calls := CallsNamed(trace.steps, tool);
    if calls != [] then Fail(UnexpectedlyCalled(tool, |calls|)) else Pass
  }

  /** The two tool assertions are complementary when no count is asked for. */
  lemma ToolCalledIffNotToolNotCalled(trace: Trace, tool: string)
    ensures ToolCalled(trace, tool, None).Pass? <==> !ToolNotCalled(trace, tool).Pass?
  {
  }

  /** `call.input.get("kwargs", {})`, when that is a mapping. */
  function KwargsOf(input: Payload): (r: Option<Payload>)
    ensures "kwargs" !in input ==> r == Some(map[])
    ensures r.None? <==> "kwargs" in input && !input["kwargs"].Map?
    ensures r.Some? && "kwargs" in input ==> input["kwargs"] == Map(r.value)
  {
    if "kwargs" !in input then Some(map[])
    else match input["kwargs"]
      case Map(m) => Some(m)
      case _ => None
  }

  /** The keyword arguments `tool_called_with` reads from a step are the ones
      the tool wrapper recorded for the call. */
  lemma KwargsOfCallInput(args: seq<Value>, kwargs: Payload)
    ensures KwargsOf(Capture.CallInput(args, kwargs)) == Some(kwargs)
  { }

  /** `kwargs.get(k) == v` for every expected pair: a missing key reads as null. */
  predicate KwargsMatch(kwargs: Payload, expected: Payload)
  {
    forall k :: k in expected ==> (if k in kwargs then kwargs[k] else Null) == expected[k]
  }

  /** The call satisfies the expected arguments. With nothing expected any
      call does, whatever its "kwargs" holds. */
  predicate Accepts(call: Step, expected: Payload)
  {
    expected == map[] || (KwargsOf(call.input).Some? && KwargsMatch(KwargsOf(call.input).value, expected))
  }

  /** Checking the call raises an attribute error: something is expected but
      its "kwargs" is no mapping. */
  predicate Crashes(call: Step, expected: Payload)
  {
    expected != map[] && KwargsOf(call.input).None?
  }

  /** Some call is accepted before any call crashes the check. */
  predicate AcceptedBeforeCrash(calls: seq<Step>, expected: Payload)
  {
    exists i :: 0 <= i < |calls| && Accepts(calls[i], expected) &&
      forall j :: 0 <= j < i ==> !Crashes(calls[j], expected)
  }

  /** Some call crashes the check before any call is accepted. */
  predicate CrashBeforeAccepted(calls: seq<Step>, expected: Payload)
  {
    exists i :: 0 <= i < |calls| && Crashes(calls[i], expected) &&
      forall j :: 0 <= j < i ==> !Accepts(calls[j], expected)
  }

  /** The loop of `tool_called_with` over the calls of the tool, in order. */
  method CheckCalls(tool: string, calls: seq<Step>, expected: Payload) returns (r: Check)
    ensures r.Pass? <==> AcceptedBeforeCrash(calls, expected)
    ensures r == Fail(KwargsNotMapping(tool)) <==> CrashBeforeAccepted(calls, expected)
    ensures r.Fail? ==> r == Fail(KwargsNotMapping(tool)) || r == Fail(NeverCalledWith(tool, expected))
  {
    var k := 0;
    while k < |calls|
      invariant 0 <= k <= |calls|
      invariant forall j :: 0 <= j < k ==> !Accepts(calls[j], expected) && !Crashes(calls[j], expected)
    {
      var kwargs := KwargsOf(calls[k].input);
      if expected == map[] {
        assert Accepts(calls[k], expected);
        return Pass;
      }
      if kwargs.None? {
        assert Crashes(calls[k], expected);
        return Fail(KwargsNotMapping(tool));
      }
      if KwargsMatch(kwargs.value, expected) {
        assert Accepts(calls[k], expected);
        return Pass;
      }
      k := k + 1;
    }
    return Fail(NeverCalledWith(tool, expected));
  }

  /** `tool_called_with`: the tool was called, and the calls, checked in
      order, reach one that satisfies the expected arguments before one whose
      arguments cannot be read. */
  method ToolCalledWith(trace: Trace, tool: string, expected: Payload) returns (r: Check)
    ensures CallsNamed(trace.steps, tool) == [] ==> r == Fail(NeverCalled(tool))
    ensures CallsNamed(trace.steps, tool) != [] ==>
      (r.Pass? <==> AcceptedBeforeCrash(CallsNamed(trace.steps, tool), expected))
    ensures CallsNamed(trace.steps, tool) != [] ==>
      (r == Fail(KwargsNotMapping(tool)) <==> CrashBeforeAccepted(CallsNamed(trace.steps, tool), expected))
    ensures r.Fail? ==> r == Fail(NeverCalled(tool)) || r == Fail(KwargsNotMapping(tool)) || r == Fail(NeverCalledWith(tool, expected))
  {
    var calls := CallsNamed(trace.steps, tool);
    if calls == [] {
      return Fail(NeverCalled(tool));
    }
    r := CheckCalls(tool, calls, expected);
  }

  // ---------------------------------------------------------------------------
  // Step order assertions
  // ---------------------------------------------------------------------------

  /** The inner loop of `step_order`: the first index at or after `from`
      holding `x`, if any. */
  method SearchFrom(names: seq<string>, x: string, from: nat) returns (found: bool, idx: nat)
    requires from <= |names|
    ensures found ==> from <= idx < |names| && names[idx] == x
    ensures found ==> forall m :: from <= m < idx ==> names[m] != x
    ensures !found ==> forall m :: from <= m < |names| ==> names[m] != x
  {
    var i := from;
    while i < |names|
      invariant from <= i <= |names|
      invariant forall m :: from <= m < i ==> names[m] != x
    {
      if names[i] == x {
        return true, i;
      }
      i := i + 1;
    }
    return false, 0;
  }

  /** `step_order`: the expected names occur in the trace in this relative
      order, not necessarily adjacent. On failure the reported name is the
      first expected name that breaks the order. */
  method StepOrder(trace: Trace, expected: seq<string>) returns (r: Check)
    ensures r.Pass? <==> IsSubseq(expected, StepNames(trace.steps))
    ensures r.Fail? ==> r.error.NotFoundInOrder?
    ensures r.Fail? ==>
      exists k :: 0 <= k < |expected| && r.error.name == expected[k] &&
        IsSubseq(expected[..k], StepNames(trace.steps)) && !IsSubseq(expected[..k + 1], StepNames(trace.steps))
  {
    var names := StepNames(trace.steps);
    var lastIdx: int := -1;
    var k := 0;
    GreedyStart(names);
    assert expected[..0] == [];
    while k < |expected|
      invariant 0 <= k <= |expected|
      invariant -1 <= lastIdx < |names|
      invariant GreedyState(expected[..k], names, lastIdx + 1)
    {
      var x := expected[k];
      var found, i := SearchFrom(names, x, lastIdx + 1);
      if !found {
        assert IsSubseq(expected[..k], names) && !IsSubseq(expected[..k + 1], names) && !IsSubseq(expected, names) by {
          TakeSnoc(expected, k);
          GreedyMiss(expected[..k], x, expected[k + 1..], names, lastIdx + 1);
        }
        return Fail(NotFoundInOrder(x, lastIdx));
      }
      assert GreedyState(expected[..k + 1], names, i + 1) by {
        TakeSnoc(expected, k);
        GreedyAdvance(expected[..k], x, names, lastIdx + 1, i);
      }
      lastIdx := i;
      k := k + 1;
    }
    assert IsSubseq(expected, names) by {
      assert expected[..k] == expected;
      GreedyMatched(expected, names, lastIdx + 1);
    }
    return Pass;
  }

  /** `exact_step_order`: the step names are exactly the expected list. */
  function ExactStepOrder(trace: Trace, expected: seq<string>): (r: Check)
    reads trace
    ensures r.Pass? <==> StepNames(trace.steps) == expected
    ensures r.Fail? ==> r == Fail(OrderMismatch(expected, StepNames(trace.steps)))
  {
    var names := StepNames(trace.steps);
    if names != expected then Fail(OrderMismatch(expected, names)) else Pass
  }

  lemma {:induction false} SubseqReflexive<T>(s: seq<T>)
    ensures IsSubseq(s, s)
  {
    if s != [] {
      SubseqReflexive(s[1..]);
    }
  }

  /** An exact order is in particular a relative order. */
  lemma ExactOrderImpliesOrder(trace: Trace, expected: seq<string>)
    requires ExactStepOrder(trace, expected).Pass?
    ensures IsSubseq(expected, StepNames(trace.steps))
  {
    SubseqReflexive(expected);
  }

  /** `step_not_after`: `stepName` never occurs at or after an occurrence of
      `notAfter`. On failure the report holds the first offending index and
      the latest occurrence of `notAfter` up to it. */
  method StepNotAfter(trace: Trace, stepName: string, notAfter: string) returns (r: Check)
    ensures r.Pass? <==>
      !exists j, i :: 0 <= j <= i < |trace.steps| && trace.steps[j].name == notAfter && trace.steps[i].name == stepName
    ensures r.Fail? ==> r.error.AppearedAfter? && r.error.name == stepName && r.error.notAfter == notAfter
    ensures r.Fail? ==>
      var i := r.error.index; var j := r.error.afterIndex;
      j <= i < |trace.steps| && trace.steps[i].name == stepName && trace.steps[j].name == notAfter &&
      (forall m :: j < m <= i ==> trace.steps[m].name != notAfter) &&
      (forall m, n :: 0 <= n <= m < i && trace.steps[m].name == stepName ==> trace.steps[n].name != notAfter)
  {
    var names := StepNames(trace.steps);
    r := ScanNotAfter(names, stepName, notAfter);
  }

  /** The loop of `step_not_after`, over the list of step names. */
  method ScanNotAfter(names: seq<string>, stepName: string, notAfter: string) returns (r: Check)
    ensures r.Pass? <==>
      !exists j, i :: 0 <= j <= i < |names| && names[j] == notAfter && names[i] == stepName
    ensures r.Fail? ==> r.error.AppearedAfter? && r.error.name == stepName && r.error.notAfter == notAfter
    ensures r.Fail? ==>
      var i := r.error.index; var j := r.error.afterIndex;
      j <= i < |names| && names[i] == stepName && names[j] == notAfter &&
      (forall m :: j < m <= i ==> names[m] != notAfter) &&
      (forall m, n :: 0 <= n <= m < i && names[m] == stepName ==> names[n] != notAfter)
  {
    var afterIdx: Option<nat> := None;
    var i := 0;
    while i < |names|
      invariant 0 <= i <= |names|
      invariant afterIdx.None? ==> forall m :: 0 <= m < i ==> names[m] != notAfter
      invariant afterIdx.Some? ==> afterIdx.value < i && names[afterIdx.value] == notAfter
      invariant afterIdx.Some? ==> forall m :: afterIdx.value < m < i ==> names[m] != notAfter
      invariant forall m, n :: 0 <= n <= m < i && names[m] == stepName ==> names[n] != notAfter
    {
      var name := names[i];
      if name == notAfter {
        afterIdx := Some(i);
      }
      if name == stepName && afterIdx.Some? {
        return Fail(AppearedAfter(stepName, i, notAfter, afterIdx.value));
      }
      i := i + 1;
    }
    return Pass;
  }

  // ---------------------------------------------------------------------------
  // Step count assertions
  // ---------------------------------------------------------------------------

  /** `max_steps`: at most `maximum` steps. */
  function MaxSteps(trace: Trace, maximum: int): (r: Check)
    reads trace
    ensures r.Pass? <==> |trace.steps| <= maximum
    ensures r.Fail? ==> r == Fail(TooManySteps(maximum, |trace.steps|))
  {
    if |trace.steps| > maximum then Fail(TooManySteps(maximum, |trace.steps|)) else Pass
  }

  /** `min_steps`: at least `minimum` steps. */
  function MinSteps(trace: Trace, minimum: int): (r: Check)
    reads trace
    ensures r.Pass? <==> |trace.steps| >= minimum
    ensures r.Fail? ==> r == Fail(TooFewSteps(minimum, |trace.steps|))
  {
    if |trace.steps| < minimum then Fail(TooFewSteps(minimum, |trace.steps|)) else Pass
  }

  /** Both bounds pass together exactly when the count lies in the interval. */
  lemma StepBounds(trace: Trace, minimum: int, maximum: int)
    ensures MinSteps(trace, minimum).Pass? && MaxSteps(trace, maximum).Pass? <==> minimum <= |trace.steps| <= maximum
  {
  }

  // ---------------------------------------------------------------------------
  // Status assertions
  // ---------------------------------------------------------------------------

  /** `no_errors`: no step failed; on failure every failed step is reported, in order. */
  function NoErrors(trace: Trace): (r: Check)
    reads trace
    ensures r.Pass? <==> forall i :: 0 <= i < |trace.steps| ==> !trace.steps[i].Failed()
    ensures r.Fail? ==> r == Fail(StepsFailed(FailedSteps(trace.steps))) && FailedSteps(trace.steps) != []
  {
    var failed := FailedSteps(trace.steps);
    assert failed != [] <==> HasFailures(trace.steps) by {
      assert forall i :: 0 <= i < |trace.steps| && trace.steps[i].Failed() ==> multiset(failed)[trace.steps[i]] > 0;
      if failed != [] {
        assert multiset(failed)[failed[0]] > 0;
      }
    }
    if failed != [] then Fail(StepsFailed(failed)) else Pass
  }

  /** `step_succeeded`: the first step with that name exists and succeeded. */
  function StepSucceeded(trace: Trace, name: string): (r: Check)
    reads trace
    ensures r == Fail(StepNotFound(name)) <==> FirstNamed(trace.steps, name).None?
    ensures r.Pass? <==> FirstNamed(trace.steps, name).Some? && FirstNamed(trace.steps, name).value.Succeeded()
    ensures r.Fail? && FirstNamed(trace.steps, name).Some? ==> r == Fail(DidNotSucceed(FirstNamed(trace.steps, name).value))
  {
    match FirstNamed(trace.steps, name)
    case None => Fail(StepNotFound(name))
    case Some(step) => if !step.Succeeded() then Fail(DidNotSucceed(step)) else Pass
  }

  /** `step_failed`: the first step with that name exists and failed. */
  function StepFailed(trace: Trace, name: string): (r: Check)
    reads trace
    ensures r == Fail(StepNotFound(name)) <==> FirstNamed(trace.steps, name).None?
    ensures r.Pass? <==> FirstNamed(trace.steps, name).Some? && FirstNamed(trace.steps, name).value.Failed()
    ensures r.Fail? && FirstNamed(trace.steps, name).Some? ==> r == Fail(DidNotFail(FirstNamed(trace.steps, name).value))
  {
    match FirstNamed(trace.steps, name)
    case None => Fail(StepNotFound(name))
    case Some(step) => if !step.Failed() then Fail(DidNotFail(step)) else Pass
  }

  /** At most one of `step_succeeded` and `step_failed` passes for a name, and
      one does unless the step is missing or skipped. */
  lemma SucceededOrFailed(trace: Trace, name: string)
    ensures !(StepSucceeded(trace, name).Pass? && StepFailed(trace, name).Pass?)
    ensures FirstNamed(trace.steps, name).Some? && FirstNamed(trace.steps, name).value.status != Skipped ==>
      StepSucceeded(trace, name).Pass? || StepFailed(trace, name).Pass?
  {
  }

  // ---------------------------------------------------------------------------
  // Custom assertions
  // ---------------------------------------------------------------------------

  /** `step_matches`: the first step with that name exists and satisfies the predicate. */
  function StepMatches(trace: Trace, name: string, predicate_: Step -> bool, message: string): (r: Check)
    reads trace
    ensures r.Pass? <==> FirstNamed(trace.steps, name).Some? && predicate_(FirstNamed(trace.steps, name).value)
    ensures r == Fail(StepNotFound(name)) <==> FirstNamed(trace.steps, name).None?
    ensures r.Fail? && FirstNamed(trace.steps, name).Some? ==>
      r == Fail(StepDidNotMatch(FirstNamed(trace.steps, name).value, CustomMessage(message)))
  {
    match FirstNamed(trace.steps, name)
    case None => Fail(StepNotFound(name))
    case Some(step) => if !predicate_(step) then Fail(StepDidNotMatch(step, CustomMessage(message))) else Pass
  }

  /** `trace_matches`: the trace satisfies the predicate. */
  function TraceMatches(trace: Trace, predicate_: TraceData -> bool, message: string): (r: Check)
    reads trace
    ensures r.Pass? <==> predicate_(trace.Data())
    ensures r.Fail? ==> r == Fail(TraceDidNotMatch(CustomMessage(message)))
  {
    if !predicate_(trace.Data()) then Fail(TraceDidNotMatch(CustomMessage(message))) else Pass
  }

  // ---------------------------------------------------------------------------
  // Repetition
  // ---------------------------------------------------------------------------

  predicate IsCallOf(s: Step, tool: string)
  {
    s.stepType == ToolCall && s.name == tool
  }

  /** `steps[j..j+k]` are all calls of `tool`: a run of `k` adjacent calls. */
  predicate RunAt(steps: seq<Step>, tool: string, j: nat, k: nat)
  {
    j + k <= |steps| && forall m :: j <= m < j + k ==> IsCallOf(steps[m], tool)
  }

  /** The shortest run that breaks the limit: more than `maxRepeats`, and at least one. */
  function Excess(maxRepeats: int): nat
  {
    if maxRepeats < 0 then 1 else maxRepeats + 1
  }

  /** `no_repeated_tool_calls`: no run of adjacent calls of `tool` longer than
      `maxRepeats`; any other step, of any kind, ends a run. */
  method NoRepeatedToolCalls(trace: Trace, tool: string, maxRepeats: int) returns (r: Check)
    ensures r.Pass? <==> !exists j: nat :: RunAt(trace.steps, tool, j, Excess(maxRepeats))
    ensures r.Fail? ==> r == Fail(RepeatedCalls(tool, Excess(maxRepeats), maxRepeats))
  {
    var steps := trace.steps;
    var limit := Excess(maxRepeats);
    var consecutive: nat := 0;
    var i := 0;
    while i < |steps|
      invariant 0 <= i <= |steps|
      invariant consecutive <= i && consecutive < limit
      invariant forall m :: i - consecutive <= m < i ==> IsCallOf(steps[m], tool)
      invariant consecutive < i ==> !IsCallOf(steps[i - consecutive - 1], tool)
      invariant forall j: nat :: j + limit <= i ==> !RunAt(steps, tool, j, limit)
    {
      var step := steps[i];
      if step.stepType == ToolCall && step.name == tool {
        consecutive := consecutive + 1;
        if consecutive > maxRepeats {
          assert consecutive == limit;
          assert RunAt(steps, tool, i + 1 - limit, limit);
          return Fail(RepeatedCalls(tool, consecutive, maxRepeats));
        }
      } else {
        consecutive := 0;
      }
      assert forall j: nat :: j + limit == i + 1 ==> !RunAt(steps, tool, j, limit);
      i := i + 1;
    }
    return Pass;
  }
}
