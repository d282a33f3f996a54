# agentval core, modelled in Dafny

agentval records what an AI agent did as a **trace**. A trace is an ordered list of
**steps**: LLM calls, tool calls, handoffs, decisions, errors and custom steps. Each
step has a status (success, failed or skipped), an input and output payload, and an
optional parent step.

This project models four parts of the library:
- **capture**: building traces, either with a context manager or with decorators that
  record a wrapped call as a step.
- **analysis**: finding the **root cause** of a failed step, plus warning heuristics for
  loops and for very long traces.
- **assertions**: checks over a finished trace that a test suite runs.
- **dictionary form**: converting steps and traces to and from plain dictionaries, with
  a proved round trip.

Modules:
- `Wrappers`: `Option`, `Result` and `Outcome` (pass, or fail with an error).
- `Values`: the dynamically typed payload values (`Str`, `Int`, `Bool`, `Null`, `List`,
  `Map`), and `Payload`, a string-keyed map of them.
- `Sequences`: the generic subsequence relation `IsSubseq` and a stable `Filter`, with
  the lemmas behind the greedy left-to-right search in `step_order`.
- `Types` (`types.py`):
  - the step and status enumerations and the `Step` record;
  - the `Trace` class, whose `steps` and `endTime` change in place;
  - the trace queries;
  - the dictionary encoding and decoding.
- `Capture` (`capture.py`):
  - the stack of active traces, as class `ActiveTraces`;
  - `record_step`;
  - the tool and LLM wrappers;
  - the `capture` scope. Its `with` body is modelled as a script of actions, run by
    method `Capture` and proved equal to the reference function `Script`.
- `Analysis` (`analysis.py`):
  - the backward data-dependency walk;
  - root-cause reports;
  - loop and step-count warnings;
  - `analyze`.
- `Assertions` (`assertions.py`): each check (`tool_called`, `step_order`, ...) returns `Pass` or
  `Fail(reason)`, where the Python code returns `None` or raises
  `AgentAssertionError`. No check changes the trace: each is a function, or a method
  without a `modifies` clause.

Three things the Python code reads from the environment become explicit parameters:
- the clock (`now`, `clock`, a wrapped call's `elapsed` time);
- fresh identifiers, which `uuid4` supplies in the source (`freshId`, `freshTraceId`,
  `freshStepId`);
- a wrapped function's behaviour: its result or the exception it raises (`CallOutcome`).

## Model

| member | source | states |
|---|---|---|
| Types.ParseStepType | src/agentval/types.py:14-21 | a tag maps to a step type exactly when it is that type's string value; `None` exactly when no type has that value |
| Types.ParseStepStatus | src/agentval/types.py:24-29 | a tag maps to a status exactly when it is that status's string value; otherwise `None` |
| Types.FailedSucceededExclusive | src/agentval/types.py:53-59 | the `failed` and `succeeded` properties (`Step.Failed`, `Step.Succeeded`): no step is both, and a skipped step is neither |
| Types.StepNames | src/agentval/types.py:104-106 | one name per step, in step order |
| Types.FailedSteps | src/agentval/types.py:96-98 | an order-preserving subsequence of the steps holding every failed step with its multiplicity and nothing else |
| Types.HasFailures | src/agentval/types.py:100-102 | true exactly when some step has failed |
| Types.ToolCalls | src/agentval/types.py:108-110 | the order-preserving subsequence of exactly the tool-call steps, multiplicities kept |
| Types.LlmCalls | src/agentval/types.py:112-114 | the order-preserving subsequence of exactly the LLM-call steps |
| Types.FindSteps | src/agentval/types.py:126-128 | the order-preserving subsequence of exactly the steps with the given name |
| Types.FindStepsByType | src/agentval/types.py:130-132 | the order-preserving subsequence of exactly the steps of the given type |
| Types.GetChildren | src/agentval/types.py:138-140 | the order-preserving subsequence of exactly the steps whose parent id is the given one |
| Types.FirstIndexNamed | src/agentval/types.py:119-124 | `None` exactly when no step has the name; otherwise the index of the first step with that name |
| Types.FirstNamed | src/agentval/types.py:119-124 | `None` exactly when no step has the name; otherwise a step of the trace with that name, none earlier having it |
| Types.FirstNamedIsHeadOfFindSteps | src/agentval/types.py:119-128 | `find_step` returns the head of `find_steps`, or `None` when that list is empty |
| Types.Trace.constructor | src/agentval/types.py:83-88 | a new trace has no steps, no end time, and the given id, name, start time and metadata |
| Types.Trace.FromData | src/agentval/types.py:159-163 | a trace built from its dictionary-level content has exactly that content |
| Types.Trace.AddStep | src/agentval/types.py:116-117 | appends the step at the end; the earlier steps are unchanged |
| Types.Trace.FindStep | src/agentval/types.py:119-124 | the loop returns the first step with the name, i.e. the head of `FindSteps`, or `None` when there is none |
| Types.StepToDict | src/agentval/types.py:61-65 | the dictionary has exactly the eleven field keys of a step |
| Types.StepFromDict | src/agentval/types.py:67-72 | a missing `step_type` is an error; a missing `status` decodes as success; a decoded type or status is the one its tag names; no unknown key is accepted; a present `name` is the step's name; a missing timestamp or id takes the clock or a fresh id |
| Types.StepFromDictExact | src/agentval/types.py:67-72 | `from_dict` returns step `s` exactly when the dictionary describes `s`. That means: only step keys; a string `name` and a known `step_type` tag; and each other field either present with `s`'s value or absent with `s` holding the default (`"success"`, empty payloads, no error or parent, the clock, duration 0, the fresh id). Every other dictionary is rejected |
| Types.StepFromDictSound | src/agentval/types.py:67-72 | every decoded step is described by the dictionary it came from: present fields are read, absent ones defaulted |
| Types.StepFromDictComplete | src/agentval/types.py:67-72 | every dictionary that describes a step decodes to that step |
| Types.StepRoundTrip | src/agentval/types.py:61-72 | decoding an encoded step gives the same step back |
| Types.TraceToDict | src/agentval/types.py:142-150 | the dictionary has exactly the six trace keys, and one step entry per step |
| Types.StepDicts | src/agentval/types.py:149 | one dictionary per step |
| Types.StepsFromList | src/agentval/types.py:162 | a successful decode gives one step per dictionary |
| Types.StepsFromListExact | src/agentval/types.py:162 | the list decodes to `steps` exactly when the lists have the same length and each entry is a dictionary that decodes to the step at its position, each drawing the fresh id for its position. The first entry that fails makes the whole decode fail |
| Types.DecodesEachCons | src/agentval/types.py:162 | a list decodes entry by entry: the head to the first step, the rest to the remaining steps with the next fresh ids |
| Types.IteratedSteps | src/agentval/types.py:162 | iterating `steps`: a list gives its entries, and an empty string or mapping gives none. A non-empty string or mapping yields entries that are not step dictionaries, and a number, boolean or null cannot be iterated; all of these are rejected |
| Types.TraceFromDict | src/agentval/types.py:159-163 | only trace keys are accepted; a missing `steps` gives no steps; a missing id, name or end time takes the fresh id, `""` or `None` |
| Types.TraceHeaderFromDict | src/agentval/types.py:159-163 | the decoded trace keeps exactly the given steps |
| Types.TraceHeaderFromDictExact | src/agentval/types.py:159-163 | the constructor call returns trace `t` exactly when `t` has the given steps and the dictionary describes `t`'s header. That means: only trace keys besides `steps`, and each of id, name, start time, end time and metadata either present with `t`'s value or absent with the default (the fresh id, `""`, the clock, no end time, an empty payload) |
| Types.TraceFromDictExact | src/agentval/types.py:159-163 | `from_dict` returns trace `t` exactly when `steps` is absent or iterable, its entries decode one by one to `t`'s steps, and the rest of the dictionary describes `t`'s header |
| Types.StepsRoundTrip | src/agentval/types.py:149-162 | decoding the encoded step list gives the steps back |
| Types.HeaderRoundTrip | src/agentval/types.py:142-163 | decoding an encoded trace header gives the header back |
| Types.TraceRoundTrip | src/agentval/types.py:142-163 | `from_dict(to_dict(t))` is `t` |
| Capture.InstrumentedName | src/agentval/capture.py:85 | the step name is the decorator's name argument when that is a non-empty string (`name or func.__name__`), and the function's own name otherwise |
| Capture.CallInput | src/agentval/capture.py:93-97 | the wrapped step's input has exactly the keys `args` and `kwargs`, holding the positional arguments as a list and the keyword arguments as a mapping |
| Capture.WrappedStep | src/agentval/capture.py:93-111 | a wrapped call's step has the instrumented name and kind, `{"args", "kwargs"}` as input, and `{"result": v}` with success when the call returns; on a raise it has empty output, failed status and the exception text as error; it always has the start time and elapsed duration |
| Capture.Script | src/agentval/capture.py:30-36 | a scope body never moves the clock back. It adds at most one step per record or wrapped call, plus the steps of the wrapped functions' own code |
| Capture.ResumeStep | src/agentval/capture.py:30-36 | running the rest of a scope body is running its first action, then the remainder |
| Capture.ActionRun | src/agentval/capture.py:53-111 | one action never moves the clock back. A record adds at most one step, a wrapped call one plus the steps of its own code, a caught block the steps of its body, and a nested scope or raise none |
| Capture.CallRun | src/agentval/capture.py:88-111 | a wrapped call's step goes after every step its own code recorded, since `add_step` runs in `finally`. The step has the call's name, kind, input and id. Its time stamp is the start time and its duration covers the inner code. A raise, from the inner code or the function itself, propagates and leaves a failed step with that error. On return the step holds `{"result": v}` with success |
| Capture.CaughtFailureContinues | src/agentval/capture.py:88-111 | a block under `try: ... except Exception: pass` keeps the steps it recorded before raising, and the rest of the body runs after it from the clock the block left |
| Capture.CaughtToolFailureRecorded | tests/test_capture.py:52-65 | a tool that raises, called inside a scope under `except`, leaves exactly one failed tool-call step with the exception text, and the scope completes |
| Capture.RecordsAppendInOrder | src/agentval/capture.py:53-111 | a body of `record_step` calls and returning wrapped calls (nested bodies included) completes. It records one step per call, with the same names and types, in the order the calls finish: a wrapped call's step comes after those of its own code |
| Capture.ActionRecordsInOrder | src/agentval/capture.py:53-111 | the same for one action: its steps carry the names and types of its calls in finishing order |
| Capture.ActiveTraces.constructor | src/agentval/capture.py:13 | the active-trace stack starts empty |
| Capture.ActiveTraces.ActiveTrace | src/agentval/capture.py:16-18 | `None` exactly when no trace is active; otherwise the innermost (last pushed) trace |
| Capture.ActiveTraces.Open | src/agentval/capture.py:30-31 | pushes a fresh, empty trace that starts at the current time and has no end time |
| Capture.ActiveTraces.Close | src/agentval/capture.py:34-36 | stamps the given trace's end time with the current clock and pops the top of the stack; the clock is unchanged |
| Capture.ActiveTraces.RecordStep | src/agentval/capture.py:53-68 | `None` exactly when no trace is active. Otherwise the step (`RecordedStep`: the given fields, the current clock as time stamp, duration 0) goes on the end of the innermost trace, and every other trace is unchanged |
| Capture.ActiveTraces.Instrument | src/agentval/capture.py:88-111 | the call's outcome is passed through unchanged, a raise included; the clock advances by the call's duration; when a trace is active, the wrapped step is appended to the innermost trace only |
| Capture.ActiveTraces.TraceTool | src/agentval/capture.py:71-115 | `trace_tool`: as `Instrument`, recording a tool-call step |
| Capture.ActiveTraces.TraceLlm | src/agentval/capture.py:118-152 | `trace_llm`: as `Instrument`, recording an LLM-call step |
| Capture.ActiveTraces.Perform | src/agentval/capture.py:30-68 | running one action inside a scope does what `ActionRun` says to its trace, the clock and the outcome, and leaves the stack as it was |
| Capture.ActiveTraces.Call | src/agentval/capture.py:88-111 | a wrapped call inside a scope runs its own code, then appends to the innermost trace exactly what `CallRun` describes. The clock and the outcome are also as `CallRun` says, and the stack is unchanged |
| Capture.ActiveTraces.Finish | src/agentval/capture.py:98-111 | after the function's own code has run, the clock advances only when it returned. The pending step gets `{"result": v}` and success on a return, and failed status with the exception text on a raise. Its duration runs from the start time, it is appended to the innermost trace, and the outcome goes back to the caller |
| Capture.ActiveTraces.RunBody | src/agentval/capture.py:30-36 | running a body action by action appends exactly `Script`'s steps to the innermost trace, and ends with `Script`'s clock and outcome |
| Capture.ActiveTraces.Capture | src/agentval/capture.py:21-36 | the scope yields a fresh trace with the given name and metadata. Its steps, the outcome and the final clock are those of `Script`. The stack is restored and the end time is set even when the body raises |
| Capture.NestedScopes | src/agentval/capture.py:16-36 | with nested scopes, steps recorded inside the inner scope go only to the inner trace, and steps before and after it go only to the outer one |
| Analysis.BackwardChainMembers | src/agentval/analysis.py:101-120 | the backward walk over a range (`BackwardChain`) yields exactly the failed or empty-output steps in that range |
| Analysis.EmptyOutputCases | src/agentval/analysis.py:79-88 | `_is_empty_output` (`IsEmptyOutput`) holds with no `result`, and with a null result or a zero-length string, list or mapping. It never holds for a number or boolean result (0 and `False` included) or for a non-empty string, list or mapping |
| Analysis.ParentChainMembers | src/agentval/analysis.py:123-132 | the parent scan (`ParentChain`) yields exactly the failed steps whose id is the parent id |
| Analysis.Insert | src/agentval/analysis.py:135 | the result holds exactly the links of the list plus the inserted one |
| Analysis.InsertSorted | src/agentval/analysis.py:135 | inserting into a list sorted by step index keeps it sorted |
| Analysis.InsertStable | src/agentval/analysis.py:135 | insertion keeps the relative order of links with equal step index |
| Analysis.SortByIndex | src/agentval/analysis.py:135 | the result is a permutation of the input |
| Analysis.SortByIndexSorted | src/agentval/analysis.py:135 | the result is sorted by step index |
| Analysis.SortByIndexStable | src/agentval/analysis.py:135 | the sort is stable: links with equal index keep their relative order |
| Analysis.BackwardChainJustified | src/agentval/analysis.py:101-120 | a link comes from the backward walk exactly when it is a justified non-parent link |
| Analysis.ParentChainJustified | src/agentval/analysis.py:122-132 | a link comes from the parent scan exactly when it is a justified parent link |
| Analysis.DataDependencyExact | src/agentval/analysis.py:92-136 | the dependency chain (`DataDependency`) is sorted by step index. A link is in it exactly when it is (a) an earlier failed step, (b) an earlier non-failed step with empty output, or (c) a failed step whose id is the failing step's non-empty parent id |
| Analysis.WalkBack | src/agentval/analysis.py:100-120 | the backward loop over the steps before the failure computes exactly `BackwardChain` |
| Analysis.ScanParents | src/agentval/analysis.py:122-132 | the parent loop appends exactly `ParentChain` to the links found so far |
| Analysis.FindDataDependency | src/agentval/analysis.py:92-136 | the two loops and the sort compute exactly `DataDependency` |
| Analysis.RootCauseShape | src/agentval/analysis.py:170-209 | the report (`RootCause`) for the failed step: the chain is the dependencies plus a final link for the failed step. The root is the chain's first link, a real step of the trace. With no dependency, the summary is "no upstream cause" and the root is the failed step itself. Otherwise the root is a justified link with the smallest index |
| Analysis.AnalyzeRootCause | src/agentval/analysis.py:170-209 | builds exactly the report `RootCause` describes |
| Analysis.ToolNamesMembers | src/agentval/analysis.py:145-146 | a name appears exactly when some tool-call step has it |
| Analysis.ToolNamesSnoc | src/agentval/analysis.py:145-146 | one more step adds its name at the end exactly when it is a tool call |
| Analysis.TrailingRunShape | src/agentval/analysis.py:147-151 | the trailing run is all one name, and the element before it is a different name |
| Analysis.LatestRunIsLastMaximalRun | src/agentval/analysis.py:145-151 | for every tool name called, the recorded count is the length of that name's last maximal consecutive run, and it is positive |
| Analysis.FirstSeen | src/agentval/analysis.py:148-153 | the dictionary's key order: each name once, exactly the names that occur |
| Analysis.FirstSeenOrder | src/agentval/analysis.py:148-153 | the keys are ordered by first occurrence: an earlier key was first seen earlier |
| Analysis.FirstSeenPair | src/agentval/analysis.py:148-153 | for two positions of the key order, the earlier key's first occurrence comes first |
| Analysis.Render | src/agentval/analysis.py:153-155 | a warning is produced exactly for each key whose count is at least 3 |
| Analysis.RenderOrder | src/agentval/analysis.py:153-155 | with distinct keys, the warnings follow the key order: an earlier warning's tool comes earlier in it |
| Analysis.RenderPair | src/agentval/analysis.py:153-155 | for two positions of the warnings, their tools differ and keep their key-order positions |
| Analysis.LoopWarnings | src/agentval/analysis.py:139-157 | a loop warning names tool T with count c exactly when T was called as a tool, c is T's latest consecutive-run length, and c >= 3 |
| Analysis.LoopWarningsOrder | src/agentval/analysis.py:139-157 | each tool gets at most one warning, and the warnings come in the order in which the tools were first called |
| Analysis.ScanStep | src/agentval/analysis.py:146-151 | one step of the loop keeps the ordered keys and the dictionary's keys equal |
| Analysis.Scan | src/agentval/analysis.py:145-151 | after the loop the ordered keys are exactly the dictionary's keys |
| Analysis.ScanSnoc | src/agentval/analysis.py:145-151 | scanning one more name is one more loop step |
| Analysis.LatestRunSnoc | src/agentval/analysis.py:147-151 | how one more tool call changes each name's latest run |
| Analysis.FirstSeenSnoc | src/agentval/analysis.py:148-151 | a new name is added at the end of the key order; a repeated one leaves it as it was |
| Analysis.ScanCountsSnoc | src/agentval/analysis.py:145-151 | after one more name, a key is counted exactly when it has occurred, with the length of its latest run |
| Analysis.ScanFromNothing | src/agentval/analysis.py:142-151 | the counting loop (with no previous name) yields first-seen key order and the latest run of each name |
| Analysis.ScanStartIrrelevant | src/agentval/analysis.py:143 | the initial `last_name` does not matter unless the first tool call's name equals it |
| Analysis.ScanKeysOccur | src/agentval/analysis.py:145-151 | whatever the initial `last_name`, only names that occur are counted |
| Analysis.DetectLoopsAsWritten | src/agentval/analysis.py:139-157 | the loops as written warn only about tools that were called, each with a count of at least 3 |
| Analysis.AsWrittenAgreesUnlessEmptyFirstName | src/agentval/analysis.py:139-157 | the loops as written (`DetectLoopsAsWritten`) agree with `LoopWarnings` unless the first tool call is named `""` |
| Analysis.EmptyNameCountedFromTwo | src/agentval/analysis.py:143-148 | two tool calls named `""` give a loop warning with count 3 as written, and no warning in the corrected model |
| Analysis.CountCall | src/agentval/analysis.py:146-151 | one pass of the counting loop's body is one step of the scan |
| Analysis.CountStep | src/agentval/analysis.py:145-151 | one pass of the counting loop over any step: a tool call is one scan step, and any other step changes nothing |
| Analysis.CountRuns | src/agentval/analysis.py:142-151 | the counting loop computes the scan's dictionary and key order, with the corrected start (no previous name) |
| Analysis.ReportRuns | src/agentval/analysis.py:153-155 | the reporting loop computes exactly `Render` of the key order and the counts |
| Analysis.DetectLoops | src/agentval/analysis.py:139-157 | both loops together, with the corrected start, compute exactly `LoopWarnings` |
| Analysis.DetectHighStepCount | src/agentval/analysis.py:160-167 | at most one warning. It appears exactly when the trace has more steps than the threshold, and carries the step count and the threshold |
| Analysis.FailedBelow | src/agentval/analysis.py:218-220 | the failed indices below a bound, in ascending order, each in range and failed, none missed |
| Analysis.FailedIndices | src/agentval/analysis.py:218-220 | every index listed is a failed step, and every failed step is listed |
| Analysis.RootCausesBelowAt | src/agentval/analysis.py:217-220 | the reports gathered over the first n steps are one `RootCause` per failed index below n, in order |
| Analysis.CollectRootCauses | src/agentval/analysis.py:217-220 | the loop yields one report per failed step, in step order, each the `RootCause` of that step |
| Analysis.Analyze | src/agentval/analysis.py:212-228 | one report per failed step, in step order, each `RootCause` of that step. `has_failures` (`AnalysisReport.HasFailures`) holds exactly when some step failed. The warnings are the corrected loop warnings followed by the step-count warning at threshold 20 |
| Assertions.CallsNamed | src/agentval/assertions.py:37 | the calls considered are exactly the tool-call steps with the name, each as often as it occurs |
| Assertions.CallsNamedCount | src/agentval/assertions.py:37 | the number of matching tool calls equals an independent count |
| Assertions.ToolCalled | src/agentval/assertions.py:29-49 | passes exactly when the tool was called and, if `times` is given, exactly that many times. Fails with "never called" exactly when the count is 0, and otherwise with the expected and actual counts |
| Assertions.ToolNotCalled | src/agentval/assertions.py:52-60 | passes exactly when the tool was never called; otherwise reports the count |
| Assertions.ToolCalledIffNotToolNotCalled | src/agentval/assertions.py:29-60 | `tool_called` without `times` passes exactly when `tool_not_called` fails |
| Assertions.KwargsOf | src/agentval/assertions.py:72 | a missing `kwargs` reads as an empty mapping; a mapping is read as it is; any other value is the crash |
| Assertions.KwargsOfCallInput | src/agentval/assertions.py:72 | the keyword arguments read from a wrapped call's step are the ones the wrapper recorded |
| Assertions.CheckCalls | src/agentval/assertions.py:71-79 | passes exactly when some call matches before any call crashes on a non-mapping `kwargs`. Crashes exactly when a crash comes first. Otherwise it fails with the expected arguments |
| Assertions.ToolCalledWith | src/agentval/assertions.py:63-79 | fails with "never called" when the tool has no calls; otherwise it decides as `CheckCalls` does on those calls |
| Assertions.SearchFrom | src/agentval/assertions.py:96-101 | finds the first occurrence at or after the start index, or reports that there is none |
| Assertions.StepOrder | src/agentval/assertions.py:87-109 | passes exactly when the expected names form a subsequence of the step names. On failure it names the first expected entry k where the prefix before k matches and the prefix ending at k does not |
| Assertions.ExactStepOrder | src/agentval/assertions.py:112-119 | passes exactly when the step names equal the expected list; otherwise reports both lists |
| Assertions.SubseqReflexive | src/agentval/assertions.py:87-119 | every name list is in order with itself |
| Assertions.ExactOrderImpliesOrder | src/agentval/assertions.py:87-119 | when `exact_step_order` passes, `step_order` passes too |
| Assertions.ScanNotAfter | src/agentval/assertions.py:129-139 | the loop over the name list: passes exactly when no `step_name` occurs at or after a `not_after`, and on failure reports the first offending index and the latest `not_after` up to it |
| Assertions.StepNotAfter | src/agentval/assertions.py:122-139 | passes exactly when no `step_name` occurs at or after any `not_after`. On failure it reports the first offending index and the latest `not_after` at or before it; that can be the same index when the two names are equal |
| Assertions.MaxSteps | src/agentval/assertions.py:147-153 | passes exactly when the step count is at most the maximum; otherwise reports both numbers |
| Assertions.MinSteps | src/agentval/assertions.py:156-162 | passes exactly when the step count is at least the minimum; otherwise reports both numbers |
| Assertions.StepBounds | src/agentval/assertions.py:147-162 | both checks pass exactly when the count lies between the bounds |
| Assertions.NoErrors | src/agentval/assertions.py:220-228 | passes exactly when no step failed; otherwise reports the non-empty list of failed steps |
| Assertions.StepSucceeded | src/agentval/assertions.py:231-242 | "not found" exactly when no step has the name. Passes exactly when the first such step succeeded; otherwise reports that step |
| Assertions.StepFailed | src/agentval/assertions.py:245-255 | "not found" exactly when no step has the name. Passes exactly when the first such step failed; otherwise reports that step |
| Assertions.SucceededOrFailed | src/agentval/assertions.py:231-255 | the two checks never both pass. Exactly one passes when the first step with the name is not skipped |
| Assertions.StepMatches | src/agentval/assertions.py:263-276 | "not found" exactly when no step has the name. Passes exactly when the predicate holds of the first such step. Otherwise it reports that step and the custom message, an empty message meaning the default |
| Assertions.TraceMatches | src/agentval/assertions.py:279-283 | passes exactly when the predicate holds of the trace; otherwise reports the custom message |
| Assertions.NoRepeatedToolCalls | src/agentval/assertions.py:286-299 | passes exactly when no run of consecutive calls to the tool is longer than `max_repeats` (for a negative value, exactly when the tool is never called). On failure it reports the first excess count |
| Sequences.Filter | src/agentval/types.py:96-140 | the comprehension `[s for s in xs if p(s)]` gives an order-preserving subsequence with exactly the satisfying elements and their multiplicities |
| Sequences.GreedyAdvance | src/agentval/assertions.py:96-101 | taking the first match of the next expected name loses no possible subsequence match |
| Sequences.GreedyMiss | src/agentval/assertions.py:102-109 | when the next expected name does not occur after the last match, the expected list is not a subsequence |
| Sequences.IndexOf | src/agentval/analysis.py:148-153 | the position of the first occurrence of an element |
| Sequences.IndexOfAppend | src/agentval/analysis.py:148-153 | appending to a sequence leaves the first occurrence of an element already in it where it was |

## Left out

- `output_contains` and `output_matches` (src/agentval/assertions.py:170-212) are not
  modelled. They depend on Python's `str()` rendering of arbitrary values and on
  regular-expression matching.
- Message text is not modelled: `__str__` of reports, the wording of assertion
  messages, and the reason and summary strings. Reports carry structured tags instead
  (`Reason`, `Summary`, `AssertionFailure`, `Warning`) that hold the same data.
- JSON text, `to_json`/`from_json`, `save`/`from_file`, and file I/O in general are
  left out. Only the dictionary form is modelled.
- Floating-point times are modelled as naturals. Timestamps and durations are
  abstract `nat` clock readings, so `Trace.duration_ms` and the `* 1000` conversion
  are left out.
- `time.time()` and `uuid4` are not modelled. They become parameters: the clock, and
  supplied fresh ids.
- Concurrency is not modelled. The active-trace stack is a single global list in the
  source and has no thread safety.
- The `with` body of `capture` is modelled as a script of `Action`s. An action can
  record a step, call a wrapped tool or LLM, open a nested scope, run a block under
  `try: ... except Exception: pass`, or raise. A wrapped call carries its function's
  own code as an inner script, followed by the function's return or raise. A wrapped
  call outside any scope is `Instrument` with no trace active: it only passes the
  outcome through. Arbitrary Python code inside the scope is not modelled.
- Exceptions that do not derive from `Exception` (such as `KeyboardInterrupt`) are not
  distinguished. A wrapped call either returns or raises, and a raise is recorded as
  a failed step.
- Types.StepFromDict: dictionary fields of the wrong dynamic type (a number where a
  string is expected, say) are rejected as decode errors. Python's dataclass accepts
  them unchecked.
- Types.TraceHeaderFromDict: header fields of the wrong dynamic type (a number as
  `name`, a string or negative number as `start_time`) are rejected as decode errors.
  `Trace(**data)` accepts them unchecked. The same holds for Types.TraceFromDict.
- Types.TraceFromDict: an unknown key is a decode error. In Python it makes
  `Trace(**data)` raise `TypeError`, which the model does not distinguish from other
  decode failures.
- Assertions.ToolCalledWith: payload equality is structural. Python's cross-type
  equalities such as `True == 1` and `1 == 1.0` are not modelled.
- Analysis.AnalyzeRootCause: requires an index within range. Python also accepts
  negative indices, counted from the end, and raises `IndexError` beyond the range.
- `Trace.get_step_at`, `__len__`, `__getitem__` and `__iter__` are plain sequence
  access: `t.steps[i]` and `|t.steps|`.
- The framework adapters, the pytest plugin and the package `__init__` are not part
  of this model.

## Findings

| source | as written | input that shows it | evidently intended | confidence | as-written member | corrected member |
|---|---|---|---|---|---|---|
| src/agentval/analysis.py:143-148 | `last_name` starts as `""`, so a first tool call named `""` counts as a repeat and starts at 2 | a trace of two tool-call steps, both named `""` | each name's run starts at 1. Two calls make a run of 2, and no loop warning is due | not executed | Analysis.DetectLoopsAsWritten, Analysis.EmptyNameCountedFromTwo | Analysis.DetectLoops, Analysis.LoopWarnings, Analysis.CountRuns, Analysis.Analyze |

Loop warnings follow the code. For each tool name, the code keeps only the length of the
*latest* consecutive run. A later, shorter run of calls to the same tool therefore
overwrites an earlier run of three or more, and no warning is given for the earlier run.
`Analysis.LoopWarnings` states this behaviour as it is written.
