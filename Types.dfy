/** The trace data model: steps, traces, the read-only query surface over a
    trace's steps, and the dictionary form of both (src/agentval/types.py). */
module Types {
  import opened Wrappers
  import opened Values
  import opened Sequences

  /** The closed set of step kinds. */
  datatype StepType = LlmCall | ToolCall | Handoff | Decision | Error | Custom

  /** The closed set of step outcomes. */
  datatype StepStatus = Success | Failed | Skipped

  /** The string each step kind is persisted as. */
  function StepTypeValue(t: StepType): string
  {
    match t
    case LlmCall => "llm_call"
    case ToolCall => "tool_call"
    case Handoff => "handoff"
    case Decision => "decision"
    case Error => "error"
    case Custom => "custom"
  }

  /** The string each status is persisted as. */
  function StepStatusValue(s: StepStatus): string
  {
    match s
    case Success => "success"
    case Failed => "failed"
    case Skipped => "skipped"
  }

  /** Enum lookup by value: `StepType(v)`, which rejects anything that is not one of the six strings. */
  function ParseStepType(v: Value): (r: Option<StepType>)
    ensures r.Some? ==> v == Str(StepTypeValue(r.value))
    ensures r.None? ==> forall t :: v != Str(StepTypeValue(t))
  {
    if v == Str("llm_call") then Some(LlmCall)
    else if v == Str("tool_call") then Some(ToolCall)
    else if v == Str("handoff") then Some(Handoff)
    else if v == Str("decision") then Some(Decision)
    else if v == Str("error") then Some(Error)
    else if v == Str("custom") then Some(Custom)
    else None
  }

  /** Enum lookup by value: `StepStatus(v)`. */
  function ParseStepStatus(v: Value): (r: Option<StepStatus>)
    ensures r.Some? ==> v == Str(StepStatusValue(r.value))
    ensures r.None? ==> forall s :: v != Str(StepStatusValue(s))
  {
    if v == Str("success") then Some(Success)
    else if v == Str("failed") then Some(Failed)
    else if v == Str("skipped") then Some(Skipped)
    else None
  }

  /** One recorded action. Timestamps and durations are opaque naturals;
      `stepId` comes from a fresh-id source outside the model. */
  datatype Step = Step(
    name: string,
    stepType: StepType,
    input: Payload,
    output: Payload,
    status: StepStatus,
    error: Option<string>,
    timestamp: nat,
    durationMs: nat,
    metadata: Payload,
    parentId: Option<string>,
    stepId: string)
  {
    predicate Failed() { status == StepStatus.Failed }

    predicate Succeeded() { status == StepStatus.Success }
  }

  /** A step is never both failed and succeeded, and a skipped step is neither. */
  lemma FailedSucceededExclusive(s: Step)
    ensures !(s.Failed() && s.Succeeded())
    ensures s.status == Skipped ==> !s.Failed() && !s.Succeeded()
  {
  }

  // ---------------------------------------------------------------------------
  // Query surface: pure projections over a trace's steps
  // ---------------------------------------------------------------------------

  predicate IsToolCall(s: Step) { s.stepType == ToolCall }

  predicate IsLlmCall(s: Step) { s.stepType == LlmCall }

  predicate IsFailed(s: Step) { s.Failed() }

  /** The names of the steps, in trace order. */
  function StepNames(steps: seq<Step>): (r: seq<string>)
    ensures |r| == |steps|
    ensures forall i :: 0 <= i < |steps| ==> r[i] == steps[i].name
  {
    if steps == [] then [] else [steps[0].name] + StepNames(steps[1..])
  }

  /** The failed steps, in trace order. */
  function FailedSteps(steps: seq<Step>): (r: seq<Step>)
    ensures IsSubseq(r, steps)
    ensures forall s :: multiset(r)[s] == if s.Failed() then multiset(steps)[s] else 0
  {
    Filter(steps, IsFailed)
  }

  /** Some step failed. */
  function HasFailures(steps: seq<Step>): (r: bool)
    ensures r <==> exists i :: 0 <= i < |steps| && steps[i].Failed()
  {
    var failed := Filter(steps, IsFailed);
    assert forall i :: 0 <= i < |steps| && steps[i].Failed() ==> steps[i] in failed;
    |failed| > 0
  }

  /** The tool-call steps, in trace order. */
  function ToolCalls(steps: seq<Step>): (r: seq<Step>)
    ensures IsSubseq(r, steps)
    ensures forall s :: multiset(r)[s] == if s.stepType == ToolCall then multiset(steps)[s] else 0
  {
    Filter(steps, IsToolCall)
  }

  /** The LLM-call steps, in trace order. */
  function LlmCalls(steps: seq<Step>): (r: seq<Step>)
    ensures IsSubseq(r, steps)
    ensures forall s :: multiset(r)[s] == if s.stepType == LlmCall then multiset(steps)[s] else 0
  {
    Filter(steps, IsLlmCall)
  }

  /** All steps with the given name, in trace order. */
  function FindSteps(steps: seq<Step>, name: string): (r: seq<Step>)
    ensures IsSubseq(r, steps)
    ensures forall s :: multiset(r)[s] == if s.name == name then multiset(steps)[s] else 0
  {
    Filter(steps, (s: Step) => s.name == name)
  }

  /** All steps of the given kind, in trace order. */
  function FindStepsByType(steps: seq<Step>, stepType: StepType): (r: seq<Step>)
    ensures IsSubseq(r, steps)
    ensures forall s :: multiset(r)[s] == if s.stepType == stepType then multiset(steps)[s] else 0
  {
    Filter(steps, (s: Step) => s.stepType == stepType)
  }

  /** All steps whose parent is the given step id, in trace order. */
  function GetChildren(steps: seq<Step>, parentId: string): (r: seq<Step>)
    ensures IsSubseq(r, steps)
    ensures forall s :: multiset(r)[s] == if s.parentId == Some(parentId) then multiset(steps)[s] else 0
  {
    Filter(steps, (s: Step) => s.parentId == Some(parentId))
  }

  /** The index of the first step with the given name, if any. */
  function FirstIndexNamed(steps: seq<Step>, name: string): (r: Option<nat>)
    ensures r.None? <==> forall i :: 0 <= i < |steps| ==> steps[i].name != name
    ensures r.Some? ==> r.value < |steps| && steps[r.value].name == name
    ensures r.Some? ==> forall j :: 0 <= j < r.value ==> steps[j].name != name
  {
    if steps == [] then None
    else if steps[0].name == name then Some(0)
    else match FirstIndexNamed(steps[1..], name)
      case None => None
      case Some(i) => Some(i + 1)
  }

  /** The first step with the given name, if any: what `find_step` returns. */
  function FirstNamed(steps: seq<Step>, name: string): (r: Option<Step>)
    ensures r.None? <==> forall i :: 0 <= i < |steps| ==> steps[i].name != name
    ensures r.Some? ==> exists i :: 0 <= i < |steps| && steps[i] == r.value && steps[i].name == name &&
                                    forall j :: 0 <= j < i ==> steps[j].name != name
  {
    match FirstIndexNamed(steps, name)
    case None => None
    case Some(i) => Some(steps[i])
  }

  /** The first step found by name is the head of the list of all steps with that name. */
  lemma {:induction false} FirstNamedIsHeadOfFindSteps(steps: seq<Step>, name: string)
    ensures FirstNamed(steps, name) == if FindSteps(steps, name) == [] then None else Some(FindSteps(steps, name)[0])
  {
    if steps != [] && steps[0].name != name {
      FirstNamedIsHeadOfFindSteps(steps[1..], name);
      assert FindSteps(steps, name) == FindSteps(steps[1..], name);
      assert FirstNamed(steps, name) == FirstNamed(steps[1..], name);
    }
  }

  // ---------------------------------------------------------------------------
  // The trace object
  // ---------------------------------------------------------------------------

  /** The dictionary-level content of a trace. */
  datatype TraceData = TraceData(
    steps: seq<Step>,
    traceId: string,
    name: string,
    startTime: nat,
    endTime: Option<nat>,
    metadata: Payload)

  /** One execution record. Only `steps` (by appending) and `endTime` (when the
      capture scope closes) change after creation. */
  class Trace {
    var steps: seq<Step>
    const traceId: string
    const name: string
    const startTime: nat
    var endTime: Option<nat>
    const metadata: Payload

    constructor (traceId: string, name: string, startTime: nat, metadata: Payload)
      ensures this.traceId == traceId && this.name == name && this.startTime == startTime
      ensures this.metadata == metadata
      ensures steps == [] && endTime == None
    {
      this.steps := [];
      this.traceId := traceId;
      this.name := name;
      this.startTime := startTime;
      this.endTime := None;
      this.metadata := metadata;
    }

    /** A trace built from decoded dictionary content. */
    constructor FromData(d: TraceData)
      ensures Data() == d
    {
      this.steps := d.steps;
      this.traceId := d.traceId;
      this.name := d.name;
      this.startTime := d.startTime;
      this.endTime := d.endTime;
      this.metadata := d.metadata;
    }

    function Data(): TraceData
      reads this
    {
      TraceData(steps, traceId, name, startTime, endTime, metadata)
    }

    /** Appends one step at the end; nothing else changes. */
    method AddStep(step: Step)
      modifies this`steps
      ensures steps == old(steps) + [step]
      ensures |steps| == |old(steps)| + 1 && steps[..|old(steps)|] == old(steps)
    {
      steps := steps + [step];
    }

    /** The first step with the given name, scanning in trace order. */
    method FindStep(name: string) returns (r: Option<Step>)
      ensures r == FirstNamed(steps, name)
      ensures r.None? <==> FindSteps(steps, name) == []
      ensures r.Some? ==> r.value == FindSteps(steps, name)[0]
    {
      var i := 0;
      while i < |steps|
        invariant 0 <= i <= |steps|
        invariant forall j :: 0 <= j < i ==> steps[j].name != name
      {
        if steps[i].name == name {
          r := Some(steps[i]);
          assert r == FirstNamed(steps, name);
          FirstNamedIsHeadOfFindSteps(steps, name);
          return;
        }
        i := i + 1;
      }
      r := None;
      FirstNamedIsHeadOfFindSteps(steps, name);
    }
  }

  // ---------------------------------------------------------------------------
  // Dictionary form
  // ---------------------------------------------------------------------------

  /** Why a dictionary does not decode to a step or trace. */
  datatype DecodeError =
    | MissingKey(key: string)
    | UnknownStepType(value: Value)
    | UnknownStatus(value: Value)
    | UnexpectedKeys(keys: set<string>)
    | IllTyped(key: string)
    | NotAMapping(position: nat)

  const StepKeys: set<string> :=
    {"name", "step_type", "input", "output", "status", "error", "timestamp",
     "duration_ms", "metadata", "parent_id", "step_id"}

  const TraceKeys: set<string> := {"trace_id", "name", "start_time", "end_time", "metadata", "steps"}

  function OptionalString(o: Option<string>): Value
  {
    match o
    case None => Null
    case Some(s) => Str(s)
  }

  function OptionalNat(o: Option<nat>): Value
  {
    match o
    case None => Null
    case Some(n) => Int(n)
  }

  /** `Step.to_dict`: every field, enums as their string values. */
  function StepToDict(s: Step): (d: Payload)
    ensures d.Keys == StepKeys
  {
    map[
      "name" := Str(s.name),
      "step_type" := Str(StepTypeValue(s.stepType)),
      "input" := Map(s.input),
      "output" := Map(s.output),
      "status" := Str(StepStatusValue(s.status)),
      "error" := OptionalString(s.error),
      "timestamp" := Int(s.timestamp),
      "duration_ms" := Int(s.durationMs),
      "metadata" := Map(s.metadata),
      "parent_id" := OptionalString(s.parentId),
      "step_id" := Str(s.stepId)]
  }

  /** A payload-valued field, `{}` when absent. */
  function PayloadField(d: Payload, key: string): Option<Payload>
  {
    if key !in d then Some(map[])
    else match d[key]
      case Map(m) => Some(m)
      case _ => None
  }

  /** A string-valued field with a default. */
  function StringField(d: Payload, key: string, default: string): Option<string>
  {
    if key !in d then Some(default)
    else match d[key]
      case Str(s) => Some(s)
      case _ => None
  }

  /** A string-or-null field, null when absent. */
  function NullableStringField(d: Payload, key: string): Option<Option<string>>
  {
    if key !in d then Some(None)
    else match d[key]
      case Null => Some(None)
      case Str(s) => Some(Some(s))
      case _ => None
  }

  /** A natural-valued field with a default. */
  function NatField(d: Payload, key: string, default: nat): Option<nat>
  {
    if key !in d then Some(default)
    else match d[key]
      case Int(n) => if n >= 0 then Some(n) else None
      case _ => None
  }

  /** A natural-or-null field, null when absent. */
  function NullableNatField(d: Payload, key: string): Option<Option<nat>>
  {
    if key !in d then Some(None)
    else match d[key]
      case Null => Some(None)
      case Int(n) => if n >= 0 then Some(Some(n)) else None
      case _ => None
  }

  /** A field as `from_dict` reads it: a present key holds `v`; an absent key
      means the constructor's default, whose dictionary form is `default`. */
  predicate Holds(d: Payload, key: string, v: Value, default: Value)
  {
    if key in d then d[key] == v else v == default
  }

  lemma PayloadFieldExact(d: Payload, key: string, m: Payload)
    ensures PayloadField(d, key) == Some(m) <==> Holds(d, key, Map(m), Map(map[]))
  { }

  lemma StringFieldExact(d: Payload, key: string, default: string, x: string)
    ensures StringField(d, key, default) == Some(x) <==> Holds(d, key, Str(x), Str(default))
  { }

  lemma NullableStringFieldExact(d: Payload, key: string, o: Option<string>)
    ensures NullableStringField(d, key) == Some(o) <==> Holds(d, key, OptionalString(o), Null)
  { }

  lemma NatFieldExact(d: Payload, key: string, default: nat, n: nat)
    ensures NatField(d, key, default) == Some(n) <==> Holds(d, key, Int(n), Int(default))
  { }

  lemma NullableNatFieldExact(d: Payload, key: string, o: Option<nat>)
    ensures NullableNatField(d, key) == Some(o) <==> Holds(d, key, OptionalNat(o), Null)
  { }

  /** `d` is the dictionary form of step `s`, field by field: only step keys,
      a name and a step type, and every other field present with `s`'s value
      or absent with `s` holding the default (success, empty payloads, no
      error or parent, the clock `now`, duration 0, the fresh id). */
  predicate DescribesStep(d: Payload, now: nat, freshId: string, s: Step)
  {
    d.Keys <= StepKeys &&
    "name" in d && d["name"] == Str(s.name) &&
    "step_type" in d && d["step_type"] == Str(StepTypeValue(s.stepType)) &&
    Holds(d, "status", Str(StepStatusValue(s.status)), Str("success")) &&
    Holds(d, "input", Map(s.input), Map(map[])) &&
    Holds(d, "output", Map(s.output), Map(map[])) &&
    Holds(d, "error", OptionalString(s.error), Null) &&
    Holds(d, "timestamp", Int(s.timestamp), Int(now)) &&
    Holds(d, "duration_ms", Int(s.durationMs), Int(0)) &&
    Holds(d, "metadata", Map(s.metadata), Map(map[])) &&
    Holds(d, "parent_id", OptionalString(s.parentId), Null) &&
    Holds(d, "step_id", Str(s.stepId), Str(freshId))
  }

  lemma NullableStringOfOptional(d: Payload, key: string, o: Option<string>)
    requires key in d && d[key] == OptionalString(o)
    ensures NullableStringField(d, key) == Some(o)
  { }

  lemma NullableNatOfOptional(d: Payload, key: string, o: Option<nat>)
    requires key in d && d[key] == OptionalNat(o)
    ensures NullableNatField(d, key) == Some(o)
  { }

  /** `Step.from_dict`: the step type is required and must be known, a missing
      status means success, unknown keys and a missing name are rejected, and
      every other field takes the constructor's default (`now` for the
      timestamp, `freshId` for the step id). */
  function StepFromDict(d: Payload, now: nat, freshId: string): (r: Result<Step, DecodeError>)
    ensures "step_type" !in d ==> r == Err(MissingKey("step_type"))
    ensures r.Ok? ==> d["step_type"] == Str(StepTypeValue(r.value.stepType))
    ensures r.Ok? && "status" !in d ==> r.value.status == Success
    ensures r.Ok? && "status" in d ==> d["status"] == Str(StepStatusValue(r.value.status))
    ensures r.Ok? ==> d.Keys <= StepKeys && "name" in d && d["name"] == Str(r.value.name)
    ensures r.Ok? && "step_id" !in d ==> r.value.stepId == freshId
    ensures r.Ok? && "timestamp" !in d ==> r.value.timestamp == now
  {
    if "step_type" !in d then Err(MissingKey("step_type"))
    else
      var stepType := ParseStepType(d["step_type"]);
      var statusValue := if "status" in d then d["status"] else Str("success");
      var status := ParseStepStatus(statusValue);
      if stepType.None? then Err(UnknownStepType(d["step_type"]))
      else if status.None? then Err(UnknownStatus(statusValue))
      else if !(d.Keys <= StepKeys) then Err(UnexpectedKeys(d.Keys - StepKeys))
      else if "name" !in d then Err(MissingKey("name"))
      else if !d["name"].Str? then Err(IllTyped("name"))
      else
        var input := PayloadField(d, "input");
        var output := PayloadField(d, "output");
        var error := NullableStringField(d, "error");
        var timestamp := NatField(d, "timestamp", now);
        var duration := NatField(d, "duration_ms", 0);
        var metadata := PayloadField(d, "metadata");
        var parentId := NullableStringField(d, "parent_id");
        var stepId := StringField(d, "step_id", freshId);
        if input.None? then Err(IllTyped("input"))
        else if output.None? then Err(IllTyped("output"))
        else if error.None? then Err(IllTyped("error"))
        else if timestamp.None? then Err(IllTyped("timestamp"))
        else if duration.None? then Err(IllTyped("duration_ms"))
        else if metadata.None? then Err(IllTyped("metadata"))
        else if parentId.None? then Err(IllTyped("parent_id"))
        else if stepId.None? then Err(IllTyped("step_id"))
        else Ok(Step(d["name"].s, stepType.value, input.value, output.value, status.value,
                     error.value, timestamp.value, duration.value, metadata.value,
                     parentId.value, stepId.value))
  }

  /** `Step.from_dict` decodes `d` to `s` exactly when `d` describes `s`: every
      present field is read, every absent one defaulted, and anything else
      (an unknown key, a missing name or type, an unknown tag, a value of the
      wrong kind) is rejected. */
  lemma StepFromDictExact(d: Payload, now: nat, freshId: string, s: Step)
    ensures StepFromDict(d, now, freshId) == Ok(s) <==> DescribesStep(d, now, freshId, s)
  {
    if StepFromDict(d, now, freshId) == Ok(s) {
      StepFromDictSound(d, now, freshId, s);
    }
    if DescribesStep(d, now, freshId, s) {
      StepFromDictComplete(d, now, freshId, s);
    }
  }

  /** What `Step.from_dict` accepts describes the step it returns. */
  lemma StepFromDictSound(d: Payload, now: nat, freshId: string, s: Step)
    requires StepFromDict(d, now, freshId) == Ok(s)
    ensures DescribesStep(d, now, freshId, s)
  {
    PayloadFieldExact(d, "input", s.input);
    PayloadFieldExact(d, "output", s.output);
    PayloadFieldExact(d, "metadata", s.metadata);
    NullableStringFieldExact(d, "error", s.error);
    NullableStringFieldExact(d, "parent_id", s.parentId);
    NatFieldExact(d, "timestamp", now, s.timestamp);
    NatFieldExact(d, "duration_ms", 0, s.durationMs);
    StringFieldExact(d, "step_id", freshId, s.stepId);
  }

  /** A dictionary that describes a step decodes to that step. */
  lemma StepFromDictComplete(d: Payload, now: nat, freshId: string, s: Step)
    requires DescribesStep(d, now, freshId, s)
    ensures StepFromDict(d, now, freshId) == Ok(s)
  {
    PayloadFieldExact(d, "input", s.input);
    PayloadFieldExact(d, "output", s.output);
    PayloadFieldExact(d, "metadata", s.metadata);
    NullableStringFieldExact(d, "error", s.error);
    NullableStringFieldExact(d, "parent_id", s.parentId);
    NatFieldExact(d, "timestamp", now, s.timestamp);
    NatFieldExact(d, "duration_ms", 0, s.durationMs);
    StringFieldExact(d, "step_id", freshId, s.stepId);
    assert ParseStepType(d["step_type"]) == Some(s.stepType);
    var statusValue := if "status" in d then d["status"] else Str("success");
    assert ParseStepStatus(statusValue) == Some(s.status);
  }

  /** Decoding what `StepToDict` produced gives the step back, whatever the defaults. */
  lemma StepRoundTrip(s: Step, now: nat, freshId: string)
    ensures StepFromDict(StepToDict(s), now, freshId) == Ok(s)
  {
    var d := StepToDict(s);
    assert ParseStepType(d["step_type"]) == Some(s.stepType);
    assert ParseStepStatus(d["status"]) == Some(s.status);
    assert PayloadField(d, "input") == Some(s.input);
    assert PayloadField(d, "output") == Some(s.output);
    assert PayloadField(d, "metadata") == Some(s.metadata);
    NullableStringOfOptional(d, "error", s.error);
    NullableStringOfOptional(d, "parent_id", s.parentId);
    assert NatField(d, "timestamp", now) == Some(s.timestamp);
    assert NatField(d, "duration_ms", 0) == Some(s.durationMs);
    assert StringField(d, "step_id", freshId) == Some(s.stepId);
  }

  /** `Trace.to_dict`. */
  function TraceToDict(t: TraceData): (d: Payload)
    ensures d.Keys == TraceKeys
    ensures d["steps"].List? && |d["steps"].items| == |t.steps|
  {
    map[
      "trace_id" := Str(t.traceId),
      "name" := Str(t.name),
      "start_time" := Int(t.startTime),
      "end_time" := OptionalNat(t.endTime),
      "metadata" := Map(t.metadata),
      "steps" := List(StepDicts(t.steps))]
  }

  /** The dictionary of each step, in trace order. */
  function StepDicts(steps: seq<Step>): (vs: seq<Value>)
    ensures |vs| == |steps|
  {
    if steps == [] then [] else [Map(StepToDict(steps[0]))] + StepDicts(steps[1..])
  }

  /** Decodes the list of step dictionaries; the step at `first + k` gets the
      fresh id `freshStepId(first + k)` if it has none. */
  function StepsFromList(vs: seq<Value>, now: nat, freshStepId: nat -> string, first: nat): (r: Result<seq<Step>, DecodeError>)
    ensures r.Ok? ==> |r.value| == |vs|
    decreases |vs|
  {
    if vs == [] then Ok([])
    else if !vs[0].Map? then Err(NotAMapping(first))
    else match StepFromDict(vs[0].entries, now, freshStepId(first))
      case Err(e) => Err(e)
      case Ok(s) =>
        match StepsFromList(vs[1..], now, freshStepId, first + 1)
        case Err(e) => Err(e)
        case Ok(rest) => Ok([s] + rest)
  }

  /** The step dictionaries a `steps` value iterates over: a list's items; an
      empty string or mapping iterates over nothing. Anything else fails: a
      number, boolean or null is not iterable, and a non-empty string or
      mapping yields strings, which are not step dictionaries. */
  function IteratedSteps(v: Value): (r: Option<seq<Value>>)
    ensures v.List? ==> r == Some(v.items)
    ensures v.Str? || v.Map? ==> (r.Some? <==> v == Str("") || v == Map(map[])) && (r.Some? ==> r.value == [])
    ensures v.Int? || v.Bool? || v.Null? ==> r.None?
  {
    match v
    case List(items) => Some(items)
    case Str(s) => if s == "" then Some([]) else None
    case Map(m) => if m == map[] then Some([]) else None
    case _ => None
  }

  /** `Trace.from_dict`: decodes the steps first (a missing list means no steps),
      then rejects unknown keys; absent header fields take the constructor's defaults. */
  function TraceFromDict(d: Payload, now: nat, freshTraceId: string, freshStepId: nat -> string): (r: Result<TraceData, DecodeError>)
    ensures r.Ok? ==> d.Keys <= TraceKeys
    ensures r.Ok? && "steps" !in d ==> r.value.steps == []
    ensures r.Ok? && "trace_id" !in d ==> r.value.traceId == freshTraceId
    ensures r.Ok? && "name" !in d ==> r.value.name == ""
    ensures r.Ok? && "end_time" !in d ==> r.value.endTime == None
  {
    var raw := if "steps" in d then IteratedSteps(d["steps"]) else Some([]);
    if raw.None? then Err(IllTyped("steps"))
    else
      match StepsFromList(raw.value, now, freshStepId, 0)
      case Err(e) => Err(e)
      case Ok(steps) => TraceHeaderFromDict(d, now, freshTraceId, steps)
  }

  /** The part of `Trace.from_dict` after the steps are decoded: the constructor call. */
  function TraceHeaderFromDict(d: Payload, now: nat, freshTraceId: string, steps: seq<Step>): (r: Result<TraceData, DecodeError>)
    ensures r.Ok? ==> r.value.steps == steps
  {
    var rest := d - {"steps"};
    if !(rest.Keys <= TraceKeys) then Err(UnexpectedKeys(rest.Keys - TraceKeys))
    else
      var traceId := StringField(d, "trace_id", freshTraceId);
      var name := StringField(d, "name", "");
      var startTime := NatField(d, "start_time", now);
      var endTime := NullableNatField(d, "end_time");
      var metadata := PayloadField(d, "metadata");
      if traceId.None? then Err(IllTyped("trace_id"))
      else if name.None? then Err(IllTyped("name"))
      else if startTime.None? then Err(IllTyped("start_time"))
      else if endTime.None? then Err(IllTyped("end_time"))
      else if metadata.None? then Err(IllTyped("metadata"))
      else Ok(TraceData(steps, traceId.value, name.value, startTime.value, endTime.value, metadata.value))
  }

  /** Entry `v` of the step list is a mapping that `Step.from_dict` decodes to `s`. */
  predicate EntryDecodes(v: Value, now: nat, freshId: string, s: Step)
  {
    v.Map? && StepFromDict(v.entries, now, freshId) == Ok(s)
  }

  /** `Step.from_dict` applied to each entry of `vs`, the entry at position
      `first + k` getting the fresh id `freshStepId(first + k)`, turns entry
      `k` into `steps[k]`. */
  predicate DecodesEach(vs: seq<Value>, now: nat, freshStepId: nat -> string, first: nat, steps: seq<Step>)
  {
    |steps| == |vs| &&
    forall k :: 0 <= k < |vs| ==> EntryDecodes(vs[k], now, freshStepId(first + k), steps[k])
  }

  /** The list comprehension over the step dictionaries: it succeeds exactly
      when every entry is a mapping that decodes, and then step `k` is the
      decode of entry `k`; a single bad entry rejects the whole list. */
  lemma {:induction false} StepsFromListExact(vs: seq<Value>, now: nat, freshStepId: nat -> string, first: nat, steps: seq<Step>)
    ensures StepsFromList(vs, now, freshStepId, first) == Ok(steps) <==> DecodesEach(vs, now, freshStepId, first, steps)
    decreases |vs|
  {
    if vs != [] && steps != [] {
      StepsFromListExact(vs[1..], now, freshStepId, first + 1, steps[1..]);
      DecodesEachCons(vs, now, freshStepId, first, steps);
      assert steps == [steps[0]] + steps[1..];
    }
  }

  /** `DecodesEach` of a non-empty list: the head decodes, and so does the rest. */
  lemma DecodesEachCons(vs: seq<Value>, now: nat, freshStepId: nat -> string, first: nat, steps: seq<Step>)
    requires vs != [] && steps != []
    ensures DecodesEach(vs, now, freshStepId, first, steps) <==>
      EntryDecodes(vs[0], now, freshStepId(first), steps[0]) &&
      DecodesEach(vs[1..], now, freshStepId, first + 1, steps[1..])
  {
    if EntryDecodes(vs[0], now, freshStepId(first), steps[0]) &&
       DecodesEach(vs[1..], now, freshStepId, first + 1, steps[1..]) {
      forall k | 0 <= k < |vs|
        ensures EntryDecodes(vs[k], now, freshStepId(first + k), steps[k])
      {
        if k > 0 {
          assert vs[1..][k - 1] == vs[k] && steps[1..][k - 1] == steps[k] && first + 1 + (k - 1) == first + k;
        }
      }
    }
    if DecodesEach(vs, now, freshStepId, first, steps) {
      forall k | 0 <= k < |vs| - 1
        ensures EntryDecodes(vs[1..][k], now, freshStepId(first + 1 + k), steps[1..][k])
      {
        assert vs[1..][k] == vs[k + 1] && steps[1..][k] == steps[k + 1] && first + 1 + k == first + (k + 1);
      }
    }
  }

  lemma {:induction false} StepsRoundTrip(steps: seq<Step>, now: nat, freshStepId: nat -> string, first: nat)
    ensures StepsFromList(StepDicts(steps), now, freshStepId, first) == Ok(steps)
    decreases |steps|
  {
    if steps != [] {
      StepRoundTrip(steps[0], now, freshStepId(first));
      StepsRoundTrip(steps[1..], now, freshStepId, first + 1);
      assert StepDicts(steps)[1..] == StepDicts(steps[1..]);
      assert steps == [steps[0]] + steps[1..];
    }
  }

  lemma HeaderRoundTrip(t: TraceData, now: nat, freshTraceId: string)
    ensures TraceHeaderFromDict(TraceToDict(t), now, freshTraceId, t.steps) == Ok(t)
  {
    var d := TraceToDict(t);
    assert (d - {"steps"}).Keys <= TraceKeys;
    assert StringField(d, "trace_id", freshTraceId) == Some(t.traceId);
    assert StringField(d, "name", "") == Some(t.name);
    assert NatField(d, "start_time", now) == Some(t.startTime);
    NullableNatOfOptional(d, "end_time", t.endTime);
    assert PayloadField(d, "metadata") == Some(t.metadata);
  }

  /** `d` is the dictionary form of trace `t`'s header: apart from `steps`,
      only trace keys, each present with `t`'s value or absent with `t`
      holding the default (the fresh id, `""`, the clock `now`, no end time,
      empty metadata). */
  predicate DescribesHeader(d: Payload, now: nat, freshTraceId: string, t: TraceData)
  {
    (d - {"steps"}).Keys <= TraceKeys &&
    Holds(d, "trace_id", Str(t.traceId), Str(freshTraceId)) &&
    Holds(d, "name", Str(t.name), Str("")) &&
    Holds(d, "start_time", Int(t.startTime), Int(now)) &&
    Holds(d, "end_time", OptionalNat(t.endTime), Null) &&
    Holds(d, "metadata", Map(t.metadata), Map(map[]))
  }

  /** The constructor call `cls(steps=steps, **data)` yields `t` exactly when
      `t` has those steps and `d` describes its header. */
  lemma TraceHeaderFromDictExact(d: Payload, now: nat, freshTraceId: string, steps: seq<Step>, t: TraceData)
    ensures TraceHeaderFromDict(d, now, freshTraceId, steps) == Ok(t) <==>
      t.steps == steps && DescribesHeader(d, now, freshTraceId, t)
  {
    StringFieldExact(d, "trace_id", freshTraceId, t.traceId);
    StringFieldExact(d, "name", "", t.name);
    NatFieldExact(d, "start_time", now, t.startTime);
    NullableNatFieldExact(d, "end_time", t.endTime);
    PayloadFieldExact(d, "metadata", t.metadata);
  }

  /** `Trace.from_dict` decodes `d` to `t` exactly when the `steps` entry
      (none meaning no steps) iterates over dictionaries that decode one by
      one to `t`'s steps, and `d` describes `t`'s header. One bad step
      dictionary rejects the whole trace. */
  lemma TraceFromDictExact(d: Payload, now: nat, freshTraceId: string, freshStepId: nat -> string, t: TraceData)
    ensures TraceFromDict(d, now, freshTraceId, freshStepId) == Ok(t) <==>
      var raw := if "steps" in d then IteratedSteps(d["steps"]) else Some([]);
      raw.Some? && DecodesEach(raw.value, now, freshStepId, 0, t.steps) && DescribesHeader(d, now, freshTraceId, t)
  {
    var raw := if "steps" in d then IteratedSteps(d["steps"]) else Some([]);
    if raw.Some? {
      StepsFromListExact(raw.value, now, freshStepId, 0, t.steps);
      TraceHeaderFromDictExact(d, now, freshTraceId, t.steps, t);
      var decoded := StepsFromList(raw.value, now, freshStepId, 0);
      if decoded.Ok? {
        TraceHeaderFromDictExact(d, now, freshTraceId, decoded.value, t);
      }
    }
  }

  /** Decoding what `TraceToDict` produced reproduces the trace: same steps in the
      same order with the same fields, and the same header. */
  lemma TraceRoundTrip(t: TraceData, now: nat, freshTraceId: string, freshStepId: nat -> string)
    ensures TraceFromDict(TraceToDict(t), now, freshTraceId, freshStepId) == Ok(t)
  {
    StepsRoundTrip(t.steps, now, freshStepId, 0);
    HeaderRoundTrip(t, now, freshTraceId);
  }
}
