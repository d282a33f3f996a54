/** The capture engine: a last-in-first-out stack of active traces, scoped
    capture that always seals and pops its trace, step recording into the
    innermost trace, and call instrumentation (src/agentval/capture.py). */
module Capture {
  import opened Wrappers
  import opened Values
  import opened Types

  /** What an instrumented callable did: returned a value, or raised an
      exception whose text is the string. */
  type CallOutcome = Result<Value, string>

  /** One invocation of an instrumented callable: the name given to the
      decorator (if any), the function's own name, the actual arguments, how
      the function's own code ends (returns a value or raises) and the time it
      takes, and the fresh id for its step. */
  datatype WrappedCall = WrappedCall(
    nameOverride: Option<string>,
    funcName: string,
    args: seq<Value>,
    kwargs: Payload,
    outcome: CallOutcome,
    elapsed: nat,
    stepId: string)

  /** `name or func.__name__`: an empty override counts as no override. */
  function InstrumentedName(nameOverride: Option<string>, funcName: string): (r: string)
    ensures r == funcName || (nameOverride == Some(r) && r != "")
    ensures nameOverride.Some? && nameOverride.value != "" ==> r == nameOverride.value
  {
    if nameOverride.Some? && nameOverride.value != "" then nameOverride.value else funcName
  }

  /** The input payload of an instrumented call. */
  function CallInput(args: seq<Value>, kwargs: Payload): (r: Payload)
    ensures r.Keys == {"args", "kwargs"}
    ensures r["args"].List? && r["args"].items == args
    ensures r["kwargs"].Map? && r["kwargs"].entries == kwargs
  {
    map["args" := List(args), "kwargs" := Map(kwargs)]
  }

  /** The step a wrapper builds before calling the function: name, kind and
      input, with the defaults for everything else. */
  function PendingStep(kind: StepType, c: WrappedCall, start: nat): Step
  {
    Step(InstrumentedName(c.nameOverride, c.funcName), kind, CallInput(c.args, c.kwargs),
         map[], Success, None, start, 0, map[], None, c.stepId)
  }

  /** The step an instrumented call appends when it started at `start`: built
      before the call, then completed from its outcome. */
  function WrappedStep(kind: StepType, c: WrappedCall, start: nat): (s: Step)
    ensures s.name == InstrumentedName(c.nameOverride, c.funcName) && s.stepType == kind
    ensures s.input == CallInput(c.args, c.kwargs)
    ensures c.outcome.Ok? ==> s.output == map["result" := c.outcome.value] && s.status == Success && s.error == None
    ensures c.outcome.Err? ==> s.output == map[] && s.Failed() && s.error == Some(c.outcome.error)
    ensures s.timestamp == start && s.durationMs == c.elapsed && s.stepId == c.stepId
  {
    var pre := PendingStep(kind, c, start);
    var done := match c.outcome
      case Ok(v) => pre.(output := map["result" := v], status := Success)
      case Err(e) => pre.(status := Failed, error := Some(e));
    done.(durationMs := c.elapsed)
  }

  /** The step `record_step` builds at time `now`. */
  function RecordedStep(name: string, stepType: StepType, input: Payload, output: Payload,
                        status: StepStatus, error: Option<string>, metadata: Payload,
                        parentId: Option<string>, stepId: string, now: nat): Step
  {
    Step(name, stepType, input, output, status, error, now, 0, metadata, parentId, stepId)
  }

  /** What code inside a capture scope does, in order: record a step; call a
      function decorated with `trace_tool` or `trace_llm`, whose own code runs
      `inner` before it returns or raises as `call.outcome` says; open a nested
      capture scope; run code under `try: ... except Exception: pass`; or raise. */
  datatype Action =
    | Record(name: string, stepType: StepType, input: Payload, output: Payload, status: StepStatus,
             error: Option<string>, metadata: Payload, parentId: Option<string>, stepId: string)
    | CallTool(call: WrappedCall, inner: seq<Action>)
    | CallLlm(call: WrappedCall, inner: seq<Action>)
    | Nested(scopeName: string, scopeMetadata: Payload, traceId: string, body: seq<Action>)
    | Catch(body: seq<Action>)
    | Raise(message: string)

  /** The effect of running a scope's code: the steps it appends to the
      scope's own trace, the clock afterwards, and whether it ended normally
      or with an exception propagating out. */
  datatype ScopeRun = ScopeRun(steps: seq<Step>, clock: nat, outcome: Outcome<string>)

  /** The most steps code can append to its scope's own trace: one per record
      and per wrapped call, counting the code inside wrapped calls and `try`
      blocks, and nothing inside nested scopes. */
  function StepBound(body: seq<Action>): nat
    decreases body
  {
    if body == [] then 0 else ActionBound(body[0]) + StepBound(body[1..])
  }

  function ActionBound(a: Action): nat
    decreases a
  {
    match a
    case Record(_, _, _, _, _, _, _, _, _) => 1
    case CallTool(_, inner) => 1 + StepBound(inner)
    case CallLlm(_, inner) => 1 + StepBound(inner)
    case Nested(_, _, _, _) => 0
    case Catch(inner) => StepBound(inner)
    case Raise(_) => 0
  }

  /** Reference semantics of a capture scope's code started at `clock`. Steps of a
      nested scope go to the nested trace, so they are not in the result; the
      first exception that nothing catches ends the code. */
  function Script(body: seq<Action>, clock: nat): (r: ScopeRun)
    ensures r.clock >= clock
    ensures |r.steps| <= StepBound(body)
    decreases body, 0
  {
    if body == [] then ScopeRun([], clock, Pass)
    else
      var head := ActionRun(body[0], clock);
      if head.outcome.Fail? then head
      else
        var tail := Script(body[1..], head.clock);
        ScopeRun(head.steps + tail.steps, tail.clock, tail.outcome)
  }

  /** A wrapped call started at `start`, once its function's own code has run
      with effect `run`: the steps recorded inside the call come first and the
      call's own step last, as the wrapper appends it in its `finally` block.
      An exception from the inner code propagates out of the call and is what
      the step records; otherwise the function then takes `c.elapsed` and ends
      as `c.outcome` says. The step's duration covers the whole call. */
  function CallRun(kind: StepType, c: WrappedCall, start: nat, run: ScopeRun): (r: ScopeRun)
    requires start <= run.clock
    ensures |r.steps| == |run.steps| + 1 && r.steps[..|run.steps|] == run.steps
    ensures var s := r.steps[|run.steps|];
      s.name == InstrumentedName(c.nameOverride, c.funcName) && s.stepType == kind &&
      s.input == CallInput(c.args, c.kwargs) && s.stepId == c.stepId &&
      s.timestamp == start && s.durationMs == r.clock - start
    ensures run.outcome.Fail? ==>
      r.outcome == run.outcome && r.clock == run.clock &&
      r.steps[|run.steps|].Failed() && r.steps[|run.steps|].error == Some(run.outcome.error)
    ensures run.outcome.Pass? ==>
      r.clock == run.clock + c.elapsed && (r.outcome.Pass? <==> c.outcome.Ok?) &&
      (c.outcome.Ok? ==> r.steps[|run.steps|].output == map["result" := c.outcome.value] &&
                         r.steps[|run.steps|].status == Success) &&
      (c.outcome.Err? ==> r.outcome == Fail(c.outcome.error) && r.steps[|run.steps|].Failed() &&
                          r.steps[|run.steps|].error == Some(c.outcome.error))
  {
    var raised := run.outcome.Fail?;
    var seen := if raised then c.(outcome := Err(run.outcome.error)) else c;
    var end := if raised then run.clock else run.clock + c.elapsed;
    ScopeRun(run.steps + [WrappedStep(kind, seen.(elapsed := end - start), start)], end,
             if seen.outcome.Ok? then Pass else Fail(seen.outcome.error))
  }

  /** The steps of a wrapped call's own code stay in front of its step,
      whatever they are. */
  lemma CallRunSplit(kind: StepType, c: WrappedCall, start: nat, run: ScopeRun)
    requires start <= run.clock
    ensures var alone := CallRun(kind, c, start, ScopeRun([], run.clock, run.outcome));
      CallRun(kind, c, start, run) == ScopeRun(run.steps + alone.steps, alone.clock, alone.outcome)
  { }

  /** Reference semantics of one action. */
  function ActionRun(a: Action, clock: nat): (r: ScopeRun)
    ensures r.clock >= clock
    ensures |r.steps| <= ActionBound(a)
    decreases a
  {
    match a
    case Record(name, stepType, input, output, status, error, metadata, parentId, stepId) =>
      ScopeRun([RecordedStep(name, stepType, input, output, status, error, metadata, parentId, stepId, clock)],
               clock, Pass)
    case CallTool(c, inner) =>
      CallRun(ToolCall, c, clock, Script(inner, clock))
    case CallLlm(c, inner) =>
      CallRun(LlmCall, c, clock, Script(inner, clock))
    case Nested(_, _, _, inner) =>
      var run := Script(inner, clock);
      ScopeRun([], run.clock, run.outcome)
    case Catch(inner) =>
      var run := Script(inner, clock);
      ScopeRun(run.steps, run.clock, Pass)
    case Raise(message) =>
      ScopeRun([], clock, Fail(message))
  }

  /** The run of a scope whose code has recorded `done` by time `now` with
      outcome `o`, and has `rest` still to run. */
  function Resume(done: seq<Step>, now: nat, o: Outcome<string>, rest: seq<Action>): ScopeRun
  {
    if o.Fail? then ScopeRun(done, now, o)
    else
      var r := Script(rest, now);
      ScopeRun(done + r.steps, r.clock, r.outcome)
  }

  /** Running the next action of the code advances `Resume`. */
  lemma ResumeStep(done: seq<Step>, now: nat, rest: seq<Action>)
    requires rest != []
    ensures var h := ActionRun(rest[0], now);
      Resume(done, now, Pass, rest) == Resume(done + h.steps, h.clock, h.outcome, rest[1..])
  {
    var h := ActionRun(rest[0], now);
    if h.outcome.Pass? {
      var tail := Script(rest[1..], h.clock);
      assert done + (h.steps + tail.steps) == (done + h.steps) + tail.steps;
    }
  }

  /** An exception caught by `try: ... except Exception: pass` does not end the
      scope: what the guarded code recorded, the failed call's step included,
      stays on the trace, and the rest of the code runs. */
  lemma CaughtFailureContinues(guarded: seq<Action>, rest: seq<Action>, clock: nat)
    ensures var g := Script(guarded, clock); var r := Script([Catch(guarded)] + rest, clock);
      r.steps == g.steps + Script(rest, g.clock).steps && r.outcome == Script(rest, g.clock).outcome
  {
    assert ([Catch(guarded)] + rest)[0] == Catch(guarded);
    assert ([Catch(guarded)] + rest)[1..] == rest;
  }

  /** A tool that raises, called under `try`, leaves its one failed step with
      the exception text as error, and the scope ends normally. */
  lemma CaughtToolFailureRecorded(c: WrappedCall, clock: nat)
    requires c.outcome.Err?
    ensures var r := Script([Catch([CallTool(c, [])])], clock);
      r.outcome == Pass && |r.steps| == 1 && r.steps[0].Failed() &&
      r.steps[0].error == Some(c.outcome.error) && r.steps[0].stepType == ToolCall
  {
    var call := ActionRun(CallTool(c, []), clock);
    assert Script([], clock) == ScopeRun([], clock, Pass);
    assert call.steps[0].error == Some(c.outcome.error);
    assert Script([CallTool(c, [])], clock) == call;
  }

  /** Code that runs to its end: it raises nowhere, and every wrapped function
      it calls, at any depth, returns. */
  predicate Completes(body: seq<Action>)
    decreases body
  {
    body == [] || (ActionCompletes(body[0]) && Completes(body[1..]))
  }

  predicate ActionCompletes(a: Action)
    decreases a
  {
    match a
    case Record(_, _, _, _, _, _, _, _, _) => true
    case CallTool(c, inner) => c.outcome.Ok? && Completes(inner)
    case CallLlm(c, inner) => c.outcome.Ok? && Completes(inner)
    case Nested(_, _, _, inner) => Completes(inner)
    case Catch(inner) => Completes(inner)
    case Raise(_) => false
  }

  /** The name and type of each step the code writes to its scope's own trace,
      in the order the source appends them: a record's own step; the steps
      inside a wrapped call, then the call's step; nothing from a nested scope. */
  function Recorded(body: seq<Action>): seq<(string, StepType)>
    decreases body
  {
    if body == [] then [] else ActionRecorded(body[0]) + Recorded(body[1..])
  }

  function ActionRecorded(a: Action): seq<(string, StepType)>
    decreases a
  {
    match a
    case Record(name, stepType, _, _, _, _, _, _, _) => [(name, stepType)]
    case CallTool(c, inner) => Recorded(inner) + [(InstrumentedName(c.nameOverride, c.funcName), ToolCall)]
    case CallLlm(c, inner) => Recorded(inner) + [(InstrumentedName(c.nameOverride, c.funcName), LlmCall)]
    case Nested(_, _, _, _) => []
    case Catch(inner) => Recorded(inner)
    case Raise(_) => []
  }

  /** The name and type of each step. */
  function Signatures(steps: seq<Step>): (r: seq<(string, StepType)>)
    ensures |r| == |steps|
  {
    if steps == [] then [] else [(steps[0].name, steps[0].stepType)] + Signatures(steps[1..])
  }

  lemma {:induction false} SignaturesAppend(a: seq<Step>, b: seq<Step>)
    ensures Signatures(a + b) == Signatures(a) + Signatures(b)
    decreases |a|
  {
    if a == [] {
      assert a + b == b;
    } else {
      assert (a + b)[0] == a[0] && (a + b)[1..] == a[1..] + b;
      SignaturesAppend(a[1..], b);
    }
  }

  /** Code that runs to its end ends normally, and writes to its scope's trace
      exactly the steps `Recorded` lists, with those names and types, in that
      order: in particular one step per `record_step` call, in call order, and
      the steps recorded inside a wrapped call before the call's own step. */
  lemma {:induction false} RecordsAppendInOrder(body: seq<Action>, clock: nat)
    requires Completes(body)
    ensures Script(body, clock).outcome == Pass
    ensures Signatures(Script(body, clock).steps) == Recorded(body)
    decreases body, 0
  {
    if body != [] {
      var head := ActionRun(body[0], clock);
      ActionRecordsInOrder(body[0], clock);
      RecordsAppendInOrder(body[1..], head.clock);
      SignaturesAppend(head.steps, Script(body[1..], head.clock).steps);
    }
  }

  lemma {:induction false} ActionRecordsInOrder(a: Action, clock: nat)
    requires ActionCompletes(a)
    ensures ActionRun(a, clock).outcome == Pass
    ensures Signatures(ActionRun(a, clock).steps) == ActionRecorded(a)
    decreases a
  {
    match a
    case Record(_, _, _, _, _, _, _, _, _) =>
    case CallTool(c, inner) =>
      RecordsAppendInOrder(inner, clock);
      var run := Script(inner, clock);
      var r := ActionRun(a, clock);
      assert r.steps == run.steps + [r.steps[|run.steps|]];
      SignaturesAppend(run.steps, [r.steps[|run.steps|]]);
    case CallLlm(c, inner) =>
      RecordsAppendInOrder(inner, clock);
      var run := Script(inner, clock);
      var r := ActionRun(a, clock);
      assert r.steps == run.steps + [r.steps[|run.steps|]];
      SignaturesAppend(run.steps, [r.steps[|run.steps|]]);
    case Nested(_, _, _, inner) =>
      RecordsAppendInOrder(inner, clock);
    case Catch(inner) =>
      RecordsAppendInOrder(inner, clock);
    case Raise(_) =>
  }

  /** The process-wide stack of active traces, with the clock that stamps
      steps and traces. */
  class ActiveTraces {
    var stack: seq<Trace>
    var clock: nat

    /** Every trace is on the stack at most once. */
    ghost predicate Valid()
      reads this
    {
      forall i, j :: 0 <= i < j < |stack| ==> stack[i] != stack[j]
    }

    /** The stack at program start: empty. */
    constructor (clock: nat)
      ensures Valid() && stack == [] && this.clock == clock
    {
      stack := [];
      this.clock := clock;
    }

    /** `get_active_trace`: the last-pushed trace, or none when the stack is empty. */
    function ActiveTrace(): (r: Option<Trace>)
      reads this
      ensures r.None? <==> stack == []
      ensures r.Some? ==> r.value == stack[|stack| - 1]
    {
      if stack == [] then None else Some(stack[|stack| - 1])
    }

    /** Opening a capture scope: a new, empty trace pushed on the stack. */
    method Open(name: string, metadata: Payload, traceId: string) returns (t: Trace)
      requires Valid()
      modifies this
      ensures Valid() && fresh(t)
      ensures stack == old(stack) + [t] && clock == old(clock)
      ensures t.Data() == TraceData([], traceId, name, clock, None, metadata)
    {
      t := new Trace(traceId, name, clock, metadata);
      stack := stack + [t];
    }

    /** Closing a capture scope: the trace is sealed with the current time and
      the top of the stack is popped. */
    method Close(t: Trace)
      requires Valid() && stack != []
      modifies this, t`endTime
      ensures Valid()
      ensures stack == old(stack)[..|old(stack)| - 1] && clock == old(clock)
      ensures t.endTime == Some(clock)
    {
      t.endTime := Some(clock);
      stack := stack[..|stack| - 1];
    }

    /** `record_step`: with no active trace nothing is recorded; otherwise one
      step with the given fields is appended to the innermost trace only. */
    method RecordStep(name: string, stepType: StepType, input: Payload, output: Payload,
                      status: StepStatus, error: Option<string>, metadata: Payload,
                      parentId: Option<string>, stepId: string) returns (r: Option<Step>)
      requires Valid()
      modifies (if stack == [] then {} else {stack[|stack| - 1]})`steps
      ensures r.None? <==> stack == []
      ensures r.Some? ==> r.value == RecordedStep(name, stepType, input, output, status, error, metadata, parentId, stepId, clock)
      ensures r.Some? ==> stack[|stack| - 1].steps == old(stack[|stack| - 1].steps) + [r.value]
      ensures forall i :: 0 <= i < |stack| - 1 ==> stack[i].steps == old(stack[i].steps)
    {
      var active := ActiveTrace();
      if active.None? {
        return None;
      }
      var step := RecordedStep(name, stepType, input, output, status, error, metadata, parentId, stepId, clock);
      active.value.AddStep(step);
      return Some(step);
    }

    /** One call through `trace_tool` or `trace_llm`: the outcome is passed on
      unchanged; with an active trace, exactly one step describing the call is
      appended to it, whichever way the call ended. */
    method Instrument(kind: StepType, c: WrappedCall) returns (r: CallOutcome)
      requires Valid()
      modifies this, (if stack == [] then {} else {stack[|stack| - 1]})`steps
      ensures Valid() && stack == old(stack) && clock == old(clock) + c.elapsed
      ensures r == c.outcome
      ensures stack != [] ==> stack[|stack| - 1].steps == old(stack[|stack| - 1].steps) + [WrappedStep(kind, c, old(clock))]
      ensures forall i :: 0 <= i < |stack| - 1 ==> stack[i].steps == old(stack[i].steps)
    {
      var active := ActiveTrace();
      if active.None? {
        clock := clock + c.elapsed;
        return c.outcome;
      }
      var _ := Call(active.value, kind, c, []);
      r := c.outcome;
    }

    /** A call through a function decorated with `trace_tool`. */
    method TraceTool(c: WrappedCall) returns (r: CallOutcome)
      requires Valid()
      modifies this, (if stack == [] then {} else {stack[|stack| - 1]})`steps
      ensures Valid() && stack == old(stack) && clock == old(clock) + c.elapsed
      ensures r == c.outcome
      ensures stack != [] ==> stack[|stack| - 1].steps == old(stack[|stack| - 1].steps) + [WrappedStep(ToolCall, c, old(clock))]
      ensures forall i :: 0 <= i < |stack| - 1 ==> stack[i].steps == old(stack[i].steps)
    {
      r := Instrument(ToolCall, c);
    }

    /** A call through a function decorated with `trace_llm`. */
    method TraceLlm(c: WrappedCall) returns (r: CallOutcome)
      requires Valid()
      modifies this, (if stack == [] then {} else {stack[|stack| - 1]})`steps
      ensures Valid() && stack == old(stack) && clock == old(clock) + c.elapsed
      ensures r == c.outcome
      ensures stack != [] ==> stack[|stack| - 1].steps == old(stack[|stack| - 1].steps) + [WrappedStep(LlmCall, c, old(clock))]
      ensures forall i :: 0 <= i < |stack| - 1 ==> stack[i].steps == old(stack[i].steps)
    {
      r := Instrument(LlmCall, c);
    }

    /** One action of a scope's code, run while `t` is the innermost trace. */
    method Perform(t: Trace, a: Action) returns (outcome: Outcome<string>)
      requires Valid() && stack != [] && stack[|stack| - 1] == t
      modifies this, t`steps
      decreases a
      ensures Valid() && stack == old(stack)
      ensures t.steps == old(t.steps) + ActionRun(a, old(clock)).steps
      ensures clock == ActionRun(a, old(clock)).clock
      ensures outcome == ActionRun(a, old(clock)).outcome
    {
      outcome := Pass;
      match a {
        case Record(n, k, input, output, status, error, md, parentId, stepId) =>
          var _ := RecordStep(n, k, input, output, status, error, md, parentId, stepId);
        case CallTool(c, inner) =>
          outcome := Call(t, ToolCall, c, inner);
        case CallLlm(c, inner) =>
          outcome := Call(t, LlmCall, c, inner);
        case Nested(n, md, id, inner) =>
          var _, r := Capture(n, md, id, inner);
          outcome := r;
        case Catch(inner) =>
          var _ := RunBody(t, inner);
        case Raise(message) =>
          outcome := Fail(message);
      }
    }

    /** A call through a decorated function while `t` is the innermost trace:
      the step is built before the call, the function's own code runs and
      records its steps, and the finished step is appended last, whether the
      call returned or raised. */
    method Call(t: Trace, kind: StepType, c: WrappedCall, inner: seq<Action>) returns (outcome: Outcome<string>)
      requires Valid() && stack != [] && stack[|stack| - 1] == t
      modifies this, t`steps
      decreases inner, 1
      ensures Valid() && stack == old(stack)
      ensures var r := CallRun(kind, c, old(clock), Script(inner, old(clock)));
        t.steps == old(t.steps) + r.steps && clock == r.clock && outcome == r.outcome
    {
      var start := clock;
      var step := PendingStep(kind, c, start);
      var ran := RunBody(t, inner);
      outcome := Finish(t, kind, c, start, step, ran);
      CallRunSplit(kind, c, start, Script(inner, start));
    }

    /** The rest of a wrapper once the function's own code has run with
      outcome `ran`: the clock advances when it returned, the pending step
      is completed from the outcome and appended, and the outcome is
      passed on. */
    method Finish(t: Trace, kind: StepType, c: WrappedCall, start: nat, step: Step, ran: Outcome<string>)
      returns (outcome: Outcome<string>)
      requires Valid() && stack != [] && stack[|stack| - 1] == t
      requires start <= clock && step == PendingStep(kind, c, start)
      modifies this, t`steps
      ensures Valid() && stack == old(stack)
      ensures var r := CallRun(kind, c, start, ScopeRun([], old(clock), ran));
        t.steps == old(t.steps) + r.steps && clock == r.clock && outcome == r.outcome
    {
      var result: CallOutcome := c.outcome;
      if ran.Fail? {
        result := Err(ran.error);
      } else {
        clock := clock + c.elapsed;
      }
      var done := step;
      match result {
        case Ok(v) =>
          done := done.(output := map["result" := v], status := Success);
        case Err(e) =>
          done := done.(status := Failed, error := Some(e));
      }
      done := done.(durationMs := clock - start);
      t.AddStep(done);
      outcome := if result.Ok? then Pass else Fail(result.error);
    }

    /** Code run while `t` is the innermost trace: the actions one after the
      other, until the first exception that nothing catches. */
    method RunBody(t: Trace, body: seq<Action>) returns (outcome: Outcome<string>)
      requires Valid() && stack != [] && stack[|stack| - 1] == t
      modifies this, t`steps
      decreases body, 0
      ensures Valid() && stack == old(stack)
      ensures t.steps == old(t.steps) + Script(body, old(clock)).steps
      ensures clock == Script(body, old(clock)).clock
      ensures outcome == Script(body, old(clock)).outcome
    {
      ghost var total := Resume(t.steps, clock, Pass, body);
      outcome := Pass;
      var i := 0;
      while i < |body| && outcome.Pass?
        invariant 0 <= i <= |body|
        invariant Valid() && stack == old(stack)
        invariant Resume(t.steps, clock, outcome, body[i..]) == total
        decreases |body| - i
      {
        assert body[i..][0] == body[i] && body[i..][1..] == body[i + 1..];
        ResumeStep(t.steps, clock, body[i..]);
        outcome := Perform(t, body[i]);
        i := i + 1;
      }
      assert t.steps + [] == t.steps;
    }

    /** `with capture(name, metadata) as t: body`. A new trace is pushed; the
      body runs against it; on every exit, normal or by an exception, the
      trace is sealed and popped, and the exception continues outward. The
      trace holds exactly the steps the body recorded outside nested scopes,
      and no trace that existed before changes. */
    method Capture(name: string, metadata: Payload, traceId: string, body: seq<Action>)
      returns (t: Trace, outcome: Outcome<string>)
      requires Valid()
      modifies this
      decreases body, 1
      ensures Valid() && fresh(t)
      ensures stack == old(stack)
      ensures t.traceId == traceId && t.name == name && t.metadata == metadata
      ensures t.startTime == old(clock)
      ensures t.steps == Script(body, old(clock)).steps
      ensures outcome == Script(body, old(clock)).outcome
      ensures clock == Script(body, old(clock)).clock
      ensures t.endTime == Some(clock) && t.startTime <= clock
    {
      t := Open(name, metadata, traceId);
      outcome := RunBody(t, body);
      assert [] + t.steps == t.steps;
      Close(t);
    }
  }

  /** Nested scopes as a caller writes them: steps recorded while the inner
      scope is open land only in the inner trace, and after it closes steps
      land in the outer trace again. */
  method NestedScopes() returns (outer: Trace, inner: Trace)
    ensures StepNames(outer.steps) == ["outer_step", "outer_step_2"]
    ensures StepNames(inner.steps) == ["inner_step"]
  {
    var engine := new ActiveTraces(0);
    outer := engine.Open("outer", map[], "outer_id");
    var _ := engine.RecordStep("outer_step", ToolCall, map[], map[], Success, None, map[], None, "s1");
    inner := engine.Open("inner", map[], "inner_id");
    var _ := engine.RecordStep("inner_step", ToolCall, map[], map[], Success, None, map[], None, "s2");
    engine.Close(inner);
    var _ := engine.RecordStep("outer_step_2", ToolCall, map[], map[], Success, None, map[], None, "s3");
    engine.Close(outer);
  }
}
