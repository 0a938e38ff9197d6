/** `ExecutorAgent`: runs a plan step by step, looking each step's tool up by name and
    recording exactly one success or error per step, in plan order. */
module Executor {
  import opened Wrappers
  import opened Json
  import opened Py
  import opened BaseTool
  import opened Backend

  datatype Outcome = Success(output: Json) | Failure(error: string)

  /** One entry of the result list: the step's own `step` value, its `tool` value and what happened. */
  datatype StepRecord = StepRecord(step: Json, tool: Json, outcome: Outcome)

  /** The record as the dict `run` appends: `step`, `tool`, `status`, then `output` or `error`. */
  function RecordJson(r: StepRecord): (j: Json)
    ensures Get(j, "step") == Some(r.step) && Get(j, "tool") == Some(r.tool)
    ensures Get(j, "status") == Some(JStr(if r.outcome.Success? then "success" else "error"))
    ensures HasKey(j, "output") <==> r.outcome.Success?
    ensures HasKey(j, "error") <==> r.outcome.Failure?
    ensures r.outcome.Success? ==> Get(j, "output") == Some(r.outcome.output)
    ensures r.outcome.Failure? ==> Get(j, "error") == Some(JStr(r.outcome.error))
  {
    var last := match r.outcome
      case Success(v) => ("output", v)
      case Failure(e) => ("error", JStr(e));
    var j := JObj([("step", r.step), ("tool", r.tool), ("status", JStr(if r.outcome.Success? then "success" else "error")), last]);
    LookupFinds(j.fields, "step", 0);
    LookupFinds(j.fields, "tool", 1);
    LookupFinds(j.fields, "status", 2);
    LookupFinds(j.fields, last.0, 3);
    LookupMissing(j.fields, "output");
    LookupMissing(j.fields, "error");
    j
  }

  function RecordsJson(records: seq<StepRecord>): (r: seq<Json>)
    ensures |r| == |records|
    ensures forall i :: 0 <= i < |records| ==> r[i] == RecordJson(records[i])
  {
    seq(|records|, i requires 0 <= i < |records| => RecordJson(records[i]))
  }

  /** `{tool.name: tool for tool in tools}`: later tools overwrite earlier ones of the same name. */
  function ToolMapOf(tools: seq<Tool>): (m: map<string, Tool>)
    ensures forall name :: name in m <==> exists i :: 0 <= i < |tools| && tools[i].name == name
  {
    if tools == [] then map[]
    else
      var m := ToolMapOf(tools[..|tools| - 1]);
      assert forall i :: 0 <= i < |tools| - 1 ==> tools[..|tools| - 1][i] == tools[i];
      m[tools[|tools| - 1].name := tools[|tools| - 1]]
  }

  /** The map holds, for each name, the last tool carrying it. */
  lemma {:induction false} ToolMapLaterWins(tools: seq<Tool>, i: int)
    requires 0 <= i < |tools|
    requires forall j :: i < j < |tools| ==> tools[j].name != tools[i].name
    ensures ToolMapOf(tools)[tools[i].name] == tools[i]
  {
    if i < |tools| - 1 {
      var front := tools[..|tools| - 1];
      assert front[i] == tools[i];
      assert forall j :: i < j < |front| ==> front[j] == tools[j];
      ToolMapLaterWins(front, i);
    }
  }

  /** `step.get("tool")`. */
  function ToolName(step: Json): Json {
    Get(step, "tool").GetOr(JNull)
  }

  /** `step.get("args", {})`. */
  function Args(step: Json): Json {
    Get(step, "args").GetOr(JObj([]))
  }

  /** `step['step']`. */
  function StepId(step: Json): Json {
    Get(step, "step").GetOr(JNull)
  }

  /** The exception a step raises before any record is made for it, outside the `try`:
      `get` on a step that is not a dict, `step['step']` on a dict without it, or a lookup
      of a tool name that cannot be hashed (a list or a dict). */
  function StepFault(step: Json): Option<string> {
    if !step.JObj? then Some(NoAttribute(step, "get"))
    else if !HasKey(step, "step") then Some(ReprString("step"))
    else if ToolName(step).JArr? || ToolName(step).JObj? then Some("unhashable type: '" + TypeName(ToolName(step)) + "'")
    else None
  }

  /** A step gets past that code exactly when it is a dict with a `step` key whose `tool`
      value, if any, is hashable. */
  lemma StepFaultFree(step: Json)
    ensures StepFault(step).None? <==> step.JObj? && HasKey(step, "step") && !ToolName(step).JArr? && !ToolName(step).JObj?
  {
  }

  /** Every step gets past the code outside the `try`. */
  predicate WellFormed(plan: seq<Json>) {
    forall i :: 0 <= i < |plan| ==> StepFault(plan[i]).None?
  }

  /** A plan is well formed when its first step and the rest of it are. */
  lemma WellFormedCons(plan: seq<Json>)
    requires plan != []
    ensures WellFormed(plan) <==> StepFault(plan[0]).None? && WellFormed(plan[1..])
  {
    assert forall i :: 1 <= i < |plan| ==> plan[1..][i - 1] == plan[i];
  }

  /** `tool_map.get(tool_name)`: the keys are strings, so only a string name can match. */
  function Resolve(toolMap: map<string, Tool>, name: Json): (r: Option<Tool>)
    ensures r.Some? <==> name.JStr? && name.s in toolMap
    ensures r.Some? ==> r.value == toolMap[name.s]
  {
    if name.JStr? && name.s in toolMap then Some(toolMap[name.s]) else None
  }

  /** The error recorded for a step whose tool is not in the map. */
  function NotFound(name: Json): (r: string)
    ensures name.JStr? ==> r == "Tool '" + name.s + "' not found."
  {
    "Tool '" + Str(name) + "' not found."
  }

  function OutcomeOf(t: ToolResult): (r: Outcome)
    ensures t.Returned? <==> r.Success?
    ensures t.Returned? ==> r.output == t.value
    ensures t.Raised? ==> r.error == t.message
  {
    match t
    case Returned(v) => Success(v)
    case Raised(m) => Failure(m)
  }

  /** What running a plan produces: the records, the tool invocations made, and the exception
      that stopped the run, if one did (the records are then lost with the exception). */
  datatype Trace = Trace(records: seq<StepRecord>, calls: seq<Invocation>, fault: Option<string>)

  /** `records` and `calls` made first, then the rest of the run. */
  function Then(records: seq<StepRecord>, calls: seq<Invocation>, rest: Trace): Trace {
    Trace(records + rest.records, calls + rest.calls, rest.fault)
  }

  /** What the code before the `try` makes of one step: the exception it raises, a tool name
      missing from the map (with the error to record), or the invocation of the tool found. */
  datatype Dispatch =
    | Faulted(message: string)
    | Missing(id: Json, name: Json, error: string)
    | Found(id: Json, name: Json, invocation: Invocation)

  function DispatchOf(toolMap: map<string, Tool>, step: Json): Dispatch {
    match StepFault(step)
    case Some(m) => Faulted(m)
    case None =>
      match Resolve(toolMap, ToolName(step))
      case None => Missing(StepId(step), ToolName(step), NotFound(ToolName(step)))
      case Some(tool) => Found(StepId(step), ToolName(step), Invocation(tool, Args(step)))
  }

  function Dispatches(toolMap: map<string, Tool>, plan: seq<Json>): (r: seq<Dispatch>)
    ensures |r| == |plan|
    ensures forall i :: 0 <= i < |plan| ==> r[i] == DispatchOf(toolMap, plan[i])
  {
    seq(|plan|, i requires 0 <= i < |plan| => DispatchOf(toolMap, plan[i]))
  }

  /** The invocation a dispatched step makes, if any. */
  function Invoked(d: Dispatch): (r: seq<Invocation>)
    ensures |r| <= 1 && (|r| == 1 <==> d.Found?)
  {
    if d.Found? then [d.invocation] else []
  }

  /** The record a step that got past the preamble leaves, when its invocation (if any) is
      the `n`-th and the `n`-th invocation behaves as `perform(n, ...)`. */
  function RecordOf(d: Dispatch, perform: (nat, Invocation) -> ToolResult, n: nat): StepRecord
    requires !d.Faulted?
  {
    match d
    case Missing(id, name, error) => StepRecord(id, name, Failure(error))
    case Found(id, name, invocation) => StepRecord(id, name, OutcomeOf(perform(n, invocation)))
  }

  /** The steps run in order, until the first exception. */
  function Steps(ds: seq<Dispatch>, perform: (nat, Invocation) -> ToolResult, n: nat): Trace
    decreases |ds|
  {
    if ds == [] then Trace([], [], None)
    else if ds[0].Faulted? then Trace([], [], Some(ds[0].message))
    else Then([RecordOf(ds[0], perform, n)], Invoked(ds[0]), Steps(ds[1..], perform, n + |Invoked(ds[0])|))
  }

  /** `run(plan)`, when the `n`-th tool invocation behaves as `perform(n, ...)`. */
  function Execution(toolMap: map<string, Tool>, plan: seq<Json>, perform: (nat, Invocation) -> ToolResult, n: nat): Trace {
    Steps(Dispatches(toolMap, plan), perform, n)
  }

  /** The invocations the dispatched steps make, in order. */
  function AllInvoked(ds: seq<Dispatch>): seq<Invocation>
    decreases |ds|
  {
    if ds == [] then [] else Invoked(ds[0]) + AllInvoked(ds[1..])
  }

  /** The invocations a plan calls for, independently of what they return: one per step whose
      tool is found, in plan order; steps whose tool is missing invoke nothing. */
  function Calls(toolMap: map<string, Tool>, plan: seq<Json>): seq<Invocation> {
    AllInvoked(Dispatches(toolMap, plan))
  }

  /** The record of a well-formed step whose invocation, if any, is the `n`-th. */
  function StepRecordOf(toolMap: map<string, Tool>, step: Json, perform: (nat, Invocation) -> ToolResult, n: nat): StepRecord
    requires StepFault(step).None?
  {
    RecordOf(DispatchOf(toolMap, step), perform, n)
  }

  /** The record of a well-formed step carries the step's own `step` and `tool` values, then the
      not-found error when the tool is missing (nothing is invoked), or else what invoking the
      tool with the step's arguments gave. */
  lemma StepRecordShape(toolMap: map<string, Tool>, step: Json, perform: (nat, Invocation) -> ToolResult, n: nat)
    requires StepFault(step).None?
    ensures var r := StepRecordOf(toolMap, step, perform, n);
      r.step == StepId(step) && r.tool == ToolName(step) &&
      (Resolve(toolMap, ToolName(step)).None? ==> r.outcome == Failure(NotFound(ToolName(step)))) &&
      (Resolve(toolMap, ToolName(step)).Some? ==>
        r.outcome == OutcomeOf(perform(n, Invocation(Resolve(toolMap, ToolName(step)).value, Args(step)))))
  {
  }

  /** A step without `args` calls its tool with an empty argument mapping. */
  lemma MissingArgsAreEmpty(toolMap: map<string, Tool>, step: Json, perform: (nat, Invocation) -> ToolResult, n: nat)
    requires StepFault(step).None? && !HasKey(step, "args")
    requires Resolve(toolMap, ToolName(step)).Some?
    ensures StepRecordOf(toolMap, step, perform, n).outcome ==
      OutcomeOf(perform(n, Invocation(Resolve(toolMap, ToolName(step)).value, JObj([]))))
  {
    StepRecordShape(toolMap, step, perform, n);
  }

  /** The preamble raises exactly when `StepFault` says so, with its message. */
  lemma DispatchFault(toolMap: map<string, Tool>, step: Json)
    ensures DispatchOf(toolMap, step).Faulted? <==> StepFault(step).Some?
    ensures StepFault(step).Some? ==> DispatchOf(toolMap, step).message == StepFault(step).value
  {
  }

  lemma DispatchesPrefix(toolMap: map<string, Tool>, plan: seq<Json>, k: int)
    requires 0 <= k <= |plan|
    ensures Dispatches(toolMap, plan[..k]) == Dispatches(toolMap, plan)[..k]
  {
  }

  /** A run of dispatched steps stops early exactly when one faulted; otherwise it makes one
      record per step. */
  lemma {:induction false} StepsShape(ds: seq<Dispatch>, perform: (nat, Invocation) -> ToolResult, n: nat)
    ensures var t := Steps(ds, perform, n);
      (t.fault.None? <==> forall i :: 0 <= i < |ds| ==> !ds[i].Faulted?) && (t.fault.None? ==> |t.records| == |ds|)
    decreases |ds|
  {
    if ds != [] {
      assert forall i :: 1 <= i < |ds| ==> ds[1..][i - 1] == ds[i];
      if !ds[0].Faulted? {
        StepsShape(ds[1..], perform, n + |Invoked(ds[0])|);
      }
    }
  }

  /** A run stops early exactly when some step faults; otherwise it makes one record per step. */
  lemma ExecutionShape(toolMap: map<string, Tool>, plan: seq<Json>, perform: (nat, Invocation) -> ToolResult, n: nat)
    ensures var t := Execution(toolMap, plan, perform, n);
      (t.fault.None? <==> WellFormed(plan)) && (t.fault.None? ==> |t.records| == |plan|)
  {
    var ds := Dispatches(toolMap, plan);
    StepsShape(ds, perform, n);
    forall i | 0 <= i < |plan|
      ensures ds[i].Faulted? <==> StepFault(plan[i]).Some?
    {
      DispatchFault(toolMap, plan[i]);
    }
  }

  /** Run until the step `j` that faults (or to the end): the invocations are those of the
      steps before it, and the exception is its. */
  lemma {:induction false} StepsCalls(ds: seq<Dispatch>, perform: (nat, Invocation) -> ToolResult, n: nat, j: int)
    requires 0 <= j <= |ds|
    requires forall i :: 0 <= i < j ==> !ds[i].Faulted?
    requires j < |ds| ==> ds[j].Faulted?
    ensures Steps(ds, perform, n).calls == AllInvoked(ds[..j])
    ensures Steps(ds, perform, n).fault == if j < |ds| then Some(ds[j].message) else None
    decreases |ds|
  {
    if ds != [] && j > 0 {
      StepsCalls(ds[1..], perform, n + |Invoked(ds[0])|, j - 1);
      assert ds[..j][0] == ds[0] && ds[..j][1..] == ds[1..][..j - 1];
    } else if ds != [] {
      assert ds[..j] == [];
    }
  }

  /** A run that completes invokes exactly the tools `Calls` lists; one stopped by step `j`
      invokes those of the steps before it, and ends with step `j`'s exception. */
  lemma ExecutionCalls(toolMap: map<string, Tool>, plan: seq<Json>, perform: (nat, Invocation) -> ToolResult, n: nat, j: int)
    requires 0 <= j <= |plan|
    requires forall i :: 0 <= i < j ==> StepFault(plan[i]).None?
    requires j < |plan| ==> StepFault(plan[j]).Some?
    ensures Execution(toolMap, plan, perform, n).calls == Calls(toolMap, plan[..j])
    ensures Execution(toolMap, plan, perform, n).fault == if j < |plan| then StepFault(plan[j]) else None
  {
    var ds := Dispatches(toolMap, plan);
    forall i | 0 <= i <= j && i < |plan|
      ensures ds[i].Faulted? <==> StepFault(plan[i]).Some?
      ensures ds[i].Faulted? ==> ds[i].message == StepFault(plan[i]).value
    {
      DispatchFault(toolMap, plan[i]);
    }
    StepsCalls(ds, perform, n, j);
    DispatchesPrefix(toolMap, plan, j);
  }

  /** Record `k` of a completed run of dispatched steps is step `k`'s own record, its
      invocation numbered after those of the earlier steps. */
  lemma {:induction false} StepsRecordAt(ds: seq<Dispatch>, perform: (nat, Invocation) -> ToolResult, n: nat, k: int)
    requires forall i :: 0 <= i < |ds| ==> !ds[i].Faulted?
    requires 0 <= k < |ds|
    ensures var t := Steps(ds, perform, n);
      |t.records| == |ds| && t.records[k] == RecordOf(ds[k], perform, n + |AllInvoked(ds[..k])|)
    decreases |ds|
  {
    var m := n + |Invoked(ds[0])|;
    var rest := Steps(ds[1..], perform, m);
    assert Steps(ds, perform, n) == Then([RecordOf(ds[0], perform, n)], Invoked(ds[0]), rest);
    forall i | 0 <= i < |ds[1..]|
      ensures !ds[1..][i].Faulted?
    {
      assert ds[1..][i] == ds[i + 1];
    }
    StepsShape(ds[1..], perform, m);
    if k > 0 {
      StepsRecordAt(ds[1..], perform, m, k - 1);
      assert ds[..k][0] == ds[0] && ds[..k][1..] == ds[1..][..k - 1];
      assert AllInvoked(ds[..k]) == Invoked(ds[0]) + AllInvoked(ds[1..][..k - 1]);
      assert ds[1..][k - 1] == ds[k];
    } else {
      assert ds[..0] == [];
    }
  }

  /** Record `k` of a completed run is the record of step `k` alone, its invocation (if any)
      numbered after those of the earlier steps. */
  lemma RecordAt(toolMap: map<string, Tool>, plan: seq<Json>, perform: (nat, Invocation) -> ToolResult, n: nat, k: int)
    requires WellFormed(plan)
    requires 0 <= k < |plan|
    ensures var t := Execution(toolMap, plan, perform, n);
      |t.records| == |plan| && t.records[k] == StepRecordOf(toolMap, plan[k], perform, n + |Calls(toolMap, plan[..k])|)
  {
    var ds := Dispatches(toolMap, plan);
    forall i | 0 <= i < |plan|
      ensures !ds[i].Faulted?
    {
      DispatchFault(toolMap, plan[i]);
    }
    StepsRecordAt(ds, perform, n, k);
    DispatchesPrefix(toolMap, plan, k);
  }

  /** Whatever the tools do, a step whose tool is missing is recorded as not found. */
  lemma NotFoundRecorded(toolMap: map<string, Tool>, plan: seq<Json>, perform: (nat, Invocation) -> ToolResult, n: nat, k: int)
    requires WellFormed(plan)
    requires 0 <= k < |plan|
    requires ToolName(plan[k]).JStr? && ToolName(plan[k]).s !in toolMap
    ensures var t := Execution(toolMap, plan, perform, n);
      |t.records| == |plan| && t.records[k] ==
      StepRecord(StepId(plan[k]), ToolName(plan[k]), Failure("Tool '" + ToolName(plan[k]).s + "' not found."))
  {
    RecordAt(toolMap, plan, perform, n, k);
    StepRecordShape(toolMap, plan[k], perform, n + |Calls(toolMap, plan[..k])|);
  }

  /** One more step of the loop: its record and its invocation move from the rest of the run
      to what has been done. */
  lemma Advance(ds: seq<Dispatch>, i: int, perform: (nat, Invocation) -> ToolResult, n: nat,
                records: seq<StepRecord>, calls: seq<Invocation>, whole: Trace)
    requires 0 <= i < |ds| && !ds[i].Faulted?
    requires whole == Then(records, calls, Steps(ds[i..], perform, n))
    ensures whole == Then(records + [RecordOf(ds[i], perform, n)], calls + Invoked(ds[i]),
                          Steps(ds[i + 1..], perform, n + |Invoked(ds[i])|))
  {
    assert ds[i..][0] == ds[i] && ds[i..][1..] == ds[i + 1..];
    var rest := Steps(ds[i + 1..], perform, n + |Invoked(ds[i])|);
    assert records + ([RecordOf(ds[i], perform, n)] + rest.records) == records + [RecordOf(ds[i], perform, n)] + rest.records;
    assert calls + (Invoked(ds[i]) + rest.calls) == calls + Invoked(ds[i]) + rest.calls;
  }

  /** The loop stops at a step whose preamble raised: the run so far is all there is, and it ends
      with that exception. */
  lemma Stop(ds: seq<Dispatch>, i: int, perform: (nat, Invocation) -> ToolResult, n: nat,
             records: seq<StepRecord>, calls: seq<Invocation>, whole: Trace)
    requires 0 <= i <= |ds|
    requires whole == Then(records, calls, Steps(ds[i..], perform, n))
    ensures i < |ds| && ds[i].Faulted? ==> whole == Trace(records, calls, Some(ds[i].message))
    ensures i == |ds| ==> whole == Trace(records, calls, None)
  {
    if i < |ds| {
      assert ds[i..][0] == ds[i];
    } else {
      assert ds[i..] == [];
    }
    assert records + [] == records && calls + [] == calls;
  }

  class ExecutorAgent {
    var toolMap: map<string, Tool>

    /** `ExecutorAgent(llm, tools)`: builds the name-keyed map one tool at a time. */
    constructor(tools: seq<Tool>)
      ensures toolMap == ToolMapOf(tools)
    {
      toolMap := map[];
      new;
      var i := 0;
      while i < |tools|
        invariant 0 <= i <= |tools|
        invariant toolMap == ToolMapOf(tools[..i])
      {
        assert tools[..i + 1][..i] == tools[..i];
        toolMap := toolMap[tools[i].name := tools[i]];
        i := i + 1;
      }
      assert tools[..i] == tools;
    }

    /** The rest of the loop body: the not-found error when the tool is missing, or else the
        tool invoked (once, through `env`) with the step's arguments and its result or
        exception recorded. */
    method RunStep(d: Dispatch, env: Environment) returns (record: StepRecord)
      requires !d.Faulted?
      modifies env
      ensures record == RecordOf(d, env.perform, |old(env.toolLog)|)
      ensures env.toolLog == old(env.toolLog) + Invoked(d) && env.chatLog == old(env.chatLog)
    {
      match d
      case Missing(id, name, error) =>
        record := StepRecord(id, name, Failure(error));
      case Found(id, name, invocation) =>
        var outcome := env.Invoke(invocation);
        record := StepRecord(id, name, OutcomeOf(outcome));
    }

    /** `run(plan)`: one record per step, the tools invoked in step order through `env`; an
        exception raised outside the `try` ends the run. What happens before the `try` has no
        effect besides raising, so it is read off each step by `Dispatches` up front. */
    method Run(plan: seq<Json>, env: Environment) returns (r: Result<seq<StepRecord>>)
      modifies env
      ensures var t := Execution(toolMap, plan, env.perform, |old(env.toolLog)|);
        env.toolLog == old(env.toolLog) + t.calls && env.chatLog == old(env.chatLog) &&
        r == if t.fault.None? then Ok(t.records) else Err(t.fault.value)
    {
      r := RunDispatched(Dispatches(toolMap, plan), env);
    }

    /** The loop of `run` over the dispatched steps. */
    method RunDispatched(ds: seq<Dispatch>, env: Environment) returns (r: Result<seq<StepRecord>>)
      modifies env
      ensures var t := Steps(ds, env.perform, |old(env.toolLog)|);
        env.toolLog == old(env.toolLog) + t.calls && env.chatLog == old(env.chatLog) &&
        r == if t.fault.None? then Ok(t.records) else Err(t.fault.value)
    {
      ghost var whole := Steps(ds, env.perform, |env.toolLog|);
      ghost var calls: seq<Invocation> := [];
      var results: seq<StepRecord> := [];
      var i := 0;
      assert ds[i..] == ds;
      assert [] + whole.records == whole.records && [] + whole.calls == whole.calls;
      while i < |ds|
        invariant 0 <= i <= |ds|
        invariant env.toolLog == old(env.toolLog) + calls && env.chatLog == old(env.chatLog)
        invariant whole == Then(results, calls, Steps(ds[i..], env.perform, |env.toolLog|))
      {
        var d := ds[i];
        if d.Faulted? {
          Stop(ds, i, env.perform, |env.toolLog|, results, calls, whole);
          return Err(d.message);
        }
        ghost var n := |env.toolLog|;
        Advance(ds, i, env.perform, n, results, calls, whole);
        var record := RunStep(d, env);
        assert |env.toolLog| == n + |Invoked(d)|;
        results := results + [record];
        calls := calls + Invoked(d);
        i := i + 1;
      }
      Stop(ds, i, env.perform, |env.toolLog|, results, calls, whole);
      r := Ok(results);
    }
  }
}
