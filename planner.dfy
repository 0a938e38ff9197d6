/** `PlannerAgent`: asks the model, in JSON mode, for a plan over the available tools, reads
    the plan out of whatever JSON comes back, and renders it step by step for display. */
module Planner {
  import opened Wrappers
  import opened Text
  import opened Json
  import opened Py
  import opened BaseTool
  import opened Backend
  import opened LlmClient

  /** The system prompt up to the tool list. */
  const PromptHead :=
    "\n" +
    "        You are a Planner Agent. Your job is to break down the user's task into a step-by-step plan.\n" +
    "        Available Tools: "

  /** The system prompt after the tool list. */
  const PromptTail :=
    "\n" +
    "        \n" +
    "        Return the plan STRICTLY as a JSON object with a key \"plan\" containing the list of steps.\n" +
    "        Example format:\n" +
    "        {\n" +
    "            \"plan\": [\n" +
    "                {\n" +
    "                    \"step\": 1,\n" +
    "                    \"tool\": \"tool_name\",\n" +
    "                    \"args\": {\"arg\": \"value\"},\n" +
    "                    \"reasoning\": \"explanation\"\n" +
    "                }\n" +
    "            ]\n" +
    "        }\n" +
    "\n" +
    "        Return ONLY the JSON object.\n" +
    "        "

  function Schemas(tools: seq<Tool>): (r: seq<Json>)
    ensures |r| == |tools|
    ensures forall i :: 0 <= i < |tools| ==> r[i] == ToSchema(tools[i])
  {
    seq(|tools|, i requires 0 <= i < |tools| => ToSchema(tools[i]))
  }

  /** The system prompt, with the tool schemas written by `json.dumps(..., indent=2)`. */
  function SystemPrompt(tools: seq<Tool>): string {
    PromptHead + SerializeIndented(JArr(Schemas(tools)), 0) + PromptTail
  }

  function Messages(tools: seq<Tool>, query: string): (r: seq<Message>)
    ensures |r| == 2
    ensures r[0] == Message("system", SystemPrompt(tools)) && r[1] == Message("user", query)
  {
    [Message("system", SystemPrompt(tools)), Message("user", query)]
  }

  /** Every tool's schema is written in full into the system prompt. */
  lemma PromptShowsEveryTool(tools: seq<Tool>, i: int)
    requires 0 <= i < |tools|
    ensures Infix(SerializeIndented(ToSchema(tools[i]), 1), SystemPrompt(tools))
  {
    var listed := SerializeIndented(JArr(Schemas(tools)), 0);
    IndentedShowsItem(Schemas(tools), i, 0);
    InfixWithin(SerializeIndented(ToSchema(tools[i]), 1), listed, PromptHead, PromptTail);
  }

  /** The schemas appear in the order of the tool list: each one is followed directly by the next. */
  lemma PromptKeepsToolOrder(tools: seq<Tool>, i: int)
    requires 0 <= i < |tools| - 1
    ensures Infix(SerializeIndented(ToSchema(tools[i]), 1) + "," + NewLine(1) + SerializeIndented(ToSchema(tools[i + 1]), 1),
                  SystemPrompt(tools))
  {
    var listed := SerializeIndented(JArr(Schemas(tools)), 0);
    IndentedShowsNeighbours(Schemas(tools), i, 0);
    InfixWithin(SerializeIndented(ToSchema(tools[i]), 1) + "," + NewLine(1) + SerializeIndented(ToSchema(tools[i + 1]), 1),
                listed, PromptHead, PromptTail);
  }

  /** The plan inside the parsed reply: an object's `plan`, else its `steps`, else an empty list;
      anything that is not an object is taken as the plan itself. */
  function SelectPlan(v: Json): (r: Json)
    ensures HasKey(v, "plan") ==> Get(v, "plan") == Some(r)
    ensures v.JObj? && !HasKey(v, "plan") && HasKey(v, "steps") ==> Get(v, "steps") == Some(r)
    ensures v.JObj? && !HasKey(v, "plan") && !HasKey(v, "steps") ==> r == JArr([])
    ensures !v.JObj? ==> r == v
  {
    if v.JObj? then Lookup(v.fields, "plan").GetOr(Lookup(v.fields, "steps").GetOr(JArr([]))) else v
  }

  /** A step the display loop can show: it has `step`, `tool` and `reasoning`. */
  predicate Displayable(step: Json) {
    HasKey(step, "step") && HasKey(step, "tool") && HasKey(step, "reasoning")
  }

  /** The Markdown shown for one step, or the exception that reading its fields raises. */
  function StepLine(step: Json): (r: Result<string>)
    ensures r.Ok? <==> Displayable(step)
  {
    var number :- Item(step, "step");
    var tool :- Item(step, "tool");
    var reasoning :- Item(step, "reasoning");
    Ok("**Step " + Str(number) + "**: Use `" + Str(tool) + "`\n> " + Str(reasoning) + "\n\n")
  }

  /** The whole plan's Markdown, or the exception raised at the first step that cannot be shown. */
  function PlanText(steps: seq<Json>): (r: Result<string>)
    ensures r.Ok? <==> forall i :: 0 <= i < |steps| ==> Displayable(steps[i])
    ensures r.Err? ==> exists i :: 0 <= i < |steps| && StepLine(steps[i]) == Err(r.message)
    decreases |steps|
  {
    if steps == [] then Ok("")
    else
      match StepLine(steps[0])
      case Err(m) => Err(m)
      case Ok(line) =>
        var rest := PlanText(steps[1..]);
        assert forall i :: 1 <= i < |steps| ==> steps[i] == steps[1..][i - 1];
        if rest.Ok? then Ok(line + rest.value) else rest
  }

  /** The exception the display loop raises is that of the first step that cannot be shown. */
  lemma {:induction false} PlanTextFirstFailure(steps: seq<Json>, i: int)
    requires 0 <= i < |steps| && StepLine(steps[i]).Err?
    requires forall j :: 0 <= j < i ==> StepLine(steps[j]).Ok?
    ensures PlanText(steps) == Err(StepLine(steps[i]).message)
    decreases i
  {
    if i > 0 {
      var rest := steps[1..];
      forall j | 0 <= j < i - 1
        ensures StepLine(rest[j]).Ok?
      {
        assert rest[j] == steps[j + 1];
      }
      assert rest[i - 1] == steps[i];
      PlanTextFirstFailure(rest, i - 1);
      assert StepLine(steps[0]).Ok?;
    }
  }

  /** `text` followed by the rest of a rendering, unless that rendering raised. */
  function Continue(text: string, rest: Result<string>): Result<string> {
    if rest.Ok? then Ok(text + rest.value) else rest
  }

  /** Rendering after `text` either stops at the first step's exception or goes on with its line appended. */
  lemma ContinueStep(text: string, steps: seq<Json>)
    requires steps != []
    ensures StepLine(steps[0]).Err? ==> Continue(text, PlanText(steps)) == StepLine(steps[0])
    ensures StepLine(steps[0]).Ok? ==>
      Continue(text, PlanText(steps)) == Continue(text + StepLine(steps[0]).value, PlanText(steps[1..]))
  {
    if StepLine(steps[0]).Ok? && PlanText(steps[1..]).Ok? {
      var line, rest := StepLine(steps[0]).value, PlanText(steps[1..]).value;
      assert text + (line + rest) == text + line + rest;
    }
  }

  /** The `plan_text +=` loop. */
  method RenderPlan(steps: seq<Json>) returns (r: Result<string>)
    ensures r == PlanText(steps)
  {
    var text := "";
    var i := 0;
    assert steps[i..] == steps;
    assert PlanText(steps).Ok? ==> text + PlanText(steps).value == PlanText(steps).value;
    while i < |steps|
      invariant 0 <= i <= |steps|
      invariant PlanText(steps) == Continue(text, PlanText(steps[i..]))
    {
      ContinueStep(text, steps[i..]);
      assert steps[i..][0] == steps[i] && steps[i..][1..] == steps[i + 1..];
      var line := StepLine(steps[i]);
      if line.Err? {
        return line;
      }
      text := text + line.value;
      i := i + 1;
    }
    assert steps[i..] == [] && text + "" == text;
    r := Ok(text);
  }

  /** What `run` ends with: the plan it returns (possibly falsy), `None` after a JSON decode
      error, or the exception that escapes it. Only decode errors are caught. */
  datatype PlanResult = Planned(plan: Json) | NoPlan | Crashed(message: string)

  /** Python truthiness of what `run` returns. */
  predicate TruthyPlan(p: PlanResult) {
    p.Planned? && Truthy(p.plan)
  }

  /** Everything `run` does after the completion call, given the client's reply. */
  function Interpret(response: Option<string>, loads: string -> Option<Json>): (r: PlanResult)
    ensures response.None? ==> r == Crashed(NoneNotText)
    ensures response.Some? && loads(response.value).None? ==> r == NoPlan
    ensures r.Planned? ==> response.Some? && loads(response.value).Some? && r.plan == SelectPlan(loads(response.value).value)
  {
    match response
    case None => Crashed(NoneNotText)
    case Some(text) =>
      match loads(text)
      case None => NoPlan
      case Some(v) =>
        var plan := SelectPlan(v);
        match Iterate(plan)
        case Err(m) => Crashed(m)
        case Ok(steps) =>
          match PlanText(steps)
          case Err(m) => Crashed(m)
          case Ok(_) => Planned(plan)
  }

  /** A returned plan that is truthy is a non-empty list of steps, each an object with `step`,
      `tool` and `reasoning`; a falsy one is an empty list, string or object. */
  lemma PlannedShape(response: Option<string>, loads: string -> Option<Json>)
    requires Interpret(response, loads).Planned?
    ensures var p := Interpret(response, loads).plan;
      (Truthy(p) ==> p.JArr? && |p.items| > 0 && forall i :: 0 <= i < |p.items| ==> p.items[i].JObj? && Displayable(p.items[i])) &&
      (!Truthy(p) ==> p == JArr([]) || p == JStr("") || p == JObj([]))
  {
    var p := Interpret(response, loads).plan;
    var steps := Iterate(p).value;
    assert PlanText(steps).Ok?;
    if |steps| > 0 {
      assert Displayable(steps[0]) && steps[0].JObj?;
    }
  }

  /** A parsed list is the plan itself when every step can be shown; otherwise `run` raises. */
  lemma ListPassesThrough(text: string, loads: string -> Option<Json>, items: seq<Json>)
    requires loads(text) == Some(JArr(items))
    ensures (forall i :: 0 <= i < |items| ==> Displayable(items[i])) ==> Interpret(Some(text), loads) == Planned(JArr(items))
    ensures (exists i :: 0 <= i < |items| && !Displayable(items[i])) ==> Interpret(Some(text), loads).Crashed?
  {
  }

  /** A parsed object whose `plan` (or, without one, `steps`) is a list is that list when every
      step can be shown; otherwise `run` raises. */
  lemma SelectedListPassesThrough(text: string, loads: string -> Option<Json>, items: seq<Json>)
    requires loads(text).Some? && loads(text).value.JObj? && SelectPlan(loads(text).value) == JArr(items)
    ensures (forall i :: 0 <= i < |items| ==> Displayable(items[i])) ==> Interpret(Some(text), loads) == Planned(JArr(items))
    ensures (exists i :: 0 <= i < |items| && !Displayable(items[i])) ==> Interpret(Some(text), loads).Crashed?
  {
  }

  /** A parsed object with neither `plan` nor `steps` yields an empty plan, not `None`. */
  lemma ObjectWithoutPlanIsEmpty(text: string, loads: string -> Option<Json>)
    requires loads(text).Some? && loads(text).value.JObj?
    requires !HasKey(loads(text).value, "plan") && !HasKey(loads(text).value, "steps")
    ensures Interpret(Some(text), loads) == Planned(JArr([]))
  {
  }

  /** When the completion call fails, the client's `"{}"` parses to an empty object, and the
      planner returns an empty (falsy) plan. */
  lemma FailedCallGivesEmptyPlan(c: Completion, loads: string -> Option<Json>)
    requires c.Failed?
    requires loads(FailureReply) == Some(JObj([]))
    ensures Interpret(Reply(c), loads) == Planned(JArr([]))
    ensures !TruthyPlan(Interpret(Reply(c), loads))
  {
  }

  class PlannerAgent {
    const llm: Client
    const tools: seq<Tool>

    constructor(llm: Client, tools: seq<Tool>)
      ensures this.llm == llm && this.tools == tools
    {
      this.llm := llm;
      this.tools := tools;
    }

    /** `run(user_query)`: one JSON-mode completion over `[system prompt, user query]`, then the
        plan read from the reply. */
    method Run(query: string, env: Environment, loads: string -> Option<Json>) returns (r: PlanResult)
      modifies env
      ensures env.chatLog == old(env.chatLog) + [ChatRequest(llm.model, Messages(tools, query), Some(JsonObjectFormat()))]
      ensures env.toolLog == old(env.toolLog)
      ensures r == Interpret(Reply(env.answer(|old(env.chatLog)|, env.chatLog[|old(env.chatLog)|])), loads)
    {
      var response := llm.ChatCompletion(Messages(tools, query), true, env);
      if response.None? {
        return Crashed(NoneNotText);
      }
      var parsed := loads(response.value);
      if parsed.None? {
        return NoPlan;
      }
      var plan := SelectPlan(parsed.value);
      var steps := Iterate(plan);
      if steps.Err? {
        return Crashed(steps.message);
      }
      var text := RenderPlan(steps.value);
      if text.Err? {
        return Crashed(text.message);
      }
      r := Planned(plan);
    }
  }
}
