/** The entry point: the plan → execute → verify flow for one query, and the assistant's session,
    which checks for an API key, wires the components together and then runs one query from
    the command line or reads queries until told to stop. Console output, argument parsing and
    `.env` loading are not modelled; the lines typed at the prompt are an input. */
module App {
  import opened Wrappers
  import opened Text
  import opened Json
  import opened Py
  import opened BaseTool
  import opened Backend
  import opened LlmClient
  import opened Executor
  import Planner
  import Verifier
  import WeatherTool
  import GitHubTool
  import NewsTool
  import StockTool
  import opened Console

  /** The Wikipedia tool's name and schema; what its `execute` does is not part of this model. */
  const WikipediaDescriptor := Tool(
    "wikipedia_tool",
    "Searches Wikipedia for a summary of a topic. Args: query (str)",
    Declared([Param("query", "string", "The topic to search for on Wikipedia")], ["query"]))

  /** The tools the assistant offers, in the order the planner lists them. */
  const Tools := [WeatherTool.Descriptor, GitHubTool.Descriptor, NewsTool.Descriptor, WikipediaDescriptor, StockTool.Descriptor]

  /** How one run of the flow ends: stopped for want of a plan, finished with the executor's
      records and the verifier's reply and display, or ended by an exception that escapes it. */
  datatype FlowEnd =
    | Aborted
    | Finished(records: seq<StepRecord>, response: Option<string>, shown: Verifier.Display)
    | Escaped(message: string)

  /** How a run of the flow ends, with the completion requests and tool invocations it made. */
  datatype FlowTrace = FlowTrace(end: FlowEnd, chats: seq<ChatRequest>, calls: seq<Invocation>)

  /** The planner's completion request for `query`. */
  function PlanRequest(model: string, tools: seq<Tool>, query: string): ChatRequest {
    ChatRequest(model, Planner.Messages(tools, query), Some(JsonObjectFormat()))
  }

  /** The verifier's completion request for `query` and the executor's records. */
  function VerifyRequest(model: string, query: string, records: seq<StepRecord>): ChatRequest {
    ChatRequest(model, Verifier.Messages(query, records), Some(JsonObjectFormat()))
  }

  /** `run_flow(query, planner, executor, verifier)` against a backend answering `answer` and
      tools behaving as `perform`, when `n` completions and `m` tool calls came before; the
      planner's completion request is `planRequest` and the verifier's, for the executor's
      records, is `verifyRequest(records)`. The planner asks first. An exception escaping the
      planner or the executor ends the flow; a falsy plan stops it. Otherwise the executor runs
      over the plan's steps and then the verifier asks about the records it returned. */
  function Flow(planRequest: ChatRequest, verifyRequest: seq<StepRecord> -> ChatRequest, toolMap: map<string, Tool>,
                answer: (nat, ChatRequest) -> Completion, perform: (nat, Invocation) -> ToolResult, n: nat, m: nat,
                loads: string -> Option<Json>): (r: FlowTrace)
    ensures 1 <= |r.chats| <= 2 && r.chats[0] == planRequest
    ensures |r.chats| == 2 <==> r.end.Finished?
    ensures r.end.Finished? ==> r.chats[1] == verifyRequest(r.end.records)
  {
    var p := Planner.Interpret(Reply(answer(n, planRequest)), loads);
    if p.Crashed? then FlowTrace(Escaped(p.message), [planRequest], [])
    else if !Planner.TruthyPlan(p) then FlowTrace(Aborted, [planRequest], [])
    else
      match Iterate(p.plan)
      case Err(e) => FlowTrace(Escaped(e), [planRequest], [])
      case Ok(steps) =>
        var t := Execution(toolMap, steps, perform, m);
        if t.fault.Some? then FlowTrace(Escaped(t.fault.value), [planRequest], t.calls)
        else
          var response := Reply(answer(n + 1, verifyRequest(t.records)));
          FlowTrace(Finished(t.records, response, Verifier.Render(response, loads)), [planRequest, verifyRequest(t.records)], t.calls)
  }

  /** A falsy plan (or an exception from the planner) stops the flow after the planner's request:
      no tool is invoked and the verifier is not asked. */
  lemma FalsyPlanStops(planRequest: ChatRequest, verifyRequest: seq<StepRecord> -> ChatRequest, toolMap: map<string, Tool>,
                       answer: (nat, ChatRequest) -> Completion, perform: (nat, Invocation) -> ToolResult, n: nat, m: nat,
                       loads: string -> Option<Json>)
    requires !Planner.TruthyPlan(Planner.Interpret(Reply(answer(n, planRequest)), loads))
    ensures var r := Flow(planRequest, verifyRequest, toolMap, answer, perform, n, m, loads);
      r.calls == [] && r.chats == [planRequest] && (r.end.Aborted? || r.end.Escaped?)
  {
  }

  /** With a truthy plan, the executor runs once over the plan's list of steps; when it returns,
      the verifier is asked once, about exactly the records the executor returned. */
  lemma TruthyPlanRunsBoth(planRequest: ChatRequest, verifyRequest: seq<StepRecord> -> ChatRequest, toolMap: map<string, Tool>,
                           answer: (nat, ChatRequest) -> Completion, perform: (nat, Invocation) -> ToolResult, n: nat, m: nat,
                           loads: string -> Option<Json>)
    requires Planner.TruthyPlan(Planner.Interpret(Reply(answer(n, planRequest)), loads))
    ensures var p := Planner.Interpret(Reply(answer(n, planRequest)), loads);
      p.plan.JArr? &&
      var t := Execution(toolMap, p.plan.items, perform, m);
      var r := Flow(planRequest, verifyRequest, toolMap, answer, perform, n, m, loads);
      r.calls == t.calls &&
      (t.fault.None? ==> r.end.Finished? && r.end.records == t.records && r.chats == [planRequest, verifyRequest(t.records)]) &&
      (t.fault.Some? ==> r.end == Escaped(t.fault.value) && r.chats == [planRequest])
  {
    Planner.PlannedShape(Reply(answer(n, planRequest)), loads);
  }

  /** `run_flow`, through the environment: it makes exactly the requests and invocations `Flow`
      lists, in order, with the planner's request for the query and the verifier's request for
      the query and the executor's records, and ends as `Flow` says. */
  method RunFlow(query: string, planner: Planner.PlannerAgent, executor: ExecutorAgent, verifier: Verifier.VerifierAgent,
                 env: Environment, loads: string -> Option<Json>) returns (end: FlowEnd)
    modifies env
    ensures var verifierModel := verifier.llm.model;
      var r := Flow(PlanRequest(planner.llm.model, planner.tools, query),
                    records => VerifyRequest(verifierModel, query, records), executor.toolMap,
                    env.answer, env.perform, |old(env.chatLog)|, |old(env.toolLog)|, loads);
      env.chatLog == old(env.chatLog) + r.chats && env.toolLog == old(env.toolLog) + r.calls && end == r.end
  {
    ghost var n := |env.chatLog|;
    var plan := planner.Run(query, env, loads);
    if plan.Crashed? {
      return Escaped(plan.message);
    }
    if !Planner.TruthyPlan(plan) {
      return Aborted;
    }
    Planner.PlannedShape(Reply(env.answer(n, env.chatLog[n])), loads);
    var results := executor.Run(plan.plan.items, env);
    if results.Err? {
      return Escaped(results.message);
    }
    var response, shown := verifier.Run(query, results.value, env, loads);
    end := Finished(results.value, response, shown);
  }

  /** How the assistant's session ended. */
  datatype Exit = MissingKey | SingleShot | ExitCommand | InputClosed | Crashed(message: string)

  /** `OPENAI_API_KEY` or `GROQ_API_KEY` is set to a non-empty value. */
  predicate KeyConfigured(environ: Environ) {
    Present(GetEnv(environ, "OPENAI_API_KEY")) || Present(GetEnv(environ, "GROQ_API_KEY"))
  }

  /** One pass of the prompt loop's body over a typed line: the line is classified, and a query
      is run through the flow, which makes at least the planner's completion request; `escaped`
      is the exception escaping that flow, if any. A command or a blank line changes nothing. */
  method Turn(line: string, planner: Planner.PlannerAgent, executor: ExecutorAgent, verifier: Verifier.VerifierAgent,
              env: Environment, loads: string -> Option<Json>) returns (command: Command, escaped: Option<string>)
    modifies env
    ensures command == Classify(line)
    ensures command.Ask? ==> |env.chatLog| > |old(env.chatLog)|
    ensures !command.Ask? ==> env.chatLog == old(env.chatLog) && env.toolLog == old(env.toolLog) && escaped.None?
  {
    command := Classify(line);
    escaped := None;
    if command.Ask? {
      var end := RunFlow(command.query, planner, executor, verifier, env, loads);
      if end.Escaped? {
        escaped := Some(end.message);
      }
    }
  }

  /** The prompt loop of `main()` over the lines typed: it runs the flow on exactly the queries
      of the session over those lines, in order, up to an exception escaping a flow; each run
      makes at least the planner's completion request. */
  method Converse(lines: seq<string>, planner: Planner.PlannerAgent, executor: ExecutorAgent, verifier: Verifier.VerifierAgent,
                  env: Environment, loads: string -> Option<Json>) returns (exit: Exit, ran: seq<string>)
    modifies env
    ensures |env.chatLog| >= |old(env.chatLog)| + |ran|
    ensures exit.Crashed? ==> ran != [] && ran <= Session(Commands(lines)).queries
    ensures !exit.Crashed? ==>
      ran == Session(Commands(lines)).queries &&
      (exit == ExitCommand <==> Session(Commands(lines)).quit) && (exit == ExitCommand || exit == InputClosed)
  {
    ghost var commands := Commands(lines);
    ran := [];
    var i := 0;
    assert commands[i..] == commands;
    while i < |lines|
      invariant 0 <= i <= |lines|
      invariant ran + Session(commands[i..]).queries == Session(commands).queries
      invariant Session(commands[i..]).quit == Session(commands).quit
      invariant |env.chatLog| >= |old(env.chatLog)| + |ran|
    {
      var command, escaped := Turn(lines[i], planner, executor, verifier, env, loads);
      CommandsFrom(lines, i);
      SessionStep(command, commands[i + 1..]);
      if command.Quit? {
        assert ran + [] == ran;
        return ExitCommand, ran;
      }
      if command.Ask? {
        assert ran + [command.query] + Session(commands[i + 1..]).queries == Session(commands).queries;
        ran := ran + [command.query];
        if escaped.Some? {
          assert ran <= Session(commands).queries;
          return Crashed(escaped.value), ran;
        }
      }
      i := i + 1;
    }
    assert commands[i..] == [] && ran + [] == ran;
    exit := InputClosed;
  }

  /** `main()`: `argQuery` is the optional command-line query and `lines` what is typed at the
      prompt. `ran` lists the queries the flow was run on, in order. Without a key nothing is
      built and nothing is asked; a command-line query is run once and no prompt is shown;
      otherwise the prompt loop runs as `Converse` says. */
  method Assistant(argQuery: Option<string>, environ: Environ, lines: seq<string>, env: Environment,
                   loads: string -> Option<Json>) returns (exit: Exit, ran: seq<string>)
    modifies env
    ensures !KeyConfigured(environ) ==>
      exit == MissingKey && ran == [] && env.chatLog == old(env.chatLog) && env.toolLog == old(env.toolLog)
    ensures KeyConfigured(environ) ==> |env.chatLog| >= |old(env.chatLog)| + |ran|
    ensures KeyConfigured(environ) && Present(argQuery) ==>
      ran == [argQuery.value] && (exit == SingleShot || exit.Crashed?)
    ensures KeyConfigured(environ) && !Present(argQuery) ==>
      (exit.Crashed? ==> ran != [] && ran <= Session(Commands(lines)).queries) &&
      (!exit.Crashed? ==> ran == Session(Commands(lines)).queries &&
                          (exit == ExitCommand <==> Session(Commands(lines)).quit) && (exit == ExitCommand || exit == InputClosed))
  {
    if !KeyConfigured(environ) {
      return MissingKey, [];
    }
    var llm := new Client(None, None, DefaultModel, environ);
    var planner := new Planner.PlannerAgent(llm, Tools);
    var executor := new ExecutorAgent(Tools);
    var verifier := new Verifier.VerifierAgent(llm);
    if Present(argQuery) {
      var end := RunFlow(argQuery.value, planner, executor, verifier, env, loads);
      ran := [argQuery.value];
      if end.Escaped? {
        return Crashed(end.message), ran;
      }
      return SingleShot, ran;
    }
    exit, ran := Converse(lines, planner, executor, verifier, env, loads);
  }
}
