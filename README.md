# AI Operations Assistant: plan → execute → verify, in Dafny

The assistant answers a natural-language request in three stages, each backed by the same
chat-completion client:

- the **planner** asks the language model for a JSON plan of tool calls;
- the **executor** runs every step of that plan against a name-keyed map of tools and records one
  success or error record per step;
- the **verifier** sends the query and the records back to the model and renders its answer.

`main.py` wires these together. It refuses to start without an API key, runs one query given on
the command line, or reads queries at a prompt until `exit`/`quit`. The tools (weather, GitHub,
news, stocks) each make HTTP or market-data calls and format the reply as text.

This project models that core in Dafny and proves what each part promises:

- **Value model.** JSON is a datatype (`Json.Json`, numbers kept as their text). Python's runtime
  behaviour that the code relies on is written out in module `Py`: truthiness, `str`/`repr`,
  `dict.get` on non-dicts, subscripts, `in`, iteration.
- **Oracles.** The language model and tool `execute` calls are oracles held by
  `Backend.Environment`. It logs every completion request and every tool invocation, and
  answers each by its position in the log. The tools' HTTP and market-data calls are function
  parameters. Every tool also reports the requests it made, so "no forecast request" or "at
  most two fetches" can be stated.
- **Imperative parts.** The executor, planner, verifier, client and the top-level flow are
  classes and methods that change the environment's logs, each proved against a specification
  function: `Executor.Execution`, `Planner.Interpret`, `Verifier.Render`, `App.Flow`,
  `Console.Session`.
- **Pure parts.** Shape selection, formatting and configuration precedence are functions with
  lemmas.

Where the repository's prose and its code disagree, the model follows the code:

- A record's `step` is the model-supplied `step` field of the plan step, not a position the
  executor assigns. A step without it raises a `KeyError` that escapes `run` (`Executor.StepFault`).
- Every occurrence of a code fence is removed from a reply, not only a leading or trailing one.
- A parsed plan of another shape is not turned into `None`. An object without `plan` or
  `steps` becomes `[]`. The selected value is then iterated by the display loop:
  - null, numbers and booleans raise `TypeError` there, and it escapes `run`;
  - a non-empty string, or a non-empty object (iterated by its keys), fails at its first element;
  - only `[]`, `""` and `{}` reach `run_flow`, and all three are falsy (`Planner.PlannedShape`).
- `ExecutorAgent` is given the client as well as the tools, but never uses it. The model's
  constructor takes only the tools.

## Model

| member | source | states |
|---|---|---|
| LlmClient.ResolveApiKey | llm/client.py:9 | the key is the explicit argument, else `GROQ_API_KEY`, else `OPENAI_API_KEY`; an empty value counts as unset |
| LlmClient.ResolveModel | llm/client.py:16-18 | `llama3-70b-8192` becomes `llama-3.3-70b-versatile`; every other model name is kept |
| LlmClient.Client.constructor | llm/client.py:8-18 | key and model by the rules above; base URL is the argument, else `LLM_BASE_URL`, else the Groq URL only when `GROQ_API_KEY` is set |
| LlmClient.Reply | llm/client.py:37-45 | a failed call gives exactly `"{}"`; empty or missing content is returned as it is; other content is fence-stripped and trimmed |
| LlmClient.CleanContentFenceFree | llm/client.py:40 | cleaned content never contains a code fence |
| LlmClient.ReplyFenceFree | llm/client.py:38-45 | no reply of the client contains a code fence |
| LlmClient.Client.ChatCompletion | llm/client.py:25-45 | exactly one request with the model and messages unchanged, with `response_format` json_object iff `json_mode`; no tool is called; the result is `Reply` of the backend's answer |
| Text.RemoveFenceLeavesNone | llm/client.py:40 | removing every fence leaves text with no fence in it, and creates no new leading backticks |
| BaseTool.ToSchema | tools/base_tool.py:16-30 | `type` is `function`; name and description are the tool's; parameters are an object schema; the default has empty properties and no `required`, an override lists its required names |
| BaseTool.Strings | tools/stock_tool.py:23 | an overriding schema's `required` list holds the declared names, in order (likewise github_tool.py:24, news_tool.py:28, weather_tool.py:23) |
| Executor.ToolMapOf | agents/executor.py:11 | a name is in the tool map iff some tool has that name |
| Executor.ToolMapLaterWins | agents/executor.py:11 | with duplicated names, the later tool in the list wins |
| Executor.StepFaultFree | agents/executor.py:16-19 | a step gets past its header without raising iff it is a dict with a `step` key and a hashable `tool` |
| Executor.DispatchFault | agents/executor.py:16-21 | a step is dispatched as a fault exactly when its header raises, with that exception's text |
| Executor.Resolve | agents/executor.py:21-22 | the lookup finds a tool iff the name is a string key of the map, and then finds that key's tool |
| Executor.NotFound | agents/executor.py:23 | the error for a missing tool is `Tool '<name>' not found.` |
| Executor.OutcomeOf | agents/executor.py:28-35 | a returned value is a success with that output; an exception is an error with its text |
| Executor.RecordJson | agents/executor.py:25-35 | a record keeps `step` and `tool`; status is `success` or `error`; success records carry `output` and never `error`, error records the reverse |
| Executor.RecordsJson | agents/executor.py:13-37 | the records list as JSON is the records one by one, in order |
| Executor.StepRecordShape | agents/executor.py:15-35 | a step's record copies `step` and `tool`; a missing tool gives the not-found error; otherwise the outcome of calling that tool with the step's arguments |
| Executor.MissingArgsAreEmpty | agents/executor.py:17 | a step without `args` calls its tool with an empty mapping |
| Executor.ExecutionShape | agents/executor.py:13-37 | no exception escapes iff every step is well formed, and then there is exactly one record per step, whatever the tools do |
| Executor.ExecutionCalls | agents/executor.py:13-37 | the tools called are those of the steps before the first malformed one; that step's exception is the one that escapes |
| Executor.RecordAt | agents/executor.py:14-37 | record k is step k's record, in plan order, after the calls made by steps before it |
| Executor.NotFoundRecorded | agents/executor.py:21-26 | a step naming an unknown tool gets an error record with the not-found message, and the loop goes on |
| Executor.ExecutorAgent.constructor | agents/executor.py:9-11 | the tool map is built from the tool list |
| Executor.ExecutorAgent.RunStep | agents/executor.py:16-35 | one step: its record, and a tool call only when the tool was found |
| Executor.ExecutorAgent.RunDispatched | agents/executor.py:14-37 | the loop: the tools called and the records or escaping exception are those of `Steps` |
| Executor.ExecutorAgent.Run | agents/executor.py:13-37 | `run(plan)`: tool calls appended to the log are those of `Execution`; the result is its records or its exception; no completion request is made |
| Planner.Schemas | agents/planner.py:18 | one schema per tool, in list order |
| Planner.Messages | agents/planner.py:39-42 | exactly `[system prompt, user = query]` |
| Planner.PromptShowsEveryTool | agents/planner.py:18-21 | the system prompt contains every tool's serialised schema |
| Planner.PromptKeepsToolOrder | agents/planner.py:18-21 | consecutive tools' schemas appear next to each other, in list order |
| Planner.SelectPlan | agents/planner.py:52-53 | an object gives its `plan`, else its `steps`, else `[]`; anything else passes through |
| Planner.StepLine | agents/planner.py:58 | a step is displayed without raising iff it has `step`, `tool` and `reasoning` |
| Planner.PlanText | agents/planner.py:56-58 | the display loop succeeds iff every step can be displayed; otherwise it fails with a failing step's exception |
| Planner.PlanTextFirstFailure | agents/planner.py:56-58 | the exception raised is the first failing step's |
| Planner.RenderPlan | agents/planner.py:56-58 | the `plan_text +=` loop computes `PlanText` |
| Planner.Interpret | agents/planner.py:46-64 | a missing reply escapes as an exception; undecodable JSON gives `None`; a decoded plan is `SelectPlan` of it |
| Planner.PlannedShape | agents/planner.py:50-61 | a truthy plan is a non-empty list of displayable step objects; a falsy one is `[]`, `""` or `{}` |
| Planner.ListPassesThrough | agents/planner.py:50-61 | a list of displayable steps is returned unchanged; one bad step makes `run` raise |
| Planner.SelectedListPassesThrough | agents/planner.py:50-61 | an object whose `plan` (else `steps`) is a list of displayable steps yields that list; one bad step makes `run` raise |
| Planner.ObjectWithoutPlanIsEmpty | agents/planner.py:52-61 | an object with neither `plan` nor `steps` yields `[]`, not `None` |
| Planner.FailedCallGivesEmptyPlan | agents/planner.py:46-61 | a failed completion becomes `"{}"` and then the empty plan, which is falsy |
| Planner.PlannerAgent.constructor | agents/planner.py:13-15 | the planner keeps its client and tools |
| Planner.PlannerAgent.Run | agents/planner.py:17-64 | exactly one completion request with the planner's messages in JSON mode; no tool is called; the result is `Interpret` of the reply |
| Verifier.Messages | agents/verifier.py:34-37 | exactly `[system prompt, user content]` |
| Verifier.UserContentShowsRecords | agents/verifier.py:33 | the user content starts with `Query: <query>` and contains every record's JSON |
| Verifier.Bullets | agents/verifier.py:49 | each point is shown as `- ` and its text, in order |
| Verifier.BulletList | agents/verifier.py:49 | the join succeeds iff the points can be iterated, and is then the bullets joined by line breaks |
| Verifier.Render | agents/verifier.py:42-57 | what is shown for the reply: a missing reply or a non-object is a caught error, undecodable JSON is caught, otherwise `Select` of the data; nothing escapes |
| Verifier.PointsShown | agents/verifier.py:45-49 | non-empty `answer_points` are shown as bullets joined by line breaks, and every point appears |
| Verifier.FinalAnswerShown | agents/verifier.py:46-47 | without truthy points, a `final_answer` is shown as it is |
| Verifier.PlaceholderShown | agents/verifier.py:45-49 | with neither, `No answer provided.` is shown |
| Verifier.NonObjectCaught | agents/verifier.py:45-57 | a decoded value that is not an object is caught as a missing-attribute error |
| Verifier.FailedCallShowsPlaceholder | agents/verifier.py:40-49 | a failed completion ends in the placeholder answer |
| Verifier.VerifierAgent.constructor | agents/verifier.py:11-12 | the verifier keeps its client |
| Verifier.VerifierAgent.Run | agents/verifier.py:14-57 | exactly one completion request with the verifier's messages in JSON mode; the raw reply is returned on every path; the display is `Render` of it |
| StockTool.SchemaRequiresSymbol | tools/stock_tool.py:9-26 | `symbol` is the only required parameter |
| StockTool.CorrectionsSettled | tools/stock_tool.py:30-46 | every correction is a listing with a suffix, and none is itself a key, so corrections are never chained |
| StockTool.CleanSymbolIdempotent | tools/stock_tool.py:44-46 | cleaning a cleaned symbol changes nothing |
| StockTool.Report | tools/stock_tool.py:71-79 | with info, long name (default the symbol) and currency (default INR) are shown; without it, the symbol and price only |
| StockTool.Fetched | tools/stock_tool.py:64-69 | the first lookup is of the cleaned symbol; a second, with `.NS` appended, only when the first found nothing and the symbol has no dot |
| StockTool.Execute | tools/stock_tool.py:28-81 | the symbols looked up are `Fetched`; the report names the last symbol fetched; total failure names the input as given; only `upper()` on a non-string raises |
| StockTool.CorrectedFetchedOnce | tools/stock_tool.py:44-69 | a symbol the corrections map knows is looked up exactly once, as corrected, and never retried with `.NS` |
| GitHubTool.SearchUrl | tools/github_tool.py:31 | the query appears in the search URL as `str(query)` |
| GitHubTool.RepoInfo | tools/github_tool.py:52-57 | an item is shown iff it has all four fields; the text starts with `Name: ` and ends with a line break |
| GitHubTool.RepoInfoText | tools/github_tool.py:52-57 | a complete item is shown as the lines `Name: `, `Stars: `, `Description: ` and `URL: ` with its four values, each ended by a line break |
| GitHubTool.Respond | tools/github_tool.py:39-62 | a failed request or undecodable body is reported with the tool's error prefix |
| GitHubTool.Execute | tools/github_tool.py:29-62 | one request; Accept header always, `Authorization: token <t>` iff the token is set and is not the placeholder; the reply handled as `Respond` |
| GitHubTool.Handle | tools/github_tool.py:41-62 | the guards and the formatting loop compute `Respond` |
| GitHubTool.StatusBeforeItems | tools/github_tool.py:41-42 | a non-200 status gives `Error searching GitHub: <code> - <text>` whatever the body |
| GitHubTool.NoItemsReported | tools/github_tool.py:44-48 | missing or empty `items` gives `No repositories found for query: <query>` |
| GitHubTool.ReposShownInOrder | tools/github_tool.py:50-60 | every repository appears, each followed by `\n---\n` and the next, in response order |
| GitHubTool.MissingFieldReported | tools/github_tool.py:50-62 | the first item missing a field makes the output that exception's report |
| NewsTool.SchemaRequiresNothing | tools/news_tool.py:10-31 | no parameter is required |
| NewsTool.DeleteLookup | tools/news_tool.py:50 | after `del`, the key is gone and every other key keeps its value |
| NewsTool.ParamsSelection | tools/news_tool.py:39-50 | token, `lang=en` and `max` always; `country=in` iff there is no topic; `q` iff there is one |
| NewsTool.ArticleLine | tools/news_tool.py:64-65 | an article line starts with `- [` |
| NewsTool.UnknownSource | tools/news_tool.py:64-65 | with no source, or a source without a name, the line is `- [Unknown] <title> (<url>)` |
| NewsTool.NamedSource | tools/news_tool.py:64-65 | an article whose source has a name is shown as `- [<name>] <title> (<url>)` |
| NewsTool.Respond | tools/news_tool.py:52-70 | a failed request or undecodable body is reported with the tool's error prefix |
| NewsTool.Execute | tools/news_tool.py:33-70 | no key means the error and no request; otherwise one request to the selected endpoint with the selected parameters, `count` defaulting to 5 |
| NewsTool.Handle | tools/news_tool.py:53-70 | the guards and the line loop compute `Respond` |
| NewsTool.StatusReported | tools/news_tool.py:55-56 | a non-200 reply reports its `errors`, or `Unknown error` |
| NewsTool.NoArticlesReported | tools/news_tool.py:58-60 | missing or empty `articles` gives `No news found.` |
| NewsTool.ArticlesShownInOrder | tools/news_tool.py:62-67 | every article line appears, each followed by a line break and the next, in order |
| NewsTool.BadArticleReported | tools/news_tool.py:62-70 | the first article that cannot be shown makes the output that exception's report |
| WeatherTool.FirstLocation | tools/weather_tool.py:37-40 | latitude, longitude and name come from the first geocoding result |
| WeatherTool.Execute | tools/weather_tool.py:28-55 | the geocoding request first; the forecast is asked for iff the reply has truthy `results` with a complete first entry, at that entry's position, and the output is then `Forecast` of the reply for that place |
| WeatherTool.NoCoordinates | tools/weather_tool.py:34-35 | missing or empty `results` gives the coordinates error naming the city, with no forecast request |
| WeatherTool.NoCurrentWeather | tools/weather_tool.py:46-47 | a forecast without `current_weather` gives the weather-data error naming the geocoded place |
| WeatherTool.CurrentWeatherReported | tools/weather_tool.py:49-53 | the report uses the geocoded name, the temperature and the wind speed |
| WeatherTool.FailuresReported | tools/weather_tool.py:54-55 | failed requests and undecodable replies are reported with the tool's error prefix |
| Text.StripEmptyIffBlank | main.py:84 | a line strips to nothing iff every character is whitespace |
| Console.ClassifySpec | main.py:81-86 | lower-case `exit`/`quit` quits; otherwise a line that strips to nothing is skipped; anything else is asked exactly as typed |
| Console.SessionRunsAskedQueries | main.py:79-86 | every query the loop runs was asked, and there are no more queries than commands |
| Console.SessionRunsTypedQueries | main.py:79-86 | every query run is a typed line that is neither blank nor a command |
| Console.SkipIgnored | main.py:84-85 | a skipped command changes nothing about the session |
| Console.BlankLineIgnored | main.py:84-85 | a blank line typed anywhere changes nothing about the session |
| Console.QuitEnds | main.py:81-83 | the first quit command ends the session; nothing after it runs |
| Console.QuitEndsSession | main.py:81-83 | the first `exit`/`quit` typed ends the session with the queries typed before it |
| App.Flow | main.py:23-34 | the planner asks first; the verifier asks second iff the flow finishes, and then about the executor's records |
| App.FalsyPlanStops | main.py:25-28 | a falsy plan stops the flow after the planner's request: no tool call, no verifier request |
| App.TruthyPlanRunsBoth | main.py:30-34 | a truthy plan is a list; the executor runs on exactly its steps, then the verifier once on its records, unless an exception escapes the executor |
| App.RunFlow | main.py:23-34 | `run_flow`: the requests and tool calls logged, and how it ends, are exactly those of `Flow` |
| App.Turn | main.py:80-86 | a typed line is classified; only a query makes requests; a command or blank line changes nothing |
| App.Converse | main.py:79-86 | the loop runs exactly the session's queries, in order; it ends by command iff the session quits; an escaping exception ends it partway |
| App.Assistant | main.py:36-89 | without an API key nothing runs; a command-line query runs the flow once and no loop; otherwise the prompt loop runs as `Converse` says |

## Left out

- Network and library calls are oracles: the OpenAI client, `requests.get`, yfinance and the
  Wikipedia library. The backend's answers and the tools' results are functions of their position
  in the environment's logs. HTTP replies are functions of the request.
- `execute` is abstract in the base tool, and a tool is reached through `Environment.perform`.
  That covers binding `**tool_args` to parameters and the `TypeError` a wrong argument raises.
- The Wikipedia tool: only its name, description and schema are modelled. Its `execute` is
  decided by a library that is not part of this model.
- `agents/base_agent.py` only stores the client and a name, so there is nothing to state about it.
- Numbers are kept as their JSON text. Float formatting (`{price:.2f}`, temperatures, wind
  speeds) is left out, and a price is the text the fetch returned.
- `json.loads` is a parameter (`None` for a decode error). `json.dumps` is written out, with its
  default separators, `ensure_ascii` escaping and the `indent=2` form used in the planner prompt.
- `repr` of a string escapes quotes, backslashes and ASCII control characters only. Python also
  escapes non-printable characters beyond ASCII.
- Lower- and upper-casing act on ASCII letters only. That decides `exit`/`quit` exactly, but not
  Unicode upper-casing of stock symbols.
- Console output is not modelled: rich panels, markdown rendering and its failures, the 200-character
  truncation, termcolor warnings, the welcome banner, argparse and `.env` loading.
- Rich markup errors are not modelled. `console.print` parses `[...]` tags in the step, tool,
  output and answer text it interpolates (agents/executor.py:19, 24 and 31; agents/planner.py:44;
  agents/verifier.py:55-56), and malformed markup there can raise. The model assumes printing
  never raises.
- `LLMClient.__init__`: constructing the OpenAI client and printing the missing-key warning are left out.
- CPython's exception texts are approximated by fixed messages of the same kind.
- URLs are built as plain text, as the code builds them. `requests` encodes query parameters,
  and that encoding is not modelled.
- Input ending at the prompt (EOF) ends the session as `InputClosed`. Python would raise `EOFError` there.
- App.Turn: states only that a query makes at least one completion request, and which exception
  escaped. The exact requests and calls are those of `App.Flow`, proved in `App.RunFlow`.
- App.Converse: states the growth of the completion log, not the exact requests of each query's
  flow.
- App.Assistant: states the same about the log as `App.Converse`, and the exact requests for
  the single-shot query only through `App.RunFlow`.
- Planner.PromptShowsEveryTool: states that each schema, and each adjacent pair, appears in the
  prompt, not the prompt's full text.
- GitHubTool.RepoInfo: its own contract states only the text's first label and final line break.
  The full text is `GitHubTool.RepoInfoText`.
- NewsTool.ArticleLine: its own contract states only the line's prefix. The full forms are
  `NewsTool.NamedSource` and `NewsTool.UnknownSource`.
