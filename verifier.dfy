/** `VerifierAgent`: asks the model, in JSON mode, to turn the query and the execution records
    into an answer and shows that answer. Whatever the model sends back, `run` catches every
    exception and returns the model's raw reply. */
module Verifier {
  import opened Wrappers
  import opened Text
  import opened Json
  import opened Py
  import opened Backend
  import opened LlmClient
  import opened Executor

  const SystemPrompt :=
    "\n" +
    "        You are the Verifier Agent.\n" +
    "        Review the execution results against the original query.\n" +
    "        Synthesize a final natural language answer.\n" +
    "        \n" +
    "        Return JSON strictly.\n" +
    "        Format the answer as a list of strings called \"answer_points\", where each string is a bullet point.\n" +
    "        \n" +
    "        Return JSON:\n" +
    "        {\n" +
    "            \"answer_points\": [\n" +
    "                \"Point 1...\",\n" +
    "                \"Point 2...\"\n" +
    "            ],\n" +
    "            \"success\": true\n" +
    "        }\n" +
    "        "

  /** The answer shown when the reply has neither points nor a final answer. */
  const Placeholder := "No answer provided."

  /** The text before the serialised records in the user message. */
  function ContentHead(query: string): string {
    "Query: " + query + "\nResults: "
  }

  /** The user message: the query, then the records as `json.dumps` writes them. */
  function UserContent(query: string, results: seq<StepRecord>): string {
    ContentHead(query) + Serialize(JArr(RecordsJson(results)))
  }

  function Messages(query: string, results: seq<StepRecord>): (r: seq<Message>)
    ensures |r| == 2
    ensures r[0] == Message("system", SystemPrompt) && r[1] == Message("user", UserContent(query, results))
  {
    [Message("system", SystemPrompt), Message("user", UserContent(query, results))]
  }

  /** The user message starts with the query and shows every record, whole and in JSON form. */
  lemma UserContentShowsRecords(query: string, results: seq<StepRecord>, i: int)
    requires 0 <= i < |results|
    ensures UserContent(query, results)[..7 + |query|] == "Query: " + query
    ensures Infix(Serialize(RecordJson(results[i])), UserContent(query, results))
  {
    var listed := Serialize(JArr(RecordsJson(results)));
    SerializeShowsItem(RecordsJson(results), i);
    InfixWithin(Serialize(RecordJson(results[i])), listed, ContentHead(query), "");
    assert ContentHead(query) + listed + "" == UserContent(query, results);
  }

  /** What the end of `run` shows: the answer (as Markdown), or the exception its `try` caught:
      a reply `json.loads` cannot decode, a `final_answer` that is not text (the Markdown
      renderer rejects it), or another exception with its message. */
  datatype Display =
    | Answer(markdown: string)
    | Undecodable
    | NotMarkdown(value: Json)
    | Caught(message: string)

  /** `f"- {p}"` for each point. */
  function Bullets(items: seq<Json>): (r: seq<string>)
    ensures |r| == |items|
    ensures forall i :: 0 <= i < |items| ==> r[i] == "- " + Str(items[i])
  {
    seq(|items|, i requires 0 <= i < |items| => "- " + Str(items[i]))
  }

  /** `"\n".join([f"- {p}" for p in points])`, or the exception iterating `points` raises. */
  function BulletList(points: Json): (r: Result<string>)
    ensures r.Ok? <==> Iterate(points).Ok?
    ensures r.Ok? ==> r.value == Join(Bullets(Iterate(points).value), "\n")
  {
    var items :- Iterate(points);
    Ok(Join(Bullets(items), "\n"))
  }

  /** The selection of the answer from the decoded reply. */
  function Select(data: Json): Display {
    match DictGet(data, "answer_points", JArr([]))
    case Err(m) => Caught(m)
    case Ok(points) =>
      if !Truthy(points) && HasKey(data, "final_answer") then
        var answer := Get(data, "final_answer").value;
        if answer.JStr? then Answer(answer.s) else NotMarkdown(answer)
      else if Truthy(points) then
        match BulletList(points)
        case Err(m) => Caught(m)
        case Ok(text) => Answer(text)
      else Answer(Placeholder)
  }

  /** Everything `run` does after the completion call, given the client's reply. */
  function Render(response: Option<string>, loads: string -> Option<Json>): (r: Display)
    ensures response.None? ==> r == Caught(NoneNotText)
    ensures response.Some? && loads(response.value).None? ==> r == Undecodable
    ensures response.Some? && loads(response.value).Some? ==> r == Select(loads(response.value).value)
  {
    match response
    case None => Caught(NoneNotText)
    case Some(text) =>
      match loads(text)
      case None => Undecodable
      case Some(data) => Select(data)
  }

  /** A non-empty list of answer points is shown as one bullet line per point, in order,
      whatever else the reply holds; a point that is text appears verbatim after its dash. */
  lemma PointsShown(data: Json, items: seq<Json>)
    requires data.JObj? && Get(data, "answer_points") == Some(JArr(items)) && items != []
    ensures Select(data) == Answer(Join(Bullets(items), "\n"))
    ensures forall i :: 0 <= i < |items| ==> Infix("- " + Str(items[i]), Select(data).markdown)
    ensures forall i :: 0 <= i < |items| && items[i].JStr? ==> Infix("- " + items[i].s, Select(data).markdown)
  {
    forall i | 0 <= i < |items|
      ensures Infix("- " + Str(items[i]), Join(Bullets(items), "\n"))
    {
      InfixJoin(Bullets(items), "\n", i);
    }
  }

  /** With no (or empty) answer points, a textual `final_answer` is shown as it is. */
  lemma FinalAnswerShown(data: Json, answer: string)
    requires data.JObj? && Get(data, "final_answer") == Some(JStr(answer))
    requires !HasKey(data, "answer_points") || !Truthy(Get(data, "answer_points").value)
    ensures Select(data) == Answer(answer)
  {
  }

  /** With neither answer points nor a final answer, the placeholder is shown. */
  lemma PlaceholderShown(data: Json)
    requires data.JObj? && !HasKey(data, "final_answer")
    requires !HasKey(data, "answer_points") || !Truthy(Get(data, "answer_points").value)
    ensures Select(data) == Answer(Placeholder)
  {
  }

  /** A decoded reply that is not an object is reported, not shown: `get` does not exist on it. */
  lemma NonObjectCaught(data: Json)
    requires !data.JObj?
    ensures Select(data) == Caught(NoAttribute(data, "get"))
  {
  }

  /** When the completion call fails, the client's `"{}"` decodes to an empty object and the
      placeholder is shown. */
  lemma FailedCallShowsPlaceholder(c: Completion, loads: string -> Option<Json>)
    requires c.Failed?
    requires loads(FailureReply) == Some(JObj([]))
    ensures Render(Reply(c), loads) == Answer(Placeholder)
  {
    PlaceholderShown(JObj([]));
  }

  class VerifierAgent {
    const llm: Client

    constructor(llm: Client)
      ensures this.llm == llm
    {
      this.llm := llm;
    }

    /** `run(original_query, execution_results)`: one JSON-mode completion over
        `[system prompt, user content]`; the answer shown is read from the reply, and the reply
        itself is returned on every path. */
    method Run(query: string, results: seq<StepRecord>, env: Environment, loads: string -> Option<Json>)
      returns (response: Option<string>, shown: Display)
      modifies env
      ensures env.chatLog == old(env.chatLog) + [ChatRequest(llm.model, Messages(query, results), Some(JsonObjectFormat()))]
      ensures env.toolLog == old(env.toolLog)
      ensures response == Reply(env.answer(|old(env.chatLog)|, env.chatLog[|old(env.chatLog)|]))
      ensures shown == Render(response, loads)
    {
      response := llm.ChatCompletion(Messages(query, results), true, env);
      shown := Render(response, loads);
    }
  }
}
