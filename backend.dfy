/** The outside world the agents talk to: the chat-completion backend and the tools' `execute`.
    Both are oracles whose answers are fixed in advance and may differ from call to call; the
    environment logs every request so that what was asked, and how often, can be stated. */
module Backend {
  import opened Wrappers
  import opened Json
  import opened BaseTool

  /** One chat message, `{"role": ..., "content": ...}`. */
  datatype Message = Message(role: string, content: string)

  /** The keyword arguments of `client.chat.completions.create`. */
  datatype ChatRequest = ChatRequest(model: string, messages: seq<Message>, responseFormat: Option<Json>)

  /** The outcome of a completion call: the first choice's message content (which may be
      `None`), or the message of the exception raised while calling or reading the response. */
  datatype Completion = Completed(content: Option<string>) | Failed(message: string)

  /** `tool.execute(**args)`: the tool and the argument mapping it is called with. */
  datatype Invocation = Invocation(tool: Tool, args: Json)

  /** What `execute` did: returned a value, or raised an exception with this `str(e)`.
      Binding `args` to the tool's parameters happens inside the call, so an argument the
      tool does not accept is also an exception here. */
  datatype ToolResult = Returned(value: Json) | Raised(message: string)

  class Environment {
    /** Every completion request made so far, in order. */
    var chatLog: seq<ChatRequest>
    /** Every tool invocation made so far, in order. */
    var toolLog: seq<Invocation>
    /** The backend's answer to the `n`-th completion request. */
    const answer: (nat, ChatRequest) -> Completion
    /** The tool's behaviour on the `n`-th invocation. */
    const perform: (nat, Invocation) -> ToolResult

    constructor(answer: (nat, ChatRequest) -> Completion, perform: (nat, Invocation) -> ToolResult)
      ensures this.answer == answer && this.perform == perform
      ensures chatLog == [] && toolLog == []
    {
      this.answer := answer;
      this.perform := perform;
      chatLog := [];
      toolLog := [];
    }

    method Complete(request: ChatRequest) returns (c: Completion)
      modifies this
      ensures chatLog == old(chatLog) + [request] && toolLog == old(toolLog)
      ensures c == answer(|old(chatLog)|, request)
    {
      c := answer(|chatLog|, request);
      chatLog := chatLog + [request];
    }

    method Invoke(invocation: Invocation) returns (t: ToolResult)
      modifies this
      ensures toolLog == old(toolLog) + [invocation] && chatLog == old(chatLog)
      ensures t == perform(|old(toolLog)|, invocation)
    {
      t := perform(|toolLog|, invocation);
      toolLog := toolLog + [invocation];
    }
  }
}
