/** `LLMClient`: configuration from arguments and the process environment, and one
    chat-completion call that cleans the reply and turns any failure into `"{}"`. */
module LlmClient {
  import opened Wrappers
  import opened Text
  import opened Json
  import opened Py
  import opened Backend

  const DefaultModel := "llama-3.3-70b-versatile"
  /** A retired model name that is rewritten to the default one. */
  const RetiredModel := "llama3-70b-8192"
  const GroqBaseUrl := "https://api.groq.com/openai/v1"
  /** What `chat_completion` returns when the call fails, so that JSON parsing downstream still works. */
  const FailureReply := "{}"
  const JsonFence := "```json"

  /** The API key: the explicit one, else `GROQ_API_KEY`, else `OPENAI_API_KEY` (empty values count as unset). */
  function ResolveApiKey(apiKey: Option<string>, environ: Environ): (r: Option<string>)
    ensures Present(apiKey) ==> r == apiKey
    ensures !Present(apiKey) && Present(GetEnv(environ, "GROQ_API_KEY")) ==> r == GetEnv(environ, "GROQ_API_KEY")
    ensures !Present(apiKey) && !Present(GetEnv(environ, "GROQ_API_KEY")) ==> r == GetEnv(environ, "OPENAI_API_KEY")
  {
    Or(Or(apiKey, GetEnv(environ, "GROQ_API_KEY")), GetEnv(environ, "OPENAI_API_KEY"))
  }

  /** The model name after the alias rewrite. */
  function ResolveModel(model: string): (r: string)
    ensures model == RetiredModel ==> r == DefaultModel
    ensures model != RetiredModel ==> r == model
  {
    if model == RetiredModel then DefaultModel else model
  }

  /** The reply text with every "```json" and then every "```" removed, and whitespace stripped. */
  function CleanContent(content: string): string {
    Strip(RemoveAll(RemoveAll(content, JsonFence), Fence))
  }

  /** What `chat_completion` returns for a completion: `"{}"` on failure, empty or missing
      content unchanged, otherwise the cleaned content. */
  function Reply(c: Completion): (r: Option<string>)
    ensures c.Failed? ==> r == Some(FailureReply)
    ensures c.Completed? && !Present(c.content) ==> r == c.content
    ensures c.Completed? && Present(c.content) ==> r == Some(CleanContent(c.content.value))
  {
    match c
    case Failed(_) => Some(FailureReply)
    case Completed(content) => if Present(content) then Some(CleanContent(content.value)) else content
  }

  /** The cleaned text never contains a code fence. */
  lemma CleanContentFenceFree(content: string)
    ensures !Infix(Fence, CleanContent(content))
  {
    var removed := RemoveAll(RemoveAll(content, JsonFence), Fence);
    RemoveFenceLeavesNone(RemoveAll(content, JsonFence));
    FenceFreeHasNoFence(removed);
    if Infix(Fence, Strip(removed)) {
      InfixOfStrip(Fence, removed);
    }
  }

  /** Whatever the backend answers, the text `chat_completion` returns holds no code fence. */
  lemma ReplyFenceFree(c: Completion)
    requires Reply(c).Some?
    ensures !Infix(Fence, Reply(c).value)
  {
    if c.Completed? && Present(c.content) {
      CleanContentFenceFree(c.content.value);
    }
  }

  /** The `response_format` that JSON mode adds. */
  function JsonObjectFormat(): Json {
    JObj([("type", JStr("json_object"))])
  }

  class Client {
    var apiKey: Option<string>
    var baseUrl: Option<string>
    var model: string

    /** `LLMClient(api_key, base_url, model)` reading the process environment `environ`. */
    constructor(apiKey: Option<string>, baseUrl: Option<string>, model: string, environ: Environ)
      ensures this.apiKey == ResolveApiKey(apiKey, environ)
      ensures Present(baseUrl) ==> this.baseUrl == baseUrl
      ensures !Present(baseUrl) && Present(GetEnv(environ, "LLM_BASE_URL")) ==> this.baseUrl == GetEnv(environ, "LLM_BASE_URL")
      ensures !Present(baseUrl) && !Present(GetEnv(environ, "LLM_BASE_URL")) ==>
        this.baseUrl == if Present(GetEnv(environ, "GROQ_API_KEY")) then Some(GroqBaseUrl) else GetEnv(environ, "LLM_BASE_URL")
      ensures this.model == ResolveModel(model)
    {
      this.apiKey := Or(Or(apiKey, GetEnv(environ, "GROQ_API_KEY")), GetEnv(environ, "OPENAI_API_KEY"));
      this.baseUrl := Or(baseUrl, GetEnv(environ, "LLM_BASE_URL"));
      this.model := model;
      new;
      if !Present(this.baseUrl) && Present(GetEnv(environ, "GROQ_API_KEY")) {
        this.baseUrl := Some(GroqBaseUrl);
      }
      if this.model == RetiredModel {
        this.model := DefaultModel;
      }
    }

    /** `chat_completion(messages, json_mode)`: one request carrying the configured model and the
        messages unchanged, with `response_format` exactly when `jsonMode` is set. */
    method ChatCompletion(messages: seq<Message>, jsonMode: bool, env: Environment) returns (r: Option<string>)
      modifies env
      ensures env.chatLog == old(env.chatLog) + [ChatRequest(model, messages, if jsonMode then Some(JsonObjectFormat()) else None)]
      ensures env.toolLog == old(env.toolLog)
      ensures r == Reply(env.answer(|old(env.chatLog)|, env.chatLog[|old(env.chatLog)|]))
    {
      var kwargs := ChatRequest(model, messages, None);
      if jsonMode {
        kwargs := kwargs.(responseFormat := Some(JsonObjectFormat()));
      }
      var completion := env.Complete(kwargs);
      r := Reply(completion);
    }
  }
}
