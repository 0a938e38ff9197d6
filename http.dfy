/** What the tools see of `requests.get`: the request they make and the reply they get back.
    The network itself is not modelled; each tool receives the replies as a function. */
module Http {
  import opened Wrappers
  import opened Json

  /** `requests.get(url, params=..., headers=...)`; unused arguments are empty. */
  datatype Request = HttpGet(url: string, params: seq<(string, Json)>, headers: seq<(string, string)>)

  /** Either `requests.get` raised, or a response arrived with a status code, a body text and the
      outcome of `response.json()` (an error message when the body is not JSON). */
  datatype Reply =
    | Unreachable(message: string)
    | Response(status: nat, text: string, body: Result<Json>)

  /** `requests.get(...).json()`: the exception of either call, or the decoded body. */
  function Body(reply: Reply): (r: Result<Json>)
    ensures reply.Unreachable? ==> r == Err(reply.message)
    ensures reply.Response? ==> r == reply.body
  {
    match reply
    case Unreachable(message) => Err(message)
    case Response(_, _, body) => body
  }
}
