/** `GitHubTool`: searches repositories by stars and formats the top ones. The HTTP call reaches
    the tool as a function from the request it makes to the reply it gets. */
module GitHubTool {
  import opened Wrappers
  import opened Text
  import opened Json
  import opened Py
  import opened BaseTool
  import opened Http

  const Descriptor := Tool(
    "github_tool",
    "Searches for GitHub repositories and returns details (stars, description). Args: query (str)",
    Declared([Param("query", "string", "The search query for repositories")], ["query"]))

  /** A token with this placeholder value is treated as no token at all. */
  const TokenPlaceholder := "optional_github_token_here"

  const AcceptV3 := "application/vnd.github.v3+json"

  /** What every exception `execute` catches is reported after. */
  const ErrorPrefix := "Error executing GitHubTool: "

  const Separator := "\n---\n"

  /** The search URL, with the query written in as `str(query)` (it is not URL-encoded). */
  function SearchUrl(query: Json): (r: string)
    ensures Infix(Str(query), r)
  {
    var head := "https://api.github.com/search/repositories?q=";
    var r := head + Str(query) + "&sort=stars&order=desc&per_page=3";
    assert r[|head|..|head| + |Str(query)|] == Str(query);
    InfixHere(Str(query), r, |head|);
    r
  }

  /** The token is sent when `GITHUB_TOKEN` is set, non-empty and not the placeholder. */
  predicate UsesToken(token: Option<string>) {
    Present(token) && token.value != TokenPlaceholder
  }

  /** The text one repository is shown as: four lines, `Name`, `Stars`, `Description` and `URL`,
      each ended by a line break; or the exception reading a missing field raises. */
  function RepoInfo(item: Json): (r: Result<string>)
    ensures r.Ok? <==>
      HasKey(item, "full_name") && HasKey(item, "stargazers_count") && HasKey(item, "description") && HasKey(item, "html_url")
    ensures r.Ok? ==> |r.value| > 6 && r.value[..6] == "Name: " && r.value[|r.value| - 1] == '\n'
  {
    var name :- Item(item, "full_name");
    var stars :- Item(item, "stargazers_count");
    var description :- Item(item, "description");
    var url :- Item(item, "html_url");
    Ok("Name: " + Str(name) + "\nStars: " + Str(stars) + "\nDescription: " + Str(description) + "\nURL: " + Str(url) + "\n")
  }

  /** A repository with all four fields is shown as its name, star count, description and URL,
      each on a labelled line of its own. */
  lemma RepoInfoText(item: Json)
    requires item.JObj? && HasKey(item, "full_name") && HasKey(item, "stargazers_count")
    requires HasKey(item, "description") && HasKey(item, "html_url")
    ensures RepoInfo(item) ==
      Ok("Name: " + Str(Get(item, "full_name").value) + "\nStars: " + Str(Get(item, "stargazers_count").value)
         + "\nDescription: " + Str(Get(item, "description").value) + "\nURL: " + Str(Get(item, "html_url").value) + "\n")
  {
  }

  /** What `execute` returns once the reply to its request is known. A failed request and a body
      that is not JSON are caught and reported like every other exception. */
  function Respond(query: Json, reply: Reply): (r: string)
    ensures reply.Unreachable? ==> r == ErrorPrefix + reply.message
    ensures reply.Response? && reply.status == 200 && reply.body.Err? ==> r == ErrorPrefix + reply.body.message
  {
    match reply
    case Unreachable(m) => ErrorPrefix + m
    case Response(status, text, body) =>
      if status != 200 then "Error searching GitHub: " + NatToString(status) + " - " + text
      else
        match body
        case Err(m) => ErrorPrefix + m
        case Ok(data) =>
          match DictGet(data, "items", JArr([]))
          case Err(m) => ErrorPrefix + m
          case Ok(items) =>
            if !Truthy(items) then "No repositories found for query: " + Str(query)
            else
              match Iterate(items)
              case Err(m) => ErrorPrefix + m
              case Ok(list) =>
                match MapResults(RepoInfo, list)
                case Err(m) => ErrorPrefix + m
                case Ok(infos) => Join(infos, Separator)
  }

  /** `execute(query)`: one request carrying the Accept header, and the token when one is
      configured; the reply is handled as `Respond` says, and nothing escapes as an exception. */
  method Execute(query: Json, environ: Environ, get: Request -> Reply) returns (out: string, requests: seq<Request>)
    ensures |requests| == 1 && requests[0].url == SearchUrl(query) && requests[0].params == []
    ensures var token := GetEnv(environ, "GITHUB_TOKEN");
      requests[0].headers == [("Accept", AcceptV3)] + (if UsesToken(token) then [("Authorization", "token " + token.value)] else [])
    ensures out == Respond(query, get(requests[0]))
  {
    var headers := [("Accept", AcceptV3)];
    var token := GetEnv(environ, "GITHUB_TOKEN");
    if Present(token) && token.value != TokenPlaceholder {
      headers := headers + [("Authorization", "token " + token.value)];
    }
    var request := HttpGet(SearchUrl(query), [], headers);
    requests := [request];
    out := Handle(query, get(request));
  }

  /** The body of the `try` after `requests.get`: the guards, then the formatting loop. */
  method Handle(query: Json, reply: Reply) returns (out: string)
    ensures out == Respond(query, reply)
  {
    if reply.Unreachable? {
      return ErrorPrefix + reply.message;
    }
    if reply.status != 200 {
      return "Error searching GitHub: " + NatToString(reply.status) + " - " + reply.text;
    }
    if reply.body.Err? {
      return ErrorPrefix + reply.body.message;
    }
    var items := DictGet(reply.body.value, "items", JArr([]));
    if items.Err? {
      return ErrorPrefix + items.message;
    }
    if !Truthy(items.value) {
      return "No repositories found for query: " + Str(query);
    }
    var list := Iterate(items.value);
    if list.Err? {
      return ErrorPrefix + list.message;
    }
    var infos := CollectAll(RepoInfo, list.value);
    if infos.Err? {
      return ErrorPrefix + infos.message;
    }
    out := Join(infos.value, Separator);
  }

  /** A non-200 status is reported with its code and body text, whatever the body holds: the
      items are not looked at. */
  lemma StatusBeforeItems(query: Json, status: nat, text: string, body1: Result<Json>, body2: Result<Json>)
    requires status != 200
    ensures Respond(query, Response(status, text, body1)) == Respond(query, Response(status, text, body2))
    ensures Respond(query, Response(status, text, body1)) == "Error searching GitHub: " + NatToString(status) + " - " + text
  {
  }

  /** Missing or empty `items` is reported with the query. */
  lemma NoItemsReported(query: Json, text: string, data: Json)
    requires data.JObj?
    requires Lookup(data.fields, "items").None? || Lookup(data.fields, "items") == Some(JArr([]))
    ensures Respond(query, Response(200, text, Ok(data))) == "No repositories found for query: " + Str(query)
  {
  }

  /** When every repository can be shown, each one's text appears in the output, and each is
      followed directly by the separator and the next one: response order is kept. */
  lemma ReposShownInOrder(query: Json, text: string, data: Json, items: seq<Json>, i: int)
    requires data.JObj? && Lookup(data.fields, "items") == Some(JArr(items))
    requires forall j :: 0 <= j < |items| ==> RepoInfo(items[j]).Ok?
    requires 0 <= i < |items|
    ensures Infix(RepoInfo(items[i]).value, Respond(query, Response(200, text, Ok(data))))
    ensures i + 1 < |items| ==>
      Infix(RepoInfo(items[i]).value + Separator + RepoInfo(items[i + 1]).value, Respond(query, Response(200, text, Ok(data))))
  {
    MapResultsOk(RepoInfo, items);
    var infos := MapResults(RepoInfo, items).value;
    assert Respond(query, Response(200, text, Ok(data))) == Join(infos, Separator);
    InfixJoin(infos, Separator, i);
    if i + 1 < |items| {
      InfixJoinPair(infos, Separator, i);
    }
  }

  /** An item lacking a field makes the whole output the error report of the first such item;
      no partial list is returned. */
  lemma MissingFieldReported(query: Json, text: string, data: Json, items: seq<Json>, i: int)
    requires data.JObj? && Lookup(data.fields, "items") == Some(JArr(items))
    requires 0 <= i < |items| && RepoInfo(items[i]).Err?
    requires forall j :: 0 <= j < i ==> RepoInfo(items[j]).Ok?
    ensures Respond(query, Response(200, text, Ok(data))) == ErrorPrefix + RepoInfo(items[i]).message
  {
    MapResultsFirstFailure(RepoInfo, items, i);
  }
}
