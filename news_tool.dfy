/** `NewsTool`: top headlines for India from GNews, or a search when a topic is given. The HTTP
    call reaches the tool as a function from the request it makes to the reply it gets. */
module NewsTool {
  import opened Wrappers
  import opened Text
  import opened Json
  import opened Py
  import opened BaseTool
  import opened Http

  const Descriptor := Tool(
    "news_tool",
    "Fetches top news from India (GNews). Args: query (optional str), count (int, default 5)",
    Declared([Param("query", "string", "Specific topic to search for (optional)"),
              Param("count", "integer", "Number of stories (default 5)")], []))

  /** The default of `count`. */
  const DefaultCount := JNum("5")

  const MissingKey := "Error: GNEWS_API_KEY not found in .env"
  const HeadlinesUrl := "https://gnews.io/api/v4/top-headlines"
  const SearchUrl := "https://gnews.io/api/v4/search"

  /** What every exception `execute` catches is reported after. */
  const ErrorPrefix := "Error executing NewsTool: "

  /** Nothing is required: both arguments have defaults. */
  lemma SchemaRequiresNothing()
    ensures Path(ToSchema(Descriptor), ["function", "parameters", "required"]) == Some(JArr([]))
  {
  }

  /** `del params[key]`: the bindings of other keys, in their order. */
  function Delete(params: seq<(string, Json)>, key: string): seq<(string, Json)> {
    if params == [] then []
    else if params[0].0 == key then Delete(params[1..], key)
    else [params[0]] + Delete(params[1..], key)
  }

  /** After `del`, the key is gone and every other key keeps its value. */
  lemma {:induction false} DeleteLookup(params: seq<(string, Json)>, key: string, other: string)
    ensures Lookup(Delete(params, key), key).None?
    ensures other != key ==> Lookup(Delete(params, key), other) == Lookup(params, other)
  {
    if params != [] {
      DeleteLookup(params[1..], key, other);
      var rest := Delete(params[1..], key);
      if params[0].0 != key {
        assert ([params[0]] + rest)[1..] == rest;
      }
    }
  }

  /** A key absent from the bindings leaves them as they are. */
  lemma {:induction false} DeleteAbsent(params: seq<(string, Json)>, key: string)
    requires forall i :: 0 <= i < |params| ==> params[i].0 != key
    ensures Delete(params, key) == params
  {
    if params != [] {
      DeleteAbsent(params[1..], key);
    }
  }

  /** The endpoint: search when there is a topic, top headlines otherwise. */
  function Endpoint(query: Json): string {
    if Truthy(query) then SearchUrl else HeadlinesUrl
  }

  /** The query parameters sent, in the order the dict holds them. */
  function QueryParams(apiKey: string, query: Json, count: Json): seq<(string, Json)> {
    if Truthy(query) then [("token", JStr(apiKey)), ("lang", JStr("en")), ("max", count), ("q", query)]
    else [("token", JStr(apiKey)), ("country", JStr("in")), ("lang", JStr("en")), ("max", count)]
  }

  /** The token, `lang="en"` and `max=count` are always sent; `country="in"` only without a
      topic, and `q` (the topic) only with one. */
  lemma ParamsSelection(apiKey: string, query: Json, count: Json)
    ensures var p := QueryParams(apiKey, query, count);
      Lookup(p, "token") == Some(JStr(apiKey)) && Lookup(p, "lang") == Some(JStr("en")) && Lookup(p, "max") == Some(count) &&
      (Lookup(p, "country").Some? <==> !Truthy(query)) && (!Truthy(query) ==> Lookup(p, "country") == Some(JStr("in"))) &&
      (Lookup(p, "q").Some? <==> Truthy(query)) && (Truthy(query) ==> Lookup(p, "q") == Some(query))
  {
    var p := QueryParams(apiKey, query, count);
    LookupFinds(p, "token", 0);
    if Truthy(query) {
      LookupFinds(p, "lang", 1);
      LookupFinds(p, "max", 2);
      LookupFinds(p, "q", 3);
      LookupMissing(p, "country");
    } else {
      LookupFinds(p, "country", 1);
      LookupFinds(p, "lang", 2);
      LookupFinds(p, "max", 3);
      LookupMissing(p, "q");
    }
  }

  /** One article's line, `- [source] title (url)`, with the source's name defaulting to
      `Unknown`; or the exception reading it raises. */
  function ArticleLine(art: Json): (r: Result<string>)
    ensures r.Ok? ==> |r.value| > 3 && r.value[..3] == "- ["
  {
    var source :- DictGet(art, "source", JObj([]));
    var name :- DictGet(source, "name", JStr("Unknown"));
    var title :- Item(art, "title");
    var url :- Item(art, "url");
    Ok("- [" + Str(name) + "] " + Str(title) + " (" + Str(url) + ")")
  }

  /** An article without a source, or whose source has no name, is shown as from `Unknown`. */
  lemma UnknownSource(art: Json)
    requires art.JObj? && HasKey(art, "title") && HasKey(art, "url")
    requires Lookup(art.fields, "source").None? ||
      (Lookup(art.fields, "source").value.JObj? && Lookup(Lookup(art.fields, "source").value.fields, "name").None?)
    ensures ArticleLine(art) == Ok("- [Unknown] " + Str(Lookup(art.fields, "title").value) + " (" + Str(Lookup(art.fields, "url").value) + ")")
  {
    var source := DictGet(art, "source", JObj([]));
    assert source.Ok? && source.value.JObj? && Lookup(source.value.fields, "name").None?;
    assert DictGet(source.value, "name", JStr("Unknown")) == Ok(JStr("Unknown"));
    assert Item(art, "title") == Ok(Lookup(art.fields, "title").value);
    assert Item(art, "url") == Ok(Lookup(art.fields, "url").value);
    assert "- [" + "Unknown" + "] " == "- [Unknown] ";
  }

  /** An article whose source has a name is shown as `- [<name>] <title> (<url>)`. */
  lemma NamedSource(art: Json, source: Json, name: Json)
    requires art.JObj? && HasKey(art, "title") && HasKey(art, "url")
    requires Lookup(art.fields, "source") == Some(source) && source.JObj? && Lookup(source.fields, "name") == Some(name)
    ensures ArticleLine(art) ==
      Ok("- [" + Str(name) + "] " + Str(Lookup(art.fields, "title").value) + " (" + Str(Lookup(art.fields, "url").value) + ")")
  {
    assert Item(art, "title") == Ok(Lookup(art.fields, "title").value);
    assert Item(art, "url") == Ok(Lookup(art.fields, "url").value);
  }

  /** What `execute` returns once the reply to its request is known. The body is decoded before
      the status is looked at, so an error reply that is not JSON is reported as an exception. */
  function Respond(reply: Reply): (r: string)
    ensures reply.Unreachable? ==> r == ErrorPrefix + reply.message
    ensures reply.Response? && reply.body.Err? ==> r == ErrorPrefix + reply.body.message
  {
    match reply
    case Unreachable(m) => ErrorPrefix + m
    case Response(status, _, body) =>
      match body
      case Err(m) => ErrorPrefix + m
      case Ok(data) =>
        if status != 200 then
          match DictGet(data, "errors", JStr("Unknown error"))
          case Err(m) => ErrorPrefix + m
          case Ok(errors) => "Error from GNews API: " + Str(errors)
        else
          match DictGet(data, "articles", JArr([]))
          case Err(m) => ErrorPrefix + m
          case Ok(articles) =>
            if !Truthy(articles) then "No news found."
            else
              match Iterate(articles)
              case Err(m) => ErrorPrefix + m
              case Ok(list) =>
                match MapResults(ArticleLine, list)
                case Err(m) => ErrorPrefix + m
                case Ok(lines) => Join(lines, "\n")
  }

  /** `execute(query=None, count=5)`; an argument not passed is `None` here. Without an API key
      it returns at once, before any request; otherwise it makes one request to the endpoint the
      topic selects, with the parameters `QueryParams` lists, and handles the reply as `Respond`
      says. */
  method Execute(query: Option<Json>, count: Option<Json>, environ: Environ, get: Request -> Reply)
    returns (out: string, requests: seq<Request>)
    ensures var apiKey := GetEnv(environ, "GNEWS_API_KEY");
      !Present(apiKey) ==> out == MissingKey && requests == []
    ensures var apiKey := GetEnv(environ, "GNEWS_API_KEY");
      Present(apiKey) ==>
        var topic := query.GetOr(JNull);
        requests == [HttpGet(Endpoint(topic), QueryParams(apiKey.value, topic, count.GetOr(DefaultCount)), [])] &&
        out == Respond(get(requests[0]))
  {
    var topic := query.GetOr(JNull);
    var max := count.GetOr(DefaultCount);
    var apiKey := GetEnv(environ, "GNEWS_API_KEY");
    if !Present(apiKey) {
      return MissingKey, [];
    }
    var url := HeadlinesUrl;
    var params := [("token", JStr(apiKey.value)), ("country", JStr("in")), ("lang", JStr("en")), ("max", max)];
    if Truthy(topic) {
      url := SearchUrl;
      params := params + [("q", topic)];
      assert params[2..] == [("lang", JStr("en")), ("max", max), ("q", topic)];
      DeleteAbsent(params[2..], "country");
      assert params[1..][1..] == params[2..];
      assert Delete(params[1..], "country") == Delete(params[2..], "country");
      assert Delete(params, "country") == [params[0]] + params[2..];
      params := Delete(params, "country");
      assert params == QueryParams(apiKey.value, topic, max);
    }
    assert params == QueryParams(apiKey.value, topic, max);
    assert url == Endpoint(topic);
    var request := HttpGet(url, params, []);
    requests := [request];
    out := Handle(get(request));
  }

  /** The body of the `try` after `requests.get`: decoding, the guards, then the line loop. */
  method Handle(reply: Reply) returns (out: string)
    ensures out == Respond(reply)
  {
    if reply.Unreachable? {
      return ErrorPrefix + reply.message;
    }
    if reply.body.Err? {
      return ErrorPrefix + reply.body.message;
    }
    var data := reply.body.value;
    if reply.status != 200 {
      var errors := DictGet(data, "errors", JStr("Unknown error"));
      if errors.Err? {
        return ErrorPrefix + errors.message;
      }
      return "Error from GNews API: " + Str(errors.value);
    }
    var articles := DictGet(data, "articles", JArr([]));
    if articles.Err? {
      return ErrorPrefix + articles.message;
    }
    if !Truthy(articles.value) {
      return "No news found.";
    }
    var list := Iterate(articles.value);
    if list.Err? {
      return ErrorPrefix + list.message;
    }
    var lines := CollectAll(ArticleLine, list.value);
    if lines.Err? {
      return ErrorPrefix + lines.message;
    }
    out := Join(lines.value, "\n");
  }

  /** A non-200 reply with a JSON object body reports its `errors`, or `Unknown error`. */
  lemma StatusReported(status: nat, text: string, data: Json)
    requires status != 200 && data.JObj?
    ensures Respond(Response(status, text, Ok(data)))
         == "Error from GNews API: " + Str(Lookup(data.fields, "errors").GetOr(JStr("Unknown error")))
  {
  }

  /** Missing or empty `articles` gives the fixed message. */
  lemma NoArticlesReported(text: string, data: Json)
    requires data.JObj?
    requires Lookup(data.fields, "articles").None? || Lookup(data.fields, "articles") == Some(JArr([]))
    ensures Respond(Response(200, text, Ok(data))) == "No news found."
  {
  }

  /** When every article can be shown, each line appears in the output, and each is followed
      directly by a line break and the next one: response order is kept. */
  lemma ArticlesShownInOrder(text: string, data: Json, articles: seq<Json>, i: int)
    requires data.JObj? && Lookup(data.fields, "articles") == Some(JArr(articles))
    requires forall j :: 0 <= j < |articles| ==> ArticleLine(articles[j]).Ok?
    requires 0 <= i < |articles|
    ensures Infix(ArticleLine(articles[i]).value, Respond(Response(200, text, Ok(data))))
    ensures i + 1 < |articles| ==>
      Infix(ArticleLine(articles[i]).value + "\n" + ArticleLine(articles[i + 1]).value, Respond(Response(200, text, Ok(data))))
  {
    MapResultsOk(ArticleLine, articles);
    var lines := MapResults(ArticleLine, articles).value;
    assert Respond(Response(200, text, Ok(data))) == Join(lines, "\n");
    InfixJoin(lines, "\n", i);
    if i + 1 < |articles| {
      InfixJoinPair(lines, "\n", i);
    }
  }

  /** An article that cannot be shown makes the whole output the report of the first such
      article's exception. */
  lemma BadArticleReported(text: string, data: Json, articles: seq<Json>, i: int)
    requires data.JObj? && Lookup(data.fields, "articles") == Some(JArr(articles))
    requires 0 <= i < |articles| && ArticleLine(articles[i]).Err?
    requires forall j :: 0 <= j < i ==> ArticleLine(articles[j]).Ok?
    ensures Respond(Response(200, text, Ok(data))) == ErrorPrefix + ArticleLine(articles[i]).message
  {
    MapResultsFirstFailure(ArticleLine, articles, i);
  }
}
