/** `StockTool`: normalises the symbol, looks its price up (retrying on the NSE when a bare symbol
    finds nothing) and reports it. The market-data library is not modelled: its price lookup
    and its ticker information reach the tool as functions. */
module StockTool {
  import opened Wrappers
  import opened Text
  import opened Json
  import opened Py
  import opened BaseTool

  const Descriptor := Tool(
    "stock_tool",
    "Fetches stock price for a given symbol. Use .NS for NSE (e.g. RELIANCE.NS) and .BO for BSE (e.g. TCS.BO). Args: symbol (str)",
    Declared([Param("symbol", "string", "The stock symbol (e.g., AAPL, RELIANCE.NS, TCS.BO)")], ["symbol"]))

  /** The schema asks for `symbol` and nothing else. */
  lemma SchemaRequiresSymbol()
    ensures Path(ToSchema(Descriptor), ["function", "parameters", "required"]) == Some(JArr([JStr("symbol")]))
  {
    assert Strings(["symbol"]).items == [JStr("symbol")];
  }

  /** The common mistakes `execute` corrects. */
  const Corrections: map<string, string> := map[
    "LICIND.NS" := "LICI.NS", "LIC" := "LICI.NS", "RELIANCE" := "RELIANCE.NS", "TCS" := "TCS.NS",
    "INFY" := "INFY.NS", "HDFCBANK" := "HDFCBANK.NS", "SBI" := "SBIN.NS", "SBIN" := "SBIN.NS",
    "TATAMOTORS" := "TATAMOTORS.NS", "ZOMATO" := "ZOMATO.NS"]

  /** `symbol.upper().strip()`, replaced by its correction when it has one. */
  function CleanSymbol(symbol: string): string {
    var u := Strip(UpperAscii(symbol));
    if u in Corrections then Corrections[u] else u
  }

  /** Upper-case letters and dots: what the corrections map produces. */
  predicate ListingText(v: string) {
    forall i :: 0 <= i < |v| ==> ('A' <= v[i] <= 'Z') || v[i] == '.'
  }

  /** Non-empty upper-case listing text is left alone by `upper().strip()`. */
  lemma ListingTextClean(v: string)
    requires v != [] && ListingText(v)
    ensures Strip(UpperAscii(v)) == v
  {
    assert UpperAscii(v) == v;
    StripStripped(v);
  }

  /** Every correction is an NSE listing (it has a dot) written in upper-case letters and dots,
      and is not itself corrected again: applying the map once is the same as applying it until
      nothing changes, and a corrected symbol is never retried with `.NS`. */
  lemma CorrectionsSettled(k: string)
    requires k in Corrections
    ensures Corrections[k] !in Corrections && '.' in Corrections[k]
    ensures ListingText(Corrections[k])
  {
  }

  /** Cleaning a cleaned symbol changes nothing. */
  lemma CleanSymbolIdempotent(symbol: string)
    ensures CleanSymbol(CleanSymbol(symbol)) == CleanSymbol(symbol)
  {
    var u := Strip(UpperAscii(symbol));
    UpperStripSettled(symbol);
    if u in Corrections {
      CorrectionsSettled(u);
      ListingTextClean(Corrections[u]);
    }
  }

  /** The message when no price was found: it names the symbol as given, before cleaning. */
  function NoData(symbol: string): string {
    "No stock data found for symbol: " + symbol + ". Ensure correct suffix (.NS for NSE, .BO for BSE)."
  }

  /** The report of a price found for `clean`: with the company name and currency from the ticker
      information (defaulting to the symbol and to INR) when it can be read, without them when
      reading it raises. */
  function Report(clean: string, price: string, info: Result<Json>): (r: string)
    ensures info.Err? || !info.value.JObj? ==> r == "Stock: " + clean + "\nPrice: " + price
    ensures info.Ok? && info.value.JObj? ==>
      r == "Stock: " + Str(Lookup(info.value.fields, "longName").GetOr(JStr(clean))) + " (" + clean + ")\nPrice: "
           + Str(Lookup(info.value.fields, "currency").GetOr(JStr("INR"))) + " " + price
  {
    var fallback := "Stock: " + clean + "\nPrice: " + price;
    match info
    case Err(_) => fallback
    case Ok(data) =>
      match DictGet(data, "currency", JStr("INR"))
      case Err(_) => fallback
      case Ok(currency) =>
        var longName := DictGet(data, "longName", JStr(clean)).value;
        "Stock: " + Str(longName) + " (" + clean + ")\nPrice: " + Str(currency) + " " + price
  }

  /** The symbols whose price `execute` looks up for `symbol`, in order: the cleaned symbol, then
      the same with `.NS` when the first lookup found nothing and the symbol has no dot. */
  function Fetched(symbol: string, fetchPrice: string -> Option<string>): (r: seq<string>)
    ensures 1 <= |r| <= 2 && r[0] == CleanSymbol(symbol)
    ensures |r| == 2 <==> fetchPrice(r[0]).None? && '.' !in r[0]
    ensures |r| == 2 ==> r[1] == r[0] + ".NS"
  {
    var clean := CleanSymbol(symbol);
    if fetchPrice(clean).None? && '.' !in clean then [clean, clean + ".NS"] else [clean]
  }

  /** `execute(symbol)`. `fetchPrice(s)` is what the `fetch_price` helper gives for `s`: the price
      as `{price:.2f}` writes it, or `None`. `info(s)` is the ticker information for `s`, or the
      exception reading it raises. `fetched` lists the symbols whose price was looked up, in
      order. Only `symbol.upper()` can raise out of `execute`. */
  method Execute(symbol: Json, fetchPrice: string -> Option<string>, info: string -> Result<Json>)
    returns (out: Result<string>, fetched: seq<string>)
    ensures !symbol.JStr? ==> out == Err(NoAttribute(symbol, "upper")) && fetched == []
    ensures symbol.JStr? ==> out.Ok? && fetched == Fetched(symbol.s, fetchPrice)
    ensures symbol.JStr? ==> var last := fetched[|fetched| - 1];
      (fetchPrice(last).None? ==> out.value == NoData(symbol.s)) &&
      (fetchPrice(last).Some? ==> out.value == Report(last, fetchPrice(last).value, info(last)))
  {
    if !symbol.JStr? {
      return Err(NoAttribute(symbol, "upper")), [];
    }
    var clean := Strip(UpperAscii(symbol.s));
    if clean in Corrections {
      clean := Corrections[clean];
    }
    var price := fetchPrice(clean);
    fetched := [clean];
    if price.None? && '.' !in clean {
      clean := clean + ".NS";
      price := fetchPrice(clean);
      fetched := fetched + [clean];
    }
    if price.Some? {
      return Ok(Report(clean, price.value, info(clean))), fetched;
    }
    out := Ok(NoData(symbol.s));
  }

  /** A symbol the corrections map knows is looked up once, as corrected, and never retried. */
  lemma CorrectedFetchedOnce(symbol: string, fetchPrice: string -> Option<string>)
    requires Strip(UpperAscii(symbol)) in Corrections
    ensures Fetched(symbol, fetchPrice) == [Corrections[Strip(UpperAscii(symbol))]]
  {
    CorrectionsSettled(Strip(UpperAscii(symbol)));
  }
}
