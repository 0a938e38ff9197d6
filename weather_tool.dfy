/** `WeatherTool`: geocodes a city with Open-Meteo, then asks for the current weather at the
    first match. The HTTP calls reach the tool as a function from request to reply. */
module WeatherTool {
  import opened Wrappers
  import opened Text
  import opened Json
  import opened Py
  import opened BaseTool
  import opened Http

  const Descriptor := Tool(
    "weather_tool",
    "Fetches current weather for a given city name. Args: city (str)",
    Declared([Param("city", "string", "The name of the city to get weather for")], ["city"]))

  /** What every exception `execute` catches is reported after. */
  const ErrorPrefix := "Error executing WeatherTool: "

  /** What `execute` returns, with the requests it made in order. */
  datatype Exchange = Exchange(output: string, requests: seq<Request>)

  /** The geocoding request, with the city written in as `str(city)`. */
  function GeocodeRequest(city: Json): Request {
    HttpGet("https://geocoding-api.open-meteo.com/v1/search?name=" + Str(city) + "&count=1&language=en&format=json", [], [])
  }

  /** The forecast request for a latitude and longitude. */
  function ForecastRequest(lat: Json, lon: Json): Request {
    HttpGet("https://api.open-meteo.com/v1/forecast?latitude=" + Str(lat) + "&longitude=" + Str(lon) + "&current_weather=true", [], [])
  }

  /** The three fields read from the first geocoding result. */
  datatype Location = Location(latitude: Json, longitude: Json, name: Json)

  /** `geo_res["results"][0]` and its `latitude`, `longitude` and `name`, read in that order;
      or the exception the first failing read raises. */
  function FirstLocation(geo: Json): (r: Result<Location>)
    ensures r.Ok? ==> exists results ::
      Get(geo, "results") == Some(results) && results.JArr? && |results.items| > 0 &&
      Get(results.items[0], "latitude") == Some(r.value.latitude) &&
      Get(results.items[0], "longitude") == Some(r.value.longitude) &&
      Get(results.items[0], "name") == Some(r.value.name)
  {
    var results :- Item(geo, "results");
    var location :- At(results, 0);
    var lat :- Item(location, "latitude");
    var lon :- Item(location, "longitude");
    var name :- Item(location, "name");
    Ok(Location(lat, lon, name))
  }

  /** The report for the forecast reply at `where`, or the exception reading it raises. */
  function Report(where: Location, forecast: Json): Result<string> {
    var present :- Contains("current_weather", forecast);
    if !present then Ok("Error: Could not fetching weather data for " + Str(where.name))
    else
      var current :- Item(forecast, "current_weather");
      var temp :- Item(current, "temperature");
      var wind :- Item(current, "windspeed");
      Ok("Current weather in " + Str(where.name) + ": " + Str(temp) + "°C, Wind: " + Str(wind) + " km/h")
  }

  /** `execute(city)`, given the reply to each request. The forecast is asked for only when the
      geocoding reply has truthy `results` whose first entry has a position and a name, and it
      is asked for at that first entry's position. */
  function Execute(city: Json, get: Request -> Reply): (r: Exchange)
    ensures 1 <= |r.requests| <= 2 && r.requests[0] == GeocodeRequest(city)
    ensures var geo := Body(get(GeocodeRequest(city)));
      |r.requests| == 2 <==>
        geo.Ok? && geo.value.JObj? && Truthy(Get(geo.value, "results").GetOr(JNull)) && FirstLocation(geo.value).Ok?
    ensures |r.requests| == 2 ==>
      var where := FirstLocation(Body(get(GeocodeRequest(city))).value).value;
      r.requests[1] == ForecastRequest(where.latitude, where.longitude) &&
      r.output == Forecast(where, get(r.requests[1]))
  {
    var geocode := GeocodeRequest(city);
    match Body(get(geocode))
    case Err(m) => Exchange(ErrorPrefix + m, [geocode])
    case Ok(geo) =>
      match DictGet(geo, "results", JNull)
      case Err(m) => Exchange(ErrorPrefix + m, [geocode])
      case Ok(results) =>
        if !Truthy(results) then Exchange("Error: Could not find coordinates for city: " + Str(city), [geocode])
        else
          match FirstLocation(geo)
          case Err(m) => Exchange(ErrorPrefix + m, [geocode])
          case Ok(where) =>
            var forecast := ForecastRequest(where.latitude, where.longitude);
            Exchange(Forecast(where, get(forecast)), [geocode, forecast])
  }

  /** What is returned once the forecast reply for `where` is known. */
  function Forecast(where: Location, reply: Reply): string {
    match Body(reply)
    case Err(m) => ErrorPrefix + m
    case Ok(data) =>
      match Report(where, data)
      case Err(m) => ErrorPrefix + m
      case Ok(text) => text
  }

  /** A geocoding reply without `results`, or with empty ones, ends the call with the
      coordinates error naming the city as given, and no forecast is asked for. */
  lemma NoCoordinates(city: Json, get: Request -> Reply)
    requires var geo := Body(get(GeocodeRequest(city)));
      geo.Ok? && geo.value.JObj? && !Truthy(Lookup(geo.value.fields, "results").GetOr(JNull))
    ensures Execute(city, get) == Exchange("Error: Could not find coordinates for city: " + Str(city), [GeocodeRequest(city)])
  {
  }

  /** A forecast reply without `current_weather` is reported with the geocoded name. */
  lemma NoCurrentWeather(where: Location, reply: Reply, data: Json)
    requires Body(reply) == Ok(data) && data.JObj? && !HasKey(data, "current_weather")
    ensures Forecast(where, reply) == "Error: Could not fetching weather data for " + Str(where.name)
  {
  }

  /** With `current_weather` holding `temperature` and `windspeed`, the report names the place
      as the geocoder did, not as the user wrote it. */
  lemma CurrentWeatherReported(where: Location, reply: Reply, data: Json, current: Json)
    requires Body(reply) == Ok(data) && data.JObj? && Lookup(data.fields, "current_weather") == Some(current)
    requires HasKey(current, "temperature") && HasKey(current, "windspeed")
    ensures Forecast(where, reply) ==
      "Current weather in " + Str(where.name) + ": " + Str(Get(current, "temperature").value) + "°C, Wind: "
      + Str(Get(current, "windspeed").value) + " km/h"
  {
    assert Contains("current_weather", data) == Ok(true);
  }

  /** Whatever goes wrong inside the `try` is reported, not raised: a failed geocoding request
      or undecodable reply, and a failed forecast request or undecodable reply. */
  lemma FailuresReported(city: Json, get: Request -> Reply, where: Location, reply: Reply)
    ensures Body(get(GeocodeRequest(city))).Err? ==>
      Execute(city, get).output == ErrorPrefix + Body(get(GeocodeRequest(city))).message
    ensures Body(reply).Err? ==> Forecast(where, reply) == ErrorPrefix + Body(reply).message
  {
  }
}
