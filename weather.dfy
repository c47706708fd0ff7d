/**
 * `getCurrentWeather`: the API-key check, then the shaping of the weather
 * service's answer into a flat record, with every failure inside the `try`
 * turned into `{location, error}`. The HTTP request itself is outside the
 * model: its outcome is an input.
 */
module Weather {
  import opened Wrappers
  import opened Json
  import opened Text

  /** What `await res.json()` gives: the parsed value, or the message of the error it throws. */
  datatype JsonBody = Parsed(data: Value) | BadJson(message: string)

  /** What `await fetch(url)` gives: a response, or the message of the error it throws. */
  datatype FetchOutcome =
    | NetworkFailed(message: string)
    | Response(status: nat, statusText: string, body: JsonBody)

  datatype WeatherReport = WeatherReport(
    location: Value, region: Value, country: Value,
    temperatureC: Value, temperatureF: Value,
    condition: Value, icon: Value,
    humidity: Value, windKph: Value, windDir: Value, lastUpdated: Value)

  datatype WeatherResult =
    | Report(report: WeatherReport)
    | WeatherError(location: string, error: string)

  /** The executor either returns a result or throws (only for the missing key, before the `try`). */
  datatype Outcome = Returned(result: WeatherResult) | Thrown(message: string)

  const MissingKeyMessage := "Weather API key not set in WEATHER_API_KEY env variable"
  const FallbackMessage := "Failed to fetch weather data"
  const StatusPrefix := "Weather API error: "

  /** `res.ok`: a status in the range 200–299. */
  predicate IsOk(status: nat) {
    200 <= status <= 299
  }

  /** `!apiKey` is false only for a present, non-empty key. */
  predicate HasKey(apiKey: Option<string>) {
    apiKey.Some? && apiKey.value != ""
  }

  /** `(error as Error).message || 'Failed to fetch weather data'`. */
  function ErrorText(message: string): (r: string)
    ensures r != ""
    ensures message != "" ==> r == message
    ensures message == "" ==> r == FallbackMessage
  {
    if message == "" then FallbackMessage else message
  }

  /** `` `Weather API error: ${res.status} ${res.statusText}` ``. */
  function StatusMessage(status: nat, statusText: string): string {
    StatusPrefix + Decimal(status) + " " + statusText
  }

  /** Node's TypeError text for reading `location` of a null or undefined body. */
  function NoPropertiesMessage(data: Value): string
    requires data == Null || data == Undefined
  {
    "Cannot read properties of " + (if data == Null then "null" else "undefined") + " (reading 'location')"
  }

  /**
   * The record built from the parsed body. The location falls back to the
   * caller's argument and region/country are undefined when the body has no
   * (truthy) `location`; the `current` fields are undefined when it has no
   * `current`, and condition/icon also need `current.condition`.
   */
  function Shape(location: string, data: Value): (r: WeatherReport)
    requires data != Null && data != Undefined
    ensures var loc := Get(data, "location");
            && (Truthy(loc) ==> r.location == Get(loc, "name") && r.region == Get(loc, "region")
                                && r.country == Get(loc, "country"))
            && (!Truthy(loc) ==> r.location == Str(location) && r.region == Undefined && r.country == Undefined)
    ensures var cur := Get(data, "current");
            && (Truthy(cur) ==> r.temperatureC == Get(cur, "temp_c") && r.temperatureF == Get(cur, "temp_f")
                                && r.humidity == Get(cur, "humidity") && r.windKph == Get(cur, "wind_kph")
                                && r.windDir == Get(cur, "wind_dir") && r.lastUpdated == Get(cur, "last_updated"))
            && (!Truthy(cur) ==> r.temperatureC == Undefined && r.temperatureF == Undefined
                                 && r.humidity == Undefined && r.windKph == Undefined
                                 && r.windDir == Undefined && r.lastUpdated == Undefined)
    ensures var cur := Get(data, "current");
            if Truthy(cur) && Truthy(Get(cur, "condition"))
            then r.condition == Get(Get(cur, "condition"), "text") && r.icon == Get(Get(cur, "condition"), "icon")
            else r.condition == Undefined && r.icon == Undefined
  {
    var loc := Get(data, "location");
    var cur := Get(data, "current");
    var cond := if Truthy(cur) && Truthy(Get(cur, "condition")) then Get(cur, "condition") else Undefined;
    WeatherReport(
      location := if Truthy(loc) then Get(loc, "name") else Str(location),
      region := if Truthy(loc) then Get(loc, "region") else Undefined,
      country := if Truthy(loc) then Get(loc, "country") else Undefined,
      temperatureC := if Truthy(cur) then Get(cur, "temp_c") else Undefined,
      temperatureF := if Truthy(cur) then Get(cur, "temp_f") else Undefined,
      condition := if Truthy(cond) then Get(cond, "text") else Undefined,
      icon := if Truthy(cond) then Get(cond, "icon") else Undefined,
      humidity := if Truthy(cur) then Get(cur, "humidity") else Undefined,
      windKph := if Truthy(cur) then Get(cur, "wind_kph") else Undefined,
      windDir := if Truthy(cur) then Get(cur, "wind_dir") else Undefined,
      lastUpdated := if Truthy(cur) then Get(cur, "last_updated") else Undefined)
  }

  /**
   * The executor. A missing key throws, whatever the service would have
   * answered; every other failure is returned as an error naming the
   * requested location; a successful answer is returned as a report.
   */
  function GetCurrentWeather(location: string, apiKey: Option<string>, response: FetchOutcome): (r: Outcome)
    requires 2 <= |location| <= 100
    ensures r.Thrown? <==> !HasKey(apiKey)
    ensures r.Thrown? ==> r.message == MissingKeyMessage
    ensures r.Returned? && r.result.WeatherError? ==> r.result.location == location && r.result.error != ""
    ensures r.Returned? && r.result.Report? <==>
              HasKey(apiKey) && response.Response? && IsOk(response.status)
              && response.body.Parsed? && response.body.data != Null && response.body.data != Undefined
    ensures HasKey(apiKey) && response.Response? && !IsOk(response.status) ==>
              r == Returned(WeatherError(location, StatusMessage(response.status, response.statusText)))
    ensures HasKey(apiKey) && response.NetworkFailed? ==>
              r == Returned(WeatherError(location, ErrorText(response.message)))
    ensures HasKey(apiKey) && response.Response? && IsOk(response.status) && response.body.BadJson? ==>
              r == Returned(WeatherError(location, ErrorText(response.body.message)))
    ensures HasKey(apiKey) && response.Response? && IsOk(response.status) && response.body.Parsed?
            && (response.body.data == Null || response.body.data == Undefined) ==>
              r == Returned(WeatherError(location, ErrorText(NoPropertiesMessage(response.body.data))))
    ensures HasKey(apiKey) && response.Response? && IsOk(response.status) && response.body.Parsed?
            && response.body.data != Null && response.body.data != Undefined ==>
              r == Returned(Report(Shape(location, response.body.data)))
  {
    if !HasKey(apiKey) then Thrown(MissingKeyMessage)
    else
      match response
      case NetworkFailed(message) => Returned(WeatherError(location, ErrorText(message)))
      case Response(status, statusText, body) =>
        if !IsOk(status) then Returned(WeatherError(location, ErrorText(StatusMessage(status, statusText))))
        else
          match body
          case BadJson(message) => Returned(WeatherError(location, ErrorText(message)))
          case Parsed(data) =>
            if data == Null || data == Undefined then
              Returned(WeatherError(location, ErrorText(NoPropertiesMessage(data))))
            else Returned(Report(Shape(location, data)))
  }

  /**
   * The status error message can be read back: after the fixed prefix come
   * the digits of the status, a space and the status text.
   */
  lemma StatusMessageReadsBack(status: nat, statusText: string)
    ensures var m := StatusMessage(status, statusText);
            var n := |Decimal(status)|;
            && |m| == |StatusPrefix| + n + 1 + |statusText|
            && m[..|StatusPrefix|] == StatusPrefix
            && AllDigits(m[|StatusPrefix|..|StatusPrefix| + n])
            && DigitsValue(m[|StatusPrefix|..|StatusPrefix| + n]) == status
            && m[|StatusPrefix| + n] == ' '
            && m[|StatusPrefix| + n + 1..] == statusText
  {
    var m := StatusMessage(status, statusText);
    var n := |Decimal(status)|;
    assert m[|StatusPrefix|..|StatusPrefix| + n] == Decimal(status);
    DecimalRoundTrip(status);
  }
}
