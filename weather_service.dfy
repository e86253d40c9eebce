/**
 * Weather normalisation and the error classification of the weather fetch
 * (app/services/weather/weather_service.py). The HTTP exchange itself is an
 * input: an `HttpOutcome` whose body is either the decoded provider payload or
 * the exception raised while reading it.
 */
module WeatherService {
  import opened Wrappers
  import opened Strings
  import opened Transport
  import opened Exceptions
  import opened WeatherModels
  import opened WeatherConfig

  // ---------------------------------------------------------------------------
  // Temperature categories

  /** Index of the first range, in table order, that contains `t`. */
  function FirstMatchIndex(ranges: seq<TemperatureRange>, t: real): (r: Option<nat>)
    ensures r.Some? ==> r.value < |ranges| && ranges[r.value].Contains(t)
    ensures r.Some? ==> forall j :: 0 <= j < r.value ==> !ranges[j].Contains(t)
    ensures r.None? ==> forall j :: 0 <= j < |ranges| ==> !ranges[j].Contains(t)
  {
    if ranges == [] then None
    else if ranges[0].Contains(t) then Some(0)
    else match FirstMatchIndex(ranges[1..], t)
      case None => None
      case Some(i) => Some(i + 1)
  }

  /** The category of `temp`: the first range containing it, `Mild` if none does. */
  function CategoryOf(temp: real): (r: WeatherTemperature) {
    match FirstMatchIndex(TemperatureRanges, temp)
    case Some(i) =>
      RangeNamesAreCategories();
      ParseTemperature(TemperatureRanges[i].name).value
    case None => Mild
  }

  /** categorize_temperature: scans the ranges in order and returns at the first hit. */
  method CategorizeTemperature(temp: real) returns (category: WeatherTemperature)
    ensures category == CategoryOf(temp)
  {
    var i := 0;
    while i < |TemperatureRanges|
      invariant 0 <= i <= |TemperatureRanges|
      invariant forall j :: 0 <= j < i ==> !TemperatureRanges[j].Contains(temp)
    {
      var range := TemperatureRanges[i];
      if range.min as real <= temp < range.max as real {
        RangeNamesAreCategories();
        return ParseTemperature(range.name).value;
      }
      i := i + 1;
    }
    return Mild;
  }

  /** The category names the range that contains `temp`; outside every range it is `Mild`. */
  lemma CategoryIsContainingRange(temp: real)
    ensures forall i :: 0 <= i < |TemperatureRanges| && TemperatureRanges[i].Contains(temp) ==>
              CategoryOf(temp).Value() == TemperatureRanges[i].name
    ensures (forall i :: 0 <= i < |TemperatureRanges| ==> !TemperatureRanges[i].Contains(temp)) ==>
              CategoryOf(temp) == Mild
  {
    forall i | 0 <= i < |TemperatureRanges| && TemperatureRanges[i].Contains(temp)
      ensures CategoryOf(temp).Value() == TemperatureRanges[i].name
    {
      var k := FirstMatchIndex(TemperatureRanges, temp).value;
      RangesDisjoint(temp, i, k);
    }
  }

  /** Each category is exactly its half-open interval; `Mild` also takes everything outside [-50, 50). */
  lemma CategoryIntervals(temp: real)
    ensures CategoryOf(temp) == Freezing <==> -50 as real <= temp < 0 as real
    ensures CategoryOf(temp) == Cold <==> 0 as real <= temp < 10 as real
    ensures CategoryOf(temp) == Cool <==> 10 as real <= temp < 18 as real
    ensures CategoryOf(temp) == Mild <==> (18 as real <= temp < 24 as real || temp < -50 as real || 50 as real <= temp)
    ensures CategoryOf(temp) == Warm <==> 24 as real <= temp < 30 as real
    ensures CategoryOf(temp) == Hot <==> 30 as real <= temp < 50 as real
  {
    CategoryIsContainingRange(temp);
    RangesCover(temp);
    var R := TemperatureRanges;
    if -50 as real <= temp < 0 as real { assert R[0].Contains(temp); }
    else if 0 as real <= temp < 10 as real { assert R[1].Contains(temp); }
    else if 10 as real <= temp < 18 as real { assert R[2].Contains(temp); }
    else if 18 as real <= temp < 24 as real { assert R[3].Contains(temp); }
    else if 24 as real <= temp < 30 as real { assert R[4].Contains(temp); }
    else if 30 as real <= temp < 50 as real { assert R[5].Contains(temp); }
  }

  /** Lower bounds are inclusive and upper bounds exclusive. */
  lemma CategoryBoundaries()
    ensures CategoryOf(-50 as real) == Freezing
    ensures CategoryOf(0 as real) == Cold
    ensures CategoryOf(10 as real) == Cool
    ensures CategoryOf(18 as real) == Mild
    ensures CategoryOf(24 as real) == Warm
    ensures CategoryOf(30 as real) == Hot
    ensures CategoryOf(50 as real) == Mild
  {
    CategoryIntervals(-50 as real);
    CategoryIntervals(0 as real);
    CategoryIntervals(10 as real);
    CategoryIntervals(18 as real);
    CategoryIntervals(24 as real);
    CategoryIntervals(30 as real);
    CategoryIntervals(50 as real);
  }

  /** A reading outside [-50, 50) falls back to `Mild`. */
  lemma OutOfRangeIsMild(temp: real)
    requires temp < -50 as real || 50 as real <= temp
    ensures CategoryOf(temp) == Mild
  {
    CategoryIntervals(temp);
  }

  /** The documented sample readings. */
  lemma CategoryExamples()
    ensures CategoryOf(-10 as real) == Freezing
    ensures CategoryOf(5 as real) == Cold
    ensures CategoryOf(15 as real) == Cool
    ensures CategoryOf(20 as real) == Mild
    ensures CategoryOf(27 as real) == Warm
    ensures CategoryOf(35 as real) == Hot
  {
    CategoryIntervals(-10 as real);
    CategoryIntervals(5 as real);
    CategoryIntervals(15 as real);
    CategoryIntervals(20 as real);
    CategoryIntervals(27 as real);
    CategoryIntervals(35 as real);
  }

  // ---------------------------------------------------------------------------
  // Payload normalisation

  /** The fields read from a decoded provider payload. */
  datatype RawWeather = RawWeather(
    main: string,          // weather[0].main
    temp: real,            // main.temp
    humidity: real,        // main.humidity
    windSpeed: real,       // wind.speed
    description: string)   // weather[0].description

  /** Exact-string lookup of the provider label; anything unlisted becomes `Clear`. */
  function NormalizeCondition(main: string): (c: WeatherCondition)
    ensures main in WeatherMainMapping ==> c.Value() == WeatherMainMapping[main]
    ensures main !in WeatherMainMapping ==> c == Clear
  {
    MainMappingValuesAreConditions();
    var name := if main in WeatherMainMapping then WeatherMainMapping[main] else "clear";
    ParseCondition(name).value
  }

  /** The provider vocabulary, label by label. */
  lemma NormalizeConditionTable()
    ensures NormalizeCondition("Clear") == Clear
    ensures NormalizeCondition("Clouds") == Clouds
    ensures NormalizeCondition("Rain") == Rain
    ensures NormalizeCondition("Drizzle") == Drizzle
    ensures NormalizeCondition("Thunderstorm") == Thunderstorm
    ensures NormalizeCondition("Snow") == Snow
    ensures NormalizeCondition("Mist") == Mist
    ensures NormalizeCondition("Fog") == Fog
    ensures forall main :: main in ["Smoke", "Haze", "Dust", "Sand", "Ash"] ==> NormalizeCondition(main) == Mist
    ensures forall main :: main in ["Squall", "Tornado"] ==> NormalizeCondition(main) == Thunderstorm
  {
    MainMappingAliases();
    ConditionValueRoundTrip(Clear);
    ConditionValueRoundTrip(Clouds);
    ConditionValueRoundTrip(Rain);
    ConditionValueRoundTrip(Drizzle);
    ConditionValueRoundTrip(Thunderstorm);
    ConditionValueRoundTrip(Snow);
    ConditionValueRoundTrip(Mist);
    ConditionValueRoundTrip(Fog);
  }

  /** Matching is case-sensitive: the lower-case label "rain" is not listed and becomes `Clear`. */
  lemma LowercaseLabelIsClear()
    ensures NormalizeCondition("rain") == Clear
  {
  }

  /** process_weather_data: builds the record from the payload fields. */
  function ProcessWeatherData(data: RawWeather): (w: WeatherData)
    ensures w.condition == NormalizeCondition(data.main)
    ensures w.temperatureCategory == CategoryOf(data.temp)
    ensures w.temperature == data.temp && w.humidity == data.humidity
    ensures w.windSpeed == data.windSpeed && w.description == data.description
  {
    WeatherData(
      condition := NormalizeCondition(data.main),
      temperature := data.temp,
      temperatureCategory := CategoryOf(data.temp),
      humidity := data.humidity,
      windSpeed := data.windSpeed,
      description := data.description)
  }

  /** A processed record's category is the one whose interval holds its temperature. */
  lemma ProcessedCategoryFitsTemperature(data: RawWeather)
    ensures forall i :: 0 <= i < |TemperatureRanges| && TemperatureRanges[i].Contains(ProcessWeatherData(data).temperature) ==>
              ProcessWeatherData(data).temperatureCategory.Value() == TemperatureRanges[i].name
  {
    CategoryIsContainingRange(data.temp);
  }

  /** The London sample payload: "Clear", 22.5 C, 45 %, 3.2 m/s, "clear sky". */
  lemma ProcessLondonSample()
    ensures ProcessWeatherData(RawWeather("Clear", 22.5, 45 as real, 3.2, "clear sky")) ==
            WeatherData(Clear, 22.5, Mild, 45 as real, 3.2, "clear sky")
  {
    CategoryIntervals(22.5);
  }

  // ---------------------------------------------------------------------------
  // Fetch and error classification

  /** The response body: the decoded payload, or the exception raised decoding or reading it. */
  datatype WeatherBody = WeatherJson(data: RawWeather) | MalformedWeather(cause: string)

  const WeatherKeyMissing := "OpenWeather API key is not configured"

  /** The message of the error raised for a 404 response. */
  function CityNotFound(city: string): (r: string) {
    "City '" + city + "' not found"
  }

  /** How the `try` block of get_weather_for_city ends. */
  datatype WeatherAttempt =
    | Returned(weather: WeatherData)
    | RaisedStatusError(statusCode: nat)   // httpx.HTTPStatusError from raise_for_status
    | RaisedRequestError                   // httpx.RequestError from the request
    | RaisedOther(e: ServiceError)         // any other exception

  /** The `try` block: request, 404 check, raise_for_status, decode, process. */
  function WeatherTryBlock(city: string, outcome: HttpOutcome<WeatherBody>): (r: WeatherAttempt) {
    match outcome
    case RequestFailed => RaisedRequestError
    case Response(code, body) =>
      if code == 404 then RaisedOther(WeatherApiError(CityNotFound(city)))
      else if !IsSuccess(code) then RaisedStatusError(code)
      else match body
        case MalformedWeather(cause) => RaisedOther(OtherException(cause))
        case WeatherJson(data) => Returned(ProcessWeatherData(data))
  }

  /**
   * get_weather_for_city: the key check outside the `try`, then the three
   * `except` clauses in order. The not-found error is raised inside the `try`,
   * so the generic clause catches and re-wraps it.
   */
  function GetWeatherForCity(apiKey: string, city: string, outcome: HttpOutcome<WeatherBody>): (r: Result<WeatherData, ServiceError>)
    ensures r.Err? ==> r.error.WeatherApiError?
    ensures apiKey == [] ==> r == Err(WeatherApiError(WeatherKeyMissing))
    ensures apiKey != [] && outcome.RequestFailed? ==>
              r == Err(WeatherApiError("Error connecting to weather service"))
    ensures apiKey != [] && outcome.Response? && outcome.statusCode == 404 ==>
              r == Err(WeatherApiError("Unexpected error: " + CityNotFound(city)))
    ensures apiKey != [] && outcome.Response? && outcome.statusCode != 404 && !IsSuccess(outcome.statusCode) ==>
              r == Err(WeatherApiError("Weather service returned status code " + DecimalString(outcome.statusCode)))
    ensures apiKey != [] && outcome.Response? && IsSuccess(outcome.statusCode) && outcome.body.MalformedWeather? ==>
              r == Err(WeatherApiError("Unexpected error: " + outcome.body.cause))
    ensures r.Ok? <==> apiKey != [] && outcome.Response? && IsSuccess(outcome.statusCode) && outcome.body.WeatherJson?
    ensures r.Ok? ==> r.value == ProcessWeatherData(outcome.body.data)
  {
    if apiKey == [] then Err(WeatherApiError(WeatherKeyMissing))
    else match WeatherTryBlock(city, outcome)
      case Returned(w) => Ok(w)
      case RaisedStatusError(code) => Err(WeatherApiError("Weather service returned status code " + DecimalString(code)))
      case RaisedRequestError => Err(WeatherApiError("Error connecting to weather service"))
      case RaisedOther(e) => Err(WeatherApiError("Unexpected error: " + e.message))
  }

  /** A 404 reports "not found", but behind the generic handler's prefix. */
  lemma NotFoundIsRewrapped(apiKey: string, city: string, body: WeatherBody)
    requires apiKey != []
    ensures GetWeatherForCity(apiKey, city, Response(404, body)).Err?
    ensures IsSubstring("not found", GetWeatherForCity(apiKey, city, Response(404, body)).error.message)
    ensures GetWeatherForCity(apiKey, city, Response(404, body)).error.message != CityNotFound(city)
  {
    var msg := GetWeatherForCity(apiKey, city, Response(404, body)).error.message;
    var head := "Unexpected error: City '" + city + "' ";
    assert "' not found" == "' " + "not found";
    assert msg == head + "not found" + "";
    SubstringOfConcat(head, "not found", "");
    assert msg[0] == 'U' && CityNotFound(city)[0] == 'C';
  }

  /** A server error reports its code in decimal. */
  lemma ServerErrorMessage(apiKey: string, city: string, body: WeatherBody)
    requires apiKey != []
    ensures GetWeatherForCity(apiKey, city, Response(500, body)) ==
            Err(WeatherApiError("Weather service returned status code 500"))
  {
    assert DecimalString(500) == "500" by {
      assert DecimalString(5) == [DigitChar(5)] == "5";
      assert DecimalString(50) == DecimalString(5) + [DigitChar(0)] == "50";
      assert DecimalString(500) == DecimalString(50) + [DigitChar(0)];
    }
    assert !IsSuccess(500);
    assert "Weather service returned status code " + "500" == "Weather service returned status code 500";
  }
}
