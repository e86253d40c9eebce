/**
 * The recommendation endpoint (app/api/endpoints.py): weather, match, song,
 * explanation, all inside one `try`, with the exception-to-status mapping.
 * The two awaited service calls are inputs: what get_weather_for_city and
 * get_song_recommendation returned or raised.
 */
module Endpoints {
  import opened Wrappers
  import opened Strings
  import opened Transport
  import opened Exceptions
  import opened WeatherModels
  import opened MusicModels
  import opened MoodModels
  import opened WeatherService
  import opened MoodService
  import opened MusicService
  import opened MusicExplanation

  /** A 200 response with its body, or an HTTPException with its status and detail. */
  datatype EndpointResult = Ok200(body: MoodResponse) | HttpException(statusCode: nat, detail: string)

  /** The three `except` clauses, in order. */
  function ToHttpException(e: ServiceError): (r: EndpointResult)
    ensures r.HttpException?
    ensures r.statusCode == 503 <==> e.WeatherApiError? || e.MusicApiError?
    ensures r.statusCode != 503 ==> r.statusCode == 500
    ensures e.WeatherApiError? ==> r.detail == "Weather service error: " + e.message
    ensures e.MusicApiError? ==> r.detail == "Music service error: " + e.message
    ensures e.OtherException? ==> r.detail == "An unexpected error occurred: " + e.message
  {
    match e
    case WeatherApiError(msg) => HttpException(503, "Weather service error: " + msg)
    case MusicApiError(msg) => HttpException(503, "Music service error: " + msg)
    case OtherException(msg) => HttpException(500, "An unexpected error occurred: " + msg)
  }

  /** The `try` block: each step runs only if the previous one returned. */
  function RecommendationTryBlock(request: MoodRequest, weather: Result<WeatherData, ServiceError>,
                                  song: Result<Song, ServiceError>): (r: Result<MoodResponse, ServiceError>)
  {
    match weather
    case Err(e) => Err(e)
    case Ok(weatherData) =>
      var moodMatchesWeather := MatchMoodWithWeather(request.mood, weatherData);
      match song
      case Err(e) => Err(e)
      case Ok(recommendation) =>
        var explanation := GenerateExplanation(request.mood.Value(), weatherData, recommendation,
                                               request.city, moodMatchesWeather);
        Ok(MoodResponse(request.mood, request.city, weatherData, moodMatchesWeather, recommendation, explanation))
  }

  /** get_mood_based_recommendation. */
  function GetMoodBasedRecommendation(request: MoodRequest, weather: Result<WeatherData, ServiceError>,
                                      song: Result<Song, ServiceError>): (r: EndpointResult)
    // a weather failure decides the answer; the song plays no part
    ensures weather.Err? && weather.error.WeatherApiError? ==>
              r == HttpException(503, "Weather service error: " + weather.error.message)
    ensures weather.Err? ==> r == ToHttpException(weather.error)
    // a music failure after a good weather answer decides it next
    ensures weather.Ok? && song.Err? && song.error.MusicApiError? ==>
              r == HttpException(503, "Music service error: " + song.error.message)
    ensures weather.Ok? && song.Err? ==> r == ToHttpException(song.error)
    // anything else is a 500
    ensures r.HttpException? && r.statusCode == 500 ==>
              exists msg :: (weather == Err(OtherException(msg)) || (weather.Ok? && song == Err(OtherException(msg)))) &&
                             r.detail == "An unexpected error occurred: " + msg
    // all or nothing: a body only when both calls returned
    ensures r.Ok200? <==> weather.Ok? && song.Ok?
    ensures r.Ok200? ==>
              r.body.mood == request.mood && r.body.city == request.city &&
              r.body.weather == weather.value && r.body.recommendation == song.value &&
              r.body.moodMatchesWeather == MatchMoodWithWeather(request.mood, weather.value) &&
              r.body.explanation == GenerateExplanation(request.mood.Value(), weather.value, song.value,
                                                        request.city, r.body.moodMatchesWeather)
  {
    match RecommendationTryBlock(request, weather, song)
    case Ok(response) => Ok200(response)
    case Err(e) => ToHttpException(e)
  }

  /** A 404 from the weather provider ends the request with a 503 naming the city; the song is never used. */
  lemma CityNotFoundEndToEnd(apiKey: string, request: MoodRequest, body: WeatherBody, song: Result<Song, ServiceError>)
    requires apiKey != []
    ensures GetMoodBasedRecommendation(request, GetWeatherForCity(apiKey, request.city, Response(404, body)), song) ==
            HttpException(503, "Weather service error: " + "Unexpected error: " + CityNotFound(request.city))
  {
  }

  /** Happy in London under clear, mild weather: a match, explained with mood, city, title and artist. */
  lemma HappyLondonEndToEnd(weather: WeatherData, song: Song)
    requires weather.condition == Clear && weather.temperatureCategory == Mild
    ensures var r := GetMoodBasedRecommendation(MoodRequest(Happy, "London"), Ok(weather), Ok(song));
            r.Ok200? && r.body.moodMatchesWeather &&
            IsSubstring("happy", r.body.explanation) && IsSubstring("London", r.body.explanation) &&
            IsSubstring(song.title, r.body.explanation) && IsSubstring(song.artist, r.body.explanation)
  {
    MatchAgreesWithTypedTable(Happy, weather);
    ExplanationEmbedsInputs("happy", weather, song, "London", true);
  }

  /** With the fallback song the request still succeeds, and the explanation names it. */
  lemma FallbackSongEndToEnd(request: MoodRequest, weather: WeatherData)
    ensures var r := GetMoodBasedRecommendation(request, Ok(weather), Ok(FallbackSong));
            r.Ok200? && r.body.recommendation == FallbackSong &&
            IsSubstring("Happy", r.body.explanation) && IsSubstring("Pharrell Williams", r.body.explanation)
  {
    ExplanationEmbedsInputs(request.mood.Value(), weather, FallbackSong, request.city,
                            MatchMoodWithWeather(request.mood, weather));
  }
}
