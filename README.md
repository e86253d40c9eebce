# Mood, weather and music: a Dafny model of the recommendation pipeline

This project models the core of a small web service. The service takes a mood and a city. It fetches the city's current
weather from OpenWeather and normalises it into a condition and a temperature category. It then decides from a fixed
per-mood rule table whether the mood suits the weather, picks a song from Last.fm's top tracks for one of the mood's tags,
and composes an explanation from two fixed templates. Either upstream failure turns the whole request into an HTTP error.

The model has one Dafny module per source file:

| module | file | models |
|---|---|---|
| `WeatherModels`, `MoodModels`, `MusicModels` | `weather_models.dfy`, `mood_models.dfy`, `music_models.dfy` | the enums (with their string values and the coercion from strings) and the records |
| `Exceptions` | `exceptions.dfy` | `WeatherAPIError`, `MusicAPIError` and "any other exception", each carrying `str(e)` |
| `WeatherConfig` | `weather_config.dfy` | `TEMPERATURE_RANGES`, `WEATHER_MAIN_MAPPING`, `MOOD_WEATHER_MAPPING`, kept string-valued as in the source |
| `WeatherService` | `weather_service.dfy` | `categorize_temperature` (a loop method), `process_weather_data` and the error classification of `get_weather_for_city` |
| `MoodService` | `mood_service.dfy` | `match_mood_with_weather` |
| `MusicConfig` | `music_config.dfy` | `MOOD_MUSIC_TAGS` |
| `MusicService` | `music_service.dfy` | `get_top_tracks_by_tag` (classification and extraction) and `get_song_recommendation` (a method) |
| `MusicExplanation` | `music_explanation.dfy` | `EXPLANATION_TEMPLATES` (as literal pieces and placeholders) and `generate_explanation` |
| `Endpoints` | `endpoints.dfy` | `get_mood_based_recommendation` and its exception-to-status mapping |
| `Wrappers`, `Strings`, `Transport` | `wrappers.dfy`, `strings.dfy`, `transport.dfy` | Option/Result, substring and decimal rendering, and the abstract outcome of one HTTP exchange |

Upstream calls are inputs. One HTTP exchange is an `HttpOutcome`: a response with a status code and a body, or a
connection failure. The body is either the decoded payload or the exception raised while reading it. The music picker
receives what its first query and its retry query returned or raised. It also receives two injected numbers that stand
for `random.choice`: one for the tag and one for the track. The endpoint receives what the weather call and the music
call returned or raised.

Three behaviours of the code are modelled as written:
- A 404 from the weather provider raises `WeatherAPIError("City '<city>' not found")` inside the `try`. The generic
  handler catches it and re-raises it as `"Unexpected error: City '<city>' not found"`. The endpoint then reports
  `"Weather service error: Unexpected error: City '<city>' not found"`.
- The missing-key errors are raised before the `try`, so they carry no prefix. Every other music failure, including a
  `MusicAPIError` raised by the tag query, gets the prefix `"Error getting song recommendation: "`.
- A non-2xx status is any code outside 200..299: httpx's `raise_for_status` rejects 1xx and 3xx codes as well as 4xx
  and 5xx.

## Model

| member | source | states |
|---|---|---|
| `WeatherModels.ParseCondition` | app/services/weather/models.py:5-15 | a string becomes a condition exactly when it is that condition's value; otherwise no condition has that value |
| `WeatherModels.ParseTemperature` | app/services/weather/models.py:18-26 | a string becomes a temperature category exactly when it is that category's value |
| `WeatherModels.ConditionValueRoundTrip` | app/services/weather/models.py:5-15 | parsing a condition's value gives back that condition |
| `WeatherModels.TemperatureValueRoundTrip` | app/services/weather/models.py:18-26 | parsing a category's value gives back that category |
| `MoodModels.ParseMood` | app/services/mood/models.py:8-18 | a string becomes a mood exactly when it is that mood's value |
| `MoodModels.MoodValueRoundTrip` | app/services/mood/models.py:8-18 | parsing a mood's value gives back that mood |
| `WeatherConfig.RangesContiguous` | app/services/weather/config.py:10-17 | six ranges from -50 to 50, each range's max equal to the next range's min |
| `WeatherConfig.RangesCover` | app/services/weather/config.py:10-17 | a temperature lies in some range iff it lies in [-50, 50) |
| `WeatherConfig.RangesDisjoint` | app/services/weather/config.py:10-17 | no temperature lies in two different ranges |
| `WeatherConfig.RangeNamesAreCategories` | app/services/weather/config.py:10-17 | every range name is a temperature category value, and no two ranges share a name |
| `WeatherConfig.CategoryHasRange` | app/services/weather/config.py:10-17 | every temperature category names some range |
| `WeatherConfig.MainMappingValuesAreConditions` | app/services/weather/config.py:20-36 | every value of the label mapping is a condition value |
| `WeatherConfig.MainMappingAliases` | app/services/weather/config.py:28-35 | Smoke, Haze, Dust, Sand and Ash map to mist; Squall and Tornado map to thunderstorm |
| `WeatherConfig.MoodMappingIsTotal` | app/services/weather/config.py:40-81 | every mood has a rule, and every key of the rule table is a mood |
| `WeatherConfig.RuleEntriesAreEnumValues` | app/services/weather/config.py:40-81 | every listed condition is a condition value and every listed temperature is a category value |
| `WeatherConfig.MatchAllExactlyCalmAndRelaxed` | app/services/weather/config.py:44-79 | a rule requires both criteria iff its mood is calm or relaxed |
| `WeatherConfig.NoRuleListsSnow` | app/services/weather/config.py:40-81 | no rule lists snow among its conditions |
| `WeatherService.FirstMatchIndex` | app/services/weather/weather_service.py:110-112 | the result is the first range in table order that contains the temperature; none is returned only when no range contains it |
| `WeatherService.CategoryOf` | app/services/weather/weather_service.py:110-115 | the category of a reading; its meaning is given by `CategoryIsContainingRange` (the containing range's name, else mild) and `CategoryIntervals` (one half-open interval per category) |
| `WeatherService.CategorizeTemperature` | app/services/weather/weather_service.py:100-115 | the first-match loop returns `CategoryOf(temp)`: the first containing range's category, else mild |
| `WeatherService.CategoryIsContainingRange` | app/services/weather/weather_service.py:110-115 | the category is the name of the range holding the temperature; outside every range it is mild |
| `WeatherService.CategoryIntervals` | app/services/weather/weather_service.py:110-115 | each category holds exactly on its half-open interval; mild also holds below -50 and from 50 up |
| `WeatherService.CategoryBoundaries` | app/services/weather/weather_service.py:111 | -50 is freezing, 0 cold, 10 cool, 18 mild, 24 warm, 30 hot, and 50 falls back to mild |
| `WeatherService.OutOfRangeIsMild` | app/services/weather/weather_service.py:114-115 | any reading below -50 or from 50 up is mild |
| `WeatherService.CategoryExamples` | tests/test_weather_service.py:102-109 | -10 is freezing, 5 cold, 15 cool, 20 mild, 27 warm, 35 hot |
| `WeatherService.NormalizeCondition` | app/services/weather/weather_service.py:82-83 | a listed label gives its mapped condition; any unlisted label gives clear |
| `WeatherService.NormalizeConditionTable` | app/services/weather/config.py:20-36 | the condition that each of the fifteen provider labels produces |
| `WeatherService.LowercaseLabelIsClear` | app/services/weather/weather_service.py:83 | the lookup is case-sensitive: "rain" gives clear |
| `WeatherService.ProcessWeatherData` | app/services/weather/weather_service.py:71-97 | condition from the label lookup and category from `CategoryOf`; temperature, humidity, wind speed and description are unchanged |
| `WeatherService.ProcessedCategoryFitsTemperature` | app/services/weather/weather_service.py:86-93 | a processed record's category names the range that holds its temperature |
| `WeatherService.ProcessLondonSample` | tests/test_weather_service.py:12-32 | the London sample payload becomes clear, 22.5, mild, 45, 3.2, "clear sky" |
| `WeatherService.WeatherTryBlock` | app/services/weather/weather_service.py:42-56 | how the `try` block ends (returned, status error, request error, other exception); its outcomes are pinned down through `GetWeatherForCity`'s contract |
| `WeatherService.GetWeatherForCity` | app/services/weather/weather_service.py:19-68 | empty key gives the unprefixed configuration error; a connection failure, a 404, another non-2xx code or an unreadable body each give their fixed message; otherwise the processed payload; every failure is a `WeatherAPIError` |
| `WeatherService.NotFoundIsRewrapped` | app/services/weather/weather_service.py:48-50 | a 404 error message contains "not found" but is not the bare "City '<city>' not found" |
| `WeatherService.ServerErrorMessage` | app/services/weather/weather_service.py:58-62 | a 500 gives "Weather service returned status code 500" |
| `MoodService.RuleFor` | app/services/mood/mood_service.py:20-24 | the lookup always finds the mood's own table entry |
| `MoodService.RuleMatches` | app/services/mood/mood_service.py:26-40 | AND of the two list memberships under `match_all`, OR otherwise; `AllImpliesAny` and `DefaultRuleNeverMatches` state its properties |
| `MoodService.MatchMoodWithWeather` | app/services/mood/mood_service.py:6-40 | the matcher; its meaning is given by `MatchAgreesWithTypedTable` (the typed AND/OR reading for every mood and weather) |
| `MoodService.MatchAgreesWithTypedTable` | app/services/mood/mood_service.py:19-40 | the result is (condition in the mood's set) AND/OR (category in the mood's set), AND exactly for calm and relaxed, with the sets given per mood as typed values |
| `MoodService.ConditionListIsTypedSet` | app/services/mood/mood_service.py:27 | a condition's value is in the rule's list iff the condition is in the mood's compatible set |
| `MoodService.TemperatureListIsTypedSet` | app/services/mood/mood_service.py:30 | a category's value is in the rule's list iff the category is in the mood's compatible set |
| `MoodService.DefaultRuleNeverMatches` | app/services/mood/mood_service.py:20-24 | the empty OR rule rejects every weather |
| `MoodService.MatchIgnoresRawReadings` | app/services/mood/mood_service.py:27-38 | two weathers with equal condition and category get the same answer |
| `MoodService.AllImpliesAny` | app/services/mood/mood_service.py:33-38 | for any rule, the AND answer implies the OR answer |
| `MoodService.CalmNeedsBoth` | app/services/mood/mood_service.py:33-35 | calm rejects clear/cold and rain/mild, and accepts clouds/mild |
| `MoodService.HappyNeedsEither` | app/services/mood/mood_service.py:36-38 | happy accepts clear/cold and rain/warm, and rejects snow/freezing |
| `MoodService.MatchSamples` | tests/test_mood_service.py:30-81 | happy and relaxed accept clear/warm while angry rejects it; sad accepts rain/cold while happy rejects it; relaxed rejects clear/cold |
| `MusicConfig.TagTableIsTotal` | app/services/music/config.py:12-21 | every mood has a tag list, and every key is a mood |
| `MusicConfig.TagListShape` | app/services/music/config.py:13-20 | each list has 3 or 4 tags (3 only for romantic), and its first tag is the mood's own value |
| `MusicConfig.SharedTags` | app/services/music/config.py:13-20 | "upbeat" is shared by happy and energetic, "chill" by calm and relaxed |
| `MusicService.ExtractTracks` | app/services/music/music_service.py:96 | the track list is `data["tracks"]["track"]`, or empty when either key is absent |
| `MusicService.GetTopTracksByTag` | app/services/music/music_service.py:88-106 | a connection failure, a non-2xx code or an unreadable body each give their fixed `MusicAPIError` message; otherwise the extracted tracks |
| `MusicService.MoodTagsFor` | app/services/music/music_service.py:32 | a mood's tag list is exactly its `MOOD_MUSIC_TAGS` entry (the `["happy"]` default is never used), has 3 or 4 entries and starts with the mood's own value |
| `MusicService.TrackToSong` | app/services/music/music_service.py:57-61 | title, artist and url are copied when present; missing ones become "Unknown Title", "Unknown Artist" and no url |
| `MusicService.GetSongRecommendation` | app/services/music/music_service.py:14-65 | empty key gives the unprefixed error and no query; the first query uses the chosen tag; a second query happens iff the first answer is empty, and uses the mood's first tag (its own name); a raised error comes back prefixed; two empty answers give the fallback song; otherwise the song comes from the top ten of the latest non-empty answer |
| `MusicService.TopTenChoice` | app/services/music/music_service.py:55 | picking within `tracks[:10]` always lands in the first ten tracks, at the injected index when that index is in range |
| `MusicService.SampleTrackSong` | tests/test_music_service.py:11-61 | the sample Last.fm track becomes "Happy" by "Pharrell Williams" with its url |
| `MusicExplanation.WeatherDescription` | app/services/explanation/music_explanation.py:28-31 | "<category> and <condition>"; `WarmClearDescription` gives its tested instance |
| `MusicExplanation.GenerateExplanation` | app/services/explanation/music_explanation.py:10-44 | the explanation; its exact text is given by `ExplanationText` and its contents by `ExplanationEmbedsInputs` and `ExplanationIgnoresOtherFields` |
| `MusicExplanation.MatchExplanationText` | app/services/explanation/music_explanation.py:6 | the affirming explanation is "Your ", the mood, " mood aligns well with the current ", the weather description, " weather in ", the city, ".We've recommended '", the title, "' by '", the artist and "' to complement your mood." joined in order (no space after the period) |
| `MusicExplanation.NoMatchExplanationText` | app/services/explanation/music_explanation.py:7 | the contrastive explanation is the same join with " mood doesn't quite match the current " and "' to enhance your mood regardless of the weather." as its third and last pieces |
| `MusicExplanation.ExplanationText` | app/services/explanation/music_explanation.py:10-44 | `matches` selects the "match" text, otherwise the "no_match" text, with "<category> and <condition>" as the weather description |
| `MusicExplanation.ConcatEmbedsPart` | app/services/explanation/music_explanation.py:38-44 | each piece of the formatted text occurs in the result verbatim |
| `MusicExplanation.FormatEmbedsField` | app/services/explanation/music_explanation.py:38-44 | every placeholder of a template is replaced by its value verbatim |
| `MusicExplanation.TemplatesUseEveryField` | app/services/explanation/music_explanation.py:5-8 | both templates use all five placeholders |
| `MusicExplanation.ExplanationEmbedsInputs` | app/services/explanation/music_explanation.py:25-44 | mood, weather description, city, title and artist each appear in the explanation |
| `MusicExplanation.ExplanationIgnoresOtherFields` | app/services/explanation/music_explanation.py:25-31 | the song url and the raw temperature, humidity, wind and description do not change the explanation |
| `MusicExplanation.WarmClearDescription` | tests/test_mood_service.py:90-99 | warm, clear weather puts "warm and clear" into either explanation |
| `Endpoints.ToHttpException` | app/api/endpoints.py:71-76 | the two typed service errors give 503 and everything else gives 500, each with its fixed detail prefix |
| `Endpoints.RecommendationTryBlock` | app/api/endpoints.py:40-69 | the `try` block: fetch weather, match, fetch song, explain, each step only after the previous one returned; its outcomes are pinned down through `GetMoodBasedRecommendation`'s contract |
| `Endpoints.GetMoodBasedRecommendation` | app/api/endpoints.py:22-76 | a weather error decides the answer whatever the song; then a music error; a 500 comes only from an untyped error; a body exists iff both calls returned, and it echoes mood and city, carries the weather and song unchanged, the match answer, and the explanation built from that same answer |
| `Endpoints.CityNotFoundEndToEnd` | app/api/endpoints.py:40-72 | a weather 404 ends the request with 503 "Weather service error: Unexpected error: City '<city>' not found", whatever the music call would give |
| `Endpoints.HappyLondonEndToEnd` | app/api/endpoints.py:42-69 | happy in London under clear, mild weather matches, and the explanation names "happy", "London", the title and the artist |
| `Endpoints.FallbackSongEndToEnd` | app/api/endpoints.py:51-69 | with the fallback song the request succeeds, and the explanation names "Happy" and "Pharrell Williams" |

## Left out

- HTTP transport: the httpx client, URLs, query parameters and JSON decoding are abstracted into `HttpOutcome` values and payload datatypes.
- Randomness: `random.choice` is replaced by `tagPick`, which must be below the tag count, and `trackPick`, which is reduced modulo the candidate count. The model says nothing about uniformity.
- Environment and dotenv: both API keys are parameters.
- Logging: nothing depends on it.
- FastAPI scaffolding: the app factory, CORS, OpenAPI, the router declaration and pydantic's 422 validation. A mood outside the enum cannot be written in the model.
- Async/await: the calls run strictly one after another in the source, and the model keeps that order.
- Floating point: temperature, humidity and wind speed are `real`. Temperature is only compared with integer bounds, and the others are copied through.
- The exception class hierarchy (`BaseAPIError`) and `MoodServiceError`: the latter is never raised. The typed errors are variants of `ServiceError`.
- `str(e)` of exceptions raised while reading a payload (JSON decode, a missing key): the model keeps it as an opaque `cause` string.
- MusicService.ExtractTracks: a `tracks` value that is present but is not an object is not modelled. The source would raise AttributeError, which is wrapped into a MusicAPIError. The payload datatypes only allow an object or absence.
- MusicService.TrackToSong: an `artist` value that is present but is not an object, and a JSON `null` track `name` or artist `name`, are not modelled. In the source the first raises AttributeError and the second fails `Song` validation; both are wrapped into a MusicAPIError. The `Option` payload fields only allow a value or absence. A `null` `url` becomes no url, as absence does.
- MusicService.GetSongRecommendation: the two query results are independent inputs. The model does not require that re-querying the same tag gives the same answer.
- Test assertions that contradict the code are not modelled: a patch target that does not exist, a call missing the `song` argument, and a mocked matcher returning a tuple.
