/** The mood/weather compatibility rule engine (app/services/mood/mood_service.py). */
module MoodService {
  import opened WeatherModels
  import opened MoodModels
  import opened WeatherConfig

  /** The rule used when a mood has no entry: nothing listed, either criterion suffices. */
  const DefaultRule := MoodRule([], [], false)

  /** `MOOD_WEATHER_MAPPING.get(mood, default)`. */
  function RuleFor(mood: Mood): (rule: MoodRule)
    ensures rule == MoodWeatherMapping[mood.Value()]
  {
    MoodMappingIsTotal();
    if mood.Value() in MoodWeatherMapping then MoodWeatherMapping[mood.Value()] else DefaultRule
  }

  /** Whether a rule accepts the weather: AND of the two memberships under `matchAll`, OR otherwise. */
  function RuleMatches(rule: MoodRule, weather: WeatherData): (r: bool) {
    var conditionMatch := weather.condition.Value() in rule.conditions;
    var temperatureMatch := weather.temperatureCategory.Value() in rule.temperature;
    if rule.matchAll then conditionMatch && temperatureMatch else conditionMatch || temperatureMatch
  }

  /** match_mood_with_weather. */
  function MatchMoodWithWeather(mood: Mood, weather: WeatherData): (r: bool) {
    RuleMatches(RuleFor(mood), weather)
  }

  // ---------------------------------------------------------------------------
  // The rule table read as typed sets, keyed by the mood itself

  function CompatibleConditions(mood: Mood): (r: set<WeatherCondition>) {
    match mood
    case Happy => {Clear, Clouds}
    case Sad => {Rain, Drizzle, Mist, Fog}
    case Calm => {Clear, Clouds}
    case Energetic => {Clear}
    case Romantic => {Clear, Drizzle}
    case Angry => {Thunderstorm}
    case Anxious => {Thunderstorm, Fog, Mist}
    case Relaxed => {Clear, Clouds}
  }

  function CompatibleTemperatures(mood: Mood): (r: set<WeatherTemperature>) {
    match mood
    case Happy => {Mild, Warm}
    case Sad => {Cold, Cool}
    case Calm => {Mild}
    case Energetic => {Mild, Warm}
    case Romantic => {Mild, Cool}
    case Angry => {Hot}
    case Anxious => {Freezing, Hot}
    case Relaxed => {Mild, Warm}
  }

  function RequiresBoth(mood: Mood): (r: bool) {
    mood == Calm || mood == Relaxed
  }

  /** The string-keyed rule table agrees with the typed reading, for every mood and weather. */
  lemma MatchAgreesWithTypedTable(mood: Mood, weather: WeatherData)
    ensures MatchMoodWithWeather(mood, weather) ==
            if RequiresBoth(mood)
            then weather.condition in CompatibleConditions(mood) && weather.temperatureCategory in CompatibleTemperatures(mood)
            else weather.condition in CompatibleConditions(mood) || weather.temperatureCategory in CompatibleTemperatures(mood)
  {
    ConditionListIsTypedSet(mood, weather.condition);
    TemperatureListIsTypedSet(mood, weather.temperatureCategory);
    MatchAllExactlyCalmAndRelaxed();
  }

  lemma ConditionListIsTypedSet(mood: Mood, c: WeatherCondition)
    ensures c.Value() in RuleFor(mood).conditions <==> c in CompatibleConditions(mood)
  {
    match c
    case Clear => case Clouds => case Rain => case Thunderstorm =>
    case Snow => case Mist => case Fog => case Drizzle =>
  }

  lemma TemperatureListIsTypedSet(mood: Mood, t: WeatherTemperature)
    ensures t.Value() in RuleFor(mood).temperature <==> t in CompatibleTemperatures(mood)
  {
    match t
    case Freezing => case Cold => case Cool => case Mild => case Warm => case Hot =>
  }

  /** A mood without an entry would never match. */
  lemma DefaultRuleNeverMatches(weather: WeatherData)
    ensures !RuleMatches(DefaultRule, weather)
  {
  }

  /** Only condition and category matter: raw temperature, humidity, wind and description do not. */
  lemma MatchIgnoresRawReadings(mood: Mood, w1: WeatherData, w2: WeatherData)
    requires w1.condition == w2.condition && w1.temperatureCategory == w2.temperatureCategory
    ensures MatchMoodWithWeather(mood, w1) == MatchMoodWithWeather(mood, w2)
  {
  }

  /** Requiring both criteria is never more permissive than requiring either. */
  lemma AllImpliesAny(rule: MoodRule, weather: WeatherData)
    ensures RuleMatches(rule.(matchAll := true), weather) ==> RuleMatches(rule.(matchAll := false), weather)
  {
  }

  /** A combining-by-AND mood rejects weather meeting only one criterion and accepts weather meeting both. */
  lemma CalmNeedsBoth(weather: WeatherData)
    ensures weather.condition == Clear && weather.temperatureCategory == Cold ==> !MatchMoodWithWeather(Calm, weather)
    ensures weather.condition == Rain && weather.temperatureCategory == Mild ==> !MatchMoodWithWeather(Calm, weather)
    ensures weather.condition == Clouds && weather.temperatureCategory == Mild ==> MatchMoodWithWeather(Calm, weather)
  {
    MatchAgreesWithTypedTable(Calm, weather);
  }

  /** A combining-by-OR mood accepts weather meeting exactly one criterion. */
  lemma HappyNeedsEither(weather: WeatherData)
    ensures weather.condition == Clear && weather.temperatureCategory == Cold ==> MatchMoodWithWeather(Happy, weather)
    ensures weather.condition == Rain && weather.temperatureCategory == Warm ==> MatchMoodWithWeather(Happy, weather)
    ensures weather.condition == Snow && weather.temperatureCategory == Freezing ==> !MatchMoodWithWeather(Happy, weather)
  {
    MatchAgreesWithTypedTable(Happy, weather);
  }

  /** The sample cases: clear/warm and rain/cold weather against several moods. */
  lemma MatchSamples(weather: WeatherData)
    ensures weather.condition == Clear && weather.temperatureCategory == Warm ==>
              MatchMoodWithWeather(Happy, weather) && !MatchMoodWithWeather(Angry, weather) &&
              MatchMoodWithWeather(Relaxed, weather)
    ensures weather.condition == Rain && weather.temperatureCategory == Cold ==>
              MatchMoodWithWeather(Sad, weather) && !MatchMoodWithWeather(Happy, weather)
    ensures weather.condition == Clear && weather.temperatureCategory == Cold ==>
              !MatchMoodWithWeather(Relaxed, weather)
  {
    MatchAgreesWithTypedTable(Happy, weather);
    MatchAgreesWithTypedTable(Angry, weather);
    MatchAgreesWithTypedTable(Relaxed, weather);
    MatchAgreesWithTypedTable(Sad, weather);
  }
}
