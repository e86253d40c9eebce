/** Moods and the endpoint's request and response records (app/services/mood/models.py). */
module MoodModels {
  import opened Wrappers
  import opened WeatherModels
  import opened MusicModels

  /** The user's declared mood; `Value()` is the member's string value. */
  datatype Mood = Happy | Sad | Calm | Energetic | Romantic | Angry | Anxious | Relaxed
  {
    function Value(): string {
      match this
      case Happy => "happy"
      case Sad => "sad"
      case Calm => "calm"
      case Energetic => "energetic"
      case Romantic => "romantic"
      case Angry => "angry"
      case Anxious => "anxious"
      case Relaxed => "relaxed"
    }
  }

  /** Coerces a string into a `Mood`. */
  function ParseMood(s: string): (r: Option<Mood>)
    ensures r.Some? ==> r.value.Value() == s
    ensures r.None? ==> forall m: Mood :: m.Value() != s
  {
    if s == "happy" then Some(Happy)
    else if s == "sad" then Some(Sad)
    else if s == "calm" then Some(Calm)
    else if s == "energetic" then Some(Energetic)
    else if s == "romantic" then Some(Romantic)
    else if s == "angry" then Some(Angry)
    else if s == "anxious" then Some(Anxious)
    else if s == "relaxed" then Some(Relaxed)
    else None
  }

  lemma MoodValueRoundTrip(m: Mood)
    ensures ParseMood(m.Value()) == Some(m)
  {
  }

  datatype MoodRequest = MoodRequest(mood: Mood, city: string)

  datatype MoodResponse = MoodResponse(
    mood: Mood,
    city: string,
    weather: WeatherData,
    moodMatchesWeather: bool,
    recommendation: Song,
    explanation: string)
}
