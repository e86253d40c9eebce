/** Weather enumerations and the normalised weather record (app/services/weather/models.py). */
module WeatherModels {
  import opened Wrappers

  /** Normalised sky/precipitation state; `Value()` is the member's string value. */
  datatype WeatherCondition = Clear | Clouds | Rain | Thunderstorm | Snow | Mist | Fog | Drizzle
  {
    function Value(): string {
      match this
      case Clear => "clear"
      case Clouds => "clouds"
      case Rain => "rain"
      case Thunderstorm => "thunderstorm"
      case Snow => "snow"
      case Mist => "mist"
      case Fog => "fog"
      case Drizzle => "drizzle"
    }
  }

  /** Temperature bucket; `Value()` is the member's string value. */
  datatype WeatherTemperature = Freezing | Cold | Cool | Mild | Warm | Hot
  {
    function Value(): string {
      match this
      case Freezing => "freezing"
      case Cold => "cold"
      case Cool => "cool"
      case Mild => "mild"
      case Warm => "warm"
      case Hot => "hot"
    }
  }

  /** Coerces a string into a `WeatherCondition`, as the str-valued enum does on construction. */
  function ParseCondition(s: string): (r: Option<WeatherCondition>)
    ensures r.Some? ==> r.value.Value() == s
    ensures r.None? ==> forall c: WeatherCondition :: c.Value() != s
  {
    if s == "clear" then Some(Clear)
    else if s == "clouds" then Some(Clouds)
    else if s == "rain" then Some(Rain)
    else if s == "thunderstorm" then Some(Thunderstorm)
    else if s == "snow" then Some(Snow)
    else if s == "mist" then Some(Mist)
    else if s == "fog" then Some(Fog)
    else if s == "drizzle" then Some(Drizzle)
    else None
  }

  /** Coerces a string into a `WeatherTemperature`. */
  function ParseTemperature(s: string): (r: Option<WeatherTemperature>)
    ensures r.Some? ==> r.value.Value() == s
    ensures r.None? ==> forall c: WeatherTemperature :: c.Value() != s
  {
    if s == "freezing" then Some(Freezing)
    else if s == "cold" then Some(Cold)
    else if s == "cool" then Some(Cool)
    else if s == "mild" then Some(Mild)
    else if s == "warm" then Some(Warm)
    else if s == "hot" then Some(Hot)
    else None
  }

  lemma ConditionValueRoundTrip(c: WeatherCondition)
    ensures ParseCondition(c.Value()) == Some(c)
  {
  }

  lemma TemperatureValueRoundTrip(c: WeatherTemperature)
    ensures ParseTemperature(c.Value()) == Some(c)
  {
  }

  /** Weather as the service reports it; temperatures in degrees Celsius. */
  datatype WeatherData = WeatherData(
    condition: WeatherCondition,
    temperature: real,
    temperatureCategory: WeatherTemperature,
    humidity: real,
    windSpeed: real,
    description: string)
}
