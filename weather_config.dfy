/**
 * The weather service's constant tables (app/services/weather/config.py): the
 * temperature ranges, the provider-label mapping and the per-mood compatibility
 * rules. As in the configuration file, entries are strings; the enums accept
 * exactly those strings, which the lemmas below establish.
 */
module WeatherConfig {
  import opened WeatherModels
  import opened MoodModels

  /** A named half-open interval [min, max) of degrees Celsius. */
  datatype TemperatureRange = TemperatureRange(name: string, min: int, max: int)
  {
    predicate Contains(t: real) {
      min as real <= t < max as real
    }
  }

  /** TEMPERATURE_RANGES, in the dictionary's (insertion) order. */
  const TemperatureRanges: seq<TemperatureRange> := [
    TemperatureRange("freezing", -50, 0),
    TemperatureRange("cold", 0, 10),
    TemperatureRange("cool", 10, 18),
    TemperatureRange("mild", 18, 24),
    TemperatureRange("warm", 24, 30),
    TemperatureRange("hot", 30, 50)
  ]

  /** WEATHER_MAIN_MAPPING: provider `weather[0].main` label to condition value. */
  const WeatherMainMapping: map<string, string> := map[
    "Clear" := "clear",
    "Clouds" := "clouds",
    "Rain" := "rain",
    "Drizzle" := "drizzle",
    "Thunderstorm" := "thunderstorm",
    "Snow" := "snow",
    "Mist" := "mist",
    "Smoke" := "mist",
    "Haze" := "mist",
    "Dust" := "mist",
    "Fog" := "fog",
    "Sand" := "mist",
    "Ash" := "mist",
    "Squall" := "thunderstorm",
    "Tornado" := "thunderstorm"
  ]

  /**
   * One entry of MOOD_WEATHER_MAPPING: the compatible condition values, the
   * compatible temperature-category values, and whether both must match.
   */
  datatype MoodRule = MoodRule(conditions: seq<string>, temperature: seq<string>, matchAll: bool)

  /** MOOD_WEATHER_MAPPING, keyed by mood value. */
  const MoodWeatherMapping: map<string, MoodRule> := map[
    "happy" := MoodRule(["clear", "clouds"], ["mild", "warm"], false),
    "sad" := MoodRule(["rain", "drizzle", "mist", "fog"], ["cold", "cool"], false),
    "calm" := MoodRule(["clear", "clouds"], ["mild"], true),
    "energetic" := MoodRule(["clear"], ["mild", "warm"], false),
    "romantic" := MoodRule(["clear", "drizzle"], ["mild", "cool"], false),
    "angry" := MoodRule(["thunderstorm"], ["hot"], false),
    "anxious" := MoodRule(["thunderstorm", "fog", "mist"], ["freezing", "hot"], false),
    "relaxed" := MoodRule(["clear", "clouds"], ["mild", "warm"], true)
  ]

  /** Consecutive ranges meet: each range's max is the next range's min, from -50 up to 50. */
  lemma RangesContiguous()
    ensures |TemperatureRanges| == 6
    ensures TemperatureRanges[0].min == -50 && TemperatureRanges[5].max == 50
    ensures forall i :: 0 <= i < 5 ==> TemperatureRanges[i].max == TemperatureRanges[i + 1].min
  {
  }

  /** Together the ranges cover exactly [-50, 50). */
  lemma RangesCover(t: real)
    ensures (-50 as real <= t < 50 as real) <==>
            exists i :: 0 <= i < |TemperatureRanges| && TemperatureRanges[i].Contains(t)
  {
    var R := TemperatureRanges;
    if -50 as real <= t < 0 as real { assert R[0].Contains(t); }
    else if 0 as real <= t < 10 as real { assert R[1].Contains(t); }
    else if 10 as real <= t < 18 as real { assert R[2].Contains(t); }
    else if 18 as real <= t < 24 as real { assert R[3].Contains(t); }
    else if 24 as real <= t < 30 as real { assert R[4].Contains(t); }
    else if 30 as real <= t < 50 as real { assert R[5].Contains(t); }
  }

  /** No temperature lies in two ranges. */
  lemma RangesDisjoint(t: real, i: int, j: int)
    requires 0 <= i < |TemperatureRanges| && 0 <= j < |TemperatureRanges|
    requires TemperatureRanges[i].Contains(t) && TemperatureRanges[j].Contains(t)
    ensures i == j
  {
  }

  /** Every range is named by a temperature category, and no two ranges share a name. */
  lemma RangeNamesAreCategories()
    ensures forall i :: 0 <= i < |TemperatureRanges| ==> ParseTemperature(TemperatureRanges[i].name).Some?
    ensures forall i, j :: 0 <= i < j < |TemperatureRanges| ==> TemperatureRanges[i].name != TemperatureRanges[j].name
  {
  }

  /** Every temperature category has a range. */
  lemma CategoryHasRange(c: WeatherTemperature)
    ensures exists i :: 0 <= i < |TemperatureRanges| && TemperatureRanges[i].name == c.Value()
  {
    var i := match c
      case Freezing => 0
      case Cold => 1
      case Cool => 2
      case Mild => 3
      case Warm => 4
      case Hot => 5;
    assert TemperatureRanges[i].name == c.Value();
  }

  /** Every value of the provider-label mapping is a `WeatherCondition` value. */
  lemma MainMappingValuesAreConditions()
    ensures forall name :: name in WeatherMainMapping ==> ParseCondition(WeatherMainMapping[name]).Some?
  {
  }

  /** The aliases: five dust-like labels become mist, squalls and tornadoes become thunderstorm. */
  lemma MainMappingAliases()
    ensures forall name :: name in ["Smoke", "Haze", "Dust", "Sand", "Ash"] ==>
              name in WeatherMainMapping && WeatherMainMapping[name] == "mist"
    ensures forall name :: name in ["Squall", "Tornado"] ==>
              name in WeatherMainMapping && WeatherMainMapping[name] == "thunderstorm"
  {
  }

  /** The rule table has exactly one entry per mood. */
  lemma MoodMappingIsTotal()
    ensures forall m: Mood :: m.Value() in MoodWeatherMapping
    ensures forall key :: key in MoodWeatherMapping ==> ParseMood(key).Some?
  {
  }

  /** Every condition and temperature listed in a rule is a member of its enum. */
  lemma RuleEntriesAreEnumValues()
    ensures forall key, s :: key in MoodWeatherMapping && s in MoodWeatherMapping[key].conditions ==>
              ParseCondition(s).Some?
    ensures forall key, s :: key in MoodWeatherMapping && s in MoodWeatherMapping[key].temperature ==>
              ParseTemperature(s).Some?
  {
  }

  /** Exactly calm and relaxed require both criteria; the other six moods accept either. */
  lemma MatchAllExactlyCalmAndRelaxed()
    ensures forall m: Mood :: m.Value() in MoodWeatherMapping &&
              (MoodWeatherMapping[m.Value()].matchAll <==> m == Calm || m == Relaxed)
  {
  }

  /** No mood is compatible with snow through its condition list. */
  lemma NoRuleListsSnow()
    ensures forall key :: key in MoodWeatherMapping ==> "snow" !in MoodWeatherMapping[key].conditions
  {
  }
}
