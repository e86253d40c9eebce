/** The explanation composer (app/services/explanation/music_explanation.py). */
module MusicExplanation {
  import opened Strings
  import opened WeatherModels
  import opened MusicModels

  /** The named fields a template refers to. */
  datatype Placeholder = MoodField | WeatherDescField | CityField | SongTitleField | ArtistField

  /** A template is literal text interleaved with placeholders, as `str.format` reads it. */
  datatype Piece = Literal(text: string) | Field(name: Placeholder)

  datatype FormatArgs = FormatArgs(mood: string, weatherDesc: string, city: string, songTitle: string, artist: string)

  /** EXPLANATION_TEMPLATES. */
  const ExplanationTemplates: map<string, seq<Piece>> := map[
    "match" := [
      Literal("Your "), Field(MoodField),
      Literal(" mood aligns well with the current "), Field(WeatherDescField),
      Literal(" weather in "), Field(CityField),
      Literal(".We've recommended '"), Field(SongTitleField),
      Literal("' by '"), Field(ArtistField),
      Literal("' to complement your mood.")],
    "no_match" := [
      Literal("Your "), Field(MoodField),
      Literal(" mood doesn't quite match the current "), Field(WeatherDescField),
      Literal(" weather in "), Field(CityField),
      Literal(".We've recommended '"), Field(SongTitleField),
      Literal("' by '"), Field(ArtistField),
      Literal("' to enhance your mood regardless of the weather.")]
  ]

  function FieldValue(name: Placeholder, args: FormatArgs): (r: string) {
    match name
    case MoodField => args.mood
    case WeatherDescField => args.weatherDesc
    case CityField => args.city
    case SongTitleField => args.songTitle
    case ArtistField => args.artist
  }

  /** The text one piece contributes. */
  function Render(piece: Piece, args: FormatArgs): (r: string) {
    match piece
    case Literal(text) => text
    case Field(name) => FieldValue(name, args)
  }

  /** Strings joined in order. */
  function Concat(parts: seq<string>): (r: string)
    decreases |parts|
  {
    if parts == [] then "" else Concat(parts[..|parts| - 1]) + parts[|parts| - 1]
  }

  /** The text of each piece, in template order. */
  function RenderAll(template: seq<Piece>, args: FormatArgs): (texts: seq<string>)
    ensures |texts| == |template|
    ensures forall i :: 0 <= i < |template| ==> texts[i] == Render(template[i], args)
  {
    seq(|template|, i requires 0 <= i < |template| => Render(template[i], args))
  }

  /** `template.format(**args)`: literals copied, each placeholder replaced verbatim. */
  function Format(template: seq<Piece>, args: FormatArgs): (r: string) {
    Concat(RenderAll(template, args))
  }

  /** "{category} and {condition}". */
  function WeatherDescription(weather: WeatherData): (r: string) {
    weather.temperatureCategory.Value() + " and " + weather.condition.Value()
  }

  /** generate_explanation. */
  function GenerateExplanation(mood: string, weather: WeatherData, song: Song, city: string, matches: bool): (r: string) {
    var key := if matches then "match" else "no_match";
    Format(ExplanationTemplates[key], FormatArgs(mood, WeatherDescription(weather), city, song.title, song.artist))
  }

  /** The affirming explanation, piece for piece (no space after the city's period). */
  lemma MatchExplanationText(mood: string, weather: WeatherData, song: Song, city: string)
    ensures GenerateExplanation(mood, weather, song, city, true) ==
            Concat(["Your ", mood, " mood aligns well with the current ", WeatherDescription(weather),
                    " weather in ", city, ".We've recommended '", song.title, "' by '", song.artist,
                    "' to complement your mood."])
  {
    var args := FormatArgs(mood, WeatherDescription(weather), city, song.title, song.artist);
    assert RenderAll(ExplanationTemplates["match"], args) ==
           ["Your ", mood, " mood aligns well with the current ", WeatherDescription(weather),
            " weather in ", city, ".We've recommended '", song.title, "' by '", song.artist,
            "' to complement your mood."];
  }

  /** The contrastive explanation, piece for piece. */
  lemma NoMatchExplanationText(mood: string, weather: WeatherData, song: Song, city: string)
    ensures GenerateExplanation(mood, weather, song, city, false) ==
            Concat(["Your ", mood, " mood doesn't quite match the current ", WeatherDescription(weather),
                    " weather in ", city, ".We've recommended '", song.title, "' by '", song.artist,
                    "' to enhance your mood regardless of the weather."])
  {
    var args := FormatArgs(mood, WeatherDescription(weather), city, song.title, song.artist);
    assert RenderAll(ExplanationTemplates["no_match"], args) ==
           ["Your ", mood, " mood doesn't quite match the current ", WeatherDescription(weather),
            " weather in ", city, ".We've recommended '", song.title, "' by '", song.artist,
            "' to enhance your mood regardless of the weather."];
  }

  /** Both explanations for any mood, weather, song and city. */
  lemma ExplanationText(mood: string, weather: WeatherData, song: Song, city: string, matches: bool)
    ensures GenerateExplanation(mood, weather, song, city, matches) ==
            if matches then
              Concat(["Your ", mood, " mood aligns well with the current ", WeatherDescription(weather),
                      " weather in ", city, ".We've recommended '", song.title, "' by '", song.artist,
                      "' to complement your mood."])
            else
              Concat(["Your ", mood, " mood doesn't quite match the current ", WeatherDescription(weather),
                      " weather in ", city, ".We've recommended '", song.title, "' by '", song.artist,
                      "' to enhance your mood regardless of the weather."])
  {
    if matches {
      MatchExplanationText(mood, weather, song, city);
    } else {
      NoMatchExplanationText(mood, weather, song, city);
    }
  }

  /** Every part of a join appears in it verbatim. */
  lemma {:induction false} ConcatEmbedsPart(parts: seq<string>, i: nat)
    requires i < |parts|
    ensures IsSubstring(parts[i], Concat(parts))
    decreases |parts|
  {
    var init := parts[..|parts| - 1];
    var last := parts[|parts| - 1];
    if i == |parts| - 1 {
      assert Concat(parts) == Concat(init) + last + "";
      SubstringOfConcat(Concat(init), last, "");
    } else {
      assert init[i] == parts[i];
      ConcatEmbedsPart(init, i);
      SubstringExtends(parts[i], Concat(init), last);
    }
  }

  /** Every placeholder of a template is filled in verbatim. */
  lemma FormatEmbedsField(t: seq<Piece>, name: Placeholder, args: FormatArgs)
    requires Field(name) in t
    ensures IsSubstring(FieldValue(name, args), Format(t, args))
  {
    var i :| 0 <= i < |t| && t[i] == Field(name);
    ConcatEmbedsPart(RenderAll(t, args), i);
  }

  /** Both templates use every placeholder. */
  lemma TemplatesUseEveryField(key: string, name: Placeholder)
    requires key == "match" || key == "no_match"
    ensures key in ExplanationTemplates && Field(name) in ExplanationTemplates[key]
  {
    var t := ExplanationTemplates[key];
    match name
    case MoodField => assert t[1] == Field(name);
    case WeatherDescField => assert t[3] == Field(name);
    case CityField => assert t[5] == Field(name);
    case SongTitleField => assert t[7] == Field(name);
    case ArtistField => assert t[9] == Field(name);
  }

  /** Mood, weather description, city, title and artist all appear verbatim in the explanation. */
  lemma ExplanationEmbedsInputs(mood: string, weather: WeatherData, song: Song, city: string, matches: bool)
    ensures var r := GenerateExplanation(mood, weather, song, city, matches);
            IsSubstring(mood, r) && IsSubstring(WeatherDescription(weather), r) && IsSubstring(city, r) &&
            IsSubstring(song.title, r) && IsSubstring(song.artist, r)
  {
    var key := if matches then "match" else "no_match";
    var args := FormatArgs(mood, WeatherDescription(weather), city, song.title, song.artist);
    forall name: Placeholder
      ensures IsSubstring(FieldValue(name, args), GenerateExplanation(mood, weather, song, city, matches))
    {
      TemplatesUseEveryField(key, name);
      FormatEmbedsField(ExplanationTemplates[key], name, args);
    }
    assert FieldValue(MoodField, args) == mood;
    assert FieldValue(WeatherDescField, args) == WeatherDescription(weather);
    assert FieldValue(CityField, args) == city;
    assert FieldValue(SongTitleField, args) == song.title;
    assert FieldValue(ArtistField, args) == song.artist;
  }

  /** The song URL and the raw temperature, humidity, wind and description do not affect the text. */
  lemma ExplanationIgnoresOtherFields(mood: string, w1: WeatherData, w2: WeatherData, s1: Song, s2: Song,
                                      city: string, matches: bool)
    requires w1.condition == w2.condition && w1.temperatureCategory == w2.temperatureCategory
    requires s1.title == s2.title && s1.artist == s2.artist
    ensures GenerateExplanation(mood, w1, s1, city, matches) == GenerateExplanation(mood, w2, s2, city, matches)
  {
  }

  /** Warm, clear weather reads "warm and clear" in either template. */
  lemma WarmClearDescription(mood: string, weather: WeatherData, song: Song, city: string, matches: bool)
    requires weather.temperatureCategory == Warm && weather.condition == Clear
    ensures IsSubstring("warm and clear", GenerateExplanation(mood, weather, song, city, matches))
  {
    WarmClearWords(weather);
    ExplanationEmbedsInputs(mood, weather, song, city, matches);
  }

  lemma WarmClearWords(weather: WeatherData)
    requires weather.temperatureCategory == Warm && weather.condition == Clear
    ensures WeatherDescription(weather) == "warm and clear"
  {
    assert "warm" + " and " + "clear" == "warm and clear";
  }
}
