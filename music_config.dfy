/** Last.fm search tags per mood (app/services/music/config.py). */
module MusicConfig {
  import opened MoodModels

  /** MOOD_MUSIC_TAGS, keyed by mood value; list order matters (the first tag is the retry tag). */
  const MoodMusicTags: map<string, seq<string>> := map[
    "happy" := ["happy", "upbeat", "cheerful", "feel good"],
    "sad" := ["sad", "melancholy", "heartbreak", "emotional"],
    "calm" := ["calm", "chill", "peaceful", "ambient"],
    "energetic" := ["energetic", "upbeat", "party", "dance"],
    "romantic" := ["romantic", "love songs", "ballad"],
    "angry" := ["angry", "rage", "aggressive", "metal"],
    "anxious" := ["anxious", "tense", "dark", "experimental"],
    "relaxed" := ["relaxed", "chill", "lounge", "acoustic"]
  ]

  /** Every mood has a tag list and every key is a mood. */
  lemma TagTableIsTotal()
    ensures forall m: Mood :: m.Value() in MoodMusicTags
    ensures forall key :: key in MoodMusicTags ==> ParseMood(key).Some?
  {
  }

  /** Each list holds three or four tags, the first being the mood's own name; only romantic has three. */
  lemma TagListShape(m: Mood)
    ensures m.Value() in MoodMusicTags
    ensures 3 <= |MoodMusicTags[m.Value()]| <= 4
    ensures |MoodMusicTags[m.Value()]| == 3 <==> m == Romantic
    ensures MoodMusicTags[m.Value()][0] == m.Value()
  {
  }

  /** Tags shared across moods: "upbeat" by happy and energetic, "chill" by calm and relaxed. */
  lemma SharedTags()
    ensures "upbeat" in MoodMusicTags["happy"] && "upbeat" in MoodMusicTags["energetic"]
    ensures "chill" in MoodMusicTags["calm"] && "chill" in MoodMusicTags["relaxed"]
  {
    assert MoodMusicTags["happy"][1] == "upbeat";
    assert MoodMusicTags["energetic"][1] == "upbeat";
    assert MoodMusicTags["calm"][1] == "chill";
    assert MoodMusicTags["relaxed"][1] == "chill";
  }
}
