/**
 * The music picker (app/services/music/music_service.py). Each Last.fm request
 * is an input: `GetTopTracksByTag` classifies one HTTP outcome, and
 * `GetSongRecommendation` receives what its (at most two) awaited tag queries
 * produced, together with the choices `random.choice` would have made.
 */
module MusicService {
  import opened Wrappers
  import opened Strings
  import opened Transport
  import opened Exceptions
  import opened MoodModels
  import opened MusicModels
  import opened MusicConfig

  // ---------------------------------------------------------------------------
  // The Last.fm payload

  /** `track["artist"]`: only its `name` is read. */
  datatype ArtistInfo = ArtistInfo(name: Option<string>)

  /** One entry of `data["tracks"]["track"]`; absent keys are `None`. */
  datatype Track = Track(name: Option<string>, artist: Option<ArtistInfo>, url: Option<string>)

  /** `data["tracks"]`. */
  datatype TrackList = TrackList(track: Option<seq<Track>>)

  /** The decoded body of a `tag.gettoptracks` response. */
  datatype TopTracksData = TopTracksData(tracks: Option<TrackList>)

  /** The response body: decoded, or the exception raised decoding it. */
  datatype TracksBody = TracksJson(data: TopTracksData) | MalformedTracks(cause: string)

  /** `data.get("tracks", {}).get("track", [])`. */
  function ExtractTracks(data: TopTracksData): (tracks: seq<Track>)
    ensures data.tracks.Some? && data.tracks.value.track.Some? ==> tracks == data.tracks.value.track.value
    ensures data.tracks.None? || data.tracks.value.track.None? ==> tracks == []
  {
    data.tracks.GetOr(TrackList(None)).track.GetOr([])
  }

  /** get_top_tracks_by_tag: raise_for_status, decode, extract; each failure becomes a MusicAPIError. */
  function GetTopTracksByTag(outcome: HttpOutcome<TracksBody>): (r: Result<seq<Track>, ServiceError>)
    ensures r.Err? ==> r.error.MusicApiError?
    ensures outcome.RequestFailed? ==> r == Err(MusicApiError("Error connecting to music service"))
    ensures outcome.Response? && !IsSuccess(outcome.statusCode) ==>
              r == Err(MusicApiError("Music service returned status code " + DecimalString(outcome.statusCode)))
    ensures outcome.Response? && IsSuccess(outcome.statusCode) && outcome.body.MalformedTracks? ==>
              r == Err(MusicApiError("Unexpected error: " + outcome.body.cause))
    ensures r.Ok? <==> outcome.Response? && IsSuccess(outcome.statusCode) && outcome.body.TracksJson?
    ensures r.Ok? ==> r.value == ExtractTracks(outcome.body.data)
  {
    match outcome
    case RequestFailed => Err(MusicApiError("Error connecting to music service"))
    case Response(code, body) =>
      if !IsSuccess(code) then Err(MusicApiError("Music service returned status code " + DecimalString(code)))
      else match body
        case MalformedTracks(cause) => Err(MusicApiError("Unexpected error: " + cause))
        case TracksJson(data) => Ok(ExtractTracks(data))
  }

  // ---------------------------------------------------------------------------
  // Selection policy

  const LastFmKeyMissing := "Last.fm API key is not configured"
  const RecommendationErrorPrefix := "Error getting song recommendation: "

  /** The song returned when both queries come back empty. */
  const FallbackSong := Song("Happy", "Pharrell Williams", Some("https://www.last.fm/music/Pharrell+Williams/_/Happy"))

  /** `MOOD_MUSIC_TAGS.get(mood, ["happy"])`. */
  function MoodTagsFor(mood: Mood): (tags: seq<string>)
    ensures 3 <= |tags| <= 4
    ensures tags[0] == mood.Value()
    ensures tags == MoodMusicTags[mood.Value()]
  {
    TagTableIsTotal();
    TagListShape(mood);
    if mood.Value() in MoodMusicTags then MoodMusicTags[mood.Value()] else ["happy"]
  }

  /** Builds a Song from a track, filling absent fields with the defaults. */
  function TrackToSong(track: Track): (song: Song)
    ensures track.name.Some? ==> song.title == track.name.value
    ensures track.name.None? ==> song.title == "Unknown Title"
    ensures track.artist.Some? && track.artist.value.name.Some? ==> song.artist == track.artist.value.name.value
    ensures track.artist.None? || track.artist.value.name.None? ==> song.artist == "Unknown Artist"
    ensures song.url == track.url
  {
    Song(
      track.name.GetOr("Unknown Title"),
      track.artist.GetOr(ArtistInfo(None)).name.GetOr("Unknown Artist"),
      track.url)
  }

  function Min(a: int, b: int): (r: int) {
    if a < b then a else b
  }

  /**
   * `song` comes from one of the first ten tracks, and from the injected
   * choice `pick` when that is among them.
   */
  predicate PickedFromTopTen(song: Song, tracks: seq<Track>, pick: nat) {
    (exists k :: 0 <= k < Min(10, |tracks|) && song == TrackToSong(tracks[k])) &&
    (pick < Min(10, |tracks|) ==> song == TrackToSong(tracks[pick]))
  }

  /**
   * get_song_recommendation. `tagPick` stands for the random tag choice and
   * `trackPick` (reduced modulo the candidate count) for the random track
   * choice; `first` and `second` are what the first and the retry query of
   * get_top_tracks_by_tag produced. `queried` lists the tags actually queried.
   */
  method GetSongRecommendation(apiKey: string, mood: Mood, tagPick: nat, trackPick: nat,
                               first: Result<seq<Track>, ServiceError>,
                               second: Result<seq<Track>, ServiceError>)
    returns (song: Result<Song, ServiceError>, queried: seq<string>)
    requires tagPick < |MoodTagsFor(mood)|
    // the key check precedes any query, and its error carries no prefix
    ensures apiKey == [] ==> song == Err(MusicApiError(LastFmKeyMissing)) && queried == []
    // one query with the chosen tag; a retry with the mood's first tag only after an empty answer
    ensures apiKey != [] ==> 1 <= |queried| <= 2 && queried[0] == MoodTagsFor(mood)[tagPick]
    ensures |queried| == 2 <==> apiKey != [] && first == Ok([])
    ensures |queried| == 2 ==> queried[1] == MoodTagsFor(mood)[0] == mood.Value()
    // every failure is a MusicAPIError carrying the cause behind a fixed prefix
    ensures song.Err? ==> song.error.MusicApiError?
    ensures apiKey != [] && first.Err? ==>
              song == Err(MusicApiError(RecommendationErrorPrefix + first.error.message))
    ensures apiKey != [] && first == Ok([]) && second.Err? ==>
              song == Err(MusicApiError(RecommendationErrorPrefix + second.error.message))
    // two empty answers give the fixed fallback song, whatever the mood
    ensures apiKey != [] && first == Ok([]) && second == Ok([]) ==> song == Ok(FallbackSong)
    // otherwise the song comes from the top ten of the latest non-empty answer
    ensures apiKey != [] && first.Ok? && first.value != [] ==>
              song.Ok? && PickedFromTopTen(song.value, first.value, trackPick)
    ensures apiKey != [] && first == Ok([]) && second.Ok? && second.value != [] ==>
              song.Ok? && PickedFromTopTen(song.value, second.value, trackPick)
  {
    queried := [];
    if apiKey == [] {
      song := Err(MusicApiError(LastFmKeyMissing));
      return;
    }

    var moodTags := MoodTagsFor(mood);
    var selectedTag := moodTags[tagPick];

    queried := queried + [selectedTag];
    var tracks: seq<Track>;
    match first {
      case Err(e) =>
        song := Err(MusicApiError(RecommendationErrorPrefix + e.message));
        return;
      case Ok(found) =>
        tracks := found;
    }

    if tracks == [] {
      var alternativeTag := if |moodTags| > 0 then moodTags[0] else "pop";
      queried := queried + [alternativeTag];
      match second {
        case Err(e) =>
          song := Err(MusicApiError(RecommendationErrorPrefix + e.message));
          return;
        case Ok(found) =>
          tracks := found;
      }
      if tracks == [] {
        song := Ok(FallbackSong);
        return;
      }
    }

    var candidates := if |tracks| > 10 then tracks[..10] else tracks;
    song := Ok(TrackToSong(candidates[trackPick % |candidates|]));
    TopTenChoice(tracks, trackPick);
  }

  /** Choosing among `tracks[:10]` by a pick reduced modulo the candidate count stays in the top ten. */
  lemma TopTenChoice(tracks: seq<Track>, pick: nat)
    requires tracks != []
    ensures var candidates := if |tracks| > 10 then tracks[..10] else tracks;
            PickedFromTopTen(TrackToSong(candidates[pick % |candidates|]), tracks, pick)
  {
    var candidates := if |tracks| > 10 then tracks[..10] else tracks;
    var k := pick % |candidates|;
    assert |candidates| == Min(10, |tracks|);
    assert candidates[k] == tracks[k];
    if pick < |candidates| {
      assert k == pick;
    }
  }

  /** The sample track yields the sample song. */
  lemma SampleTrackSong()
    ensures TrackToSong(Track(Some("Happy"), Some(ArtistInfo(Some("Pharrell Williams"))),
                              Some("https://www.last.fm/music/Pharrell+Williams/_/Happy"))) == FallbackSong
  {
  }
}
