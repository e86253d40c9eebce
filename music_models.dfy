/** The song recommendation record (app/services/music/models.py). */
module MusicModels {
  import opened Wrappers

  datatype Song = Song(title: string, artist: string, url: Option<string>)
}
