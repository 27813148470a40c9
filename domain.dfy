/** The plain data shapes of the application: a Song and a Playlist, plus the
    two small wrappers the adapters use for a value that may be absent
    (JavaScript's `null`/`undefined`) and for an operation that may fail. */
module Domain {

  /** A value that may be absent: `T | null` (or `undefined`) in the source. */
  datatype Option<+T> = None | Some(value: T)

  /** The outcome of an operation that returns nothing or throws. */
  datatype Outcome<+E> = Pass | Fail(error: E)

  /** A song as the application shows it. `id` belongs to the system the song
      was read from: the catalog's track id for a search result, the store's
      document id for a song read back from a playlist. */
  datatype Song = Song(
    id: string,
    name: string,
    artists: string,
    album: string,
    imageUrl: string,
    previewUrl: Option<string>)

  /** A playlist is a list name paired with the songs filed under it; it is
      derived from the store's flat records on every read. */
  datatype Playlist = Playlist(listName: string, songs: seq<Song>)
}
