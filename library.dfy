/** The library's value types: a song and a row of the library list. */
module Library {

  /**
    A song as the view model builds it: the document's uri (an opaque string),
    and its title, artist and album. Equality is Kotlin's data-class equality
    over all four fields.
  */
  datatype Song = Song(uri: string, title: string, artist: string, album: string)

  /** A row of the library list: a section header or a song. */
  datatype LibraryItem =
    | HeaderItem(title: string)
    | SongItem(song: Song)
}
