/**
  `LibraryAdapter`: the row kinds of the library list, the holder created for
  each view type, what a holder shows, and the identity rules of
  `LibraryDiffCallback`.
*/
module LibraryAdapter {
  import opened Wrappers
  import opened Library

  const ItemViewTypeHeader: int := 0
  const ItemViewTypeSong: int := 1

  /** `getItemViewType`: 0 for a header row, 1 for a song row. */
  function GetItemViewType(item: LibraryItem): (viewType: int)
    ensures viewType == ItemViewTypeHeader <==> item.HeaderItem?
    ensures viewType == ItemViewTypeSong <==> item.SongItem?
  {
    match item
    case HeaderItem(_) => ItemViewTypeHeader
    case SongItem(_) => ItemViewTypeSong
  }

  datatype ViewHolder = HeaderViewHolder | SongViewHolder

  /** The exceptions the adapter throws: an unknown view type, or a row of the wrong kind for its holder. */
  datatype AdapterError = UnknownViewType(viewType: int) | WrongRowKind

  /** `onCreateViewHolder(parent, viewType)`; any view type but 0 and 1 throws. */
  function OnCreateViewHolder(viewType: int): (r: Result<ViewHolder, AdapterError>)
    ensures r.Success? <==> viewType == ItemViewTypeHeader || viewType == ItemViewTypeSong
    ensures r.Failure? ==> r.error == UnknownViewType(viewType)
  {
    if viewType == ItemViewTypeHeader then Success(HeaderViewHolder)
    else if viewType == ItemViewTypeSong then Success(SongViewHolder)
    else Failure(UnknownViewType(viewType))
  }

  /** What a bound holder shows: a header's title, or a song's title and artist with the song its click plays. */
  datatype Binding = HeaderBinding(headerTitle: string) | SongBinding(songTitle: string, songArtist: string, onClick: Song)

  /** `onBindViewHolder(holder, position)` for the row `item`; the cast to the holder's row kind throws on a mismatch. */
  function OnBindViewHolder(holder: ViewHolder, item: LibraryItem): (r: Result<Binding, AdapterError>)
    ensures r.Success? <==> (holder == HeaderViewHolder <==> item.HeaderItem?)
    ensures r.Success? && item.HeaderItem? ==> r.value == HeaderBinding(item.title)
    ensures r.Success? && item.SongItem? ==> r.value == SongBinding(item.song.title, item.song.artist, item.song)
  {
    match holder
    case SongViewHolder =>
      if item.SongItem? then Success(SongBinding(item.song.title, item.song.artist, item.song)) else Failure(WrongRowKind)
    case HeaderViewHolder =>
      if item.HeaderItem? then Success(HeaderBinding(item.title)) else Failure(WrongRowKind)
  }

  /** Every row gets a holder from its own view type, and that holder binds it without a cast failure. */
  lemma ViewTypeRoundTrip(item: LibraryItem)
    ensures OnCreateViewHolder(GetItemViewType(item)).Success?
    ensures OnBindViewHolder(OnCreateViewHolder(GetItemViewType(item)).value, item).Success?
  {
  }

  /** `LibraryDiffCallback.areItemsTheSame`: headers by title, song rows by uri, never across kinds. */
  predicate AreItemsTheSame(oldItem: LibraryItem, newItem: LibraryItem) {
    (oldItem.HeaderItem? && newItem.HeaderItem? && oldItem.title == newItem.title) ||
    (oldItem.SongItem? && newItem.SongItem? && oldItem.song.uri == newItem.song.uri)
  }

  /** `LibraryDiffCallback.areContentsTheSame`: data-class equality. */
  predicate AreContentsTheSame(oldItem: LibraryItem, newItem: LibraryItem) {
    oldItem == newItem
  }

  lemma HeadersSameItem(a: string, b: string)
    ensures AreItemsTheSame(HeaderItem(a), HeaderItem(b)) <==> a == b
  {
  }

  /** Song rows are the same item exactly when their uris agree, whatever their other fields. */
  lemma SongRowsSameItem(a: Song, b: Song)
    ensures AreItemsTheSame(SongItem(a), SongItem(b)) <==> a.uri == b.uri
  {
  }

  lemma HeaderNeverSameAsSong(title: string, song: Song)
    ensures !AreItemsTheSame(HeaderItem(title), SongItem(song))
    ensures !AreItemsTheSame(SongItem(song), HeaderItem(title))
  {
  }

  /** `areItemsTheSame` is an equivalence: reflexive, symmetric and transitive. */
  lemma ItemsTheSameIsEquivalence(a: LibraryItem, b: LibraryItem, c: LibraryItem)
    ensures AreItemsTheSame(a, a)
    ensures AreItemsTheSame(a, b) ==> AreItemsTheSame(b, a)
    ensures AreItemsTheSame(a, b) && AreItemsTheSame(b, c) ==> AreItemsTheSame(a, c)
  {
  }

  /** Equal contents are equal in every field, so they are the same item. */
  lemma ContentsTheSameImpliesItemsTheSame(a: LibraryItem, b: LibraryItem)
    ensures AreContentsTheSame(a, b) <==>
      (a.HeaderItem? && b.HeaderItem? && a.title == b.title) ||
      (a.SongItem? && b.SongItem? && a.song.uri == b.song.uri && a.song.title == b.song.title &&
       a.song.artist == b.song.artist && a.song.album == b.song.album)
    ensures AreContentsTheSame(a, b) ==> AreItemsTheSame(a, b)
  {
  }
}
