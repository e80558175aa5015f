/**
  `QueueAdapter`: the queue list on the player screen, its highlight of the
  song now playing, and the identity rules of `QueueDiffCallback`.
*/
module QueueAdapter {
  import opened Wrappers
  import opened Library

  /** `QueueDiffCallback.areItemsTheSame`: the same uri. */
  predicate AreItemsTheSame(oldItem: Song, newItem: Song) {
    oldItem.uri == newItem.uri
  }

  /** `QueueDiffCallback.areContentsTheSame`: data-class equality. */
  predicate AreContentsTheSame(oldItem: Song, newItem: Song) {
    oldItem == newItem
  }

  /** Queue rows are the same item exactly by uri; the relation is an equivalence. */
  lemma ItemsTheSameIsEquivalence(a: Song, b: Song, c: Song)
    ensures AreItemsTheSame(a, a)
    ensures AreItemsTheSame(a, b) ==> AreItemsTheSame(b, a)
    ensures AreItemsTheSame(a, b) && AreItemsTheSame(b, c) ==> AreItemsTheSame(a, c)
  {
  }

  /** Equal contents means every field agrees, and then the rows are the same item. */
  lemma ContentsTheSameImpliesItemsTheSame(a: Song, b: Song)
    ensures AreContentsTheSame(a, b) <==>
      a.uri == b.uri && a.title == b.title && a.artist == b.artist && a.album == b.album
    ensures AreContentsTheSame(a, b) ==> AreItemsTheSame(a, b)
  {
  }

  datatype Background = LightGray | Transparent

  /** What a bound queue row shows: title, artist, the song its click plays, and its background. */
  datatype QueueRow = QueueRow(songTitle: string, songArtist: string, onClick: Song, background: Background)

  /** `song == currentPlayingSong`, where the current song may be null. */
  predicate IsCurrent(song: Song, currentPlayingSong: Option<Song>) {
    currentPlayingSong == Some(song)
  }

  class QueueAdapter {
    /** The list held by the ListAdapter base class. */
    var currentList: seq<Song>
    var currentPlayingSong: Option<Song>

    constructor ()
      ensures currentList == [] && currentPlayingSong.None?
    {
      currentList := [];
      currentPlayingSong := None;
    }

    /** The base class's `submitList`, as the list it ends up holding. */
    method SubmitList(list: seq<Song>)
      modifies this`currentList
      ensures currentList == list
    {
      currentList := list;
    }

    /** `onBindViewHolder(holder, position)`: the row is highlighted when its song is the current one. */
    function OnBindViewHolder(position: nat): (row: QueueRow)
      reads this
      requires position < |currentList|
      ensures row.onClick == currentList[position]
      ensures row.songTitle == currentList[position].title && row.songArtist == currentList[position].artist
      ensures row.background == LightGray <==> currentPlayingSong == Some(currentList[position])
    {
      var song := currentList[position];
      QueueRow(song.title, song.artist, song, if IsCurrent(song, currentPlayingSong) then LightGray else Transparent)
    }

    /**
      `setCurrentPlayingSong(song)`: only the current song changes; afterwards
      exactly the rows holding `song` are highlighted, and none when it is null.
    */
    method SetCurrentPlayingSong(song: Option<Song>)
      modifies this`currentPlayingSong
      ensures currentPlayingSong == song
      ensures currentList == old(currentList)
      ensures forall i :: 0 <= i < |currentList| ==>
        (OnBindViewHolder(i).background == LightGray <==> song == Some(currentList[i]))
      ensures song.None? ==> forall i :: 0 <= i < |currentList| ==> OnBindViewHolder(i).background == Transparent
    {
      currentPlayingSong := song;
    }
  }
}
