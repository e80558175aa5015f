/**
  The value computations of `playSong`, `rewind` and `fastForward`: the album
  queue with its start index, and the clamped seek targets.
*/
module PlayQueue {
  import opened Wrappers
  import opened Library

  /** Kotlin's `Long`. */
  const MinLong: int := -0x8000_0000_0000_0000
  const MaxLong: int := 0x7FFF_FFFF_FFFF_FFFF
  type Long = x: int | MinLong <= x <= MaxLong

  /** Two's-complement wrap-around of Kotlin `Long` arithmetic. */
  function WrapLong(x: int): (r: Long)
    ensures MinLong <= x <= MaxLong ==> r == x
    ensures (r - x) % 0x1_0000_0000_0000_0000 == 0
  {
    (x - MinLong) % 0x1_0000_0000_0000_0000 + MinLong
  }

  /** The step of `rewind` and `fastForward`, in milliseconds. */
  const SkipStep: int := 10000

  /** `(position - 10000).coerceAtLeast(0)`. */
  function RewindTarget(position: Long): (r: Long)
    ensures r >= 0
    ensures position >= SkipStep ==> r == position - SkipStep
    ensures MinLong + SkipStep <= position < SkipStep ==> r == 0
    ensures position >= 0 ==> r <= position
    ensures position < MinLong + SkipStep ==> r == position - SkipStep + 0x1_0000_0000_0000_0000
  {
    var back := WrapLong(position - SkipStep);
    if back < 0 then 0 else back
  }

  /** `(position + 10000).coerceAtMost(duration)`. */
  function FastForwardTarget(position: Long, duration: Long): (r: Long)
    ensures r <= duration
    ensures position + SkipStep <= MaxLong ==> r == if position + SkipStep <= duration then position + SkipStep else duration
    ensures 0 <= position <= duration && position + SkipStep <= MaxLong ==> position <= r
    ensures 0 <= r <==> 0 <= duration && 0 <= WrapLong(position + SkipStep)
    ensures 0 <= duration && -SkipStep <= position <= MaxLong - SkipStep ==> 0 <= r
  {
    var ahead := WrapLong(position + SkipStep);
    if ahead > duration then duration else ahead
  }

  /** `list.filter { it.album == album }`. */
  function SameAlbum(list: seq<Song>, album: string): seq<Song> {
    if list == [] then []
    else (if list[0].album == album then [list[0]] else []) + SameAlbum(list[1..], album)
  }

  /** `songs.value?.filter { it.album == song.album } ?: listOf(song)`. */
  function Playlist(songs: Option<seq<Song>>, song: Song): seq<Song> {
    match songs
    case Some(list) => SameAlbum(list, song.album)
    case None => [song]
  }

  /** `list.indexOf(song)`: the first position holding `song`, or -1. */
  function IndexOf(list: seq<Song>, song: Song): (r: int)
    ensures -1 <= r < |list|
    ensures r == -1 <==> song !in list
    ensures r >= 0 ==> list[r] == song && forall j :: 0 <= j < r ==> list[j] != song
  {
    if list == [] then -1
    else if list[0] == song then 0
    else
      var k := IndexOf(list[1..], song);
      assert song in list[1..] ==> song in list;
      if k == -1 then -1 else k + 1
  }

  /** `q` is `list` with some elements left out. */
  predicate IsSubsequence(q: seq<Song>, list: seq<Song>)
    decreases |list|
  {
    if q == [] then true
    else if list == [] then false
    else (q[0] == list[0] && IsSubsequence(q[1..], list[1..])) || IsSubsequence(q, list[1..])
  }

  /** Every queue entry is on the chosen song's album. */
  lemma {:induction false} SameAlbumOnly(list: seq<Song>, album: string)
    ensures forall x :: x in SameAlbum(list, album) ==> x.album == album && x in list
  {
    if list != [] {
      SameAlbumOnly(list[1..], album);
    }
  }

  /** The queue keeps the songs in their relative order in the current list. */
  lemma {:induction false} SameAlbumInOrder(list: seq<Song>, album: string)
    ensures IsSubsequence(SameAlbum(list, album), list)
  {
    if list != [] {
      SameAlbumInOrder(list[1..], album);
      var rest := SameAlbum(list[1..], album);
      if list[0].album == album {
        assert SameAlbum(list, album) == [list[0]] + rest;
        assert ([list[0]] + rest)[1..] == rest;
      } else {
        assert SameAlbum(list, album) == rest;
      }
    }
  }

  /** The queue holds every song of the album as often as the list does, and nothing else. */
  lemma {:induction false} SameAlbumCount(list: seq<Song>, album: string, x: Song)
    ensures multiset(SameAlbum(list, album))[x] == if x.album == album then multiset(list)[x] else 0
  {
    if list != [] {
      SameAlbumCount(list[1..], album, x);
      assert list == [list[0]] + list[1..];
    }
  }

  /**
    `playSong(song)` when the list exists: the queue is the album's songs and,
    when `song` is in the list, the start index is the first queue position holding it.
  */
  lemma PlaylistStartsAtSong(list: seq<Song>, song: Song)
    requires song in list
    ensures var q := Playlist(Some(list), song);
      0 <= IndexOf(q, song) < |q| && q[IndexOf(q, song)] == song
  {
    SameAlbumCount(list, song.album, song);
  }

  /** A song that is not in the list gets whatever of its album is there, and start index -1. */
  lemma PlaylistWithoutSong(list: seq<Song>, song: Song)
    requires song !in list
    ensures IndexOf(Playlist(Some(list), song), song) == -1
  {
    SameAlbumOnly(list, song.album);
  }

  /** Without a list the queue is the song alone, started at 0. */
  lemma PlaylistWithoutList(song: Song)
    ensures Playlist(None, song) == [song]
    ensures IndexOf(Playlist(None, song), song) == 0
  {
  }
}
