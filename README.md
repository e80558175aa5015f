# Music player library and playback bookkeeping, in Dafny

This project models the bookkeeping core of a small Android music player (package
`com.example.myplayer`). The Android and ExoPlayer plumbing is left out. The model covers:

- **Library scan** (`FolderScan`). A depth-first walk over the chosen folder trees. It keeps
  files whose name ends in `.mp3`, `.flac`, `.wav` or `.ogg`, ignoring case. Each readable file
  becomes a `Song` with default metadata. Unreadable files and folders are skipped.
- **Sort** (`SongSort`). Kotlin's stable `sortedBy` on title, artist or album, under the
  ordinal string order (`Ordinal`).
- **Queue and positions** (`PlayQueue`). The queue `playSong` builds: the current list's songs
  of the same album, with an `indexOf` start index. Also the clamped seek targets of `rewind`
  and `fastForward`, in Kotlin `Long` arithmetic.
- **View model** (`SharedViewModel`). A class whose fields are the LiveData values the screens
  observe: songs, folder set, scanning flag, now playing, playing flag, position and duration.
  It also holds the service link and the progress handler's pending ticks. Its invariant says
  that at most one progress tick is ever pending; that the published list is sorted by the
  current order; that the stored order is the current one; and that the published folder set
  is the stored one.
- **Preferences**. `FolderRepository` is a string set stored under `"folders"`.
  `SortPreferences` is the `SortOrder` enum stored by name under `"sort_order"` and read back
  with `valueOf`; a bad stored name is a `Failure`.
- **List adapters** (`LibraryAdapter`, `QueueAdapter`). The view-type mapping, what a bound
  row shows, the now-playing highlight, and the diff-callback identity rules.

The externals become inputs:

- The document tree is a `DocumentFile` value. For each file it says what opening the file and
  reading its metadata gives.
- `DocumentFile.fromTreeUri` is a map from folder string to tree. A missing key stands for
  `null`.
- The iteration order of the stored folder set is a parameter, `folderOrder`. It must list
  each stored folder exactly once.
- The engine's position, duration and playing flag are method parameters.
- Every request to the playback service, binding and unbinding included, is appended to the
  field `sent`.

Strings are `seq<char>`. A Dafny `char` is a Unicode scalar value, so a character outside the
Basic Multilingual Plane, such as an emoji, is one character here, while Kotlin stores it as
two UTF-16 code units (see `Ordinal.Less` under "## Left out").

## How the code differs from its description

- `Song.kt:5-9` declares only `uri`, `title` and `artist`. `SharedViewModel.kt:163` builds songs
  with a fourth field, `album`, and `:174` filters on it. The model's `Song` has all four
  fields, as the view model uses them.
- The queue is filtered from `songs.value`, which holds the already sorted list
  (`SharedViewModel.kt:121`, `:174`). So the queue follows the sorted order, not the scan order.
- The single-song fallback `?: listOf(song)` applies only when there is no list at all. If the
  list exists but lacks the song, the queue is that album's songs (maybe none) and the start
  index is `-1` (`PlayQueue.PlaylistWithoutSong`).
- The title sort is case-sensitive and ordinal, like the artist and album sorts. No code builds
  header rows or title buckets.
- The "Unknown Title" default is not reached as long as `file.name` gives the same answer at
  `SharedViewModel.kt:153` and at `:160`. A file without a name is tested as `""`, which has no
  supported extension, so every accepted file has a name that the title can fall back to
  (`FolderScan.AcceptedSongDefaults`). Each `file.name` is a new query to the document provider,
  though, so a name present at `:153` can be null at `:160`, and then "Unknown Title" is used.
  The model reads each name once (see "## Left out").
- `fastForward` stays at or below the duration. Its target is negative exactly when the
  duration is negative or `position + 10000`, in `Long` arithmetic, is negative. A non-negative
  duration together with a position from -10000 to `Long.MAX_VALUE - 10000` is enough to keep it
  non-negative (`PlayQueue.FastForwardTarget`).
- The view model uses service members that `MusicService.kt:18-135` does not define:
  `onTrackChanged` and `onPlaylistEnded` (`SharedViewModel.kt:72-73`), `skipToNext` and
  `skipToPrevious` (`:208-209`), and `stopMusicAndSelfDestruct` (`:230`). The model records
  the three calls as `ServiceCommand`s and models the two callbacks as the view-model methods
  `OnTrackChanged` and `OnPlaylistEnded`, as the view model registers them. The service shown
  never invokes those two callbacks.
- `MusicService` has a single `onPlayerReady` slot and a single `onPlaybackStateChanged` slot.
  `PlayerFragment.kt:35-36` overwrites both when the player screen binds, and `:44-45` sets them
  to null when it disconnects. After that, the view model's `onPlayerReady` and
  `onPlaybackStateChanged` handlers no longer fire. The model lets `OnPlayerReady` and
  `OnPlaybackStateChanged` be called at any time.
- The `"PLAYLIST"` and `"SONG_INDEX"` extras that `playSong` puts on its intent
  (`SharedViewModel.kt:180-181`) are never read. `MusicService.kt:46-47` reads `"SONG_URI"` and
  `"SONG_TITLE"`, which `playSong` does not set. `StartPlay` records what the view model sends,
  not what the service plays.

## Model

| member | source | states |
|---|---|---|
| `Ordinal.Less` | app/src/main/java/com/example/myplayer/SharedViewModel.kt:116-120 | Kotlin's `a.compareTo(b) < 0` on strings: a proper prefix is smaller, and otherwise the first differing character decides |
| `Ordinal.LessOrEqual` | app/src/main/java/com/example/myplayer/SharedViewModel.kt:116-120 | `a.compareTo(b) <= 0`: `b` is not smaller than `a` |
| `Ordinal.LessAtFirstDifference` | app/src/main/java/com/example/myplayer/SharedViewModel.kt:116-120 | the string order `sortedBy` uses is decided by the first differing character, and a proper prefix comes first |
| `Ordinal.LessIrreflexive` | app/src/main/java/com/example/myplayer/SharedViewModel.kt:116-120 | no string is smaller than itself |
| `Ordinal.LessTransitive` | app/src/main/java/com/example/myplayer/SharedViewModel.kt:116-120 | the string order is transitive |
| `Ordinal.LessTotal` | app/src/main/java/com/example/myplayer/SharedViewModel.kt:116-120 | any two different strings are ordered one way or the other |
| `Ordinal.LessOrEqualAntisymmetric` | app/src/main/java/com/example/myplayer/SharedViewModel.kt:116-120 | two strings each at most the other are equal |
| `Ordinal.EndsWithIgnoreCase` | app/src/main/java/com/example/myplayer/SharedViewModel.kt:154 | `s.endsWith(suffix, ignoreCase = true)`: `s` is at least as long as `suffix` and its last characters match the suffix's, compared from the end, ignoring case |
| `Ordinal.EndsWithIgnoreCaseCharwise` | app/src/main/java/com/example/myplayer/SharedViewModel.kt:154 | `endsWith(ignoreCase = true)` holds exactly when the name is at least as long as the suffix and each of its last characters matches the suffix's character at the same place, ignoring case |
| `Ordinal.EndsWithLowerSuffix` | app/src/main/java/com/example/myplayer/SharedViewModel.kt:154 | for a lower-case suffix, `endsWith(ignoreCase = true)` holds exactly when the lower-cased tail of the name equals the suffix |
| `SortPreferences.Name` | app/src/main/java/com/example/myplayer/SortPreferences.kt:6 | the `name` of each enum constant, as stored under `"sort_order"` |
| `SortPreferences.ValueOf` | app/src/main/java/com/example/myplayer/SortPreferences.kt:13 | `valueOf` succeeds exactly on the three constant names, returns the constant of that name, and otherwise fails with the name it was given |
| `SortPreferences.ExactlyThreeOrders` | app/src/main/java/com/example/myplayer/SortPreferences.kt:6 | every order is TITLE, ARTIST or ALBUM, and the three names are distinct |
| `SortPreferences.ValueOfName` | app/src/main/java/com/example/myplayer/SortPreferences.kt:13-17 | `valueOf(x.name) == x` for every order |
| `SortPreferences.SortPreferences.constructor` | app/src/main/java/com/example/myplayer/SortPreferences.kt:8-10 | the preferences start from the given store |
| `SortPreferences.SortPreferences.GetSortOrder` | app/src/main/java/com/example/myplayer/SortPreferences.kt:12-14 | TITLE when nothing is stored; otherwise success exactly when the stored string names an order, which is then the order returned |
| `SortPreferences.SortPreferences.SetSortOrder` | app/src/main/java/com/example/myplayer/SortPreferences.kt:16-18 | the store changes only at `"sort_order"`, which becomes the order's name, and `GetSortOrder` then returns that order |
| `SortPreferences.SetThenGet` | app/src/main/java/com/example/myplayer/SortPreferences.kt:12-18 | after a set, the get returns the order set and every other key keeps its value |
| `FolderRepository.FolderRepository.constructor` | app/src/main/java/com/example/myplayer/FolderRepository.kt:7-9 | the repository starts from the given store |
| `FolderRepository.FolderRepository.GetFolders` | app/src/main/java/com/example/myplayer/FolderRepository.kt:11-13 | the empty set when nothing is stored, else the stored set |
| `FolderRepository.FolderRepository.AddFolder` | app/src/main/java/com/example/myplayer/FolderRepository.kt:15-19 | the folder set becomes the old set plus the uri string; only the `"folders"` entry changes |
| `FolderRepository.FolderRepository.RemoveFolder` | app/src/main/java/com/example/myplayer/FolderRepository.kt:21-25 | the folder set becomes the old set minus the uri string; only the `"folders"` entry changes |
| `FolderRepository.AddPresentFolder` | app/src/main/java/com/example/myplayer/FolderRepository.kt:15-18 | adding a folder that is already stored leaves the set unchanged |
| `FolderRepository.AddFolderTwice` | app/src/main/java/com/example/myplayer/FolderRepository.kt:15-19 | adding the same folder twice is the same as adding it once |
| `FolderRepository.RemoveAbsentFolder` | app/src/main/java/com/example/myplayer/FolderRepository.kt:21-24 | removing a folder that is not stored leaves the set unchanged |
| `FolderRepository.RemoveKeepsOthers` | app/src/main/java/com/example/myplayer/FolderRepository.kt:21-24 | after a remove the folder is absent and every other folder is still there |
| `FolderRepository.AddThenRemove` | app/src/main/java/com/example/myplayer/FolderRepository.kt:15-24 | adding a new folder and then removing it restores the original set |
| `SongSort.Selector` | app/src/main/java/com/example/myplayer/SharedViewModel.kt:116-119 | the key each order sorts by: the title, the artist or the album |
| `SongSort.SortedBy` | app/src/main/java/com/example/myplayer/SharedViewModel.kt:116-120 | the sorted list is a permutation of its input |
| `SongSort.SortSongs` | app/src/main/java/com/example/myplayer/SharedViewModel.kt:115-121 | the posted list for an order is a permutation of the list given |
| `SongSort.SortedByAscending` | app/src/main/java/com/example/myplayer/SharedViewModel.kt:116-120 | the sorted list is ascending by the selector under the ordinal order |
| `SongSort.SortedByStable` | app/src/main/java/com/example/myplayer/SharedViewModel.kt:116-120 | for every key, the elements with that key appear in the sorted list in their input order |
| `SongSort.SortedByUnique` | app/src/main/java/com/example/myplayer/SharedViewModel.kt:116-120 | any ascending list that keeps each key's elements in input order is the sorted list, so the model is the one stable sort |
| `SongSort.SortSongsSortedAndStable` | app/src/main/java/com/example/myplayer/SharedViewModel.kt:115-121 | the posted list is ascending by the order's field, and songs with equal keys keep their input order |
| `SongSort.SortSongsIdempotent` | app/src/main/java/com/example/myplayer/SharedViewModel.kt:115-121 | sorting the posted list again by the same order changes nothing |
| `FolderScan.IsSupported` | app/src/main/java/com/example/myplayer/SharedViewModel.kt:148-154 | a file name is accepted when it ends with `.mp3`, `.flac`, `.wav` or `.ogg`, ignoring case |
| `FolderScan.FileName` | app/src/main/java/com/example/myplayer/SharedViewModel.kt:153 | the name tested is the file's name, or `""` when it has none |
| `FolderScan.SongOf` | app/src/main/java/com/example/myplayer/SharedViewModel.kt:160-163 | the song added for a readable file: its uri, and the title, artist and album read, each replaced by its default when missing |
| `FolderScan.ScanEntry` | app/src/main/java/com/example/myplayer/SharedViewModel.kt:150-168 | what one listed entry adds: a directory its whole subtree; a file its song when the name is accepted and the metadata read succeeds, otherwise nothing |
| `FolderScan.ScanEntries` | app/src/main/java/com/example/myplayer/SharedViewModel.kt:149-170 | what a listing adds: its entries' songs, entry after entry |
| `FolderScan.ScanTree` | app/src/main/java/com/example/myplayer/SharedViewModel.kt:147-171 | what `findAudioFiles(parent, ...)` appends: the songs of `parent.listFiles()` |
| `FolderScan.ScanFolders` | app/src/main/java/com/example/myplayer/SharedViewModel.kt:133-137 | the songs of all folders in iteration order; a folder whose tree cannot be opened adds nothing |
| `FolderScan.FindAudioFiles` | app/src/main/java/com/example/myplayer/SharedViewModel.kt:147-171 | the loop appends to the given list exactly the songs of the depth-first scan of the folder's listing |
| `FolderScan.ScanSelectedFolders` | app/src/main/java/com/example/myplayer/SharedViewModel.kt:133-137 | the folders' scans are concatenated in iteration order, and a folder whose tree cannot be opened contributes nothing |
| `FolderScan.ScanEntryIsAcceptedFiles` | app/src/main/java/com/example/myplayer/SharedViewModel.kt:149-167 | scanning an entry gives the songs of the accepted files of its depth-first file list, in order |
| `FolderScan.ScanEntriesIsAcceptedFiles` | app/src/main/java/com/example/myplayer/SharedViewModel.kt:149-167 | scanning a listing gives the songs of the accepted files of its depth-first file list, in order |
| `FolderScan.UnreadableFileSkipped` | app/src/main/java/com/example/myplayer/SharedViewModel.kt:156-167 | a file whose metadata read fails adds nothing, and the entries before and after it are scanned as usual |
| `FolderScan.IsSupportedByLowerSuffix` | app/src/main/java/com/example/myplayer/SharedViewModel.kt:148-154 | a name is accepted exactly when its lower-cased tail is `.mp3`, `.flac`, `.wav` or `.ogg` |
| `FolderScan.RejectedNames` | app/src/main/java/com/example/myplayer/SharedViewModel.kt:153-154 | the empty name, which a nameless file gets, is rejected, as are `song.mp4` and `mp3`; `Track.MP3`, `a.Flac` and `.ogg` are accepted |
| `FolderScan.AcceptedSongDefaults` | app/src/main/java/com/example/myplayer/SharedViewModel.kt:153-163 | an accepted file has a name; a missing title falls back to that name, a missing artist to "Unknown Artist", a missing album to "Unknown Album" |
| `PlayQueue.WrapLong` | app/src/main/java/com/example/myplayer/SharedViewModel.kt:195 | Kotlin `Long` arithmetic: a value in range is kept, and any other value is reduced modulo 2^64 |
| `PlayQueue.RewindTarget` | app/src/main/java/com/example/myplayer/SharedViewModel.kt:195 | the rewind target is never negative; it is ten seconds back when that stays at or above zero; it is zero from `MinLong + 10000` up to 10000; below `MinLong + 10000` the `Long` subtraction wraps and gives position - 10000 + 2^64; it is never ahead of a non-negative position |
| `PlayQueue.FastForwardTarget` | app/src/main/java/com/example/myplayer/SharedViewModel.kt:203 | the fast-forward target is never above the duration; without overflow it is the smaller of position + 10000 and the duration; it never goes back from a position within the duration; it is non-negative exactly when the duration and the wrapped position + 10000 both are, so a non-negative duration and a position from -10000 to `MaxLong - 10000` suffice |
| `PlayQueue.SameAlbum` | app/src/main/java/com/example/myplayer/SharedViewModel.kt:174 | `filter { it.album == album }`: the list's songs on that album, in list order |
| `PlayQueue.Playlist` | app/src/main/java/com/example/myplayer/SharedViewModel.kt:174 | the queue `playSong` sends: the current list filtered to the song's album, or the song alone when there is no list |
| `PlayQueue.IndexOf` | app/src/main/java/com/example/myplayer/SharedViewModel.kt:175 | `indexOf` is -1 exactly when the song is absent, and otherwise the first position holding it |
| `PlayQueue.SameAlbumOnly` | app/src/main/java/com/example/myplayer/SharedViewModel.kt:174 | every queue entry is on the chosen song's album and comes from the list |
| `PlayQueue.SameAlbumInOrder` | app/src/main/java/com/example/myplayer/SharedViewModel.kt:174 | the queue is a subsequence of the current list, so it keeps the list's relative order |
| `PlayQueue.SameAlbumCount` | app/src/main/java/com/example/myplayer/SharedViewModel.kt:174 | each song of the album occurs in the queue as often as in the list; other songs do not occur |
| `PlayQueue.PlaylistStartsAtSong` | app/src/main/java/com/example/myplayer/SharedViewModel.kt:173-175 | when the song is in the list, the start index is a valid queue position holding the song |
| `PlayQueue.PlaylistWithoutSong` | app/src/main/java/com/example/myplayer/SharedViewModel.kt:174-175 | when the list does not hold the song, the start index is -1 |
| `PlayQueue.PlaylistWithoutList` | app/src/main/java/com/example/myplayer/SharedViewModel.kt:174-175 | with no list the queue is the song alone, started at 0 |
| `SharedViewModel.SharedViewModel.Valid` | app/src/main/java/com/example/myplayer/SharedViewModel.kt:97-225 | the invariant every operation keeps: at most one progress tick pending, a binding only with a connected service, the list ascending by the current order, the stored order equal to the current one, the published folders equal to the stored ones |
| `SharedViewModel.SharedViewModel.constructor` | app/src/main/java/com/example/myplayer/SharedViewModel.kt:28-95 | the stored order and folders are read, the library is scanned and sorted, the only request sent is the bind, and all transport fields start null with no service and no pending tick |
| `SharedViewModel.SharedViewModel.LoadSongsFromSelectedFolders` | app/src/main/java/com/example/myplayer/SharedViewModel.kt:124-145 | the posted list is the sorted scan of the stored folders, and scanning is over |
| `SharedViewModel.SharedViewModel.SortAndPostSongs` | app/src/main/java/com/example/myplayer/SharedViewModel.kt:115-122 | the posted list is the given list sorted by the current order, and it is ascending by that order's field |
| `SharedViewModel.SharedViewModel.AddMusicFolder` | app/src/main/java/com/example/myplayer/SharedViewModel.kt:97-101 | only the `"folders"` entry of the store changes, to the old set plus the uri; the published set is that set; the library is rescanned and scanning is over; no other field changes |
| `SharedViewModel.SharedViewModel.RemoveMusicFolder` | app/src/main/java/com/example/myplayer/SharedViewModel.kt:103-107 | only the `"folders"` entry of the store changes, to the old set minus the uri; the published set is that set; the library is rescanned and scanning is over; no other field changes |
| `SharedViewModel.SharedViewModel.SetSortOrder` | app/src/main/java/com/example/myplayer/SharedViewModel.kt:109-113 | the order is recorded and stored; an existing list is re-sorted and keeps its previous order among equal keys; a missing list stays missing |
| `SharedViewModel.SharedViewModel.PlaySong` | app/src/main/java/com/example/myplayer/SharedViewModel.kt:173-184 | the song is now playing; the queue sent holds only its album, in list order, and the index points at the song when the list holds it; with no list the queue is `[song]` at 0 |
| `SharedViewModel.SharedViewModel.TogglePlayPause` | app/src/main/java/com/example/myplayer/SharedViewModel.kt:186 | the toggle is forwarded only when a service is connected |
| `SharedViewModel.SharedViewModel.SkipToNext` | app/src/main/java/com/example/myplayer/SharedViewModel.kt:208 | the skip is forwarded only when a service is connected |
| `SharedViewModel.SharedViewModel.SkipToPrevious` | app/src/main/java/com/example/myplayer/SharedViewModel.kt:209 | the skip is forwarded only when a service is connected |
| `SharedViewModel.SharedViewModel.SeekTo` | app/src/main/java/com/example/myplayer/SharedViewModel.kt:188-191 | the position published is exactly the one asked for, unclamped, whether or not a service is connected |
| `SharedViewModel.SharedViewModel.Rewind` | app/src/main/java/com/example/myplayer/SharedViewModel.kt:193-199 | with a service, the rewind target is sent and published and is never negative; without one nothing changes |
| `SharedViewModel.SharedViewModel.FastForward` | app/src/main/java/com/example/myplayer/SharedViewModel.kt:201-207 | with a service, the fast-forward target is sent and published and is never above the duration; without one nothing changes |
| `SharedViewModel.SharedViewModel.UpdateProgress` | app/src/main/java/com/example/myplayer/SharedViewModel.kt:222-225 | after cancelling and posting, exactly one tick is pending |
| `SharedViewModel.SharedViewModel.RunProgressTick` | app/src/main/java/com/example/myplayer/SharedViewModel.kt:211-220 | a tick publishes the engine position (null without a service) and reposts itself only while a connected engine reports playing |
| `SharedViewModel.SharedViewModel.OnServiceConnected` | app/src/main/java/com/example/myplayer/SharedViewModel.kt:58-80 | the service is kept and bound, and one tick is pending |
| `SharedViewModel.SharedViewModel.OnServiceDisconnected` | app/src/main/java/com/example/myplayer/SharedViewModel.kt:82-86 | the service is dropped and no tick is pending |
| `SharedViewModel.SharedViewModel.OnPlayerReady` | app/src/main/java/com/example/myplayer/SharedViewModel.kt:63-67 | duration and position are published from the engine, and one tick is pending |
| `SharedViewModel.SharedViewModel.OnPlaybackStateChanged` | app/src/main/java/com/example/myplayer/SharedViewModel.kt:68-71 | the playing flag is published, and the ticks restart only when playing |
| `SharedViewModel.SharedViewModel.OnTrackChanged` | app/src/main/java/com/example/myplayer/SharedViewModel.kt:72 | the song reported becomes the one now playing |
| `SharedViewModel.SharedViewModel.OnPlaylistEnded` | app/src/main/java/com/example/myplayer/SharedViewModel.kt:73-78 | not playing, position 0, duration 0, nothing now playing |
| `SharedViewModel.SharedViewModel.OnCleared` | app/src/main/java/com/example/myplayer/SharedViewModel.kt:227-234 | when bound, the service is stopped and unbound; afterwards nothing is bound |
| `LibraryAdapter.GetItemViewType` | app/src/main/java/com/example/myplayer/LibraryAdapter.kt:11-22 | the view type is 0 exactly for a header row and 1 exactly for a song row |
| `LibraryAdapter.OnCreateViewHolder` | app/src/main/java/com/example/myplayer/LibraryAdapter.kt:24-30 | a holder is created exactly for view types 0 and 1; any other view type fails with that view type |
| `LibraryAdapter.OnBindViewHolder` | app/src/main/java/com/example/myplayer/LibraryAdapter.kt:32-43 | binding succeeds exactly when the holder kind matches the row kind; a header shows its title, and a song row shows title and artist and plays its song on click |
| `LibraryAdapter.ViewTypeRoundTrip` | app/src/main/java/com/example/myplayer/LibraryAdapter.kt:17-43 | every row's own view type yields a holder that binds the row without a cast failure |
| `LibraryAdapter.AreItemsTheSame` | app/src/main/java/com/example/myplayer/LibraryAdapter.kt:77-80 | two rows are the same item when both are headers with equal titles, or both are song rows with equal uris |
| `LibraryAdapter.AreContentsTheSame` | app/src/main/java/com/example/myplayer/LibraryAdapter.kt:82-84 | two rows have the same contents when they are equal values |
| `LibraryAdapter.HeadersSameItem` | app/src/main/java/com/example/myplayer/LibraryAdapter.kt:78 | two headers are the same item exactly when their titles are equal |
| `LibraryAdapter.SongRowsSameItem` | app/src/main/java/com/example/myplayer/LibraryAdapter.kt:79 | two song rows are the same item exactly when their uris are equal |
| `LibraryAdapter.HeaderNeverSameAsSong` | app/src/main/java/com/example/myplayer/LibraryAdapter.kt:77-80 | a header and a song row are never the same item, in either order |
| `LibraryAdapter.ItemsTheSameIsEquivalence` | app/src/main/java/com/example/myplayer/LibraryAdapter.kt:77-80 | `areItemsTheSame` is reflexive, symmetric and transitive |
| `LibraryAdapter.ContentsTheSameImpliesItemsTheSame` | app/src/main/java/com/example/myplayer/LibraryAdapter.kt:77-84 | `areContentsTheSame` is field-by-field equality and implies `areItemsTheSame` |
| `QueueAdapter.AreItemsTheSame` | app/src/main/java/com/example/myplayer/ui/player/QueueAdapter.kt:44 | two queue songs are the same item when their uris are equal |
| `QueueAdapter.AreContentsTheSame` | app/src/main/java/com/example/myplayer/ui/player/QueueAdapter.kt:45 | two queue songs have the same contents when they are equal values |
| `QueueAdapter.IsCurrent` | app/src/main/java/com/example/myplayer/ui/player/QueueAdapter.kt:29 | a row's song is the current one when it equals the song set as playing |
| `QueueAdapter.ItemsTheSameIsEquivalence` | app/src/main/java/com/example/myplayer/ui/player/QueueAdapter.kt:44 | queue rows compared by uri form an equivalence |
| `QueueAdapter.ContentsTheSameImpliesItemsTheSame` | app/src/main/java/com/example/myplayer/ui/player/QueueAdapter.kt:44-45 | equal contents is equality of all four fields, and it implies the same item |
| `QueueAdapter.QueueAdapter.constructor` | app/src/main/java/com/example/myplayer/ui/player/QueueAdapter.kt:12-15 | the adapter starts with an empty list and no current song |
| `QueueAdapter.QueueAdapter.SubmitList` | app/src/main/java/com/example/myplayer/ui/player/QueueAdapter.kt:12-13 | the inherited `submitList` leaves the adapter holding the given list |
| `QueueAdapter.QueueAdapter.OnBindViewHolder` | app/src/main/java/com/example/myplayer/ui/player/QueueAdapter.kt:27-39 | a row shows its song's title and artist, plays its song on click, and is grey exactly when its song is the current one |
| `QueueAdapter.QueueAdapter.SetCurrentPlayingSong` | app/src/main/java/com/example/myplayer/ui/player/QueueAdapter.kt:15-20 | only the current song changes; afterwards exactly the rows holding it are highlighted, and none when it is null |

## Left out

- `MusicService.kt` and ExoPlayer are not part of this model. The view model's calls on the
  service are recorded as `ServiceCommand`s. What the engine reports is passed in as parameters.
- Threading is not modelled: the coroutine on `Dispatchers.IO`, `withContext`, and the async
  delivery of `postValue`. A scan runs to completion in one call; the intermediate states
  (`isScanning` true, an empty list posted) are not observable. A sort order change or a
  `playSong` that lands mid-scan is not modelled.
- Time is not modelled. The one-second delay of `postDelayed` is reduced to the count of
  pending ticks. Which tick the handler delivers next is the caller's choice.
- The document tree is a snapshot. The model reads each file's name, each listing and each
  directory flag once. The code queries the document provider again on every `file.name`,
  `listFiles()` and `isDirectory` call, and the answers can differ between calls.
- `Uri.parse`, `ContentResolver.openFileDescriptor`, `MediaMetadataRetriever` and `Log` are
  abstracted into the `DocumentFile` value and its per-file `probe`. A `listFiles()` that throws
  is not modelled.
- `Ordinal.SameIgnoringCase`: case folding is ASCII only. This is exact for the letters of the
  four extensions, which have no non-ASCII case partners under Kotlin's ignore-case comparison.
- `Ordinal.Less`: compares Unicode scalar values, not UTF-16 code units, so it differs from
  Kotlin's `compareTo` on characters outside the Basic Multilingual Plane. Kotlin compares such
  a character by its high surrogate (U+D800 to U+DBFF) and sorts it before U+E000 to U+FFFF, for
  example before half-width katakana U+FF71 or the full-width forms. The model compares it as
  one value above U+FFFF and sorts it after them. Dafny's `char` cannot hold a lone surrogate,
  so the code units are not modelled.
- `SortPreferences.SortPreferences.GetSortOrder`: the store holds only strings. A non-string
  value under `"sort_order"` would throw `ClassCastException`; that path is not modelled.
- `SharedViewModel.SharedViewModel.constructor` requires a stored order that `valueOf` accepts.
  In the code, a bad stored name makes construction throw.
- `SharedViewModel.SharedViewModel.LoadSongsFromSelectedFolders` takes the iteration order of
  the stored folder set as a parameter. `HashSet` iteration order is not modelled.
- The receiving side of the play request is not part of this model. That is the service
  reading the intent extras.
- `QueueAdapter.QueueAdapter.SubmitList`: `ListAdapter.submitList` computes the difference on
  a background thread and swaps the list in later. The model swaps it in at once, since threading
  is not modelled.
- UI and lifecycle code is rendering and Android plumbing: fragments, activities, view pagers,
  `SongAdapter`, view holders' layout inflation and `notifyDataSetChanged`. `HomeViewModel`'s
  MediaStore query is I/O. `FolderAdapter`'s diff rules are plain string equality.
