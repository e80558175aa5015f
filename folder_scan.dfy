/**
  `findAudioFiles` and the folder loop of `loadSongsFromSelectedFolders`: a
  depth-first walk over document trees that keeps files with a supported
  extension and turns each readable one into a song with default metadata.
  The document tree, the file-descriptor open and the metadata retriever are
  abstracted into the `DocumentFile` value below.
*/
module FolderScan {
  import opened Wrappers
  import opened Library
  import Ordinal
  import opened Sequences

  /** What the metadata retriever reports for one file; `None` is a missing key. */
  datatype Metadata = Metadata(title: Option<string>, artist: Option<string>, album: Option<string>)

  /**
    A document as `listFiles()` returns it. For a file, `probe` is what opening
    it and reading its metadata gives: `None` when the descriptor is null or
    the read throws.
  */
  datatype DocumentFile =
    | Directory(children: seq<DocumentFile>)
    | File(uri: string, name: Option<string>, probe: Option<Metadata>)

  /** `listFiles()`: the children of a directory; a plain file has none. */
  function ListFiles(d: DocumentFile): seq<DocumentFile> {
    if d.Directory? then d.children else []
  }

  /** `supportedExtensions.any { fileName.endsWith(it, ignoreCase = true) }`. */
  predicate IsSupported(fileName: string) {
    Ordinal.EndsWithIgnoreCase(fileName, ".mp3") || Ordinal.EndsWithIgnoreCase(fileName, ".flac") ||
    Ordinal.EndsWithIgnoreCase(fileName, ".wav") || Ordinal.EndsWithIgnoreCase(fileName, ".ogg")
  }

  /** `file.name ?: ""`. */
  function FileName(f: DocumentFile): string
    requires f.File?
  {
    f.name.GetOr("")
  }

  /** The song added for a file with readable metadata: missing fields take their defaults. */
  function SongOf(f: DocumentFile, m: Metadata): Song
    requires f.File?
  {
    Song(f.uri, m.title.GetOr(f.name.GetOr("Unknown Title")), m.artist.GetOr("Unknown Artist"), m.album.GetOr("Unknown Album"))
  }

  /** The songs one listed entry contributes: a directory its whole subtree, a file at most itself. */
  function ScanEntry(d: DocumentFile): seq<Song>
    decreases d, 1
  {
    match d
    case Directory(children) => ScanEntries(children)
    case File(_, _, probe) =>
      if IsSupported(FileName(d)) && probe.Some? then [SongOf(d, probe.value)] else []
  }

  /** The songs of a listing, entry after entry. */
  function ScanEntries(entries: seq<DocumentFile>): seq<Song>
    decreases entries, 0
  {
    if entries == [] then [] else ScanEntry(entries[0]) + ScanEntries(entries[1..])
  }

  /** What `findAudioFiles(parent, ...)` appends. */
  function ScanTree(parent: DocumentFile): seq<Song> {
    ScanEntries(ListFiles(parent))
  }

  /** A listing's songs are its entries' songs, concatenated. */
  lemma {:induction false} ScanEntriesIsFlatten(entries: seq<DocumentFile>)
    ensures ScanEntries(entries) == Flatten(entries, ScanEntry)
  {
    if entries != [] {
      ScanEntriesIsFlatten(entries[1..]);
    }
  }

  lemma ScanEntriesAppend(a: seq<DocumentFile>, b: seq<DocumentFile>)
    ensures ScanEntries(a + b) == ScanEntries(a) + ScanEntries(b)
  {
    ScanEntriesIsFlatten(a + b);
    ScanEntriesIsFlatten(a);
    ScanEntriesIsFlatten(b);
    FlattenAppend(a, b, ScanEntry);
  }

  /** Scanning one more entry appends that entry's songs to what the scan has gathered so far. */
  lemma ScanStep(songList: seq<Song>, entries: seq<DocumentFile>, file: DocumentFile, before: seq<Song>, after: seq<Song>)
    requires before == songList + ScanEntries(entries)
    requires after == before + ScanEntry(file)
    ensures after == songList + ScanEntries(entries + [file])
  {
    ScanEntriesIsFlatten(entries + [file]);
    ScanEntriesIsFlatten(entries);
    FlattenStep(songList, entries, file, ScanEntry, before, after);
  }

  /**
    `findAudioFiles(parent, retriever, songList)`: walks `parent.listFiles()`,
    recursing into directories and appending each accepted, readable file's song.
  */
  method FindAudioFiles(parent: DocumentFile, songList: seq<Song>) returns (result: seq<Song>)
    ensures result == songList + ScanTree(parent)
    decreases parent
  {
    result := songList;
    var files := ListFiles(parent);
    var i := 0;
    while i < |files|
      invariant 0 <= i <= |files|
      invariant result == songList + ScanEntries(files[..i])
    {
      var file := files[i];
      assert file in parent.children;
      ghost var before := result;
      if file.Directory? {
        result := FindAudioFiles(file, result);
        assert result == before + ScanEntry(file);
      } else {
        var fileName := file.name.GetOr("");
        if IsSupported(fileName) {
          match file.probe
          case Some(m) =>
            var title := m.title.GetOr(file.name.GetOr("Unknown Title"));
            var artist := m.artist.GetOr("Unknown Artist");
            var album := m.album.GetOr("Unknown Album");
            result := result + [Song(file.uri, title, artist, album)];
          case None =>
            // the read failed: the file is logged and skipped
        }
        assert result == before + ScanEntry(file);
      }
      ScanStep(songList, files[..i], file, before, result);
      assert files[..i + 1] == files[..i] + [file];
      i := i + 1;
    }
    assert files[..i] == files;
  }

  /** The plain files of an entry, depth first in listing order. */
  function FilesOf(d: DocumentFile): (r: seq<DocumentFile>)
    ensures forall f :: f in r ==> f.File?
    decreases d, 1
  {
    match d
    case Directory(children) => FilesOfAll(children)
    case File(_, _, _) => [d]
  }

  function FilesOfAll(entries: seq<DocumentFile>): (r: seq<DocumentFile>)
    ensures forall f :: f in r ==> f.File?
    decreases entries, 0
  {
    if entries == [] then [] else FilesOf(entries[0]) + FilesOfAll(entries[1..])
  }

  /** A file the scan keeps: a supported name and readable metadata. */
  predicate Accepted(f: DocumentFile) {
    f.File? && IsSupported(FileName(f)) && f.probe.Some?
  }

  /** The song an accepted file contributes; nothing for any other file. */
  function AcceptedSong(f: DocumentFile): seq<Song> {
    if Accepted(f) then [SongOf(f, f.probe.value)] else []
  }

  /** The songs of the accepted files of `files`, in order. */
  function SongsOfAccepted(files: seq<DocumentFile>): seq<Song> {
    Flatten(files, AcceptedSong)
  }

  /**
    The scan is the flat depth-first file list, with every rejected or
    unreadable file dropped and every other file kept in place: a failure
    skips that one file only.
  */
  lemma {:induction false} ScanEntryIsAcceptedFiles(d: DocumentFile)
    ensures ScanEntry(d) == SongsOfAccepted(FilesOf(d))
    decreases d, 1
  {
    match d
    case Directory(children) => ScanEntriesIsAcceptedFiles(children);
    case File(_, _, _) => FlattenSingleton(d, AcceptedSong);
  }

  lemma {:induction false} ScanEntriesIsAcceptedFiles(entries: seq<DocumentFile>)
    ensures ScanEntries(entries) == SongsOfAccepted(FilesOfAll(entries))
    decreases entries, 0
  {
    if entries != [] {
      ScanEntryIsAcceptedFiles(entries[0]);
      ScanEntriesIsAcceptedFiles(entries[1..]);
      FlattenAppend(FilesOf(entries[0]), FilesOfAll(entries[1..]), AcceptedSong);
    }
  }

  /** A file whose metadata read fails contributes nothing, and the scan carries on past it. */
  lemma UnreadableFileSkipped(before: seq<DocumentFile>, f: DocumentFile, after: seq<DocumentFile>)
    requires f.File? && f.probe.None?
    ensures ScanEntries(before + [f] + after) == ScanEntries(before) + ScanEntries(after)
  {
    ScanEntriesIsFlatten(before + [f] + after);
    ScanEntriesIsFlatten(before);
    ScanEntriesIsFlatten(after);
    assert ScanEntry(f) == [];
    FlattenSkip(before, f, after, ScanEntry);
  }

  /** `s` is at least as long as `ext` and its last |ext| characters, lower-cased, are `ext`. */
  predicate LowerSuffixIs(s: string, ext: string) {
    |ext| <= |s| && Ordinal.LowerAsciiString(s[|s| - |ext|..]) == ext
  }

  /** `.mp3` is matched ignoring case exactly when the lower-cased tail is `.mp3`; likewise below. */
  lemma Mp3ByLowerSuffix(fileName: string)
    ensures Ordinal.EndsWithIgnoreCase(fileName, ".mp3") <==> LowerSuffixIs(fileName, ".mp3")
  {
    assert Ordinal.LowerAsciiString(".mp3") == ".mp3";
    Ordinal.EndsWithLowerSuffix(fileName, ".mp3");
  }

  lemma FlacByLowerSuffix(fileName: string)
    ensures Ordinal.EndsWithIgnoreCase(fileName, ".flac") <==> LowerSuffixIs(fileName, ".flac")
  {
    assert Ordinal.LowerAsciiString(".flac") == ".flac";
    Ordinal.EndsWithLowerSuffix(fileName, ".flac");
  }

  lemma WavByLowerSuffix(fileName: string)
    ensures Ordinal.EndsWithIgnoreCase(fileName, ".wav") <==> LowerSuffixIs(fileName, ".wav")
  {
    assert Ordinal.LowerAsciiString(".wav") == ".wav";
    Ordinal.EndsWithLowerSuffix(fileName, ".wav");
  }

  lemma OggByLowerSuffix(fileName: string)
    ensures Ordinal.EndsWithIgnoreCase(fileName, ".ogg") <==> LowerSuffixIs(fileName, ".ogg")
  {
    assert Ordinal.LowerAsciiString(".ogg") == ".ogg";
    Ordinal.EndsWithLowerSuffix(fileName, ".ogg");
  }

  /** A file name is accepted exactly when, lower-cased, it ends with one of the four extensions. */
  lemma IsSupportedByLowerSuffix(fileName: string)
    ensures IsSupported(fileName) <==>
      LowerSuffixIs(fileName, ".mp3") || LowerSuffixIs(fileName, ".flac") ||
      LowerSuffixIs(fileName, ".wav") || LowerSuffixIs(fileName, ".ogg")
  {
    Mp3ByLowerSuffix(fileName);
    FlacByLowerSuffix(fileName);
    WavByLowerSuffix(fileName);
    OggByLowerSuffix(fileName);
  }

  /** A nameless file is treated as "" and rejected; so are other names without a supported extension. */
  lemma RejectedNames()
    ensures !IsSupported("")
    ensures !IsSupported("song.mp4") && !IsSupported("mp3")
    ensures IsSupported("Track.MP3") && IsSupported("a.Flac") && IsSupported(".ogg")
  {
    var name := "song.mp4";
    assert !Ordinal.SameIgnoringCase(name[7], ".mp3"[3]);
    assert !Ordinal.SameIgnoringCase(name[7], ".flac"[4]);
    assert !Ordinal.SameIgnoringCase(name[7], ".wav"[3]);
    assert !Ordinal.SameIgnoringCase(name[7], ".ogg"[3]);
    Ordinal.EndsWithIgnoreCaseCharwise("Track.MP3", ".mp3");
    Ordinal.EndsWithIgnoreCaseCharwise("a.Flac", ".flac");
    Ordinal.EndsWithIgnoreCaseCharwise(".ogg", ".ogg");
    assert Ordinal.LowerAscii('M') == 'm' && Ordinal.LowerAscii('P') == 'p';
    assert Ordinal.LowerAscii('F') == 'f';
  }

  /**
    The metadata defaults of an accepted file: an accepted file has a name,
    which is read once here, so a missing title falls back to that name and
    "Unknown Title" is not reached; artist and album fall back to "Unknown
    Artist" and "Unknown Album".
  */
  lemma AcceptedSongDefaults(f: DocumentFile)
    requires Accepted(f)
    ensures f.name.Some?
    ensures SongOf(f, f.probe.value) == Song(f.uri,
      if f.probe.value.title.Some? then f.probe.value.title.value else f.name.value,
      if f.probe.value.artist.Some? then f.probe.value.artist.value else "Unknown Artist",
      if f.probe.value.album.Some? then f.probe.value.album.value else "Unknown Album")
  {
  }

  /** The songs of the folder roots in the order the stored set is iterated; a root that cannot be opened is skipped. */
  function ScanFolders(folderOrder: seq<string>, roots: map<string, DocumentFile>): seq<Song> {
    Flatten(folderOrder, folder => if folder in roots then ScanTree(roots[folder]) else [])
  }

  /**
    The folder loop of `loadSongsFromSelectedFolders`: for each stored folder,
    `fromTreeUri` (here `roots`, missing when it gives null) and `findAudioFiles`.
  */
  method ScanSelectedFolders(folderOrder: seq<string>, roots: map<string, DocumentFile>) returns (songList: seq<Song>)
    ensures songList == ScanFolders(folderOrder, roots)
  {
    songList := [];
    var i := 0;
    while i < |folderOrder|
      invariant 0 <= i <= |folderOrder|
      invariant songList == ScanFolders(folderOrder[..i], roots)
    {
      var folderUriString := folderOrder[i];
      if folderUriString in roots {
        songList := FindAudioFiles(roots[folderUriString], songList);
      }
      FlattenAppend(folderOrder[..i], [folderUriString], folder => if folder in roots then ScanTree(roots[folder]) else []);
      assert folderOrder[..i + 1] == folderOrder[..i] + [folderUriString];
      i := i + 1;
    }
    assert folderOrder[..i] == folderOrder;
  }
}
