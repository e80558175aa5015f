/**
  `SharedViewModel`: the library list, the folder set, the transport fields
  published to the screens, and the link to the playback service. LiveData
  fields are plain fields (a LiveData that was never set reads as null,
  here `None`); the service is reduced to whether it is connected, the
  values it reports (passed in as parameters) and the calls made on it
  (recorded in `sent`).
*/
module SharedViewModel {
  import opened Wrappers
  import opened Library
  import opened SortPreferences
  import opened FolderRepository
  import opened SongSort
  import opened FolderScan
  import opened PlayQueue

  /** A request the view model makes of the playback service. */
  datatype ServiceCommand =
    | StartPlay(playlist: seq<Song>, songIndex: int)
    | Seek(position: Long)
    | TogglePlayPause
    | SkipToNext
    | SkipToPrevious
    | StopMusicAndSelfDestruct
    | Bind
    | Unbind

  /** `folderOrder` is an iteration order of the set `folders`: each folder exactly once. */
  predicate EnumeratesOnce(folderOrder: seq<string>, folders: set<string>) {
    (forall f :: f in folderOrder ==> f in folders) &&
    (forall f :: f in folders ==> f in folderOrder) &&
    (forall i, j :: 0 <= i < j < |folderOrder| ==> folderOrder[i] != folderOrder[j])
  }

  class SharedViewModel {
    const folderRepository: FolderRepository
    const sortPreferences: SortPreferences
    var currentSortOrder: SortOrder

    var songs: Option<seq<Song>>
    var musicFolders: Option<set<string>>
    var isScanning: bool
    var nowPlaying: Option<Song>
    var isPlaying: Option<bool>
    var currentPosition: Option<Long>
    var duration: Option<Long>

    /** `musicService != null`. */
    var serviceConnected: bool
    var isBound: bool
    /** How many posts of `updateSeekBarRunnable` the handler holds. */
    var pendingTicks: nat
    /** The requests sent to the service, oldest first. */
    var sent: seq<ServiceCommand>

    /**
      At most one progress tick is pending; a binding has its service; the list is ascending by the
      current order; the stored order is the current one; the published
      folder set is the stored one.
    */
    ghost predicate Valid()
      reads this, folderRepository, sortPreferences
    {
      && pendingTicks <= 1
      && (isBound ==> serviceConnected)
      && (songs.Some? ==> Ascending(songs.value, Selector(currentSortOrder)))
      && sortPreferences.GetSortOrder() == Success(currentSortOrder)
      && musicFolders == Some(folderRepository.GetFolders())
    }

    /**
      `init`: reads the stored order and folders and scans them, and asks to
      bind to the service; the binding arrives later, through OnServiceConnected.
    */
    constructor (folderRepository: FolderRepository, sortPreferences: SortPreferences,
                 folderOrder: seq<string>, roots: map<string, DocumentFile>)
      requires sortPreferences.GetSortOrder().Success?
      requires EnumeratesOnce(folderOrder, folderRepository.GetFolders())
      ensures Valid()
      ensures this.folderRepository == folderRepository && this.sortPreferences == sortPreferences
      ensures currentSortOrder == sortPreferences.GetSortOrder().value
      ensures songs == Some(SortSongs(ScanFolders(folderOrder, roots), currentSortOrder))
      ensures !isScanning && nowPlaying.None? && isPlaying.None? && currentPosition.None? && duration.None?
      ensures !serviceConnected && !isBound && pendingTicks == 0 && sent == [Bind]
    {
      this.folderRepository := folderRepository;
      this.sortPreferences := sortPreferences;
      currentSortOrder := sortPreferences.GetSortOrder().value;
      songs := None;
      musicFolders := Some(folderRepository.GetFolders());
      isScanning := false;
      nowPlaying, isPlaying, currentPosition, duration := None, None, None, None;
      serviceConnected, isBound, pendingTicks, sent := false, false, 0, [Bind];
      new;
      LoadSongsFromSelectedFolders(folderOrder, roots);
    }

    /** `loadSongsFromSelectedFolders()`, run to completion: scan every stored folder and post the sorted list. */
    method LoadSongsFromSelectedFolders(folderOrder: seq<string>, roots: map<string, DocumentFile>)
      requires Valid()
      requires EnumeratesOnce(folderOrder, folderRepository.GetFolders())
      modifies this`songs, this`isScanning
      ensures Valid()
      ensures songs == Some(SortSongs(ScanFolders(folderOrder, roots), currentSortOrder))
      ensures !isScanning
    {
      isScanning := true;
      songs := Some([]);
      var songList := ScanSelectedFolders(folderOrder, roots);
      SortAndPostSongs(songList);
      isScanning := false;
    }

    /** `sortAndPostSongs(list)`: posts the list sorted by the current order. */
    method SortAndPostSongs(list: seq<Song>)
      modifies this`songs
      ensures songs == Some(SortSongs(list, currentSortOrder))
      ensures Ascending(songs.value, Selector(currentSortOrder))
    {
      songs := Some(SortSongs(list, currentSortOrder));
      SortedByAscending(list, Selector(currentSortOrder));
    }

    /** `addMusicFolder(uri)`: store the folder, republish the set, rescan. */
    method AddMusicFolder(uri: string, folderOrder: seq<string>, roots: map<string, DocumentFile>)
      requires Valid()
      requires EnumeratesOnce(folderOrder, folderRepository.GetFolders() + {uri})
      modifies this`musicFolders, this`songs, this`isScanning, folderRepository
      ensures Valid()
      ensures folderRepository.store == old(folderRepository.store)[FoldersKey := old(folderRepository.GetFolders()) + {uri}]
      ensures folderRepository.GetFolders() == old(folderRepository.GetFolders()) + {uri}
      ensures musicFolders == Some(old(folderRepository.GetFolders()) + {uri})
      ensures songs == Some(SortSongs(ScanFolders(folderOrder, roots), currentSortOrder))
      ensures !isScanning
    {
      folderRepository.AddFolder(uri);
      musicFolders := Some(folderRepository.GetFolders());
      LoadSongsFromSelectedFolders(folderOrder, roots);
    }

    /** `removeMusicFolder(uri)`: drop the folder, republish the set, rescan. */
    method RemoveMusicFolder(uri: string, folderOrder: seq<string>, roots: map<string, DocumentFile>)
      requires Valid()
      requires EnumeratesOnce(folderOrder, folderRepository.GetFolders() - {uri})
      modifies this`musicFolders, this`songs, this`isScanning, folderRepository
      ensures Valid()
      ensures folderRepository.store == old(folderRepository.store)[FoldersKey := old(folderRepository.GetFolders()) - {uri}]
      ensures folderRepository.GetFolders() == old(folderRepository.GetFolders()) - {uri}
      ensures musicFolders == Some(old(folderRepository.GetFolders()) - {uri})
      ensures songs == Some(SortSongs(ScanFolders(folderOrder, roots), currentSortOrder))
      ensures !isScanning
    {
      folderRepository.RemoveFolder(uri);
      musicFolders := Some(folderRepository.GetFolders());
      LoadSongsFromSelectedFolders(folderOrder, roots);
    }

    /**
      `setSortOrder(order)`: records and stores the order, and re-sorts the
      list only when there is one; songs with equal keys keep the order the
      previous list had them in.
    */
    method SetSortOrder(order: SortOrder)
      requires Valid()
      modifies this`currentSortOrder, this`songs, sortPreferences
      ensures Valid()
      ensures currentSortOrder == order
      ensures sortPreferences.store == old(sortPreferences.store)[SortOrderKey := Name(order)]
      ensures songs == if old(songs).Some? then Some(SortSongs(old(songs).value, order)) else None
      ensures songs.Some? ==> forall key :: WithKey(songs.value, Selector(order), key) == WithKey(old(songs).value, Selector(order), key)
    {
      currentSortOrder := order;
      sortPreferences.SetSortOrder(order);
      if songs.Some? {
        ghost var before := songs.value;
        SortAndPostSongs(songs.value);
        forall key ensures WithKey(songs.value, Selector(order), key) == WithKey(before, Selector(order), key) {
          SortedByStable(before, Selector(order), key);
        }
      }
    }

    /**
      `playSong(song)`: the queue is the current list's songs of the same
      album (or the song alone when there is no list), started at the song's
      first position in it; the song becomes the one now playing.
    */
    method PlaySong(song: Song)
      requires Valid()
      modifies this`nowPlaying, this`sent
      ensures Valid()
      ensures nowPlaying == Some(song)
      ensures sent == old(sent) + [StartPlay(Playlist(songs, song), IndexOf(Playlist(songs, song), song))]
      ensures forall x :: x in sent[|sent| - 1].playlist ==> x.album == song.album
      ensures songs.Some? ==> IsSubsequence(sent[|sent| - 1].playlist, songs.value)
      ensures songs.Some? && song in songs.value ==>
        0 <= sent[|sent| - 1].songIndex < |sent[|sent| - 1].playlist| &&
        sent[|sent| - 1].playlist[sent[|sent| - 1].songIndex] == song
      ensures songs.None? ==> sent[|sent| - 1] == StartPlay([song], 0)
    {
      var playlist := Playlist(songs, song);
      var songIndex := IndexOf(playlist, song);
      nowPlaying := Some(song);
      sent := sent + [StartPlay(playlist, songIndex)];
      if songs.Some? {
        SameAlbumOnly(songs.value, song.album);
        SameAlbumInOrder(songs.value, song.album);
        if song in songs.value {
          PlaylistStartsAtSong(songs.value, song);
        }
      }
    }

    /** `togglePlayPause()`: forwarded when the service is connected. */
    method TogglePlayPause()
      requires Valid()
      modifies this`sent
      ensures Valid()
      ensures sent == old(sent) + if serviceConnected then [ServiceCommand.TogglePlayPause] else []
    {
      if serviceConnected {
        sent := sent + [ServiceCommand.TogglePlayPause];
      }
    }

    /** `skipToNext()`: forwarded when the service is connected. */
    method SkipToNext()
      requires Valid()
      modifies this`sent
      ensures Valid()
      ensures sent == old(sent) + if serviceConnected then [ServiceCommand.SkipToNext] else []
    {
      if serviceConnected {
        sent := sent + [ServiceCommand.SkipToNext];
      }
    }

    /** `skipToPrevious()`: forwarded when the service is connected. */
    method SkipToPrevious()
      requires Valid()
      modifies this`sent
      ensures Valid()
      ensures sent == old(sent) + if serviceConnected then [ServiceCommand.SkipToPrevious] else []
    {
      if serviceConnected {
        sent := sent + [ServiceCommand.SkipToPrevious];
      }
    }

    /** `seekTo(position)`: forwarded when connected, and published as it is, connected or not. */
    method SeekTo(position: Long)
      requires Valid()
      modifies this`sent, this`currentPosition
      ensures Valid()
      ensures currentPosition == Some(position)
      ensures sent == old(sent) + if serviceConnected then [Seek(position)] else []
    {
      if serviceConnected {
        sent := sent + [Seek(position)];
      }
      currentPosition := Some(position);
    }

    /** `rewind()`: ten seconds back from the engine's position, never below 0; nothing without a service. */
    method Rewind(enginePosition: Long)
      requires Valid()
      modifies this`sent, this`currentPosition
      ensures Valid()
      ensures serviceConnected ==> currentPosition == Some(RewindTarget(enginePosition)) && sent == old(sent) + [Seek(RewindTarget(enginePosition))]
      ensures serviceConnected ==> currentPosition.value >= 0
      ensures !serviceConnected ==> currentPosition == old(currentPosition) && sent == old(sent)
    {
      if serviceConnected {
        var newPosition := RewindTarget(enginePosition);
        sent := sent + [Seek(newPosition)];
        currentPosition := Some(newPosition);
      }
    }

    /** `fastForward()`: ten seconds on from the engine's position, never past its duration; nothing without a service. */
    method FastForward(enginePosition: Long, engineDuration: Long)
      requires Valid()
      modifies this`sent, this`currentPosition
      ensures Valid()
      ensures serviceConnected ==> currentPosition == Some(FastForwardTarget(enginePosition, engineDuration)) && sent == old(sent) + [Seek(FastForwardTarget(enginePosition, engineDuration))]
      ensures serviceConnected ==> currentPosition.value <= engineDuration
      ensures !serviceConnected ==> currentPosition == old(currentPosition) && sent == old(sent)
    {
      if serviceConnected {
        var newPosition := FastForwardTarget(enginePosition, engineDuration);
        sent := sent + [Seek(newPosition)];
        currentPosition := Some(newPosition);
      }
    }

    /** `updateProgress()`: cancels any pending tick, then posts one. */
    method UpdateProgress()
      requires Valid()
      modifies this`pendingTicks
      ensures Valid()
      ensures pendingTicks == 1
    {
      pendingTicks := 0;
      pendingTicks := pendingTicks + 1;
    }

    /**
      `updateSeekBarRunnable.run()`, delivered by the handler: publishes the
      engine's position (null without a service) and posts itself again, one
      second later, only while the engine reports playing.
    */
    method RunProgressTick(enginePosition: Long, enginePlaying: bool)
      requires Valid()
      requires pendingTicks > 0
      modifies this`pendingTicks, this`currentPosition
      ensures Valid()
      ensures currentPosition == if serviceConnected then Some(enginePosition) else None
      ensures pendingTicks == old(pendingTicks) - 1 + if serviceConnected && enginePlaying then 1 else 0
    {
      pendingTicks := pendingTicks - 1;
      var currentPos := if serviceConnected then Some(enginePosition) else None;
      currentPosition := currentPos;
      if serviceConnected && enginePlaying {
        pendingTicks := pendingTicks + 1;
      }
    }

    /** `onServiceConnected`: keeps the service, registers the callbacks and starts the progress ticks. */
    method OnServiceConnected()
      requires Valid()
      modifies this`serviceConnected, this`isBound, this`pendingTicks
      ensures Valid()
      ensures serviceConnected && isBound && pendingTicks == 1
    {
      serviceConnected := true;
      isBound := true;
      UpdateProgress();
    }

    /** `onServiceDisconnected`: forgets the service and cancels the pending tick. */
    method OnServiceDisconnected()
      requires Valid()
      modifies this`serviceConnected, this`isBound, this`pendingTicks
      ensures Valid()
      ensures !serviceConnected && !isBound && pendingTicks == 0
    {
      isBound := false;
      serviceConnected := false;
      pendingTicks := 0;
    }

    /** The service's `onPlayerReady` callback: publishes duration and position, restarts the ticks. */
    method OnPlayerReady(engineDuration: Long, enginePosition: Long)
      requires Valid()
      modifies this`duration, this`currentPosition, this`pendingTicks
      ensures Valid()
      ensures duration == (if serviceConnected then Some(engineDuration) else None)
      ensures currentPosition == (if serviceConnected then Some(enginePosition) else None)
      ensures pendingTicks == 1
    {
      duration := if serviceConnected then Some(engineDuration) else None;
      currentPosition := if serviceConnected then Some(enginePosition) else None;
      UpdateProgress();
    }

    /** The service's `onPlaybackStateChanged(playing)` callback: publishes it, restarts the ticks when playing. */
    method OnPlaybackStateChanged(playing: bool)
      requires Valid()
      modifies this`isPlaying, this`pendingTicks
      ensures Valid()
      ensures isPlaying == Some(playing)
      ensures pendingTicks == if playing then 1 else old(pendingTicks)
    {
      isPlaying := Some(playing);
      if playing {
        UpdateProgress();
      }
    }

    /** The `onTrackChanged(song)` callback: publishes the song now playing. */
    method OnTrackChanged(song: Option<Song>)
      requires Valid()
      modifies this`nowPlaying
      ensures Valid()
      ensures nowPlaying == song
    {
      nowPlaying := song;
    }

    /** The `onPlaylistEnded` callback: resets the transport fields. */
    method OnPlaylistEnded()
      requires Valid()
      modifies this`isPlaying, this`currentPosition, this`duration, this`nowPlaying
      ensures Valid()
      ensures isPlaying == Some(false) && currentPosition == Some(0) && duration == Some(0) && nowPlaying.None?
    {
      isPlaying := Some(false);
      currentPosition := Some(0);
      duration := Some(0);
      nowPlaying := None;
    }

    /** `onCleared()`: when bound, stops the service and unbinds; the pending tick is left as it is. */
    method OnCleared()
      requires Valid()
      modifies this`isBound, this`sent
      ensures Valid()
      ensures !isBound
      ensures sent == old(sent) + if old(isBound) then [StopMusicAndSelfDestruct, Unbind] else []
    {
      if isBound {
        if serviceConnected {
          sent := sent + [StopMusicAndSelfDestruct];
        }
        sent := sent + [Unbind];
        isBound := false;
      }
    }
  }
}
