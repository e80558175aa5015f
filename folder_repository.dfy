/** The set of chosen music folders, stored as a string set in a key/value preference file. */
module FolderRepository {

  /** The key under which the folder set is stored in the "music_folders" file. */
  const FoldersKey := "folders"

  /** The "music_folders" preference file: string-set values by key. */
  class FolderRepository {
    var store: map<string, set<string>>

    constructor (store: map<string, set<string>>)
      ensures this.store == store
    {
      this.store := store;
    }

    /** `getFolders()`: the stored set, or the empty set when nothing is stored under "folders". */
    function GetFolders(): (r: set<string>)
      reads this
      ensures FoldersKey !in store ==> r == {}
      ensures FoldersKey in store ==> r == store[FoldersKey]
    {
      if FoldersKey in store then store[FoldersKey] else {}
    }

    /** `addFolder(uri)`: copies the stored set, adds `uri.toString()` and writes the copy back. */
    method AddFolder(uri: string)
      modifies this
      ensures GetFolders() == old(GetFolders()) + {uri}
      ensures store == old(store)[FoldersKey := old(GetFolders()) + {uri}]
    {
      var currentFolders := GetFolders();
      currentFolders := currentFolders + {uri};
      store := store[FoldersKey := currentFolders];
    }

    /** `removeFolder(uri)`: copies the stored set, removes `uri.toString()` and writes the copy back. */
    method RemoveFolder(uri: string)
      modifies this
      ensures GetFolders() == old(GetFolders()) - {uri}
      ensures store == old(store)[FoldersKey := old(GetFolders()) - {uri}]
    {
      var currentFolders := GetFolders();
      currentFolders := currentFolders - {uri};
      store := store[FoldersKey := currentFolders];
    }
  }

  /** Adding a folder that is already stored leaves the folder set as it was. */
  method AddPresentFolder(repo: FolderRepository, uri: string)
    requires uri in repo.GetFolders()
    modifies repo
    ensures repo.GetFolders() == old(repo.GetFolders())
  {
    repo.AddFolder(uri);
  }

  /** Adding twice is adding once. */
  method AddFolderTwice(repo: FolderRepository, uri: string)
    modifies repo
    ensures repo.GetFolders() == old(repo.GetFolders()) + {uri}
    ensures uri in repo.GetFolders()
  {
    repo.AddFolder(uri);
    repo.AddFolder(uri);
  }

  /** Removing a folder that is not stored leaves the folder set as it was. */
  method RemoveAbsentFolder(repo: FolderRepository, uri: string)
    requires uri !in repo.GetFolders()
    modifies repo
    ensures repo.GetFolders() == old(repo.GetFolders())
  {
    repo.RemoveFolder(uri);
  }

  /** After removing, the folder is gone and every other folder is still there. */
  method RemoveKeepsOthers(repo: FolderRepository, uri: string, other: string)
    requires other != uri && other in repo.GetFolders()
    modifies repo
    ensures uri !in repo.GetFolders() && other in repo.GetFolders()
  {
    repo.RemoveFolder(uri);
  }

  /** Adding a new folder and then removing it restores the original set. */
  method AddThenRemove(repo: FolderRepository, uri: string)
    requires uri !in repo.GetFolders()
    modifies repo
    ensures repo.GetFolders() == old(repo.GetFolders())
  {
    repo.AddFolder(uri);
    repo.RemoveFolder(uri);
  }
}
