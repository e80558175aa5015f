/**
  `sortAndPostSongs`: the song list sorted with Kotlin's `sortedBy` and the
  selector of the chosen order. `sortedBy` is a stable sort under the ordinal
  string order; it is modelled here as an insertion sort, which the lemmas
  below show to be the one stable ascending arrangement of its input.
*/
module SongSort {
  import opened Library
  import opened SortPreferences
  import Ordinal

  /** The selector passed to `sortedBy` for each order. */
  function Selector(order: SortOrder): Song -> string {
    match order
    case TITLE => (s: Song) => s.title
    case ARTIST => (s: Song) => s.artist
    case ALBUM => (s: Song) => s.album
  }

  /** Ascending by the selector: no element has a smaller key than one before it. */
  ghost predicate Ascending<T>(xs: seq<T>, selector: T -> string) {
    forall i, j :: 0 <= i < j < |xs| ==> Ordinal.LessOrEqual(selector(xs[i]), selector(xs[j]))
  }

  /** The elements whose key is `key`, in their order in `xs`. */
  function WithKey<T>(xs: seq<T>, selector: T -> string, key: string): seq<T> {
    if xs == [] then []
    else (if selector(xs[0]) == key then [xs[0]] else []) + WithKey(xs[1..], selector, key)
  }

  /** Puts `x` in front of the first element whose key is not smaller than its own. */
  function Insert<T>(x: T, sorted: seq<T>, selector: T -> string): seq<T> {
    if sorted == [] then [x]
    else if Ordinal.Less(selector(sorted[0]), selector(x)) then [sorted[0]] + Insert(x, sorted[1..], selector)
    else [x] + sorted
  }

  lemma {:induction false} InsertPermutes<T>(x: T, sorted: seq<T>, selector: T -> string)
    ensures multiset(Insert(x, sorted, selector)) == multiset(sorted) + multiset{x}
  {
    if sorted != [] && Ordinal.Less(selector(sorted[0]), selector(x)) {
      InsertPermutes(x, sorted[1..], selector);
      assert sorted == [sorted[0]] + sorted[1..];
    }
  }

  /** `xs.sortedBy(selector)`; its result is a permutation of `xs`. */
  function SortedBy<T>(xs: seq<T>, selector: T -> string): (r: seq<T>)
    ensures multiset(r) == multiset(xs)
  {
    if xs == [] then []
    else
      assert xs == [xs[0]] + xs[1..];
      InsertPermutes(xs[0], SortedBy(xs[1..], selector), selector);
      Insert(xs[0], SortedBy(xs[1..], selector), selector)
  }

  /** The list `sortAndPostSongs` posts for the given order. */
  function SortSongs(songs: seq<Song>, order: SortOrder): (r: seq<Song>)
    ensures multiset(r) == multiset(songs)
  {
    SortedBy(songs, Selector(order))
  }

  lemma {:induction false} InsertAscending<T>(x: T, sorted: seq<T>, selector: T -> string)
    requires Ascending(sorted, selector)
    ensures Ascending(Insert(x, sorted, selector), selector)
  {
    var k := selector(x);
    if sorted == [] {
    } else if Ordinal.Less(selector(sorted[0]), k) {
      var rest := Insert(x, sorted[1..], selector);
      InsertAscending(x, sorted[1..], selector);
      InsertPermutes(x, sorted[1..], selector);
      forall j | 0 <= j < |rest|
        ensures Ordinal.LessOrEqual(selector(sorted[0]), selector(rest[j]))
      {
        assert rest[j] in multiset(rest);
        if rest[j] == x {
          Ordinal.LessAsymmetric(selector(sorted[0]), k);
        } else {
          assert rest[j] in sorted[1..];
          var m :| 0 <= m < |sorted[1..]| && sorted[1..][m] == rest[j];
          assert sorted[m + 1] == rest[j];
        }
      }
    } else {
      forall j | 0 <= j < |sorted|
        ensures Ordinal.LessOrEqual(k, selector(sorted[j]))
      {
        if j > 0 {
          Ordinal.LessOrEqualTransitive(k, selector(sorted[0]), selector(sorted[j]));
        }
      }
    }
  }

  /** The result of `sortedBy` is ascending by the selector. */
  lemma {:induction false} SortedByAscending<T>(xs: seq<T>, selector: T -> string)
    ensures Ascending(SortedBy(xs, selector), selector)
  {
    if xs != [] {
      SortedByAscending(xs[1..], selector);
      InsertAscending(xs[0], SortedBy(xs[1..], selector), selector);
    }
  }

  lemma WithKeyCons<T>(x: T, xs: seq<T>, selector: T -> string, key: string)
    ensures WithKey([x] + xs, selector, key) ==
      (if selector(x) == key then [x] else []) + WithKey(xs, selector, key)
  {
    assert ([x] + xs)[1..] == xs;
  }

  lemma {:induction false} InsertWithKey<T>(x: T, sorted: seq<T>, selector: T -> string, key: string)
    ensures WithKey(Insert(x, sorted, selector), selector, key) ==
      (if selector(x) == key then [x] else []) + WithKey(sorted, selector, key)
  {
    if sorted == [] {
      WithKeyCons(x, [], selector, key);
    } else if Ordinal.Less(selector(sorted[0]), selector(x)) {
      var rest := Insert(x, sorted[1..], selector);
      InsertWithKey(x, sorted[1..], selector, key);
      assert Insert(x, sorted, selector) == [sorted[0]] + rest;
      WithKeyCons(sorted[0], rest, selector, key);
      assert WithKey(sorted, selector, key) ==
        (if selector(sorted[0]) == key then [sorted[0]] else []) + WithKey(sorted[1..], selector, key);
      if selector(x) == key {
        Ordinal.LessIrreflexive(key);
      }
    } else {
      WithKeyCons(x, sorted, selector, key);
    }
  }

  /** `sortedBy` is stable: the elements sharing any one key keep their relative input order. */
  lemma {:induction false} SortedByStable<T>(xs: seq<T>, selector: T -> string, key: string)
    ensures WithKey(SortedBy(xs, selector), selector, key) == WithKey(xs, selector, key)
  {
    if xs != [] {
      SortedByStable(xs[1..], selector, key);
      InsertWithKey(xs[0], SortedBy(xs[1..], selector), selector, key);
    }
  }

  lemma HeadKeyPresent<T>(xs: seq<T>, selector: T -> string)
    requires xs != []
    ensures WithKey(xs, selector, selector(xs[0])) != []
  {
  }

  lemma {:induction false} FirstKeyIsLeast<T>(xs: seq<T>, selector: T -> string, key: string)
    requires Ascending(xs, selector) && WithKey(xs, selector, key) != []
    ensures Ordinal.LessOrEqual(selector(xs[0]), key)
  {
    if selector(xs[0]) == key {
      Ordinal.LessIrreflexive(key);
    } else {
      FirstKeyIsLeast(xs[1..], selector, key);
      Ordinal.LessOrEqualTransitive(selector(xs[0]), selector(xs[1]), key);
    }
  }

  /** Two ascending lists with the same elements under every key, in the same order, are the same list. */
  lemma {:induction false} AscendingListsAgree<T>(t: seq<T>, u: seq<T>, selector: T -> string)
    requires Ascending(t, selector) && Ascending(u, selector)
    requires forall key :: WithKey(t, selector, key) == WithKey(u, selector, key)
    ensures t == u
    decreases |t|
  {
    if t == [] && u != [] {
      HeadKeyPresent(u, selector);
      assert false;
    } else if t != [] && u == [] {
      HeadKeyPresent(t, selector);
      assert false;
    } else if t != [] {
      var ka, kb := selector(t[0]), selector(u[0]);
      HeadKeyPresent(t, selector);
      HeadKeyPresent(u, selector);
      FirstKeyIsLeast(u, selector, ka);
      FirstKeyIsLeast(t, selector, kb);
      Ordinal.LessOrEqualAntisymmetric(ka, kb);
      assert WithKey(t, selector, ka)[0] == t[0] && WithKey(u, selector, ka)[0] == u[0];
      forall key ensures WithKey(t[1..], selector, key) == WithKey(u[1..], selector, key) {
        var head := if ka == key then [t[0]] else [];
        assert WithKey(t, selector, key) == head + WithKey(t[1..], selector, key);
        assert WithKey(u, selector, key) == head + WithKey(u[1..], selector, key);
        assert (head + WithKey(t[1..], selector, key))[|head|..] == WithKey(t[1..], selector, key);
        assert (head + WithKey(u[1..], selector, key))[|head|..] == WithKey(u[1..], selector, key);
      }
      AscendingListsAgree(t[1..], u[1..], selector);
      assert t == [t[0]] + t[1..] && u == [u[0]] + u[1..];
    }
  }

  /**
    The stable sort is unique: any ascending list that keeps, for every key,
    the elements of `xs` under that key in their input order is `SortedBy(xs)`.
  */
  lemma SortedByUnique<T>(xs: seq<T>, selector: T -> string, t: seq<T>)
    requires Ascending(t, selector)
    requires forall key :: WithKey(t, selector, key) == WithKey(xs, selector, key)
    ensures t == SortedBy(xs, selector)
  {
    SortedByAscending(xs, selector);
    forall key ensures WithKey(t, selector, key) == WithKey(SortedBy(xs, selector), selector, key) {
      SortedByStable(xs, selector, key);
    }
    AscendingListsAgree(t, SortedBy(xs, selector), selector);
  }

  /** The posted list is ascending by the order's field, and every group of equal keys keeps its input order. */
  lemma SortSongsSortedAndStable(songs: seq<Song>, order: SortOrder, key: string)
    ensures Ascending(SortSongs(songs, order), Selector(order))
    ensures WithKey(SortSongs(songs, order), Selector(order), key) == WithKey(songs, Selector(order), key)
  {
    SortedByAscending(songs, Selector(order));
    SortedByStable(songs, Selector(order), key);
  }

  /** Sorting the posted list again by the same order changes nothing. */
  lemma SortSongsIdempotent(songs: seq<Song>, order: SortOrder)
    ensures SortSongs(SortSongs(songs, order), order) == SortSongs(songs, order)
  {
    var once := SortSongs(songs, order);
    SortedByAscending(songs, Selector(order));
    SortedByUnique(once, Selector(order), once);
  }
}
