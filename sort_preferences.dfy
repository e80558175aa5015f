/** The persisted sort order: an enum stored by name in a key/value preference file. */
module SortPreferences {
  import opened Wrappers

  datatype SortOrder = TITLE | ARTIST | ALBUM

  /** The enum constant's `name`. */
  function Name(order: SortOrder): string {
    match order
    case TITLE => "TITLE"
    case ARTIST => "ARTIST"
    case ALBUM => "ALBUM"
  }

  /** True when `name` is the name of one of the constants. */
  predicate IsOrderName(name: string) {
    name == Name(TITLE) || name == Name(ARTIST) || name == Name(ALBUM)
  }

  /** `valueOf` throws IllegalArgumentException for a string that names no constant. */
  datatype ValueOfError = NoEnumConstant(name: string)

  /** `SortOrder.valueOf(name)`. */
  function ValueOf(name: string): (r: Result<SortOrder, ValueOfError>)
    ensures r.Success? <==> IsOrderName(name)
    ensures r.Success? ==> Name(r.value) == name
    ensures r.Failure? ==> r.error == NoEnumConstant(name)
  {
    if name == "TITLE" then Success(TITLE)
    else if name == "ARTIST" then Success(ARTIST)
    else if name == "ALBUM" then Success(ALBUM)
    else Failure(NoEnumConstant(name))
  }

  /** The enum has exactly three constants, with three different names. */
  lemma ExactlyThreeOrders(order: SortOrder)
    ensures order in {TITLE, ARTIST, ALBUM}
    ensures |{Name(TITLE), Name(ARTIST), Name(ALBUM)}| == 3
  {
  }

  /** `valueOf(x.name) == x`. */
  lemma ValueOfName(order: SortOrder)
    ensures ValueOf(Name(order)) == Success(order)
  {
  }

  /** The key under which the order is stored in the "sort_prefs" file. */
  const SortOrderKey := "sort_order"

  /** The "sort_prefs" preference file: string values by key. */
  class SortPreferences {
    var store: map<string, string>

    constructor (store: map<string, string>)
      ensures this.store == store
    {
      this.store := store;
    }

    /** `getSortOrder()`: the stored name, TITLE's name when nothing is stored, read back with `valueOf`. */
    function GetSortOrder(): (r: Result<SortOrder, ValueOfError>)
      reads this
      ensures SortOrderKey !in store ==> r == Success(TITLE)
      ensures SortOrderKey in store ==> (r.Success? <==> IsOrderName(store[SortOrderKey]))
      ensures SortOrderKey in store && r.Success? ==> Name(r.value) == store[SortOrderKey]
    {
      ValueOf(if SortOrderKey in store then store[SortOrderKey] else Name(TITLE))
    }

    /** `setSortOrder(order)`: writes the order's name under "sort_order" and touches no other key. */
    method SetSortOrder(order: SortOrder)
      modifies this
      ensures store == old(store)[SortOrderKey := Name(order)]
      ensures GetSortOrder() == Success(order)
    {
      store := store[SortOrderKey := Name(order)];
      ValueOfName(order);
    }
  }

  /** What a caller can rely on: a write is read back, and other keys keep their values. */
  method SetThenGet(prefs: SortPreferences, order: SortOrder, other: string)
    requires other != SortOrderKey && other in prefs.store
    modifies prefs
    ensures prefs.GetSortOrder() == Success(order)
    ensures other in prefs.store && prefs.store[other] == old(prefs.store[other])
  {
    prefs.SetSortOrder(order);
  }
}
