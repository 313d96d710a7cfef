/** The library view of app/history/page.tsx: the loaded items, the search
    and type filters that derive the displayed list, deletion after the store
    confirms it, and the download file name. */
module History {
  import opened Text
  import opened Library

  /** The type-filter value that keeps every item. */
  const AllTypes := "all"

  /** The search test: the lower-cased title or content contains the
      lower-cased term. */
  predicate MatchesSearch(item: SavedItem, term: string)
  {
    Includes(ToLower(item.title), ToLower(term)) || Includes(ToLower(item.content), ToLower(term))
  }

  predicate MatchesType(item: SavedItem, filterType: string)
  {
    TypeName(item.itemType) == filterType
  }

  /** The first `filter` of `filterItems`. */
  function SearchFilter(items: seq<SavedItem>, term: string): (r: seq<SavedItem>)
  {
    if items == [] then []
    else if MatchesSearch(items[0], term) then [items[0]] + SearchFilter(items[1..], term)
    else SearchFilter(items[1..], term)
  }

  /** The second `filter` of `filterItems`. */
  function TypeFilter(items: seq<SavedItem>, filterType: string): (r: seq<SavedItem>)
  {
    if items == [] then []
    else if MatchesType(items[0], filterType) then [items[0]] + TypeFilter(items[1..], filterType)
    else TypeFilter(items[1..], filterType)
  }

  /** `filterItems`: the search filter when the term is non-empty, then the
      type filter unless the type is "all". */
  function FilterItems(items: seq<SavedItem>, searchTerm: string, filterType: string): seq<SavedItem>
  {
    var searched := if searchTerm != "" then SearchFilter(items, searchTerm) else items;
    if filterType != AllTypes then TypeFilter(searched, filterType) else searched
  }

  /** When an item is displayed, stated on one item. */
  predicate Shown(item: SavedItem, searchTerm: string, filterType: string)
  {
    (searchTerm == "" || MatchesSearch(item, searchTerm))
    && (filterType == AllTypes || MatchesType(item, filterType))
  }

  /** A single-pass filter with the combined test: the reference that the
      chained filters are measured against. */
  function ShownItems(items: seq<SavedItem>, searchTerm: string, filterType: string): (r: seq<SavedItem>)
    ensures Subsequence(r, items)
    ensures forall x :: x in r <==> x in items && Shown(x, searchTerm, filterType)
  {
    if items == [] then []
    else if Shown(items[0], searchTerm, filterType)
    then [items[0]] + ShownItems(items[1..], searchTerm, filterType)
    else ShownItems(items[1..], searchTerm, filterType)
  }

  lemma {:induction false} TypeAfterSearch(items: seq<SavedItem>, term: string, filterType: string)
    requires term != "" && filterType != AllTypes
    ensures TypeFilter(SearchFilter(items, term), filterType) == ShownItems(items, term, filterType)
  {
    if items != [] {
      TypeAfterSearch(items[1..], term, filterType);
    }
  }

  lemma {:induction false} SearchOnly(items: seq<SavedItem>, term: string)
    requires term != ""
    ensures SearchFilter(items, term) == ShownItems(items, term, AllTypes)
  {
    if items != [] {
      SearchOnly(items[1..], term);
    }
  }

  lemma {:induction false} TypeOnly(items: seq<SavedItem>, filterType: string)
    requires filterType != AllTypes
    ensures TypeFilter(items, filterType) == ShownItems(items, "", filterType)
  {
    if items != [] {
      TypeOnly(items[1..], filterType);
    }
  }

  lemma {:induction false} NoFilter(items: seq<SavedItem>)
    ensures ShownItems(items, "", AllTypes) == items
  {
    if items != [] {
      NoFilter(items[1..]);
    }
  }

  /** The chained filters of `filterItems` keep exactly the items that pass
      both tests, in their order: the result is an order-preserving
      subsequence, every kept item has the chosen type unless the type is
      "all", and with an empty term and type "all" the list is unchanged. */
  lemma FilterItemsMeaning(items: seq<SavedItem>, searchTerm: string, filterType: string)
    ensures FilterItems(items, searchTerm, filterType) == ShownItems(items, searchTerm, filterType)
    ensures Subsequence(FilterItems(items, searchTerm, filterType), items)
    ensures forall x :: x in FilterItems(items, searchTerm, filterType) <==>
                        x in items && Shown(x, searchTerm, filterType)
    ensures searchTerm == "" && filterType == AllTypes ==> FilterItems(items, searchTerm, filterType) == items
  {
    if searchTerm != "" && filterType != AllTypes {
      TypeAfterSearch(items, searchTerm, filterType);
    } else if searchTerm != "" {
      SearchOnly(items, searchTerm);
    } else if filterType != AllTypes {
      TypeOnly(items, filterType);
    } else {
      NoFilter(items);
    }
  }

  // ------------------------------------------------------------ download

  /** `${item.title.replace(/\s+/g, "-").toLowerCase()}.txt`. */
  function DownloadFilename(title: string): string
  {
    Slug(title) + ".txt"
  }

  /** The file name has no white space and ends in ".txt"; a title without
      white space is only lower-cased. */
  lemma DownloadFilenameShape(title: string)
    ensures NoSpace(DownloadFilename(title))
    ensures EndsWithTxt(DownloadFilename(title))
    ensures NoSpace(title) ==> DownloadFilename(title) == ToLower(title) + ".txt"
  {
    var r := Slug(title);
    SlugShape(title);
    assert NoSpace(".txt") by {
      forall i | 0 <= i < 4 ensures !IsSpace(".txt"[i]) { }
    }
    NoSpaceAppend(r, ".txt");
    assert (r + ".txt")[|r|..] == ".txt";
  }

  predicate EndsWithTxt(name: string)
  {
    |name| >= 4 && name[|name| - 4..] == ".txt"
  }

  // ---------------------------------------------------------------- view

  class HistoryView {
    var items: seq<SavedItem>
    var filteredItems: seq<SavedItem>
    var isLoading: bool
    var searchTerm: string
    var filterType: string

    /** The effect that re-runs `filterItems` whenever `items`, `searchTerm`
        or `filterType` change keeps the displayed list derived from them. */
    ghost predicate Valid()
      reads this
    {
      filteredItems == FilterItems(items, searchTerm, filterType)
    }

    constructor ()
      ensures Valid()
      ensures items == [] && filteredItems == [] && isLoading
      ensures searchTerm == "" && filterType == AllTypes
    {
      items, filteredItems := [], [];
      isLoading := true;
      searchTerm, filterType := "", AllTypes;
    }

    /** `loadItems`: on success the items are the default user's items,
        newest first; on failure they stay as they were. Loading ends
        false either way. */
    method LoadItems(store: LibraryStore, fails: bool)
      requires Valid()
      modifies this
      ensures Valid() && !isLoading
      ensures searchTerm == old(searchTerm) && filterType == old(filterType)
      ensures items == if fails then old(items) else NewestFirst(OwnedBy(store.storage, DefaultUser))
    {
      isLoading := true;
      if !fails {
        items := store.GetLibraryItems(DefaultUser);
        filteredItems := FilterItems(items, searchTerm, filterType);
      }
      isLoading := false;
    }

    method SetSearchTerm(term: string)
      requires Valid()
      modifies this
      ensures Valid() && searchTerm == term
      ensures items == old(items) && filterType == old(filterType) && isLoading == old(isLoading)
    {
      searchTerm := term;
      filteredItems := FilterItems(items, searchTerm, filterType);
    }

    method SetFilterType(t: string)
      requires Valid()
      modifies this
      ensures Valid() && filterType == t
      ensures items == old(items) && searchTerm == old(searchTerm) && isLoading == old(isLoading)
    {
      filterType := t;
      filteredItems := FilterItems(items, searchTerm, filterType);
    }

    /** `handleDelete(id)`: only once the store has deleted the item are the
        items with that id dropped from the list; on failure neither the list
        nor the store changes. */
    method HandleDelete(store: LibraryStore, id: string, fails: bool)
      requires Valid()
      modifies this, store
      ensures Valid()
      ensures searchTerm == old(searchTerm) && filterType == old(filterType) && isLoading == old(isLoading)
      ensures fails ==> items == old(items) && store.storage == old(store.storage)
      ensures !fails ==> items == Without(old(items), id)
                         && store.storage == Without(old(store.storage), id)
    {
      if !fails {
        store.DeleteLibraryItem(id);
        items := Without(items, id);
        filteredItems := FilterItems(items, searchTerm, filterType);
      }
    }
  }
}
