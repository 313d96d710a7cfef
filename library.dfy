/** The mock library store of lib/firestore.ts: a module-level list of saved
    items that `saveToLibrary` appends to, `deleteLibraryItem` filters, and
    `getLibraryItems` / `getLibraryItem` query. The simulated delays are left
    out; each call is one step. */
module Library {
  import opened Text
  import opened Outcomes

  datatype ItemType = Story | Worksheet | VisualAid | ReadingAssessment

  /** The string the item type has in the store and in the filter menu. */
  function TypeName(t: ItemType): string
  {
    match t
    case Story => "story"
    case Worksheet => "worksheet"
    case VisualAid => "visual-aid"
    case ReadingAssessment => "reading-assessment"
  }

  /** `createdAt` is the item's `Date` in milliseconds; `metadata` holds the
      string-valued entries the pages put there. */
  datatype SavedItem = SavedItem(
    id: string,
    itemType: ItemType,
    title: string,
    content: string,
    metadata: map<string, string>,
    createdAt: int,
    userId: string)

  /** The user every save is attributed to until authentication exists. */
  const DefaultUser := "user1"

  const DayMillis := 86400000

  /** The three items the store starts with; `loadTime` is `Date.now()` when
      the module is loaded. */
  function SeedItems(loadTime: int): seq<SavedItem>
  {
    [ SavedItem("1", Story, "Water Cycle Story in Hindi", "एक छोटे से गांव में...",
                map["language" := "hindi", "topic" := "water cycle"],
                loadTime - DayMillis * 2, DefaultUser),
      SavedItem("2", Worksheet, "Grade 4 Mathematics Worksheet",
                "Name: _______ Date: _______\n\nMATHEMATICS WORKSHEET...",
                map["grade" := "4", "subject" := "mathematics"],
                loadTime - DayMillis, DefaultUser),
      SavedItem("3", VisualAid, "Solar System Diagram", "Educational diagram showing planets...",
                map["topic" := "solar system", "visualType" := "diagram"],
                loadTime - DayMillis * 3, DefaultUser) ]
  }

  // ------------------------------------------------------------ sequences

  /** `a` is `b` with some elements deleted, the rest in their order. */
  predicate Subsequence<T(==)>(a: seq<T>, b: seq<T>)
    decreases |b|
  {
    if b == [] then a == []
    else (a != [] && a[0] == b[0] && Subsequence(a[1..], b[1..])) || Subsequence(a, b[1..])
  }

  // -------------------------------------------------------------- queries

  /** `storage.filter((item) => item.userId === userId)`. */
  function OwnedBy(s: seq<SavedItem>, userId: string): (r: seq<SavedItem>)
    ensures forall x :: x in r <==> x in s && x.userId == userId
    ensures Subsequence(r, s)
  {
    if s == [] then []
    else if s[0].userId == userId then [s[0]] + OwnedBy(s[1..], userId)
    else OwnedBy(s[1..], userId)
  }

  /** `storage.filter((item) => item.id !== id)`. */
  function Without(s: seq<SavedItem>, id: string): (r: seq<SavedItem>)
    ensures forall x :: x in r <==> x in s && x.id != id
    ensures Subsequence(r, s)
  {
    if s == [] then []
    else if s[0].id != id then [s[0]] + Without(s[1..], id)
    else Without(s[1..], id)
  }

  /** `storage.find((item) => item.id === id) || null`. */
  function FindById(s: seq<SavedItem>, id: string): (r: Option<SavedItem>)
    ensures r.None? <==> forall x :: x in s ==> x.id != id
    ensures r.Some? ==> exists k :: 0 <= k < |s| && s[k] == r.value && r.value.id == id
                                    && forall j :: 0 <= j < k ==> s[j].id != id
  {
    if s == [] then None
    else if s[0].id == id then Some(s[0])
    else
      var r := FindById(s[1..], id);
      if r.Some? then
        var k :| 0 <= k < |s[1..]| && s[1..][k] == r.value && r.value.id == id
                 && forall j :: 0 <= j < k ==> s[1..][j].id != id;
        assert s[k + 1] == r.value;
        assert forall j :: 0 <= j < k + 1 ==> s[j].id != id by {
          forall j | 0 <= j < k + 1 ensures s[j].id != id {
            if j > 0 { assert s[j] == s[1..][j - 1]; }
          }
        }
        r
      else
        r
  }

  /** `a` comes no later than `b` in newest-first order. */
  predicate NotOlder(a: SavedItem, b: SavedItem)
  {
    a.createdAt >= b.createdAt
  }

  predicate NewestFirstOrdered(s: seq<SavedItem>)
  {
    forall i, j :: 0 <= i < j < |s| ==> NotOlder(s[i], s[j])
  }

  /** Inserts `x` before the first item that is not newer than it. */
  function InsertByDate(x: SavedItem, s: seq<SavedItem>): (r: seq<SavedItem>)
    ensures multiset(r) == multiset(s) + multiset{x}
    ensures NewestFirstOrdered(s) ==> NewestFirstOrdered(r)
  {
    if s == [] || NotOlder(x, s[0]) then
      assert NewestFirstOrdered(s) ==> NewestFirstOrdered([x] + s) by {
        if NewestFirstOrdered(s) && s != [] {
          forall i, j | 0 <= i < j < |[x] + s| ensures NotOlder(([x] + s)[i], ([x] + s)[j]) {
            if i > 0 { assert NotOlder(s[i - 1], s[j - 1]); } else { assert NotOlder(s[0], s[j - 1]); }
          }
        }
      }
      [x] + s
    else
      var t := InsertByDate(x, s[1..]);
      assert s == [s[0]] + s[1..];
      assert NewestFirstOrdered(s) ==> NewestFirstOrdered([s[0]] + t) by {
        if NewestFirstOrdered(s) {
          assert NewestFirstOrdered(s[1..]) by {
            forall i, j | 0 <= i < j < |s[1..]| ensures NotOlder(s[1..][i], s[1..][j]) {
              assert NotOlder(s[i + 1], s[j + 1]);
            }
          }
          forall y | y in t ensures NotOlder(s[0], y) {
            assert y in multiset(t);
            if y != x {
              assert y in multiset(s[1..]);
              var k :| 0 <= k < |s[1..]| && s[1..][k] == y;
              assert NotOlder(s[0], s[k + 1]);
            }
          }
          forall i, j | 0 <= i < j < |[s[0]] + t|
            ensures NotOlder(([s[0]] + t)[i], ([s[0]] + t)[j])
          {
            if i == 0 { assert t[j - 1] in t; }
          }
        }
      }
      [s[0]] + t
  }

  /** `Array.prototype.sort` with comparator `b.createdAt - a.createdAt`: a
      stable sort, newest first. */
  function NewestFirst(s: seq<SavedItem>): (r: seq<SavedItem>)
    ensures multiset(r) == multiset(s)
    ensures NewestFirstOrdered(r)
  {
    if s == [] then [] else
      assert s == [s[0]] + s[1..];
      InsertByDate(s[0], NewestFirst(s[1..]))
  }

  // ---------------------------------------------------------------- store

  class LibraryStore {
    /** `mockStorage`. */
    var storage: seq<SavedItem>

    constructor (loadTime: int)
      ensures storage == SeedItems(loadTime)
    {
      storage := SeedItems(loadTime);
    }

    /** `saveToLibrary(item)`: appends one item with id `Date.now().toString()`
        (the clock read `idClock`), creation time `new Date()` (the second
        clock read `createdAt`) and the default user, and returns its id. */
    method SaveToLibrary(itemType: ItemType, title: string, content: string,
                         metadata: map<string, string>, idClock: nat, createdAt: int) returns (id: string)
      modifies this
      ensures id == NatToString(idClock)
      ensures storage == old(storage) + [SavedItem(id, itemType, title, content, metadata, createdAt, DefaultUser)]
    {
      id := NatToString(idClock);
      storage := storage + [SavedItem(id, itemType, title, content, metadata, createdAt, DefaultUser)];
    }

    /** `getLibraryItems(userId)`: exactly the user's items, newest first;
        the store is left as it is. */
    method GetLibraryItems(userId: string) returns (items: seq<SavedItem>)
      ensures forall x :: x in items <==> x in storage && x.userId == userId
      ensures multiset(items) == multiset(OwnedBy(storage, userId))
      ensures NewestFirstOrdered(items)
      ensures items == NewestFirst(OwnedBy(storage, userId))
    {
      items := NewestFirst(OwnedBy(storage, userId));
      forall x ensures x in items <==> x in storage && x.userId == userId {
        assert x in items <==> x in multiset(items);
        assert x in OwnedBy(storage, userId) <==> x in multiset(OwnedBy(storage, userId));
      }
    }

    /** `deleteLibraryItem(id)`: drops every item with that id. */
    method DeleteLibraryItem(id: string)
      modifies this
      ensures storage == Without(old(storage), id)
    {
      storage := Without(storage, id);
    }

    /** `getLibraryItem(id)`: the first item with that id, or null. */
    method GetLibraryItem(id: string) returns (r: Option<SavedItem>)
      ensures r.None? <==> forall x :: x in storage ==> x.id != id
      ensures r.Some? ==> exists k :: 0 <= k < |storage| && storage[k] == r.value && r.value.id == id
                                      && forall j :: 0 <= j < k ==> storage[j].id != id
    {
      r := FindById(storage, id);
    }
  }

  // --------------------------------------------------------------- lemmas

  /** Deleting an id that is not stored changes nothing. */
  lemma {:induction false} WithoutAbsent(s: seq<SavedItem>, id: string)
    requires forall x :: x in s ==> x.id != id
    ensures Without(s, id) == s
  {
    if s != [] {
      assert s[0] in s;
      WithoutAbsent(s[1..], id);
    }
  }

  /** Deleting twice is deleting once. */
  lemma WithoutIdempotent(s: seq<SavedItem>, id: string)
    ensures Without(Without(s, id), id) == Without(s, id)
  {
    WithoutAbsent(Without(s, id), id);
  }

  /** After `deleteLibraryItem(id)`, `getLibraryItem(id)` finds nothing. */
  lemma DeleteThenGet(s: seq<SavedItem>, id: string)
    ensures FindById(Without(s, id), id) == None
  {
  }

  /** After a save whose id was not already stored, `getLibraryItem` on that
      id returns the saved item. */
  lemma {:induction false} SaveThenGet(s: seq<SavedItem>, item: SavedItem)
    requires forall x :: x in s ==> x.id != item.id
    ensures FindById(s + [item], item.id) == Some(item)
  {
    if s != [] {
      assert s[0] in s;
      assert (s + [item])[1..] == s[1..] + [item];
      SaveThenGet(s[1..], item);
    }
  }

  /** Deleting one id leaves items with another id findable as before. */
  lemma {:induction false} DeleteKeepsOthers(s: seq<SavedItem>, id: string, other: string)
    requires other != id
    ensures FindById(Without(s, id), other) == FindById(s, other)
  {
    if s != [] {
      DeleteKeepsOthers(s[1..], id, other);
    }
  }

  /** The listing is a stable sort: an item appended to the store is listed
      after every stored item that is not older than it, so items with equal
      timestamps keep the order in which they were saved. */
  lemma {:induction false} NewestFirstAppend(s: seq<SavedItem>, b: SavedItem)
    ensures NewestFirst(s + [b]) == InsertTie(NewestFirst(s), b)
  {
    if s != [] {
      assert (s + [b])[1..] == s[1..] + [b];
      assert (s + [b])[0] == s[0];
      NewestFirstAppend(s[1..], b);
      InsertCommutes(s[0], b, NewestFirst(s[1..]));
    }
  }

  /** Where a newly saved item lands in the listing: after every item not
      older than it. */
  function InsertTie(s: seq<SavedItem>, b: SavedItem): (r: seq<SavedItem>)
  {
    if s == [] then [b]
    else if s[0].createdAt >= b.createdAt then [s[0]] + InsertTie(s[1..], b)
    else [b] + s
  }

  lemma {:induction false} InsertCommutes(x: SavedItem, b: SavedItem, t: seq<SavedItem>)
    ensures InsertByDate(x, InsertTie(t, b)) == InsertTie(InsertByDate(x, t), b)
  {
    if t != [] && !NotOlder(x, t[0]) && t[0].createdAt >= b.createdAt {
      InsertCommutes(x, b, t[1..]);
    }
  }
}
