/**
 * The bookmark store that also serves as the cart: a list of packages keyed by
 * `id`, with a de-duplicating `addBookmark` and a filtering `removeBookmark`
 * (src/context/BookmarkContext.tsx). The service details screen uses the pair
 * as a toggle.
 */
module BookmarkContext {
  import opened Wrappers

  /** A bookmarked package; only `id` takes part in the store's logic. */
  datatype BookmarkedPackage = BookmarkedPackage(
    id: string,
    title: string,
    price: string,
    features: Option<seq<string>>,
    rating: Option<real>,
    reviewCount: Option<string>,
    duration: Option<string>,
    oldPrice: Option<string>,
    serviceName: Option<string>,
    serviceId: Option<string>)

  /** `list.find(b => b.id === id)` finds an entry (packages are objects, so a found one is truthy). */
  predicate HasId(list: seq<BookmarkedPackage>, id: string) {
    exists i | 0 <= i < |list| :: list[i].id == id
  }

  /** No two entries share an id. */
  predicate UniqueIds(list: seq<BookmarkedPackage>) {
    forall i, j | 0 <= i < j < |list| :: list[i].id != list[j].id
  }

  /** The list that `addBookmark(pkg)` leaves. */
  function WithBookmark(list: seq<BookmarkedPackage>, pkg: BookmarkedPackage): seq<BookmarkedPackage> {
    if HasId(list, pkg.id) then list else list + [pkg]
  }

  /** `list.filter(b => b.id !== id)`, the list that `removeBookmark(id)` leaves. */
  function WithoutId(list: seq<BookmarkedPackage>, id: string): seq<BookmarkedPackage> {
    if list == [] then []
    else
      var last := list[|list| - 1];
      WithoutId(list[..|list| - 1], id) + (if last.id != id then [last] else [])
  }

  /** The number of entries with the given id. */
  function CountId(list: seq<BookmarkedPackage>, id: string): nat {
    if list == [] then 0
    else CountId(list[..|list| - 1], id) + (if list[|list| - 1].id == id then 1 else 0)
  }

  // ------------------------------------------------------------ addBookmark

  /** Adding a package whose id is present leaves the list as it is; a new id goes at the end. */
  lemma AddBookmarkCases(list: seq<BookmarkedPackage>, pkg: BookmarkedPackage)
    ensures (exists b | b in list :: b.id == pkg.id) ==> WithBookmark(list, pkg) == list
    ensures (forall b | b in list :: b.id != pkg.id) ==>
              |WithBookmark(list, pkg)| == |list| + 1 &&
              WithBookmark(list, pkg)[..|list|] == list &&
              WithBookmark(list, pkg)[|list|] == pkg
  {
    if exists b | b in list :: b.id == pkg.id {
      var b :| b in list && b.id == pkg.id;
      var i :| 0 <= i < |list| && list[i] == b;
      assert HasId(list, pkg.id);
    } else {
      assert !HasId(list, pkg.id) by {
        forall i | 0 <= i < |list| ensures list[i].id != pkg.id {
          assert list[i] in list;
        }
      }
      assert (list + [pkg])[..|list|] == list;
    }
  }

  /** Adding keeps the ids unique. */
  lemma AddBookmarkKeepsUnique(list: seq<BookmarkedPackage>, pkg: BookmarkedPackage)
    requires UniqueIds(list)
    ensures UniqueIds(WithBookmark(list, pkg))
  {
    if !HasId(list, pkg.id) {
      var r := list + [pkg];
      forall i, j | 0 <= i < j < |r| ensures r[i].id != r[j].id {
        if j == |list| {
          assert r[i] == list[i];
        }
      }
    }
  }

  /** Adding the same package twice is adding it once. */
  lemma AddBookmarkIdempotent(list: seq<BookmarkedPackage>, pkg: BookmarkedPackage)
    ensures WithBookmark(WithBookmark(list, pkg), pkg) == WithBookmark(list, pkg)
  {
    var r := WithBookmark(list, pkg);
    if !HasId(list, pkg.id) {
      assert r[|list|].id == pkg.id;
    }
    assert HasId(r, pkg.id);
  }

  // --------------------------------------------------------- removeBookmark

  /** The filter keeps exactly the entries whose id differs, and drops one entry per occurrence of the id. */
  lemma {:induction false} WithoutIdMembers(list: seq<BookmarkedPackage>, id: string)
    ensures forall b :: b in WithoutId(list, id) <==> b in list && b.id != id
    ensures |WithoutId(list, id)| == |list| - CountId(list, id)
  {
    if list != [] {
      var init := list[..|list| - 1];
      WithoutIdMembers(init, id);
      assert list == init + [list[|list| - 1]];
    }
  }

  /** After removal no entry has the id. */
  lemma RemoveBookmarkRemovesId(list: seq<BookmarkedPackage>, id: string)
    ensures !HasId(WithoutId(list, id), id)
  {
    WithoutIdMembers(list, id);
    var r := WithoutId(list, id);
    forall i | 0 <= i < |r| ensures r[i].id != id {
      assert r[i] in r;
    }
  }

  /** The filter keeps relative order: filtering a concatenation filters each part in place. */
  lemma {:induction false} WithoutIdAppend(a: seq<BookmarkedPackage>, b: seq<BookmarkedPackage>, id: string)
    ensures WithoutId(a + b, id) == WithoutId(a, id) + WithoutId(b, id)
    decreases |b|
  {
    if b == [] {
      assert a + b == a;
    } else {
      var init := b[..|b| - 1];
      WithoutIdAppend(a, init, id);
      assert (a + b)[..|a + b| - 1] == a + init;
    }
  }

  /** A list without the id is left unchanged by the filter. */
  lemma {:induction false} WithoutAbsentId(list: seq<BookmarkedPackage>, id: string)
    requires !HasId(list, id)
    ensures WithoutId(list, id) == list
  {
    if list != [] {
      var init := list[..|list| - 1];
      AbsentFromInit(list, id);
      WithoutAbsentId(init, id);
      assert list == init + [list[|list| - 1]];
    }
  }

  lemma AbsentFromInit(list: seq<BookmarkedPackage>, id: string)
    requires list != [] && !HasId(list, id)
    ensures !HasId(list[..|list| - 1], id) && list[|list| - 1].id != id
  {
    var init := list[..|list| - 1];
    forall i | 0 <= i < |init| ensures init[i].id != id {
      assert list[i] == init[i];
    }
  }

  /** Removing twice is removing once. */
  lemma RemoveBookmarkIdempotent(list: seq<BookmarkedPackage>, id: string)
    ensures WithoutId(WithoutId(list, id), id) == WithoutId(list, id)
  {
    RemoveBookmarkRemovesId(list, id);
    WithoutAbsentId(WithoutId(list, id), id);
  }

  /** With unique ids, removing a present id shortens the list by exactly one entry. */
  lemma RemovePresentShortens(list: seq<BookmarkedPackage>, id: string)
    requires UniqueIds(list) && HasId(list, id)
    ensures |WithoutId(list, id)| == |list| - 1
  {
    WithoutIdMembers(list, id);
    CountOfPresentId(list, id);
  }

  /** With unique ids, an id occurs at most once. */
  lemma {:induction false} CountOfPresentId(list: seq<BookmarkedPackage>, id: string)
    requires UniqueIds(list)
    ensures CountId(list, id) == if HasId(list, id) then 1 else 0
  {
    if list != [] {
      var init := list[..|list| - 1];
      var last := list[|list| - 1];
      assert UniqueIds(init);
      CountOfPresentId(init, id);
      if last.id == id {
        assert !HasId(init, id) by {
          forall i | 0 <= i < |init| ensures init[i].id != id {
            assert list[i] == init[i];
          }
        }
      } else if HasId(list, id) {
        var k :| 0 <= k < |list| && list[k].id == id;
        assert init[k] == list[k];
      } else {
        assert !HasId(init, id) by {
          forall i | 0 <= i < |init| ensures init[i].id != id {
            assert list[i] == init[i];
          }
        }
      }
    }
  }

  /** Removal keeps the ids unique. */
  lemma {:induction false} RemoveBookmarkKeepsUnique(list: seq<BookmarkedPackage>, id: string)
    requires UniqueIds(list)
    ensures UniqueIds(WithoutId(list, id))
  {
    if list != [] {
      var init := list[..|list| - 1];
      var last := list[|list| - 1];
      assert UniqueIds(init);
      RemoveBookmarkKeepsUnique(init, id);
      WithoutIdMembers(init, id);
      if last.id != id {
        var p := WithoutId(init, id);
        var r := p + [last];
        forall i, j | 0 <= i < j < |r| ensures r[i].id != r[j].id {
          if j == |p| {
            assert r[i] in init;
            var k :| 0 <= k < |init| && init[k] == r[i];
            assert list[k] == r[i];
          }
        }
      }
    }
  }

  /** Adding a package with a new id and then removing that id gives back the original list. */
  lemma AddThenRemoveRestores(list: seq<BookmarkedPackage>, pkg: BookmarkedPackage)
    requires !HasId(list, pkg.id)
    ensures WithoutId(WithBookmark(list, pkg), pkg.id) == list
  {
    WithoutIdAppend(list, [pkg], pkg.id);
    WithoutAbsentId(list, pkg.id);
    assert WithoutId([pkg], pkg.id) == [];
  }

  // ------------------------------------------------------------------ toggle

  /** The list after the details screen's bookmark button: remove when bookmarked, add otherwise. */
  function Toggled(list: seq<BookmarkedPackage>, pkg: BookmarkedPackage): seq<BookmarkedPackage> {
    if HasId(list, pkg.id) then WithoutId(list, pkg.id) else WithBookmark(list, pkg)
  }

  /** Pressing the button twice on a package not yet bookmarked gives back the original list. */
  lemma ToggleTwiceRestores(list: seq<BookmarkedPackage>, pkg: BookmarkedPackage)
    requires !HasId(list, pkg.id)
    ensures Toggled(Toggled(list, pkg), pkg) == list
  {
    var once := list + [pkg];
    assert once[|list|].id == pkg.id;
    assert HasId(once, pkg.id);
    AddThenRemoveRestores(list, pkg);
  }

  /** The bookmark provider's state. */
  class BookmarkStore {
    var bookmarks: seq<BookmarkedPackage>

    ghost predicate Valid()
      reads this
    {
      UniqueIds(bookmarks)
    }

    /** The provider starts with no bookmarks. */
    constructor ()
      ensures Valid() && bookmarks == []
    {
      bookmarks := [];
    }

    /** `addBookmark(pkg)`. */
    method AddBookmark(pkg: BookmarkedPackage)
      requires Valid()
      modifies this
      ensures Valid()
      ensures HasId(old(bookmarks), pkg.id) ==> bookmarks == old(bookmarks)
      ensures !HasId(old(bookmarks), pkg.id) ==> bookmarks == old(bookmarks) + [pkg]
      ensures HasId(bookmarks, pkg.id)
    {
      AddBookmarkKeepsUnique(bookmarks, pkg);
      bookmarks := WithBookmark(bookmarks, pkg);
      AddBookmarkIdempotent(old(bookmarks), pkg);
    }

    /** `removeBookmark(id)`. */
    method RemoveBookmark(id: string)
      requires Valid()
      modifies this
      ensures Valid()
      ensures bookmarks == WithoutId(old(bookmarks), id)
      ensures !HasId(bookmarks, id)
      ensures forall b :: b in bookmarks <==> b in old(bookmarks) && b.id != id
      ensures HasId(old(bookmarks), id) ==> |bookmarks| == |old(bookmarks)| - 1
      ensures !HasId(old(bookmarks), id) ==> bookmarks == old(bookmarks)
    {
      var before := bookmarks;
      RemoveBookmarkKeepsUnique(before, id);
      RemoveBookmarkRemovesId(before, id);
      WithoutIdMembers(before, id);
      if HasId(before, id) {
        RemovePresentShortens(before, id);
      } else {
        WithoutAbsentId(before, id);
      }
      bookmarks := WithoutId(before, id);
    }

    /** The details screen's bookmark button for `pkg`. */
    method Toggle(pkg: BookmarkedPackage)
      requires Valid()
      modifies this
      ensures Valid()
      ensures bookmarks == Toggled(old(bookmarks), pkg)
      ensures HasId(bookmarks, pkg.id) <==> !HasId(old(bookmarks), pkg.id)
    {
      if HasId(bookmarks, pkg.id) {
        RemoveBookmark(pkg.id);
      } else {
        AddBookmark(pkg);
      }
    }
  }
}
