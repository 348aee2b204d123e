/** What each transition of the engine promises (changed fields, unchanged
    fields, postconditions), the round trips of the optimistic writes, and the
    state invariants every transition keeps. */
module StateProperties {
  import opened Common
  import opened Errors
  import opened State

  // ---------------------------------------------------------------------------
  // Facts about item lists
  // ---------------------------------------------------------------------------

  /** A list whose ids agree position by position with another's has the same
      ids, so uniqueness and membership carry over. */
  lemma SameIds(items: seq<Item>, r: seq<Item>)
    requires |r| == |items|
    requires forall k :: 0 <= k < |items| ==> r[k].id == items[k].id
    ensures UniqueIds(items) ==> UniqueIds(r)
    ensures forall id :: HasId(items, id) ==> HasId(r, id)
  {
    forall id | HasId(items, id) ensures HasId(r, id) {
      var k :| 0 <= k < |items| && items[k].id == id;
      assert r[k].id == id;
    }
  }

  lemma {:induction false} CountIdAppend(a: seq<Item>, b: seq<Item>, id: string)
    ensures CountId(a + b, id) == CountId(a, id) + CountId(b, id)
  {
    if a == [] {
      assert a + b == b;
    } else {
      assert (a + b)[1..] == a[1..] + b;
      CountIdAppend(a[1..], b, id);
    }
  }

  /** In a list of unique ids, the item found for an id is the one at its position. */
  lemma {:induction false} FindUnique(items: seq<Item>, k: int)
    requires UniqueIds(items) && 0 <= k < |items|
    ensures Find(items, items[k].id) == Some(items[k])
  {
    if k > 0 {
      assert items[1..][k - 1] == items[k];
      FindUnique(items[1..], k - 1);
    }
  }

  /** Appending an item whose id is absent keeps ids unique and keeps every
      id already present. */
  lemma AppendFresh(items: seq<Item>, x: Item)
    requires !HasId(items, x.id)
    ensures UniqueIds(items) ==> UniqueIds(items + [x])
    ensures forall id :: HasId(items, id) ==> HasId(items + [x], id)
    ensures HasId(items + [x], x.id)
  {
    var r := items + [x];
    assert r[|items|] == x;
    forall id | HasId(items, id) ensures HasId(r, id) {
      var k :| 0 <= k < |items| && items[k].id == id;
      assert r[k] == items[k];
    }
  }

  /** Inserting an item whose id is absent keeps ids unique; every id already
      present stays present, and so does the new item. */
  lemma InsertFresh(items: seq<Item>, x: Item)
    requires !HasId(items, x.id)
    ensures UniqueIds(items) ==> UniqueIds(InsertByCreatedAt(items, x))
    ensures forall id :: HasId(items, id) ==> HasId(InsertByCreatedAt(items, x), id)
    ensures x in InsertByCreatedAt(items, x)
  {
    var r := InsertByCreatedAt(items, x);
    assert x in multiset(r);
    forall id | HasId(items, id) ensures HasId(r, id) {
      var k :| 0 <= k < |items| && items[k].id == id;
      assert items[k] in multiset(items);
      assert items[k] in multiset(r);
      var m :| 0 <= m < |r| && r[m] == items[k];
    }
    if UniqueIds(items) {
      forall i, j | 0 <= i < j < |r| ensures r[i].id != r[j].id {
        assert r[i] in multiset(r) && r[j] in multiset(r);
        if r[i] == x && r[j] == x {
          // x occurs once: it is not in items
          forall k | 0 <= k < |items| ensures items[k] != x {
            assert items[k].id != x.id;
          }
          assert x !in items;
          assert multiset(items)[x] == 0;
          assert multiset(r)[x] == 1;
          CountTwice(r, i, j);
        } else if r[i] == x {
          assert r[j] in multiset(items);
          var m :| 0 <= m < |items| && items[m] == r[j];
        } else if r[j] == x {
          assert r[i] in multiset(items);
          var m :| 0 <= m < |items| && items[m] == r[i];
        } else {
          assert r[i] in multiset(items) && r[j] in multiset(items);
          var a :| 0 <= a < |items| && items[a] == r[i];
          var b :| 0 <= b < |items| && items[b] == r[j];
          if a == b {
            assert r[i] == r[j];
            assert multiset(r)[r[i]] == multiset(items)[r[i]];
            CountTwice(r, i, j);
            UniqueOnce(items, a);
          }
        }
      }
    }
  }

  /** An element at two positions of a list occurs at least twice. */
  lemma {:induction false} CountTwice(r: seq<Item>, i: int, j: int)
    requires 0 <= i < j < |r| && r[i] == r[j]
    ensures multiset(r)[r[i]] >= 2
  {
    var x := r[i];
    assert r == r[..i] + [x] + r[i + 1..j] + [x] + r[j + 1..];
    assert multiset(r) == multiset(r[..i]) + multiset{x} + multiset(r[i + 1..j]) + multiset{x} + multiset(r[j + 1..]);
  }

  /** In a list of unique ids an item occurs exactly once. */
  lemma UniqueOnce(items: seq<Item>, a: int)
    requires UniqueIds(items) && 0 <= a < |items|
    ensures multiset(items)[items[a]] == 1
  {
    var x := items[a];
    assert items == items[..a] + [x] + items[a + 1..];
    assert multiset(items) == multiset(items[..a]) + multiset{x} + multiset(items[a + 1..]);
    forall m | 0 <= m < a ensures items[..a][m] != x {
      assert items[m].id != items[a].id;
    }
    var tail := items[a + 1..];
    forall m | 0 <= m < |tail| ensures tail[m] != x {
      assert tail[m] == items[a + 1 + m];
    }
    assert x !in items[..a];
    assert x !in items[a + 1..];
  }

  /** Removing the only item with an id removes exactly that item. */
  lemma {:induction false} WithoutUnique(items: seq<Item>, k: int)
    requires UniqueIds(items) && 0 <= k < |items|
    ensures multiset(Without(items, items[k].id)) + multiset{items[k]} == multiset(items)
  {
    var id := items[k].id;
    assert items == [items[0]] + items[1..];
    if k == 0 {
      forall m | 0 <= m < |items| - 1 ensures items[1..][m].id != id {
        assert items[m + 1].id != items[0].id;
      }
      assert !HasId(items[1..], id);
      WithoutAbsent(items[1..], id);
    } else {
      assert items[1..][k - 1] == items[k];
      WithoutUnique(items[1..], k - 1);
    }
  }

  /** Removing an absent id changes nothing. */
  lemma {:induction false} WithoutAbsent(items: seq<Item>, id: string)
    requires !HasId(items, id)
    ensures Without(items, id) == items
  {
    if items != [] {
      HasIdCons(items, id);
      WithoutAbsent(items[1..], id);
      assert items == [items[0]] + items[1..];
    }
  }

  /** Replacing the items of one id by `x` counts `x`'s id as before plus the
      replaced ones. */
  lemma {:induction false} CountIdReplace(items: seq<Item>, id: string, x: Item)
    requires x.id != id
    ensures CountId(Replace(items, id, x), x.id) == CountId(items, x.id) + CountId(items, id)
  {
    if items != [] {
      assert Replace(items, id, x)[1..] == Replace(items[1..], id, x);
      CountIdReplace(items[1..], id, x);
    }
  }

  /** After a reconcile the new item's id is listed, and an id it replaced
      under a different id is gone. */
  lemma ReconcilePlacesItem(items: seq<Item>, id: string, x: Item)
    ensures HasId(Reconcile(items, id, x), x.id)
    ensures x.id != id ==> !HasId(Reconcile(items, id, x), id)
  {
    var r := Reconcile(items, id, x);
    if HasId(items, id) {
      var k :| 0 <= k < |items| && items[k].id == id;
      assert r[k] == x;
    } else if HasId(items, x.id) {
      var k :| 0 <= k < |items| && items[k].id == x.id;
      assert r[k] == x;
    } else {
      InsertFresh(items, x);
      var m :| 0 <= m < |r| && r[m] == x;
      forall j | 0 <= j < |r| && x.id != id ensures r[j].id != id {
        assert r[j] in multiset(items) + multiset{x};
      }
    }
  }

  /** Reconciling under the item's own id makes that id name exactly `x`,
      whether or not the id was still listed. */
  lemma ReconcileFinds(items: seq<Item>, id: string, x: Item)
    requires x.id == id
    ensures Find(Reconcile(items, id, x), id) == Some(x)
  {
    var r := Reconcile(items, id, x);
    ReconcilePlacesItem(items, id, x);
    var f := Find(r, id);
    var k :| 0 <= k < |r| && r[k] == f.value;
    if !HasId(items, id) {
      assert f.value in multiset(items) + multiset{x};
    }
  }

  /** Every other item keeps its place when `id` was listed; otherwise every
      item is kept. Either way every id other than `id` stays listed. */
  lemma ReconcileKeepsOthers(items: seq<Item>, id: string, x: Item)
    ensures HasId(items, id) ==>
      |Reconcile(items, id, x)| == |items| &&
      forall k :: 0 <= k < |items| && items[k].id != id ==> Reconcile(items, id, x)[k] == items[k]
    ensures forall y :: y in items && y.id != id && y.id != x.id ==> y in Reconcile(items, id, x)
    ensures forall other :: HasId(items, other) && other != id ==> HasId(Reconcile(items, id, x), other)
  {
    var r := Reconcile(items, id, x);
    ReconcilePlacesItem(items, id, x);
    if !HasId(items, id) && !HasId(items, x.id) {
      InsertFresh(items, x);
      forall y | y in items ensures y in r {
        assert y in multiset(items);
        assert y in multiset(r);
      }
    }
    forall y | y in items && y.id != id && y.id != x.id ensures y in r {
      var k :| 0 <= k < |items| && items[k] == y;
      if HasId(items, id) || HasId(items, x.id) {
        assert r[k] == y;
      }
    }
    forall other | HasId(items, other) && other != id ensures HasId(r, other) {
      var k :| 0 <= k < |items| && items[k].id == other;
      if other != x.id {
        assert items[k] in r;
        var m :| 0 <= m < |r| && r[m] == items[k];
      }
    }
  }

  /** A reconcile keeps ids unique unless it puts `x` in place of `id` while
      `x`'s own, different id is listed elsewhere. */
  lemma ReconcileKeepsUnique(items: seq<Item>, id: string, x: Item)
    requires UniqueIds(items)
    requires HasId(items, id) ==> x.id == id || !HasId(items, x.id)
    ensures UniqueIds(Reconcile(items, id, x))
  {
    if HasId(items, id) {
      ReplaceKeepsUnique(items, id, x);
    } else if HasId(items, x.id) {
      ReplaceKeepsUnique(items, x.id, x);
    } else {
      InsertFresh(items, x);
    }
  }

  // ---------------------------------------------------------------------------
  // Transitions, one by one
  // ---------------------------------------------------------------------------

  /** A reset gives the initial state whatever came before, so a second reset
      changes nothing. */
  lemma ResetIsInitial(s: FeatureState)
    ensures Reduce(s, Reset) == INITIAL
    ensures Reduce(Reduce(s, Reset), Reset) == Reduce(s, Reset)
  {
  }

  lemma FetchItemsStartedFrame(s: FeatureState)
    ensures var r := Reduce(s, FetchItemsStarted);
      && r.loading.fetchingItems && r.errors.fetchItems.None?
      && r.items == s.items && r.selectedItemId == s.selectedItemId
      && r.nextPageCursor == s.nextPageCursor && r.allItemsLoaded == s.allItemsLoaded
      && r.lastFetchedAt == s.lastFetchedAt
      && r.loading.(fetchingItems := s.loading.fetchingItems) == s.loading
      && r.errors.(fetchItems := s.errors.fetchItems) == s.errors
  {
  }

  lemma FetchItemsSucceededFrame(s: FeatureState, page: seq<Item>, cursor: Option<string>, fetchedAt: Timestamp)
    ensures var r := Reduce(s, FetchItemsSucceeded(page, cursor, fetchedAt));
      && !r.loading.fetchingItems
      && r.items == page
      && r.nextPageCursor == cursor
      && (r.allItemsLoaded <==> r.nextPageCursor.None?)
      && r.lastFetchedAt == Some(fetchedAt)
      && r.selectedItemId == s.selectedItemId && r.errors == s.errors
      && r.loading.(fetchingItems := s.loading.fetchingItems) == s.loading
  {
  }

  lemma FetchItemsFailedFrame(s: FeatureState, e: StateError)
    ensures var r := Reduce(s, FetchItemsFailed(e));
      && !r.loading.fetchingItems
      && r.errors.fetchItems == Some(e)
      && r.items == s.items && r.selectedItemId == s.selectedItemId
      && r.nextPageCursor == s.nextPageCursor && r.allItemsLoaded == s.allItemsLoaded
      && r.lastFetchedAt == s.lastFetchedAt
      && r.errors.(fetchItems := s.errors.fetchItems) == s.errors
  {
  }

  /** A create adds exactly one item with the optimistic id, pending, at the
      end of the list, and leaves the rest of the list as it was. */
  lemma CreateItemStartedAddsPlaceholder(s: FeatureState, optimisticId: string, name: string)
    ensures var r := Reduce(s, CreateItemStarted(optimisticId, name));
      && r.loading.creatingItem && r.errors.createItem.None?
      && |r.items| == |s.items| + 1 && r.items[..|s.items|] == s.items
      && r.items[|s.items|] == Item(optimisticId, name, Pending, 0, 0, 0)
      && (!HasId(s.items, optimisticId) ==>
            && CountId(r.items, optimisticId) == 1
            && Find(r.items, optimisticId) == Some(Item(optimisticId, name, Pending, 0, 0, 0)))
      && r.selectedItemId == s.selectedItemId
      && r.nextPageCursor == s.nextPageCursor && r.allItemsLoaded == s.allItemsLoaded
  {
    var x := OptimisticItem(optimisticId, name);
    var r := Reduce(s, CreateItemStarted(optimisticId, name));
    assert r.items == s.items + [x];
    if !HasId(s.items, optimisticId) {
      CountIdAppend(s.items, [x], optimisticId);
      assert CountId([x], optimisticId) == 1;
      FindAfterAbsent(s.items, x);
    }
  }

  lemma {:induction false} FindAfterAbsent(items: seq<Item>, x: Item)
    requires !HasId(items, x.id)
    ensures Find(items + [x], x.id) == Some(x)
  {
    if items != [] {
      HasIdCons(items, x.id);
      assert (items + [x])[1..] == items[1..] + [x];
      FindAfterAbsent(items[1..], x);
    }
  }

  /** A confirmed create swaps the optimistic id for the server item: the
      optimistic id is gone and the server item is present, also when a
      reload dropped the placeholder in between; with unique ids and no
      clash it is present exactly once and is what its id names. */
  lemma CreateItemSucceededSwapsId(s: FeatureState, optimisticId: string, item: Item)
    requires item.id != optimisticId
    ensures var r := Reduce(s, CreateItemSucceeded(optimisticId, item));
      && !r.loading.creatingItem
      && !HasId(r.items, optimisticId)
      && HasId(r.items, item.id)
      && (UniqueIds(s.items) && (HasId(s.items, optimisticId) ==> !HasId(s.items, item.id)) ==>
            CountId(r.items, item.id) == 1 && Find(r.items, item.id) == Some(item))
      && (forall other :: HasId(s.items, other) && other != optimisticId ==> HasId(r.items, other))
      && r.selectedItemId == s.selectedItemId && r.errors == s.errors
      && r.nextPageCursor == s.nextPageCursor && r.allItemsLoaded == s.allItemsLoaded
  {
    var r := Reduce(s, CreateItemSucceeded(optimisticId, item));
    ReconcilePlacesItem(s.items, optimisticId, item);
    ReconcileKeepsOthers(s.items, optimisticId, item);
    if UniqueIds(s.items) && (HasId(s.items, optimisticId) ==> !HasId(s.items, item.id)) {
      ReconcileKeepsUnique(s.items, optimisticId, item);
      var k := ReconcilePosition(s.items, optimisticId, item);
      CountOneUnique(r.items, k);
      FindUnique(r.items, k);
    }
  }

  /** A position at which a reconcile put `x`. */
  lemma ReconcilePosition(items: seq<Item>, id: string, x: Item) returns (k: int)
    ensures 0 <= k < |Reconcile(items, id, x)| && Reconcile(items, id, x)[k] == x
  {
    var r := Reconcile(items, id, x);
    if HasId(items, id) {
      k :| 0 <= k < |items| && items[k].id == id;
    } else if HasId(items, x.id) {
      k :| 0 <= k < |items| && items[k].id == x.id;
    } else {
      InsertFresh(items, x);
      k :| 0 <= k < |r| && r[k] == x;
    }
  }

  /** In a list of unique ids a present id is counted once. */
  lemma {:induction false} CountOneUnique(items: seq<Item>, k: int)
    requires UniqueIds(items) && 0 <= k < |items|
    ensures CountId(items, items[k].id) == 1
  {
    if k == 0 {
      forall m | 0 <= m < |items| - 1 ensures items[1..][m].id != items[0].id {
        assert items[m + 1].id != items[0].id;
      }
      assert !HasId(items[1..], items[0].id);
    } else {
      assert items[1..][k - 1] == items[k];
      CountOneUnique(items[1..], k - 1);
    }
  }

  /** A failed create rolls the placeholder back and records the error. */
  lemma CreateItemFailedRollsBack(s: FeatureState, optimisticId: string, e: StateError)
    ensures var r := Reduce(s, CreateItemFailed(optimisticId, e));
      && !r.loading.creatingItem
      && r.errors.createItem == Some(e)
      && !HasId(r.items, optimisticId)
      && (forall x :: x in r.items <==> x in s.items && x.id != optimisticId)
      && r.selectedItemId == s.selectedItemId
      && r.nextPageCursor == s.nextPageCursor && r.allItemsLoaded == s.allItemsLoaded
  {
  }

  /** An update changes only the target's name and status, as given, and
      bumps its localVersion by exactly one. */
  lemma UpdateItemStartedPatchesTarget(s: FeatureState, itemId: string, changes: ItemChanges)
    ensures var r := Reduce(s, UpdateItemStarted(itemId, changes));
      && r.loading.updatingItem && r.errors.updateItem.None?
      && |r.items| == |s.items|
      && (forall k :: 0 <= k < |s.items| && s.items[k].id != itemId ==> r.items[k] == s.items[k])
      && (forall k :: 0 <= k < |s.items| && s.items[k].id == itemId ==>
            && r.items[k].id == itemId
            && r.items[k].name == (if changes.name.Some? then changes.name.value else s.items[k].name)
            && r.items[k].status == (if changes.status.Some? then changes.status.value else s.items[k].status)
            && r.items[k].localVersion == s.items[k].localVersion + 1
            && r.items[k].createdAt == s.items[k].createdAt
            && r.items[k].updatedAt == s.items[k].updatedAt)
      && r.selectedItemId == s.selectedItemId
      && r.nextPageCursor == s.nextPageCursor && r.allItemsLoaded == s.allItemsLoaded
  {
  }

  /** A confirmed update replaces the item with the server's version. */
  lemma UpdateItemSucceededReconciles(s: FeatureState, item: Item)
    requires UniqueIds(s.items) && HasId(s.items, item.id)
    ensures var r := Reduce(s, UpdateItemSucceeded(item));
      && !r.loading.updatingItem
      && Find(r.items, item.id) == Some(item)
      && UniqueIds(r.items)
      && |r.items| == |s.items|
      && (forall k {:trigger r.items[k]} :: 0 <= k < |s.items| && s.items[k].id != item.id ==> r.items[k] == s.items[k])
      && r.errors == s.errors && r.selectedItemId == s.selectedItemId
      && r.nextPageCursor == s.nextPageCursor && r.allItemsLoaded == s.allItemsLoaded
  {
    var r := Reduce(s, UpdateItemSucceeded(item));
    var k :| 0 <= k < |s.items| && s.items[k].id == item.id;
    SameIds(s.items, r.items);
    FindUnique(r.items, k);
  }

  /** A failed update puts the pre-image back exactly and records the error,
      also when a reload dropped the item in between. When the item was
      still listed every other item keeps its place; otherwise every item is
      kept and the pre-image is inserted by createdAt. */
  lemma UpdateItemFailedRollsBack(s: FeatureState, itemId: string, previousItem: Item, e: StateError)
    requires previousItem.id == itemId
    ensures var r := Reduce(s, UpdateItemFailed(itemId, previousItem, e));
      && !r.loading.updatingItem
      && r.errors.updateItem == Some(e)
      && Find(r.items, itemId) == Some(previousItem)
      && (HasId(s.items, itemId) ==>
            |r.items| == |s.items| &&
            forall k :: 0 <= k < |s.items| && s.items[k].id != itemId ==> r.items[k] == s.items[k])
      && (forall y :: y in s.items && y.id != itemId ==> y in r.items)
      && r.selectedItemId == s.selectedItemId
      && r.nextPageCursor == s.nextPageCursor && r.allItemsLoaded == s.allItemsLoaded
  {
    ReconcileFinds(s.items, itemId, previousItem);
    ReconcileKeepsOthers(s.items, itemId, previousItem);
  }

  /** Starting an update and then failing it with the item as it was before
      gives back the original list exactly. */
  lemma UpdateRollbackRoundTrip(s: FeatureState, itemId: string, changes: ItemChanges, e: StateError)
    requires UniqueIds(s.items) && HasId(s.items, itemId)
    ensures var previous := Find(s.items, itemId).value;
      Reduce(Reduce(s, UpdateItemStarted(itemId, changes)), UpdateItemFailed(itemId, previous, e)).items == s.items
  {
    var previous := Find(s.items, itemId).value;
    var s1 := Reduce(s, UpdateItemStarted(itemId, changes));
    var r := Reduce(s1, UpdateItemFailed(itemId, previous, e));
    UpdateStartedItems(s, itemId, changes);
    UpdateFailedItems(s1, itemId, previous, e);
    var j :| 0 <= j < |s.items| && s.items[j].id == itemId;
    assert s1.items[j].id == itemId;
    assert r.items == Replace(s1.items, itemId, previous);
    forall k | 0 <= k < |s.items| ensures r.items[k] == s.items[k] {
      if s.items[k].id == itemId {
        FindUnique(s.items, k);
      }
    }
  }

  /** A delete removes the item at once, clears the selection exactly when it
      named that item, and leaves pagination alone. */
  lemma DeleteItemStartedRemoves(s: FeatureState, itemId: string)
    ensures var r := Reduce(s, DeleteItemStarted(itemId));
      && r.loading.deletingItem && r.errors.deleteItem.None?
      && !HasId(r.items, itemId)
      && (forall x :: x in r.items <==> x in s.items && x.id != itemId)
      && (r.selectedItemId.None? <==> s.selectedItemId.None? || s.selectedItemId == Some(itemId))
      && (s.selectedItemId != Some(itemId) ==> r.selectedItemId == s.selectedItemId)
      && r.nextPageCursor == s.nextPageCursor && r.allItemsLoaded == s.allItemsLoaded
  {
  }

  /** A confirmed delete keeps the item removed. */
  lemma DeleteItemSucceededConfirms(s: FeatureState, itemId: string)
    ensures var r := Reduce(s, DeleteItemSucceeded(itemId));
      && !r.loading.deletingItem
      && !HasId(r.items, itemId)
      && (forall x {:trigger x in r.items} :: x in r.items <==> x in s.items && x.id != itemId)
      && r.selectedItemId == Deselect(s.selectedItemId, itemId)
      && r.errors == s.errors
      && r.nextPageCursor == s.nextPageCursor && r.allItemsLoaded == s.allItemsLoaded
  {
  }

  /** A failed delete restores the pre-image exactly and records the error. */
  lemma DeleteItemFailedRestores(s: FeatureState, itemId: string, previousItem: Item, e: StateError)
    requires previousItem.id == itemId
    ensures var r := Reduce(s, DeleteItemFailed(itemId, previousItem, e));
      && !r.loading.deletingItem
      && r.errors.deleteItem == Some(e)
      && Find(r.items, itemId) == Some(previousItem)
      && multiset(r.items) == multiset(Without(s.items, itemId)) + multiset{previousItem}
      && (SortedByCreatedAt(s.items) ==> SortedByCreatedAt(r.items))
      && r.selectedItemId == s.selectedItemId
      && r.nextPageCursor == s.nextPageCursor && r.allItemsLoaded == s.allItemsLoaded
  {
    DeleteFailedItems(s, itemId, previousItem, e);
    RestoreFindsPreImage(s.items, itemId, previousItem);
  }

  /** After a restore the id names exactly the pre-image, and a sorted list
      stays sorted. */
  lemma RestoreFindsPreImage(items: seq<Item>, id: string, previous: Item)
    requires previous.id == id
    ensures Find(Restore(items, id, previous), id) == Some(previous)
    ensures SortedByCreatedAt(items) ==> SortedByCreatedAt(Restore(items, id, previous))
  {
    var w := Without(items, id);
    InsertFresh(w, previous);
    var f := Find(Restore(items, id, previous), id);
    assert f.Some?;
    assert f.value in multiset(w) + multiset{previous};
    assert f.value !in w;
    WithoutSorted(items, id);
  }

  lemma {:induction false} WithoutSorted(items: seq<Item>, id: string)
    ensures SortedByCreatedAt(items) ==> SortedByCreatedAt(Without(items, id))
  {
    if items != [] && SortedByCreatedAt(items) {
      var rest := Without(items[1..], id);
      assert SortedByCreatedAt(items[1..]);
      WithoutSorted(items[1..], id);
      if items[0].id != id {
        forall y | y in rest ensures items[0].createdAt >= y.createdAt {
          var m :| 0 <= m < |items[1..]| && items[1..][m] == y;
          assert items[m + 1] == y;
        }
        ConsSorted(items[0], rest);
      }
    }
  }

  lemma ConsSorted(x: Item, rest: seq<Item>)
    requires SortedByCreatedAt(rest)
    requires forall y :: y in rest ==> x.createdAt >= y.createdAt
    ensures SortedByCreatedAt([x] + rest)
  {
    var r := [x] + rest;
    forall i, j | 0 <= i < j < |r| ensures r[i].createdAt >= r[j].createdAt {
      assert r[j] == rest[j - 1];
      if i > 0 { assert r[i] == rest[i - 1]; }
    }
  }

  /** Starting a delete and then failing it with the removed item gives back
      the same items (the pre-image returns to its createdAt position). */
  lemma DeleteRollbackRoundTrip(s: FeatureState, itemId: string, e: StateError)
    requires UniqueIds(s.items) && HasId(s.items, itemId)
    ensures var previous := Find(s.items, itemId).value;
      multiset(Reduce(Reduce(s, DeleteItemStarted(itemId)), DeleteItemFailed(itemId, previous, e)).items)
        == multiset(s.items)
  {
    var k :| 0 <= k < |s.items| && s.items[k].id == itemId;
    FindUnique(s.items, k);
    DeleteThenRestoreItems(s, itemId, s.items[k], e);
    RemoveRestoreItems(s.items, k);
  }

  lemma DeleteThenRestoreItems(s: FeatureState, itemId: string, previous: Item, e: StateError)
    ensures Reduce(Reduce(s, DeleteItemStarted(itemId)), DeleteItemFailed(itemId, previous, e)).items
              == Restore(Without(s.items, itemId), itemId, previous)
  {
    var s1 := Reduce(s, DeleteItemStarted(itemId));
    DeleteStartedItems(s, itemId);
    DeleteFailedItems(s1, itemId, previous, e);
  }

  lemma DeleteStartedItems(s: FeatureState, itemId: string)
    ensures Reduce(s, DeleteItemStarted(itemId)).items == Without(s.items, itemId)
  {
  }

  lemma UpdateStartedItems(s: FeatureState, itemId: string, changes: ItemChanges)
    ensures Reduce(s, UpdateItemStarted(itemId, changes)).items == Patch(s.items, itemId, changes)
  {
  }

  lemma UpdateFailedItems(s: FeatureState, itemId: string, previous: Item, e: StateError)
    ensures Reduce(s, UpdateItemFailed(itemId, previous, e)).items == Reconcile(s.items, itemId, previous)
  {
  }

  lemma DeleteFailedItems(s: FeatureState, itemId: string, previous: Item, e: StateError)
    ensures Reduce(s, DeleteItemFailed(itemId, previous, e)).items == Restore(s.items, itemId, previous)
  {
  }

  lemma RemoveRestoreItems(items: seq<Item>, k: int)
    requires UniqueIds(items) && 0 <= k < |items|
    ensures multiset(Restore(Without(items, items[k].id), items[k].id, items[k])) == multiset(items)
  {
    var w := Without(items, items[k].id);
    WithoutAbsent(w, items[k].id);
    WithoutUnique(items, k);
  }

  /** Selecting an id selects it exactly when it names an item; otherwise
      nothing changes. Neither selection action touches the loading flags. */
  lemma SelectionActions(s: FeatureState, itemId: string)
    ensures var r := Reduce(s, ItemSelected(itemId));
      && (HasId(s.items, itemId) ==> r == s.(selectedItemId := Some(itemId)))
      && (!HasId(s.items, itemId) ==> r == s)
    ensures Reduce(s, ItemDeselected) == s.(selectedItemId := None)
  {
  }

  /** Mutations and selection never touch pagination. */
  predicate IsMutationOrSelection(a: Action) {
    !(a.FetchItemsStarted? || a.FetchItemsSucceeded? || a.FetchItemsFailed? || a.Reset?)
  }

  lemma MutationsKeepPagination(s: FeatureState, a: Action)
    requires IsMutationOrSelection(a)
    ensures Reduce(s, a).nextPageCursor == s.nextPageCursor
    ensures Reduce(s, a).allItemsLoaded == s.allItemsLoaded
    ensures Reduce(s, a).lastFetchedAt == s.lastFetchedAt
  {
  }

  // ---------------------------------------------------------------------------
  // Invariants
  // ---------------------------------------------------------------------------

  /** What an action's payload must satisfy for the state invariants to
      survive it. The transitions keep the selection and replace items by id
      exactly as written, so: a fetched page must hold the selected item; an
      optimistic id must be new; a server item swapped for a listed
      placeholder must not clash with another item; a selected placeholder may only be swapped for an item with the
      same id or removed while unselected; a pre-image must carry the id it
      restores. */
  predicate Applicable(s: FeatureState, a: Action) {
    match a
    case FetchItemsSucceeded(page, _, _) =>
      UniqueIds(page) && (s.selectedItemId.Some? ==> HasId(page, s.selectedItemId.value))
    case CreateItemStarted(optimisticId, _) => !HasId(s.items, optimisticId)
    case CreateItemSucceeded(optimisticId, item) =>
      && (HasId(s.items, optimisticId) ==> item.id == optimisticId || !HasId(s.items, item.id))
      && (s.selectedItemId == Some(optimisticId) ==> item.id == optimisticId)
    case CreateItemFailed(optimisticId, _) => s.selectedItemId != Some(optimisticId)
    case UpdateItemFailed(itemId, previousItem, _) => previousItem.id == itemId
    case DeleteItemFailed(itemId, previousItem, _) => previousItem.id == itemId
    case _ => true
  }

  /** Every transition whose payload is applicable keeps the state invariants. */
  lemma ReducePreservesValid(s: FeatureState, a: Action)
    requires Valid(s) && Applicable(s, a)
    ensures Valid(Reduce(s, a))
  {
    if a.CreateItemStarted? || a.CreateItemSucceeded? || a.CreateItemFailed? {
      CreateKeepsValid(s, a);
    } else if a.UpdateItemStarted? || a.UpdateItemSucceeded? || a.UpdateItemFailed? {
      UpdateKeepsValid(s, a);
    } else if a.DeleteItemFailed? {
      DeleteFailedKeepsValid(s, a.itemId, a.previousItem, a.error);
    } else {
      OtherKeepValid(s, a);
    }
  }

  lemma CreateKeepsValid(s: FeatureState, a: Action)
    requires Valid(s) && Applicable(s, a)
    requires a.CreateItemStarted? || a.CreateItemSucceeded? || a.CreateItemFailed?
    ensures Valid(Reduce(s, a))
  {
    if a.CreateItemStarted? {
      AppendFresh(s.items, OptimisticItem(a.optimisticId, a.name));
    } else if a.CreateItemSucceeded? {
      ReconcileKeepsUnique(s.items, a.optimisticId, a.item);
      ReconcilePlacesItem(s.items, a.optimisticId, a.item);
      ReconcileKeepsOthers(s.items, a.optimisticId, a.item);
    }
  }

  lemma UpdateKeepsValid(s: FeatureState, a: Action)
    requires Valid(s) && Applicable(s, a)
    requires a.UpdateItemStarted? || a.UpdateItemSucceeded? || a.UpdateItemFailed?
    ensures Valid(Reduce(s, a))
  {
    if a.UpdateItemFailed? {
      ReconcileKeepsUnique(s.items, a.itemId, a.previousItem);
      ReconcilePlacesItem(s.items, a.itemId, a.previousItem);
      ReconcileKeepsOthers(s.items, a.itemId, a.previousItem);
    } else {
      SameIds(s.items, Reduce(s, a).items);
    }
  }

  lemma DeleteFailedKeepsValid(s: FeatureState, itemId: string, previousItem: Item, e: StateError)
    requires previousItem.id == itemId
    requires Valid(s)
    ensures Valid(Reduce(s, DeleteItemFailed(itemId, previousItem, e)))
  {
    DeleteFailedItems(s, itemId, previousItem, e);
    var r := Restore(s.items, itemId, previousItem);
    InsertFresh(Without(s.items, itemId), previousItem);
    if s.selectedItemId == Some(itemId) {
      var m :| 0 <= m < |r| && r[m] == previousItem;
    }
  }

  lemma OtherKeepValid(s: FeatureState, a: Action)
    requires Valid(s) && Applicable(s, a)
    requires !(a.CreateItemStarted? || a.CreateItemSucceeded? || a.CreateItemFailed?)
    requires !(a.UpdateItemStarted? || a.UpdateItemSucceeded? || a.UpdateItemFailed? || a.DeleteItemFailed?)
    ensures Valid(Reduce(s, a))
  {
  }

  /** Replacing the items of one id by an item that clashes with no other id
      keeps ids unique. */
  lemma ReplaceKeepsUnique(items: seq<Item>, id: string, x: Item)
    requires UniqueIds(items)
    requires x.id == id || !HasId(items, x.id)
    ensures UniqueIds(Replace(items, id, x))
  {
    var r := Replace(items, id, x);
    forall i, j | 0 <= i < j < |r| ensures r[i].id != r[j].id {
      if items[i].id == id && items[j].id != id {
        assert items[j].id != x.id;
      } else if items[i].id != id && items[j].id == id {
        assert items[i].id != x.id;
      }
    }
  }

  /** Without the applicability condition a fetch can orphan the selection. */
  lemma FetchCanOrphanSelection()
    ensures var s := INITIAL.(items := [Item("a", "A", Active, 1, 1, 0)], selectedItemId := Some("a"));
      Valid(s) && !Valid(Reduce(s, FetchItemsSucceeded([], None, 2)))
  {
    var s := INITIAL.(items := [Item("a", "A", Active, 1, 1, 0)], selectedItemId := Some("a"));
    assert s.items[0].id == "a";
  }

  /** The create transitions keep the selection as written, so a selected
      placeholder is left dangling both when the create fails and when the
      server confirms it under a new id. */
  lemma SelectedPlaceholderCanBeOrphaned()
    ensures var s := INITIAL.(items := [OptimisticItem("tmp-1", "A")], selectedItemId := Some("tmp-1"));
      && Valid(s)
      && !Valid(Reduce(s, CreateItemFailed("tmp-1", ErrorRecord(NetworkOffline, "offline", 2, None))))
      && !Valid(Reduce(s, CreateItemSucceeded("tmp-1", Item("srv-1", "A", Active, 2, 2, 0))))
  {
    var s := INITIAL.(items := [OptimisticItem("tmp-1", "A")], selectedItemId := Some("tmp-1"));
    assert s.items[0].id == "tmp-1";
    var confirmed := Reduce(s, CreateItemSucceeded("tmp-1", Item("srv-1", "A", Active, 2, 2, 0)));
    assert confirmed.items[0].id == "srv-1";
  }

  /** A rollback re-inserts its pre-image whatever removed the item, so an
      update that fails after a delete of the same id was confirmed brings
      the deleted item back. */
  lemma FailedUpdateRevivesDeletedItem()
    ensures var previous := Item("a", "A", Active, 1, 1, 0);
      var s0 := INITIAL.(items := [Item("a", "Renamed", Active, 1, 1, 1)], loading := IDLE.(updatingItem := true));
      var s1 := Reduce(Reduce(s0, DeleteItemStarted("a")), DeleteItemSucceeded("a"));
      var s2 := Reduce(s1, UpdateItemFailed("a", previous, ErrorRecord(ResourceNotFound, "gone", 3, None)));
      && !HasId(s1.items, "a")
      && s2.items == [previous]
  {
    var s0 := INITIAL.(items := [Item("a", "Renamed", Active, 1, 1, 1)], loading := IDLE.(updatingItem := true));
    var s1 := Reduce(Reduce(s0, DeleteItemStarted("a")), DeleteItemSucceeded("a"));
    assert s0.items[0].id == "a";
    assert s1.items == [];
  }

  /** Pagination after the first fetch: "all loaded" and "no cursor" coincide
      in every state reached from one where they did, whatever the action.
      Before the first fetch they need not: the initial state has no cursor
      and is not fully loaded. */
  lemma ReducePreservesFetchedPagination(s: FeatureState, a: Action)
    requires FetchedPagination(s)
    ensures FetchedPagination(Reduce(s, a))
  {
  }

  lemma InitialState()
    ensures Valid(INITIAL) && FetchedPagination(INITIAL)
    ensures INITIAL.nextPageCursor.None? && !INITIAL.allItemsLoaded
  {
  }

  /** No action of the union fetches a single item, so its flag and slot stay
      empty in every reachable state. */
  predicate NoSingleItemFetch(s: FeatureState) {
    !s.loading.fetchingItem && s.errors.fetchItem.None?
  }

  lemma ReducePreservesNoSingleItemFetch(s: FeatureState, a: Action)
    requires NoSingleItemFetch(s)
    ensures NoSingleItemFetch(Reduce(s, a))
  {
  }

  // ---------------------------------------------------------------------------
  // Selectors
  // ---------------------------------------------------------------------------

  /** With unique ids the selector finds exactly the item the selection names. */
  lemma SelectedItemIsTheNamedOne(s: FeatureState, x: Item)
    requires Valid(s) && s.selectedItemId.Some?
    ensures SelectSelectedItem(s) == Some(x) <==> x in s.items && x.id == s.selectedItemId.value
  {
    if x in s.items && x.id == s.selectedItemId.value {
      var k :| 0 <= k < |s.items| && s.items[k] == x;
      FindUnique(s.items, k);
    }
  }

  /** The list is ready right after a successful fetch and not while a fetch
      is running; after a failed fetch it is ready exactly when an earlier
      fetch had succeeded, whatever the error. */
  lemma ReadinessAroundFetch(s: FeatureState, page: seq<Item>, cursor: Option<string>, fetchedAt: Timestamp,
                             e: StateError)
    ensures !SelectIsItemListReady(Reduce(s, FetchItemsStarted))
    ensures SelectIsItemListReady(Reduce(s, FetchItemsSucceeded(page, cursor, fetchedAt)))
    ensures SelectIsItemListReady(Reduce(s, FetchItemsFailed(e))) <==> s.lastFetchedAt.Some?
  {
  }

  /** A failed fetch whose error is no older than any error already held is
      the latest error itself: the fetch slot comes first, and ties go to the
      earliest slot. */
  lemma LatestErrorAfterFailure(s: FeatureState, e: StateError)
    requires forall k :: 0 <= k < 5 && ErrorList(s.errors)[k].Some? ==> ErrorList(s.errors)[k].value.occurredAt <= e.occurredAt
    ensures SelectLatestError(Reduce(s, FetchItemsFailed(e))) == Some(e)
  {
    var l := ErrorList(Reduce(s, FetchItemsFailed(e)).errors);
    assert l[0] == Some(e);
    var rest := Latest(l[1..]);
    if rest.Some? {
      var k :| 0 <= k < |l[1..]| && l[1..][k] == rest;
      assert l[k + 1] == ErrorList(s.errors)[k + 1];
    }
  }
}
