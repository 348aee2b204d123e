/** The feature's state snapshot, the closed union of actions that change it,
    the transition engine (`Reduce`) that maps a snapshot and an action to the
    next snapshot, the state invariants, and the derived-state selectors. */
module State {
  import opened Common
  import opened Errors

  /** ISO-8601 timestamps, abstracted to naturals ordered by time. */
  type Timestamp = nat

  datatype ItemStatus = Pending | Active | Completed | Failed | Archived

  /** One resource of the list. `localVersion` counts optimistic writes. */
  datatype Item = Item(id: string, name: string, status: ItemStatus,
                       createdAt: Timestamp, updatedAt: Timestamp, localVersion: nat)

  /** An error held in a state slot has the registry's payload fields. */
  type StateError = ErrorRecord

  /** One flag per asynchronous operation: true while it is in flight. */
  datatype Loading = Loading(fetchingItems: bool, fetchingItem: bool, creatingItem: bool,
                             updatingItem: bool, deletingItem: bool)

  /** One slot per asynchronous operation: the error of its last failed attempt. */
  datatype ErrorSlots = ErrorSlots(fetchItems: Option<StateError>, fetchItem: Option<StateError>,
                                   createItem: Option<StateError>, updateItem: Option<StateError>,
                                   deleteItem: Option<StateError>)

  datatype FeatureState = FeatureState(
    items: seq<Item>,
    selectedItemId: Option<string>,
    loading: Loading,
    errors: ErrorSlots,
    nextPageCursor: Option<string>,
    allItemsLoaded: bool,
    lastFetchedAt: Option<Timestamp>)

  const IDLE: Loading := Loading(false, false, false, false, false)
  const NO_ERRORS: ErrorSlots := ErrorSlots(None, None, None, None, None)

  /** The canonical starting snapshot, and the target of a reset. */
  const INITIAL: FeatureState := FeatureState([], None, IDLE, NO_ERRORS, None, false, None)

  /** The partial change an update applies: only name and status may change. */
  datatype ItemChanges = ItemChanges(name: Option<string>, status: Option<ItemStatus>)

  /** Every action that can change the state. */
  datatype Action =
    | FetchItemsStarted
    | FetchItemsSucceeded(page: seq<Item>, cursor: Option<string>, fetchedAt: Timestamp)
    | FetchItemsFailed(error: StateError)
    | CreateItemStarted(optimisticId: string, name: string)
    | CreateItemSucceeded(optimisticId: string, item: Item)
    | CreateItemFailed(optimisticId: string, error: StateError)
    | UpdateItemStarted(itemId: string, changes: ItemChanges)
    | UpdateItemSucceeded(item: Item)
    | UpdateItemFailed(itemId: string, previousItem: Item, error: StateError)
    | DeleteItemStarted(itemId: string)
    | DeleteItemSucceeded(itemId: string)
    | DeleteItemFailed(itemId: string, previousItem: Item, error: StateError)
    | ItemSelected(itemId: string)
    | ItemDeselected
    | Reset

  // ---------------------------------------------------------------------------
  // Item lists
  // ---------------------------------------------------------------------------

  predicate HasId(items: seq<Item>, id: string) {
    exists k :: 0 <= k < |items| && items[k].id == id
  }

  predicate UniqueIds(items: seq<Item>) {
    forall i, j :: 0 <= i < j < |items| ==> items[i].id != items[j].id
  }

  /** How many items carry `id`. */
  function CountId(items: seq<Item>, id: string): (n: nat)
    ensures n == 0 <==> !HasId(items, id)
    ensures n <= |items|
  {
    if items == [] then 0
    else
      assert HasId(items, id) <==> items[0].id == id || HasId(items[1..], id) by {
        if HasId(items[1..], id) {
          var k :| 0 <= k < |items[1..]| && items[1..][k].id == id;
          assert items[k + 1].id == id;
        }
        if HasId(items, id) && items[0].id != id {
          var k :| 0 <= k < |items| && items[k].id == id;
          assert items[1..][k - 1].id == id;
        }
      }
      (if items[0].id == id then 1 else 0) + CountId(items[1..], id)
  }

  /** The first item carrying `id`, if any. */
  function Find(items: seq<Item>, id: string): (r: Option<Item>)
    ensures r.Some? ==> r.value in items && r.value.id == id
    ensures r.None? <==> !HasId(items, id)
  {
    if items == [] then None
    else if items[0].id == id then Some(items[0])
    else
      assert HasId(items, id) ==> HasId(items[1..], id) by {
        if HasId(items, id) {
          var k :| 0 <= k < |items| && items[k].id == id;
          assert items[1..][k - 1].id == id;
        }
      }
      Find(items[1..], id)
  }

  /** The list with every item carrying `id` removed, order kept. */
  function Without(items: seq<Item>, id: string): (r: seq<Item>)
    ensures !HasId(r, id)
    ensures forall x {:trigger x in r} :: x in r <==> x in items && x.id != id
    ensures UniqueIds(items) ==> UniqueIds(r)
    ensures forall other {:trigger HasId(r, other)} :: HasId(r, other) <==> HasId(items, other) && other != id
  {
    if items == [] then []
    else
      var rest := Without(items[1..], id);
      HasIdCons(items, id);
      forall other ensures HasId(items, other) <==> items[0].id == other || HasId(items[1..], other) {
        HasIdCons(items, other);
      }
      assert forall x :: x in items <==> x == items[0] || x in items[1..];
      if items[0].id == id then rest
      else
        assert UniqueIds(items) ==> !HasId(items[1..], items[0].id);
        var r := [items[0]] + rest;
        forall other ensures HasId(r, other) <==> items[0].id == other || HasId(rest, other) {
          HasIdCons(r, other);
          assert r[1..] == rest;
        }
        assert forall x :: x in r <==> x == items[0] || x in rest;
        assert UniqueIds(items) ==> !HasId(rest, items[0].id);
        if UniqueIds(items) then ConsUnique(items[0], rest); r else r
  }

  /** Putting an item with a fresh id in front keeps the ids distinct. */
  lemma ConsUnique(x: Item, rest: seq<Item>)
    requires UniqueIds(rest) && !HasId(rest, x.id)
    ensures UniqueIds([x] + rest)
  {
    var r := [x] + rest;
    forall i, j | 0 <= i < j < |r| ensures r[i].id != r[j].id {
      assert r[j] == rest[j - 1];
      if i > 0 { assert r[i] == rest[i - 1]; }
    }
  }

  /** Membership of an id in a non-empty list splits on its head. */
  lemma HasIdCons(items: seq<Item>, id: string)
    requires items != []
    ensures HasId(items, id) <==> items[0].id == id || HasId(items[1..], id)
  {
    if HasId(items[1..], id) {
      var k :| 0 <= k < |items[1..]| && items[1..][k].id == id;
      assert items[k + 1].id == id;
    }
    if HasId(items, id) && items[0].id != id {
      var k :| 0 <= k < |items| && items[k].id == id;
      assert items[1..][k - 1].id == id;
    }
  }

  /** Every item carrying `id` replaced by `x`, in place. */
  function Replace(items: seq<Item>, id: string, x: Item): seq<Item> {
    seq(|items|, k requires 0 <= k < |items| => if items[k].id == id then x else items[k])
  }

  /** An item with an update's changes applied and its version bumped. */
  function Patched(it: Item, changes: ItemChanges): Item {
    it.(name := changes.name.GetOr(it.name),
        status := changes.status.GetOr(it.status),
        localVersion := it.localVersion + 1)
  }

  /** Every item carrying `id` patched with `changes`, in place. */
  function Patch(items: seq<Item>, id: string, changes: ItemChanges): seq<Item> {
    seq(|items|, k requires 0 <= k < |items| => if items[k].id == id then Patched(items[k], changes) else items[k])
  }

  /** Newest first: createdAt never increases along the list. */
  predicate SortedByCreatedAt(items: seq<Item>) {
    forall i, j :: 0 <= i < j < |items| ==> items[i].createdAt >= items[j].createdAt
  }

  /** `x` inserted before the first item that is strictly older than it. */
  function InsertByCreatedAt(items: seq<Item>, x: Item): (r: seq<Item>)
    ensures multiset(r) == multiset(items) + multiset{x}
    ensures |r| == |items| + 1
    ensures SortedByCreatedAt(items) ==> SortedByCreatedAt(r)
  {
    if items == [] then [x]
    else if items[0].createdAt < x.createdAt then [x] + items
    else
      var rest := InsertByCreatedAt(items[1..], x);
      assert items == [items[0]] + items[1..];
      InsertKeepsHeadFirst(items, x, rest);
      [items[0]] + rest
  }

  /** The step of `InsertByCreatedAt` that keeps a sorted list sorted: the
      head stays in front of everything the recursive call returns. */
  lemma InsertKeepsHeadFirst(items: seq<Item>, x: Item, rest: seq<Item>)
    requires items != [] && x.createdAt <= items[0].createdAt
    requires multiset(rest) == multiset(items[1..]) + multiset{x}
    requires SortedByCreatedAt(items) ==> SortedByCreatedAt(rest)
    ensures SortedByCreatedAt(items) ==> SortedByCreatedAt([items[0]] + rest)
  {
    if SortedByCreatedAt(items) {
      var r := [items[0]] + rest;
      forall j | 0 <= j < |rest| ensures items[0].createdAt >= rest[j].createdAt {
        assert rest[j] in multiset(rest);
        if rest[j] != x {
          assert rest[j] in multiset(items[1..]);
          var m :| 0 <= m < |items[1..]| && items[1..][m] == rest[j];
          assert items[m + 1] == rest[j];
        }
      }
      forall i, j | 0 <= i < j < |r| ensures r[i].createdAt >= r[j].createdAt {
        if i == 0 {
          assert r[j] == rest[j - 1];
        } else {
          assert r[i] == rest[i - 1] && r[j] == rest[j - 1];
        }
      }
    }
  }

  /** The list ordered newest first, by insertion. Each item goes behind the
      items already placed with the same createdAt, so items with equal
      createdAt come out in the reverse of their input order. */
  function SortByCreatedAt(items: seq<Item>): (r: seq<Item>)
    ensures SortedByCreatedAt(r)
    ensures multiset(r) == multiset(items)
  {
    if items == [] then []
    else
      assert items == [items[0]] + items[1..];
      InsertByCreatedAt(SortByCreatedAt(items[1..]), items[0])
  }

  /** The server's or the saved version `x` of the item listed under `id`,
      in that item's place. When `id` is no longer listed (a reload
      replaced the list in between), `x` is merged in by its own id: it
      takes the place of a copy already listed, or is inserted by createdAt. */
  function Reconcile(items: seq<Item>, id: string, x: Item): seq<Item> {
    if HasId(items, id) then Replace(items, id, x)
    else if HasId(items, x.id) then Replace(items, x.id, x)
    else InsertByCreatedAt(items, x)
  }

  /** The rollback of a delete: any item with `id` removed, then the
      pre-image put back at its createdAt position. */
  function Restore(items: seq<Item>, id: string, previous: Item): seq<Item> {
    InsertByCreatedAt(Without(items, id), previous)
  }

  /** The placeholder a create adds before the server answers. The action
      carries no timestamps, so both are 0. */
  function OptimisticItem(optimisticId: string, name: string): Item {
    Item(optimisticId, name, Pending, 0, 0, 0)
  }

  /** Clears a selection that names `id`. */
  function Deselect(selected: Option<string>, id: string): Option<string> {
    if selected == Some(id) then None else selected
  }

  // ---------------------------------------------------------------------------
  // The transition engine
  // ---------------------------------------------------------------------------

  /** The next snapshot after `a`. Total: every action of the union is handled. */
  function Reduce(s: FeatureState, a: Action): FeatureState {
    match a
    case FetchItemsStarted =>
      s.(loading := s.loading.(fetchingItems := true),
         errors := s.errors.(fetchItems := None))
    case FetchItemsSucceeded(page, cursor, fetchedAt) =>
      s.(loading := s.loading.(fetchingItems := false),
         items := page,
         nextPageCursor := cursor,
         allItemsLoaded := cursor.None?,
         lastFetchedAt := Some(fetchedAt))
    case FetchItemsFailed(e) =>
      s.(loading := s.loading.(fetchingItems := false),
         errors := s.errors.(fetchItems := Some(e)))
    case CreateItemStarted(optimisticId, name) =>
      s.(loading := s.loading.(creatingItem := true),
         errors := s.errors.(createItem := None),
         items := s.items + [OptimisticItem(optimisticId, name)])
    case CreateItemSucceeded(optimisticId, item) =>
      s.(loading := s.loading.(creatingItem := false),
         items := Reconcile(s.items, optimisticId, item))
    case CreateItemFailed(optimisticId, e) =>
      s.(loading := s.loading.(creatingItem := false),
         errors := s.errors.(createItem := Some(e)),
         items := Without(s.items, optimisticId))
    case UpdateItemStarted(itemId, changes) =>
      s.(loading := s.loading.(updatingItem := true),
         errors := s.errors.(updateItem := None),
         items := Patch(s.items, itemId, changes))
    case UpdateItemSucceeded(item) =>
      s.(loading := s.loading.(updatingItem := false),
         items := Replace(s.items, item.id, item))
    case UpdateItemFailed(itemId, previousItem, e) =>
      s.(loading := s.loading.(updatingItem := false),
         errors := s.errors.(updateItem := Some(e)),
         items := Reconcile(s.items, itemId, previousItem))
    case DeleteItemStarted(itemId) =>
      s.(loading := s.loading.(deletingItem := true),
         errors := s.errors.(deleteItem := None),
         items := Without(s.items, itemId),
         selectedItemId := Deselect(s.selectedItemId, itemId))
    case DeleteItemSucceeded(itemId) =>
      s.(loading := s.loading.(deletingItem := false),
         items := Without(s.items, itemId),
         selectedItemId := Deselect(s.selectedItemId, itemId))
    case DeleteItemFailed(itemId, previousItem, e) =>
      s.(loading := s.loading.(deletingItem := false),
         errors := s.errors.(deleteItem := Some(e)),
         items := Restore(s.items, itemId, previousItem))
    case ItemSelected(itemId) =>
      if HasId(s.items, itemId) then s.(selectedItemId := Some(itemId)) else s
    case ItemDeselected =>
      s.(selectedItemId := None)
    case Reset =>
      INITIAL
  }

  // ---------------------------------------------------------------------------
  // State invariants
  // ---------------------------------------------------------------------------

  /** The state invariants: item ids are unique, a selection names an item of
      the list, and a list marked fully loaded has no cursor. (Non-null items,
      boolean flags, optional error slots and non-negative versions are
      guaranteed by the types.) */
  predicate Valid(s: FeatureState) {
    && UniqueIds(s.items)
    && (s.selectedItemId.Some? ==> HasId(s.items, s.selectedItemId.value))
    && (s.allItemsLoaded ==> s.nextPageCursor.None?)
  }

  /** Once the list has been fetched, "all loaded" and "no cursor" coincide. */
  predicate FetchedPagination(s: FeatureState) {
    s.lastFetchedAt.Some? ==> (s.allItemsLoaded <==> s.nextPageCursor.None?)
  }

  // ---------------------------------------------------------------------------
  // Selectors
  // ---------------------------------------------------------------------------

  /** The selected item, or `None` when nothing is selected or the selected
      id names no item of the list. */
  function SelectSelectedItem(s: FeatureState): (r: Option<Item>)
    ensures r.Some? ==> s.selectedItemId == Some(r.value.id) && r.value in s.items
    ensures r.None? <==> s.selectedItemId.None? || !HasId(s.items, s.selectedItemId.value)
  {
    match s.selectedItemId
    case None => None
    case Some(id) => Find(s.items, id)
  }

  /** The items with status `status`, in list order; empty when none match. */
  function SelectItemsByStatus(s: FeatureState, status: ItemStatus): (r: seq<Item>)
    ensures forall x :: x in r <==> x in s.items && x.status == status
    ensures forall x :: multiset(r)[x] == if x.status == status then multiset(s.items)[x] else 0
    ensures Subsequence(r, s.items)
    ensures |r| <= |s.items|
  {
    FilterStatus(s.items, status)
  }

  /** `a` is `b` with some items left out and the rest in their order. */
  predicate Subsequence(a: seq<Item>, b: seq<Item>)
    decreases |b|
  {
    if a == [] then true
    else if b == [] then false
    else (a[0] == b[0] && Subsequence(a[1..], b[1..])) || Subsequence(a, b[1..])
  }

  function FilterStatus(items: seq<Item>, status: ItemStatus): (r: seq<Item>)
    ensures forall x :: x in r <==> x in items && x.status == status
    ensures forall x :: multiset(r)[x] == if x.status == status then multiset(items)[x] else 0
    ensures Subsequence(r, items)
    ensures |r| <= |items|
  {
    if items == [] then []
    else
      assert items == [items[0]] + items[1..];
      var rest := FilterStatus(items[1..], status);
      assert multiset(items) == multiset{items[0]} + multiset(items[1..]);
      if items[0].status == status then
        var r := [items[0]] + rest;
        assert r[0] == items[0] && r[1..] == rest;
        r
      else
        rest
  }

  function AnyLoading(l: Loading): bool {
    l.fetchingItems || l.fetchingItem || l.creatingItem || l.updatingItem || l.deletingItem
  }

  /** True while any asynchronous operation is in flight. */
  function SelectIsAnyOperationLoading(s: FeatureState): bool {
    AnyLoading(s.loading)
  }

  /** The error slots in declaration order. */
  function ErrorList(e: ErrorSlots): seq<Option<StateError>> {
    [e.fetchItems, e.fetchItem, e.createItem, e.updateItem, e.deleteItem]
  }

  /** The later of two optional errors; on a tie the first wins. */
  function Later(a: Option<StateError>, b: Option<StateError>): Option<StateError> {
    if a.None? then b
    else if b.None? then a
    else if a.value.occurredAt >= b.value.occurredAt then a
    else b
  }

  /** The non-empty slot with the latest occurredAt (earliest slot on a tie),
      or `None` when every slot is empty. */
  function Latest(slots: seq<Option<StateError>>): (r: Option<StateError>)
    ensures r.None? <==> forall k :: 0 <= k < |slots| ==> slots[k].None?
    ensures r.Some? ==> r in slots
    ensures r.Some? ==> forall k :: 0 <= k < |slots| && slots[k].Some? ==>
                                     slots[k].value.occurredAt <= r.value.occurredAt
  {
    if slots == [] then None
    else
      var rest := Latest(slots[1..]);
      assert forall k :: 1 <= k < |slots| ==> slots[k] == slots[1..][k - 1];
      Later(slots[0], rest)
  }

  /** The most recently occurred error across all slots, or `None`. */
  function SelectLatestError(s: FeatureState): Option<StateError> {
    Latest(ErrorList(s.errors))
  }

  /** True once the list has been fetched successfully and while it is not
      being fetched again. */
  function SelectIsItemListReady(s: FeatureState): bool {
    s.lastFetchedAt.Some? && !s.loading.fetchingItems
  }
}
