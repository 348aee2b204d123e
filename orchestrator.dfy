/** The orchestrator: the coordinator layer that holds a state snapshot,
    turns consumer calls into actions of the transition engine, and exposes
    a derived, read-only output. Each asynchronous action is split into a
    start call (set loading, clear the error, apply the optimistic change)
    and a later completion call (reconcile or roll back). A reset bumps a
    generation counter; a completion stamped with an older generation is
    dropped, so nothing started before a reset can change the state after it. */
module Orchestration {
  import opened Common
  import opened Errors
  import opened State
  import opened StateProperties

  // ---------------------------------------------------------------------------
  // Page size
  // ---------------------------------------------------------------------------

  const DEFAULT_PAGE_SIZE: int := 20
  const MIN_PAGE_SIZE: int := 1
  const MAX_PAGE_SIZE: int := 100

  /** The page size in effect: the default when none is given, otherwise the
      requested value clamped silently into [1, 100]. */
  function EffectivePageSize(requested: Option<int>): (n: int)
    ensures MIN_PAGE_SIZE <= n <= MAX_PAGE_SIZE
    ensures requested.None? ==> n == DEFAULT_PAGE_SIZE
    ensures requested.Some? && MIN_PAGE_SIZE <= requested.value <= MAX_PAGE_SIZE ==> n == requested.value
    ensures requested.Some? && requested.value < MIN_PAGE_SIZE ==> n == MIN_PAGE_SIZE
    ensures requested.Some? && requested.value > MAX_PAGE_SIZE ==> n == MAX_PAGE_SIZE
  {
    match requested
    case None => DEFAULT_PAGE_SIZE
    case Some(v) => if v < MIN_PAGE_SIZE then MIN_PAGE_SIZE else if v > MAX_PAGE_SIZE then MAX_PAGE_SIZE else v
  }

  /** Clamping an already effective page size changes nothing. */
  lemma EffectivePageSizeIdempotent(requested: Option<int>)
    ensures EffectivePageSize(Some(EffectivePageSize(requested))) == EffectivePageSize(requested)
  {
  }

  // ---------------------------------------------------------------------------
  // Errors and results
  // ---------------------------------------------------------------------------

  /** The error shape consumers see: decoupled from transport, with the
      automatic-retry verdict of its code. */
  datatype OrchestratorError = OrchestratorError(code: ErrorCode, message: string, occurredAt: Timestamp,
                                                 isRetryable: bool, correlationId: Option<string>)

  /** Every asynchronous action resolves to exactly one of these. */
  datatype OrchestratorResult<T> = Ok(data: T) | Err(error: OrchestratorError)

  /** The consumer view of a state error. */
  function FromStateError(e: StateError): (o: OrchestratorError)
    ensures o.code == e.code && o.message == e.message && o.occurredAt == e.occurredAt
    ensures o.correlationId == e.correlationId
    ensures o.isRetryable <==> RetryEligibilityOf(e.code) == Retryable
  {
    OrchestratorError(e.code, e.message, e.occurredAt, IsAutoRetryable(e.code), e.correlationId)
  }

  /** An error raised before any request is issued: it never reached the
      server, so it has no correlation id. */
  function LocalError(code: ErrorCode, message: string, at: Timestamp): (o: OrchestratorError)
    ensures o.code == code && o.occurredAt == at && o.correlationId.None?
    ensures o.isRetryable <==> RetryEligibilityOf(code) == Retryable
  {
    OrchestratorError(code, message, at, IsAutoRetryable(code), None)
  }

  const INVALID_NAME_MESSAGE := "Name must be 1 to 255 characters and not blank."
  const EMPTY_CHANGES_MESSAGE := "At least one field must be changed."
  const UNKNOWN_ITEM_MESSAGE := "The item does not exist."

  // ---------------------------------------------------------------------------
  // Input validation
  // ---------------------------------------------------------------------------

  const MAX_NAME_LENGTH: int := 255

  /** The characters a string trim removes: the ECMAScript white space and
      line terminators. */
  predicate IsWhitespace(c: char) {
    || c == ' ' || c == '\t' || c == '\n' || c == '\r' || c == '\U{B}' || c == '\U{C}'
    || c == '\U{A0}' || c == '\U{1680}' || ('\U{2000}' <= c <= '\U{200A}')
    || c == '\U{2028}' || c == '\U{2029}' || c == '\U{202F}' || c == '\U{205F}'
    || c == '\U{3000}' || c == '\U{FEFF}'
  }

  predicate IsBlank(s: string) {
    forall k :: 0 <= k < |s| ==> IsWhitespace(s[k])
  }

  /** 1 to 255 characters, and not only white space. */
  predicate ValidName(name: string) {
    1 <= |name| <= MAX_NAME_LENGTH && !IsBlank(name)
  }

  datatype CreateItemParams = CreateItemParams(name: string)

  /** The rejection of a create, or `None` when the parameters are acceptable. */
  function ValidateCreate(params: CreateItemParams, now: Timestamp): (r: Option<OrchestratorError>)
    ensures r.None? <==> ValidName(params.name)
    ensures r.Some? ==> r.value.code == InvalidName && !r.value.isRetryable && r.value.correlationId.None?
  {
    if ValidName(params.name) then None else Some(LocalError(InvalidName, INVALID_NAME_MESSAGE, now))
  }

  /** The rejection of an update, or `None` when the changes are acceptable:
      at least one field, and a valid name when a name is given. */
  function ValidateUpdate(changes: ItemChanges, now: Timestamp): (r: Option<OrchestratorError>)
    ensures r.None? <==> (changes.name.Some? || changes.status.Some?)
                         && (changes.name.Some? ==> ValidName(changes.name.value))
    ensures changes.name.None? && changes.status.None? ==> r.Some? && r.value.code == ValidationError
    ensures r.Some? ==> Group(r.value.code) == Validation && !r.value.isRetryable && r.value.correlationId.None?
  {
    if changes.name.None? && changes.status.None? then Some(LocalError(ValidationError, EMPTY_CHANGES_MESSAGE, now))
    else if changes.name.Some? && !ValidName(changes.name.value) then Some(LocalError(InvalidName, INVALID_NAME_MESSAGE, now))
    else None
  }

  /** Blank names are rejected whatever their length. */
  lemma BlankNamesRejected(name: string, now: Timestamp)
    requires IsBlank(name)
    ensures ValidateCreate(CreateItemParams(name), now).Some?
    ensures ValidateUpdate(ItemChanges(Some(name), None), now).Some?
  {
  }

  // ---------------------------------------------------------------------------
  // Output
  // ---------------------------------------------------------------------------

  /** The item shape consumers see; `isPending` marks an unconfirmed
      optimistic change. */
  datatype OrchestratorItem = OrchestratorItem(id: string, name: string, status: ItemStatus,
                                               createdAt: Timestamp, updatedAt: Timestamp, isPending: bool)

  datatype LoadingStates = LoadingStates(fetchingItems: bool, creatingItem: bool,
                                         updatingItem: bool, deletingItem: bool)

  datatype ErrorStates = ErrorStates(fetchItems: Option<OrchestratorError>, createItem: Option<OrchestratorError>,
                                     updateItem: Option<OrchestratorError>, deleteItem: Option<OrchestratorError>)

  datatype Output = Output(
    items: seq<OrchestratorItem>,
    selectedItem: Option<OrchestratorItem>,
    isLoading: bool,
    loadingStates: LoadingStates,
    error: Option<OrchestratorError>,
    errors: ErrorStates,
    hasMoreItems: bool,
    isReady: bool)

  function ProjectItem(it: Item, pending: multiset<string>): OrchestratorItem {
    OrchestratorItem(it.id, it.name, it.status, it.createdAt, it.updatedAt, it.id in pending)
  }

  function ProjectItems(items: seq<Item>, pending: multiset<string>): seq<OrchestratorItem> {
    seq(|items|, k requires 0 <= k < |items| => ProjectItem(items[k], pending))
  }

  function MapError(e: Option<StateError>): Option<OrchestratorError> {
    match e
    case None => None
    case Some(x) => Some(FromStateError(x))
  }

  /** True once the list has been fetched successfully and while it is not
      being fetched again. */
  function IsReady(s: FeatureState): bool {
    SelectIsItemListReady(s)
  }

  /** There is a further page: the list is ready, not fully loaded, has a
      cursor, and is not empty. */
  function HasMoreItems(s: FeatureState): bool {
    IsReady(s) && !s.allItemsLoaded && s.nextPageCursor.Some? && |s.items| > 0
  }

  /** The output derived from a snapshot and the ids with an unconfirmed
      optimistic change. */
  function Derive(s: FeatureState, pending: multiset<string>): Output {
    Output(
      ProjectItems(SortByCreatedAt(s.items), pending),
      match SelectSelectedItem(s) { case None => None case Some(it) => Some(ProjectItem(it, pending)) },
      SelectIsAnyOperationLoading(s),
      LoadingStates(s.loading.fetchingItems, s.loading.creatingItem, s.loading.updatingItem, s.loading.deletingItem),
      MapError(SelectLatestError(s)),
      ErrorStates(MapError(s.errors.fetchItems), MapError(s.errors.createItem),
                  MapError(s.errors.updateItem), MapError(s.errors.deleteItem)),
      HasMoreItems(s),
      IsReady(s))
  }

  function OutputErrorList(e: ErrorStates): seq<Option<OrchestratorError>> {
    [e.fetchItems, e.createItem, e.updateItem, e.deleteItem]
  }

  // ---------------------------------------------------------------------------
  // Output invariants
  // ---------------------------------------------------------------------------

  /** `o` is the projection of one of `items`. */
  predicate ProjectedFrom(o: OrchestratorItem, items: seq<Item>, pending: multiset<string>) {
    exists x :: x in items && o == ProjectItem(x, pending)
  }

  /** The output items are the projections of the held items, with the same
      multiplicities, newest first: every held item appears projected, and
      nothing that is not held. */
  lemma DerivedItems(s: FeatureState, pending: multiset<string>)
    ensures var out := Derive(s, pending);
      && |out.items| == |s.items|
      && multiset(out.items) == multiset(ProjectItems(s.items, pending))
      && (forall i, j :: 0 <= i < j < |out.items| ==> out.items[i].createdAt >= out.items[j].createdAt)
      && (forall x :: x in s.items ==> ProjectItem(x, pending) in out.items)
      && (forall k :: 0 <= k < |out.items| ==> ProjectedFrom(out.items[k], s.items, pending))
  {
    var sorted := SortByCreatedAt(s.items);
    var out := Derive(s, pending);
    ProjectSort(s.items, pending);
    assert |sorted| == |s.items| by {
      assert |multiset(sorted)| == |multiset(s.items)|;
    }
    forall x | x in s.items ensures ProjectItem(x, pending) in out.items {
      assert x in multiset(sorted);
      var k :| 0 <= k < |sorted| && sorted[k] == x;
      assert out.items[k] == ProjectItem(x, pending);
    }
    forall k | 0 <= k < |out.items| ensures ProjectedFrom(out.items[k], s.items, pending) {
      var x := sorted[k];
      assert x in multiset(s.items);
      assert x in s.items && out.items[k] == ProjectItem(x, pending);
    }
  }

  /** Projection commutes with insertion by createdAt, up to order. */
  lemma {:induction false} ProjectInsert(items: seq<Item>, x: Item, pending: multiset<string>)
    ensures multiset(ProjectItems(InsertByCreatedAt(items, x), pending))
              == multiset(ProjectItems(items, pending)) + multiset{ProjectItem(x, pending)}
  {
    if items == [] {
      assert InsertByCreatedAt(items, x) == [x] + items;
      ProjectCons(x, items, pending);
    } else if items[0].createdAt < x.createdAt {
      ProjectCons(x, items, pending);
    } else {
      var rest := InsertByCreatedAt(items[1..], x);
      ProjectInsert(items[1..], x, pending);
      ProjectCons(items[0], rest, pending);
      ProjectCons(items[0], items[1..], pending);
      assert items == [items[0]] + items[1..];
    }
  }

  /** Sorting before projecting keeps the projected elements. */
  lemma {:induction false} ProjectSort(items: seq<Item>, pending: multiset<string>)
    ensures multiset(ProjectItems(SortByCreatedAt(items), pending)) == multiset(ProjectItems(items, pending))
  {
    if items != [] {
      var rest := SortByCreatedAt(items[1..]);
      ProjectSort(items[1..], pending);
      ProjectInsert(rest, items[0], pending);
      ProjectCons(items[0], items[1..], pending);
      assert items == [items[0]] + items[1..];
    }
  }

  lemma ProjectCons(x: Item, items: seq<Item>, pending: multiset<string>)
    ensures multiset(ProjectItems([x] + items, pending))
              == multiset{ProjectItem(x, pending)} + multiset(ProjectItems(items, pending))
  {
    assert ProjectItems([x] + items, pending) == [ProjectItem(x, pending)] + ProjectItems(items, pending);
  }

  /** A held item shows in the output. */
  lemma ShownWhenHeld(s: FeatureState, pending: multiset<string>, x: Item)
    requires x in s.items
    ensures ProjectItem(x, pending) in Derive(s, pending).items
  {
    DerivedItems(s, pending);
  }

  /** A selected item in the output is one of the output's items. */
  lemma SelectedItemIsListed(s: FeatureState, pending: multiset<string>)
    ensures var out := Derive(s, pending);
      out.selectedItem.Some? ==> out.selectedItem.value in out.items
                                 && Some(out.selectedItem.value.id) == s.selectedItemId
  {
    DerivedItems(s, pending);
  }

  /** No action of the union fetches a single item, so the consumer's
      loading flag is exactly "one of the four operations is in flight". */
  lemma IsLoadingIffSomeFlag(s: FeatureState, pending: multiset<string>)
    requires NoSingleItemFetch(s)
    ensures var out := Derive(s, pending);
      out.isLoading <==> out.loadingStates.fetchingItems || out.loadingStates.creatingItem
                         || out.loadingStates.updatingItem || out.loadingStates.deletingItem
  {
  }

  /** The consumer's error is the latest of the four consumer slots, and is
      empty exactly when they all are. */
  lemma ErrorIsLatestSlot(s: FeatureState, pending: multiset<string>)
    requires NoSingleItemFetch(s)
    ensures var out := Derive(s, pending);
      var slots := OutputErrorList(out.errors);
      && (out.error.None? <==> forall k :: 0 <= k < |slots| ==> slots[k].None?)
      && (out.error.Some? ==> out.error in slots)
      && (out.error.Some? ==> forall k :: 0 <= k < |slots| && slots[k].Some? ==>
                                 slots[k].value.occurredAt <= out.error.value.occurredAt)
  {
    var l := ErrorList(s.errors);
    var out := Derive(s, pending);
    assert out.error == MapError(Latest(l));
    assert OutputErrorList(out.errors) == [MapError(l[0]), MapError(l[2]), MapError(l[3]), MapError(l[4])];
    LatestOverFilledSlots(l);
  }

  /** With the second slot empty, the latest of five slots is the latest of
      the other four, seen through `MapError`. */
  lemma LatestOverFilledSlots(l: seq<Option<StateError>>)
    requires |l| == 5 && l[1].None?
    ensures var e := MapError(Latest(l));
      var slots := [MapError(l[0]), MapError(l[2]), MapError(l[3]), MapError(l[4])];
      && (e.None? <==> forall k :: 0 <= k < |slots| ==> slots[k].None?)
      && (e.Some? ==> e in slots)
      && (e.Some? ==> forall k :: 0 <= k < |slots| && slots[k].Some? ==>
                         slots[k].value.occurredAt <= e.value.occurredAt)
  {
    var slots := [MapError(l[0]), MapError(l[2]), MapError(l[3]), MapError(l[4])];
    assert forall k :: 0 <= k < 4 ==> slots[k] == MapError(l[if k == 0 then 0 else k + 1]);
    var r := Latest(l);
    if r.Some? {
      var m :| 0 <= m < |l| && l[m] == r;
      assert m != 1;
      assert MapError(r) == slots[if m == 0 then 0 else m - 1];
    }
  }

  /** More items cannot be known before the first fetch. */
  lemma HasMoreOnlyWhenReady(s: FeatureState, pending: multiset<string>)
    ensures Derive(s, pending).hasMoreItems ==> Derive(s, pending).isReady
    ensures !IsReady(s) ==> !Derive(s, pending).hasMoreItems
    ensures Derive(s, pending).isReady <==> s.lastFetchedAt.Some? && !Derive(s, pending).loadingStates.fetchingItems
  {
  }

  /** No output item with `id` is marked pending. */
  predicate NonePending(items: seq<OrchestratorItem>, id: string) {
    forall k :: 0 <= k < |items| && items[k].id == id ==> !items[k].isPending
  }

  /** Once no write of `id` is in flight, none of its items shows pending. */
  lemma ConfirmedNotPending(s: FeatureState, pending: multiset<string>, id: string)
    requires id !in pending
    ensures NonePending(Derive(s, pending).items, id)
  {
  }

  /** Confirming one write of `id` clears the pending mark of its items once
      it was the only write of `id` in flight, and only then; every other
      item, and every other field of each item, stays as it was. */
  lemma ConfirmationClearsPending(s: FeatureState, pending: multiset<string>, id: string)
    ensures var before := Derive(s, pending).items;
      var after := Derive(s, pending - multiset{id}).items;
      && |after| == |before|
      && forall k :: 0 <= k < |after| ==>
           after[k] == before[k].(isPending := before[k].isPending && (before[k].id != id || pending[id] >= 2))
  {
  }

  // ---------------------------------------------------------------------------
  // The orchestrator
  // ---------------------------------------------------------------------------

  /** The work a dispatched request must complete: fetch a page (replacing or
      appending), or reconcile one optimistic write with its pre-image. */
  datatype PendingOp =
    | FetchPage(cursor: Option<string>, limit: int, append: bool)
    | CreateOp(optimisticId: string)
    | UpdateOp(itemId: string, previousItem: Item)
    | DeleteOp(itemId: string, previousItem: Item)

  /** A dispatched request, stamped with the generation it was started in. */
  datatype Ticket = Ticket(generation: nat, op: PendingOp)

  /** A start call either dispatches a request or rejects the call locally. */
  datatype Started = Dispatched(ticket: Ticket) | Rejected(error: OrchestratorError)

  /** A page the server returned. */
  datatype ServerPage = ServerPage(items: seq<Item>, cursor: Option<string>)

  /** The consumer callbacks, as a log: onItemCreated, onItemDeleted, onError. */
  datatype Event = ItemCreated(item: OrchestratorItem) | ItemDeleted(itemId: string) | ErrorReported(error: OrchestratorError)

  class FeatureOrchestrator {
    const pageSize: int
    var state: FeatureState
    var generation: nat
    /** One occurrence of an id per unconfirmed optimistic create or update of it. */
    var inFlight: multiset<string>
    var events: seq<Event>

    /** The invariants kept by every call. */
    predicate Valid()
      reads this
    {
      && MIN_PAGE_SIZE <= pageSize <= MAX_PAGE_SIZE
      && NoSingleItemFetch(state)
      && FetchedPagination(state)
      && (state.allItemsLoaded ==> state.nextPageCursor.None?)
    }

    /** What consumers see. */
    function View(): Output
      reads this
    {
      Derive(state, inFlight)
    }

    constructor(requestedPageSize: Option<int>)
      ensures pageSize == EffectivePageSize(requestedPageSize)
      ensures state == INITIAL && generation == 0 && inFlight == multiset{} && events == []
      ensures Valid()
    {
      pageSize := EffectivePageSize(requestedPageSize);
      state := INITIAL;
      generation := 0;
      inFlight := multiset{};
      events := [];
    }

    /** Applies one action to the held snapshot. */
    method Dispatch(a: Action)
      requires Valid()
      modifies this
      ensures Valid()
      ensures state == Reduce(old(state), a)
      ensures generation == old(generation) && inFlight == old(inFlight) && events == old(events)
    {
      ReducePreservesNoSingleItemFetch(state, a);
      ReducePreservesFetchedPagination(state, a);
      state := Reduce(state, a);
    }

    /** loadItems, first half: set loading, clear the error, issue the request
        for the first page. */
    method StartLoadItems() returns (t: Ticket)
      requires Valid()
      modifies this
      ensures Valid()
      ensures state == Reduce(old(state), FetchItemsStarted)
      ensures t == Ticket(generation, FetchPage(None, pageSize, false))
      ensures generation == old(generation) && inFlight == old(inFlight) && events == old(events)
    {
      Dispatch(FetchItemsStarted);
      t := Ticket(generation, FetchPage(None, pageSize, false));
    }

    /** loadMoreItems, first half: nothing at all when there are no more
        items; otherwise as loadItems, from the cursor, appending. */
    method StartLoadMoreItems() returns (t: Option<Ticket>)
      requires Valid()
      modifies this
      ensures Valid()
      ensures !old(View()).hasMoreItems ==> t.None? && state == old(state)
      ensures old(View()).hasMoreItems ==>
                && state == Reduce(old(state), FetchItemsStarted)
                && t == Some(Ticket(generation, FetchPage(old(state).nextPageCursor, pageSize, true)))
      ensures generation == old(generation) && inFlight == old(inFlight) && events == old(events)
    {
      if !HasMoreItems(state) {
        return None;
      }
      var cursor := state.nextPageCursor;
      Dispatch(FetchItemsStarted);
      t := Some(Ticket(generation, FetchPage(cursor, pageSize, true)));
    }

    /** loadItems / loadMoreItems, second half. A stale ticket is dropped.
        Otherwise a page replaces the list (or is appended to it) and a
        failure leaves the list and records the error. */
    method CompleteFetch(t: Ticket, response: Result<ServerPage, TransportFailure>, now: Timestamp)
      returns (r: Option<OrchestratorResult<seq<OrchestratorItem>>>)
      requires Valid() && t.op.FetchPage?
      modifies this
      ensures Valid()
      ensures generation == old(generation) && inFlight == old(inFlight)
      ensures t.generation != old(generation) ==> r.None? && state == old(state) && events == old(events)
      ensures t.generation == old(generation) && response.Success? ==>
                var page := response.value;
                var items := if t.op.append then old(state).items + page.items else page.items;
                && state == Reduce(old(state), FetchItemsSucceeded(items, page.cursor, now))
                && state.items == items && state.errors == old(state).errors
                && events == old(events)
                && r == Some(Ok(View().items))
      ensures t.generation == old(generation) && response.Failure? ==>
                var e := ToErrorRecord(response.error, now);
                && state == Reduce(old(state), FetchItemsFailed(e))
                && state.items == old(state).items
                && events == old(events) + [ErrorReported(FromStateError(e))]
                && r == Some(Err(FromStateError(e)))
    {
      if t.generation != generation {
        return None;
      }
      match response
      case Success(page) =>
        var items := if t.op.append then state.items + page.items else page.items;
        Dispatch(FetchItemsSucceeded(items, page.cursor, now));
        r := Some(Ok(View().items));
      case Failure(f) =>
        var e := ToErrorRecord(f, now);
        Dispatch(FetchItemsFailed(e));
        events := events + [ErrorReported(FromStateError(e))];
        r := Some(Err(FromStateError(e)));
    }

    /** createItem, first half. Invalid parameters are rejected before any
        state change and reported; otherwise the placeholder is added and
        marked pending. `optimisticId` is the client-generated id; nothing here
        depends on its being new to the list. */
    method StartCreate(params: CreateItemParams, optimisticId: string, now: Timestamp) returns (r: Started)
      requires Valid()
      modifies this
      ensures Valid()
      ensures generation == old(generation)
      ensures !ValidName(params.name) ==>
                && r == Rejected(ValidateCreate(params, now).value)
                && state == old(state) && inFlight == old(inFlight)
                && events == old(events) + [ErrorReported(r.error)]
      ensures ValidName(params.name) ==>
                && r == Dispatched(Ticket(generation, CreateOp(optimisticId)))
                && state == Reduce(old(state), CreateItemStarted(optimisticId, params.name))
                && inFlight == old(inFlight) + multiset{optimisticId}
                && events == old(events)
    {
      var invalid := ValidateCreate(params, now);
      if invalid.Some? {
        events := events + [ErrorReported(invalid.value)];
        return Rejected(invalid.value);
      }
      Dispatch(CreateItemStarted(optimisticId, params.name));
      inFlight := inFlight + multiset{optimisticId};
      r := Dispatched(Ticket(generation, CreateOp(optimisticId)));
    }

    /** createItem, second half: swap the placeholder for the server item and
        call onItemCreated, or remove it and report the error. */
    method CompleteCreate(t: Ticket, response: Result<Item, TransportFailure>, now: Timestamp)
      returns (r: Option<OrchestratorResult<OrchestratorItem>>)
      requires Valid() && t.op.CreateOp?
      modifies this
      ensures Valid()
      ensures generation == old(generation)
      ensures t.generation != old(generation) ==>
                r.None? && state == old(state) && inFlight == old(inFlight) && events == old(events)
      ensures t.generation == old(generation) ==> inFlight == old(inFlight) - multiset{t.op.optimisticId}
      ensures t.generation == old(generation) && response.Success? ==>
                var created := ProjectItem(response.value, inFlight);
                && state == Reduce(old(state), CreateItemSucceeded(t.op.optimisticId, response.value))
                && events == old(events) + [ItemCreated(created)]
                && r == Some(Ok(created))
                && created in View().items
      ensures t.generation == old(generation) && response.Success? &&
              response.value.id !in old(inFlight) - multiset{t.op.optimisticId} ==>
                !r.value.data.isPending && NonePending(View().items, response.value.id)
      ensures t.generation == old(generation) && response.Failure? ==>
                var e := ToErrorRecord(response.error, now);
                && state == Reduce(old(state), CreateItemFailed(t.op.optimisticId, e))
                && events == old(events) + [ErrorReported(FromStateError(e))]
                && r == Some(Err(FromStateError(e)))
    {
      if t.generation != generation {
        return None;
      }
      var id := t.op.optimisticId;
      inFlight := inFlight - multiset{id};
      match response
      case Success(item) =>
        Dispatch(CreateItemSucceeded(id, item));
        var k := ReconcilePosition(old(state).items, id, item);
        assert state.items[k] == item;
        ShownWhenHeld(state, inFlight, item);
        if item.id !in inFlight {
          ConfirmedNotPending(state, inFlight, item.id);
        }
        var created := ProjectItem(item, inFlight);
        events := events + [ItemCreated(created)];
        r := Some(Ok(created));
      case Failure(f) =>
        var e := ToErrorRecord(f, now);
        Dispatch(CreateItemFailed(id, e));
        events := events + [ErrorReported(FromStateError(e))];
        r := Some(Err(FromStateError(e)));
    }

    /** updateItem, first half. Invalid changes, and ids naming no item, are
        rejected before any state change and reported; otherwise the change
        is applied optimistically and the pre-image is kept in the ticket. */
    method StartUpdate(itemId: string, changes: ItemChanges, now: Timestamp) returns (r: Started)
      requires Valid()
      modifies this
      ensures Valid()
      ensures generation == old(generation)
      ensures ValidateUpdate(changes, now).Some? ==>
                && r == Rejected(ValidateUpdate(changes, now).value)
                && state == old(state) && inFlight == old(inFlight)
                && events == old(events) + [ErrorReported(r.error)]
      ensures ValidateUpdate(changes, now).None? && !HasId(old(state).items, itemId) ==>
                && r == Rejected(LocalError(ResourceNotFound, UNKNOWN_ITEM_MESSAGE, now))
                && state == old(state) && inFlight == old(inFlight)
                && events == old(events) + [ErrorReported(r.error)]
      ensures ValidateUpdate(changes, now).None? && HasId(old(state).items, itemId) ==>
                && r == Dispatched(Ticket(generation, UpdateOp(itemId, Find(old(state).items, itemId).value)))
                && state == Reduce(old(state), UpdateItemStarted(itemId, changes))
                && inFlight == old(inFlight) + multiset{itemId}
                && events == old(events)
    {
      var invalid := ValidateUpdate(changes, now);
      if invalid.Some? {
        events := events + [ErrorReported(invalid.value)];
        return Rejected(invalid.value);
      }
      var previous := Find(state.items, itemId);
      if previous.None? {
        var e := LocalError(ResourceNotFound, UNKNOWN_ITEM_MESSAGE, now);
        events := events + [ErrorReported(e)];
        return Rejected(e);
      }
      Dispatch(UpdateItemStarted(itemId, changes));
      inFlight := inFlight + multiset{itemId};
      r := Dispatched(Ticket(generation, UpdateOp(itemId, previous.value)));
    }

    /** updateItem, second half: take the server's version, or put the
        pre-image back and report the error. */
    method CompleteUpdate(t: Ticket, response: Result<Item, TransportFailure>, now: Timestamp)
      returns (r: Option<OrchestratorResult<OrchestratorItem>>)
      requires Valid() && t.op.UpdateOp?
      modifies this
      ensures Valid()
      ensures generation == old(generation)
      ensures t.generation != old(generation) ==>
                r.None? && state == old(state) && inFlight == old(inFlight) && events == old(events)
      ensures t.generation == old(generation) ==> inFlight == old(inFlight) - multiset{t.op.itemId}
      ensures t.generation == old(generation) && response.Success? ==>
                && state == Reduce(old(state), UpdateItemSucceeded(response.value))
                && events == old(events)
                && r == Some(Ok(ProjectItem(response.value, inFlight)))
      ensures t.generation == old(generation) && response.Success? &&
              response.value.id == t.op.itemId && old(inFlight)[t.op.itemId] <= 1 ==>
                !r.value.data.isPending && NonePending(View().items, t.op.itemId)
      ensures t.generation == old(generation) && response.Failure? && t.op.previousItem.id == t.op.itemId ==>
                Find(state.items, t.op.itemId) == Some(t.op.previousItem)
      ensures t.generation == old(generation) && response.Failure? ==>
                var e := ToErrorRecord(response.error, now);
                && state == Reduce(old(state), UpdateItemFailed(t.op.itemId, t.op.previousItem, e))
                && events == old(events) + [ErrorReported(FromStateError(e))]
                && r == Some(Err(FromStateError(e)))
    {
      if t.generation != generation {
        return None;
      }
      inFlight := inFlight - multiset{t.op.itemId};
      match response
      case Success(item) =>
        Dispatch(UpdateItemSucceeded(item));
        if t.op.itemId !in inFlight {
          ConfirmedNotPending(state, inFlight, t.op.itemId);
        }
        r := Some(Ok(ProjectItem(item, inFlight)));
      case Failure(f) =>
        var e := ToErrorRecord(f, now);
        Dispatch(UpdateItemFailed(t.op.itemId, t.op.previousItem, e));
        if t.op.previousItem.id == t.op.itemId {
          UpdateItemFailedRollsBack(old(state), t.op.itemId, t.op.previousItem, e);
        }
        events := events + [ErrorReported(FromStateError(e))];
        r := Some(Err(FromStateError(e)));
    }

    /** deleteItem, first half: an id naming no item is rejected and
        reported; otherwise the item is removed at once and its pre-image
        kept in the ticket. */
    method StartDelete(itemId: string, now: Timestamp) returns (r: Started)
      requires Valid()
      modifies this
      ensures Valid()
      ensures generation == old(generation) && inFlight == old(inFlight)
      ensures !HasId(old(state).items, itemId) ==>
                && r == Rejected(LocalError(ResourceNotFound, UNKNOWN_ITEM_MESSAGE, now))
                && state == old(state)
                && events == old(events) + [ErrorReported(r.error)]
      ensures HasId(old(state).items, itemId) ==>
                && r == Dispatched(Ticket(generation, DeleteOp(itemId, Find(old(state).items, itemId).value)))
                && state == Reduce(old(state), DeleteItemStarted(itemId))
                && events == old(events)
    {
      var previous := Find(state.items, itemId);
      if previous.None? {
        var e := LocalError(ResourceNotFound, UNKNOWN_ITEM_MESSAGE, now);
        events := events + [ErrorReported(e)];
        return Rejected(e);
      }
      Dispatch(DeleteItemStarted(itemId));
      r := Dispatched(Ticket(generation, DeleteOp(itemId, previous.value)));
    }

    /** deleteItem, second half: confirm the removal and call onItemDeleted,
        or restore the pre-image and report the error. `failure` is `None`
        when the server confirmed the delete. */
    method CompleteDelete(t: Ticket, failure: Option<TransportFailure>, now: Timestamp)
      returns (r: Option<OrchestratorResult<()>>)
      requires Valid() && t.op.DeleteOp?
      modifies this
      ensures Valid()
      ensures generation == old(generation) && inFlight == old(inFlight)
      ensures t.generation != old(generation) ==> r.None? && state == old(state) && events == old(events)
      ensures t.generation == old(generation) && failure.None? ==>
                && state == Reduce(old(state), DeleteItemSucceeded(t.op.itemId))
                && events == old(events) + [ItemDeleted(t.op.itemId)]
                && r == Some(Ok(()))
      ensures t.generation == old(generation) && failure.Some? ==>
                var e := ToErrorRecord(failure.value, now);
                && state == Reduce(old(state), DeleteItemFailed(t.op.itemId, t.op.previousItem, e))
                && events == old(events) + [ErrorReported(FromStateError(e))]
                && r == Some(Err(FromStateError(e)))
    {
      if t.generation != generation {
        return None;
      }
      match failure
      case None =>
        Dispatch(DeleteItemSucceeded(t.op.itemId));
        events := events + [ItemDeleted(t.op.itemId)];
        r := Some(Ok(()));
      case Some(f) =>
        var e := ToErrorRecord(f, now);
        Dispatch(DeleteItemFailed(t.op.itemId, t.op.previousItem, e));
        events := events + [ErrorReported(FromStateError(e))];
        r := Some(Err(FromStateError(e)));
    }

    /** Selects the item with `itemId`; nothing changes when no item has it. */
    method SelectItem(itemId: string)
      requires Valid()
      modifies this
      ensures Valid()
      ensures HasId(old(state).items, itemId) ==> state == old(state).(selectedItemId := Some(itemId))
      ensures !HasId(old(state).items, itemId) ==> state == old(state)
      ensures generation == old(generation) && inFlight == old(inFlight) && events == old(events)
    {
      Dispatch(ItemSelected(itemId));
    }

    method ClearSelection()
      requires Valid()
      modifies this
      ensures Valid()
      ensures state == old(state).(selectedItemId := None) && View().selectedItem.None?
      ensures generation == old(generation) && inFlight == old(inFlight) && events == old(events)
    {
      Dispatch(ItemDeselected);
    }

    /** Back to the initial state; every ticket issued so far becomes stale.
        No callback is invoked. */
    method Reset()
      requires Valid()
      modifies this
      ensures Valid()
      ensures state == INITIAL && inFlight == multiset{}
      ensures generation == old(generation) + 1 && events == old(events)
    {
      Dispatch(Action.Reset);
      inFlight := multiset{};
      generation := generation + 1;
    }
  }
}
