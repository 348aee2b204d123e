/** Call sequences of a consumer against a fresh orchestrator, with what the
    consumer observes at the end. Each follows from the orchestrator's
    contracts alone. */
module Scenarios {
  import opened Common
  import opened Errors
  import opened State
  import opened Orchestration

  const ALPHA: Item := Item("a", "Alpha", Active, 10, 10, 0)
  const BETA: Item := Item("b", "Beta", Completed, 20, 20, 0)

  lemma SortOne(x: Item)
    ensures SortByCreatedAt([x]) == [x]
  {
    assert [x][1..] == [];
  }

  lemma SortTwo()
    ensures SortByCreatedAt([BETA, ALPHA]) == [BETA, ALPHA]
    ensures SortByCreatedAt([ALPHA, BETA]) == [BETA, ALPHA]
  {
    assert [BETA, ALPHA][1..] == [ALPHA];
    assert [ALPHA, BETA][1..] == [BETA];
    SortOne(ALPHA);
    SortOne(BETA);
    assert [ALPHA][1..] == [];
  }

  /** The output items of a one-item list. */
  lemma ItemsOfOne(s: FeatureState, x: Item, pending: multiset<string>)
    requires s.items == [x]
    ensures Derive(s, pending).items == [ProjectItem(x, pending)]
  {
    SortOne(x);
  }

  /** An empty list shows no items. */
  lemma ItemsOfNone(s: FeatureState, pending: multiset<string>)
    requires s.items == []
    ensures Derive(s, pending).items == []
  {
    assert |SortByCreatedAt(s.items)| == 0;
  }

  /** The output items of the list holding ALPHA and BETA, newest first. */
  lemma ItemsOfTwo(s: FeatureState, pending: multiset<string>)
    requires s.items == [BETA, ALPHA] || s.items == [ALPHA, BETA]
    ensures Derive(s, pending).items == [ProjectItem(BETA, pending), ProjectItem(ALPHA, pending)]
  {
    SortTwo();
  }

  /** With only the create slot filled, that error is the latest one. */
  lemma OnlyCreateError(s: FeatureState, e: StateError, pending: multiset<string>)
    requires s.errors == NO_ERRORS.(createItem := Some(e))
    ensures Derive(s, pending).errors.createItem == Some(FromStateError(e))
    ensures Derive(s, pending).error == Some(FromStateError(e))
  {
    var l := ErrorList(s.errors);
    assert l == [None, None, Some(e), None, None];
    assert Latest(l[4..]) == None && Latest(l[3..]) == None;
    assert l[3..][1..] == l[4..] && l[2..][1..] == l[3..];
    assert Latest(l[2..]) == Some(e);
    assert l[1..][1..] == l[2..] && l[1..] == l[..][1..];
  }

  /** The server's "srv-1" takes the place of the "tmp-1" placeholder. */
  lemma ReconcilePlaceholder()
    ensures Reconcile([OptimisticItem("tmp-1", "Alpha")], "tmp-1", Item("srv-1", "Alpha", Active, 3, 3, 0))
              == [Item("srv-1", "Alpha", Active, 3, 3, 0)]
  {
    assert [OptimisticItem("tmp-1", "Alpha")][0].id == "tmp-1";
  }

  /** The confirmation of "tmp-1" as "srv-1", on the engine. */
  lemma ConfirmPlaceholder()
    ensures Reduce(INITIAL.(items := [OptimisticItem("tmp-1", "Alpha")], loading := IDLE.(creatingItem := true)),
                   CreateItemSucceeded("tmp-1", Item("srv-1", "Alpha", Active, 3, 3, 0)))
            == INITIAL.(items := [Item("srv-1", "Alpha", Active, 3, 3, 0)])
  {
    ReconcilePlaceholder();
  }

  /** The confirmation of "tmp-1" as "srv-1" after the placeholder is gone. */
  lemma ConfirmAfterReload()
    ensures Reduce(INITIAL.(allItemsLoaded := true, lastFetchedAt := Some(3), loading := IDLE.(creatingItem := true)),
                   CreateItemSucceeded("tmp-1", Item("srv-1", "Alpha", Active, 3, 3, 0)))
            == INITIAL.(items := [Item("srv-1", "Alpha", Active, 3, 3, 0)], allItemsLoaded := true, lastFetchedAt := Some(3))
  {
    assert InsertByCreatedAt([], Item("srv-1", "Alpha", Active, 3, 3, 0)) == [Item("srv-1", "Alpha", Active, 3, 3, 0)];
  }

  lemma RestoreAlpha()
    ensures Restore([BETA], "a", ALPHA) == [BETA, ALPHA]
  {
    assert [BETA][1..] == [];
    assert Without([], "a") == [];
    assert Without([BETA], "a") == [BETA];
    assert InsertByCreatedAt([], ALPHA) == [ALPHA];
  }

  /** The failed delete of "a", on the engine. */
  lemma RestoreStep()
    ensures Reduce(INITIAL.(items := [BETA], allItemsLoaded := true, lastFetchedAt := Some(1),
                            loading := IDLE.(deletingItem := true)),
                   DeleteItemFailed("a", ALPHA, ErrorRecord(StorageError, "disk", 3, Some("corr-9"))))
            == INITIAL.(items := [BETA, ALPHA], allItemsLoaded := true, lastFetchedAt := Some(1),
                        errors := NO_ERRORS.(deleteItem := Some(ErrorRecord(StorageError, "disk", 3, Some("corr-9")))))
  {
    RestoreAlpha();
  }

  lemma WithoutOfPair()
    ensures Without([BETA, ALPHA], "a") == [BETA]
  {
    assert [BETA, ALPHA][1..] == [ALPHA];
    assert [ALPHA][1..] == [];
    assert Without([], "a") == [];
    assert Without([ALPHA], "a") == [];
  }

  // ---------------------------------------------------------------------------
  // Stages: a fresh orchestrator brought to a known snapshot, one call at a time
  // ---------------------------------------------------------------------------

  /** The first page `page` loaded in generation 0, at the clamped page size 100. */
  method Loaded(page: seq<Item>, cursor: Option<string>) returns (o: FeatureOrchestrator)
    ensures fresh(o) && o.Valid() && o.pageSize == 100
    ensures o.state == INITIAL.(items := page, nextPageCursor := cursor, allItemsLoaded := cursor.None?,
                                lastFetchedAt := Some(1))
    ensures o.generation == 0 && o.inFlight == multiset{} && o.events == []
  {
    o := new FeatureOrchestrator(Some(500));
    var t := o.StartLoadItems();
    var r := o.CompleteFetch(t, Success(ServerPage(page, cursor)), 1);
  }

  /** [ALPHA] loaded with a cursor, and a request for the next page issued. */
  method LoadMoreStarted() returns (o: FeatureOrchestrator, t: Option<Ticket>)
    ensures fresh(o) && o.Valid()
    ensures t == Some(Ticket(0, FetchPage(Some("c1"), 100, true)))
    ensures o.state == INITIAL.(items := [ALPHA], nextPageCursor := Some("c1"), lastFetchedAt := Some(1),
                                loading := IDLE.(fetchingItems := true))
    ensures o.generation == 0 && o.inFlight == multiset{} && o.events == []
  {
    o := Loaded([ALPHA], Some("c1"));
    t := o.StartLoadMoreItems();
  }

  /** The next page [BETA] appended to the same orchestrator, and no further
      cursor; `t` is the ticket the request was issued with. */
  method LoadMoreDone() returns (o: FeatureOrchestrator, t: Option<Ticket>)
    ensures fresh(o) && o.Valid()
    ensures t == Some(Ticket(0, FetchPage(Some("c1"), 100, true)))
    ensures o.state == INITIAL.(items := [ALPHA, BETA], allItemsLoaded := true, lastFetchedAt := Some(2))
    ensures o.inFlight == multiset{}
  {
    o, t := LoadMoreStarted();
    var r := o.CompleteFetch(t.value, Success(ServerPage([BETA], None)), 2);
  }

  /** An empty orchestrator with a create of "Alpha" under "tmp-1" in flight. */
  method CreateStarted() returns (o: FeatureOrchestrator, t: Ticket)
    ensures fresh(o) && o.Valid()
    ensures o.state == INITIAL.(items := [OptimisticItem("tmp-1", "Alpha")], loading := IDLE.(creatingItem := true))
    ensures o.generation == 0 && o.inFlight == multiset{"tmp-1"} && o.events == []
    ensures t == Ticket(0, CreateOp("tmp-1"))
  {
    o := new FeatureOrchestrator(None);
    assert !IsWhitespace("Alpha"[0]);
    var started := o.StartCreate(CreateItemParams("Alpha"), "tmp-1", 2);
    t := started.ticket;
  }

  /** The create confirmed by the server as "srv-1". */
  method CreateDone() returns (o: FeatureOrchestrator, r: Option<OrchestratorResult<OrchestratorItem>>)
    ensures fresh(o) && o.Valid()
    ensures o.state == INITIAL.(items := [Item("srv-1", "Alpha", Active, 3, 3, 0)])
    ensures o.inFlight == multiset{}
    ensures r == Some(Ok(OrchestratorItem("srv-1", "Alpha", Active, 3, 3, false)))
    ensures o.events == [ItemCreated(OrchestratorItem("srv-1", "Alpha", Active, 3, 3, false))]
  {
    var t;
    o, t := CreateStarted();
    ConfirmPlaceholder();
    r := o.CompleteCreate(t, Success(Item("srv-1", "Alpha", Active, 3, 3, 0)), 3);
  }

  /** The create still in flight when a reload returns an empty list. */
  method ReloadedDuringCreate() returns (o: FeatureOrchestrator, t: Ticket)
    ensures fresh(o) && o.Valid()
    ensures o.state == INITIAL.(allItemsLoaded := true, lastFetchedAt := Some(3), loading := IDLE.(creatingItem := true))
    ensures o.generation == 0 && o.inFlight == multiset{"tmp-1"}
    ensures t == Ticket(0, CreateOp("tmp-1"))
  {
    o, t := CreateStarted();
    var load := o.StartLoadItems();
    var page := o.CompleteFetch(load, Success(ServerPage([], None)), 3);
  }

  /** The create failed: the device was offline. */
  method CreateRejected() returns (o: FeatureOrchestrator)
    ensures fresh(o) && o.Valid()
    ensures o.state == INITIAL.(errors := NO_ERRORS.(createItem := Some(ErrorRecord(NetworkOffline, "offline", 4, None))))
    ensures o.inFlight == multiset{}
  {
    var t;
    o, t := CreateStarted();
    var r := o.CompleteCreate(t, Failure(ClientFailure(NetworkOffline, "offline")), 4);
    assert [OptimisticItem("tmp-1", "Alpha")][1..] == [];
  }

  /** [ALPHA] loaded, with a rename of "a" to "Renamed" in flight. */
  method UpdateStarted() returns (o: FeatureOrchestrator, t: Ticket)
    ensures fresh(o) && o.Valid()
    ensures o.state == INITIAL.(items := [Item("a", "Renamed", Active, 10, 10, 1)], allItemsLoaded := true,
                                lastFetchedAt := Some(1), loading := IDLE.(updatingItem := true))
    ensures o.generation == 0 && o.inFlight == multiset{"a"} && o.events == []
    ensures t == Ticket(0, UpdateOp("a", ALPHA))
  {
    o := Loaded([ALPHA], None);
    assert !IsWhitespace("Renamed"[0]);
    assert o.state.items[0].id == "a";
    var started := o.StartUpdate("a", ItemChanges(Some("Renamed"), None), 2);
    t := started.ticket;
  }

  /** The rename rejected by the server with a conflict. */
  method UpdateRejected() returns (o: FeatureOrchestrator)
    ensures fresh(o) && o.Valid()
    ensures o.state == INITIAL.(items := [ALPHA], allItemsLoaded := true, lastFetchedAt := Some(1),
                                errors := NO_ERRORS.(updateItem := Some(ErrorRecord(ResourceConflict, "conflict", 3, Some("corr-7")))))
    ensures o.inFlight == multiset{}
  {
    var t;
    o, t := UpdateStarted();
    var r := o.CompleteUpdate(t, Failure(ServerFailure(ResourceConflict, "conflict", "corr-7")), 3);
  }

  /** [BETA, ALPHA] loaded and "a" selected. */
  method SelectedAlpha() returns (o: FeatureOrchestrator)
    ensures fresh(o) && o.Valid()
    ensures o.state == INITIAL.(items := [BETA, ALPHA], allItemsLoaded := true, lastFetchedAt := Some(1),
                                selectedItemId := Some("a"))
    ensures o.generation == 0 && o.inFlight == multiset{} && o.events == []
  {
    o := Loaded([BETA, ALPHA], None);
    assert o.state.items[1].id == "a";
    o.SelectItem("a");
  }

  /** Then a delete of the selected "a" in flight. */
  method DeleteStarted() returns (o: FeatureOrchestrator, t: Ticket)
    ensures fresh(o) && o.Valid()
    ensures o.state == INITIAL.(items := [BETA], allItemsLoaded := true, lastFetchedAt := Some(1),
                                loading := IDLE.(deletingItem := true))
    ensures o.generation == 0 && o.inFlight == multiset{} && o.events == []
    ensures t == Ticket(0, DeleteOp("a", ALPHA))
  {
    o := SelectedAlpha();
    assert o.state.items[0].id != "a";
    var started := o.StartDelete("a", 2);
    WithoutOfPair();
    t := started.ticket;
  }

  /** The delete failed on the server. */
  method DeleteRejected() returns (o: FeatureOrchestrator)
    ensures fresh(o) && o.Valid()
    ensures o.state == INITIAL.(items := [BETA, ALPHA], allItemsLoaded := true, lastFetchedAt := Some(1),
                                errors := NO_ERRORS.(deleteItem := Some(ErrorRecord(StorageError, "disk", 3, Some("corr-9")))))
    ensures o.inFlight == multiset{}
  {
    var t;
    o, t := DeleteStarted();
    RestoreStep();
    var r := o.CompleteDelete(t, Some(ServerFailure(StorageError, "disk", "corr-9")), 3);
  }

  // ---------------------------------------------------------------------------
  // What the consumer observes
  // ---------------------------------------------------------------------------

  /** A response to a load that was started before a reset arrives after it:
      it is dropped and the orchestrator stays in its initial state. */
  method ResponseAfterReset() returns (dropped: bool, out: Output)
    ensures dropped
    ensures out.items == [] && out.selectedItem.None? && !out.isReady && !out.isLoading && out.error.None?
  {
    var o := new FeatureOrchestrator(None);
    var t := o.StartLoadItems();
    o.Reset();
    var r := o.CompleteFetch(t, Success(ServerPage([ALPHA], None)), 5);
    dropped := r.None?;
    out := o.View();
  }

  /** Before the first load nothing is ready and loadMoreItems does nothing. */
  method BeforeFirstLoad() returns (before: Output, more: Option<Ticket>, during: Output)
    ensures !before.isReady && !before.hasMoreItems && before.items == []
    ensures more.None?
    ensures during.isLoading && during.loadingStates.fetchingItems && !during.isReady
  {
    var o := new FeatureOrchestrator(None);
    before := o.View();
    more := o.StartLoadMoreItems();
    var t := o.StartLoadItems();
    during := o.View();
  }

  /** Loading a first page with a cursor makes the list ready, with more to come. */
  method FirstLoad() returns (out: Output)
    ensures out.isReady && !out.isLoading && out.hasMoreItems
    ensures out.items == [OrchestratorItem("a", "Alpha", Active, 10, 10, false)]
  {
    var o := Loaded([ALPHA], Some("c1"));
    ItemsOfOne(o.state, ALPHA, o.inFlight);
    out := o.View();
  }

  /** loadMoreItems asks for the page after the cursor at the clamped page
      size and appends it, newest first; the list is then complete. */
  method LoadMore() returns (ticket: Option<Ticket>, out: Output)
    ensures ticket == Some(Ticket(0, FetchPage(Some("c1"), 100, true)))
    ensures out.items == [OrchestratorItem("b", "Beta", Completed, 20, 20, false),
                          OrchestratorItem("a", "Alpha", Active, 10, 10, false)]
    ensures out.isReady && !out.hasMoreItems
  {
    var o;
    o, ticket := LoadMoreDone();
    ItemsOfTwo(o.state, o.inFlight);
    out := o.View();
  }

  /** A create shows a pending placeholder at once. */
  method CreateShowsPlaceholder() returns (during: Output)
    ensures during.items == [OrchestratorItem("tmp-1", "Alpha", Pending, 0, 0, true)]
    ensures during.loadingStates.creatingItem && during.isLoading
  {
    var o, t := CreateStarted();
    ItemsOfOne(o.state, OptimisticItem("tmp-1", "Alpha"), o.inFlight);
    during := o.View();
  }

  /** The server's item replaces the placeholder, is not pending, and
      onItemCreated receives it. */
  method CreateConfirmed() returns (result: Option<OrchestratorResult<OrchestratorItem>>,
                                    after: Output, events: seq<Event>)
    ensures result == Some(Ok(OrchestratorItem("srv-1", "Alpha", Active, 3, 3, false)))
    ensures after.items == [OrchestratorItem("srv-1", "Alpha", Active, 3, 3, false)]
    ensures !after.isLoading
    ensures events == [ItemCreated(OrchestratorItem("srv-1", "Alpha", Active, 3, 3, false))]
  {
    var o;
    o, result := CreateDone();
    ItemsOfOne(o.state, Item("srv-1", "Alpha", Active, 3, 3, 0), o.inFlight);
    after := o.View();
    events := o.events;
  }

  /** A reload that returns before the create is confirmed drops the
      placeholder; the server's item still shows once the create is
      confirmed. */
  method CreateConfirmedAfterReload() returns (out: Output)
    ensures out.items == [OrchestratorItem("srv-1", "Alpha", Active, 3, 3, false)]
  {
    var o, t := ReloadedDuringCreate();
    ConfirmAfterReload();
    var r := o.CompleteCreate(t, Success(Item("srv-1", "Alpha", Active, 3, 3, 0)), 4);
    ItemsOfOne(o.state, Item("srv-1", "Alpha", Active, 3, 3, 0), o.inFlight);
    out := o.View();
  }

  /** A failed create removes the placeholder and fills the create slot with
      a retryable error that has no correlation id. */
  method CreateFailed() returns (out: Output)
    ensures out.items == []
    ensures out.errors.createItem.Some? && out.errors.createItem.value.code == NetworkOffline
    ensures out.errors.createItem.value.isRetryable && out.errors.createItem.value.correlationId.None?
    ensures out.error == out.errors.createItem
  {
    var o := CreateRejected();
    var e := ErrorRecord(NetworkOffline, "offline", 4, None);
    assert IsAutoRetryable(NetworkOffline);
    OnlyCreateError(o.state, e, o.inFlight);
    ItemsOfNone(o.state, o.inFlight);
    out := o.View();
  }

  /** A blank name is rejected locally: nothing is added and onError gets a
      non-retryable INVALID_NAME error without a correlation id. */
  method BlankNameRejected() returns (started: Started, events: seq<Event>)
    ensures started.Rejected? && started.error.code == InvalidName
    ensures !started.error.isRetryable && started.error.correlationId.None?
    ensures events == [ErrorReported(started.error)]
  {
    var o := new FeatureOrchestrator(None);
    assert IsWhitespace("   "[0]);
    started := o.StartCreate(CreateItemParams("   "), "tmp-1", 2);
    events := o.events;
  }

  /** An update shows the change at once, marked pending. */
  method UpdateShowsChange() returns (during: Output)
    ensures during.items == [OrchestratorItem("a", "Renamed", Active, 10, 10, true)]
    ensures during.loadingStates.updatingItem
  {
    var o, t := UpdateStarted();
    ItemsOfOne(o.state, Item("a", "Renamed", Active, 10, 10, 1), o.inFlight);
    during := o.View();
  }

  /** A rejected update puts the item back as it was, and the update slot
      carries the server's correlation id. */
  method UpdateRolledBack() returns (out: Output)
    ensures out.items == [OrchestratorItem("a", "Alpha", Active, 10, 10, false)]
    ensures out.errors.updateItem.Some? && out.errors.updateItem.value.code == ResourceConflict
    ensures !out.errors.updateItem.value.isRetryable
    ensures out.errors.updateItem.value.correlationId == Some("corr-7")
  {
    var o := UpdateRejected();
    ItemsOfOne(o.state, ALPHA, o.inFlight);
    out := o.View();
  }

  /** An update with no changes is rejected before anything happens. */
  method EmptyUpdateRejected() returns (started: Started)
    ensures started.Rejected? && started.error.code == ValidationError
  {
    var o := Loaded([ALPHA], None);
    started := o.StartUpdate("a", ItemChanges(None, None), 2);
  }

  /** Selecting an unknown id changes nothing; selecting a listed one shows it. */
  method Select() returns (unknown: Output, selected: Output)
    ensures unknown.selectedItem.None?
    ensures selected.selectedItem == Some(OrchestratorItem("a", "Alpha", Active, 10, 10, false))
  {
    var o := Loaded([BETA, ALPHA], None);
    assert !HasId(o.state.items, "z");
    o.SelectItem("z");
    unknown := o.View();
    assert o.state.items[1].id == "a";
    o.SelectItem("a");
    selected := o.View();
  }

  /** Deleting the selected item removes it at once and clears the selection. */
  method DeleteClearsSelection() returns (deleted: Output)
    ensures deleted.selectedItem.None? && deleted.items == [OrchestratorItem("b", "Beta", Completed, 20, 20, false)]
  {
    var o, t := DeleteStarted();
    ItemsOfOne(o.state, BETA, o.inFlight);
    deleted := o.View();
  }

  /** A failed delete restores the item at its place, but not the selection. */
  method DeleteRestored() returns (restored: Output)
    ensures restored.items == [OrchestratorItem("b", "Beta", Completed, 20, 20, false),
                               OrchestratorItem("a", "Alpha", Active, 10, 10, false)]
    ensures restored.selectedItem.None?
    ensures restored.errors.deleteItem.Some? && restored.errors.deleteItem.value.code == StorageError
  {
    var o := DeleteRejected();
    ItemsOfTwo(o.state, o.inFlight);
    restored := o.View();
  }
}
