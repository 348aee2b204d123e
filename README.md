# Optimistic-update feature store, modelled in Dafny

The `templates/spec-system` contracts describe a client-side feature store.
It holds a paginated list of items that the server owns, and each mutation
is applied speculatively before the server answers. The contracts cover
three layers, and this project models each one.

- **Transition engine** (`state.dfy`, module `State`): the state snapshot
  (`FeatureState`, `Item`, the loading flags and the error slots), the
  fifteen-action union `Action`, the initial snapshot `INITIAL`, and the
  total pure function `Reduce(state, action)`.
  - It also holds the item-list helpers it is built from (`Without`,
    `Replace`, `Reconcile`, `Patch`, `InsertByCreatedAt`, `Restore`), the state
    invariant `Valid`, and the selectors.
  - `state_properties.dfy` (module `StateProperties`) proves the reducer
    against each `STATE_TRANSITIONS` entry: the fields that change, the
    fields that must not change, and the postconditions. It also proves
    that the invariants are preserved.
- **Error registry** (`errors.dfy`, module `Errors`): the closed set of
  nineteen error codes and their wire strings, with the string round trip
  and distinctness.
  - It has the three total tables (HTTP status, three-valued retry
    eligibility, owning layer), with cross-table consistency stated on each.
  - It has the collapse of eligibility to the orchestrator's `isRetryable`.
  - It has the correlation-id rule: present for errors that came back from
    the server, absent for errors raised on the client.
- **Orchestrator** (`orchestrator.dfy`, module `Orchestration`):
  - Pure parts:
    - the page-size default and clamp;
    - validation of create and update parameters;
    - the consumer error and result types;
    - the derived output `Derive(state, pending)` (sorted items with
      `isPending`, `isLoading`, `error`, `errors`, `hasMoreItems`,
      `isReady`), with the output invariants proved as lemmas.
  - The class `FeatureOrchestrator` holds four fields: the snapshot, a
    generation counter, the multiset of ids with an unconfirmed optimistic
    write, and an event log that stands for the `onItemCreated`,
    `onItemDeleted` and `onError` callbacks.
  - Each asynchronous action is a `Start…` method and a later
    `Complete…` method:
    - the start method sets loading, clears the error, applies the
      optimistic change and returns a ticket stamped with the generation;
    - the complete method reconciles or rolls back.
  - `Reset` bumps the generation. A completion whose ticket is stale
    returns `None` and changes nothing.
  - `scenarios.dfy` (module `Scenarios`) drives the class through concrete
    call sequences and states what the consumer observes after each.

`common.dfy` holds `Option` and `Result`.

Timestamps are natural numbers ordered by time. Asynchrony is modelled as
start and complete calls that the caller makes in any order. The server's
answer is a parameter of the complete call.

## Model

| member | source | states |
|---|---|---|
| Errors.AllCodesListed | templates/spec-system/errors.spec.ts:58-185 | the registry is closed: every code is in `ALL_CODES` |
| Errors.FromString | templates/spec-system/errors.spec.ts:58-185 | decoding gives a code whose wire string is the input, and `None` only when no code has that string |
| Errors.FindCode | templates/spec-system/errors.spec.ts:58-185 | a search of a code list finds a listed code with that string, or reports that none has it |
| Errors.RoundTrip | templates/spec-system/errors.spec.ts:58-185 | string to code and back: `FromString(ToString(c)) == Some(c)` for every code |
| Errors.ToStringDistinct | templates/spec-system/errors.spec.ts:58-185 | two codes with the same wire string are the same code |
| Errors.ToStringInjective | templates/spec-system/errors.spec.ts:58-185 | distinct codes have distinct wire strings |
| Errors.HttpStatus | templates/spec-system/errors.spec.ts:329-368 | no status exactly for the client-side group; every status is one the mapping rules allow; every validation code maps to 422 |
| Errors.RetryEligibilityOf | templates/spec-system/errors.spec.ts:374-403 | validation codes are after-user-action; external, internal and client codes are retryable; among resource codes only RESOURCE_STALE is after-user-action, and the others are not retryable; among authorization codes only UNAUTHENTICATED is after-user-action and only RATE_LIMIT_EXCEEDED is retryable |
| Errors.IsAutoRetryable | templates/spec-system/errors.spec.ts:374-403 | automatic retry holds exactly for the external, internal and client groups and RATE_LIMIT_EXCEEDED; every code without an HTTP status retries |
| Errors.Ownership | templates/spec-system/errors.spec.ts:409-438 | `client` exactly for the codes without an HTTP status; no code belongs to the orchestrator |
| Errors.ToErrorRecord | templates/spec-system/errors.spec.ts:212-217 | the record keeps code and message, is stamped with the failure time, and has a correlation id exactly for server failures (the server's id) |
| Errors.TranslatedCorrelation | templates/spec-system/errors.spec.ts:212-217 | for every failure the API client can report (client-side codes exactly from the client), the record obeys the correlation rule, carries an id exactly when its code has an HTTP status, lacks one exactly when its code is client-owned, and an INTERNAL_ERROR always carries one |
| State.Find | templates/spec-system/state.spec.ts:478 | a found item is in the list with the id asked for; `None` exactly when no item has the id |
| State.Without | templates/spec-system/state.spec.ts:542 | no item has the id afterwards; exactly the items with other ids remain; the ids left are the old ones minus this one; unique ids stay unique |
| StateProperties.ReconcilePlacesItem | templates/spec-system/state.spec.ts:483-494 | after a reconcile the new item's id is listed, and the id it replaced, when different, is not |
| StateProperties.ReconcileFinds | templates/spec-system/state.spec.ts:524-536 | reconciling under the item's own id makes that id name exactly the item, whether or not the id was still listed |
| StateProperties.ReconcileKeepsOthers | templates/spec-system/state.spec.ts:524-536 | when the id was listed every other item keeps its position; otherwise every item is kept; every other id stays listed |
| StateProperties.ReconcileKeepsUnique | templates/spec-system/state.spec.ts:633-642 | a reconcile keeps ids unique unless it puts an item in place of a listed id while the item's own, different id is listed too |
| StateProperties.ReconcilePosition | templates/spec-system/state.spec.ts:483-494 | gives a position of the reconciled list that holds the new item |
| State.InsertByCreatedAt | templates/spec-system/state.spec.ts:557 | the result is the list plus exactly the inserted item (as a multiset), and a newest-first list stays newest-first |
| State.SortByCreatedAt | templates/spec-system/orchestrator.spec.ts:130-135 | the result is newest-first and a permutation of the input |
| State.SelectSelectedItem | templates/spec-system/state.spec.ts:588-592 | a returned item is in the list and is the one selected; `None` exactly when nothing is selected or the selected id names no item |
| State.SelectItemsByStatus | templates/spec-system/state.spec.ts:594-602 | exactly the list's items with that status, each as often as in the list and in list order (a subsequence of the list); never more items than the list |
| State.Latest | templates/spec-system/state.spec.ts:610-615 | `None` exactly when every slot is empty; otherwise one of the slots, with an `occurredAt` no earlier than any other filled slot |
| StateProperties.InitialState | templates/spec-system/state.spec.ts:204-224 | the initial snapshot satisfies the invariants, has no cursor and is not marked fully loaded |
| StateProperties.ResetIsInitial | templates/spec-system/state.spec.ts:567-575 | a reset gives `INITIAL` from any state, so two resets equal one |
| StateProperties.FetchItemsStartedFrame | templates/spec-system/state.spec.ts:428-438 | fetching is set and its error cleared; items, selection, cursor, all-loaded, last-fetched time, the other flags and the other slots are unchanged |
| StateProperties.FetchItemsSucceededFrame | templates/spec-system/state.spec.ts:440-454 | items replaced by the page, cursor from the payload, all-loaded iff no cursor, last-fetched time set, fetching cleared; selection, errors and other flags unchanged |
| StateProperties.FetchItemsFailedFrame | templates/spec-system/state.spec.ts:456-466 | fetching cleared and its slot holds the error; items, selection, cursor, all-loaded, last-fetched time and the other slots unchanged |
| StateProperties.CreateItemStartedAddsPlaceholder | templates/spec-system/state.spec.ts:469-481 | creating set and its error cleared; the pending placeholder is appended after the unchanged old list, and when the optimistic id was new it is the only item with that id; selection and pagination unchanged |
| StateProperties.CreateItemSucceededSwapsId | templates/spec-system/state.spec.ts:483-494 | creating cleared; no item keeps the optimistic id; the server item is present in every case, also when the placeholder is gone; with unique ids and no clash it is present exactly once and is what its id names; every other id stays listed; selection, errors and pagination unchanged |
| StateProperties.CreateItemFailedRollsBack | templates/spec-system/state.spec.ts:496-508 | creating cleared, its slot holds the error, the placeholder is gone, exactly the other items remain; selection and pagination unchanged |
| StateProperties.UpdateItemStartedPatchesTarget | templates/spec-system/state.spec.ts:510-522 | updating set and its error cleared; other items unchanged at their positions; the target takes the given name and status, keeps id and timestamps, and its localVersion goes up by exactly 1 |
| StateProperties.UpdateItemSucceededReconciles | templates/spec-system/state.spec.ts:318-325 | updating cleared; the id now names the server item; ids stay unique; the length is kept and every item with another id keeps its position; errors, selection and pagination unchanged |
| StateProperties.UpdateItemFailedRollsBack | templates/spec-system/state.spec.ts:524-536 | updating cleared, its slot holds the error, and the id names exactly the pre-image in every case, also when the item is gone; when it was listed the other items keep their positions, and every other item is kept in any case; selection and pagination unchanged |
| StateProperties.UpdateRollbackRoundTrip | templates/spec-system/state.spec.ts:327-337 | starting an update and failing it with the pre-image gives back exactly the old item list |
| StateProperties.DeleteItemStartedRemoves | templates/spec-system/state.spec.ts:538-551 | deleting set and its error cleared; no item has the id; exactly the others remain; the selection becomes empty iff it was empty or was the deleted id, and is otherwise kept; pagination unchanged |
| StateProperties.DeleteItemSucceededConfirms | templates/spec-system/state.spec.ts:350-357 | deleting cleared; no item has the id and every item with another id is kept; a selection of the id is cleared and any other kept; errors and pagination unchanged |
| StateProperties.DeleteItemFailedRestores | templates/spec-system/state.spec.ts:553-565 | deleting cleared, its slot holds the error; the items are those without the id plus the pre-image, and the id names exactly the pre-image; a newest-first list stays newest-first; selection and pagination unchanged |
| StateProperties.RestoreFindsPreImage | templates/spec-system/state.spec.ts:557-563 | after a restore the id names exactly the pre-image, and a newest-first list stays so |
| StateProperties.DeleteRollbackRoundTrip | templates/spec-system/state.spec.ts:359-369 | starting a delete and failing it with the removed item gives back the old items (as a multiset) |
| StateProperties.SelectionActions | templates/spec-system/state.spec.ts:373-385 | selecting a listed id sets the selection and nothing else; selecting an unknown id changes nothing; deselecting empties the selection and nothing else |
| StateProperties.MutationsKeepPagination | templates/spec-system/state.spec.ts:469-565 | no mutation or selection action changes the cursor, all-loaded or the last-fetched time |
| StateProperties.ReducePreservesValid | templates/spec-system/state.spec.ts:633-642 | every action whose payload is applicable keeps ids unique, keeps the selection naming a listed item, and keeps all-loaded implying no cursor |
| StateProperties.CreateKeepsValid | templates/spec-system/state.spec.ts:633-642 | the same, for the three create actions |
| StateProperties.UpdateKeepsValid | templates/spec-system/state.spec.ts:633-642 | the same, for the three update actions |
| StateProperties.DeleteFailedKeepsValid | templates/spec-system/state.spec.ts:633-642 | the same, for a failed delete whose pre-image carries the id |
| StateProperties.OtherKeepValid | templates/spec-system/state.spec.ts:633-642 | the same, for the remaining actions |
| StateProperties.ReplaceKeepsUnique | templates/spec-system/state.spec.ts:637 | replacing an id's item by one whose id clashes with no other item keeps ids unique |
| StateProperties.FetchCanOrphanSelection | templates/spec-system/state.spec.ts:440-454 | a concrete page without the selected item leaves a valid state invalid, because the selection is kept |
| StateProperties.FailedUpdateRevivesDeletedItem | templates/spec-system/state.spec.ts:527-536 | on a concrete trace an update that fails after a delete of the same id was confirmed brings the deleted item back as the update's pre-image |
| StateProperties.SelectedPlaceholderCanBeOrphaned | templates/spec-system/state.spec.ts:483-508 | with the placeholder selected, both a failed create and a create confirmed under a new id leave a valid state invalid, because the selection is kept |
| StateProperties.ReducePreservesFetchedPagination | templates/spec-system/state.spec.ts:449-453 | once a fetch has succeeded, all-loaded iff no cursor, and every action keeps that |
| StateProperties.ReducePreservesNoSingleItemFetch | templates/spec-system/state.spec.ts:394-410 | no action of the union sets the single-item flag or fills its slot |
| StateProperties.SelectedItemIsTheNamedOne | templates/spec-system/state.spec.ts:588-592 | in a valid state with a selection, the selector returns `x` iff `x` is listed with the selected id |
| StateProperties.ReadinessAroundFetch | templates/spec-system/state.spec.ts:617-621 | not ready while fetching; ready right after a successful fetch; after a failed fetch with any error, ready iff fetched before |
| StateProperties.LatestErrorAfterFailure | templates/spec-system/state.spec.ts:610-615 | a fetch failure no older than every held error is exactly the latest error |
| Orchestration.EffectivePageSize | templates/spec-system/orchestrator.spec.ts:70-75 | always in [1, 100]; 20 when omitted; an in-range value kept; values below and above clamped to the bounds |
| Orchestration.EffectivePageSizeIdempotent | templates/spec-system/orchestrator.spec.ts:70-75 | clamping an effective page size again changes nothing |
| Orchestration.FromStateError | templates/spec-system/orchestrator.spec.ts:335-369 | code, message, time and correlation id carried over; `isRetryable` iff the code's eligibility is `true` |
| Orchestration.LocalError | templates/spec-system/orchestrator.spec.ts:364-368 | a locally raised error has no correlation id, and `isRetryable` iff its code's eligibility is `true` |
| Orchestration.ValidateCreate | templates/spec-system/orchestrator.spec.ts:285-290 | accepted iff the name has 1 to 255 characters and is not blank; a rejection is INVALID_NAME, not retryable, with no correlation id |
| Orchestration.ValidateUpdate | templates/spec-system/orchestrator.spec.ts:302-312 | accepted iff at least one field is given and a given name is valid; an empty change is VALIDATION_ERROR; every rejection is a validation code, not retryable, with no correlation id |
| Orchestration.BlankNamesRejected | templates/spec-system/orchestrator.spec.ts:289 | a blank name is rejected by create and by update, whatever its length |
| Orchestration.DerivedItems | templates/spec-system/orchestrator.spec.ts:130-135 | the output items are the projections of the held items with the same multiplicities (a multiset equality), newest first; every held item appears projected; every output item is the projection of a held item |
| Orchestration.ProjectInsert | templates/spec-system/orchestrator.spec.ts:130-135 | projecting after an insertion by createdAt gives the projected list plus the projected item, as a multiset |
| Orchestration.ProjectSort | templates/spec-system/orchestrator.spec.ts:130-135 | projecting the sorted list gives the same multiset as projecting the list |
| Orchestration.ProjectCons | templates/spec-system/orchestrator.spec.ts:130-135 | the projection of a list with an item in front is that item's projection plus the projection of the rest, as a multiset |
| Orchestration.SelectedItemIsListed | templates/spec-system/orchestrator.spec.ts:436 | a selected output item is one of the output items and carries the selected id |
| Orchestration.IsLoadingIffSomeFlag | templates/spec-system/orchestrator.spec.ts:437 | `isLoading` iff one of the four loading states is set |
| Orchestration.ErrorIsLatestSlot | templates/spec-system/orchestrator.spec.ts:438 | `error` is empty iff all four slots are; otherwise it is one of them, and no filled slot occurred later |
| Orchestration.LatestOverFilledSlots | templates/spec-system/orchestrator.spec.ts:154-158 | with the single-item slot empty, the latest of the five state slots is the latest of the four consumer slots |
| Orchestration.HasMoreOnlyWhenReady | templates/spec-system/orchestrator.spec.ts:439 | `hasMoreItems` implies `isReady`; `isReady` iff fetched once and not fetching |
| Orchestration.ConfirmedNotPending | templates/spec-system/orchestrator.spec.ts:440 | once no write of an id is in flight, no output item with that id is pending |
| Orchestration.ShownWhenHeld | templates/spec-system/orchestrator.spec.ts:130-135 | every held item shows, projected, among the output items |
| Orchestration.ConfirmationClearsPending | templates/spec-system/orchestrator.spec.ts:440 | confirming one write of an id clears the pending mark of that id's items exactly when it was the id's only write in flight; every other item, and every other field, is unchanged |
| Orchestration.FeatureOrchestrator.constructor | templates/spec-system/orchestrator.spec.ts:70-75 | starts from the initial snapshot with the effective page size, generation 0, nothing in flight and no events |
| Orchestration.FeatureOrchestrator.StartLoadItems | templates/spec-system/orchestrator.spec.ts:394-397 | the snapshot takes FETCH_ITEMS_STARTED; the ticket asks for the first page at the page size, stamped with the current generation |
| Orchestration.FeatureOrchestrator.StartLoadMoreItems | templates/spec-system/orchestrator.spec.ts:190-195 | without more items it does nothing and returns no ticket; otherwise as loadItems, asking for the page after the cursor and appending |
| Orchestration.FeatureOrchestrator.CompleteFetch | templates/spec-system/orchestrator.spec.ts:398-400 | a stale ticket changes nothing; a page replaces (or extends) the items, keeps the errors and returns the output items; a failure keeps the items, fills the fetch slot, reports the error and returns it |
| Orchestration.FeatureOrchestrator.StartCreate | templates/spec-system/orchestrator.spec.ts:402-406 | an invalid name is rejected and reported with nothing else changed; otherwise the placeholder is added and marked pending |
| Orchestration.FeatureOrchestrator.CompleteCreate | templates/spec-system/orchestrator.spec.ts:407-410 | a stale ticket changes nothing; otherwise the placeholder leaves the in-flight set; on success the server item takes its place (or is added when a reload dropped it), onItemCreated gets it, it is returned and listed in the output, and, when no other write of its id is in flight, neither it nor any output item with its id is pending; on failure the placeholder is removed and the error is recorded, reported and returned |
| Orchestration.FeatureOrchestrator.StartUpdate | templates/spec-system/orchestrator.spec.ts:206-215 | invalid changes, or an id naming no item, are rejected and reported with nothing else changed; otherwise the change is applied, marked pending, and the pre-image goes into the ticket |
| Orchestration.FeatureOrchestrator.CompleteUpdate | templates/spec-system/orchestrator.spec.ts:206-215 | a stale ticket changes nothing; otherwise the update leaves the in-flight set; on success the item takes the server version while the id is listed (when a reload or a delete has removed the id, the confirmation is dropped, unlike the failure path, which re-inserts), and when this was the id's only write in flight neither the returned item nor any output item with the id is pending; on failure the id names exactly the pre-image again (also when a reload dropped the item) and the error is recorded, reported and returned |
| Orchestration.FeatureOrchestrator.StartDelete | templates/spec-system/orchestrator.spec.ts:217-224 | an id naming no item is rejected and reported; otherwise the item is removed at once and its pre-image goes into the ticket |
| Orchestration.FeatureOrchestrator.CompleteDelete | templates/spec-system/orchestrator.spec.ts:217-224 | a stale ticket changes nothing; a confirmation keeps the item removed and calls onItemDeleted; a failure restores the pre-image and records, reports and returns the error |
| Orchestration.FeatureOrchestrator.SelectItem | templates/spec-system/orchestrator.spec.ts:226-231 | a listed id becomes the selection and nothing else changes; an unknown id changes nothing |
| Orchestration.FeatureOrchestrator.ClearSelection | templates/spec-system/orchestrator.spec.ts:233-236 | the selection is emptied, nothing else changes, and the output shows no selected item |
| Orchestration.FeatureOrchestrator.Reset | templates/spec-system/orchestrator.spec.ts:412-415 | back to the initial snapshot with nothing in flight; the generation goes up so every earlier ticket is stale; no callback is invoked |
| Scenarios.ResponseAfterReset | templates/spec-system/orchestrator.spec.ts:442 | a page for a load started before a reset is dropped, and the output stays initial |
| Scenarios.BeforeFirstLoad | templates/spec-system/orchestrator.spec.ts:190-195 | before the first load nothing is ready, loadMoreItems issues nothing, and a load in flight shows loading |
| Scenarios.FirstLoad | templates/spec-system/orchestrator.spec.ts:166-176 | a first page with a cursor is ready, not loading, and has more items |
| Scenarios.LoadMore | templates/spec-system/orchestrator.spec.ts:190-195 | loadMoreItems asks from the cursor at the clamped page size and appends; the output is newest first and complete |
| Scenarios.CreateShowsPlaceholder | templates/spec-system/orchestrator.spec.ts:402-406 | a create shows a pending placeholder at once, with creating set |
| Scenarios.CreateConfirmed | templates/spec-system/orchestrator.spec.ts:407-408 | the server item replaces the placeholder, is not pending, is returned and is passed to onItemCreated |
| Scenarios.CreateConfirmedAfterReload | templates/spec-system/state.spec.ts:491-492 | a reload that empties the list before the create is confirmed drops the placeholder, and the confirmed server item still shows, not pending |
| Scenarios.CreateFailed | templates/spec-system/orchestrator.spec.ts:409-410 | a failed create removes the placeholder and shows a retryable error with no correlation id, as the slot and as the latest error |
| Scenarios.BlankNameRejected | templates/spec-system/orchestrator.spec.ts:285-290 | a blank name is rejected as INVALID_NAME, not retryable, with no correlation id, and onError receives it |
| Scenarios.UpdateShowsChange | templates/spec-system/orchestrator.spec.ts:206-211 | an update shows the change at once, marked pending |
| Scenarios.UpdateRolledBack | templates/spec-system/orchestrator.spec.ts:206-211 | a rejected update shows the item as before, with a non-retryable conflict carrying the server's correlation id |
| Scenarios.EmptyUpdateRejected | templates/spec-system/orchestrator.spec.ts:302-305 | an update with no changes is rejected as VALIDATION_ERROR |
| Scenarios.Select | templates/spec-system/orchestrator.spec.ts:226-231 | selecting an unknown id shows no selection; selecting a listed one shows that item |
| Scenarios.DeleteClearsSelection | templates/spec-system/state.spec.ts:538-551 | deleting the selected item removes it at once and clears the selection |
| Scenarios.DeleteRestored | templates/spec-system/orchestrator.spec.ts:217-224 | a failed delete puts the item back at its createdAt position and shows the storage error |

## Modelling decisions

These follow the contracts as written where they are silent or inconsistent.

- **FETCH_ITEMS_SUCCEEDED keeps `selectedItemId`** (state.spec.ts:448), even
  when the new page lacks that item. The invariant that a selection names a
  listed item (state.spec.ts:635) then fails, which
  `StateProperties.FetchCanOrphanSelection` shows on a concrete state.
  - `ReducePreservesValid` therefore requires `Applicable`: a page must hold
    its selected item, and the other payload conditions are listed on the
    predicate.
  - `SelectSelectedItem` returns `None` for a dangling id, so the output
    invariant `SelectedItemIsListed` holds without `Applicable`.
  - The create transitions keep the selection too (state.spec.ts:488 and
    502), so a selected placeholder is left dangling when the create fails or
    is confirmed under a new id; `StateProperties.SelectedPlaceholderCanBeOrphaned`
    shows both, and `Applicable` excludes them.
- **A confirmed create or a failed update whose id is no longer listed.** A
  reload can replace the list between the start and the completion. The
  postconditions of CREATE_ITEM_SUCCEEDED ("server item present",
  state.spec.ts:492) and UPDATE_ITEM_FAILED ("find … === previousItem",
  state.spec.ts:534) must still hold, so both go through `Reconcile`: the
  item takes the place of the listed id; if that id is gone, it replaces a
  copy listed under its own id, or is inserted by createdAt as a failed
  delete's pre-image is.
  - A confirmed delete of the same id also removes it before the update
    completes. The rollback then brings the deleted item back, as
    state.spec.ts:534 demands, although `onItemDeleted` was reported and
    orchestrator.spec.ts:220 says a deleted item remains removed.
    `StateProperties.FailedUpdateRevivesDeletedItem` shows it on a concrete
    trace.
  - UPDATE_ITEM_SUCCEEDED has no postcondition to keep, so it only replaces
    a listed id: a confirmation whose id was removed in between is dropped.
- **A successful load keeps `errors`** (state.spec.ts:448), while the
  `loadItems` comment says `error.fetchItems` is cleared on success
  (orchestrator.spec.ts:185). The model follows the transition table. The
  start of every load clears that slot (FETCH_ITEMS_STARTED), so the two
  readings differ only when a second load fails while the first one is
  still in flight.
- **Pagination invariant.** The source invariant is only "all loaded implies
  no cursor". `INITIAL` has no cursor and is not fully loaded, so the
  stronger equality holds only once a fetch has succeeded. That equality is
  the separate invariant `FetchedPagination`.
- **Transitions that have no `STATE_TRANSITIONS` entry**:
  - UPDATE_ITEM_SUCCEEDED replaces the item with that id by the server's
    version and clears the flag.
  - DELETE_ITEM_SUCCEEDED removes the id again ("must be confirmed removed")
    and clears the selection if it named that id.
  - ITEM_SELECTED sets the selection only for a listed id, and is otherwise
    a no-op.
  - ITEM_DESELECTED empties the selection.
- **DELETE_ITEM_FAILED** removes any item with the id, then inserts the
  pre-image before the first strictly older item, so that a newest-first list
  stays newest-first. The derived list is sorted by the same insertion, so
  items with equal `createdAt` come out in the reverse of their stored order.
- **The optimistic placeholder** has status `pending`, `localVersion` 0, and
  both timestamps 0, since the action carries no time. With `createdAt` 0 it
  comes last in the newest-first derived list until the server confirms it.
- **loadMoreItems** appends by dispatching FETCH_ITEMS_SUCCEEDED with the
  current items followed by the page, because the action union has no
  separate append action.
- **Loading flags.** Each completion clears its operation's flag, as every
  `STATE_TRANSITIONS` entry says (`true → false`), even while a second
  operation of the same kind is still in flight. A flag that stays set until
  the last such operation completes would need a count per operation, which
  the state does not have. `isPending` is tracked per id instead, as a multiset of the
  ids with an unconfirmed optimistic write.
- **Unknown ids.** `updateItem` or `deleteItem` on an id that names no item
  is rejected before any request with RESOURCE_NOT_FOUND. There is no
  pre-image to journal. The rejection is reported through `onError`.
- **Rejected input.** A name or change set that fails validation is rejected
  before any state change with INVALID_NAME or VALIDATION_ERROR, with no
  correlation id, and is reported through `onError`.
- **Ownership of locally raised codes.** The orchestrator raises
  INVALID_NAME, VALIDATION_ERROR and RESOURCE_NOT_FOUND itself, before any
  request. `Ownership` still gives them to the API layer, as the ownership
  table does (errors.spec.ts:411-438): no code in that table is
  `orchestrator`, so the model keeps the table and does not reassign them.
- **Consumer-facing error codes.** Only the five operations of the action
  union have error slots. The single-item fetch flag and slot are never set
  (`ReducePreservesNoSingleItemFetch`), so the consumer's four slots lose
  nothing.

## Left out

- `ui.spec.ts` and `api.spec.ts` are not part of this model; they hold
  component props, rendering rules, endpoints and transport configuration.
- Real asynchrony, Promises and network calls: completions are explicit
  method calls, and the server's answer is a parameter. Best-effort
  cancellation becomes the generation check.
- The callbacks `onItemCreated`, `onItemDeleted` and `onError` are an
  appended event log, not calls into consumer code.
- `autoFetch` and the validation of input props at initialization: the
  caller issues the first `StartLoadItems`. `parentId` is passed through
  by the API client in the source, so it is absent here.
- ISO-8601 parsing and formatting of timestamps: they are natural numbers
  ordered by time.
- `ERROR_MESSAGE_GUIDANCE`, `ERROR_COVERAGE_REQUIREMENTS` and the
  error-specific payload fields (`fields`, `resetAt`, `retryAfterSeconds`,
  `dependency`, `resourceId`, `currentVersion`). `retryAfterSeconds` needs a
  wall clock.
- The `options` of `CreateItemParams`, and the status-transition rules of
  `UpdateItemChanges.status`, which live in a behaviour document outside
  these files: any status is accepted.
- Serialization of updates and deletes on the same id: two start calls on
  the same id both proceed, and their completions are applied in the order
  they are made. An update that fails after a delete of its id was
  confirmed therefore brings the deleted item back (see Modelling
  decisions).
- `pageSize` as a floating-point number: the model takes integers.
- Name length is counted in characters, not in UTF-16 code units as
  JavaScript's `length` does.
- `DUPLICATE_NAME` of the API contract, which has no counterpart in the
  registry.
- Template header metadata (spec ids, content hash).
- Orchestration.FeatureOrchestrator: its invariant does not include the
  state invariant `Valid`. The orchestrator cannot check that a server item
  clashes with no other id, so unique ids are proved of the engine (under
  `Applicable`) and not kept by the class.
- Orchestration.FeatureOrchestrator.CompleteFetch,
  Orchestration.FeatureOrchestrator.CompleteCreate,
  Orchestration.FeatureOrchestrator.CompleteUpdate and
  Orchestration.FeatureOrchestrator.CompleteDelete: none detects a second
  completion of the same current-generation ticket; only tickets from before
  a reset are dropped. A replayed create or delete ticket reports
  `onItemCreated` or `onItemDeleted` a second time.
- StateProperties.DeleteRollbackRoundTrip: it states equality of the item
  multiset, not of the sequence. The pre-image is reinserted at its
  createdAt position, which is its old position only in a newest-first list.
- StateProperties.CreateItemSucceededSwapsId: it requires the server id to
  differ from the optimistic id. Otherwise "no item has the optimistic id"
  and "the server item is present" cannot both hold.
- Orchestration.FeatureOrchestrator.CompleteCreate and
  Orchestration.FeatureOrchestrator.CompleteUpdate: an item is promised not
  pending after its confirmation only when no other optimistic write of the
  same id is still in flight; while one is, the item stays marked pending.
- StateProperties.UpdateItemSucceededReconciles: "the id names the server
  item" requires unique ids and a listed id. Without a listed id the
  transition drops the confirmation, so the server item is not present
  afterwards; the promise that other items keep their positions needs
  neither condition, but is stated under them.
