# Media list app: services core in Dafny

This project models the service layer of a small ES6 media-list application. It covers four parts:

- **MediaListService** holds the latest polled catalog and an id-keyed cache of every item ever
  seen. It also holds the sort options (property and direction) and a filter token. It sorts with
  a comparator and filters with one of `'*'`, `'live'`, `'offline'` or `'video'`.
- **WatchListService** keeps the user's watch-later entries `{mediaId, addedAt}` in a key-value
  store. It drops every entry whose item is no longer in the catalog cache, and it joins the
  remaining entries with their cached items for display.
- **EventEmitter** is the in-process bus: `on(key, handler)` subscribes and `emit(key, payload)`
  calls the subscribers of that key.
- **PollingService** fetches the catalog at a fixed interval. Each success emits a polling-result
  event. A failure stops the interval and raises an alert.

The repository has two copies of MediaListService: `src/app/media-list/` and the older
`src/media-list/`. They behave the same, and one class models both. `getObjectAsArray` exists only
in the older copy. The implementations of WatchListService, EventEmitter and PollingService are
not part of this model. Their assertions in the test files fix their behaviour, and the model
follows those assertions.

Modules:

- `Wrappers` holds `Option`.
- `Constants` holds the event names, `POLLING_INTERVAL_MS` and the storage key.
- `Sequences` holds `Array.prototype.filter` as `Filter`, and the subsequence relation.
- `Catalog` holds the item record, the sort key, `Comparator`, the `SortBy` specification of the
  sort, `FilterMediaList`, the cache fold `UpsertAll` and `GetObjectAsArray`.
- `Events` holds the payloads and the `EventEmitter` class.
- `MediaListServices` holds the `MediaListService` class.
- `WatchLater` holds the watch-list queries and the `WatchListService` class.
- `Polling` holds the timer model and the `PollingService` class.

Inputs from outside the program are parameters:

- The current time of `addToWatchList` is the parameter `now`.
- The API's answers are a function from the fetch number to `Success(items)` or `Failure`.
- The timer clock is a millisecond counter that only `AdvanceTime` moves.
- The key-value store is a map field of the watch-list service.

What a service hands to the outside world is appended to a log field:

- `emitted` in `MediaListService`;
- `log` in `PollingService`, which records emitted events, alerts and cleared interval ids.

`EventEmitter.Emit` returns the list of (handler, payload) deliveries instead of calling closures.

An unknown filter token gives `[]`, because the filter predicate is false for every item under it
(src/app/media-list/media.list.service.js:45-50). `FilterMediaList` states that.

## Model

| member | source | states |
|---|---|---|
| MediaListServices.MediaListService.constructor | src/app/media-list/media.list.service.js:5-16 | A new service has an empty list, an empty cache, sort by `title` with `dir = 1`, filter `'*'`, and has emitted nothing. |
| MediaListServices.MediaListService.UpdateCache | src/app/media-list/media.list.service.js:18-25 | The list becomes the new list. The cache becomes the old cache with every item of the new list written under its id, in list order, through a loop. Its key set only grows. Exactly one `EVENT_MEDIA_LIST_UPDATED` carrying the updated cache is emitted. Sort options and filter are unchanged. |
| Catalog.UpsertAll | src/app/media-list/media.list.service.js:20-22 | The cache's keys after the upserts are the old keys together with the ids of the list. |
| Catalog.UpsertAllLastWins | src/media-list/media.list.service.js:18-22 | An item with no later item of the same id is what the cache holds under its id: a later duplicate wins. |
| Catalog.UpsertAllUntouched | src/app/media-list/media.list.service.js:20-22 | An id that the list does not mention is in the new cache exactly when it was in the old one, with the same value. |
| Catalog.UpsertAllAppend | src/media-list/media.list.service.js:18-24 | Two updates in a row leave the cache that one update with both lists leaves. So the keys are the union of all ingested ids. |
| Catalog.SortKeyOf | src/app/media-list/media.list.service.js:64-65 | An item has a sort key exactly for the properties `id`, `title`, `isLive` and `type`. Any other property is `undefined`. |
| Catalog.LexLessIrreflexive | src/app/media-list/media.list.service.js:66 | No string is less than itself under the string `<`. |
| Catalog.LexLessTransitive | src/app/media-list/media.list.service.js:66 | The string `<` is transitive. |
| Catalog.LexLessTotal | src/app/media-list/media.list.service.js:66-69 | Of two different strings, one is less than the other. |
| Catalog.KeyLessStrictTotalOrder | src/app/media-list/media.list.service.js:66-69 | The order of sort keys is irreflexive, transitive and total. |
| Catalog.Comparator | src/app/media-list/media.list.service.js:63-74 | The comparator's result is always `-dir`, `dir` or `0`. |
| Catalog.ComparatorEqualKeys | src/media-list/media.list.service.js:73-84 | Items with equal sort keys, including two `undefined` ones, compare as 0 in every direction. |
| Catalog.ComparatorAntisymmetric | src/app/media-list/media.list.service.js:63-74 | Swapping the arguments negates the result, for every `dir`. |
| Catalog.ComparatorSign | src/media-list/media.list.service.js:73-84 | For a known property, the result is negative, positive or 0 exactly as the key order scaled by the sign of `dir` says. |
| Catalog.ComparatorTransitive | src/app/media-list/media.list.service.js:63-74 | "Does not come after" (comparator `<= 0`) is transitive, so a list can be ordered by it. |
| Catalog.Insert | src/app/media-list/media.list.service.js:59-61 | Inserting an item adds exactly that item to the list's multiset. |
| Catalog.InsertOrdered | src/app/media-list/media.list.service.js:59-61 | Inserting into an ordered list keeps it ordered. |
| Catalog.SortBy | src/app/media-list/media.list.service.js:59-61 | The sorted list is a permutation of the list, and no item comes before an earlier one under the comparator. |
| MediaListServices.MediaListService.SortMediaList | src/app/media-list/media.list.service.js:59-61 | The list becomes a permutation of itself that is ordered by the comparator. Everything else is unchanged. |
| MediaListServices.MediaListService.UpdateSortByProperty | src/app/media-list/media.list.service.js:27-31 | Only the sort property changes, not the direction. Then the list is re-sorted. The cache, filter and event log are unchanged. |
| MediaListServices.MediaListService.UpdateSortByDir | src/app/media-list/media.list.service.js:33-37 | Only the direction changes, not the property. Then the list is re-sorted. The cache, filter and event log are unchanged. |
| MediaListServices.MediaListService.UpdateFilterBy | src/app/media-list/media.list.service.js:39-42 | Only the filter token changes. The list is left as it was, because the filtered list computed here is discarded. |
| Catalog.FilterMediaList | src/app/media-list/media.list.service.js:44-53 | The result is an order-preserving subsequence of the list. With `'*'` it is the list itself. `'live'` keeps exactly the live items, `'offline'` exactly the others, and `'video'` exactly those of type `recorded`, each with its multiplicity. Any other token gives `[]`. |
| MediaListServices.MediaListService.GetMediaList | src/app/media-list/media.list.service.js:55-58 | The list is sorted first. The result is the filtered view of the sorted list. |
| MediaListServices.GetMediaListOrdered | src/media-list/media.list.service.js:55-61 | What `getMediaList` returns is ordered by the comparator, and each of its items is in the original list. |
| Catalog.SortByKeepsTiesInOrder | src/app/media-list/media.list.service.js:59-74 | Two items that compare as 0 keep their input order, in either order: the sort is stable. |
| Catalog.OrderedSubsequence | src/media-list/media.list.service.js:44-61 | Any subsequence of an ordered list, such as a filter result, is ordered. |
| Catalog.TitleDescending | src/app/media-list/media.list.service.js:63-74 | A list ordered by title with `dir = -1` has non-increasing titles. |
| MediaListServices.SortByTitleDescendingScenario | src/app/media-list/media.list.service.js:27-61 | After `updateCache`, sort by title and direction -1, `getMediaList` returns a permutation of the items with non-increasing titles. |
| Catalog.GetObjectAsArray | src/media-list/media.list.service.js:63-71 | One value per key, in key order. The length equals the number of keys. Every value of the object appears, and the empty object gives `[]`. |
| Sequences.Filter | src/app/media-list/media.list.service.js:46-50 | The result of `filter` is a subsequence whose elements all pass. Each passing value keeps its multiplicity and each failing value is dropped. |
| Sequences.FilterAppend | src/app/media-list/media.list.service.js:46-50 | Filtering a concatenation is concatenating the filtered parts. |
| Sequences.FilterAll | src/app/media-list/media.list.service.js:46-50 | When every element passes, the filter returns the sequence unchanged. |
| Sequences.SubsequenceReflexive | src/app/media-list/media.list.service.js:52 | A list is a subsequence of itself. |
| Sequences.SubsequenceElements | src/media-list/media.list.service.js:55-58 | Every element of a subsequence is in the sequence it came from. |
| Sequences.DistinctCardinality | src/media-list/media.list.service.js:64 | A duplicate-free key list has as many keys as its set. |
| WatchLater.WatchListService.constructor | src/app/media-list/watch-later-list/watch.later.list.service.spec.js:15 | A new service has no entries and an empty cache, over the given store. |
| WatchLater.WatchListService.LoadWatchListEntriesFromStorage | src/app/media-list/watch-later-list/watch.later.list.service.spec.js:24-40 | The entries become the value stored under `STORAGE_ID_WATCH_LATER` verbatim, or `[]` when nothing is stored there. The store and cache are unchanged. |
| WatchLater.WatchListService.UpdateWatchListInStorage | src/app/media-list/watch-later-list/watch.later.list.service.spec.js:117-124 | The entries are written under `STORAGE_ID_WATCH_LATER`. Nothing else changes. |
| WatchLater.SelectCachedMediaItemForWatchList | src/app/media-list/watch-later-list/watch.later.list.service.spec.js:191-207 | The result keeps, in order and with their multiplicities, exactly the entries whose item id is a cache key. It drops every other entry. |
| WatchLater.WatchListService.UpdateWatchList | src/app/media-list/watch-later-list/watch.later.list.service.spec.js:101-124 | The cache becomes the given one. The entries become the selection against it and are written to the store. Afterwards every entry refers to a cached item. |
| WatchLater.GetCachedMediaForEntry | src/app/media-list/watch-later-list/watch.later.list.service.spec.js:74-83 | For a cached id, the record has the entry's id, the cached item's title and the entry's `addedAt`. A record exists exactly when the id is cached. |
| WatchLater.GetWatchList | src/app/media-list/watch-later-list/watch.later.list.service.spec.js:53-59 | There is one `getCachedMediaForEntry` result per entry, in entry order, so the length equals the number of entries. |
| WatchLater.ReconciledWatchListJoins | src/app/media-list/watch-later-list/watch.later.list.service.spec.js:53-124 | After the selection, the view has a record for every entry, in order, with the entry's id and time. |
| WatchLater.WatchListService.AddToWatchList | src/app/media-list/watch-later-list/watch.later.list.service.spec.js:140-153 | Exactly one entry with the current time is appended, and the entries are stored. The entries stay reconciled exactly when they were before and the new id is cached. |
| WatchLater.RemoveEntries | src/app/media-list/watch-later-list/watch.later.list.service.spec.js:169-180 | The remaining entries are an order-preserving subsequence with no entry for the id. Every other entry keeps its multiplicity. |
| WatchLater.WatchListService.RemoveFromWatchList | src/app/media-list/watch-later-list/watch.later.list.service.spec.js:169-180 | The entries for the id are dropped and the rest are stored. A reconciled list stays reconciled. |
| WatchLater.RemoveAbsentIsNoOp | src/app/media-list/watch-later-list/watch.later.list.service.spec.js:169-180 | Removing an id that no entry has leaves the entries unchanged. |
| WatchLater.AddThenRemove | src/app/media-list/watch-later-list/watch.later.list.service.spec.js:140-180 | Adding an id and then removing it leaves what removing it alone leaves. |
| WatchLater.ReconcileScenario | src/app/media-list/watch-later-list/watch.later.list.service.spec.js:191-207 | With items 1 and 3 cached, the entries for 2 and 3 reconcile to the entry for 3, and that entry is what is stored. |
| WatchLater.AddThenRemoveScenario | src/app/media-list/watch-later-list/watch.later.list.service.spec.js:140-180 | On an empty list, add 7 then remove 7 leaves `[]` and stores `[]`. |
| Events.EventEmitter.constructor | src/framework/event-emitter/event.emitter.spec.js:9 | A new emitter has no subscribers. |
| Events.EventEmitter.On | src/framework/event-emitter/event.emitter.spec.js:18-31 | The key's subscriber list exists afterwards and has the handler appended, without deduplication. Other keys keep their lists. |
| Events.EventEmitter.Emit | src/framework/event-emitter/event.emitter.spec.js:39-50 | One delivery of the payload per registration under the key, in registration order. A key without subscribers delivers nothing. |
| Events.OnAppendsScenario | src/framework/event-emitter/event.emitter.spec.js:18-31 | The first `on` creates a list of length 1. A second `on` with the same handler gives length 2. |
| Events.EmitCallsSubscriberScenario | src/framework/event-emitter/event.emitter.spec.js:39-44 | Emitting on a key with one subscriber delivers the payload to it once. |
| Events.EmitWithoutSubscribersScenario | src/framework/event-emitter/event.emitter.spec.js:46-50 | Emitting on a key nobody subscribed to delivers nothing, even when other keys have subscribers. |
| Polling.PollingService.constructor | src/app/polling/polling.service.spec.js:139-145 | A new service has a null interval id and the default cadence `POLLING_INTERVAL_MS`. It has made no fetch and logged nothing. |
| Polling.PollingService.SetPollingIntervalMilliseconds | src/app/polling/polling.service.spec.js:42-47 | The cadence becomes the given milliseconds. Nothing else changes. |
| Polling.PollingService.Stop | src/app/polling/polling.service.spec.js:139-156 | The interval id becomes null. The interval is cleared exactly when an id was set, and then it is that same id. |
| Polling.PollingService.Poll | src/app/polling/polling.service.spec.js:97-119 | Exactly one fetch is made. On success, `EVENT_POLLING_RESULT` with the fetched items is emitted. On failure, `stop` clears the interval and an alert is raised. |
| Polling.PollingService.Start | src/app/polling/polling.service.spec.js:64-77 | A fresh interval with the current cadence is set up, and exactly one poll runs immediately. The interval is next due one period later. |
| Polling.PollingService.Restart | src/app/polling/polling.service.spec.js:171-177 | `stop` runs, then `start`: the old interval, if any, is cleared before the new one is set up and polls. |
| Polling.PollingService.RestartWithNewIntervalSeconds | src/app/polling/polling.service.spec.js:193-199 | The cadence becomes `seconds * 1000` ms, then the service restarts with it. |
| Polling.PollingService.Init | src/app/polling/polling.service.spec.js:15-30 | The service's own callback `IntervalChangedHandler` is appended to the subscribers of `EVENT_POLLING_INTERVAL_CHANGED`. Other keys keep their subscribers. |
| Polling.PollingService.HandleDelivery | src/app/polling/polling.service.spec.js:20-29 | A number of seconds delivered to that callback restarts polling with `seconds * 1000` ms, exactly as `restartWithNewIntervalSeconds` does. A delivery to another handler changes nothing. |
| Polling.IntervalChangedScenario | src/app/polling/polling.service.spec.js:15-30 | After `init`, emitting `EVENT_POLLING_INTERVAL_CHANGED` with some seconds reaches the callback exactly once. It sets the cadence to `seconds * 1000` and polls once. |
| Polling.PollingService.FireTimer | src/app/polling/polling.service.spec.js:71-77 | When the interval fires, the clock reads its due time and the callback polls once. |
| Polling.PollingService.AdvanceTime | src/app/polling/polling.service.spec.js:71-77 | The loop fires the interval at each due time up to the new clock value, and the new state is what `RunTimers` gives. The scheduled polls run until one fails, and that one leaves the interval cleared. An interval still running afterwards is next due within one period. |
| Polling.TimerPeriod | src/app/polling/polling.service.spec.js:71-77 | The interval's period is at least 1 ms, and it equals the cadence when the cadence is positive. |
| Polling.NextDue | src/app/polling/polling.service.spec.js:71-77 | A timer that is not yet due keeps its due time. Otherwise it is next due after the clock and within one period of it. |
| Polling.TimedPollsStopAtFailure | src/app/polling/polling.service.spec.js:111-119 | Every timer-driven poll that runs succeeds except possibly the last. Fewer polls than scheduled run only because the last one failed. |
| Polling.RunTimersPolls | src/app/polling/polling.service.spec.js:71-119 | Running the timer makes one fetch per due time until a fetch fails, and logs exactly what those polls do. |
| Polling.RunTimersStops | src/app/polling/polling.service.spec.js:71-119 | The interval survives running the timer exactly when every fetch it made succeeded. It is then next due within one period of the clock. |
| Polling.StartThenIntervalScenario | src/app/polling/polling.service.spec.js:64-77 | `start` polls once at once. One millisecond short of the interval there is still one poll. At the interval there are two polls, and the interval is still running. |
| Polling.FailedFetchStopsScenario | src/app/polling/polling.service.spec.js:111-119 | A failed first fetch clears interval 1 and alerts. However long one then waits, no further poll happens. |
| Polling.StopScenario | src/app/polling/polling.service.spec.js:139-156 | `stop` without an interval clears nothing and leaves the id null. After `start`, `stop` clears exactly the id that `start` set and makes it null again. |

## Left out

- The in-place `Array.prototype.sort` on the array that the caller of `updateCache` also holds is
  not modelled. The model reassigns a `seq`, so the aliasing between the caller's array and
  `mediaList` is not captured.
- The sort algorithm itself is not modelled. `SortBy` is a stable insertion sort: items that
  compare as 0 keep their input order. ECMAScript 2019 and later require `Array.prototype.sort`
  to be stable, and the comparator is consistent, so the order of ties matches. Engines older
  than that standard may order ties differently.
- `updateCache` emits the live `mediaListCache` object, and the watch-list service keeps that
  object by reference (src/media-list/watch-later-list/watch.later.list.component.js:34). The
  model logs a copy of the map, so later cache writes seen through that shared object are not
  captured.
- JavaScript's loose `<` across mixed types is not modelled. Each property has one key type, so a
  property sorts by one kind of key: numbers for `id` and `isLive` (as 0 or 1), strings for
  `title` and `type`. Strings compare character by character; JavaScript compares UTF-16 code
  units, and the model does not separate the two.
- A property other than the four item fields is `undefined`, and then every pair compares as 0.
  Extra item fields beyond those four are not modelled.
- `getObjectAsArray` takes the key list as a parameter. `Object.keys` enumeration order is not
  modelled; the parameter only has to list each key once.
- Catalog ids are numbers. The string form of a JavaScript object key is not modelled, so `1` and
  `'1'` are one key, as they are in the source's objects.
- The ApiService HTTP call, the StorageService `localStorage` wrapper with its JSON
  serialisation, the DOM view and the UI components are not modelled; they are outside the
  services core. The store is an abstract map from key to entries.
- `console.log` in the sort setters is not modelled. `window.alert` is the `Alerted` log entry.
- Real timers, the event loop and promise settlement are not modelled. A fetch settles within the
  poll that issued it, so the race between an in-flight fetch and `stop` is not captured.
- The clock is a millisecond counter. The interval keeps the period it was started with;
  `TimerPeriod` raises a period below 1 ms to 1 ms.
- Polling.PollingService.Start: a second `start` without a `stop` overwrites the interval id; the
  first timer, which the source would leave running, is not modelled.
- Polling.PollingService.HandleDelivery: handlers are ids, not closures, so an emitter does not run
  the callback itself. The delivery is passed to `HandleDelivery`. A payload other than a number
  of seconds changes nothing in the model. The source's callback would pass any payload to
  `restartWithNewIntervalSeconds`, including no argument at all, and its `undefined * 1000`
  arithmetic is not modelled.
- The event-name value of `EVENT_POLLING_INTERVAL_CHANGED` is not in `src/app.constants.js`. The
  model uses `"polling:interval-changed"`.
- WatchLater.GetCachedMediaForEntry returns `None` for an id the cache lacks. The source's
  behaviour for that case is not shown.
- WatchLater.WatchListService.constructor: whether the source's constructor loads from the store
  is not shown. The model starts empty, and `LoadWatchListEntriesFromStorage` loads.
- The watch-list service's use of `EVENT_WATCHLIST_ADD` / `EVENT_WATCHLIST_REMOVE` and of the
  event emitter is not modelled; its test file asserts nothing about it.
- The stored value is the entry list itself. The source stores strings and `Date` objects, and
  their serialisation is not modelled.
- The watch-later component's call order is not modelled: `updateWatchList`, then
  `getWatchList`, then render (src/media-list/watch-later-list/watch.later.list.component.js:34-37).
  `ReconciledWatchListJoins` states what that order guarantees.
