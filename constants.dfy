/** The values of the application's constants file (src/app.constants.js). */
module Constants {
  /** EVENT_POLLING_RESULT: a poll fetched the catalog. */
  const EventPollingResult: string := "polling:result"
  /** EVENT_MEDIA_LIST_UPDATED: the catalog cache changed. */
  const EventMediaListUpdated: string := "medialist:updated"
  /** EVENT_POLLING_INTERVAL_CHANGED: not defined in src/app.constants.js; the model uses "polling:interval-changed". */
  const EventPollingIntervalChanged: string := "polling:interval-changed"
  /** POLLING_INTERVAL_MS: the default polling cadence. */
  const PollingIntervalMs: nat := 10000
  /** STORAGE_ID_WATCH_LATER: the storage key of the watch-later entries. */
  const StorageIdWatchLater: string := "watch_later_items"
}
