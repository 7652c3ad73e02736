/** WatchListService: the persisted watch-later entries, reconciled against the catalog cache.
    The queries are functions of the service's two fields; the class holds the state changes. */
module WatchLater {
  import opened Wrappers
  import opened Constants
  import opened Sequences
  import opened Catalog

  /** A point in time, in milliseconds (what `new Date()` stands for). */
  type Time = int

  /** One watch-later entry: which item, and when it was added. */
  datatype Entry = Entry(mediaId: MediaId, addedAt: Time)

  /** The record the watch-later view shows: the cached item joined with its entry's time. */
  datatype WatchListItem = WatchListItem(id: MediaId, title: string, isLive: bool, mediaType: string, addedAt: Time)

  /** `selectCachedMediaItemForWatchList`: the entries whose item is in the cache, in order. */
  function SelectCachedMediaItemForWatchList(entries: seq<Entry>, cache: map<MediaId, Media>): (r: seq<Entry>)
    ensures IsSubsequence(r, entries)
    ensures forall i :: 0 <= i < |r| ==> r[i].mediaId in cache
    ensures forall e: Entry :: multiset(r)[e] == if e.mediaId in cache then multiset(entries)[e] else 0
  {
    Filter(entries, (e: Entry) => e.mediaId in cache)
  }

  /** `getCachedMediaForEntry`: the cached item's fields with the entry's id and time;
      `None` when the cache has no such item (the source would read a property of `undefined`). */
  function GetCachedMediaForEntry(entry: Entry, cache: map<MediaId, Media>): (r: Option<WatchListItem>)
    ensures r.Some? <==> entry.mediaId in cache
    ensures r.Some? ==>
      && r.value.id == entry.mediaId
      && r.value.title == cache[entry.mediaId].title
      && r.value.addedAt == entry.addedAt
  {
    if entry.mediaId in cache then
      var m := cache[entry.mediaId];
      Some(WatchListItem(entry.mediaId, m.title, m.isLive, m.mediaType, entry.addedAt))
    else
      None
  }

  /** `getWatchList`: one joined record per entry, in entry order. */
  function GetWatchList(entries: seq<Entry>, cache: map<MediaId, Media>): (r: seq<Option<WatchListItem>>)
    ensures |r| == |entries|
    ensures forall i :: 0 <= i < |r| ==> r[i] == GetCachedMediaForEntry(entries[i], cache)
  {
    seq(|entries|, i requires 0 <= i < |entries| => GetCachedMediaForEntry(entries[i], cache))
  }

  /** After reconciliation the view is complete: every entry joins with its cached item,
      and the records appear in entry order with the entries' ids and times. */
  lemma ReconciledWatchListJoins(entries: seq<Entry>, cache: map<MediaId, Media>)
    ensures var kept := SelectCachedMediaItemForWatchList(entries, cache);
      var view := GetWatchList(kept, cache);
      forall i :: 0 <= i < |view| ==>
        view[i].Some? && view[i].value.id == kept[i].mediaId && view[i].value.addedAt == kept[i].addedAt
  {
  }

  /** The filter of `removeFromWatchList`: every entry for other items, in order. */
  function RemoveEntries(entries: seq<Entry>, mediaId: MediaId): (r: seq<Entry>)
    ensures IsSubsequence(r, entries)
    ensures forall i :: 0 <= i < |r| ==> r[i].mediaId != mediaId
    ensures forall e: Entry :: e.mediaId != mediaId ==> multiset(r)[e] == multiset(entries)[e]
  {
    Filter(entries, (e: Entry) => e.mediaId != mediaId)
  }

  /** Removing an id nobody added leaves the entries as they are. */
  lemma RemoveAbsentIsNoOp(entries: seq<Entry>, mediaId: MediaId)
    requires forall i :: 0 <= i < |entries| ==> entries[i].mediaId != mediaId
    ensures RemoveEntries(entries, mediaId) == entries
  {
    FilterAll(entries, (e: Entry) => e.mediaId != mediaId);
  }

  /** Adding an id and then removing it leaves what removing it alone leaves; from an empty
      list, add then remove gives the empty list. */
  lemma AddThenRemove(entries: seq<Entry>, mediaId: MediaId, now: Time)
    ensures RemoveEntries(entries + [Entry(mediaId, now)], mediaId) == RemoveEntries(entries, mediaId)
  {
    var keep := (e: Entry) => e.mediaId != mediaId;
    FilterAppend(entries, [Entry(mediaId, now)], keep);
    assert Filter([Entry(mediaId, now)], keep) == [];
  }

  /** The storage value under `key`, or the empty list when nothing (or the empty value) is stored. */
  function StoredEntries(storage: map<string, seq<Entry>>, key: string): seq<Entry> {
    if key in storage then storage[key] else []
  }

  class WatchListService {
    var watchListEntries: seq<Entry>
    var mediaListCache: map<MediaId, Media>
    /** The key-value store behind StorageService, as the values it holds. */
    var storage: map<string, seq<Entry>>

    /** Every entry refers to a cached item, so the view has no gaps. */
    ghost predicate Reconciled()
      reads this
    {
      forall i :: 0 <= i < |watchListEntries| ==> watchListEntries[i].mediaId in mediaListCache
    }

    constructor (storage: map<string, seq<Entry>>)
      ensures watchListEntries == [] && mediaListCache == map[] && this.storage == storage
    {
      watchListEntries := [];
      mediaListCache := map[];
      this.storage := storage;
    }

    /** `loadWatchListEntriesFromStorage`: adopts the value stored under STORAGE_ID_WATCH_LATER
        as it is, or the empty list when that value is empty. */
    method LoadWatchListEntriesFromStorage()
      modifies this
      ensures watchListEntries == StoredEntries(storage, StorageIdWatchLater)
      ensures storage == old(storage) && mediaListCache == old(mediaListCache)
    {
      watchListEntries := StoredEntries(storage, StorageIdWatchLater);
    }

    /** `updateWatchListInStorage`: writes the entries under STORAGE_ID_WATCH_LATER. */
    method UpdateWatchListInStorage()
      modifies this
      ensures storage == old(storage)[StorageIdWatchLater := watchListEntries]
      ensures watchListEntries == old(watchListEntries) && mediaListCache == old(mediaListCache)
    {
      storage := storage[StorageIdWatchLater := watchListEntries];
    }

    /** `updateWatchList(cache)`: adopts the cache, drops the entries it has no item for,
        and persists what is left. */
    method UpdateWatchList(cache: map<MediaId, Media>)
      modifies this
      ensures mediaListCache == cache
      ensures watchListEntries == SelectCachedMediaItemForWatchList(old(watchListEntries), cache)
      ensures storage == old(storage)[StorageIdWatchLater := watchListEntries]
      ensures Reconciled()
    {
      mediaListCache := cache;
      watchListEntries := SelectCachedMediaItemForWatchList(watchListEntries, mediaListCache);
      UpdateWatchListInStorage();
    }

    /** `addToWatchList(id)`: appends one entry stamped with the current time and persists. */
    method AddToWatchList(mediaId: MediaId, now: Time)
      modifies this
      ensures watchListEntries == old(watchListEntries) + [Entry(mediaId, now)]
      ensures storage == old(storage)[StorageIdWatchLater := watchListEntries]
      ensures mediaListCache == old(mediaListCache)
      ensures Reconciled() <==> old(Reconciled()) && mediaId in mediaListCache
    {
      watchListEntries := watchListEntries + [Entry(mediaId, now)];
      UpdateWatchListInStorage();
      assert watchListEntries[|watchListEntries| - 1].mediaId == mediaId;
      assert forall i :: 0 <= i < |old(watchListEntries)| ==> watchListEntries[i] == old(watchListEntries)[i];
    }

    /** `removeFromWatchList(id)`: drops every entry for the id and persists. */
    method RemoveFromWatchList(mediaId: MediaId)
      modifies this
      ensures watchListEntries == RemoveEntries(old(watchListEntries), mediaId)
      ensures storage == old(storage)[StorageIdWatchLater := watchListEntries]
      ensures mediaListCache == old(mediaListCache)
      ensures old(Reconciled()) ==> Reconciled()
    {
      watchListEntries := RemoveEntries(watchListEntries, mediaId);
      UpdateWatchListInStorage();
      assert forall e :: e in watchListEntries ==> e in old(watchListEntries);
    }
  }

  /** Scenario: with items 1 and 3 cached, entries for 2 and 3 reconcile to the
      entry for 3, and that is what is stored. */
  method ReconcileScenario(m1: Media, m3: Media, t2: Time, t3: Time) returns (kept: seq<Entry>, stored: seq<Entry>)
    requires m1.id == 1 && m3.id == 3
    ensures kept == [Entry(3, t3)] && stored == kept
  {
    var service := new WatchListService(map[]);
    service.watchListEntries := [Entry(2, t2), Entry(3, t3)];
    service.UpdateWatchList(map[1 := m1, 3 := m3]);
    kept := service.watchListEntries;
    stored := service.storage[StorageIdWatchLater];
    assert kept == Filter([Entry(2, t2), Entry(3, t3)], (e: Entry) => e.mediaId in map[1 := m1, 3 := m3]);
  }

  /** Scenario: add 7 then remove 7 on an empty list leaves and stores the empty list. */
  method AddThenRemoveScenario(now: Time) returns (entries: seq<Entry>, stored: seq<Entry>)
    ensures entries == [] && stored == []
  {
    var service := new WatchListService(map[]);
    service.AddToWatchList(7, now);
    service.RemoveFromWatchList(7);
    entries := service.watchListEntries;
    stored := service.storage[StorageIdWatchLater];
    AddThenRemove([], 7, now);
    assert [] + [Entry(7, now)] == [Entry(7, now)];
    RemoveAbsentIsNoOp([], 7);
  }
}
