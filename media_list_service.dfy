/** MediaListService: the catalog cache with its sort and filter settings. Both copies of the
    service (src/app/media-list/ and src/media-list/) behave as this class. */
module MediaListServices {
  import opened Constants
  import opened Catalog
  import opened Events

  class MediaListService {
    /** The latest polled list, in the order the last sort left it. */
    var mediaList: seq<Media>
    /** Every item ever ingested, under its id. */
    var mediaListCache: map<MediaId, Media>
    var sortOptions: SortOptions
    var filterBy: string
    /** What the service handed to `eventEmitter.emit`, oldest first. */
    var emitted: seq<Event>

    /** A new service: empty list and cache, sorted by title ascending, no filter. */
    constructor ()
      ensures mediaList == [] && mediaListCache == map[]
      ensures sortOptions == SortOptions("title", 1) && filterBy == "*"
      ensures emitted == []
    {
      mediaList := [];
      mediaListCache := map[];
      sortOptions := SortOptions("title", 1);
      filterBy := "*";
      emitted := [];
    }

    /** `updateCache(newMediaList)`: the list becomes the new one, each of its items is stored
        under its id (a later item with the same id wins), and one EVENT_MEDIA_LIST_UPDATED
        carrying the whole cache is emitted. */
    method UpdateCache(newMediaList: seq<Media>)
      modifies this
      ensures mediaList == newMediaList
      ensures mediaListCache == UpsertAll(old(mediaListCache), newMediaList)
      ensures old(mediaListCache).Keys <= mediaListCache.Keys
      ensures emitted == old(emitted) + [Event(EventMediaListUpdated, MediaListUpdated(mediaListCache))]
      ensures sortOptions == old(sortOptions) && filterBy == old(filterBy)
    {
      mediaList := newMediaList;
      for i := 0 to |newMediaList|
        invariant mediaListCache == UpsertAll(old(mediaListCache), newMediaList[..i])
        invariant mediaList == newMediaList && emitted == old(emitted)
        invariant sortOptions == old(sortOptions) && filterBy == old(filterBy)
      {
        assert newMediaList[..i + 1][..i] == newMediaList[..i];
        mediaListCache := mediaListCache[newMediaList[i].id := newMediaList[i]];
      }
      assert newMediaList[..|newMediaList|] == newMediaList;
      emitted := emitted + [Event(EventMediaListUpdated, MediaListUpdated(mediaListCache))];
    }

    /** `sortMediaList`: the list is sorted by the current options. */
    method SortMediaList()
      modifies this
      ensures mediaList == SortBy(old(mediaList), sortOptions)
      ensures multiset(mediaList) == multiset(old(mediaList)) && Ordered(mediaList, sortOptions)
      ensures mediaListCache == old(mediaListCache) && sortOptions == old(sortOptions)
      ensures filterBy == old(filterBy) && emitted == old(emitted)
    {
      mediaList := SortBy(mediaList, sortOptions);
    }

    /** `updateSortByProperty(p)`: sets the sort property only, then sorts. */
    method UpdateSortByProperty(property: string)
      modifies this
      ensures sortOptions == old(sortOptions).(property := property)
      ensures mediaList == SortBy(old(mediaList), sortOptions)
      ensures mediaListCache == old(mediaListCache) && filterBy == old(filterBy) && emitted == old(emitted)
    {
      sortOptions := sortOptions.(property := property);
      SortMediaList();
    }

    /** `updateSortByDir(d)`: sets the direction only, then sorts. */
    method UpdateSortByDir(dir: int)
      modifies this
      ensures sortOptions == old(sortOptions).(dir := dir)
      ensures mediaList == SortBy(old(mediaList), sortOptions)
      ensures mediaListCache == old(mediaListCache) && filterBy == old(filterBy) && emitted == old(emitted)
    {
      sortOptions := sortOptions.(dir := dir);
      SortMediaList();
    }

    /** `updateFilterBy(f)`: sets the filter only; the filtered list it computes is discarded,
        and the list itself is left as it was. */
    method UpdateFilterBy(filter: string)
      modifies this
      ensures filterBy == filter
      ensures mediaList == old(mediaList) && mediaListCache == old(mediaListCache)
      ensures sortOptions == old(sortOptions) && emitted == old(emitted)
    {
      filterBy := filter;
      var _ := FilterMediaList(mediaList, filterBy);
    }

    /** `getMediaList`: sorts the list, then returns its filtered view. */
    method GetMediaList() returns (r: seq<Media>)
      modifies this
      ensures mediaList == SortBy(old(mediaList), sortOptions)
      ensures r == FilterMediaList(mediaList, filterBy)
      ensures mediaListCache == old(mediaListCache) && sortOptions == old(sortOptions)
      ensures filterBy == old(filterBy) && emitted == old(emitted)
    {
      SortMediaList();
      r := FilterMediaList(mediaList, filterBy);
    }
  }

  /** What `getMediaList` returns is ordered by the comparator and is a subsequence of a
      permutation of the list it started from. */
  lemma GetMediaListOrdered(list: seq<Media>, options: SortOptions, filterBy: string)
    ensures Ordered(FilterMediaList(SortBy(list, options), filterBy), options)
    ensures forall m :: m in FilterMediaList(SortBy(list, options), filterBy) ==> m in list
  {
    var sorted := SortBy(list, options);
    var r := FilterMediaList(sorted, filterBy);
    Sequences.SubsequenceElements(r, sorted);
    OrderedSubsequence(r, sorted, options);
    forall m | m in r ensures m in list {
      assert m in multiset(sorted);
    }
  }

  /** Scenario: after sorting by title and then by direction -1, the list
      `getMediaList` returns has non-increasing titles. */
  method SortByTitleDescendingScenario(items: seq<Media>) returns (r: seq<Media>)
    ensures multiset(r) == multiset(items)
    ensures forall i, j :: 0 <= i < j < |r| ==> !LexLess(r[i].title, r[j].title)
  {
    var service := new MediaListService();
    service.UpdateCache(items);
    service.UpdateSortByProperty("title");
    service.UpdateSortByDir(-1);
    r := service.GetMediaList();
    TitleDescending(r);
  }
}
