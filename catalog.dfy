/** The media catalog as values: items, the sort comparator, the sort itself, the filter,
    the id-indexed cache update and `getObjectAsArray` of MediaListService. */
module Catalog {
  import opened Wrappers
  import opened Sequences

  /** Ids are numbers; the cache's JavaScript object keys are their string forms, one per id. */
  type MediaId = int

  /** A catalog item as the API delivers it; `mediaType` is the item's `type` property. */
  datatype Media = Media(id: MediaId, title: string, isLive: bool, mediaType: string)

  /** The `sortOptions` record: the property to sort by and the direction factor. */
  datatype SortOptions = SortOptions(property: string, dir: int)

  /** The value of one sort property. Each property always yields the same alternative. */
  datatype SortKey = Number(n: int) | Text(s: string)

  const MediaProperties: set<string> := {"id", "title", "isLive", "type"}

  /** `item[property]`: `None` is JavaScript's `undefined` for a property an item does not have.
      A boolean compares as the number 0 or 1, as JavaScript's `<` converts it. */
  function SortKeyOf(m: Media, property: string): (k: Option<SortKey>)
    ensures k.Some? <==> property in MediaProperties
  {
    if property == "id" then Some(Number(m.id))
    else if property == "title" then Some(Text(m.title))
    else if property == "isLive" then Some(Number(if m.isLive then 1 else 0))
    else if property == "type" then Some(Text(m.mediaType))
    else None
  }

  /** JavaScript's `<` on two strings: code unit by code unit, a proper prefix first. */
  predicate LexLess(a: string, b: string) {
    if |a| == 0 then |b| > 0
    else if |b| == 0 then false
    else if a[0] != b[0] then a[0] < b[0]
    else LexLess(a[1..], b[1..])
  }

  lemma {:induction false} LexLessIrreflexive(a: string)
    ensures !LexLess(a, a)
  {
    if |a| > 0 {
      LexLessIrreflexive(a[1..]);
    }
  }

  lemma {:induction false} LexLessTransitive(a: string, b: string, c: string)
    requires LexLess(a, b) && LexLess(b, c)
    ensures LexLess(a, c)
  {
    if |a| > 0 && |b| > 0 && |c| > 0 && a[0] == b[0] && b[0] == c[0] {
      LexLessTransitive(a[1..], b[1..], c[1..]);
    }
  }

  lemma {:induction false} LexLessTotal(a: string, b: string)
    ensures a == b || LexLess(a, b) || LexLess(b, a)
  {
    if |a| > 0 && |b| > 0 && a[0] == b[0] {
      LexLessTotal(a[1..], b[1..]);
      if a[1..] == b[1..] {
        assert a == [a[0]] + a[1..] && b == [b[0]] + b[1..];
      }
    }
  }

  /** The strict order on sort keys. Numbers before texts is arbitrary: the two are never
      compared, since one property always yields one kind of key. */
  predicate KeyLess(a: SortKey, b: SortKey) {
    match (a, b)
    case (Number(m), Number(n)) => m < n
    case (Text(s), Text(t)) => LexLess(s, t)
    case (Number(_), Text(_)) => true
    case (Text(_), Number(_)) => false
  }

  /** KeyLess is a strict total order. */
  lemma KeyLessStrictTotalOrder(a: SortKey, b: SortKey, c: SortKey)
    ensures !KeyLess(a, a)
    ensures KeyLess(a, b) && KeyLess(b, c) ==> KeyLess(a, c)
    ensures a == b || KeyLess(a, b) || KeyLess(b, a)
  {
    if a.Text? {
      LexLessIrreflexive(a.s);
      if b.Text? {
        LexLessTotal(a.s, b.s);
        if c.Text? && KeyLess(a, b) && KeyLess(b, c) {
          LexLessTransitive(a.s, b.s, c.s);
        }
      }
    }
  }

  /** `comparator(a, b)`: `-dir` when a's key is smaller, `dir` when it is larger, else 0. */
  function Comparator(a: Media, b: Media, options: SortOptions): (r: int)
    ensures r == -options.dir || r == options.dir || r == 0
  {
    var ka, kb := SortKeyOf(a, options.property), SortKeyOf(b, options.property);
    if ka.Some? && kb.Some? && KeyLess(ka.value, kb.value) then -1 * options.dir
    else if ka.Some? && kb.Some? && KeyLess(kb.value, ka.value) then 1 * options.dir
    else 0
  }

  /** Items with equal sort keys compare as 0, whatever the direction. */
  lemma ComparatorEqualKeys(a: Media, b: Media, options: SortOptions)
    requires SortKeyOf(a, options.property) == SortKeyOf(b, options.property)
    ensures Comparator(a, b, options) == 0
  {
    var k := SortKeyOf(a, options.property);
    if k.Some? {
      KeyLessStrictTotalOrder(k.value, k.value, k.value);
    }
  }

  /** Swapping the arguments negates the result, for every direction factor. */
  lemma ComparatorAntisymmetric(a: Media, b: Media, options: SortOptions)
    ensures Comparator(a, b, options) == -Comparator(b, a, options)
  {
    var ka, kb := SortKeyOf(a, options.property), SortKeyOf(b, options.property);
    if ka.Some? && kb.Some? {
      KeyLessStrictTotalOrder(ka.value, kb.value, ka.value);
    }
  }

  /** The sign of the result is the key order scaled by `dir`: with `dir = 1` a positive result
      means a's key is larger, with `dir = -1` it means a's key is smaller. */
  lemma ComparatorSign(a: Media, b: Media, options: SortOptions)
    requires options.property in MediaProperties
    ensures var ka, kb := SortKeyOf(a, options.property).value, SortKeyOf(b, options.property).value;
      && (options.dir > 0 ==> (Comparator(a, b, options) > 0 <==> KeyLess(kb, ka)))
      && (options.dir < 0 ==> (Comparator(a, b, options) > 0 <==> KeyLess(ka, kb)))
      && (options.dir == 0 ==> Comparator(a, b, options) == 0)
  {
    var ka, kb := SortKeyOf(a, options.property).value, SortKeyOf(b, options.property).value;
    KeyLessStrictTotalOrder(ka, kb, ka);
  }

  /** "a does not come after b" is transitive, so a list can be ordered by it. */
  lemma ComparatorTransitive(a: Media, b: Media, c: Media, options: SortOptions)
    requires Comparator(a, b, options) <= 0 && Comparator(b, c, options) <= 0
    ensures Comparator(a, c, options) <= 0
  {
    if options.property in MediaProperties && options.dir != 0 {
      var ka, kb, kc := SortKeyOf(a, options.property).value, SortKeyOf(b, options.property).value, SortKeyOf(c, options.property).value;
      KeyLessStrictTotalOrder(ka, kb, kc);
      KeyLessStrictTotalOrder(kb, kc, ka);
      KeyLessStrictTotalOrder(kc, ka, kb);
      KeyLessStrictTotalOrder(kc, kb, ka);
      KeyLessStrictTotalOrder(kb, ka, kc);
      KeyLessStrictTotalOrder(ka, kc, kb);
    }
  }

  /** No item comes before an earlier one: every pair, not only the adjacent ones,
      has a comparator result of at most 0. */
  predicate Ordered(s: seq<Media>, options: SortOptions) {
    forall i, j :: 0 <= i < j < |s| ==> Comparator(s[i], s[j], options) <= 0
  }

  function Insert(x: Media, s: seq<Media>, options: SortOptions): (r: seq<Media>)
    ensures multiset(r) == multiset(s) + multiset{x}
  {
    if s == [] || Comparator(x, s[0], options) <= 0 then [x] + s
    else
      assert s == [s[0]] + s[1..];
      [s[0]] + Insert(x, s[1..], options)
  }

  /** An item that does not come after any item of an ordered list can be put in front of it. */
  lemma OrderedCons(x: Media, s: seq<Media>, options: SortOptions)
    requires Ordered(s, options)
    requires forall y :: y in s ==> Comparator(x, y, options) <= 0
    ensures Ordered([x] + s, options)
  {
    var r := [x] + s;
    forall i, j | 0 <= i < j < |r| ensures Comparator(r[i], r[j], options) <= 0 {
      assert r[j] == s[j - 1];
      if i > 0 {
        assert r[i] == s[i - 1];
      }
    }
  }

  /** The tail of an ordered list is ordered. */
  lemma OrderedTail(s: seq<Media>, options: SortOptions)
    requires Ordered(s, options) && s != []
    ensures Ordered(s[1..], options)
  {
    var tail := s[1..];
    forall i, j | 0 <= i < j < |tail| ensures Comparator(tail[i], tail[j], options) <= 0 {
      assert tail[i] == s[i + 1] && tail[j] == s[j + 1];
    }
  }

  /** The head of an ordered list does not come after any later element. */
  lemma OrderedHead(s: seq<Media>, options: SortOptions)
    requires Ordered(s, options) && s != []
    ensures forall y :: y in s[1..] ==> Comparator(s[0], y, options) <= 0
  {
    forall y | y in s[1..] ensures Comparator(s[0], y, options) <= 0 {
      var k :| 0 <= k < |s[1..]| && s[1..][k] == y;
      assert s[k + 1] == y;
    }
  }

  lemma {:induction false} InsertOrdered(x: Media, s: seq<Media>, options: SortOptions)
    requires Ordered(s, options)
    ensures Ordered(Insert(x, s, options), options)
  {
    if s == [] {
      OrderedCons(x, s, options);
    } else if Comparator(x, s[0], options) <= 0 {
      OrderedHead(s, options);
      forall y | y in s ensures Comparator(x, y, options) <= 0 {
        if y != s[0] {
          assert y in s[1..] by { assert s == [s[0]] + s[1..]; }
          ComparatorTransitive(x, s[0], y, options);
        }
      }
      OrderedCons(x, s, options);
    } else {
      var tail := s[1..];
      OrderedTail(s, options);
      OrderedHead(s, options);
      InsertOrdered(x, tail, options);
      var rest := Insert(x, tail, options);
      ComparatorAntisymmetric(x, s[0], options);
      forall y | y in rest ensures Comparator(s[0], y, options) <= 0 {
        assert y in multiset(rest);
        assert y == x || y in tail;
      }
      OrderedCons(s[0], rest, options);
    }
  }

  /** The order `mediaList.sort(comparator)` leaves the list in: an insertion sort that puts each
      item before the later items it ties with. The result is a permutation of the input and is
      ordered by the comparator. */
  function SortBy(s: seq<Media>, options: SortOptions): (r: seq<Media>)
    ensures multiset(r) == multiset(s)
    ensures Ordered(r, options)
  {
    if s == [] then []
    else
      assert s == [s[0]] + s[1..];
      var sortedTail := SortBy(s[1..], options);
      InsertOrdered(s[0], sortedTail, options);
      Insert(s[0], sortedTail, options)
  }

  /** The sort is stable: two items that tie stay in the order they came in. */
  lemma SortByKeepsTiesInOrder(a: Media, b: Media, options: SortOptions)
    requires Comparator(a, b, options) == 0
    ensures SortBy([a, b], options) == [a, b]
    ensures SortBy([b, a], options) == [b, a]
  {
    ComparatorAntisymmetric(a, b, options);
    assert [a, b][1..] == [b] && [b, a][1..] == [a];
  }

  /** The picked-out part of an ordered list is ordered. */
  lemma {:induction false} OrderedSubsequence(r: seq<Media>, s: seq<Media>, options: SortOptions)
    requires IsSubsequence(r, s)
    requires Ordered(s, options)
    ensures Ordered(r, options)
    decreases |s|
  {
    if r != [] {
      OrderedTail(s, options);
      if r[0] == s[0] && IsSubsequence(r[1..], s[1..]) {
        OrderedSubsequence(r[1..], s[1..], options);
        SubsequenceElements(r[1..], s[1..]);
        OrderedHead(s, options);
        OrderedCons(r[0], r[1..], options);
        assert r == [r[0]] + r[1..];
      } else {
        OrderedSubsequence(r, s[1..], options);
      }
    }
  }

  /** Sorting by title with direction -1 leaves the titles in non-increasing order. */
  lemma TitleDescending(s: seq<Media>)
    requires Ordered(s, SortOptions("title", -1))
    ensures forall i, j :: 0 <= i < j < |s| ==> !LexLess(s[i].title, s[j].title)
  {
    forall i, j | 0 <= i < j < |s| ensures !LexLess(s[i].title, s[j].title) {
      ComparatorSign(s[i], s[j], SortOptions("title", -1));
      assert Comparator(s[i], s[j], SortOptions("title", -1)) <= 0;
    }
  }

  /** The per-item predicate of `filterMediaList` for a token other than `'*'`. */
  predicate Keep(filterBy: string, m: Media) {
    || (filterBy == "live" && m.isLive)
    || (filterBy == "offline" && !m.isLive)
    || (filterBy == "video" && m.mediaType == "recorded")
  }

  /** `filterMediaList`: the list itself for `'*'`, otherwise exactly the matching items in list
      order; for a token that is not one of the four the result is empty. */
  function FilterMediaList(list: seq<Media>, filterBy: string): (r: seq<Media>)
    ensures IsSubsequence(r, list)
    ensures filterBy == "*" ==> r == list
    ensures filterBy == "live" ==>
      forall m :: multiset(r)[m] == if m.isLive then multiset(list)[m] else 0
    ensures filterBy == "offline" ==>
      forall m :: multiset(r)[m] == if !m.isLive then multiset(list)[m] else 0
    ensures filterBy == "video" ==>
      forall m :: multiset(r)[m] == if m.mediaType == "recorded" then multiset(list)[m] else 0
    ensures filterBy !in {"*", "live", "offline", "video"} ==> r == []
  {
    if filterBy != "*" then
      Filter(list, m => Keep(filterBy, m))
    else
      SubsequenceReflexive(list);
      list
  }

  /** The cache after upserting `items` one after another under their ids. */
  function UpsertAll(cache: map<MediaId, Media>, items: seq<Media>): (r: map<MediaId, Media>)
    ensures r.Keys == cache.Keys + Ids(items)
  {
    if items == [] then cache
    else
      var init, last := items[..|items| - 1], items[|items| - 1];
      assert Ids(items) == Ids(init) + {last.id} by {
        assert forall i :: 0 <= i < |init| ==> items[i] == init[i];
      }
      UpsertAll(cache, init)[last.id := last]
  }

  /** The ids that occur in a list. */
  function Ids(items: seq<Media>): set<MediaId> {
    set i | 0 <= i < |items| :: items[i].id
  }

  /** Last write wins: an item that no later item shares its id with is what the cache holds. */
  lemma {:induction false} UpsertAllLastWins(cache: map<MediaId, Media>, items: seq<Media>, i: nat)
    requires i < |items|
    requires forall j :: i < j < |items| ==> items[j].id != items[i].id
    ensures items[i].id in UpsertAll(cache, items)
    ensures UpsertAll(cache, items)[items[i].id] == items[i]
  {
    if i < |items| - 1 {
      var init := items[..|items| - 1];
      UpsertAllLastWins(cache, init, i);
    }
  }

  /** The cache only grows: an id the list does not mention keeps its old entry, or stays absent. */
  lemma {:induction false} UpsertAllUntouched(cache: map<MediaId, Media>, items: seq<Media>, id: MediaId)
    requires id !in Ids(items)
    ensures id in UpsertAll(cache, items) <==> id in cache
    ensures id in cache ==> UpsertAll(cache, items)[id] == cache[id]
  {
    if items != [] {
      var init := items[..|items| - 1];
      assert id != items[|items| - 1].id;
      assert id !in Ids(init) by {
        assert forall i :: 0 <= i < |init| ==> init[i] == items[i];
      }
      UpsertAllUntouched(cache, init, id);
    }
  }

  /** Two updates in a row give the cache one update with both lists gives, so after any number
      of updates the cache holds every id ever seen, each with the item seen last. */
  lemma {:induction false} UpsertAllAppend(cache: map<MediaId, Media>, a: seq<Media>, b: seq<Media>)
    ensures UpsertAll(UpsertAll(cache, a), b) == UpsertAll(cache, a + b)
  {
    if b == [] {
      assert a + b == a;
    } else {
      var init := b[..|b| - 1];
      UpsertAllAppend(cache, a, init);
      assert (a + b)[..|a + b| - 1] == a + init;
      assert (a + b)[|a + b| - 1] == b[|b| - 1];
    }
  }

  /** `getObjectAsArray`: the object's values in the order of its keys. `keys` is what
      `Object.keys(obj)` returns, each key of the object once. */
  function GetObjectAsArray<K(!new), V>(obj: map<K, V>, keys: seq<K>): (r: seq<V>)
    requires forall k :: k in obj <==> k in keys
    requires Distinct(keys)
    ensures |r| == |keys| == |obj|
    ensures forall i :: 0 <= i < |r| ==> r[i] == obj[keys[i]]
    ensures forall k :: k in obj ==> obj[k] in r
    ensures obj == map[] ==> r == []
  {
    DistinctCardinality(keys);
    assert obj.Keys == set k | k in keys;
    if |keys| > 0 then
      var values := seq(|keys|, i requires 0 <= i < |keys| => obj[keys[i]]);
      assert forall k :: k in obj ==> obj[k] in values by {
        forall k | k in obj ensures obj[k] in values {
          var i :| 0 <= i < |keys| && keys[i] == k;
          assert values[i] == obj[k];
        }
      }
      values
    else
      []
  }
}
