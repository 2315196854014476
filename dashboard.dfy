/** The admin dashboard (src/pages/AdminDashboard.tsx): the admin guard and
    the figures `loadDashboardData` derives from the store. */
module Dashboard {
  import opened Model
  import opened Seqs
  import opened Catalog
  import opened Auth

  datatype Stats = Stats(totalPhotos: nat, totalVideos: nat, totalMedia: nat,
                         todayVisits: int, totalVisits: int, storageUsed: int)

  /** One slice of the album chart: an album name and its number of items. */
  datatype CategoryStat = CategoryStat(name: string, value: nat)

  /** `items.reduce((sum, item) => sum + item.size, 0)`. */
  function TotalSize(items: seq<MediaItem>): int {
    if items == [] then 0 else TotalSize(items[..|items| - 1]) + items[|items| - 1].size
  }

  /** Sizes add up over concatenation, so appending items adds their sizes. */
  lemma {:induction false} TotalSizeAppend(a: seq<MediaItem>, b: seq<MediaItem>)
    ensures TotalSize(a + b) == TotalSize(a) + TotalSize(b)
    decreases |b|
  {
    if b == [] {
      assert a + b == a;
    } else {
      assert (a + b)[..|a + b| - 1] == a + b[..|b| - 1];
      TotalSizeAppend(a, b[..|b| - 1]);
    }
  }

  const GiB: int := 1024 * 1024 * 1024

  /** `Math.round(totalSize / (100 GiB) * 100)`, computed exactly: the whole
      number of GiB nearest to the total, halves rounded up. */
  function StorageUsed(totalSize: int): (r: int)
    ensures 2 * GiB * r - GiB <= 2 * totalSize < 2 * GiB * r + GiB
  {
    (2 * totalSize + GiB) / (2 * GiB)
  }

  /** The catalog the dashboard reads: the stored one, or none. */
  function StoredCatalog(stored: Option<seq<MediaItem>>): seq<MediaItem> {
    if stored.Some? then stored.value else []
  }

  /** The counters of `loadDashboardData`; a missing visit record reads as 0/0. */
  function StatsOf(items: seq<MediaItem>, visits: Option<Visits>): (r: Stats)
    ensures r.totalPhotos + r.totalVideos == r.totalMedia == |items|
    ensures r.totalPhotos == |Filter(items, IsPhoto())| && r.totalVideos == |Filter(items, IsVideo())|
    ensures visits.Some? ==> r.todayVisits == visits.value.today && r.totalVisits == visits.value.total
    ensures visits.None? ==> r.todayVisits == 0 && r.totalVisits == 0
    ensures r.storageUsed == StorageUsed(TotalSize(items))
  {
    FilterPartition(items, IsPhoto(), IsVideo());
    var v := if visits.Some? then visits.value else Visits(0, 0, None);
    Stats(|Filter(items, IsPhoto())|, |Filter(items, IsVideo())|, |items|,
          v.today, v.total, StorageUsed(TotalSize(items)))
  }

  // ---------------------------------------------------------------------
  // The album chart

  /** The item carries album name `name`. */
  predicate Named(x: MediaItem, name: string) {
    Truthy(x.albumName) && x.albumName.value == name
  }

  /** The number of items carrying album name `name`. */
  function Count(items: seq<MediaItem>, name: string): nat {
    if items == [] then 0
    else Count(items[..|items| - 1], name) + (if Named(items[|items| - 1], name) then 1 else 0)
  }

  /** The count is the length of the album's filter. */
  lemma {:induction false} CountIsFilter(items: seq<MediaItem>, name: string)
    ensures Count(items, name) == |Filter(items, NamedPred(name))|
  {
    if items != [] {
      CountIsFilter(items[..|items| - 1], name);
    }
  }

  function StatsFor(items: seq<MediaItem>, names: seq<string>): (r: seq<CategoryStat>)
    ensures |r| == |names|
    ensures forall k :: 0 <= k < |names| ==> r[k] == CategoryStat(names[k], Count(items, names[k]))
  {
    if names == [] then []
    else StatsFor(items, names[..|names| - 1]) + [CategoryStat(names[|names| - 1], Count(items, names[|names| - 1]))]
  }

  /** The chart data: each album name once, in first-seen order, with its count. */
  function AlbumCounts(items: seq<MediaItem>): seq<CategoryStat> {
    StatsFor(items, AlbumNames(items))
  }

  function SumValues(stats: seq<CategoryStat>): nat {
    if stats == [] then 0 else SumValues(stats[..|stats| - 1]) + stats[|stats| - 1].value
  }

  /** Where every listed count but that of `n` is the same, the sum over
      distinct names grows by one exactly when `n` is among them. */
  lemma {:induction false} SumBump(a: seq<MediaItem>, b: seq<MediaItem>, names: seq<string>, n: string)
    requires NoDuplicates(names)
    requires forall i :: 0 <= i < |names| ==> Count(a, names[i]) == Count(b, names[i]) + (if names[i] == n then 1 else 0)
    ensures SumValues(StatsFor(a, names)) == SumValues(StatsFor(b, names)) + (if n in names then 1 else 0)
  {
    if names != [] {
      var names' := names[..|names| - 1];
      SumBump(a, b, names', n);
      assert StatsFor(a, names)[..|names'|] == StatsFor(a, names');
      assert StatsFor(b, names)[..|names'|] == StatsFor(b, names');
      assert names == names' + [names[|names| - 1]];
    }
  }

  /** Where no listed count changes, the sum does not change. */
  lemma {:induction false} SumSame(a: seq<MediaItem>, b: seq<MediaItem>, names: seq<string>)
    requires forall i :: 0 <= i < |names| ==> Count(a, names[i]) == Count(b, names[i])
    ensures SumValues(StatsFor(a, names)) == SumValues(StatsFor(b, names))
  {
    if names != [] {
      var names' := names[..|names| - 1];
      SumSame(a, b, names');
      assert StatsFor(a, names)[..|names'|] == StatsFor(a, names');
      assert StatsFor(b, names)[..|names'|] == StatsFor(b, names');
    }
  }

  /** One more item adds one to the count of its album name and changes no other. */
  lemma {:induction false} CountAppend(prefix: seq<MediaItem>, x: MediaItem, k: string)
    ensures Count(prefix + [x], k) == Count(prefix, k) + (if Named(x, k) then 1 else 0)
  {
    assert (prefix + [x])[..|prefix|] == prefix;
  }

  /** A name no item of `prefix` carries has count 0 there. */
  lemma {:induction false} CountAbsent(prefix: seq<MediaItem>, n: string)
    requires n !in AlbumNames(prefix)
    ensures Count(prefix, n) == 0
  {
    AlbumNameListMember(prefix, n);
    CountIsFilter(prefix, n);
  }

  lemma {:induction false} AlbumNamesAppend(prefix: seq<MediaItem>, x: MediaItem)
    ensures AlbumNames(prefix + [x])
         == AlbumNames(prefix) +
            (if Truthy(x.albumName) && x.albumName.value !in AlbumNames(prefix) then [x.albumName.value] else [])
  {
    var items := prefix + [x];
    assert items[..|prefix|] == prefix && items[..|prefix| + 1] == items;
    AlbumNamesStep(items, |prefix|);
  }

  /** An item without an album name leaves every album's count, and so the
      sum over any names, as it was. */
  lemma {:induction false} SumAppendUnnamed(prefix: seq<MediaItem>, x: MediaItem, names: seq<string>)
    requires !Truthy(x.albumName)
    ensures SumValues(StatsFor(prefix + [x], names)) == SumValues(StatsFor(prefix, names))
  {
    forall i | 0 <= i < |names| ensures Count(prefix + [x], names[i]) == Count(prefix, names[i]) {
      CountAppend(prefix, x, names[i]);
    }
    SumSame(prefix + [x], prefix, names);
  }

  /** An item with album name `n` adds one to the sum over distinct names
      exactly when `n` is among them. */
  lemma {:induction false} SumAppendNamed(prefix: seq<MediaItem>, x: MediaItem, names: seq<string>, n: string)
    requires Truthy(x.albumName) && x.albumName.value == n && NoDuplicates(names)
    ensures SumValues(StatsFor(prefix + [x], names)) == SumValues(StatsFor(prefix, names)) + (if n in names then 1 else 0)
  {
    forall i | 0 <= i < |names|
      ensures Count(prefix + [x], names[i]) == Count(prefix, names[i]) + (if names[i] == n then 1 else 0)
    {
      CountAppend(prefix, x, names[i]);
    }
    SumBump(prefix + [x], prefix, names, n);
  }

  /** The first item with album name `n` opens a slice of value 1. */
  lemma {:induction false} SumAppendNew(prefix: seq<MediaItem>, x: MediaItem, names: seq<string>, n: string)
    requires Truthy(x.albumName) && x.albumName.value == n && names == AlbumNames(prefix) && n !in names
    ensures SumValues(StatsFor(prefix + [x], names + [n])) == SumValues(StatsFor(prefix, names)) + 1
  {
    SumAppendNamed(prefix, x, names, n);
    CountAbsent(prefix, n);
    CountAppend(prefix, x, n);
    var r := StatsFor(prefix + [x], names + [n]);
    assert r[..|names|] == StatsFor(prefix + [x], names);
  }

  /** One more item adds one to the chart's total exactly when it has an
      album name. */
  lemma {:induction false} SumStep(prefix: seq<MediaItem>, x: MediaItem)
    ensures SumValues(AlbumCounts(prefix + [x])) == SumValues(AlbumCounts(prefix)) + (if Truthy(x.albumName) then 1 else 0)
  {
    var names := AlbumNames(prefix);
    var items := prefix + [x];
    if !Truthy(x.albumName) {
      assert AlbumNames(items) == names by { AlbumNamesAppend(prefix, x); }
      SumAppendUnnamed(prefix, x, names);
    } else if x.albumName.value in names {
      assert AlbumNames(items) == names by { AlbumNamesAppend(prefix, x); }
      SumAppendNamed(prefix, x, names, x.albumName.value);
    } else {
      assert AlbumNames(items) == names + [x.albumName.value] by { AlbumNamesAppend(prefix, x); }
      SumAppendNew(prefix, x, names, x.albumName.value);
    }
  }

  /** The chart's counts add up to the number of items that have an album name. */
  lemma {:induction false} AlbumCountsSum(items: seq<MediaItem>)
    ensures SumValues(AlbumCounts(items)) == |Filter(items, HasAlbumName())|
  {
    if items != [] {
      var prefix := items[..|items| - 1];
      var x := items[|items| - 1];
      assert items == prefix + [x];
      AlbumCountsSum(prefix);
      SumStep(prefix, x);
    }
  }

  /** The chart has one slice per album name, each name is one that some item
      carries, and every slice counts at least one item. */
  lemma {:induction false} AlbumCountsSpec(items: seq<MediaItem>)
    ensures forall i, j :: 0 <= i < j < |AlbumCounts(items)| ==> AlbumCounts(items)[i].name != AlbumCounts(items)[j].name
    ensures forall n :: (exists k :: 0 <= k < |AlbumCounts(items)| && AlbumCounts(items)[k].name == n)
                        <==> Filter(items, NamedPred(n)) != []
    ensures forall k :: 0 <= k < |AlbumCounts(items)| ==> AlbumCounts(items)[k].value > 0
  {
    var names := AlbumNames(items);
    var r := AlbumCounts(items);
    assert forall k :: 0 <= k < |r| ==> r[k].name == names[k];
    forall n ensures (exists k :: 0 <= k < |r| && r[k].name == n) <==> Filter(items, NamedPred(n)) != [] {
      AlbumNameListMember(items, n);
      var l := AlbumNameList(items);
      if n in l {
        var k :| 0 <= k < |l| && l[k] == n;
        assert l[k] in names;
        var k' :| 0 <= k' < |names| && names[k'] == n;
        assert r[k'].name == n;
      }
      if exists k :: 0 <= k < |r| && r[k].name == n {
        var k :| 0 <= k < |r| && r[k].name == n;
        assert names[k] in l;
      }
    }
    forall k | 0 <= k < |names| ensures Count(items, names[k]) > 0 {
      AlbumNameListMember(items, names[k]);
      CountIsFilter(items, names[k]);
    }
  }

  /** What `categoryMap` holds after the first items: each album name met so
      far, in first-seen order, with its count. */
  ghost predicate CountMapOf(prefix: seq<MediaItem>, m: map<string, nat>, keys: seq<string>) {
    keys == AlbumNames(prefix)
    && (forall k :: k in m <==> k in keys)
    && (forall k :: k in m ==> m[k] == Count(prefix, k))
  }

  lemma {:induction false} CountMapSkip(prefix: seq<MediaItem>, x: MediaItem, m: map<string, nat>, keys: seq<string>)
    requires !Truthy(x.albumName) && CountMapOf(prefix, m, keys)
    ensures CountMapOf(prefix + [x], m, keys)
  {
    AlbumNamesAppend(prefix, x);
    forall k | k in m ensures m[k] == Count(prefix + [x], k) {
      CountAppend(prefix, x, k);
    }
  }

  lemma {:induction false} CountMapNew(prefix: seq<MediaItem>, x: MediaItem, m: map<string, nat>, keys: seq<string>, n: string)
    requires Truthy(x.albumName) && n == x.albumName.value && n !in m
    requires CountMapOf(prefix, m, keys)
    ensures CountMapOf(prefix + [x], m[n := 1], keys + [n])
  {
    AlbumNamesAppend(prefix, x);
    CountAbsent(prefix, n);
    var m' := m[n := 1];
    forall k | k in m' ensures m'[k] == Count(prefix + [x], k) {
      CountAppend(prefix, x, k);
    }
  }

  lemma {:induction false} CountMapMore(prefix: seq<MediaItem>, x: MediaItem, m: map<string, nat>, keys: seq<string>, n: string)
    requires Truthy(x.albumName) && n == x.albumName.value && n in m
    requires CountMapOf(prefix, m, keys)
    ensures CountMapOf(prefix + [x], m[n := m[n] + 1], keys)
  {
    AlbumNamesAppend(prefix, x);
    var m' := m[n := m[n] + 1];
    forall k | k in m' ensures m'[k] == Count(prefix + [x], k) {
      CountAppend(prefix, x, k);
    }
  }

  /** One turn of the `forEach` that fills `categoryMap`, as a value: an item
      without an album name changes nothing, a name met for the first time is
      added last with count 1, a known name has its count raised by one. */
  function CountStep(m: map<string, nat>, keys: seq<string>, item: MediaItem): (map<string, nat>, seq<string>) {
    if !Truthy(item.albumName) then (m, keys)
    else
      var n := item.albumName.value;
      if n in m then (m[n := m[n] + 1], keys) else (m[n := 1], keys + [n])
  }

  /** Every turn keeps the map equal to the counts of the items seen so far,
      keyed in first-seen order. */
  lemma {:induction false} CountStepPreserves(prefix: seq<MediaItem>, x: MediaItem, m: map<string, nat>, keys: seq<string>)
    requires CountMapOf(prefix, m, keys)
    ensures CountMapOf(prefix + [x], CountStep(m, keys, x).0, CountStep(m, keys, x).1)
  {
    if !Truthy(x.albumName) {
      CountMapSkip(prefix, x, m, keys);
    } else if x.albumName.value in m {
      CountMapMore(prefix, x, m, keys, x.albumName.value);
    } else {
      CountMapNew(prefix, x, m, keys, x.albumName.value);
    }
  }

  /** The body of that `forEach`: `set(name, (get(name) || 0) + 1)`, where a
      new key goes after the existing ones. */
  method AddToCountMap(m: map<string, nat>, keys: seq<string>, item: MediaItem)
    returns (m': map<string, nat>, keys': seq<string>)
    ensures (m', keys') == CountStep(m, keys, item)
  {
    m', keys' := m, keys;
    if Truthy(item.albumName) {
      var name := item.albumName.value;
      var current := if name in m' then m'[name] else 0;
      if name !in m' {
        keys' := keys' + [name];
      }
      m' := m'[name := current + 1];
    }
  }

  /** The loop of `loadDashboardData` that fills `categoryMap`. */
  method CountMap(items: seq<MediaItem>) returns (m: map<string, nat>, keys: seq<string>)
    ensures CountMapOf(items, m, keys)
  {
    m, keys := map[], [];
    var i := 0;
    while i < |items|
      invariant 0 <= i <= |items|
      invariant CountMapOf(items[..i], m, keys)
    {
      assert items[..i + 1] == items[..i] + [items[i]];
      CountStepPreserves(items[..i], items[i], m, keys);
      m, keys := AddToCountMap(m, keys, items[i]);
      i := i + 1;
    }
    assert items[..i] == items;
  }

  /** `Array.from(categoryMap.entries()).map(...)`: one chart entry per key,
      in key order, carrying that key's count. */
  method MapEntries(m: map<string, nat>, keys: seq<string>) returns (data: seq<CategoryStat>)
    requires forall k :: k in keys ==> k in m
    ensures |data| == |keys|
    ensures forall j :: 0 <= j < |keys| ==> data[j] == CategoryStat(keys[j], m[keys[j]])
  {
    data := [];
    var j := 0;
    while j < |keys|
      invariant 0 <= j <= |keys|
      invariant |data| == j
      invariant forall k :: 0 <= k < j ==> data[k] == CategoryStat(keys[k], m[keys[k]])
    {
      data := data + [CategoryStat(keys[j], m[keys[j]])];
      j := j + 1;
    }
  }

  /** The category part of `loadDashboardData`: the `Map` loop, then its
      entries as chart data. */
  method CountAlbums(items: seq<MediaItem>) returns (data: seq<CategoryStat>)
    ensures data == AlbumCounts(items)
  {
    var m, keys := CountMap(items);
    data := MapEntries(m, keys);
    assert |data| == |AlbumCounts(items)|;
    forall j | 0 <= j < |data| ensures data[j] == AlbumCounts(items)[j] {
      assert keys[j] in keys;
    }
  }

  /** The dashboard's state. */
  class AdminDashboard {
    var stats: Stats
    var categoryData: seq<CategoryStat>
    var mediaItems: seq<MediaItem>
    var isLoading: bool
    const session: Session

    constructor (s: Session)
      ensures session == s && stats == Stats(0, 0, 0, 0, 0, 0) && categoryData == [] && mediaItems == []
      ensures isLoading
    {
      session := s;
      stats := Stats(0, 0, 0, 0, 0, 0);
      categoryData, mediaItems := [], [];
      isLoading := true;
    }

    /** `loadDashboardData`, its delay collapsed: the catalog, the counters and
        the album chart, read from the store. */
    method LoadDashboardData()
      modifies this
      ensures mediaItems == StoredCatalog(session.store.mediaItems)
      ensures stats == StatsOf(mediaItems, session.store.visits)
      ensures categoryData == AlbumCounts(mediaItems)
      ensures !isLoading
    {
      isLoading := true;
      var store := session.store;
      var items := if store.mediaItems.Some? then store.mediaItems.value else [];
      mediaItems := items;
      var data := CountAlbums(items);
      stats := StatsOf(items, store.visits);
      categoryData := data;
      isLoading := false;
    }

    /** The guard effect: a session without admin rights goes to the admin
        login and nothing is loaded. */
    method Open() returns (o: Outcome)
      modifies this
      ensures !session.isAdmin ==> o == Navigate(AdminLogin) && mediaItems == old(mediaItems)
                                   && stats == old(stats) && categoryData == old(categoryData)
                                   && isLoading == old(isLoading)
      ensures session.isAdmin ==> o == Done && mediaItems == StoredCatalog(session.store.mediaItems)
                                  && stats == StatsOf(mediaItems, session.store.visits)
                                  && categoryData == AlbumCounts(mediaItems) && !isLoading
    {
      if !session.isAdmin {
        return Navigate(AdminLogin);
      }
      LoadDashboardData();
      o := Done;
    }

    /** `handleLogout`: the session ends and the admin login is shown. */
    method HandleLogout() returns (o: Outcome)
      modifies session, session.store
      ensures o == Navigate(AdminLogin) && !session.isAuthenticated && !session.isAdmin
      ensures session.store.State() == old(session.store.State()).(auth := session.store.auth)
      ensures old(session.Mirrored()) ==> session.Mirrored()
    {
      session.Logout();
      o := Navigate(AdminLogin);
    }
  }
}
