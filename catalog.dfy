/** What the gallery derives from the catalog (src/pages/Home.tsx): the four
    category counts, the album list folded from the items, and the
    category / album / search narrowing of the grid. */
module Catalog {
  import opened Model
  import opened Strings
  import opened Seqs
  import opened Sorting

  datatype Category = Category(id: string, name: string, icon: string, count: nat)

  function IsPhoto(): MediaItem -> bool { (i: MediaItem) => i.kind == Photo }
  function IsVideo(): MediaItem -> bool { (i: MediaItem) => i.kind == Video }
  function IsFavorite(): MediaItem -> bool { (i: MediaItem) => i.favorite }

  /** `generateCategories`: the fixed buckets all / photos / videos / favorites,
      each with the number of catalog items it holds. */
  function GenerateCategories(items: seq<MediaItem>): (r: seq<Category>)
    ensures |r| == 4
    ensures r[0].id == "all" && r[1].id == "photos" && r[2].id == "videos" && r[3].id == "favorites"
    ensures r[0].count == |items|
    ensures r[1].count + r[2].count == r[0].count
    ensures r[1].count == |Filter(items, IsPhoto())| && r[2].count == |Filter(items, IsVideo())|
    ensures r[3].count == |Filter(items, IsFavorite())| <= r[0].count
  {
    FilterPartition(items, IsPhoto(), IsVideo());
    [ Category("all", "全部媒体", "fa-layer-group", |items|),
      Category("photos", "照片", "fa-images", |Filter(items, IsPhoto())|),
      Category("videos", "视频", "fa-video", |Filter(items, IsVideo())|),
      Category("favorites", "收藏", "fa-heart", |Filter(items, IsFavorite())|) ]
  }

  // ---------------------------------------------------------------------
  // Search

  /** Some tag contains the (already lower-cased) query, ignoring case. */
  predicate SomeTagIncludes(tags: seq<string>, lq: string) {
    exists i :: 0 <= i < |tags| && Includes(ToLower(tags[i]), lq)
  }

  /** The free-text predicate of both the gallery and the media manager: the
      lower-cased query occurs in the title, in a tag, or in the album name. */
  predicate MatchesQuery(item: MediaItem, query: string) {
    var lq := ToLower(query);
    Includes(ToLower(item.title), lq)
    || SomeTagIncludes(item.tags, lq)
    || (Truthy(item.albumName) && Includes(ToLower(item.albumName.value), lq))
  }

  function QueryPred(query: string): MediaItem -> bool { i => MatchesQuery(i, query) }

  // ---------------------------------------------------------------------
  // The gallery's filter effect

  function AlbumPred(album: string): MediaItem -> bool { (i: MediaItem) => i.albumId == Some(album) }

  /** The filter effect of the gallery: category first, then the active album
      (an album id), then the search text. Inactive stages pass everything. */
  function HomeFilter(items: seq<MediaItem>, category: string, album: Option<string>, query: string): seq<MediaItem> {
    var byCategory :=
      if category == "photos" then Filter(items, IsPhoto())
      else if category == "videos" then Filter(items, IsVideo())
      else if category == "favorites" then Filter(items, IsFavorite())
      else items;
    var byAlbum := if Truthy(album) then Filter(byCategory, AlbumPred(album.value)) else byCategory;
    if query != "" then Filter(byAlbum, QueryPred(query)) else byAlbum
  }

  /** What the category stage keeps: `photos` exactly the photos, `videos`
      exactly the videos, `favorites` exactly the favorites, anything else all. */
  predicate CategoryKeeps(category: string, item: MediaItem) {
    if category == "photos" then item.kind == Photo
    else if category == "videos" then item.kind == Video
    else if category == "favorites" then item.favorite
    else true
  }

  /** The whole pipeline's condition on one item. */
  predicate HomeKeeps(category: string, album: Option<string>, query: string, item: MediaItem) {
    CategoryKeeps(category, item)
    && (Truthy(album) ==> item.albumId == Some(album.value))
    && (query != "" ==> MatchesQuery(item, query))
  }

  function HomeKeepsPred(category: string, album: Option<string>, query: string): MediaItem -> bool {
    i => HomeKeeps(category, album, query, i)
  }

  function CategoryPred(category: string): MediaItem -> bool { i => CategoryKeeps(category, i) }

  function AlbumStagePred(category: string, album: Option<string>): MediaItem -> bool {
    i => CategoryKeeps(category, i) && (Truthy(album) ==> i.albumId == Some(album.value))
  }

  /** The three chained filters are one filter by `HomeKeeps`. */
  lemma {:induction false} HomeFilterIsOneFilter(items: seq<MediaItem>, category: string, album: Option<string>, query: string)
    ensures HomeFilter(items, category, album, query) == Filter(items, HomeKeepsPred(category, album, query))
  {
    var c := CategoryPred(category);
    var byCategory :=
      if category == "photos" then Filter(items, IsPhoto())
      else if category == "videos" then Filter(items, IsVideo())
      else if category == "favorites" then Filter(items, IsFavorite())
      else items;
    assert byCategory == Filter(items, c) by {
      if category !in {"photos", "videos", "favorites"} {
        FilterAll(items, c);
      } else if category == "photos" {
        FilterFilter(items, IsPhoto(), IsPhoto(), c);
        FilterIdempotent(items, IsPhoto());
      } else if category == "videos" {
        FilterFilter(items, IsVideo(), IsVideo(), c);
        FilterIdempotent(items, IsVideo());
      } else {
        FilterFilter(items, IsFavorite(), IsFavorite(), c);
        FilterIdempotent(items, IsFavorite());
      }
    }
    var ca := AlbumStagePred(category, album);
    var byAlbum := if Truthy(album) then Filter(byCategory, AlbumPred(album.value)) else byCategory;
    assert byAlbum == Filter(items, ca) by {
      if Truthy(album) {
        FilterFilter(items, c, AlbumPred(album.value), ca);
      } else {
        FilterFilter(items, c, c, ca);
        FilterIdempotent(items, c);
      }
    }
    var all := HomeKeepsPred(category, album, query);
    if query != "" {
      FilterFilter(items, ca, QueryPred(query), all);
    } else {
      FilterFilter(items, ca, ca, all);
      FilterIdempotent(items, ca);
    }
  }

  /** An item is shown iff it is in the catalog and passes every active stage;
      and the grid keeps the catalog's order. */
  lemma {:induction false} HomeFilterSpec(items: seq<MediaItem>, category: string, album: Option<string>, query: string, x: MediaItem)
    ensures x in HomeFilter(items, category, album, query) <==> x in items && HomeKeeps(category, album, query, x)
    ensures IsSubsequence(HomeFilter(items, category, album, query), items)
  {
    HomeFilterIsOneFilter(items, category, album, query);
    FilterMember(items, HomeKeepsPred(category, album, query), x);
    FilterIsSubsequence(items, HomeKeepsPred(category, album, query));
  }

  /** With category `all`, no album and no search text the grid is the catalog. */
  lemma {:induction false} HomeFilterNoSelection(items: seq<MediaItem>)
    ensures HomeFilter(items, "all", None, "") == items
  {
  }

  /** Applying the same selection to the grid again changes nothing. */
  lemma {:induction false} HomeFilterIdempotent(items: seq<MediaItem>, category: string, album: Option<string>, query: string)
    ensures HomeFilter(HomeFilter(items, category, album, query), category, album, query)
         == HomeFilter(items, category, album, query)
  {
    var p := HomeKeepsPred(category, album, query);
    HomeFilterIsOneFilter(items, category, album, query);
    HomeFilterIsOneFilter(Filter(items, p), category, album, query);
    FilterIdempotent(items, p);
  }

  /** Some tag contains the lower-cased query iff the query occurs at some
      position of some lower-cased tag. */
  lemma {:induction false} TagSearchSpec(tags: seq<string>, lq: string)
    ensures SomeTagIncludes(tags, lq) <==> exists t :: t in tags && Occurs(ToLower(t), lq)
  {
    if SomeTagIncludes(tags, lq) {
      var i :| 0 <= i < |tags| && Includes(ToLower(tags[i]), lq);
      IncludesIff(ToLower(tags[i]), lq);
      assert tags[i] in tags;
    }
    if exists t :: t in tags && Occurs(ToLower(t), lq) {
      var t :| t in tags && Occurs(ToLower(t), lq);
      var i :| 0 <= i < |tags| && tags[i] == t;
      IncludesIff(ToLower(tags[i]), lq);
    }
  }

  /** A non-empty search keeps an item iff the lower-cased query occurs in the
      lower-cased title, in a lower-cased tag, or in the lower-cased album name
      when there is one. */
  lemma {:induction false} SearchSpec(item: MediaItem, query: string)
    requires query != ""
    ensures MatchesQuery(item, query) <==>
      Occurs(ToLower(item.title), ToLower(query))
      || (exists t :: t in item.tags && Occurs(ToLower(t), ToLower(query)))
      || (Truthy(item.albumName) && Occurs(ToLower(item.albumName.value), ToLower(query)))
  {
    var lq := ToLower(query);
    IncludesIff(ToLower(item.title), lq);
    TagSearchSpec(item.tags, lq);
    if Truthy(item.albumName) {
      IncludesIff(ToLower(item.albumName.value), lq);
    }
  }

  // ---------------------------------------------------------------------
  // Albums

  datatype Album = Album(id: string, name: string, coverUrl: string, count: nat, date: int)

  /** Only items with both a (non-empty) album id and album name are grouped. */
  predicate InSomeAlbum(item: MediaItem) {
    Truthy(item.albumId) && Truthy(item.albumName)
  }

  function MemberPred(id: string): MediaItem -> bool { i => InSomeAlbum(i) && i.albumId.value == id }

  /** The grouped items of album `id`, in catalog order. */
  function Members(items: seq<MediaItem>, id: string): seq<MediaItem> {
    if items == [] then []
    else
      var last := items[|items| - 1];
      Members(items[..|items| - 1], id) + (if InSomeAlbum(last) && last.albumId.value == id then [last] else [])
  }

  /** The members of an album are the catalog filtered by album id. */
  lemma {:induction false} MembersAreFilter(items: seq<MediaItem>, id: string)
    ensures Members(items, id) == Filter(items, MemberPred(id))
  {
    if items != [] {
      MembersAreFilter(items[..|items| - 1], id);
    }
  }

  /** The album ids of the grouped items, with repetitions, in catalog order. */
  function AlbumIdList(items: seq<MediaItem>): seq<string> {
    if items == [] then []
    else
      var last := items[|items| - 1];
      AlbumIdList(items[..|items| - 1]) + (if InSomeAlbum(last) then [last.albumId.value] else [])
  }

  /** The album ids in the order the albums are first met: the key order of the
      `Map` that `generateAlbums` fills. */
  function AlbumOrder(items: seq<MediaItem>): seq<string> {
    Distinct(AlbumIdList(items))
  }

  /** The cover: the url of a photo, the thumbnail (or '') of a video. */
  function CoverOf(item: MediaItem): string {
    if item.kind == Photo then item.url else item.thumbnailUrl.GetOr("")
  }

  /** The latest date of a non-empty group, folded the way the loop updates it. */
  function MaxDate(s: seq<MediaItem>): int
    requires s != []
  {
    if |s| == 1 then s[0].date
    else
      var d := MaxDate(s[..|s| - 1]);
      if s[|s| - 1].date > d then s[|s| - 1].date else d
  }

  /** The folded date bounds every member date and is one of them. */
  lemma {:induction false} MaxDateSpec(s: seq<MediaItem>)
    requires s != []
    ensures forall i :: 0 <= i < |s| ==> s[i].date <= MaxDate(s)
    ensures exists i :: 0 <= i < |s| && s[i].date == MaxDate(s)
  {
    if |s| > 1 {
      var t := s[..|s| - 1];
      MaxDateSpec(t);
      assert forall i :: 0 <= i < |t| ==> s[i] == t[i];
      if s[|s| - 1].date <= MaxDate(t) {
        var j :| 0 <= j < |t| && t[j].date == MaxDate(t);
        assert s[j].date == MaxDate(s);
      } else {
        assert s[|s| - 1].date == MaxDate(s);
      }
    } else {
      assert s[0].date == MaxDate(s);
    }
  }

  /** The album record of group `id`: name and cover of its first member, its
      size, and its latest date. */
  function GroupOf(items: seq<MediaItem>, id: string): Album
    requires Members(items, id) != []
  {
    var ms := Members(items, id);
    MembersAreFilter(items, id);
    assert ms[0] in ms;
    GroupOfMembers(id, ms)
  }

  function GroupOfMembers(id: string, ms: seq<MediaItem>): Album
    requires ms != [] && InSomeAlbum(ms[0])
  {
    Album(id, ms[0].albumName.value, CoverOf(ms[0]), |ms|, MaxDate(ms))
  }

  lemma {:induction false} AlbumIdListMember(items: seq<MediaItem>, id: string)
    ensures id in AlbumIdList(items) <==> Members(items, id) != []
  {
    if items != [] {
      AlbumIdListMember(items[..|items| - 1], id);
    }
  }

  lemma {:induction false} AlbumOrderMember(items: seq<MediaItem>, id: string)
    ensures id in AlbumOrder(items) <==> Members(items, id) != []
  {
    AlbumIdListMember(items, id);
    var l := AlbumIdList(items);
    var d := AlbumOrder(items);
    if id in l {
      var i :| 0 <= i < |l| && l[i] == id;
      assert l[i] in d;
    }
    if id in d {
      var i :| 0 <= i < |d| && d[i] == id;
      assert d[i] in l;
    }
  }

  /** The albums in first-seen order, before sorting. */
  function GroupAll(items: seq<MediaItem>, keys: seq<string>): (r: seq<Album>)
    requires forall k :: k in keys ==> Members(items, k) != []
    ensures |r| == |keys|
    ensures forall i :: 0 <= i < |keys| ==> r[i] == GroupOf(items, keys[i])
  {
    if keys == [] then [] else GroupAll(items, keys[..|keys| - 1]) + [GroupOf(items, keys[|keys| - 1])]
  }

  function NegDate(): Album -> int { (a: Album) => -a.date }

  /** `generateAlbums`: one album per album id, sorted by date, latest first;
      the sort is stable, so albums with equal dates keep first-seen order. */
  function Albums(items: seq<MediaItem>): seq<Album> {
    var keys := AlbumOrder(items);
    assert forall k :: k in keys ==> Members(items, k) != [] by {
      forall k | k in keys { AlbumOrderMember(items, k); }
    }
    SortByKey(GroupAll(items, keys), NegDate())
  }

  /** The sorted album list is a permutation of the first-seen one. */
  lemma {:induction false} AlbumsPermutation(items: seq<MediaItem>)
    ensures forall k :: k in AlbumOrder(items) ==> Members(items, k) != []
    ensures multiset(Albums(items)) == multiset(GroupAll(items, AlbumOrder(items)))
  {
    forall k | k in AlbumOrder(items) {
      AlbumOrderMember(items, k);
    }
    SortByKeyPermutation(GroupAll(items, AlbumOrder(items)), NegDate());
  }

  /** Every album is the group of its id: the count is the number of members,
      the date their latest date, name and cover those of the first member. */
  lemma {:induction false} AlbumsAreGroups(items: seq<MediaItem>)
    ensures forall a :: a in Albums(items) ==> Members(items, a.id) != [] && a == GroupOf(items, a.id)
  {
    AlbumsPermutation(items);
    var keys := AlbumOrder(items);
    var g := GroupAll(items, keys);
    forall a | a in Albums(items)
      ensures Members(items, a.id) != [] && a == GroupOf(items, a.id)
    {
      assert a in multiset(Albums(items));
      assert a in multiset(g);
      var i :| 0 <= i < |g| && g[i] == a;
      assert keys[i] in keys;
    }
  }

  /** There is an album for the album id of every grouped item. */
  lemma {:induction false} AlbumsCoverItems(items: seq<MediaItem>)
    ensures forall x :: x in items && InSomeAlbum(x) ==> exists a :: a in Albums(items) && a.id == x.albumId.value
  {
    AlbumsPermutation(items);
    var keys := AlbumOrder(items);
    var g := GroupAll(items, keys);
    forall x | x in items && InSomeAlbum(x)
      ensures exists a :: a in Albums(items) && a.id == x.albumId.value
    {
      var id := x.albumId.value;
      MembersAreFilter(items, id);
      FilterMember(items, MemberPred(id), x);
      AlbumOrderMember(items, id);
      var i :| 0 <= i < |keys| && keys[i] == id;
      assert g[i] in multiset(g);
      assert g[i] in Albums(items);
    }
  }

  /** No two albums have the same id. */
  lemma {:induction false} AlbumsDistinctIds(items: seq<MediaItem>)
    ensures forall i, j :: 0 <= i < j < |Albums(items)| ==> Albums(items)[i].id != Albums(items)[j].id
  {
    AlbumsPermutation(items);
    AlbumsAreGroups(items);
    var keys := AlbumOrder(items);
    var g := GroupAll(items, keys);
    var r := Albums(items);
    assert NoDuplicates(g) by {
      forall i, j | 0 <= i < j < |g| ensures g[i] != g[j] {
        assert g[i].id == keys[i] && g[j].id == keys[j];
      }
    }
    NoDuplicatesPermutation(r, g);
    forall i, j | 0 <= i < j < |r| ensures r[i].id != r[j].id {
      assert r[i] != r[j];
      assert r[i] in r && r[j] in r;
    }
  }

  /** The albums are ordered by date, latest first. */
  lemma {:induction false} AlbumsByDateDescending(items: seq<MediaItem>)
    ensures forall i, j :: 0 <= i < j < |Albums(items)| ==> Albums(items)[i].date >= Albums(items)[j].date
  {
    AlbumsPermutation(items);
    SortByKeySorted(GroupAll(items, AlbumOrder(items)), NegDate());
  }

  /** The group of one album is the catalog's members of that album: the count
      is their number and the date is their latest date. */
  lemma {:induction false} GroupOfSpec(items: seq<MediaItem>, id: string)
    requires Members(items, id) != []
    ensures GroupOf(items, id).count == |Filter(items, MemberPred(id))|
    ensures forall x :: x in items && InSomeAlbum(x) && x.albumId.value == id ==> x.date <= GroupOf(items, id).date
    ensures exists x :: x in items && InSomeAlbum(x) && x.albumId.value == id && x.date == GroupOf(items, id).date
  {
    var ms := Members(items, id);
    MembersAreFilter(items, id);
    MaxDateSpec(ms);
    forall x | x in items && InSomeAlbum(x) && x.albumId.value == id
      ensures x.date <= GroupOf(items, id).date
    {
      FilterMember(items, MemberPred(id), x);
    }
    var i :| 0 <= i < |ms| && ms[i].date == MaxDate(ms);
    FilterMember(items, MemberPred(id), ms[i]);
  }

  // ----- the imperative fold of generateAlbums and the lemmas its loop uses

  lemma {:induction false} MembersStep(items: seq<MediaItem>, i: nat, id: string)
    requires i < |items|
    ensures Members(items[..i + 1], id)
         == Members(items[..i], id) + (if MemberPred(id)(items[i]) then [items[i]] else [])
  {
    assert items[..i + 1][..i] == items[..i];
  }

  lemma {:induction false} AlbumOrderStep(items: seq<MediaItem>, i: nat)
    requires i < |items|
    ensures AlbumOrder(items[..i + 1])
         == AlbumOrder(items[..i]) +
            (if InSomeAlbum(items[i]) && items[i].albumId.value !in AlbumOrder(items[..i])
             then [items[i].albumId.value] else [])
  {
    var l := AlbumIdList(items[..i]);
    if InSomeAlbum(items[i]) {
      var id := items[i].albumId.value;
      assert AlbumIdList(items[..i + 1]) == l + [id] by {
        assert items[..i + 1][..i] == items[..i];
      }
      DistinctSnoc(l, id);
    } else {
      assert AlbumIdList(items[..i + 1]) == l by {
        assert items[..i + 1][..i] == items[..i];
      }
    }
  }

  lemma {:induction false} MaxDateStep(ms: seq<MediaItem>, x: MediaItem)
    requires ms != []
    ensures MaxDate(ms + [x]) == if x.date > MaxDate(ms) then x.date else MaxDate(ms)
  {
    assert (ms + [x])[..|ms|] == ms;
  }

  /** What the album `Map` holds after the first items of the catalog: the
      albums of those items, keyed by id, with keys in first-seen order. */
  ghost predicate AlbumMapOf(prefix: seq<MediaItem>, m: map<string, Album>, keys: seq<string>) {
    keys == AlbumOrder(prefix)
    && (forall k :: k in m <==> k in keys)
    && GroupsAgree(prefix, m)
  }

  /** Every entry of the map is the group of its key over `prefix`. */
  ghost predicate GroupsAgree(prefix: seq<MediaItem>, m: map<string, Album>) {
    forall k :: k in m ==> Members(prefix, k) != [] && m[k] == GroupOf(prefix, k)
  }

  /** An item outside album `k` leaves that album's group as it was. */
  lemma {:induction false} GroupStepOther(items: seq<MediaItem>, i: nat, k: string)
    requires i < |items| && !MemberPred(k)(items[i]) && Members(items[..i], k) != []
    ensures Members(items[..i + 1], k) != [] && GroupOf(items[..i + 1], k) == GroupOf(items[..i], k)
  {
    MembersStep(items, i, k);
    assert Members(items[..i + 1], k) == Members(items[..i], k);
  }

  /** The first item of an album makes a group of one. */
  lemma {:induction false} GroupStepNew(items: seq<MediaItem>, i: nat)
    requires i < |items| && InSomeAlbum(items[i])
    requires Members(items[..i], items[i].albumId.value) == []
    ensures Members(items[..i + 1], items[i].albumId.value) != []
    ensures GroupOf(items[..i + 1], items[i].albumId.value)
         == Album(items[i].albumId.value, items[i].albumName.value, CoverOf(items[i]), 1, items[i].date)
  {
    MembersStep(items, i, items[i].albumId.value);
  }

  /** A further item of an album adds one to the count and may move the date. */
  lemma {:induction false} GroupStepMore(items: seq<MediaItem>, i: nat)
    requires i < |items| && InSomeAlbum(items[i])
    requires Members(items[..i], items[i].albumId.value) != []
    ensures Members(items[..i + 1], items[i].albumId.value) != []
    ensures var g := GroupOf(items[..i], items[i].albumId.value);
      GroupOf(items[..i + 1], items[i].albumId.value)
      == g.(count := g.count + 1, date := if items[i].date > g.date then items[i].date else g.date)
  {
    var id := items[i].albumId.value;
    var ms := Members(items[..i], id);
    MembersStep(items, i, id);
    assert Members(items[..i + 1], id) == ms + [items[i]];
    MaxDateStep(ms, items[i]);
    assert (ms + [items[i]])[0] == ms[0];
  }

  /** An item outside every album leaves the map as it was. */
  lemma {:induction false} AlbumMapSkip(items: seq<MediaItem>, i: nat, m: map<string, Album>, keys: seq<string>)
    requires i < |items| && !InSomeAlbum(items[i]) && AlbumMapOf(items[..i], m, keys)
    ensures AlbumMapOf(items[..i + 1], m, keys)
  {
    assert AlbumOrder(items[..i + 1]) == keys by {
      AlbumOrderStep(items, i);
    }
    forall k | k in m
      ensures Members(items[..i + 1], k) != [] && m[k] == GroupOf(items[..i + 1], k)
    {
      assert Members(items[..i], k) != [] && m[k] == GroupOf(items[..i], k);
      GroupStepOther(items, i, k);
    }
  }

  /** When item `i` changes only its own album's entry, and that entry is the
      album's group over the longer prefix, every entry is. */
  lemma {:induction false} AlbumMapOthers(items: seq<MediaItem>, i: nat, m: map<string, Album>, m': map<string, Album>)
    requires i < |items| && InSomeAlbum(items[i]) && GroupsAgree(items[..i], m)
    requires forall k :: k in m' <==> k in m || k == items[i].albumId.value
    requires forall k :: k in m && k != items[i].albumId.value ==> m'[k] == m[k]
    requires Members(items[..i + 1], items[i].albumId.value) != []
    requires m'[items[i].albumId.value] == GroupOf(items[..i + 1], items[i].albumId.value)
    ensures GroupsAgree(items[..i + 1], m')
  {
    var id := items[i].albumId.value;
    forall k | k in m'
      ensures Members(items[..i + 1], k) != [] && m'[k] == GroupOf(items[..i + 1], k)
    {
      if k != id {
        assert Members(items[..i], k) != [] && m[k] == GroupOf(items[..i], k);
        GroupStepOther(items, i, k);
      }
    }
  }

  /** The first item of an album adds a group of one under a new last key. */
  lemma {:induction false} AlbumMapNew(items: seq<MediaItem>, i: nat, m: map<string, Album>, keys: seq<string>,
                                      m': map<string, Album>)
    requires i < |items| && InSomeAlbum(items[i]) && AlbumMapOf(items[..i], m, keys)
    requires items[i].albumId.value !in m
    requires m' == m[items[i].albumId.value :=
                     Album(items[i].albumId.value, items[i].albumName.value, CoverOf(items[i]), 1, items[i].date)]
    ensures AlbumMapOf(items[..i + 1], m', keys + [items[i].albumId.value])
  {
    var id := items[i].albumId.value;
    assert AlbumOrder(items[..i + 1]) == keys + [id] by {
      AlbumOrderMember(items[..i], id);
      AlbumOrderStep(items, i);
    }
    assert Members(items[..i + 1], id) != [] && m'[id] == GroupOf(items[..i + 1], id) by {
      AlbumOrderMember(items[..i], id);
      GroupStepNew(items, i);
    }
    AlbumMapOthers(items, i, m, m');
  }

  /** A further item of an album updates that album's entry in place. */
  lemma {:induction false} AlbumMapMore(items: seq<MediaItem>, i: nat, m: map<string, Album>, keys: seq<string>,
                                       m': map<string, Album>)
    requires i < |items| && InSomeAlbum(items[i]) && AlbumMapOf(items[..i], m, keys)
    requires items[i].albumId.value in m
    requires var a := m[items[i].albumId.value];
      m' == m[items[i].albumId.value :=
                a.(count := a.count + 1, date := if items[i].date > a.date then items[i].date else a.date)]
    ensures AlbumMapOf(items[..i + 1], m', keys)
  {
    var id := items[i].albumId.value;
    assert AlbumOrder(items[..i + 1]) == keys by {
      assert id in keys;
      AlbumOrderStep(items, i);
    }
    assert Members(items[..i + 1], id) != [] && m'[id] == GroupOf(items[..i + 1], id) by {
      GroupStepMore(items, i);
    }
    AlbumMapOthers(items, i, m, m');
  }

  /** One turn of the `forEach` in `generateAlbums`, as a value: an item
      outside every album changes nothing, the first item of an album adds a
      group of one under a new last key, a further item adds one to the count
      and moves the date to the item's date when that is later. */
  function AlbumStep(m: map<string, Album>, keys: seq<string>, item: MediaItem): (map<string, Album>, seq<string>) {
    if !InSomeAlbum(item) then (m, keys)
    else
      var id := item.albumId.value;
      if id in m then
        var a := m[id];
        (m[id := a.(count := a.count + 1, date := if item.date > a.date then item.date else a.date)], keys)
      else
        (m[id := Album(id, item.albumName.value, CoverOf(item), 1, item.date)], keys + [id])
  }

  /** Every turn keeps the map equal to the groups of the items seen so far,
      keyed in first-seen order. */
  lemma {:induction false} AlbumStepPreserves(items: seq<MediaItem>, i: nat, m: map<string, Album>, keys: seq<string>)
    requires i < |items| && AlbumMapOf(items[..i], m, keys)
    ensures AlbumMapOf(items[..i + 1], AlbumStep(m, keys, items[i]).0, AlbumStep(m, keys, items[i]).1)
  {
    var item := items[i];
    if !InSomeAlbum(item) {
      AlbumMapSkip(items, i, m, keys);
    } else if item.albumId.value in m {
      AlbumMapMore(items, i, m, keys, AlbumStep(m, keys, item).0);
    } else {
      AlbumMapNew(items, i, m, keys, AlbumStep(m, keys, item).0);
    }
  }

  /** The body of the `forEach` in `generateAlbums`: a new album starts with
      count 0 and the item's date, then the count goes up by one and the date
      moves to the item's date when that is later. */
  method AddToAlbumMap(m: map<string, Album>, keys: seq<string>, item: MediaItem)
    returns (m': map<string, Album>, keys': seq<string>)
    ensures (m', keys') == AlbumStep(m, keys, item)
  {
    m', keys' := m, keys;
    if Truthy(item.albumId) && Truthy(item.albumName) {
      var id := item.albumId.value;
      ghost var isNew := id !in m';
      if id !in m' {
        m' := m'[id := Album(id, item.albumName.value, CoverOf(item), 0, item.date)];
        keys' := keys' + [id];
      }
      var album := m'[id];
      album := album.(count := album.count + 1);
      if item.date > album.date {
        album := album.(date := item.date);
      }
      m' := m'[id := album];
      if isNew {
        assert m' == m[id := Album(id, item.albumName.value, CoverOf(item), 1, item.date)];
      } else {
        assert m' == m[id := m[id].(count := m[id].count + 1,
                                    date := if item.date > m[id].date then item.date else m[id].date)];
      }
    }
  }

  /** `generateAlbums` as the source runs it: a `Map` from album id to album,
      filled item by item, whose values are then sorted by date, latest first. */
  method GenerateAlbums(items: seq<MediaItem>) returns (albums: seq<Album>)
    ensures albums == Albums(items)
  {
    var m: map<string, Album> := map[];
    var keys: seq<string> := [];
    var i := 0;
    while i < |items|
      invariant 0 <= i <= |items|
      invariant AlbumMapOf(items[..i], m, keys)
    {
      AlbumStepPreserves(items, i, m, keys);
      m, keys := AddToAlbumMap(m, keys, items[i]);
      i := i + 1;
    }
    assert items[..i] == items;
    var values := new Album[|keys|](k requires 0 <= k < |keys| => m[keys[k]]);
    assert values[..] == GroupAll(items, keys);
    SortInPlace(values, NegDate());
    albums := values[..];
  }

  // ---------------------------------------------------------------------
  // Album names, as the admin pages read them (`item.albumName` when truthy)

  function HasAlbumName(): MediaItem -> bool { (i: MediaItem) => Truthy(i.albumName) }

  function NamedPred(name: string): MediaItem -> bool {
    (i: MediaItem) => Truthy(i.albumName) && i.albumName.value == name
  }

  /** The non-empty album names of the items, with repetitions, in catalog order. */
  function AlbumNameList(items: seq<MediaItem>): (r: seq<string>)
    ensures |r| == |Filter(items, HasAlbumName())|
  {
    if items == [] then []
    else
      var last := items[|items| - 1];
      AlbumNameList(items[..|items| - 1]) + (if Truthy(last.albumName) then [last.albumName.value] else [])
  }

  lemma {:induction false} AlbumNameListStep(items: seq<MediaItem>, i: nat)
    requires i < |items|
    ensures AlbumNameList(items[..i + 1])
         == AlbumNameList(items[..i]) + (if Truthy(items[i].albumName) then [items[i].albumName.value] else [])
  {
    assert items[..i + 1][..i] == items[..i];
  }

  /** A name is listed iff some item carries it. */
  lemma {:induction false} AlbumNameListMember(items: seq<MediaItem>, name: string)
    ensures name in AlbumNameList(items) <==> Filter(items, NamedPred(name)) != []
  {
    if items != [] {
      AlbumNameListMember(items[..|items| - 1], name);
    }
  }

  /** The album names in the order they are first met: what a `Set` filled
      item by item holds. */
  function AlbumNames(items: seq<MediaItem>): seq<string> {
    Distinct(AlbumNameList(items))
  }

  lemma {:induction false} AlbumNamesStep(items: seq<MediaItem>, i: nat)
    requires i < |items|
    ensures AlbumNames(items[..i + 1])
         == AlbumNames(items[..i]) +
            (if Truthy(items[i].albumName) && items[i].albumName.value !in AlbumNames(items[..i])
             then [items[i].albumName.value] else [])
  {
    var l := AlbumNameList(items[..i]);
    if Truthy(items[i].albumName) {
      var n := items[i].albumName.value;
      assert AlbumNameList(items[..i + 1]) == l + [n] by {
        AlbumNameListStep(items, i);
      }
      DistinctSnoc(l, n);
    } else {
      assert AlbumNameList(items[..i + 1]) == l by {
        AlbumNameListStep(items, i);
      }
    }
  }
}
