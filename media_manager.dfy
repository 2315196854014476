/** The media tab of the admin dashboard (src/components/AdminMediaManager.tsx):
    the album drop-down, the type / album / search filter, and the delete,
    retitle and upload operations on the stored catalog. */
module MediaAdmin {
  import opened Model
  import opened Strings
  import opened Seqs
  import opened Catalog
  import opened Dashboard

  // ---------------------------------------------------------------------
  // The album drop-down

  /** One entry of the album drop-down. */
  datatype AlbumOption = AlbumOption(id: string, name: string)

  /** The drop-down's entries: each non-empty album name once, in first-seen
      order, with id `album-<name>`. */
  function AlbumOptions(items: seq<MediaItem>): (r: seq<AlbumOption>)
    ensures |r| == |AlbumNames(items)|
    ensures forall k :: 0 <= k < |r| ==> r[k].name == AlbumNames(items)[k] && r[k].id == "album-" + r[k].name
  {
    var names := AlbumNames(items);
    seq(|names|, k requires 0 <= k < |names| => AlbumOption("album-" + names[k], names[k]))
  }

  /** The drop-down lists each album name that some item carries, and no
      other; names and ids are distinct; the names keep catalog order. */
  lemma {:induction false} AlbumOptionsSpec(items: seq<MediaItem>)
    ensures forall i, j :: 0 <= i < j < |AlbumOptions(items)| ==>
      AlbumOptions(items)[i].name != AlbumOptions(items)[j].name && AlbumOptions(items)[i].id != AlbumOptions(items)[j].id
    ensures forall n :: (exists k :: 0 <= k < |AlbumOptions(items)| && AlbumOptions(items)[k].name == n)
                        <==> Filter(items, NamedPred(n)) != []
    ensures IsSubsequence(AlbumNames(items), AlbumNameList(items))
  {
    var names := AlbumNames(items);
    var r := AlbumOptions(items);
    forall i, j | 0 <= i < j < |r| ensures r[i].name != r[j].name && r[i].id != r[j].id {
      assert r[i].name == names[i] && r[j].name == names[j];
      assert r[i].id[6..] == r[i].name && r[j].id[6..] == r[j].name;
    }
    forall n ensures (exists k :: 0 <= k < |r| && r[k].name == n) <==> Filter(items, NamedPred(n)) != [] {
      AlbumNameListMember(items, n);
      var l := AlbumNameList(items);
      if n in l {
        var k :| 0 <= k < |l| && l[k] == n;
        assert l[k] in names;
        var k' :| 0 <= k' < |names| && names[k'] == n;
        assert r[k'].name == n;
      }
      if exists k :: 0 <= k < |r| && r[k].name == n {
        var k :| 0 <= k < |r| && r[k].name == n;
        assert names[k] in l;
      }
    }
    DistinctIsSubsequence(AlbumNameList(items));
  }

  /** The first half of the effect: the names go into a `Set` one item at a
      time, then become drop-down entries. */
  method ExtractAlbums(items: seq<MediaItem>) returns (albums: seq<AlbumOption>)
    ensures albums == AlbumOptions(items)
  {
    var names: seq<string> := [];
    var i := 0;
    while i < |items|
      invariant 0 <= i <= |items|
      invariant names == AlbumNames(items[..i])
    {
      AlbumNamesStep(items, i);
      if Truthy(items[i].albumName) && items[i].albumName.value !in names {
        names := names + [items[i].albumName.value];
      }
      i := i + 1;
    }
    assert items[..i] == items;
    albums := [];
    var j := 0;
    while j < |names|
      invariant 0 <= j <= |names|
      invariant |albums| == j
      invariant forall k :: 0 <= k < j ==> albums[k] == AlbumOption("album-" + names[k], names[k])
    {
      albums := albums + [AlbumOption("album-" + names[j], names[j])];
      j := j + 1;
    }
  }

  // ---------------------------------------------------------------------
  // The filter

  function KindPred(kind: MediaType): MediaItem -> bool { (i: MediaItem) => i.kind == kind }

  /** The album stage compares the album NAME, and an item without one never
      matches. */
  function AlbumNamePred(album: string): MediaItem -> bool { (i: MediaItem) => i.albumName == Some(album) }

  /** `filterMediaItems`: the type (`None` for "all"), then the album name
      (`"all"` for none), then the search text shared with the gallery. */
  function AdminFilter(items: seq<MediaItem>, kind: Option<MediaType>, album: string, query: string): seq<MediaItem> {
    var byType := if kind.Some? then Filter(items, KindPred(kind.value)) else items;
    var byAlbum := if album != "all" then Filter(byType, AlbumNamePred(album)) else byType;
    if query != "" then Filter(byAlbum, QueryPred(query)) else byAlbum
  }

  /** The whole filter's condition on one item. */
  predicate AdminKeeps(kind: Option<MediaType>, album: string, query: string, item: MediaItem) {
    (kind.Some? ==> item.kind == kind.value)
    && (album != "all" ==> item.albumName == Some(album))
    && (query != "" ==> MatchesQuery(item, query))
  }

  function AdminKeepsPred(kind: Option<MediaType>, album: string, query: string): MediaItem -> bool {
    i => AdminKeeps(kind, album, query, i)
  }

  function TypeStagePred(kind: Option<MediaType>): MediaItem -> bool {
    (i: MediaItem) => kind.Some? ==> i.kind == kind.value
  }

  function AlbumStage(kind: Option<MediaType>, album: string): MediaItem -> bool {
    (i: MediaItem) => (kind.Some? ==> i.kind == kind.value) && (album != "all" ==> i.albumName == Some(album))
  }

  /** The three chained filters are one filter by `AdminKeeps`. */
  lemma {:induction false} AdminFilterIsOneFilter(items: seq<MediaItem>, kind: Option<MediaType>, album: string, query: string)
    ensures AdminFilter(items, kind, album, query) == Filter(items, AdminKeepsPred(kind, album, query))
  {
    var t := TypeStagePred(kind);
    var byType := if kind.Some? then Filter(items, KindPred(kind.value)) else items;
    assert byType == Filter(items, t) by {
      if kind.Some? {
        FilterFilter(items, KindPred(kind.value), KindPred(kind.value), t);
        FilterIdempotent(items, KindPred(kind.value));
      } else {
        FilterAll(items, t);
      }
    }
    var ta := AlbumStage(kind, album);
    var byAlbum := if album != "all" then Filter(byType, AlbumNamePred(album)) else byType;
    assert byAlbum == Filter(items, ta) by {
      if album != "all" {
        FilterFilter(items, t, AlbumNamePred(album), ta);
      } else {
        FilterFilter(items, t, t, ta);
        FilterIdempotent(items, t);
      }
    }
    var all := AdminKeepsPred(kind, album, query);
    if query != "" {
      FilterFilter(items, ta, QueryPred(query), all);
    } else {
      FilterFilter(items, ta, ta, all);
      FilterIdempotent(items, ta);
    }
  }

  /** An item is listed iff it is in the catalog and passes every active
      stage, and the list keeps the catalog's order. */
  lemma {:induction false} AdminFilterSpec(items: seq<MediaItem>, kind: Option<MediaType>, album: string, query: string, x: MediaItem)
    ensures x in AdminFilter(items, kind, album, query) <==> x in items && AdminKeeps(kind, album, query, x)
    ensures IsSubsequence(AdminFilter(items, kind, album, query), items)
  {
    AdminFilterIsOneFilter(items, kind, album, query);
    FilterMember(items, AdminKeepsPred(kind, album, query), x);
    FilterIsSubsequence(items, AdminKeepsPred(kind, album, query));
  }

  /** Filtering the list again by the same selection changes nothing. */
  lemma {:induction false} AdminFilterIdempotent(items: seq<MediaItem>, kind: Option<MediaType>, album: string, query: string)
    ensures AdminFilter(AdminFilter(items, kind, album, query), kind, album, query)
         == AdminFilter(items, kind, album, query)
  {
    var p := AdminKeepsPred(kind, album, query);
    AdminFilterIsOneFilter(items, kind, album, query);
    AdminFilterIsOneFilter(Filter(items, p), kind, album, query);
    FilterIdempotent(items, p);
  }

  // ---------------------------------------------------------------------
  // Delete and retitle

  function OtherMedia(id: string): MediaItem -> bool { (i: MediaItem) => i.id != id }

  /** `handleDeleteMedia`'s new list: every item with the id goes. */
  function DeleteMedia(items: seq<MediaItem>, id: string): seq<MediaItem> {
    Filter(items, OtherMedia(id))
  }

  /** Exactly the items with that id are removed; the others keep their order. */
  lemma {:induction false} DeleteMediaSpec(items: seq<MediaItem>, id: string)
    ensures forall x :: x in DeleteMedia(items, id) <==> x in items && x.id != id
    ensures IsSubsequence(DeleteMedia(items, id), items)
    ensures (forall x :: x in items ==> x.id != id) ==> DeleteMedia(items, id) == items
  {
    forall x { FilterMember(items, OtherMedia(id), x); }
    FilterIsSubsequence(items, OtherMedia(id));
    if forall x :: x in items ==> x.id != id {
      FilterAll(items, OtherMedia(id));
    }
  }

  function Retitle(items: seq<MediaItem>, id: string, title: string): (r: seq<MediaItem>)
    ensures |r| == |items|
    ensures forall k :: 0 <= k < |items| ==> r[k] == if items[k].id == id then items[k].(title := title) else items[k]
  {
    if items == [] then []
    else
      var last := items[|items| - 1];
      Retitle(items[..|items| - 1], id, title) + [if last.id == id then last.(title := title) else last]
  }

  /** The id is present in the catalog. */
  predicate HasMedia(items: seq<MediaItem>, id: string) {
    exists k :: 0 <= k < |items| && items[k].id == id
  }

  /** `handleEditMedia`'s new list, or `None` when nothing is written: an
      unknown id, a cancelled prompt, or a title that is blank once trimmed. */
  function EditMedia(items: seq<MediaItem>, id: string, input: Option<string>): Option<seq<MediaItem>> {
    if !HasMedia(items, id) || input.None? || Trim(input.value) == "" then None
    else Some(Retitle(items, id, Trim(input.value)))
  }

  /** A write happens iff the id is known and the input is not blank; it
      changes only the titles of the items with that id, to the trimmed
      input, which is not empty. */
  lemma {:induction false} EditMediaSpec(items: seq<MediaItem>, id: string, input: Option<string>)
    ensures EditMedia(items, id, input).Some? <==> HasMedia(items, id) && input.Some? && !AllWhitespace(input.value)
    ensures EditMedia(items, id, input).Some? ==>
      var r := EditMedia(items, id, input).value;
      |r| == |items|
      && (forall k :: 0 <= k < |r| ==> r[k].(title := items[k].title) == items[k])
      && (forall k :: 0 <= k < |r| && items[k].id == id ==> r[k].title == Trim(input.value) && r[k].title != "")
      && (forall k :: 0 <= k < |r| && items[k].id != id ==> r[k] == items[k])
  {
    if input.Some? {
      TrimEmptyIff(input.value);
    }
  }

  /** Submitting the same title again writes the same catalog. */
  lemma {:induction false} EditMediaIdempotent(items: seq<MediaItem>, id: string, input: Option<string>)
    requires EditMedia(items, id, input).Some?
    ensures EditMedia(EditMedia(items, id, input).value, id, input) == EditMedia(items, id, input)
  {
    var t := Trim(input.value);
    var r := Retitle(items, id, t);
    var k :| 0 <= k < |items| && items[k].id == id;
    assert r[k].id == id;
    var r' := Retitle(r, id, t);
    assert r' == r;
  }

  // ---------------------------------------------------------------------
  // Upload

  /** The thumbnail every uploaded video gets. */
  const VideoThumbnail: string := "https://space.coze.cn/api/coze_space/gen_image?image_size=square_hd&prompt=%E8%A7%86%E9%A2%91%E7%BC%A9%E7%95%A5%E5%9B%BE%20%E5%AE%B6%E5%BA%AD%20%E6%B8%A9%E9%A6%A8&sign=2cf63eb47e38dababf8f09882b409f53"

  /** An `image/` type is a photo, a `video/` type a video, anything else a photo. */
  function UploadKind(mimeType: string): MediaType {
    if StartsWith(mimeType, "image/") then Photo
    else if StartsWith(mimeType, "video/") then Video
    else Photo
  }

  /** A file becomes a video exactly when its type starts with `video/`. */
  lemma {:induction false} UploadKindSpec(mimeType: string)
    ensures UploadKind(mimeType) == Video <==> StartsWith(mimeType, "video/")
  {
    if StartsWith(mimeType, "video/") {
      assert mimeType[0] == 'v';
      assert !StartsWith(mimeType, "image/");
    }
  }

  /** The type as the catalog stores it. */
  function KindName(kind: MediaType): string {
    if kind == Photo then "photo" else "video"
  }

  /** `${fileType}-${Date.now()}-${i}`. */
  function UploadId(kind: MediaType, now: nat, i: nat): string {
    KindName(kind) + "-" + (NatToString(now) + "-" + NatToString(i))
  }

  predicate NoDash(s: string) {
    forall k :: 0 <= k < |s| ==> s[k] != '-'
  }

  /** Joining two dash-free heads to tails with a dash can be undone. */
  lemma {:induction false} SplitAtDash(a: string, b: string, c: string, d: string)
    requires NoDash(a) && NoDash(c) && a + "-" + b == c + "-" + d
    ensures a == c && b == d
  {
    var s := a + "-" + b;
    assert s[|a|] == '-' && s[|c|] == '-';
    assert forall k :: 0 <= k < |a| ==> s[k] == a[k];
    assert forall k :: 0 <= k < |c| ==> s[k] == c[k];
    assert |a| == |c|;
    assert a == s[..|a|] == c;
    assert b == s[|a| + 1..] == d;
  }

  /** Distinct (type, time, index) triples give distinct ids. */
  lemma {:induction false} UploadIdInjective(k1: MediaType, n1: nat, i1: nat, k2: MediaType, n2: nat, i2: nat)
    requires UploadId(k1, n1, i1) == UploadId(k2, n2, i2)
    ensures k1 == k2 && n1 == n2 && i1 == i2
  {
    var a1, a2 := NatToString(n1), NatToString(n2);
    var b1, b2 := NatToString(i1), NatToString(i2);
    SplitAtDash(KindName(k1), a1 + "-" + b1, KindName(k2), a2 + "-" + b2);
    SplitAtDash(a1, b1, a2, b2);
    NatToStringRoundTrip(n1);
    NatToStringRoundTrip(n2);
    NatToStringRoundTrip(i1);
    NatToStringRoundTrip(i2);
  }

  /** The catalog entry made for the `i`-th file, read at time `now`. */
  function UploadedItem(file: UploadFile, now: nat, i: nat): (r: MediaItem)
    ensures r.kind == UploadKind(file.mimeType) && r.id == UploadId(r.kind, now, i)
  {
    var kind := UploadKind(file.mimeType);
    MediaItem(UploadId(kind, now, i), file.name, kind, file.previewUrl,
              if kind == Video then Some(VideoThumbnail) else None,
              now, file.size, ["新上传"], false, Some("album1"), Some("家庭聚会"))
  }

  /** The entries made for the files, one per file, in file order. */
  function Uploaded(files: seq<UploadFile>, clock: seq<nat>): (r: seq<MediaItem>)
    requires |clock| == |files|
    ensures |r| == |files|
    ensures forall k :: 0 <= k < |files| ==> r[k] == UploadedItem(files[k], clock[k], k)
  {
    seq(|files|, k requires 0 <= k < |files| => UploadedItem(files[k], clock[k], k))
  }

  /** One more file adds its entry at the end. */
  lemma {:induction false} UploadedSnoc(files: seq<UploadFile>, clock: seq<nat>, i: nat)
    requires |clock| == |files| && i < |files|
    ensures Uploaded(files[..i + 1], clock[..i + 1]) == Uploaded(files[..i], clock[..i]) + [UploadedItem(files[i], clock[i], i)]
  {
    var a := Uploaded(files[..i + 1], clock[..i + 1]);
    var b := Uploaded(files[..i], clock[..i]) + [UploadedItem(files[i], clock[i], i)];
    assert |a| == |b|;
    forall k | 0 <= k < |a| ensures a[k] == b[k] {
      if k < i {
        assert files[..i + 1][k] == files[..i][k] && clock[..i + 1][k] == clock[..i][k];
      }
    }
  }

  /** Every new entry carries its file's name, size and preview, the upload
      tag, no favorite mark and the fixed album, and no two new entries of
      one upload share an id. */
  lemma {:induction false} UploadedSpec(files: seq<UploadFile>, clock: seq<nat>)
    requires |clock| == |files|
    ensures forall k :: 0 <= k < |files| ==>
      var x := Uploaded(files, clock)[k];
      x.title == files[k].name && x.url == files[k].previewUrl && x.size == files[k].size
      && (x.kind == Video <==> StartsWith(files[k].mimeType, "video/"))
      && (x.kind == Video ==> x.thumbnailUrl == Some(VideoThumbnail))
      && (x.kind == Photo ==> x.thumbnailUrl.None?)
      && x.tags == ["新上传"] && !x.favorite && x.albumId == Some("album1") && x.albumName == Some("家庭聚会")
    ensures forall i, j :: 0 <= i < j < |files| ==> Uploaded(files, clock)[i].id != Uploaded(files, clock)[j].id
  {
    var r := Uploaded(files, clock);
    forall k | 0 <= k < |files|
      ensures r[k].kind == Video <==> StartsWith(files[k].mimeType, "video/")
    {
      UploadKindSpec(files[k].mimeType);
    }
    forall i, j | 0 <= i < j < |files| ensures r[i].id != r[j].id {
      if r[i].id == r[j].id {
        UploadIdInjective(r[i].kind, clock[i], i, r[j].kind, clock[j], j);
      }
    }
  }

  /** `Math.round((i + 1) / n * 100)`, computed exactly: the whole percentage
      nearest to the share of files done, halves rounded up. */
  function Progress(i: nat, n: nat): int
    requires i < n
  {
    (200 * (i + 1) + n) / (2 * n)
  }

  lemma {:induction false} MulMonotone(x: int, y: int, m: int)
    requires x <= y && 0 < m
    ensures x * m <= y * m
  {
    assert y * m - x * m == (y - x) * m;
  }

  lemma {:induction false} DivMonotone(a: int, b: int, m: int)
    requires a <= b && 0 < m
    ensures a / m <= b / m
  {
    var qa, qb := a / m, b / m;
    if qb + 1 <= qa {
      MulMonotone(qb + 1, qa, m);
    }
  }

  lemma {:induction false} DivOf(q: int, r: int, m: int)
    requires 0 <= r < m
    ensures (q * m + r) / m == q
  {
    var q' := (q * m + r) / m;
    if q' < q {
      MulMonotone(q' + 1, q, m);
    } else if q < q' {
      MulMonotone(q + 1, q', m);
    }
  }

  /** A later file never shows a smaller percentage, and none is negative. */
  lemma {:induction false} ProgressMonotone(i: nat, j: nat, n: nat)
    requires i <= j < n
    ensures 0 <= Progress(i, n) <= Progress(j, n)
  {
    DivMonotone(0, 200 * (i + 1) + n, 2 * n);
    DivMonotone(200 * (i + 1) + n, 200 * (j + 1) + n, 2 * n);
  }

  /** The last file shows exactly 100. */
  lemma {:induction false} ProgressLast(n: nat)
    requires 0 < n
    ensures Progress(n - 1, n) == 100
  {
    assert 200 * (n - 1 + 1) + n == 100 * (2 * n) + n;
    DivOf(100, n, 2 * n);
  }

  /** The bar shows a percentage, ends at 100 after the last file, and never
      moves back. */
  lemma {:induction false} ProgressSpec(i: nat, j: nat, n: nat)
    requires i <= j < n
    ensures 0 <= Progress(i, n) <= Progress(j, n) <= 100
    ensures Progress(n - 1, n) == 100
  {
    ProgressMonotone(i, j, n);
    ProgressMonotone(j, n - 1, n);
    ProgressLast(n);
  }

  // ---------------------------------------------------------------------
  // File sizes

  datatype SizeUnit = B | KB | MB

  /** The unit `formatFileSize` prints a byte count in. */
  function UnitOf(bytes: int): SizeUnit {
    if bytes < 1024 then B else if bytes < 1048576 then KB else MB
  }

  function UnitRank(u: SizeUnit): nat {
    match u
    case B => 0
    case KB => 1
    case MB => 2
  }

  /** What `formatFileSize` prints: a byte count, or a KB or MB reading
      given as its whole number of tenths (`toFixed(1)`). */
  datatype FileSize = Bytes(count: int) | Kilobytes(tenths: int) | Megabytes(tenths: int)

  /** `(bytes / unit).toFixed(1)` in tenths. Dividing by a power of two is
      exact, so `toFixed` picks the nearest number of tenths, the larger one
      on a tie. */
  function RoundTenths(bytes: int, unit: nat): int
    requires unit > 0
  {
    (20 * bytes + unit) / (2 * unit)
  }

  function FormatFileSize(bytes: int): FileSize {
    match UnitOf(bytes)
    case B => Bytes(bytes)
    case KB => Kilobytes(RoundTenths(bytes, 1024))
    case MB => Megabytes(RoundTenths(bytes, 1048576))
  }

  /** The tenths printed are the nearest to the exact quotient, ties going to
      the larger, and a larger size never prints fewer of them. */
  lemma RoundTenthsSpec(bytes: int, bytes': int, unit: nat)
    requires unit > 0 && bytes <= bytes'
    ensures var r := RoundTenths(bytes, unit);
      20 * bytes - unit < 2 * unit * r <= 20 * bytes + unit
    ensures RoundTenths(bytes, unit) <= RoundTenths(bytes', unit)
  {
    var n, d := 20 * bytes + unit, 2 * unit;
    var r := n / d;
    assert d * r <= n < d * r + d;
    assert 2 * unit * r == d * r;
    DivMonotone(n, 20 * bytes' + unit, d);
  }

  /** A larger size never takes a smaller unit. A KB reading lies between
      1.0 and 1024.0, and reads 1024.0 exactly from 1048525 bytes on; an MB
      reading is at least 1.0. */
  lemma {:induction false} UnitOfSpec(bytes: int, bytes': int)
    requires bytes <= bytes'
    ensures UnitRank(UnitOf(bytes)) <= UnitRank(UnitOf(bytes'))
    ensures FormatFileSize(bytes).Kilobytes? ==>
      10 <= FormatFileSize(bytes).tenths <= 10240
      && (FormatFileSize(bytes).tenths == 10240 <==> bytes >= 1048525)
    ensures FormatFileSize(bytes).Megabytes? ==> FormatFileSize(bytes).tenths >= 10
    ensures UnitOf(bytes) == UnitOf(bytes') && !FormatFileSize(bytes).Bytes? ==>
      FormatFileSize(bytes).tenths <= FormatFileSize(bytes').tenths
  {
    if UnitOf(bytes) == KB {
      RoundTenthsSpec(bytes, bytes', 1024);
    } else if UnitOf(bytes) == MB {
      RoundTenthsSpec(bytes, bytes', 1048576);
    }
  }

  // ---------------------------------------------------------------------
  // The component

  /** `mediaItems.find(item => item.id === id)`: the index of the first item
      with the id, or the length of the list when there is none. */
  method FindMedia(items: seq<MediaItem>, id: string) returns (k: nat)
    ensures k <= |items|
    ensures k < |items| ==> items[k].id == id
    ensures forall j :: 0 <= j < k ==> items[j].id != id
    ensures k == |items| <==> !HasMedia(items, id)
  {
    k := 0;
    while k < |items| && items[k].id != id
      invariant k <= |items|
      invariant forall j :: 0 <= j < k ==> items[j].id != id
    {
      k := k + 1;
    }
  }

  /** The loop of `handleFileUpload`: one entry per file, and the progress
      bar advanced after each, ending at 100. */
  method UploadFiles(files: seq<UploadFile>, clock: seq<nat>) returns (newItems: seq<MediaItem>, shown: seq<int>)
    requires |clock| == |files|
    ensures newItems == Uploaded(files, clock)
    ensures |shown| == |files| && forall k :: 0 <= k < |files| ==> shown[k] == Progress(k, |files|)
    ensures files != [] ==> shown[|files| - 1] == 100
  {
    newItems, shown := [], [];
    var n := |files|;
    var i := 0;
    while i < n
      invariant 0 <= i <= n
      invariant newItems == Uploaded(files[..i], clock[..i])
      invariant |shown| == i && forall k :: 0 <= k < i ==> shown[k] == Progress(k, n)
    {
      var file := files[i];
      var item := UploadedItem(file, clock[i], i);
      UploadedSnoc(files, clock, i);
      newItems := newItems + [item];
      var progress := Progress(i, n);
      shown := shown + [progress];
      i := i + 1;
    }
    assert files[..n] == files && clock[..n] == clock;
    if n > 0 {
      ProgressLast(n);
    }
  }

  /** The media tab. Its catalog is the dashboard's `mediaItems`, and
      `onMediaUpdated` is the dashboard's `loadDashboardData`. */
  class MediaManager {
    var selectedMediaType: Option<MediaType>
    var searchQuery: string
    var selectedAlbum: string
    var filteredMedia: seq<MediaItem>
    var albums: seq<AlbumOption>
    var isUploading: bool
    var uploadProgress: int
    const dashboard: AdminDashboard

    /** The effect has run on the current catalog and selection. */
    predicate Valid()
      reads this`albums, this`filteredMedia, this`selectedMediaType, this`selectedAlbum, this`searchQuery, dashboard`mediaItems
    {
      albums == AlbumOptions(dashboard.mediaItems)
      && filteredMedia == AdminFilter(dashboard.mediaItems, selectedMediaType, selectedAlbum, searchQuery)
    }

    /** Mounting: everything selected, nothing uploading, and the effect run. */
    constructor (d: AdminDashboard)
      ensures dashboard == d && selectedMediaType.None? && searchQuery == "" && selectedAlbum == "all"
      ensures !isUploading && uploadProgress == 0
      ensures Valid()
    {
      dashboard := d;
      selectedMediaType, searchQuery, selectedAlbum := None, "", "all";
      filteredMedia, albums := [], [];
      isUploading, uploadProgress := false, 0;
      new;
      Refresh();
    }

    /** The effect: album extraction, then `filterMediaItems`. */
    method Refresh()
      modifies this
      ensures Valid()
      ensures selectedMediaType == old(selectedMediaType) && searchQuery == old(searchQuery)
      ensures selectedAlbum == old(selectedAlbum)
      ensures isUploading == old(isUploading) && uploadProgress == old(uploadProgress)
    {
      albums := ExtractAlbums(dashboard.mediaItems);
      var result := dashboard.mediaItems;
      if selectedMediaType.Some? {
        result := Filter(result, KindPred(selectedMediaType.value));
      }
      if selectedAlbum != "all" {
        result := Filter(result, AlbumNamePred(selectedAlbum));
      }
      if searchQuery != "" {
        result := Filter(result, QueryPred(searchQuery));
      }
      filteredMedia := result;
    }

    method SetMediaType(kind: Option<MediaType>)
      modifies this
      ensures isUploading == old(isUploading) && uploadProgress == old(uploadProgress)
      ensures selectedMediaType == kind && searchQuery == old(searchQuery) && selectedAlbum == old(selectedAlbum)
      ensures Valid()
    {
      selectedMediaType := kind;
      Refresh();
    }

    method SetAlbum(album: string)
      modifies this
      ensures isUploading == old(isUploading) && uploadProgress == old(uploadProgress)
      ensures selectedAlbum == album && selectedMediaType == old(selectedMediaType) && searchQuery == old(searchQuery)
      ensures Valid()
    {
      selectedAlbum := album;
      Refresh();
    }

    method SetSearchQuery(query: string)
      modifies this
      ensures isUploading == old(isUploading) && uploadProgress == old(uploadProgress)
      ensures searchQuery == query && selectedMediaType == old(selectedMediaType) && selectedAlbum == old(selectedAlbum)
      ensures Valid()
    {
      searchQuery := query;
      Refresh();
    }

    /** The reset button of the empty list: the whole catalog is listed again. */
    method ResetFilters()
      modifies this
      ensures isUploading == old(isUploading) && uploadProgress == old(uploadProgress)
      ensures selectedMediaType.None? && selectedAlbum == "all" && searchQuery == ""
      ensures Valid() && filteredMedia == dashboard.mediaItems
    {
      selectedMediaType, selectedAlbum, searchQuery := None, "all", "";
      Refresh();
    }

    /** Writes a new catalog and lets the dashboard reload it. The reload
        shows the loading spinner in place of the tabs, so the media tab is
        unmounted and mounts again with its initial state: every filter
        cleared, nothing uploading, and the whole new catalog listed. */
    method Publish(items: seq<MediaItem>)
      modifies this, dashboard, dashboard.session.store
      ensures dashboard.session.store.State() == old(dashboard.session.store.State()).(mediaItems := Some(items))
      ensures dashboard.mediaItems == items
      ensures dashboard.stats == StatsOf(items, dashboard.session.store.visits)
      ensures dashboard.categoryData == AlbumCounts(items) && !dashboard.isLoading
      ensures selectedMediaType.None? && selectedAlbum == "all" && searchQuery == ""
      ensures !isUploading && uploadProgress == 0
      ensures Valid() && filteredMedia == items
    {
      dashboard.session.store.mediaItems := Some(items);
      dashboard.LoadDashboardData();
      selectedMediaType, selectedAlbum, searchQuery := None, "all", "";
      isUploading, uploadProgress := false, 0;
      Refresh();
    }

    /** `handleDeleteMedia`: when confirmed, the catalog without the id is
        stored and reloaded. */
    method HandleDeleteMedia(id: string, confirmed: bool) returns (o: Outcome)
      modifies this, dashboard, dashboard.session.store
      ensures !confirmed ==> o == Rejected(Cancelled) && unchanged(this) && unchanged(dashboard)
                             && dashboard.session.store.State() == old(dashboard.session.store.State())
      ensures confirmed ==>
        o == Done
        && dashboard.session.store.State() == old(dashboard.session.store.State()).(mediaItems := Some(DeleteMedia(old(dashboard.mediaItems), id)))
        && dashboard.mediaItems == DeleteMedia(old(dashboard.mediaItems), id)
        && selectedMediaType.None? && selectedAlbum == "all" && searchQuery == ""
        && dashboard.stats == StatsOf(dashboard.mediaItems, dashboard.session.store.visits)
        && dashboard.categoryData == AlbumCounts(dashboard.mediaItems) && !dashboard.isLoading
        && !isUploading && uploadProgress == 0
        && Valid() && filteredMedia == dashboard.mediaItems
    {
      if !confirmed {
        return Rejected(Cancelled);
      }
      Publish(Filter(dashboard.mediaItems, OtherMedia(id)));
      o := Done;
    }

    /** `handleEditMedia` with the prompt's answer as `input` (`None` when
        dismissed). */
    method HandleEditMedia(id: string, input: Option<string>) returns (o: Outcome)
      modifies this, dashboard, dashboard.session.store
      ensures var r := EditMedia(old(dashboard.mediaItems), id, input);
        if r.None? then
          o == (if HasMedia(old(dashboard.mediaItems), id) then Rejected(Cancelled) else Done)
          && unchanged(this) && unchanged(dashboard)
          && dashboard.session.store.State() == old(dashboard.session.store.State())
        else
          o == Done && dashboard.mediaItems == r.value
          && selectedMediaType.None? && selectedAlbum == "all" && searchQuery == ""
          && dashboard.stats == StatsOf(r.value, dashboard.session.store.visits)
          && dashboard.categoryData == AlbumCounts(r.value) && !dashboard.isLoading
          && !isUploading && uploadProgress == 0
          && Valid() && filteredMedia == r.value
          && dashboard.session.store.State() == old(dashboard.session.store.State()).(mediaItems := Some(r.value))
    {
      var items := dashboard.mediaItems;
      var k := FindMedia(items, id);
      if k == |items| {
        return Done;
      }
      if input.None? || Trim(input.value) == "" {
        return Rejected(Cancelled);
      }
      var title := Trim(input.value);
      Publish(Retitle(items, id, title));
      o := Done;
    }

    /** `handleFileUpload` with the files chosen and one clock reading per
        file. `shown` is what the progress bar displays after each file. */
    method HandleFileUpload(files: seq<UploadFile>, clock: seq<nat>) returns (o: Outcome, shown: seq<int>)
      requires |clock| == |files|
      modifies this, dashboard, dashboard.session.store
      ensures files == [] ==> o == Rejected(NoFile) && shown == [] && unchanged(this) && unchanged(dashboard)
                              && dashboard.session.store.State() == old(dashboard.session.store.State())
      ensures files != [] ==>
        o == Done
        && dashboard.session.store.State()
           == old(dashboard.session.store.State()).(mediaItems := Some(old(dashboard.mediaItems) + Uploaded(files, clock)))
        && dashboard.mediaItems == old(dashboard.mediaItems) + Uploaded(files, clock)
        && |shown| == |files| && (forall k :: 0 <= k < |files| ==> shown[k] == Progress(k, |files|))
        && dashboard.stats == StatsOf(dashboard.mediaItems, dashboard.session.store.visits)
        && dashboard.categoryData == AlbumCounts(dashboard.mediaItems) && !dashboard.isLoading
        && selectedMediaType.None? && selectedAlbum == "all" && searchQuery == ""
        && !isUploading && uploadProgress == 0 && Valid() && filteredMedia == dashboard.mediaItems
    {
      if files == [] {
        return Rejected(NoFile), [];
      }
      isUploading := true;
      uploadProgress := 0;
      var items := dashboard.mediaItems;
      var newItems;
      newItems, shown := UploadFiles(files, clock);
      uploadProgress := shown[|shown| - 1];
      Publish(items + newItems);
      o := Done;
    }
  }
}
