/** The gallery page (src/pages/Home.tsx): loading the catalog, counting the
    visit, and narrowing the grid by category, album and search text. */
module Gallery {
  import opened Model
  import opened Seqs
  import opened Catalog
  import opened Auth

  /** The visit record after one gallery load: both counters up by one, a
      missing record read as zero visits; `lastVisit` is carried over. */
  function NextVisits(v: Option<Visits>): (r: Visits)
    ensures v.Some? ==> r.today == v.value.today + 1 && r.total == v.value.total + 1 && r.lastVisit == v.value.lastVisit
    ensures v.None? ==> r.today == 1 && r.total == 1 && r.lastVisit.None?
  {
    var old_ := if v.Some? then v.value else Visits(0, 0, None);
    old_.(today := old_.today + 1, total := old_.total + 1)
  }

  /** The visit record after `n` loads. */
  function VisitsAfter(v: Option<Visits>, n: nat): Visits {
    if n == 0 then v.GetOr(Visits(0, 0, None)) else NextVisits(Some(VisitsAfter(v, n - 1)))
  }

  /** `n` loads add exactly `n` to both counters; `today` is never reset. */
  lemma {:induction false} VisitsCountLoads(v: Option<Visits>, n: nat)
    ensures var w := v.GetOr(Visits(0, 0, None));
      VisitsAfter(v, n) == w.(today := w.today + n, total := w.total + n)
  {
    if n > 0 {
      VisitsCountLoads(v, n - 1);
    }
  }

  /** The catalog a load shows: the stored one, or the generated one when the
      key is absent. */
  function CatalogOf(stored: Option<seq<MediaItem>>, generated: seq<MediaItem>): seq<MediaItem> {
    if stored.Some? then stored.value else generated
  }

  /** Reads the `mediaItems` key, storing the generated catalog when it is absent. */
  method ReadCatalog(store: Store, generated: seq<MediaItem>) returns (data: seq<MediaItem>)
    modifies store
    ensures data == CatalogOf(old(store.mediaItems), generated)
    ensures store.State() == old(store.State()).(mediaItems := Some(data))
  {
    if store.mediaItems.Some? {
      data := store.mediaItems.value;
    } else {
      data := generated;
      store.mediaItems := Some(data);
    }
  }

  /** The read-modify-write of the `visits` key. */
  method CountVisit(store: Store)
    modifies store
    ensures store.State() == old(store.State()).(visits := Some(NextVisits(old(store.visits))))
  {
    var visits := if store.visits.Some? then store.visits.value else Visits(0, 0, None);
    visits := visits.(today := visits.today + 1);
    visits := visits.(total := visits.total + 1);
    store.visits := Some(visits);
  }

  /** The page's state. */
  class Home {
    var mediaItems: seq<MediaItem>
    var categories: seq<Category>
    var albums: seq<Album>
    var activeCategory: string
    var activeAlbum: Option<string>
    var searchQuery: string
    var filteredMedia: seq<MediaItem>
    const session: Session

    /** The filter effect has run: the grid is the catalog narrowed by the
        current selection. */
    predicate Valid()
      reads this
    {
      filteredMedia == HomeFilter(mediaItems, activeCategory, activeAlbum, searchQuery)
    }

    constructor (s: Session)
      ensures session == s
      ensures mediaItems == [] && categories == [] && albums == [] && filteredMedia == []
      ensures activeCategory == "all" && activeAlbum.None? && searchQuery == ""
      ensures Valid()
    {
      session := s;
      mediaItems, categories, albums := [], [], [];
      activeCategory, activeAlbum, searchQuery := "all", None, "";
      filteredMedia := [];
    }

    /** The filter effect: category, then album, then search text. */
    method ApplyFilter()
      modifies this
      ensures Valid()
      ensures forall x :: x in filteredMedia <==> x in mediaItems && HomeKeeps(activeCategory, activeAlbum, searchQuery, x)
      ensures IsSubsequence(filteredMedia, mediaItems)
      ensures mediaItems == old(mediaItems) && categories == old(categories) && albums == old(albums)
      ensures activeCategory == old(activeCategory) && activeAlbum == old(activeAlbum) && searchQuery == old(searchQuery)
    {
      var result := mediaItems;
      if activeCategory == "photos" {
        result := Filter(result, IsPhoto());
      } else if activeCategory == "videos" {
        result := Filter(result, IsVideo());
      } else if activeCategory == "favorites" {
        result := Filter(result, IsFavorite());
      }
      if Truthy(activeAlbum) {
        result := Filter(result, AlbumPred(activeAlbum.value));
      }
      if searchQuery != "" {
        result := Filter(result, QueryPred(searchQuery));
      }
      filteredMedia := result;
      forall x {
        HomeFilterSpec(mediaItems, activeCategory, activeAlbum, searchQuery, x);
      }
    }

    /** The load effect: an unauthenticated visitor is sent to the gate and
        nothing is read; otherwise the catalog is read (or the generated one is
        stored), categories and albums are derived, and the visit is counted. */
    method Load(generated: seq<MediaItem>) returns (o: Outcome)
      modifies this, session.store
      ensures !session.isAuthenticated ==>
        o == Navigate(Gate) && session.store.State() == old(session.store.State()) && unchanged(this)
      ensures session.isAuthenticated ==>
        var data := CatalogOf(old(session.store.mediaItems), generated);
        o == Done && mediaItems == data
        && categories == GenerateCategories(data) && albums == Albums(data)
        && session.store.State() == old(session.store.State()).(mediaItems := Some(data),
                                                                 visits := Some(NextVisits(old(session.store.visits))))
        && activeCategory == old(activeCategory) && activeAlbum == old(activeAlbum) && searchQuery == old(searchQuery)
        && Valid()
    {
      if !session.isAuthenticated {
        return Navigate(Gate);
      }
      var data := ReadCatalog(session.store, generated);
      mediaItems := data;
      categories := GenerateCategories(data);
      albums := GenerateAlbums(data);
      filteredMedia := data;
      CountVisit(session.store);
      ApplyFilter();
      o := Done;
    }

    /** `handleCategoryChange`: the category is chosen and the album and search
        text are cleared, so the grid is that category's items. */
    method HandleCategoryChange(categoryId: string)
      modifies this
      ensures activeCategory == categoryId && activeAlbum.None? && searchQuery == ""
      ensures mediaItems == old(mediaItems) && categories == old(categories) && albums == old(albums) && Valid()
      ensures filteredMedia == Filter(mediaItems, CategoryPred(categoryId))
    {
      activeCategory, activeAlbum, searchQuery := categoryId, None, "";
      ApplyFilter();
      HomeFilterIsOneFilter(mediaItems, categoryId, None, "");
      FilterFilter(mediaItems, CategoryPred(categoryId), CategoryPred(categoryId), HomeKeepsPred(categoryId, None, ""));
      FilterIdempotent(mediaItems, CategoryPred(categoryId));
    }

    /** `handleAlbumChange`: the album is chosen, the category reset to `all`
        and the search text cleared, so the grid is that album's items. */
    method HandleAlbumChange(albumId: Option<string>)
      modifies this
      ensures activeAlbum == albumId && activeCategory == "all" && searchQuery == ""
      ensures mediaItems == old(mediaItems) && categories == old(categories) && albums == old(albums) && Valid()
      ensures Truthy(albumId) ==> filteredMedia == Filter(mediaItems, AlbumPred(albumId.value))
      ensures !Truthy(albumId) ==> filteredMedia == mediaItems
    {
      activeAlbum, activeCategory, searchQuery := albumId, "all", "";
      ApplyFilter();
    }

    /** Typing in the search box: the query changes and the filter effect runs. */
    method SetSearchQuery(query: string)
      modifies this
      ensures searchQuery == query && activeCategory == old(activeCategory) && activeAlbum == old(activeAlbum)
      ensures mediaItems == old(mediaItems) && categories == old(categories) && albums == old(albums) && Valid()
    {
      searchQuery := query;
      ApplyFilter();
    }

    /** `handleLogout`: the session ends and the visitor goes to the gate. */
    method HandleLogout() returns (o: Outcome)
      modifies session, session.store
      ensures o == Navigate(Gate)
      ensures !session.isAuthenticated && !session.isAdmin
      ensures session.store.State() == old(session.store.State()).(auth := session.store.auth)
      ensures old(session.Mirrored()) ==> session.Mirrored()
    {
      session.Logout();
      o := Navigate(Gate);
    }
  }
}
