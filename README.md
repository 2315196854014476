# Photo and video gallery: a verified model

The gallery is a single-page React application. It runs entirely in the browser. Every piece of its state lives in `localStorage`, under seven keys:

| key | holds |
|---|---|
| `mediaItems` | the catalog |
| `adBanners` | the ad list |
| `admins` | the admin account table |
| `auth` | the session flags |
| `visits` | the visit counters |
| `frontendPassword`, `adminPassword` | the two passwords |

Visitors pass a password gate and browse the catalog. They can narrow it by category, album and free text, and step through it in a full-screen viewer. Administrators log in separately and manage the following on a dashboard:

- the catalog: filter, retitle, delete and upload;
- the admin accounts;
- the ad banners;
- the passwords and the cache.

The model treats the store as a class, `Model.Store`, with one `Option` field per key. `Model.StoreState` is a value snapshot of it. Catalog entries, accounts and ads are datatypes. Each page or component whose state React updates step by step is a class whose methods are the page's handlers and effects. A handler returns an `Outcome` instead of showing a toast or calling the router:

- `Done`;
- `Rejected(reason)`: the reason names the check that failed;
- `Navigate(path)`: one of the gate `/`, `/home`, `/view/:id`, `/admin/login` and `/admin/dashboard`.

The pure derivations are functions:

- the gallery's category buckets, album groups and filter pipeline;
- the admin filter;
- the dashboard figures.

Each function has lemmas stating what the source promises about it. Where the source runs a loop or mutates a `Map`, a method runs the loop and is proved equal to the function:

- `generateAlbums`;
- the dashboard's `categoryMap`;
- the album `Set` of the media tab;
- the upload loop;
- the in-place `sort` of the ad list.

| file | module | models |
|---|---|---|
| model.dfy | `Model` | the store, the entities, `Outcome` |
| strings.dfy | `Strings` | `trim`, ASCII `toLowerCase`, `includes`, `startsWith`, decimal printing |
| seqs.dfy | `Seqs` | `filter`, de-duplication through a `Set` |
| sorting.dfy | `Sorting` | `Array.prototype.sort` with a numeric key: a stable insertion sort on an array |
| catalog.dfy | `Catalog` | `generateCategories`, the gallery filter, `generateAlbums` |
| home.dfy | `Gallery` | the gallery page: load, visit counter, selection handlers |
| auth.dfy | `Auth` | the session context: `login`, `logout`, `changePassword`, the `auth` mirror |
| viewer.dfy | `Viewer` | the media viewer |
| dashboard.dfy | `Dashboard` | the admin dashboard: guard and `loadDashboardData` |
| media_manager.dfy | `MediaAdmin` | the media tab |
| user_manager.dfy | `Users` | the account table |
| ad_manager.dfy | `Ads` | the ad list |
| settings.dfy | `Settings` | the settings tab |
| admin_login.dfy | `AdminLogin` | the admin login page |
| seed.dfy | `Seed` | `initializeMockData` |

Behaviours of the code worth noting:

- The gallery's album filter compares `albumId`. The media tab's album filter compares `albumName`.
- Seeding never writes `mediaItems`.
- The admin login's username check only affects the immediate navigation. `login` alone decides `isAdmin`, so the redirect effect still reaches the dashboard with any username.
- `handleEditUser` saves the list even when the superadmin guard kept the entry unchanged.
- Clearing the cache also removes the `auth` key. The mirror effect rewrites that key only when a flag next changes.
- The viewer's keydown listener is re-registered when the index, the list or the item change, but not when the play state does. Space therefore sets the play state to the opposite of the one the listener captured: two presses on a freshly loaded video leave it playing.
- The admin login page's redirect effect re-runs only when `isAdmin` changes. For a session that is already admin, a submission reaches the dashboard only through the username check.
- `formatFileSize` prints sizes from 1048525 to 1048575 bytes as `1024.0 KB`, because the unit is chosen before `toFixed(1)` rounds.

## Model

| member | source | states |
|---|---|---|
| Strings.Trim | 328222193666/src/pages/AdminLoginPage.tsx:23 | the result is the infix of the input left after dropping ECMAScript whitespace at both ends, and starts and ends with non-whitespace |
| Strings.TrimEmptyIff | 328222193666/src/components/AdminMediaManager.tsx:156 | `s.trim() === ''` exactly when every character of `s` is whitespace |
| Strings.TrimIdempotent | 328222193666/src/components/AdminMediaManager.tsx:158 | a trimmed title is left unchanged by trimming again |
| Strings.ToLowerIdempotent | 328222193666/src/pages/Home.tsx:194-201 | lower-casing is idempotent and leaves no upper-case ASCII letter |
| Strings.IncludesIff | 328222193666/src/pages/Home.tsx:194-201 | `includes` holds iff the query occurs at some position of the string |
| Strings.NatToStringRoundTrip | 328222193666/src/components/AdminMediaManager.tsx:98 | the printed decimal of a number reads back as that number, so distinct times and indices print differently |
| Seqs.Filter | 328222193666/src/pages/Home.tsx:176-204 | `filter` returns no more elements than its input, each from the input and satisfying the predicate |
| Seqs.FilterMember | 328222193666/src/pages/Home.tsx:176-204 | an element is kept iff it occurs in the input and satisfies the predicate |
| Seqs.FilterIsSubsequence | 328222193666/src/pages/Home.tsx:176-204 | `filter` keeps the input order |
| Seqs.FilterAppend | 328222193666/src/components/AdminMediaManager.tsx:122 | filtering distributes over concatenation |
| Seqs.FilterAll | 328222193666/src/pages/Home.tsx:176-204 | a filter every element passes returns its input |
| Seqs.FilterFilter | 328222193666/src/pages/Home.tsx:176-204 | two chained filters are one filter by the conjunction |
| Seqs.FilterIdempotent | 328222193666/src/pages/Home.tsx:176-204 | filtering twice by the same predicate equals filtering once |
| Seqs.FilterPartition | 328222193666/src/pages/AdminDashboard.tsx:71-78 | for complementary predicates the two filter lengths add up to the input length |
| Seqs.Distinct | 328222193666/src/components/AdminMediaManager.tsx:32-42 | `Array.from(new Set(s))` has no duplicates and holds exactly the elements of `s` |
| Seqs.DistinctIsSubsequence | 328222193666/src/components/AdminMediaManager.tsx:32-42 | de-duplication keeps first-seen order |
| Seqs.NoDuplicatesPermutation | 328222193666/src/pages/Home.tsx:127 | a permutation of a duplicate-free list is duplicate-free |
| Sorting.SortByKeyPermutation | 328222193666/src/components/AdminAdManager.tsx:35 | the sorted list is a permutation of the input |
| Sorting.SortByKeySorted | 328222193666/src/components/AdminAdManager.tsx:35 | the sorted list is ascending by key |
| Sorting.SortByKeyStable | 328222193666/src/components/AdminAdManager.tsx:35 | elements with equal keys keep their relative order |
| Sorting.InsertAt | 328222193666/src/components/AdminAdManager.tsx:35 | an element whose key is below those of a suffix and not below the element before it is inserted just before that suffix |
| Sorting.InsertInPlace | 328222193666/src/components/AdminAdManager.tsx:35 | one insertion step leaves `a[..i+1]` equal to inserting `a[i]` into the sorted prefix, and the rest of the array untouched |
| Sorting.SortInPlace | 328222193666/src/components/AdminAdManager.tsx:35 | the in-place sort leaves the array equal to the stable sort of its old contents |
| Catalog.GenerateCategories | 328222193666/src/pages/Home.tsx:92-101 | four buckets all/photos/videos/favorites in that order; all counts the catalog, photos + videos = all, favorites counts the favourites |
| Catalog.HomeFilterIsOneFilter | 328222193666/src/pages/Home.tsx:176-204 | the three chained stages equal one filter by the combined condition |
| Catalog.HomeFilterSpec | 328222193666/src/pages/Home.tsx:176-204 | an item is shown iff it is in the catalog and passes category, album id and search; the grid is an order-preserving subsequence |
| Catalog.HomeFilterNoSelection | 328222193666/src/pages/Home.tsx:176-204 | category `all`, no album and no query show the whole catalog |
| Catalog.HomeFilterIdempotent | 328222193666/src/pages/Home.tsx:176-204 | re-applying the same selection to the grid changes nothing |
| Catalog.TagSearchSpec | 328222193666/src/pages/Home.tsx:198 | some tag matches iff the lower-cased query occurs in some lower-cased tag |
| Catalog.SearchSpec | 328222193666/src/pages/Home.tsx:194-201 | a non-empty query keeps an item iff its lower-cased form occurs in the lower-cased title, some tag, or a present album name |
| Catalog.MaxDateSpec | 328222193666/src/pages/Home.tsx:118-123 | the folded album date is the largest member date and is attained by a member |
| Catalog.GroupOfSpec | 328222193666/src/pages/Home.tsx:104-125 | an album's count is the number of its members, and its date is the largest member date |
| Catalog.AlbumsAreGroups | 328222193666/src/pages/Home.tsx:104-125 | every album is the group of its id: name and cover of the first member, member count, latest date |
| Catalog.AlbumsCoverItems | 328222193666/src/pages/Home.tsx:104-125 | every item with an album id and name has its album in the list |
| Catalog.AlbumsDistinctIds | 328222193666/src/pages/Home.tsx:104-125 | no two albums share an id |
| Catalog.AlbumsPermutation | 328222193666/src/pages/Home.tsx:127 | the returned list is a permutation of the albums in first-seen order |
| Catalog.AlbumsByDateDescending | 328222193666/src/pages/Home.tsx:127 | the albums are ordered latest date first |
| Catalog.AddToAlbumMap | 328222193666/src/pages/Home.tsx:107-125 | one `forEach` turn (new album at count 0, then count plus one and the later date) yields the map and key order of `AlbumStep` |
| Catalog.AlbumStepPreserves | 328222193666/src/pages/Home.tsx:107-125 | each turn keeps the map equal to the groups of the items seen so far, keyed in first-seen order |
| Catalog.GenerateAlbums | 328222193666/src/pages/Home.tsx:104-128 | the `Map`-based loop and sort return exactly `Albums(items)` |
| Catalog.AlbumNameListMember | 328222193666/src/components/AdminMediaManager.tsx:33-37 | a name is collected iff some item carries it as a non-empty album name |
| Gallery.NextVisits | 328222193666/src/pages/Home.tsx:169-172 | one load adds 1 to `today` and to `total`; a missing record counts from 0/0 |
| Gallery.VisitsCountLoads | 328222193666/src/pages/Home.tsx:169-172 | `n` loads add exactly `n` to both counters, and `today` is never reset |
| Gallery.ReadCatalog | 328222193666/src/pages/Home.tsx:153-161 | a stored catalog is read as is; otherwise the generated one is stored and shown; no other key changes |
| Gallery.CountVisit | 328222193666/src/pages/Home.tsx:169-172 | only the `visits` key changes, to the next record |
| Gallery.Home.ApplyFilter | 328222193666/src/pages/Home.tsx:176-204 | the grid holds exactly the catalog items passing the selection, in catalog order |
| Gallery.Home.Load | 328222193666/src/pages/Home.tsx:145-172 | an unauthenticated visitor goes to the gate and the page state and store stay as they were; otherwise catalog, categories, albums and grid are set, and one visit is counted |
| Gallery.Home.HandleCategoryChange | 328222193666/src/pages/Home.tsx:207-211 | the category is chosen, album and query cleared, and the grid is that category's filter; catalog, categories and albums are kept |
| Gallery.Home.HandleAlbumChange | 328222193666/src/pages/Home.tsx:214-218 | the album is chosen, category reset to `all`, query cleared, and the grid is that album's items; catalog, categories and albums are kept |
| Gallery.Home.SetSearchQuery | 328222193666/src/pages/Home.tsx:176-204 | typing changes only the query and re-runs the filter; catalog, categories, albums and the other selections are kept |
| Gallery.Home.HandleLogout | 328222193666/src/pages/Home.tsx:226-229 | both flags become false and the visitor goes to the gate; only the `auth` key may change, and a mirrored session stays mirrored |
| Auth.EffectivePassword | 328222193666/src/contexts/authContext.ts:58-60 | a stored non-empty password is used, otherwise the fallback |
| Auth.LoginPasswordNonEmpty | 328222193666/src/contexts/authContext.ts:57-62 | the password a login is checked against is never empty |
| Auth.EmptyStoredPasswordFallsBack | 328222193666/src/contexts/authContext.ts:58-60 | an empty or missing stored password means the default |
| Auth.Session.constructor | 328222193666/src/contexts/authContext.ts:33-49 | a saved `auth` pair is restored verbatim, otherwise both flags are false; the `auth` key then mirrors the flags |
| Auth.Session.Commit | 328222193666/src/contexts/authContext.ts:47-49 | the mirror rewrites `auth` only when a flag changed, and keeps it in step |
| Auth.Session.Logout | 328222193666/src/contexts/authContext.ts:51-53 | both flags become false; only `auth` may change |
| Auth.Session.Login | 328222193666/src/contexts/authContext.ts:57-70 | succeeds iff the password equals the stored (or default) one for the login kind; on success the session is authenticated with `isAdmin` equal to the flag; on failure nothing changes |
| Auth.Session.ChangePassword | 328222193666/src/contexts/authContext.ts:73-84 | succeeds iff the current password is the front-end one (default `123456`); only `frontendPassword` changes, never the admin password or the flags |
| Viewer.FirstIndex | 328222193666/src/pages/MediaViewer.tsx:32-35 | the position of the first item with the id, or none iff no item has it |
| Viewer.FirstIndexOfMember | 328222193666/src/pages/MediaViewer.tsx:32-35 | looking up an item's own id finds it or an earlier duplicate, and finds it exactly when ids are unique |
| Viewer.StepRoundTrip | 328222193666/src/pages/MediaViewer.tsx:84-97 | next is unavailable iff at the last item, previous iff at the first; with unique ids a step forward then back returns to the same item |
| Viewer.MediaView.Load | 328222193666/src/pages/MediaViewer.tsx:19-43 | unauthenticated: gate, nothing changes; stored catalog: the index is the first match, or the outcome is `/home` when none, and the re-registered keyboard listener captures the current play state |
| Viewer.MediaView.HandleNext | 328222193666/src/pages/MediaViewer.tsx:84-89 | moves to index + 1 only below the last item, else nothing |
| Viewer.MediaView.HandlePrevious | 328222193666/src/pages/MediaViewer.tsx:92-97 | moves to index − 1 only above the first item, else nothing |
| Viewer.MediaView.HandlePlayPause | 328222193666/src/pages/MediaViewer.tsx:46-54 | play state flips for a video item and is kept otherwise |
| Viewer.MediaView.HandleVideoEnded | 328222193666/src/pages/MediaViewer.tsx:78-81 | playback stops and progress returns to 0 |
| Viewer.MediaView.HandleKeyDown | 328222193666/src/pages/MediaViewer.tsx:100-117 | ArrowRight is next, ArrowLeft previous, Escape goes home; Space on a video sets play to the opposite of the state the listener captured, and does nothing otherwise; other keys do nothing |
| Viewer.SpaceTwiceOnVideo | 328222193666/src/pages/MediaViewer.tsx:100-117 | a freshly loaded video is playing after two Space presses |
| Dashboard.TotalSizeAppend | 328222193666/src/pages/AdminDashboard.tsx:81 | the size sum is additive over concatenation |
| Dashboard.StorageUsed | 328222193666/src/pages/AdminDashboard.tsx:82 | the percentage of 100 GiB is the nearest whole number, halves rounded up |
| Dashboard.StatsOf | 328222193666/src/pages/AdminDashboard.tsx:71-85 | photos + videos = total = catalog length; visits copied, 0/0 when missing; storage from the size sum |
| Dashboard.CountIsFilter | 328222193666/src/pages/AdminDashboard.tsx:88-93 | the count for a name is the number of items carrying that name |
| Dashboard.AlbumCountsSum | 328222193666/src/pages/AdminDashboard.tsx:88-93 | the chart's counts sum to the number of items with a non-empty album name |
| Dashboard.AlbumCountsSpec | 328222193666/src/pages/AdminDashboard.tsx:88-116 | one slice per distinct name, a name is charted iff some item carries it, every slice counts at least one item |
| Dashboard.AddToCountMap | 328222193666/src/pages/AdminDashboard.tsx:89-93 | one `forEach` turn (`get` or 0, plus one; a new key goes last) yields the map and key order of `CountStep` |
| Dashboard.CountStepPreserves | 328222193666/src/pages/AdminDashboard.tsx:89-93 | each turn keeps the map equal to the per-name counts of the items seen so far, keyed in first-seen order |
| Dashboard.CountMap | 328222193666/src/pages/AdminDashboard.tsx:88-93 | after the loop the map holds, for each album name in first-seen order, the number of items carrying it |
| Dashboard.MapEntries | 328222193666/src/pages/AdminDashboard.tsx:116 | one chart entry per map key, in key order, with that key's count |
| Dashboard.CountAlbums | 328222193666/src/pages/AdminDashboard.tsx:88-116 | the `Map` loop and `entries().map` return exactly the chart data |
| Dashboard.AdminDashboard.LoadDashboardData | 328222193666/src/pages/AdminDashboard.tsx:65-121 | catalog (empty when missing), counters and chart are read from the store |
| Dashboard.AdminDashboard.Open | 328222193666/src/pages/AdminDashboard.tsx:54-62 | a non-admin goes to the admin login, nothing is loaded and the spinner state is kept; an admin gets the loaded data and the spinner ends |
| Dashboard.AdminDashboard.HandleLogout | 328222193666/src/pages/AdminDashboard.tsx:124-127 | the session ends and the admin login is shown; only the `auth` key may change, and a mirrored session stays mirrored |
| MediaAdmin.AlbumOptions | 328222193666/src/components/AdminMediaManager.tsx:32-42 | each entry's id is `album-` followed by its name |
| MediaAdmin.AlbumOptionsSpec | 328222193666/src/components/AdminMediaManager.tsx:32-42 | names and ids distinct, a name is listed iff some item carries it, first-seen order |
| MediaAdmin.ExtractAlbums | 328222193666/src/components/AdminMediaManager.tsx:32-42 | the `Set` loop returns exactly the album options |
| MediaAdmin.AdminFilterIsOneFilter | 328222193666/src/components/AdminMediaManager.tsx:51-75 | the three chained stages equal one filter by the combined condition |
| MediaAdmin.AdminFilterSpec | 328222193666/src/components/AdminMediaManager.tsx:51-75 | an item is listed iff it is in the catalog and passes type (unless all), album name (unless `all`) and search; order kept |
| MediaAdmin.AdminFilterIdempotent | 328222193666/src/components/AdminMediaManager.tsx:51-75 | filtering the list again by the same selection changes nothing |
| MediaAdmin.DeleteMediaSpec | 328222193666/src/components/AdminMediaManager.tsx:142-149 | exactly the items with the id are removed, the rest keep their order, and a catalog without the id is returned as it was |
| MediaAdmin.Retitle | 328222193666/src/components/AdminMediaManager.tsx:157-159 | items with the id get the new title and keep every other field; other items are unchanged |
| MediaAdmin.EditMediaSpec | 328222193666/src/components/AdminMediaManager.tsx:152-165 | a write happens iff the id is known and the input is present and not blank; only that item's title changes, to the non-empty trimmed input |
| MediaAdmin.EditMediaIdempotent | 328222193666/src/components/AdminMediaManager.tsx:156-159 | submitting the same title again writes the same catalog |
| MediaAdmin.UploadKindSpec | 328222193666/src/components/AdminMediaManager.tsx:90-91 | a file is a video iff its type starts with `video/`, otherwise a photo |
| MediaAdmin.UploadIdInjective | 328222193666/src/components/AdminMediaManager.tsx:98 | distinct (type, time, index) triples give distinct ids |
| MediaAdmin.UploadedItem | 328222193666/src/components/AdminMediaManager.tsx:97-109 | the entry carries the file's name, size and preview, the upload tag, no favourite, album `album1`/`家庭聚会`, and a thumbnail iff a video |
| MediaAdmin.Uploaded | 328222193666/src/components/AdminMediaManager.tsx:88-111 | one entry per file, in file order |
| MediaAdmin.UploadedSpec | 328222193666/src/components/AdminMediaManager.tsx:88-111 | every entry's fields as above, and all new ids distinct |
| MediaAdmin.ProgressSpec | 328222193666/src/components/AdminMediaManager.tsx:114-115 | the rounded percentage lies in 0..100, never decreases, and is 100 after the last file |
| MediaAdmin.UnitOfSpec | 328222193666/src/components/AdminMediaManager.tsx:168-172 | a larger size never takes a smaller unit and, within a unit, never a smaller reading; the printed KB reading lies in 1.0..1024.0 and is 1024.0 exactly from 1048525 bytes on; an MB reading is at least 1.0 |
| MediaAdmin.RoundTenthsSpec | 328222193666/src/components/AdminMediaManager.tsx:170-171 | the printed tenths are the nearest to the exact quotient, ties going to the larger, and grow with the size |
| MediaAdmin.MediaManager.Refresh | 328222193666/src/components/AdminMediaManager.tsx:30-48 | the effect sets the album options and the filtered list for the current selection |
| MediaAdmin.MediaManager.SetMediaType | 328222193666/src/components/AdminMediaManager.tsx:48-75 | the type changes and the list is re-filtered; the other selections and the upload flag and bar are kept |
| MediaAdmin.MediaManager.SetAlbum | 328222193666/src/components/AdminMediaManager.tsx:48-75 | the album changes and the list is re-filtered; the other selections and the upload flag and bar are kept |
| MediaAdmin.MediaManager.SetSearchQuery | 328222193666/src/components/AdminMediaManager.tsx:48-75 | the query changes and the list is re-filtered; the other selections and the upload flag and bar are kept |
| MediaAdmin.MediaManager.ResetFilters | 328222193666/src/components/AdminMediaManager.tsx:48-75 | with every filter reset the whole catalog is listed; the upload flag and bar are kept |
| MediaAdmin.MediaManager.Publish | 328222193666/src/pages/AdminDashboard.tsx:64-66 | the catalog is stored and the dashboard reloads it; its loading spinner (AdminDashboard.tsx:137-146) unmounts the media tab, which mounts again with every filter cleared, nothing uploading and the whole new catalog listed; the dashboard's counters and album chart are those of the new catalog and its spinner has ended; no other key changes |
| MediaAdmin.MediaManager.HandleDeleteMedia | 328222193666/src/components/AdminMediaManager.tsx:142-149 | cancelled: nothing changes; confirmed: the catalog without the id is stored, the dashboard's counters and chart are recomputed from it with the spinner ended, and the remounted tab lists all of it with the filters cleared and nothing uploading |
| MediaAdmin.MediaManager.HandleEditMedia | 328222193666/src/components/AdminMediaManager.tsx:152-165 | unknown id or blank/dismissed input: nothing changes; otherwise the retitled catalog is stored, the dashboard's counters and chart are recomputed from it with the spinner ended, and the remounted tab lists all of it with the filters cleared and nothing uploading |
| MediaAdmin.FindMedia | 328222193666/src/components/AdminMediaManager.tsx:153 | the index found is that of the first item with the id, and it is the list's length exactly when no item has the id |
| MediaAdmin.UploadFiles | 328222193666/src/components/AdminMediaManager.tsx:88-119 | the loop builds exactly the uploaded entries and shows the rounded progress after each file, ending at 100 |
| MediaAdmin.MediaManager.HandleFileUpload | 328222193666/src/components/AdminMediaManager.tsx:78-139 | no files: nothing changes; otherwise the new entries are appended after the catalog and stored, the dashboard's counters and chart are recomputed from it with the spinner ended, and the remounted tab lists all of it with the filters cleared, not uploading and the bar at 0 |
| Users.FindById | 328222193666/src/components/AdminUserManager.tsx:113 | returns an account with the id, or none iff no account has it |
| Users.FindByIdUnique | 328222193666/src/components/AdminUserManager.tsx:113 | with unique ids the lookup returns the account with that id |
| Users.AddUser | 328222193666/src/components/AdminUserManager.tsx:43-61 | refused iff the username is empty or taken (with that reason); otherwise exactly one account is appended, role defaulting to editor |
| Users.AddKeepsUsernamesUnique | 328222193666/src/components/AdminUserManager.tsx:49 | a successful add keeps usernames unique |
| Users.AddKeepsValid | 328222193666/src/components/AdminUserManager.tsx:43-61 | with a fresh id, a successful add keeps every account invariant |
| Users.EditUser | 328222193666/src/components/AdminUserManager.tsx:72-101 | refused iff no target, no username, or the username is held by another id; otherwise the list keeps its length |
| Users.EditOnlyTarget | 328222193666/src/components/AdminUserManager.tsx:83-99 | only accounts with the edited id change; when the target is a superadmin and the new role is not superadmin they stay entirely unchanged, username included; otherwise they get the new username and the given role, keeping their role when none is given |
| Users.EditKeepsSuperadmins | 328222193666/src/components/AdminUserManager.tsx:86-90 | with unique ids a superadmin stays a superadmin |
| Users.EditKeepsUsernamesUnique | 328222193666/src/components/AdminUserManager.tsx:78-98 | with unique ids, the duplicate check before the rename keeps usernames unique |
| Users.EditKeepsValid | 328222193666/src/components/AdminUserManager.tsx:72-101 | an accepted edit keeps every account invariant |
| Users.DeleteUser | 328222193666/src/components/AdminUserManager.tsx:111-129 | refused for a superadmin target, for a list of at most one, or when not confirmed, and the refusal names the first of those checks that failed; otherwise exactly the accounts with that id go, order kept |
| Users.DeleteKeepsValid | 328222193666/src/components/AdminUserManager.tsx:113-127 | an accepted delete keeps every account invariant, so the list is never emptied and keeps a superadmin |
| Users.UserManager.constructor | 328222193666/src/components/AdminUserManager.tsx:22-34 | mounting copies the stored account list |
| Users.UserManager.Save | 328222193666/src/components/AdminUserManager.tsx:36-39 | the key is written and read back; no other key changes |
| Users.UserManager.HandleAddUser | 328222193666/src/components/AdminUserManager.tsx:42-68 | the result of `AddUser` is saved, or the rejection returned with nothing changed |
| Users.UserManager.HandleEditUser | 328222193666/src/components/AdminUserManager.tsx:71-108 | the result of `EditUser` is saved, or the rejection returned with nothing changed |
| Users.UserManager.HandleDeleteUser | 328222193666/src/components/AdminUserManager.tsx:111-129 | the result of `DeleteUser` is saved, or the rejection returned with nothing changed |
| Ads.LoadedSpec | 328222193666/src/components/AdminAdManager.tsx:31-37 | the shown list is the stored ads ascending by order, equal orders keeping their stored order |
| Ads.AddAd | 328222193666/src/components/AdminAdManager.tsx:46-63 | refused iff text or image is missing; otherwise one ad is appended, order defaulting to length + 1 and link to `#` |
| Ads.EditAll | 328222193666/src/components/AdminAdManager.tsx:79-90 | the field update is applied to every ad, length kept |
| Ads.EditAd | 328222193666/src/components/AdminAdManager.tsx:73-92 | refused iff no ad is selected or the text is empty; otherwise the list keeps its length |
| Ads.EditAdSpec | 328222193666/src/components/AdminAdManager.tsx:79-90 | only the selected ad changes: the text is replaced, an empty link or image keeps the old value, and a given order replaces it |
| Ads.DeleteAd | 328222193666/src/components/AdminAdManager.tsx:102-108 | refused iff not confirmed; otherwise exactly the ads with that id go, order kept |
| Ads.AcceptImage | 328222193666/src/components/AdminAdManager.tsx:111-125 | accepted iff a file is chosen, its type starts with `image/` and its size is at most 5 MiB; a refusal names the first failing check: no file, then not an image, then too large |
| Ads.AdManager.constructor | 328222193666/src/components/AdminAdManager.tsx:26-37 | mounting shows the stored ads sorted |
| Ads.AdManager.LoadAdData | 328222193666/src/components/AdminAdManager.tsx:31-37 | the stored ads are sorted in place and shown |
| Ads.AdManager.Save | 328222193666/src/components/AdminAdManager.tsx:40-43 | the key is written, then shown sorted |
| Ads.AdManager.HandleAddAd | 328222193666/src/components/AdminAdManager.tsx:46-70 | the result of `AddAd` is saved, or the rejection returned with nothing changed |
| Ads.AdManager.HandleEditAd | 328222193666/src/components/AdminAdManager.tsx:73-99 | the result of `EditAd` is saved, or the rejection returned with nothing changed |
| Ads.AdManager.HandleDeleteAd | 328222193666/src/components/AdminAdManager.tsx:102-108 | the result of `DeleteAd` is saved, or the rejection returned with nothing changed |
| Settings.ValidateFormSpec | 328222193666/src/components/AdminSettings.tsx:15-28 | a form passes iff all fields are filled, new equals confirm and new has at least six characters; a failure reports the first failing check |
| Settings.Cleared | 328222193666/src/components/AdminSettings.tsx:92-100 | the catalog and the accounts survive the clear unchanged |
| Settings.ClearedSpec | 328222193666/src/components/AdminSettings.tsx:89-100 | every other key is gone, both logins are back to their default passwords, and clearing twice is clearing once |
| Settings.AdminSettings.HandleChangeFrontendPassword | 328222193666/src/components/AdminSettings.tsx:13-46 | a failing form changes nothing; otherwise `changePassword` decides, and the form is emptied only on success |
| Settings.AdminSettings.HandleChangeAdminPassword | 328222193666/src/components/AdminSettings.tsx:48-86 | the same checks, then the current password must be the stored admin one (default `admin123`); on success only `adminPassword` changes |
| Settings.AdminSettings.HandleClearCache | 328222193666/src/components/AdminSettings.tsx:89-104 | confirmed: the store becomes its cleared form; cancelled: nothing changes |
| AdminLogin.AdminLoginPage.constructor | 328222193666/src/pages/AdminLoginPage.tsx:9-11 | the username starts as `admin`, the password empty |
| AdminLogin.AdminLoginPage.RedirectEffect | 328222193666/src/pages/AdminLoginPage.tsx:14-18 | an admin session goes to the dashboard, otherwise nothing |
| AdminLogin.AdminLoginPage.HandleSubmit | 328222193666/src/pages/AdminLoginPage.tsx:20-41 | blank username or password: rejected and `login` not called; otherwise an admin login, and the dashboard only when it succeeded and the username is exactly `admin` |
| AdminLogin.AdminLoginPage.SubmitAndRedirect | 328222193666/src/pages/AdminLoginPage.tsx:14-41 | the effect fires only when `isAdmin` changed: from a non-admin session the admin password reaches the dashboard whatever the username; from an admin one only with username `admin`; a wrong password never; blank input is rejected |
| AdminLogin.AdminLoginPage.HandleBackToUserLogin | 328222193666/src/pages/AdminLoginPage.tsx:43-45 | goes to the gate |
| Seed.SeedAdminsValid | 328222193666/src/main.tsx:45-51 | the seeded account table is one superadmin `admin` and satisfies every account invariant |
| Seed.SeedAdsLoadedAsStored | 328222193666/src/main.tsx:20-42 | the three seeded ads are already in order, so they are shown as stored |
| Seed.InitializeMockData | 328222193666/src/main.tsx:9-53 | seeding runs iff `mediaItems` is absent, overwrites `visits`, `adBanners` and `admins`, and never writes `mediaItems` |

## Left out

- JSON encoding of the store and `localStorage`'s string values. Keys hold typed values, and parse failures (which the code does not guard) are out of scope.
- Randomness and the clock:
  - the mock catalog generator is a parameter of the gallery load;
  - `Date.now()` and `new Date()` are parameters: one reading per uploaded file, used for both the id and the date;
  - the seven-day visit trend of the dashboard is random and not modelled.
- Floating point:
  - `Math.round` of the upload progress and of the storage percentage is computed exactly on integers;
  - `formatFileSize` is modelled for integer byte counts, where the quotient is exact; its reading is a whole number of tenths;
  - video seek, time-update and progress arithmetic are not modelled.
- Text:
  - `toLowerCase` is restricted to ASCII letters;
  - string lengths count characters, not UTF-16 code units;
  - dates are integer timestamps, and `formatDate` is not modelled.
- Browser calls:
  - `setTimeout` delays are collapsed: the callback runs at once;
  - `window.confirm` and `prompt` are boolean and optional-string parameters;
  - `URL.createObjectURL` and `FileReader` become the file's preview URL;
  - toasts are not modelled, and their cases are outcomes;
  - rendering is not modelled.
- Unmodelled handlers and files:
  - `handleViewMedia` and the dashboard's tab switch are plain navigation and not modelled;
  - `getRoleDisplayName` is a label lookup for rendering and is not modelled;
  - `LoginPage`, `AdBanner`, `MediaGridItem`, `CategoryItem` and `App` are not part of this model.
- Concurrency: React batches state updates and runs effects asynchronously. Each handler is modelled as running to completion, with its effect run right after it. Handlers are modelled as seeing the current state, except the viewer's keydown listener, which sees the play state captured when it was registered.
- MediaAdmin.MediaManager.HandleFileUpload: no files (or a cancelled dialog) returns `Rejected(NoFile)` where the code silently returns. The catch branch is not modelled, since nothing in the modelled loop can fail. The `finally` that clears the uploading flag and the bar acts on the unmounted tab, so it is not modelled; the remounted tab starts with both cleared.
- Viewer.MediaView.HandleNext, Viewer.MediaView.HandlePrevious and Viewer.MediaView.HandleKeyDown require the viewer's index to point into its list (or the list to be empty). The load effect establishes this, and the page shows no navigation before loading.
- Viewer.MediaView.Load: the `/home` outcome for an unknown id is returned. Afterwards the loading flag is still cleared, as in the code, whose `navigate` does not return early.
- Users.DeleteUser: the superadmin check uses the first account with the id, while deletion removes every account with that id. The invariants are proved under unique ids, which every add with a fresh id preserves.
- Auth.Session.Commit: the `auth` mirror is rewritten only when a flag changes, as React's dependency list has it. After a cache clear the key stays absent until the next login or logout.
