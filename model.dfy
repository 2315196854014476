/** The records the gallery keeps and the browser's local key-value store
    that holds them. Each key holds one JSON value; the model keeps the
    parsed value, or `None` when the key is absent. */
module Model {

  datatype Option<T> = None | Some(value: T) {
    function GetOr(default: T): T {
      if Some? then value else default
    }
  }

  datatype Result<T> = Ok(value: T) | Err(reason: Reason)

  /** Why a handler refused to act (each is a toast in the source). */
  datatype Reason =
    | Cancelled                  // the user dismissed a confirm or prompt dialog
    | MissingUsername
    | DuplicateUsername
    | SuperadminProtected
    | LastAccount
    | MissingAdFields
    | MissingAdText
    | NoFile
    | NotAnImage
    | ImageTooLarge
    | MissingPasswordField
    | PasswordMismatch
    | PasswordTooShort
    | WrongPassword
    | MissingCredentials
    | LoginFailed

  /** The application's routes. */
  datatype Path = Gate | Home | View(id: string) | AdminLogin | AdminDashboard

  /** What a handler does besides changing state: nothing visible, a refusal,
      or a navigation. */
  datatype Outcome = Done | Rejected(reason: Reason) | Navigate(to: Path)

  /** A JavaScript string is truthy when it is present and not empty. */
  predicate Truthy(o: Option<string>) {
    o.Some? && o.value != ""
  }

  datatype MediaType = Photo | Video

  /** A catalog entry; `date` is a timestamp, `size` a byte count. */
  datatype MediaItem = MediaItem(
    id: string,
    title: string,
    kind: MediaType,
    url: string,
    thumbnailUrl: Option<string>,
    date: int,
    size: int,
    tags: seq<string>,
    favorite: bool,
    albumId: Option<string>,
    albumName: Option<string>)

  datatype Role = Superadmin | Admin | Editor

  datatype AdminUser = AdminUser(id: string, username: string, role: Role)

  datatype AdBannerItem = AdBannerItem(id: string, imageUrl: string, text: string, link: string, order: int)

  /** The `auth` key: the two session flags. */
  datatype AuthRecord = AuthRecord(isAuthenticated: bool, isAdmin: bool)

  /** The `visits` key; `lastVisit` is written by first-run seeding only. */
  datatype Visits = Visits(today: int, total: int, lastVisit: Option<int>)

  /** A file handed to an upload control. `previewUrl` stands for the object
      or data URL the browser makes for it. */
  datatype UploadFile = UploadFile(name: string, mimeType: string, size: int, previewUrl: string)

  /** The contents of the store at one moment, so that a contract can say
      which keys an operation rewrote and that all others kept their values. */
  datatype StoreState = StoreState(
    mediaItems: Option<seq<MediaItem>>,
    adBanners: Option<seq<AdBannerItem>>,
    admins: Option<seq<AdminUser>>,
    auth: Option<AuthRecord>,
    visits: Option<Visits>,
    frontendPassword: Option<string>,
    adminPassword: Option<string>)

  /** The browser's local storage, one field per key the application uses. */
  class Store {
    var mediaItems: Option<seq<MediaItem>>
    var adBanners: Option<seq<AdBannerItem>>
    var admins: Option<seq<AdminUser>>
    var auth: Option<AuthRecord>
    var visits: Option<Visits>
    var frontendPassword: Option<string>
    var adminPassword: Option<string>

    function State(): StoreState
      reads this
    {
      StoreState(mediaItems, adBanners, admins, auth, visits, frontendPassword, adminPassword)
    }

    /** A browser profile that has never run the application. */
    constructor ()
      ensures mediaItems.None? && adBanners.None? && admins.None? && auth.None?
      ensures visits.None? && frontendPassword.None? && adminPassword.None?
    {
      mediaItems, adBanners, admins, auth := None, None, None, None;
      visits, frontendPassword, adminPassword := None, None, None;
    }
  }
}
