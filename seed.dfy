/** First-run seeding (src/main.tsx): before the application renders, a
    store without a catalog gets a visit record, three ads and one
    superadmin account. */
module Seed {
  import opened Model
  import opened Users
  import opened Ads

  /** The three ads written by seeding, with orders 1, 2, 3 and link `#`. */
  const SeedAds: seq<AdBannerItem> := [
      AdBannerItem("1",
        "https://space.coze.cn/api/coze_space/gen_image?image_size=landscape_16_9&prompt=%E5%AE%B6%E5%BA%AD%E7%9B%B8%E5%86%8C%E6%B4%BB%E5%8A%A8%20%E7%85%A7%E7%89%87%20%E6%B8%A9%E9%A6%A8%20%E7%B2%89%E8%89%B2%E7%B3%BB&sign=9a31c8ee5012c92051e57074c3adf532",
        "家庭照片征集活动开始啦！", "#", 1),
      AdBannerItem("2",
        "https://space.coze.cn/api/coze_space/gen_image?image_size=landscape_16_9&prompt=%E5%AE%B6%E5%BA%AD%E6%B4%BB%E5%8A%A8%20%E4%BA%B2%E5%AD%90%20%E7%B2%89%E8%89%B2%20%E6%B8%A9%E9%A6%A8&sign=a6cc85298902f3ed50585e6496f6d045",
        "记录美好瞬间，留住家庭回忆", "#", 2),
      AdBannerItem("3",
        "https://space.coze.cn/api/coze_space/gen_image?image_size=landscape_16_9&prompt=%E7%85%A7%E7%89%87%E4%B9%A6%20%E5%AE%9A%E5%88%B6%20%E5%AE%B6%E5%BA%AD%E7%9B%B8%E5%86%8C%20%E7%B2%89%E8%89%B2&sign=44ab8e27cb69be5ee39e91d452b25a1e",
        "记录美好生活，珍藏珍贵回忆", "#", 3)
    ]

  /** The one account written by seeding. */
  const SeedAdmins: seq<AdminUser> := [AdminUser("1", "admin", Superadmin)]

  /** The seeded account table satisfies every account invariant. */
  lemma {:induction false} SeedAdminsValid()
    ensures ValidAccounts(SeedAdmins)
    ensures SeedAdmins[0].username == "admin" && SeedAdmins[0].role == Superadmin
  {
    assert SeedAdmins[0].role == Superadmin;
  }

  /** The seeded ads are already in order, so the ad manager shows them as
      stored. */
  lemma {:induction false} SeedAdsLoadedAsStored()
    ensures Loaded(SeedAds) == SeedAds
  {
    Sorting.SortByKeySorted(SeedAds, ByOrder());
    var s := SeedAds;
    assert s[..1][..0] == [];
    assert s[..2][..1] == s[..1];
    assert s[..3][..2] == s[..2];
    assert s[..3] == s;
    assert Loaded(s[..1]) == s[..1];
    assert Loaded(s[..2]) == s[..2];
  }

  /** `initializeMockData`: only a store without a `mediaItems` key is seeded;
      seeding overwrites `visits`, `adBanners` and `admins` and never writes
      `mediaItems`, so it happens again on the next start. */
  method InitializeMockData(store: Store, now: int)
    modifies store
    ensures old(store.mediaItems).None? ==>
      store.State() == old(store.State()).(visits := Some(Visits(0, 0, Some(now))),
                                           adBanners := Some(SeedAds), admins := Some(SeedAdmins))
    ensures old(store.mediaItems).Some? ==> store.State() == old(store.State())
  {
    if store.mediaItems.None? {
      store.visits := Some(Visits(0, 0, Some(now)));
      store.adBanners := Some(SeedAds);
      store.admins := Some(SeedAdmins);
    }
  }
}
