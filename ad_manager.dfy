/** The ad banner list (src/components/AdminAdManager.tsx): the list kept in
    the `adBanners` key, shown sorted by `order`, with add, edit and delete,
    and the checks a banner image must pass. */
module Ads {
  import opened Model
  import opened Strings
  import opened Seqs
  import opened Sorting

  /** The add form: `order` 0 means "not given"; `imageUrl` is set by an
      accepted image. */
  datatype NewAdForm = NewAdForm(text: string, imageUrl: Option<string>, link: string, order: int)

  /** The edit form: each field may be left undefined. */
  datatype EditAdForm = EditAdForm(text: Option<string>, link: Option<string>, order: Option<int>, imageUrl: Option<string>)

  /** The form `handleAddAd` resets to after an add. */
  const BlankAdForm: NewAdForm := NewAdForm("", None, "#", 0)

  function ByOrder(): AdBannerItem -> int { (a: AdBannerItem) => a.order }

  /** The list the manager shows for stored ads: `ads.sort((a, b) => a.order - b.order)`. */
  function Loaded(ads: seq<AdBannerItem>): seq<AdBannerItem> {
    SortByKey(ads, ByOrder())
  }

  /** The shown list holds exactly the stored ads, ascending by order, and
      ads with equal order keep their stored order. */
  lemma {:induction false} LoadedSpec(ads: seq<AdBannerItem>, k: int)
    ensures multiset(Loaded(ads)) == multiset(ads)
    ensures forall i, j :: 0 <= i < j < |Loaded(ads)| ==> Loaded(ads)[i].order <= Loaded(ads)[j].order
    ensures Filter(Loaded(ads), KeyIs(ByOrder(), k)) == Filter(ads, KeyIs(ByOrder(), k))
  {
    SortByKeyPermutation(ads, ByOrder());
    SortByKeySorted(ads, ByOrder());
    SortByKeyStable(ads, ByOrder(), k);
  }

  function NewAdId(now: nat): string {
    "ad-" + NatToString(now)
  }

  /** `handleAddAd`: refused without text or image; otherwise one ad is
      appended, its order the given one or one past the list's length, its
      link the given one or `#`. */
  function AddAd(ads: seq<AdBannerItem>, form: NewAdForm, id: string): (r: Result<seq<AdBannerItem>>)
    ensures r.Err? <==> form.text == "" || !Truthy(form.imageUrl)
    ensures r.Err? ==> r.reason == MissingAdFields
    ensures r.Ok? ==> |r.value| == |ads| + 1 && r.value[..|ads|] == ads
    ensures r.Ok? ==> var ad := r.value[|ads|];
      ad.id == id && ad.text == form.text && ad.imageUrl == form.imageUrl.value
      && (form.order != 0 ==> ad.order == form.order)
      && (form.order == 0 ==> ad.order == |ads| + 1)
      && (form.link != "" ==> ad.link == form.link)
      && (form.link == "" ==> ad.link == "#")
  {
    if form.text == "" || !Truthy(form.imageUrl) then Err(MissingAdFields)
    else
      var order := if form.order != 0 then form.order else |ads| + 1;
      var link := if form.link != "" then form.link else "#";
      Ok(ads + [AdBannerItem(id, form.imageUrl.value, form.text, link, order)])
  }

  /** The field update of `handleEditAd` for one ad. */
  function EditEntry(ad: AdBannerItem, id: string, edit: EditAdForm): AdBannerItem {
    if ad.id != id then ad
    else ad.(text := if Truthy(edit.text) then edit.text.value else ad.text,
             link := if Truthy(edit.link) then edit.link.value else ad.link,
             order := if edit.order.Some? then edit.order.value else ad.order,
             imageUrl := if Truthy(edit.imageUrl) then edit.imageUrl.value else ad.imageUrl)
  }

  function EditAll(ads: seq<AdBannerItem>, id: string, edit: EditAdForm): (r: seq<AdBannerItem>)
    ensures |r| == |ads|
    ensures forall i :: 0 <= i < |ads| ==> r[i] == EditEntry(ads[i], id, edit)
  {
    if ads == [] then []
    else EditAll(ads[..|ads| - 1], id, edit) + [EditEntry(ads[|ads| - 1], id, edit)]
  }

  /** `handleEditAd`: refused without a selected ad or text; otherwise the ads
      with the selected id take the new text, and the new link, image and
      order where given. */
  function EditAd(ads: seq<AdBannerItem>, editId: Option<string>, edit: EditAdForm): (r: Result<seq<AdBannerItem>>)
    ensures r.Err? <==> !Truthy(editId) || !Truthy(edit.text)
    ensures r.Err? ==> r.reason == MissingAdText
    ensures r.Ok? ==> |r.value| == |ads|
  {
    if !Truthy(editId) || !Truthy(edit.text) then Err(MissingAdText)
    else Ok(EditAll(ads, editId.value, edit))
  }

  /** An edit leaves every other ad as it was and keeps each edited ad's id;
      an empty link or image keeps the old one, a given order always replaces it. */
  lemma {:induction false} EditAdSpec(ads: seq<AdBannerItem>, editId: Option<string>, edit: EditAdForm)
    requires EditAd(ads, editId, edit).Ok?
    ensures var r := EditAd(ads, editId, edit).value;
      forall i :: 0 <= i < |ads| ==>
        r[i].id == ads[i].id
        && (ads[i].id != editId.value ==> r[i] == ads[i])
        && (ads[i].id == editId.value ==>
              r[i].text == edit.text.value
              && r[i].link == (if Truthy(edit.link) then edit.link.value else ads[i].link)
              && r[i].imageUrl == (if Truthy(edit.imageUrl) then edit.imageUrl.value else ads[i].imageUrl)
              && r[i].order == (if edit.order.Some? then edit.order.value else ads[i].order))
  {
  }

  function OtherAd(id: string): AdBannerItem -> bool { (a: AdBannerItem) => a.id != id }

  /** `handleDeleteAd`: when confirmed, every ad with the id goes and the
      others stay in their order. */
  function DeleteAd(ads: seq<AdBannerItem>, id: string, confirmed: bool): (r: Result<seq<AdBannerItem>>)
    ensures r.Err? <==> !confirmed
    ensures r.Err? ==> r.reason == Cancelled
    ensures r.Ok? ==> forall x :: x in r.value <==> x in ads && x.id != id
    ensures r.Ok? ==> IsSubsequence(r.value, ads)
  {
    if !confirmed then Err(Cancelled)
    else
      FilterIsSubsequence(ads, OtherAd(id));
      assert forall x :: x in Filter(ads, OtherAd(id)) <==> x in ads && x.id != id by {
        forall x { FilterMember(ads, OtherAd(id), x); }
      }
      Ok(Filter(ads, OtherAd(id)))
  }

  const MaxImageSize: int := 5 * 1024 * 1024

  /** The checks of `handleImageUpload`: a file must be chosen, be an image,
      and be at most 5 MiB; an accepted file yields its data URL. */
  function AcceptImage(file: Option<UploadFile>): (r: Result<string>)
    ensures r.Ok? <==> file.Some? && StartsWith(file.value.mimeType, "image/") && file.value.size <= 5242880
    ensures r.Ok? ==> r.value == file.value.previewUrl
    ensures r.Err? ==> r.reason == (if file.None? then NoFile
                                    else if !StartsWith(file.value.mimeType, "image/") then NotAnImage
                                    else ImageTooLarge)
  {
    if file.None? then Err(NoFile)
    else if !StartsWith(file.value.mimeType, "image/") then Err(NotAnImage)
    else if file.value.size > MaxImageSize then Err(ImageTooLarge)
    else Ok(file.value.previewUrl)
  }

  /** The manager's state: its sorted copy of the ad list and the store. */
  class AdManager {
    var adItems: seq<AdBannerItem>
    const store: Store

    /** Mounting runs `loadAdData`. */
    constructor (s: Store)
      ensures store == s
      ensures adItems == if s.adBanners.Some? then Loaded(s.adBanners.value) else []
    {
      store := s;
      adItems := [];
      new;
      LoadAdData();
    }

    /** `loadAdData`: the stored list, sorted in place by order. */
    method LoadAdData()
      modifies this
      ensures adItems == if store.adBanners.Some? then Loaded(store.adBanners.value) else old(adItems)
    {
      var saved := store.adBanners;
      if saved.Some? {
        var ads := saved.value;
        var a := new AdBannerItem[|ads|](i requires 0 <= i < |ads| => ads[i]);
        assert a[..] == ads;
        SortInPlace(a, ByOrder());
        adItems := a[..];
      }
    }

    /** `saveAdData`: writes the key, then reloads it. */
    method Save(ads: seq<AdBannerItem>)
      modifies this, store
      ensures adItems == Loaded(ads)
      ensures store.State() == old(store.State()).(adBanners := Some(ads))
    {
      store.adBanners := Some(ads);
      LoadAdData();
    }

    method HandleAddAd(form: NewAdForm, now: nat) returns (o: Outcome)
      modifies this, store
      ensures var r := AddAd(old(adItems), form, NewAdId(now));
        if r.Err? then o == Rejected(r.reason) && adItems == old(adItems) && store.State() == old(store.State())
        else o == Done && adItems == Loaded(r.value) && store.State() == old(store.State()).(adBanners := Some(r.value))
    {
      if form.text == "" || !Truthy(form.imageUrl) {
        return Rejected(MissingAdFields);
      }
      var order := if form.order != 0 then form.order else |adItems| + 1;
      var ad := AdBannerItem(NewAdId(now), form.imageUrl.value, form.text, if form.link != "" then form.link else "#", order);
      Save(adItems + [ad]);
      o := Done;
    }

    method HandleEditAd(editId: Option<string>, edit: EditAdForm) returns (o: Outcome)
      modifies this, store
      ensures var r := EditAd(old(adItems), editId, edit);
        if r.Err? then o == Rejected(r.reason) && adItems == old(adItems) && store.State() == old(store.State())
        else o == Done && adItems == Loaded(r.value) && store.State() == old(store.State()).(adBanners := Some(r.value))
    {
      if !Truthy(editId) || !Truthy(edit.text) {
        return Rejected(MissingAdText);
      }
      Save(EditAll(adItems, editId.value, edit));
      o := Done;
    }

    method HandleDeleteAd(id: string, confirmed: bool) returns (o: Outcome)
      modifies this, store
      ensures var r := DeleteAd(old(adItems), id, confirmed);
        if r.Err? then o == Rejected(r.reason) && adItems == old(adItems) && store.State() == old(store.State())
        else o == Done && adItems == Loaded(r.value) && store.State() == old(store.State()).(adBanners := Some(r.value))
    {
      if !confirmed {
        return Rejected(Cancelled);
      }
      Save(Filter(adItems, OtherAd(id)));
      o := Done;
    }
  }
}
