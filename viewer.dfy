/** The full-screen viewer (src/pages/MediaViewer.tsx): finding the requested
    item, stepping to its neighbours, the keyboard, and the play state. */
module Viewer {
  import opened Model
  import opened Auth

  /** `items.indexOf(items.find(m => m.id === id))`: the position of the first
      item with the id, or `None` when there is none. */
  function FirstIndex(items: seq<MediaItem>, id: string): (r: Option<nat>)
    ensures r.Some? ==> r.value < |items| && items[r.value].id == id
                        && forall j :: 0 <= j < r.value ==> items[j].id != id
    ensures r.None? <==> forall j :: 0 <= j < |items| ==> items[j].id != id
  {
    if items == [] then None
    else if items[0].id == id then Some(0)
    else
      var r := FirstIndex(items[1..], id);
      if r.Some? then Some(r.value + 1) else None
  }

  predicate UniqueIds(items: seq<MediaItem>) {
    forall i, j :: 0 <= i < j < |items| ==> items[i].id != items[j].id
  }

  /** Looking up the id of the item at `k` finds a position no later than
      `k`, and exactly `k` when ids are unique. */
  lemma {:induction false} FirstIndexOfMember(items: seq<MediaItem>, k: nat)
    requires k < |items|
    ensures FirstIndex(items, items[k].id).Some? && FirstIndex(items, items[k].id).value <= k
    ensures UniqueIds(items) ==> FirstIndex(items, items[k].id) == Some(k)
  {
  }

  /** Where `handleNext` goes: the following item, unless this is the last. */
  function NextTarget(items: seq<MediaItem>, i: nat): Option<string>
    requires i == 0 || i < |items|
  {
    if i < |items| - 1 then Some(items[i + 1].id) else None
  }

  /** Where `handlePrevious` goes: the preceding item, unless this is the first. */
  function PrevTarget(items: seq<MediaItem>, i: nat): Option<string>
    requires i == 0 || i < |items|
  {
    if i > 0 then Some(items[i - 1].id) else None
  }

  /** Stepping is bounded by the ends of the list, and with unique ids a step
      forward then back (or back then forward) returns to the item shown. */
  lemma {:induction false} StepRoundTrip(items: seq<MediaItem>, i: nat)
    requires i < |items| && UniqueIds(items)
    ensures NextTarget(items, i).None? <==> i == |items| - 1
    ensures PrevTarget(items, i).None? <==> i == 0
    ensures NextTarget(items, i).Some? ==>
      FirstIndex(items, NextTarget(items, i).value) == Some(i + 1) && PrevTarget(items, i + 1) == Some(items[i].id)
    ensures PrevTarget(items, i).Some? ==>
      FirstIndex(items, PrevTarget(items, i).value) == Some(i - 1) && NextTarget(items, i - 1) == Some(items[i].id)
  {
    if i < |items| - 1 {
      assert FirstIndex(items, items[i + 1].id) == Some(i + 1) by {
        FirstIndexOfMember(items, i + 1);
      }
    }
    if i > 0 {
      assert FirstIndex(items, items[i - 1].id) == Some(i - 1) by {
        FirstIndexOfMember(items, i - 1);
      }
    }
  }

  datatype Key = ArrowRight | ArrowLeft | Escape | Space | OtherKey

  /** The viewer's state. */
  class MediaView {
    var mediaItem: Option<MediaItem>
    var currentIndex: nat
    var allMedia: seq<MediaItem>
    var isLoading: bool
    var isPlaying: bool
    var videoProgress: int
    /** The play state the keydown listener closed over when the keyboard
        effect last registered it. The effect re-registers when the index,
        the list or the item change, and not when `isPlaying` does. */
    var listenerPlaying: bool
    const session: Session

    /** The index points into the list, or the list is still empty. */
    predicate Valid()
      reads this
    {
      currentIndex == 0 || currentIndex < |allMedia|
    }

    constructor (s: Session)
      ensures session == s && mediaItem.None? && currentIndex == 0 && allMedia == []
      ensures isLoading && !isPlaying && videoProgress == 0 && !listenerPlaying
      ensures Valid()
    {
      session := s;
      mediaItem, currentIndex, allMedia := None, 0, [];
      isLoading, isPlaying, videoProgress := true, false, 0;
      listenerPlaying := false;
    }

    /** The load effect for route id `id`. A visitor who is not signed in is
        sent to the gate first. A stored catalog is read and the item looked
        up; an unknown id sends the visitor home. Reading the catalog sets a
        freshly parsed list, so the keyboard effect registers a new listener,
        which captures the current play state. */
    method Load(id: string) returns (o: Outcome)
      requires Valid()
      modifies this
      ensures !session.isAuthenticated ==> o == Navigate(Gate) && unchanged(this)
      ensures session.isAuthenticated && session.store.mediaItems.None? ==>
        o == Done && !isLoading && allMedia == old(allMedia) && mediaItem == old(mediaItem)
        && currentIndex == old(currentIndex) && listenerPlaying == old(listenerPlaying) && Valid()
      ensures session.isAuthenticated && session.store.mediaItems.Some? ==>
        var items := session.store.mediaItems.value;
        allMedia == items && !isLoading && listenerPlaying == isPlaying
        && (FirstIndex(items, id).None? ==> o == Navigate(Home) && mediaItem == old(mediaItem))
        && (FirstIndex(items, id).Some? ==>
              o == Done && currentIndex == FirstIndex(items, id).value
              && mediaItem == Some(items[currentIndex]) && mediaItem.value.id == id && Valid())
      ensures isPlaying == old(isPlaying) && videoProgress == old(videoProgress)
    {
      if !session.isAuthenticated {
        return Navigate(Gate);
      }
      o := Done;
      var saved := session.store.mediaItems;
      if saved.Some? {
        var items := saved.value;
        allMedia := items;
        listenerPlaying := isPlaying;
        var k := FirstIndex(items, id);
        if k.Some? {
          mediaItem := Some(items[k.value]);
          currentIndex := k.value;
        } else {
          o := Navigate(Home);
        }
      }
      isLoading := false;
    }

    /** `handleNext`: go to the following item unless this is the last one. */
    method HandleNext() returns (o: Outcome)
      requires Valid()
      ensures o == if currentIndex < |allMedia| - 1 then Navigate(View(allMedia[currentIndex + 1].id)) else Done
      ensures NextTarget(allMedia, currentIndex).Some? ==> o == Navigate(View(NextTarget(allMedia, currentIndex).value))
    {
      if currentIndex < |allMedia| - 1 {
        var nextItem := allMedia[currentIndex + 1];
        o := Navigate(View(nextItem.id));
      } else {
        o := Done;
      }
    }

    /** `handlePrevious`: go to the preceding item unless this is the first one. */
    method HandlePrevious() returns (o: Outcome)
      requires Valid()
      ensures o == if currentIndex > 0 then Navigate(View(allMedia[currentIndex - 1].id)) else Done
      ensures PrevTarget(allMedia, currentIndex).Some? ==> o == Navigate(View(PrevTarget(allMedia, currentIndex).value))
    {
      if currentIndex > 0 {
        var prevItem := allMedia[currentIndex - 1];
        o := Navigate(View(prevItem.id));
      } else {
        o := Done;
      }
    }

    /** `handleVideoPlayPause`: the video element exists exactly when the item
        shown is a video, and then the play state flips. */
    method HandlePlayPause()
      modifies this
      ensures mediaItem.Some? && mediaItem.value.kind == Video ==> isPlaying == !old(isPlaying)
      ensures !(mediaItem.Some? && mediaItem.value.kind == Video) ==> isPlaying == old(isPlaying)
      ensures mediaItem == old(mediaItem) && currentIndex == old(currentIndex) && allMedia == old(allMedia)
      ensures isLoading == old(isLoading) && videoProgress == old(videoProgress)
      ensures listenerPlaying == old(listenerPlaying)
    {
      if mediaItem.Some? && mediaItem.value.kind == Video {
        isPlaying := !isPlaying;
      }
    }

    /** `handleVideoEnded`: playback stops and the bar returns to the start. */
    method HandleVideoEnded()
      modifies this
      ensures !isPlaying && videoProgress == 0
      ensures mediaItem == old(mediaItem) && currentIndex == old(currentIndex) && allMedia == old(allMedia)
      ensures isLoading == old(isLoading) && listenerPlaying == old(listenerPlaying)
    {
      isPlaying := false;
      videoProgress := 0;
    }

    /** The keydown listener: arrows step, Escape goes home, and the space bar
        acts on a video (on nothing else). The listener's play/pause reads the
        play state it captured, so Space sets playback to the opposite of
        `listenerPlaying`, whatever the current state is. */
    method HandleKeyDown(key: Key) returns (o: Outcome)
      requires Valid()
      modifies this
      ensures mediaItem == old(mediaItem) && currentIndex == old(currentIndex) && allMedia == old(allMedia)
      ensures isLoading == old(isLoading) && videoProgress == old(videoProgress)
      ensures listenerPlaying == old(listenerPlaying)
      ensures key == ArrowRight ==> o == (if currentIndex < |allMedia| - 1 then Navigate(View(allMedia[currentIndex + 1].id)) else Done)
      ensures key == ArrowLeft ==> o == (if currentIndex > 0 then Navigate(View(allMedia[currentIndex - 1].id)) else Done)
      ensures key == Escape ==> o == Navigate(Home)
      ensures key == Space && mediaItem.Some? && mediaItem.value.kind == Video ==> isPlaying == !listenerPlaying
      ensures !(key == Space && mediaItem.Some? && mediaItem.value.kind == Video) ==> isPlaying == old(isPlaying)
      ensures key in {Space, OtherKey} ==> o == Done
    {
      o := Done;
      if key == ArrowRight {
        o := HandleNext();
      } else if key == ArrowLeft {
        o := HandlePrevious();
      } else if key == Escape {
        o := Navigate(Home);
      } else if key == Space {
        if mediaItem.Some? && mediaItem.value.kind == Video {
          isPlaying := !listenerPlaying;
        }
      }
    }
  }

  /** A fresh viewer opened on a video: pressing Space twice leaves it
      playing, because both presses reach the listener registered when the
      video was loaded, which still sees it paused. */
  method SpaceTwiceOnVideo(s: Session, id: string) returns (v: MediaView)
    requires s.isAuthenticated && s.store.mediaItems.Some?
    requires FirstIndex(s.store.mediaItems.value, id).Some?
    requires s.store.mediaItems.value[FirstIndex(s.store.mediaItems.value, id).value].kind == Video
    ensures v.mediaItem.Some? && v.mediaItem.value.id == id && v.mediaItem.value.kind == Video
    ensures v.isPlaying
  {
    v := new MediaView(s);
    var o := v.Load(id);
    o := v.HandleKeyDown(Space);
    o := v.HandleKeyDown(Space);
  }
}
