/**
 * The album page's selection bookkeeping (`state.selectedImages`,
 * `state.imageMap` and the `.photo-container` elements with their
 * `selected` class), the thumbnail preloader and the file naming of the
 * zip download.
 */
module Gallery {
  import opened Wrappers
  import opened Text
  import opened ApiData
  import opened Batching
  import FetchCache

  const ThumbnailBaseUrl: string := "https://drive.google.com/thumbnail?id="

  /**
   * The `src` an image gets while its thumbnail is not yet loaded. It is split
   * after its first character only so that `PlaceholderHasNoId` can show that
   * this leading `d` is the only one.
   */
  const Placeholder: string := "d" + PlaceholderRest
  const PlaceholderRest: string :=
    "ata:image/svg+xml," + "%3Csvg xmlns=" + "'http://www.w3.org/2000/svg'" + " viewBox='0 0 1 1'" + "%3E%3C/svg%3E"

  function ThumbnailUrl(id: string): string {
    ThumbnailBaseUrl + id
  }

  /** Batch size of `preloadImages` and the wait between its batches, in milliseconds. */
  const PreloadBatchSize: nat := 5
  const PreloadDelayMs: nat := 100

  /** Batch size of `downloadSelectedImages` and the pause between its batches, in milliseconds. */
  const DownloadBatchSize: nat := 3
  const DownloadPauseMs: nat := 300

  /** One `.photo-container`: the image it shows, its `img.src` and whether it has the class `selected`. */
  datatype Container = Container(imageId: string, src: string, selected: bool)

  // ---------------------------------------------------------------------------
  // The id in an image URL: `url.match(/id=([^&]+)/)`

  /** The longest prefix of `s` without `&`: what `[^&]+` captures. */
  function TakeId(s: string): (r: string)
    ensures |r| <= |s| && r == s[..|r|] && '&' !in r
    ensures |r| == |s| || s[|r|] == '&'
  {
    if s == [] || s[0] == '&' then [] else
      var t := TakeId(s[1..]);
      assert s[..|t| + 1] == [s[0]] + s[1..][..|t|];
      [s[0]] + t
  }

  /** A match of `id=([^&]+)` can start at position `k`: `id=` followed by a character other than `&`. */
  predicate IdAt(url: string, k: nat) {
    k + 3 < |url| && url[k..k + 3] == "id=" && url[k + 3] != '&'
  }

  /**
   * The leftmost match of `id=([^&]+)` starting at or after position `i`: the
   * longest run without `&` after the first `id=` that can start a match.
   */
  function ExtractIdFrom(url: string, i: nat): (r: Option<string>)
    ensures r.Some? ==> r.value != [] && '&' !in r.value
    decreases |url| - i
  {
    if i + 3 >= |url| then None
    else if url[i..i + 3] == "id=" && url[i + 3] != '&' then Some(TakeId(url[i + 3..]))
    else ExtractIdFrom(url, i + 1)
  }

  /**
   * The search finds nothing exactly when no position from `i` on starts a
   * match; otherwise it captures after the leftmost such position.
   */
  lemma {:induction false} ExtractIdFromSpec(url: string, i: nat)
    ensures ExtractIdFrom(url, i).None? <==> forall k :: i <= k ==> !IdAt(url, k)
    ensures ExtractIdFrom(url, i).Some? ==>
      exists k :: i <= k && IdAt(url, k) && (forall j :: i <= j < k ==> !IdAt(url, j))
        && ExtractIdFrom(url, i).value == TakeId(url[k + 3..])
    decreases |url| - i
  {
    if i + 3 >= |url| {
    } else if IdAt(url, i) {
      assert ExtractIdFrom(url, i).value == TakeId(url[i + 3..]);
    } else {
      ExtractIdFromSpec(url, i + 1);
      assert forall j :: i <= j < i + 1 ==> !IdAt(url, j);
    }
  }

  /** The captured group of `url.match(/id=([^&]+)/)`, or `None` when it does not match. */
  function ExtractId(url: string): Option<string> {
    ExtractIdFrom(url, 0)
  }

  /** Positions that cannot start `id=` are skipped by the leftmost search. */
  lemma {:induction false} SkipNoMatch(url: string, i: nat, j: nat)
    requires i <= j && j + 1 < |url|
    requires forall k :: i <= k < j ==> !(url[k] == 'i' && url[k + 1] == 'd')
    ensures ExtractIdFrom(url, i) == ExtractIdFrom(url, j)
    decreases j - i
  {
    if i < j {
      assert url[i..i + 3] != "id=" by {
        assert !(url[i] == 'i' && url[i + 1] == 'd');
      }
      SkipNoMatch(url, i + 1, j);
    }
  }

  lemma TakeIdAll(s: string)
    requires '&' !in s
    ensures TakeId(s) == s
  {
  }

  /** A thumbnail URL gives back the id it was built from. */
  lemma ThumbnailUrlRoundTrip(id: string)
    requires id != [] && '&' !in id
    ensures ExtractId(ThumbnailUrl(id)) == Some(id)
  {
    var url := ThumbnailUrl(id);
    assert forall k :: 0 <= k < 35 ==> url[k] == ThumbnailBaseUrl[k];
    SkipNoMatch(url, 0, 35);
    assert url[35..38] == "id=";
    assert url[38..] == id;
    TakeIdAll(id);
  }

  /** Without a `d` after its first character, a URL has no match at all. */
  lemma {:induction false} NoMatchWithoutD(url: string, i: nat)
    requires url != [] && 'd' !in url[1..]
    ensures ExtractIdFrom(url, i) == None
    decreases |url| - i
  {
    if i + 3 < |url| {
      assert url[i + 1] == url[1..][i];
      assert url[i..i + 3] != "id=" by { assert url[i..i + 3][1] == url[i + 1]; }
      NoMatchWithoutD(url, i + 1);
    }
  }

  /** The placeholder carries no id. */
  lemma PlaceholderHasNoId()
    ensures ExtractId(Placeholder) == None
  {
    assert 'd' !in PlaceholderRest by {
      assert 'd' !in "ata:image/svg+xml,";
      assert 'd' !in "%3Csvg xmlns=";
      assert 'd' !in "'http://www.w3.org/2000/svg'";
      assert 'd' !in " viewBox='0 0 1 1'";
      assert 'd' !in "%3E%3C/svg%3E";
    }
    assert Placeholder[1..] == PlaceholderRest;
    NoMatchWithoutD(Placeholder, 0);
  }

  // ---------------------------------------------------------------------------
  // `imageMap` and the removal of a deselected id

  /** `imageMap` after `imageMap[image.id] = image.name` for each image in order. */
  function NameMap(images: seq<Image>): map<string, string> {
    if images == [] then map[]
    else NameMap(images[..|images| - 1])[images[|images| - 1].id := images[|images| - 1].name]
  }

  /** The keys are exactly the ids shown, and each maps to the name of its last occurrence. */
  lemma NameMapSpec(images: seq<Image>)
    ensures forall id :: id in NameMap(images) <==> exists k :: 0 <= k < |images| && images[k].id == id
    ensures forall k :: 0 <= k < |images| && (forall l :: k < l < |images| ==> images[l].id != images[k].id) ==>
      NameMap(images)[images[k].id] == images[k].name
  {
    forall id ensures id in NameMap(images) <==> exists k :: 0 <= k < |images| && images[k].id == id {
      NameMapKeys(images, id);
    }
    forall k | 0 <= k < |images| && (forall l :: k < l < |images| ==> images[l].id != images[k].id)
      ensures NameMap(images)[images[k].id] == images[k].name
    {
      NameMapLast(images, k);
    }
  }

  lemma {:induction false} NameMapKeys(images: seq<Image>, id: string)
    ensures id in NameMap(images) <==> exists k :: 0 <= k < |images| && images[k].id == id
  {
    if images != [] {
      var init := images[..|images| - 1];
      NameMapKeys(init, id);
      if id in NameMap(images) && id != images[|images| - 1].id {
        var k :| 0 <= k < |init| && init[k].id == id;
        assert images[k].id == id;
      }
      if exists k :: 0 <= k < |images| && images[k].id == id {
        var k :| 0 <= k < |images| && images[k].id == id;
        if k < |init| { assert init[k].id == id; }
      }
    }
  }

  lemma {:induction false} NameMapLast(images: seq<Image>, k: nat)
    requires k < |images|
    requires forall l :: k < l < |images| ==> images[l].id != images[k].id
    ensures images[k].id in NameMap(images) && NameMap(images)[images[k].id] == images[k].name
  {
    var n := |images| - 1;
    if k < n {
      var init := images[..n];
      assert init[k] == images[k];
      assert forall l :: k < l < |init| ==> init[l].id != init[k].id by {
        forall l | k < l < |init| ensures init[l].id != init[k].id { assert init[l] == images[l]; }
      }
      NameMapLast(init, k);
      assert images[n].id != images[k].id;
    }
  }

  /** `list.filter(x => x !== id)`. */
  function RemoveAll(s: seq<string>, id: string): (r: seq<string>)
    ensures id !in r
    ensures forall x :: x in r <==> x in s && x != id
  {
    if s == [] then [] else (if s[0] == id then [] else [s[0]]) + RemoveAll(s[1..], id)
  }

  /** The filter keeps the order of the ids it keeps: it distributes over concatenation. */
  lemma {:induction false} RemoveAllAppend(a: seq<string>, b: seq<string>, id: string)
    ensures RemoveAll(a + b, id) == RemoveAll(a, id) + RemoveAll(b, id)
  {
    if a == [] {
      assert a + b == b;
    } else {
      assert (a + b)[1..] == a[1..] + b;
      RemoveAllAppend(a[1..], b, id);
    }
  }

  /** Removing one id keeps every other id as often as before. */
  lemma {:induction false} RemoveAllKeepsOthers(s: seq<string>, id: string, x: string)
    requires x != id
    ensures multiset(RemoveAll(s, id))[x] == multiset(s)[x]
  {
    if s != [] {
      RemoveAllKeepsOthers(s[1..], id, x);
      assert s == [s[0]] + s[1..];
    }
  }

  // ---------------------------------------------------------------------------
  // Select-all

  /** The ids the select-all handler pushes: one per unselected container whose `src` carries one. */
  function NewlySelected(cs: seq<Container>): seq<string> {
    if cs == [] then []
    else
      var c := cs[|cs| - 1];
      NewlySelected(cs[..|cs| - 1]) + (if !c.selected && ExtractId(c.src).Some? then [ExtractId(c.src).value] else [])
  }

  /** The ids of the containers with loaded thumbnails, in order, whether selected before or not. */
  function ShownIds(cs: seq<Container>): seq<string> {
    if cs == [] then []
    else
      var c := cs[|cs| - 1];
      ShownIds(cs[..|cs| - 1]) + (if ExtractId(c.src).Some? then [ExtractId(c.src).value] else [])
  }

  /** A container whose thumbnail has loaded shows its own image's URL. */
  predicate Loaded(c: Container) {
    c.src == ThumbnailUrl(c.imageId) && c.imageId != [] && '&' !in c.imageId
  }

  /** An id is pushed by select-all exactly when it comes from a container that was not selected. */
  lemma {:induction false} NewlySelectedSpec(cs: seq<Container>, id: string)
    ensures id in NewlySelected(cs) <==>
      exists k :: 0 <= k < |cs| && !cs[k].selected && ExtractId(cs[k].src) == Some(id)
  {
    if cs != [] {
      var init := cs[..|cs| - 1];
      NewlySelectedSpec(init, id);
      if exists k :: 0 <= k < |cs| && !cs[k].selected && ExtractId(cs[k].src) == Some(id) {
        var k :| 0 <= k < |cs| && !cs[k].selected && ExtractId(cs[k].src) == Some(id);
        if k < |init| { assert init[k] == cs[k]; }
      }
    }
  }

  /** When every thumbnail has loaded, the intended select-all lists every image once, in order. */
  lemma {:induction false} ShownIdsLoaded(cs: seq<Container>)
    requires forall k :: 0 <= k < |cs| ==> Loaded(cs[k])
    ensures |ShownIds(cs)| == |cs|
    ensures forall k :: 0 <= k < |cs| ==> ShownIds(cs)[k] == cs[k].imageId
  {
    if cs != [] {
      var init := cs[..|cs| - 1];
      ShownIdsLoaded(init);
      ThumbnailUrlRoundTrip(cs[|cs| - 1].imageId);
    }
  }

  /** Select-all as written loses the id of a container that was already selected. */
  lemma SelectAllDropsSelected()
    ensures var cs := [Container("a", ThumbnailUrl("a"), true), Container("b", ThumbnailUrl("b"), false)];
      NewlySelected(cs) == ["b"] && ShownIds(cs) == ["a", "b"]
  {
    var cs := [Container("a", ThumbnailUrl("a"), true), Container("b", ThumbnailUrl("b"), false)];
    ThumbnailUrlRoundTrip("a");
    ThumbnailUrlRoundTrip("b");
    assert cs[..1] == [cs[0]];
    assert [cs[0]][..0] == [];
  }

  // ---------------------------------------------------------------------------
  // The page state

  /** A snapshot of the page state that `refreshAlbum` reads and writes. */
  datatype PageView = PageView(selectedImages: seq<string>, imageMap: map<string, string>,
                               isProcessing: bool, isAlbumDeleted: bool, containers: seq<Container>)

  /** The module-level `state` object together with the gallery's containers. */
  class AppState {
    var selectedImages: seq<string>
    var imageMap: map<string, string>
    var isProcessing: bool
    var isLoadingAlbums: bool
    var isAlbumDeleted: bool
    /** The `.photo-container` elements currently in the gallery, in document order. */
    var containers: seq<Container>

    function View(): PageView
      reads this
    {
      PageView(selectedImages, imageMap, isProcessing, isAlbumDeleted, containers)
    }

    constructor ()
      ensures selectedImages == [] && imageMap == map[] && containers == []
      ensures !isProcessing && !isLoadingAlbums && !isAlbumDeleted
    {
      selectedImages, imageMap, containers := [], map[], [];
      isProcessing, isLoadingAlbums, isAlbumDeleted := false, false, false;
    }

    /**
     * `displayImages(images)`: on a page without `#image-gallery` does nothing
     * and preloads nothing; otherwise clears the selection, rebuilds `imageMap`
     * and renders one unselected container per image, starts the preloader, and
     * returns what the preloader requests.
     */
    method DisplayImages(images: seq<Image>, thumbnails: set<string>, galleryPresent: bool) returns (preload: Preload)
      modifies this`selectedImages, this`imageMap, this`containers
      ensures !galleryPresent ==>
        selectedImages == old(selectedImages) && imageMap == old(imageMap) && containers == old(containers)
        && preload == Preload([], [], [])
      ensures galleryPresent ==> selectedImages == []
      ensures galleryPresent ==> imageMap == NameMap(images)
      ensures galleryPresent ==> |containers| == |images|
      ensures galleryPresent ==> forall k :: 0 <= k < |images| ==>
        containers[k] == Container(images[k].id, InitialSrc(images[k].id, thumbnails), false)
      ensures galleryPresent ==> preload.batches == Batches(images, PreloadBatchSize)
      ensures galleryPresent ==> preload.requested == Uncached(images, thumbnails)
    {
      if !galleryPresent { return Preload([], [], []); }
      imageMap := map[];
      selectedImages := [];
      preload := PreloadImages(images, PreloadBatchSize, thumbnails);
      imageMap, containers := Render(images, thumbnails);
    }

    /**
     * `displayMatchingImages(matches)`: clears the gallery, `imageMap` and the
     * selection, unless the page has no `#image-gallery`.
     */
    method DisplayMatchingImages(galleryPresent: bool)
      modifies this`selectedImages, this`imageMap, this`containers
      ensures !galleryPresent ==>
        selectedImages == old(selectedImages) && imageMap == old(imageMap) && containers == old(containers)
      ensures galleryPresent ==> selectedImages == [] && imageMap == map[] && containers == []
    {
      if !galleryPresent { return; }
      imageMap := map[];
      selectedImages := [];
      containers := [];
    }

    /**
     * A click on container `k` (`onTarget`: on the container itself or its
     * selection circle) toggles it; selecting appends its id, deselecting
     * removes every occurrence of it.
     */
    method Toggle(k: nat, onTarget: bool)
      requires k < |containers|
      modifies this`containers, this`selectedImages
      ensures !onTarget ==> containers == old(containers) && selectedImages == old(selectedImages)
      ensures onTarget ==>
        var c := old(containers)[k];
        && containers == old(containers)[k := c.(selected := !c.selected)]
        && selectedImages == (if c.selected then RemoveAll(old(selectedImages), c.imageId)
                              else old(selectedImages) + [c.imageId])
    {
      if !onTarget { return; }
      var c := containers[k];
      containers := containers[k := c.(selected := !c.selected)];
      if !c.selected {
        selectedImages := selectedImages + [c.imageId];
      } else {
        selectedImages := RemoveAll(selectedImages, c.imageId);
      }
    }

    /** The `onload` of container `k`'s thumbnail: the real URL becomes its `src` and the id is cached. */
    method ThumbnailLoaded(cache: FetchCache.Cache, k: nat)
      requires k < |containers|
      modifies this`containers, cache`thumbnails
      ensures containers == old(containers)[k := old(containers)[k].(src := ThumbnailUrl(old(containers)[k].imageId))]
      ensures cache.thumbnails == old(cache.thumbnails) + {old(containers)[k].imageId}
    {
      var c := containers[k];
      containers := containers[k := c.(src := ThumbnailUrl(c.imageId))];
      cache.thumbnails := cache.thumbnails + {c.imageId};
    }

    /**
     * The select-all handler as written: clears the selection, then marks every
     * unselected container selected and appends the id found in its `src`.
     */
    method SelectAll()
      modifies this`containers, this`selectedImages
      ensures |containers| == |old(containers)|
      ensures forall k :: 0 <= k < |containers| ==> containers[k] == old(containers)[k].(selected := true)
      ensures selectedImages == NewlySelected(old(containers))
    {
      selectedImages := [];
      var i := 0;
      while i < |containers|
        invariant i <= |containers| == |old(containers)|
        invariant forall k :: 0 <= k < i ==> containers[k] == old(containers)[k].(selected := true)
        invariant forall k :: i <= k < |containers| ==> containers[k] == old(containers)[k]
        invariant selectedImages == NewlySelected(old(containers)[..i])
      {
        assert old(containers)[..i + 1][..i] == old(containers)[..i];
        var c := containers[i];
        if !c.selected {
          containers := containers[i := c.(selected := true)];
          var id := ExtractId(c.src);
          if id.Some? {
            selectedImages := selectedImages + [id.value];
          }
        }
        i := i + 1;
      }
      assert old(containers)[..i] == old(containers);
    }

    /** Select-all with the guard applied to the marking only: every container's id is listed. */
    method SelectAllCorrected()
      modifies this`containers, this`selectedImages
      ensures |containers| == |old(containers)|
      ensures forall k :: 0 <= k < |containers| ==> containers[k] == old(containers)[k].(selected := true)
      ensures selectedImages == ShownIds(old(containers))
    {
      selectedImages := [];
      var i := 0;
      while i < |containers|
        invariant i <= |containers| == |old(containers)|
        invariant forall k :: 0 <= k < i ==> containers[k] == old(containers)[k].(selected := true)
        invariant forall k :: i <= k < |containers| ==> containers[k] == old(containers)[k]
        invariant selectedImages == ShownIds(old(containers)[..i])
      {
        assert old(containers)[..i + 1][..i] == old(containers)[..i];
        var c := containers[i];
        if !c.selected {
          containers := containers[i := c.(selected := true)];
        }
        var id := ExtractId(c.src);
        if id.Some? {
          selectedImages := selectedImages + [id.value];
        }
        i := i + 1;
      }
      assert old(containers)[..i] == old(containers);
    }
  }

  /**
   * The `images.forEach` of `displayImages`: records each name in `imageMap`
   * and builds one unselected container per image, in order.
   */
  method Render(images: seq<Image>, thumbnails: set<string>)
    returns (imageMap: map<string, string>, rendered: seq<Container>)
    ensures imageMap == NameMap(images)
    ensures |rendered| == |images|
    ensures forall k :: 0 <= k < |images| ==>
      rendered[k] == Container(images[k].id, InitialSrc(images[k].id, thumbnails), false)
  {
    imageMap, rendered := map[], [];
    var i := 0;
    while i < |images|
      invariant i <= |images|
      invariant imageMap == NameMap(images[..i])
      invariant |rendered| == i
      invariant forall k :: 0 <= k < i ==>
        rendered[k] == Container(images[k].id, InitialSrc(images[k].id, thumbnails), false)
    {
      assert images[..i + 1][..i] == images[..i];
      imageMap := imageMap[images[i].id := images[i].name];
      rendered := rendered + [Container(images[i].id, InitialSrc(images[i].id, thumbnails), false)];
      i := i + 1;
    }
    assert images[..i] == images;
  }

  /** The `src` a freshly rendered image starts with. */
  function InitialSrc(id: string, thumbnails: set<string>): string {
    if id in thumbnails then ThumbnailUrl(id) else Placeholder
  }

  // ---------------------------------------------------------------------------
  // Preloading

  /** What `preloadImages` does: the slices it takes, the ids it starts loading, the waits it schedules. */
  datatype Preload = Preload(batches: seq<seq<Image>>, requested: seq<string>, delays: seq<nat>)

  /** The ids, in order, of the images whose thumbnail is not cached. */
  function Uncached(images: seq<Image>, thumbnails: set<string>): seq<string> {
    if images == [] then []
    else
      var im := images[|images| - 1];
      Uncached(images[..|images| - 1], thumbnails) + (if im.id in thumbnails then [] else [im.id])
  }

  lemma {:induction false} UncachedAppend(a: seq<Image>, b: seq<Image>, thumbnails: set<string>)
    ensures Uncached(a + b, thumbnails) == Uncached(a, thumbnails) + Uncached(b, thumbnails)
    decreases |b|
  {
    if b == [] {
      assert a + b == a;
    } else {
      var b' := b[..|b| - 1];
      assert (a + b)[..|a + b| - 1] == a + b';
      UncachedAppend(a, b', thumbnails);
    }
  }

  /** An id is requested exactly when some image has it and its thumbnail is not cached. */
  lemma {:induction false} UncachedSpec(images: seq<Image>, thumbnails: set<string>, id: string)
    ensures id in Uncached(images, thumbnails) <==>
      id !in thumbnails && exists k :: 0 <= k < |images| && images[k].id == id
  {
    if images != [] {
      var init := images[..|images| - 1];
      UncachedSpec(init, thumbnails, id);
      if exists k :: 0 <= k < |images| && images[k].id == id {
        var k :| 0 <= k < |images| && images[k].id == id;
        if k < |init| { assert init[k] == images[k]; }
      }
    }
  }

  /**
   * `preloadImages(images, batchSize)`: takes slices of `batchSize` images,
   * starts loading each one whose thumbnail is not cached, and waits 100 ms
   * before each further slice.
   */
  method PreloadImages(images: seq<Image>, batchSize: nat, thumbnails: set<string>) returns (p: Preload)
    ensures batchSize == 0 ==> p == Preload([], [], [])
    ensures batchSize > 0 ==> p.batches == Batches(images, batchSize)
    ensures batchSize > 0 ==> p.requested == Uncached(images, thumbnails)
    ensures |p.delays| == (if p.batches == [] then 0 else |p.batches| - 1)
    ensures forall j :: 0 <= j < |p.delays| ==> p.delays[j] == PreloadDelayMs
  {
    if batchSize == 0 {
      // the first slice is empty, so nothing is loaded
      return Preload([], [], []);
    }
    var batches: seq<seq<Image>> := [];
    var requested: seq<string> := [];
    var delays: seq<nat> := [];
    var index := 0;
    while index < |images|
      invariant index <= |images|
      invariant batches + Batches(images[index..], batchSize) == Batches(images, batchSize)
      invariant requested == Uncached(images[..index], thumbnails)
      invariant |delays| == (if batches == [] then 0 else if index < |images| then |batches| else |batches| - 1)
      invariant forall j :: 0 <= j < |delays| ==> delays[j] == PreloadDelayMs
      decreases |images| - index
    {
      var end := if index + batchSize < |images| then index + batchSize else |images|;
      var batch := images[index..end];
      PreloadStep(images, batchSize, index, end, thumbnails);
      // `batch.forEach`: start loading every thumbnail not yet cached
      requested := requested + Uncached(batch, thumbnails);
      batches := batches + [batch];
      index := end;
      if index < |images| {
        delays := delays + [PreloadDelayMs];
      }
    }
    assert images[index..] == [];
    assert images[..index] == images;
    p := Preload(batches, requested, delays);
  }

  lemma PreloadStep(images: seq<Image>, batchSize: nat, index: nat, end: nat, thumbnails: set<string>)
    requires 0 < batchSize && index < |images|
    requires end == if index + batchSize < |images| then index + batchSize else |images|
    ensures Batches(images[index..], batchSize) == [images[index..end]] + Batches(images[end..], batchSize)
    ensures Uncached(images[..end], thumbnails) == Uncached(images[..index], thumbnails) + Uncached(images[index..end], thumbnails)
  {
    BatchesFront(images[index..], batchSize);
    assert images[index..][..end - index] == images[index..end];
    assert images[index..][end - index..] == images[end..];
    assert images[..end] == images[..index] + images[index..end];
    UncachedAppend(images[..index], images[index..end], thumbnails);
  }

  // ---------------------------------------------------------------------------
  // Download naming

  /** One file placed in the zip's `imagens` folder. */
  datatype ZipEntry = ZipEntry(name: string, id: string)

  /** What `downloadSelectedImages` does before the zip is generated. */
  datatype Download =
    | NothingSelected            // alert "Nenhuma imagem selecionada!"
    | ZipUnavailable             // JSZip is not loaded
    | Zipped(entries: seq<ZipEntry>, completed: nat, pauses: seq<nat>)

  /**
   * The zip file name of the id at 0-based position `p`: its name from
   * `imageMap` when that is truthy, otherwise `imagem_<p + 1>.jpg`.
   */
  function FileName(imageMap: map<string, string>, id: string, p: nat): (name: string)
    ensures id in imageMap && imageMap[id] != "" ==> name == imageMap[id] + ".jpg"
    ensures !(id in imageMap && imageMap[id] != "") ==> name == "imagem_" + NatToString(p + 1) + ".jpg"
  {
    if id in imageMap && imageMap[id] != "" then imageMap[id] + ".jpg"
    else "imagem_" + NatToString(p + 1) + ".jpg"
  }

  /** A fallback name is `imagem_` and digits and `.jpg`; the digits read back as `p + 1`, the 1-based position. */
  lemma FallbackIsOneBased(imageMap: map<string, string>, id: string, p: nat)
    requires !(id in imageMap && imageMap[id] != "")
    ensures var s := FileName(imageMap, id, p);
      && |s| >= 12 && s[..7] == "imagem_" && s[|s| - 4..] == ".jpg"
      && (forall i :: 7 <= i < |s| - 4 ==> '0' <= s[i] <= '9')
      && DigitsValue(s[7..|s| - 4]) == p + 1
  {
    var s := FileName(imageMap, id, p);
    var digits := NatToString(p + 1);
    assert s == "imagem_" + digits + ".jpg";
    assert s[7..|s| - 4] == digits;
    NatToStringRoundTrip(p + 1);
  }

  /** Two positions without a truthy name never share a zip file name. */
  lemma FallbackNamesDistinct(imageMap: map<string, string>, id1: string, p: nat, id2: string, q: nat)
    requires !(id1 in imageMap && imageMap[id1] != "")
    requires !(id2 in imageMap && imageMap[id2] != "")
    requires p != q
    ensures FileName(imageMap, id1, p) != FileName(imageMap, id2, q)
  {
    var s, t := FileName(imageMap, id1, p), FileName(imageMap, id2, q);
    if s == t {
      assert s[7..|s| - 4] == NatToString(p + 1);
      assert t[7..|t| - 4] == NatToString(q + 1);
      NatToStringInjective(p + 1, q + 1);
    }
  }

  /** The zip entries for positions `0 .. k-1`, skipping the downloads that failed. */
  function Entries(ids: seq<string>, imageMap: map<string, string>, fetched: nat -> bool, k: nat): seq<ZipEntry>
    requires k <= |ids|
  {
    if k == 0 then []
    else
      var rest := Entries(ids, imageMap, fetched, k - 1);
      if fetched(k - 1) then rest + [ZipEntry(FileName(imageMap, ids[k - 1], k - 1), ids[k - 1])] else rest
  }

  /** When every download succeeds, position `p` yields the `p`-th entry, named for that position. */
  lemma {:induction false} EntriesAllFetched(ids: seq<string>, imageMap: map<string, string>, fetched: nat -> bool, k: nat)
    requires k <= |ids|
    requires forall p :: 0 <= p < k ==> fetched(p)
    ensures |Entries(ids, imageMap, fetched, k)| == k
    ensures forall p :: 0 <= p < k ==>
      Entries(ids, imageMap, fetched, k)[p] == ZipEntry(FileName(imageMap, ids[p], p), ids[p])
  {
    if k > 0 {
      EntriesAllFetched(ids, imageMap, fetched, k - 1);
    }
  }

  /** The positions below `k` whose download succeeds, in increasing order. */
  function FetchedPositions(fetched: nat -> bool, k: nat): (ps: seq<nat>)
    ensures forall j :: 0 <= j < |ps| ==> ps[j] < k && fetched(ps[j])
    ensures forall j, l :: 0 <= j < l < |ps| ==> ps[j] < ps[l]
    ensures forall p :: 0 <= p < k && fetched(p) ==> p in ps
  {
    if k == 0 then [] else FetchedPositions(fetched, k - 1) + (if fetched(k - 1) then [k - 1] else [])
  }

  /**
   * The zip holds exactly the successful downloads, in selection order: its
   * `j`-th entry is the `j`-th successful position, named for that position.
   */
  lemma {:induction false} EntriesFetched(ids: seq<string>, imageMap: map<string, string>, fetched: nat -> bool, k: nat)
    requires k <= |ids|
    ensures var ps := FetchedPositions(fetched, k);
      && |Entries(ids, imageMap, fetched, k)| == |ps|
      && forall j :: 0 <= j < |ps| ==>
           Entries(ids, imageMap, fetched, k)[j] == ZipEntry(FileName(imageMap, ids[ps[j]], ps[j]), ids[ps[j]])
  {
    if k > 0 {
      EntriesFetched(ids, imageMap, fetched, k - 1);
    }
  }

  /**
   * The `Promise.all(batch.map(...))` of one slice `i .. end-1`: each id whose
   * download succeeds is added under the name for its global position
   * `i + batchIndex`.
   */
  method ZipBatch(ids: seq<string>, imageMap: map<string, string>, fetched: nat -> bool, i: nat, end: nat,
                  entries: seq<ZipEntry>, completed: nat)
    returns (entries': seq<ZipEntry>, completed': nat)
    requires i <= end <= |ids|
    requires entries == Entries(ids, imageMap, fetched, i)
    ensures entries' == Entries(ids, imageMap, fetched, end)
    ensures completed' == completed + |entries'| - |entries|
  {
    var batch := ids[i..end];
    entries', completed' := entries, completed;
    var batchIndex := 0;
    while batchIndex < |batch|
      invariant batchIndex <= |batch|
      invariant entries' == Entries(ids, imageMap, fetched, i + batchIndex)
      invariant completed' == completed + |entries'| - |entries|
    {
      var id := batch[batchIndex];
      if fetched(i + batchIndex) {
        entries' := entries' + [ZipEntry(FileName(imageMap, id, i + batchIndex), id)];
        completed' := completed' + 1;
      }
      batchIndex := batchIndex + 1;
    }
  }

  /**
   * `downloadSelectedImages(selectedIds)` up to the zip generation: slices of 3
   * ids, one proxy download per id (`fetched(p)`: the download of the id at
   * position `p` succeeds), a 300 ms pause between slices.
   */
  method DownloadSelectedImages(selectedIds: seq<string>, imageMap: map<string, string>, zipAvailable: bool,
                                fetched: nat -> bool)
    returns (d: Download)
    ensures selectedIds == [] <==> d == NothingSelected
    ensures selectedIds != [] && !zipAvailable <==> d == ZipUnavailable
    ensures d.Zipped? ==>
      && d.entries == Entries(selectedIds, imageMap, fetched, |selectedIds|)
      && d.completed == |d.entries|
      && |d.pauses| == |Batches(selectedIds, DownloadBatchSize)| - 1
      && forall j :: 0 <= j < |d.pauses| ==> d.pauses[j] == DownloadPauseMs
  {
    if selectedIds == [] {
      return NothingSelected;
    }
    if !zipAvailable {
      return ZipUnavailable;
    }
    var n := |selectedIds|;
    var entries: seq<ZipEntry> := [];
    var completed := 0;
    var pauses: seq<nat> := [];
    ghost var done: seq<seq<string>> := [];
    var i := 0;
    while i < n
      invariant i <= n
      invariant done + Batches(selectedIds[i..], DownloadBatchSize) == Batches(selectedIds, DownloadBatchSize)
      invariant entries == Entries(selectedIds, imageMap, fetched, i)
      invariant completed == |entries|
      invariant |pauses| == (if done == [] then 0 else if i < n then |done| else |done| - 1)
      invariant i == 0 <==> done == []
      invariant forall j :: 0 <= j < |pauses| ==> pauses[j] == DownloadPauseMs
      decreases n - i
    {
      var end := if i + DownloadBatchSize < n then i + DownloadBatchSize else n;
      var batch := selectedIds[i..end];
      BatchesStep(selectedIds, DownloadBatchSize, i, end);
      entries, completed := ZipBatch(selectedIds, imageMap, fetched, i, end, entries, completed);
      done := done + [batch];
      if i + DownloadBatchSize < n {
        pauses := pauses + [DownloadPauseMs];
      }
      i := end;
    }
    assert selectedIds[i..] == [];
    d := Zipped(entries, completed, pauses);
  }
}
