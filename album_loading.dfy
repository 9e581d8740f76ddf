/**
 * The two loaders of the gallery script: `refreshAlbum` (one album's images,
 * guarded by `isProcessing` and the latched `isAlbumDeleted`) together with
 * its caller `checkAndLoadAlbum`, and `loadAlbums` (the album list with one
 * cover per album, guarded by `isLoadingAlbums`).
 */
module AlbumLoading {
  import opened Wrappers
  import opened Text
  import opened ApiData
  import opened Batching
  import opened FetchCache
  import opened Gallery

  // ---------------------------------------------------------------------------
  // Cover choice

  /** A cover photo's name starts with `fotocapa`, in any letter case. */
  predicate IsCoverName(name: string) {
    StartsWith(Lower(name), "fotocapa")
  }

  /** The position of the first cover photo: `images.find(...)`. */
  function FindCover(images: seq<Image>): (k: Option<nat>)
    ensures k.Some? ==> k.value < |images| && IsCoverName(images[k.value].name)
    ensures k.Some? ==> forall j :: 0 <= j < k.value ==> !IsCoverName(images[j].name)
    ensures k.None? ==> forall j :: 0 <= j < |images| ==> !IsCoverName(images[j].name)
  {
    if images == [] then None
    else if IsCoverName(images[0].name) then Some(0)
    else match FindCover(images[1..])
      case None => None
      case Some(k) => Some(k + 1)
  }

  const NoCoverUrl: string := "https://placehold.co/300x200?text=Sem+Capa"
  const CoverErrorUrl: string := "https://placehold.co/300x200?text=Erro+Capa"

  /** The cover `src` of an album card, from the album's image list or the error that fetching it raised. */
  function CoverSrc(data: Result<Body>): (src: string)
    ensures data.Err? ==> src == CoverErrorUrl
    ensures data.Ok? && data.value.images.None? ==> src == NoCoverUrl
    ensures data.Ok? && data.value.images.Some? ==>
      var images := data.value.images.value;
      && ((exists k :: 0 <= k < |images| && IsCoverName(images[k].name)) <==> src != NoCoverUrl)
      && (FindCover(images).Some? ==> src == ThumbnailUrl(images[FindCover(images).value].id))
  {
    match data
    case Err(_) => CoverErrorUrl
    case Ok(body) =>
      if body.images.None? then NoCoverUrl
      else match FindCover(body.images.value)
        case None => NoCoverUrl
        case Some(k) =>
          ThumbnailIsNotNoCover(body.images.value[k].id);
          ThumbnailUrl(body.images.value[k].id)
  }

  lemma ThumbnailIsNotNoCover(id: string)
    ensures ThumbnailUrl(id) != NoCoverUrl
  {
    assert ThumbnailUrl(id)[8] == 'd' && NoCoverUrl[8] == 'p';
  }

  /** Any name beginning with `fotocapa` in some letter case marks a cover. */
  lemma CoverNameIgnoresCase(p: string, rest: string)
    requires Lower(p) == "fotocapa"
    ensures IsCoverName(p + rest)
  {
    LowerAppend(p, rest);
    assert Lower(p + rest)[..8] == Lower(p);
  }

  /** The photographers' naming, `FotoCapa...`, is recognised. */
  lemma FotoCapaIsCover(rest: string)
    ensures IsCoverName("FotoCapa" + rest)
  {
    assert Lower("FotoCapa") == "fotocapa";
    CoverNameIgnoresCase("FotoCapa", rest);
  }

  /** The error thrown when the direct fetch of an album's images gets a reply that is not 2xx. */
  const CoverErrorMessage: string := "Erro ao carregar imagens do álbum."

  /** What the direct `fetch` of an album's images in `loadAlbums` yields: no retry, no cache check. */
  function CoverFetchResult(o: FetchOutcome): (r: Result<Body>)
    ensures r.Ok? <==> o.Response? && IsOk(o.status) && o.json.Ok?
    ensures o.NetworkError? ==> r == Err(o.message)
    ensures o.Response? && !IsOk(o.status) ==> r == Err(CoverErrorMessage)
    ensures o.Response? && IsOk(o.status) ==> r == o.json
  {
    match o
    case NetworkError(m) => Err(m)
    case Response(status, json) => if !IsOk(status) then Err(CoverErrorMessage) else json
  }

  /** The image list used for an album's cover: the cached one, otherwise the one fetched. */
  function CoverData(cached: map<string, Body>, covers: string -> FetchOutcome, albumId: string): Result<Body> {
    if AlbumImagesKey(albumId) in cached then Ok(cached[AlbumImagesKey(albumId)])
    else CoverFetchResult(covers(albumId))
  }

  // ---------------------------------------------------------------------------
  // refreshAlbum

  datatype RefreshOutcome =
    | Busy                                 // `isProcessing` set and not forced
    | AlbumGone                            // `isAlbumDeleted` latched
    | NoAlbumId
    | NoGallery
    | Shown(images: seq<Image>, preload: Preload)
    | NoImages                             // "Nenhuma imagem disponível."
    | NotFound(message: string)            // the error mentions 404: the album is marked deleted
    | LoadError(message: string)

  /** Whether `refreshAlbum` gets past its two guards. */
  predicate Proceeds(isProcessing: bool, isAlbumDeleted: bool, forceUpdate: bool) {
    !(isProcessing && !forceUpdate) && !isAlbumDeleted
  }

  /** A truthy album id: present and not empty. */
  predicate HasAlbumId(albumId: Option<string>) {
    albumId.Some? && albumId.value != ""
  }

  /** What `api.getAlbumImages(albumId, forceUpdate)` yields when `cache.albums` is `albums`. */
  function ImagesData(albums: map<string, Body>, albumId: string, forceUpdate: bool,
                      attempt: nat -> FetchOutcome): Result<Body>
  {
    CachedFetch(albums, Some(AlbumImagesKey(albumId)), !forceUpdate, attempt)
  }

  /** `Array.isArray(data.images) && data.images.length > 0`. */
  predicate HasImages(data: Result<Body>) {
    data.Ok? && data.value.images.Some? && |data.value.images.value| > 0
  }

  /**
   * The promise of one `refreshAlbum(albumId, forceUpdate)` that found the page
   * in state `before` and `cache.albums` equal to `albums`, and left `after`
   * and `albumsAfter`. The loader and the messages it shows replace the
   * gallery's contents, so every outcome past the gallery check but `Shown`
   * leaves no container.
   */
  predicate Refreshes(before: PageView, albums: map<string, Body>, thumbnails: set<string>,
                      albumId: Option<string>, forceUpdate: bool, galleryPresent: bool,
                      attempt: nat -> FetchOutcome,
                      o: RefreshOutcome, after: PageView, albumsAfter: map<string, Body>)
  {
    var proceeds := Proceeds(before.isProcessing, before.isAlbumDeleted, forceUpdate);
    // the two guards: nothing happens
    && (before.isProcessing && !forceUpdate ==> o == Busy)
    && (!(before.isProcessing && !forceUpdate) && before.isAlbumDeleted ==> o == AlbumGone)
    && (!proceeds ==> after == before && albumsAfter == albums)
    // the early returns inside the `try`: only the `finally` runs
    && (proceeds && !HasAlbumId(albumId) ==>
          o == NoAlbumId && after == before.(isProcessing := false) && albumsAfter == albums)
    && (proceeds && HasAlbumId(albumId) && !galleryPresent ==>
          o == NoGallery && after == before.(isProcessing := false) && albumsAfter == albums)
    // the image list is fetched (or taken from the cache unless forced)
    && (proceeds && HasAlbumId(albumId) && galleryPresent ==>
          var data := ImagesData(albums, albumId.value, forceUpdate, attempt);
          && albumsAfter == Stored(albums, Some(AlbumImagesKey(albumId.value)), data)
          && !after.isProcessing
          // `isAlbumDeleted` becomes set exactly by an error that mentions 404
          && after.isAlbumDeleted == o.NotFound?
          && (HasImages(data) ==>
                && o.Shown? && o.images == data.value.images.value
                && o.preload.batches == Batches(o.images, PreloadBatchSize)
                && o.preload.requested == Uncached(o.images, thumbnails)
                && after.selectedImages == [] && after.imageMap == NameMap(o.images)
                && |after.containers| == |o.images|
                && forall k :: 0 <= k < |o.images| ==>
                     after.containers[k] == Container(o.images[k].id, InitialSrc(o.images[k].id, thumbnails), false))
          && (data.Ok? && !HasImages(data) ==> o == NoImages)
          && (data.Err? ==> o == (if Contains(data.error, "404") then NotFound(data.error) else LoadError(data.error)))
          && (!o.Shown? ==>
                after.selectedImages == before.selectedImages && after.imageMap == before.imageMap
                && after.containers == []))
  }

  /**
   * `refreshAlbum(albumId, forceUpdate)`. `galleryPresent` says whether the page
   * has `#image-gallery`; `attempt` is the oracle of `getAlbumImages`' fetches.
   */
  method RefreshAlbum(st: AppState, cache: Cache, albumId: Option<string>, forceUpdate: bool,
                      galleryPresent: bool, attempt: nat -> FetchOutcome)
    returns (o: RefreshOutcome)
    modifies st`isProcessing, st`isAlbumDeleted, st`selectedImages, st`imageMap, st`containers, cache`albums
    ensures Refreshes(old(st.View()), old(cache.albums), cache.thumbnails, albumId, forceUpdate, galleryPresent,
                      attempt, o, st.View(), cache.albums)
    // `isAlbumDeleted` is latched; `isProcessing` is cleared on every exit past the guards
    ensures old(st.isAlbumDeleted) ==> st.isAlbumDeleted
    ensures Proceeds(old(st.isProcessing), old(st.isAlbumDeleted), forceUpdate) ==> !st.isProcessing
  {
    if st.isProcessing && !forceUpdate {
      return Busy;
    }
    if st.isAlbumDeleted {
      return AlbumGone;
    }
    st.isProcessing := true;
    // try
    if !HasAlbumId(albumId) {
      o := NoAlbumId;
    } else if !galleryPresent {
      o := NoGallery;
    } else {
      // the loader replaces the gallery's contents
      st.containers := [];
      var data, _, _ := cache.GetAlbumImages(albumId.value, forceUpdate, attempt);
      match data {
        case Ok(body) =>
          if body.images.Some? && |body.images.value| > 0 {
            var preload := st.DisplayImages(body.images.value, cache.thumbnails, galleryPresent);
            o := Shown(body.images.value, preload);
          } else {
            o := NoImages;
          }
        case Err(message) =>
          if Contains(message, "404") {
            st.isAlbumDeleted := true;
            o := NotFound(message);
          } else {
            o := LoadError(message);
          }
      }
    }
    // finally
    st.isProcessing := false;
  }

  /**
   * Three 404 replies make `getAlbumImages` throw an error that mentions 404,
   * so a forced `refreshAlbum` (or one with nothing cached) marks the album deleted.
   */
  lemma NotFoundReplyIsDeletion(attempt: nat -> FetchOutcome)
    requires forall k :: 0 <= k < MaxAttempts ==> attempt(k).Response? && attempt(k).status == 404
    ensures Fetched(attempt) == Err(HttpErrorMessage(404))
    ensures Contains(Fetched(attempt).error, "404")
  {
    assert forall k :: 0 <= k < MaxAttempts ==> AttemptResult(attempt(k)) == Err(HttpErrorMessage(404));
    NotFoundMessage();
  }

  datatype CheckOutcome =
    | InvalidAlbum                         // no album id: redirect to the index page
    | CheckFailed(message: string)         // `checkAlbum` threw: redirect to the index page
    | Refreshed(refresh: RefreshOutcome)

  /**
   * `checkAndLoadAlbum(albumId)`: confirms the album exists, then refreshes it
   * unforced. `check` is the oracle of `checkAlbum`'s fetches, `images` that
   * of `getAlbumImages`'.
   */
  method CheckAndLoadAlbum(st: AppState, cache: Cache, albumId: Option<string>, galleryPresent: bool,
                           check: nat -> FetchOutcome, images: nat -> FetchOutcome)
    returns (o: CheckOutcome)
    modifies st`isProcessing, st`isAlbumDeleted, st`selectedImages, st`imageMap, st`containers, cache`albums
    // the message, or the loader, replaces the gallery's contents first
    ensures var shown := if galleryPresent then old(st.View()).(containers := []) else old(st.View());
      && (!HasAlbumId(albumId) ==>
            o == InvalidAlbum && st.View() == shown && cache.albums == old(cache.albums))
      && (HasAlbumId(albumId) ==>
            var key := Some(AlbumKey(albumId.value));
            var checked := CachedFetch(old(cache.albums), key, true, check);
            && (checked.Err? ==>
                  o == CheckFailed(checked.error) && st.View() == shown && cache.albums == old(cache.albums))
            && (checked.Ok? ==>
                  && o.Refreshed?
                  && Refreshes(shown, Stored(old(cache.albums), key, checked), cache.thumbnails, albumId, false,
                               galleryPresent, images, o.refresh, st.View(), cache.albums)))
    // an album already checked is never redirected
    ensures HasAlbumId(albumId) && AlbumKey(albumId.value) in old(cache.albums) ==> o.Refreshed?
  {
    if galleryPresent {
      st.containers := [];
    }
    if !HasAlbumId(albumId) {
      return InvalidAlbum;
    }
    var r, _, _ := cache.CheckAlbum(albumId.value, check);
    if r.Err? {
      return CheckFailed(r.error);
    }
    var refresh := RefreshAlbum(st, cache, albumId, false, galleryPresent, images);
    o := Refreshed(refresh);
  }

  // ---------------------------------------------------------------------------
  // loadAlbums

  /** One album card: the album and the `src` of its cover image. */
  datatype AlbumCard = AlbumCard(id: string, name: string, cover: string)

  datatype LoadAlbumsOutcome =
    | AlreadyLoading
    | NoContainer                          // returns before the `try`: the flag stays set
    | ListError(message: string)
    | NoAlbums                             // "Nenhum álbum disponível."
    | Listed(cards: seq<AlbumCard>, pauses: seq<nat>)

  const CardBatchSize: nat := 5
  const CardPauseMs: nat := 10

  /** `Array.isArray(data.folders) && data.folders.length > 0`. */
  predicate HasFolders(b: Body) {
    b.folders.Some? && |b.folders.value| > 0
  }

  /** The cover step fetches album `i`'s image list and stores it: it was not cached and the fetch succeeded. */
  predicate FetchedCover(cached: map<string, Body>, folders: seq<Folder>, covers: string -> FetchOutcome, i: int) {
    0 <= i < |folders| && AlbumImagesKey(folders[i].id) !in cached && CoverFetchResult(covers(folders[i].id)).Ok?
  }

  /**
   * `cache.albums` after the cover step, which began with `cached`: every
   * entry is kept, the image list of every album fetched successfully is
   * added under the album's key, and nothing else is added.
   */
  predicate CoversStored(cached: map<string, Body>, folders: seq<Folder>, covers: string -> FetchOutcome,
                         after: map<string, Body>)
  {
    StoredUpTo(cached, folders, covers, |folders|, after)
  }

  /** `CoversStored` for the first `n` albums. */
  predicate StoredUpTo(cached: map<string, Body>, folders: seq<Folder>, covers: string -> FetchOutcome, n: nat,
                       after: map<string, Body>)
  {
    && (forall k :: k in cached ==> k in after && after[k] == cached[k])
    && (forall i :: 0 <= i < n && FetchedCover(cached, folders, covers, i) ==>
          && AlbumImagesKey(folders[i].id) in after
          && after[AlbumImagesKey(folders[i].id)] == CoverFetchResult(covers(folders[i].id)).value)
    && (forall k :: k in after ==>
          k in cached || exists i :: 0 <= i < n && FetchedCover(cached, folders, covers, i) && k == AlbumImagesKey(folders[i].id))
  }

  /** Album `n`'s cover look-up extends the store to the first `n + 1` albums. */
  lemma StoreStep(cached: map<string, Body>, folders: seq<Folder>, covers: string -> FetchOutcome, n: nat,
                  m: map<string, Body>, m': map<string, Body>)
    requires n < |folders|
    requires StoredUpTo(cached, folders, covers, n, m)
    requires m' == if FetchedCover(cached, folders, covers, n)
                   then m[AlbumImagesKey(folders[n].id) := CoverFetchResult(covers(folders[n].id)).value] else m
    ensures StoredUpTo(cached, folders, covers, n + 1, m')
  {
    if FetchedCover(cached, folders, covers, n) {
      var key := AlbumImagesKey(folders[n].id);
      forall i | 0 <= i < n + 1 && FetchedCover(cached, folders, covers, i)
        ensures AlbumImagesKey(folders[i].id) in m'
        ensures m'[AlbumImagesKey(folders[i].id)] == CoverFetchResult(covers(folders[i].id)).value
      {
        if AlbumImagesKey(folders[i].id) == key {
          AlbumImagesKeyInjective(folders[i].id, folders[n].id);
        }
      }
      forall k | k in m'
        ensures k in cached || exists i :: 0 <= i < n + 1 && FetchedCover(cached, folders, covers, i)
                                           && k == AlbumImagesKey(folders[i].id)
      {
        if k == key {
          assert FetchedCover(cached, folders, covers, n) && k == AlbumImagesKey(folders[n].id);
        }
      }
    }
  }

  lemma AlbumImagesKeyInjective(a: string, b: string)
    requires AlbumImagesKey(a) == AlbumImagesKey(b)
    ensures a == b
  {
    assert a == AlbumImagesKey(a)[13..];
    assert b == AlbumImagesKey(b)[13..];
  }

  /**
   * The cover of album `i` of `folders`: taken from `cached` when its image
   * list is there, otherwise fetched, and stored when the fetch succeeds.
   */
  method CoverCard(cache: Cache, folders: seq<Folder>, i: nat, cached: map<string, Body>, covers: string -> FetchOutcome)
    returns (card: AlbumCard)
    requires i < |folders|
    modifies cache`albums
    ensures card == AlbumCard(folders[i].id, folders[i].name, CoverSrc(CoverData(cached, covers, folders[i].id)))
    ensures cache.albums == if FetchedCover(cached, folders, covers, i)
      then old(cache.albums)[AlbumImagesKey(folders[i].id) := CoverFetchResult(covers(folders[i].id)).value]
      else old(cache.albums)
  {
    var album := folders[i];
    var key := AlbumImagesKey(album.id);
    var imagesData: Result<Body>;
    if key in cached {
      imagesData := Ok(cached[key]);
    } else {
      imagesData := CoverFetchResult(covers(album.id));
      if imagesData.Ok? {
        cache.albums := cache.albums[key := imagesData.value];
      }
    }
    card := AlbumCard(album.id, album.name, CoverSrc(imagesData));
  }

  /**
   * The body of the debounced `loadAlbums`. `listing` is the oracle of
   * `getAlbums`' fetches; `covers(id)` is what fetching album `id`'s images
   * yields. All the cache look-ups of the cover step happen before any of its
   * fetches completes, so they all see the cache as it was when the step began.
   */
  method LoadAlbums(st: AppState, cache: Cache, containerPresent: bool,
                    listing: nat -> FetchOutcome, covers: string -> FetchOutcome)
    returns (o: LoadAlbumsOutcome)
    modifies st`isLoadingAlbums, cache`albums
    ensures old(st.isLoadingAlbums) ==>
      o == AlreadyLoading && st.isLoadingAlbums && cache.albums == old(cache.albums)
    ensures !old(st.isLoadingAlbums) && !containerPresent ==>
      o == NoContainer && st.isLoadingAlbums && cache.albums == old(cache.albums)
    ensures !old(st.isLoadingAlbums) && containerPresent ==>
      var list := Fetched(listing);
      var cached := Stored(old(cache.albums), Some(AlbumListKey), list);
      && !st.isLoadingAlbums
      && (list.Err? ==> o == ListError(list.error) && cache.albums == old(cache.albums))
      && (list.Ok? && !HasFolders(list.value) ==> o == NoAlbums && cache.albums == cached)
      && (list.Ok? && HasFolders(list.value) ==>
            var folders := list.value.folders.value;
            && o.Listed?
            && |o.cards| == |folders|
            && (forall i :: 0 <= i < |folders| ==>
                  o.cards[i] == AlbumCard(folders[i].id, folders[i].name, CoverSrc(CoverData(cached, covers, folders[i].id))))
            && |o.pauses| == |Batches(o.cards, CardBatchSize)| - 1
            && (forall j :: 0 <= j < |o.pauses| ==> o.pauses[j] == CardPauseMs)
            && CoversStored(cached, folders, covers, cache.albums))
  {
    if st.isLoadingAlbums {
      return AlreadyLoading;
    }
    st.isLoadingAlbums := true;
    if !containerPresent {
      return NoContainer;
    }
    // try
    var data, _, _ := cache.GetAlbums(listing);
    if data.Err? {
      o := ListError(data.error);
    } else if data.value.folders.None? || |data.value.folders.value| == 0 {
      o := NoAlbums;
    } else {
      var folders := data.value.folders.value;
      var cards := CoverCards(cache, folders, cache.albums, covers);
      var shown, pauses := AppendInBatches(cards);
      o := Listed(shown, pauses);
    }
    // finally
    st.isLoadingAlbums := false;
  }

  /**
   * `data.folders.map(async album => ...)`: one card per album, in order; an
   * image list fetched successfully is stored under the album's key.
   */
  method CoverCards(cache: Cache, folders: seq<Folder>, cached: map<string, Body>, covers: string -> FetchOutcome)
    returns (cards: seq<AlbumCard>)
    requires cache.albums == cached
    modifies cache`albums
    ensures |cards| == |folders|
    ensures forall i :: 0 <= i < |folders| ==>
      cards[i] == AlbumCard(folders[i].id, folders[i].name, CoverSrc(CoverData(cached, covers, folders[i].id)))
    ensures CoversStored(cached, folders, covers, cache.albums)
  {
    cards := [];
    var i := 0;
    while i < |folders|
      invariant i <= |folders| && |cards| == i
      invariant forall j :: 0 <= j < i ==>
        cards[j] == AlbumCard(folders[j].id, folders[j].name, CoverSrc(CoverData(cached, covers, folders[j].id)))
      invariant StoredUpTo(cached, folders, covers, i, cache.albums)
    {
      ghost var before := cache.albums;
      var card := CoverCard(cache, folders, i, cached, covers);
      StoreStep(cached, folders, covers, i, before, cache.albums);
      cards := cards + [card];
      i := i + 1;
    }
  }

  /**
   * The batch loop of `loadAlbums`: appends the cards to the container five
   * at a time, pausing 10 ms between slices. The container ends up holding
   * every card once, in album order.
   */
  lemma AppendStep(cards: seq<AlbumCard>, i: nat, end: nat)
    requires i < |cards|
    requires end == if i + CardBatchSize < |cards| then i + CardBatchSize else |cards|
    ensures i < end <= |cards|
    ensures Batches(cards[i..], CardBatchSize) == [cards[i..end]] + Batches(cards[end..], CardBatchSize)
    ensures cards[..end] == cards[..i] + cards[i..end]
  {
    BatchesStep(cards, CardBatchSize, i, end);
  }

  method AppendInBatches(cards: seq<AlbumCard>) returns (shown: seq<AlbumCard>, pauses: seq<nat>)
    ensures shown == cards
    ensures |pauses| == (if cards == [] then 0 else |Batches(cards, CardBatchSize)| - 1)
    ensures forall j :: 0 <= j < |pauses| ==> pauses[j] == CardPauseMs
  {
    shown, pauses := [], [];
    ghost var done: seq<seq<AlbumCard>> := [];
    var i := 0;
    while i < |cards|
      invariant i <= |cards|
      invariant shown == cards[..i]
      invariant done + Batches(cards[i..], CardBatchSize) == Batches(cards, CardBatchSize)
      invariant |pauses| == (if done == [] then 0 else if i < |cards| then |done| else |done| - 1)
      invariant i == 0 <==> done == []
      invariant forall j :: 0 <= j < |pauses| ==> pauses[j] == CardPauseMs
      decreases |cards| - i
    {
      var end := if i + CardBatchSize < |cards| then i + CardBatchSize else |cards|;
      AppendStep(cards, i, end);
      shown := shown + cards[i..end];
      done := done + [cards[i..end]];
      if i + CardBatchSize < |cards| {
        pauses := pauses + [CardPauseMs];
      }
      i := end;
    }
    assert cards[i..] == [];
    assert cards[..i] == cards;
  }
}
