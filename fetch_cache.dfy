/**
 * `api.fetchWithCache` of the gallery script and the three API calls built on
 * it. Each `fetch` is replaced by an oracle: `attempt(k)` is what the k-th
 * call (0-based) of this invocation yields.
 */
module FetchCache {
  import opened Wrappers
  import opened Text
  import opened ApiData

  /** What one `fetch` followed by `response.json()` yields. */
  datatype FetchOutcome =
    | NetworkError(message: string)                 // `fetch` itself rejects
    | Response(status: nat, json: Result<Body>)     // a reply; `json` is what `response.json()` yields

  /** The number of attempts `fetchWithCache` makes before giving up. */
  const MaxAttempts: nat := 3

  /** The unit of the linear back-off, in milliseconds. */
  const BackoffUnitMs: nat := 1000

  /** The message thrown for a reply whose status is not 2xx. */
  function HttpErrorMessage(status: nat): string {
    "Erro HTTP: " + NatToString(status)
  }

  /** What one pass of the try block yields: the data, or the error the catch block sees. */
  function AttemptResult(o: FetchOutcome): (r: Result<Body>)
    ensures r.Ok? <==> o.Response? && IsOk(o.status) && o.json.Ok?
    ensures o.NetworkError? ==> r == Err(o.message)
    ensures o.Response? && !IsOk(o.status) ==> r == Err(HttpErrorMessage(o.status))
    ensures o.Response? && IsOk(o.status) ==> r == o.json
  {
    match o
    case NetworkError(m) => Err(m)
    case Response(status, json) => if !IsOk(status) then Err(HttpErrorMessage(status)) else json
  }

  /** The first successful attempt among `os`, if any. */
  function FirstOk(os: seq<FetchOutcome>): (k: Option<nat>)
    ensures k.Some? ==> k.value < |os| && AttemptResult(os[k.value]).Ok?
    ensures k.Some? ==> forall j :: 0 <= j < k.value ==> AttemptResult(os[j]).Err?
    ensures k.None? ==> forall j :: 0 <= j < |os| ==> AttemptResult(os[j]).Err?
  {
    if os == [] then None
    else if AttemptResult(os[0]).Ok? then Some(0)
    else match FirstOk(os[1..])
      case None => None
      case Some(k) => Some(k + 1)
  }

  /** The outcomes of the attempts `fetchWithCache` may make. */
  function Attempts(attempt: nat -> FetchOutcome): (os: seq<FetchOutcome>)
    ensures |os| == MaxAttempts && forall k :: 0 <= k < MaxAttempts ==> os[k] == attempt(k)
  {
    seq(MaxAttempts, k requires 0 <= k => attempt(k))
  }

  /** The waits after the first `n` failed attempts: 1000 ms, 2000 ms, ... */
  function Backoff(n: nat): (w: seq<nat>)
    ensures |w| == n && forall j :: 0 <= j < n ==> w[j] == (j + 1) * BackoffUnitMs
  {
    seq(n, j => (j + 1) * BackoffUnitMs)
  }

  /**
   * The number of `fetch` calls of a request that is not served from the
   * cache: the loop stops at the first success, or after three failures.
   */
  function AttemptCount(attempt: nat -> FetchOutcome): (n: nat)
    ensures 1 <= n <= MaxAttempts
    ensures forall j :: 0 <= j < n - 1 ==> AttemptResult(attempt(j)).Err?
    ensures n < MaxAttempts ==> AttemptResult(attempt(n - 1)).Ok?
  {
    match FirstOk(Attempts(attempt))
    case Some(k) => k + 1
    case None => MaxAttempts
  }

  /**
   * What a request that is not served from the cache yields: the data of its
   * first successful attempt, or else the error of the third attempt.
   */
  function Fetched(attempt: nat -> FetchOutcome): (r: Result<Body>)
    ensures r.Ok? <==> exists k :: 0 <= k < MaxAttempts && AttemptResult(attempt(k)).Ok?
    ensures r.Ok? ==> forall j :: 0 <= j < AttemptCount(attempt) - 1 ==> AttemptResult(attempt(j)).Err?
    ensures r.Err? ==> r == AttemptResult(attempt(MaxAttempts - 1))
  {
    AttemptResult(attempt(AttemptCount(attempt) - 1))
  }

  /** A cache key is used only when it is truthy: present and not the empty string. */
  predicate HasKey(cacheKey: Option<string>) {
    cacheKey.Some? && cacheKey.value != ""
  }

  /** The short-circuit condition of `fetchWithCache`. */
  predicate CacheHit(albums: map<string, Body>, cacheKey: Option<string>, useCache: bool) {
    useCache && HasKey(cacheKey) && cacheKey.value in albums
  }

  /** What `fetchWithCache` returns or throws: the stored value on a cache hit, the fetched one otherwise. */
  function CachedFetch(albums: map<string, Body>, cacheKey: Option<string>, useCache: bool,
                       attempt: nat -> FetchOutcome): Result<Body>
  {
    if CacheHit(albums, cacheKey, useCache) then Ok(albums[cacheKey.value]) else Fetched(attempt)
  }

  /** `cache.albums` after a request that yielded `r`: data is stored under a truthy key. */
  function Stored(albums: map<string, Body>, cacheKey: Option<string>, r: Result<Body>): map<string, Body> {
    if r.Ok? && HasKey(cacheKey) then albums[cacheKey.value := r.value] else albums
  }

  /**
   * The promise of one `fetchWithCache(url, {}, cacheKey, useCache)` that
   * found `before` in `cache.albums` and left `after`: a cache hit makes no
   * fetch and changes nothing; otherwise the attempts run until the first
   * success, three at most, with a wait after every failure but the third,
   * and a success is stored under a truthy key whatever `useCache` says.
   */
  predicate FetchDone(before: map<string, Body>, cacheKey: Option<string>, useCache: bool,
                      attempt: nat -> FetchOutcome,
                      r: Result<Body>, attempts: nat, waits: seq<nat>, after: map<string, Body>)
  {
    && r == CachedFetch(before, cacheKey, useCache, attempt)
    && attempts == (if CacheHit(before, cacheKey, useCache) then 0 else AttemptCount(attempt))
    && waits == Backoff(if attempts == 0 then 0 else attempts - 1)
    && after == Stored(before, cacheKey, r)
  }

  /** The module-level `cache` object (its `images` map is never read or written). */
  class Cache {
    /** `cache.albums`: decoded bodies by cache key. */
    var albums: map<string, Body>
    /** `cache.thumbnails`: ids whose thumbnail has finished loading. */
    var thumbnails: set<string>

    constructor ()
      ensures albums == map[] && thumbnails == {}
    {
      albums := map[];
      thumbnails := {};
    }

    /** The `onload` of a preloaded thumbnail: its id joins `cache.thumbnails`. */
    method AddThumbnail(id: string)
      modifies this`thumbnails
      ensures thumbnails == old(thumbnails) + {id}
      ensures id in thumbnails
    {
      thumbnails := thumbnails + {id};
    }

    /**
     * `fetchWithCache(url, options, cacheKey, useCache)`. Returns the data or the
     * error thrown, the number of `fetch` calls made and the waits requested
     * between them.
     */
    method FetchWithCache(cacheKey: Option<string>, useCache: bool, attempt: nat -> FetchOutcome)
      returns (r: Result<Body>, attempts: nat, waits: seq<nat>)
      modifies this`albums
      ensures FetchDone(old(albums), cacheKey, useCache, attempt, r, attempts, waits, albums)
    {
      if useCache && HasKey(cacheKey) && cacheKey.value in albums {
        return Ok(albums[cacheKey.value]), 0, [];
      }
      ghost var os := Attempts(attempt);
      var retries := MaxAttempts;
      var lastError := "";
      attempts, waits := 0, [];
      while retries > 0
        invariant 0 <= retries <= MaxAttempts && attempts == MaxAttempts - retries
        invariant forall j :: 0 <= j < attempts ==> AttemptResult(os[j]).Err?
        invariant attempts > 0 ==> Err(lastError) == AttemptResult(attempt(attempts - 1))
        invariant waits == Backoff(if retries > 0 then attempts else attempts - 1)
        invariant albums == old(albums)
      {
        var res := AttemptResult(attempt(attempts));
        attempts := attempts + 1;
        if res.Ok? {
          if HasKey(cacheKey) {
            albums := albums[cacheKey.value := res.value];
          }
          assert FirstOk(os) == Some(attempts - 1);
          return res, attempts, waits;
        }
        lastError := res.error;
        retries := retries - 1;
        if retries > 0 {
          waits := waits + [(MaxAttempts - retries) * BackoffUnitMs];
        }
      }
      assert FirstOk(os) == None;
      r := Err(lastError);
    }

    /** `api.checkAlbum(albumId)`: cached under `album_<id>`, cache allowed. */
    method CheckAlbum(albumId: string, attempt: nat -> FetchOutcome)
      returns (r: Result<Body>, attempts: nat, waits: seq<nat>)
      modifies this`albums
      ensures FetchDone(old(albums), Some(AlbumKey(albumId)), true, attempt, r, attempts, waits, albums)
    {
      r, attempts, waits := FetchWithCache(Some(AlbumKey(albumId)), true, attempt);
    }

    /**
     * `api.getAlbumImages(albumId, forceRefresh)`: cached under
     * `album_images_<id>`; the cache is consulted unless `forceRefresh`.
     */
    method GetAlbumImages(albumId: string, forceRefresh: bool, attempt: nat -> FetchOutcome)
      returns (r: Result<Body>, attempts: nat, waits: seq<nat>)
      modifies this`albums
      ensures FetchDone(old(albums), Some(AlbumImagesKey(albumId)), !forceRefresh, attempt, r, attempts, waits, albums)
    {
      r, attempts, waits := FetchWithCache(Some(AlbumImagesKey(albumId)), !forceRefresh, attempt);
    }

    /**
     * `api.getAlbums()`: never served from the cache, yet its result is still
     * stored under `all_albums`.
     */
    method GetAlbums(attempt: nat -> FetchOutcome)
      returns (r: Result<Body>, attempts: nat, waits: seq<nat>)
      modifies this`albums
      ensures FetchDone(old(albums), Some(AlbumListKey), false, attempt, r, attempts, waits, albums)
      ensures 1 <= attempts <= MaxAttempts && r == Fetched(attempt)
      ensures albums == (if r.Ok? then old(albums)[AlbumListKey := r.value] else old(albums))
    {
      r, attempts, waits := FetchWithCache(Some(AlbumListKey), false, attempt);
    }
  }

  /** The cache key of an album's existence check. */
  function AlbumKey(albumId: string): string {
    "album_" + albumId
  }

  /** The cache key of the album list. */
  const AlbumListKey: string := "all_albums"

  /** The cache key of an album's image list. */
  function AlbumImagesKey(albumId: string): string {
    "album_images_" + albumId
  }

  /** The error of a 404 reply is recognised by `includes("404")`. */
  lemma NotFoundMessage()
    ensures Contains(HttpErrorMessage(404), "404")
  {
    assert NatToString(404) == "404";
    ContainsInfix("Erro HTTP: ", "404", "");
    assert HttpErrorMessage(404) == "Erro HTTP: " + "404" + "";
  }
}
