# Photo gallery client: a Dafny model

This project models the logic of the event-photography gallery client. It has
two parts.

- `script.js` runs in the browser. It lists the albums with a cover photo each,
  shows an album's thumbnails, lets the visitor select photos and download them
  as a zip. Its album, image-list and album-list requests go through
  `api.fetchWithCache`. That function makes up to three attempts and keeps
  successful replies in `cache.albums`. The cover look-up of `loadAlbums` is a
  single plain `fetch` with no retry, and the zip downloads go through the proxy.
- `indexar-albums.js` is a Node script. It asks the API to (re)index the faces
  of every album except the `FotosCapas` folder, one album at a time, and
  returns a report.

The model is written in Dafny. Every state the scripts change in place is a
class: the `cache` object (`FetchCache.Cache`) and the page `state` object
(`Gallery.AppState`). The computations in between are functions and lemmas.

The model's inputs stand in for the network and the DOM:

- The network is an oracle. `attempt(k)` is what the `k`-th `fetch` of a
  request yields. `covers(id)` is what fetching album `id`'s image list yields.
  `process(i)` is what the processing request for the `i`-th album yields.
  `fetched(p)` says whether the proxy `fetch` and `blob()` for position `p`
  resolve. There is no status check, so an error reply from the proxy still
  counts as fetched and is zipped.
- Each timer becomes a list of the waits it requests, in milliseconds.
- Each DOM check becomes a boolean parameter, such as "the page has
  `#image-gallery`".

JavaScript truthiness is written out:

- a cache key or album id that is missing or `""` is falsy;
- an `imageMap` name that is `""` falls back to the positional file name.

The modules follow the scripts:

| file | module | models |
|---|---|---|
| `wrappers.dfy` | `Wrappers` | `Option`, `Result` |
| `text.dfy` | `Text` | `toLowerCase`, `trim`, `startsWith`, `includes`, decimal rendering of numbers |
| `api_data.dfy` | `ApiData` | the JSON bodies of the API (images, folders) |
| `batching.dfy` | `Batching` | the `slice(i, i + n)` loops shared by preloading, album cards and downloads |
| `fetch_cache.dfy` | `FetchCache` | `cache`, `api.fetchWithCache`, `checkAlbum`, `getAlbumImages`, `getAlbums` |
| `gallery.dfy` | `Gallery` | `state`, `displayImages`, the selection toggle, `preloadImages`, select-all, `downloadSelectedImages` |
| `album_loading.dfy` | `AlbumLoading` | `checkAndLoadAlbum`, `refreshAlbum`, `loadAlbums` and its cover choice |
| `indexing.dfy` | `Indexing` | `apiRequest`, `indexarTodosAlbuns` |

`getAlbumImages` returns an album's whole image list in one reply. The comment at script.js:96 says "backoff exponencial", but the
code waits `(3 - retries) * 1000` ms, i.e. 1 s and then 2 s, a linear backoff.
The model states what the code does.

## Model

| member | source | states |
|---|---|---|
| `FetchCache.Cache.FetchWithCache` | script.js:64-104 | `FetchDone`: on a cache hit (cache allowed, key truthy and present) it returns the stored value with no fetch and no change. Otherwise it fetches until the first success, three times at most. The result is that attempt's data, or else the third attempt's error (non-2xx gives `Erro HTTP: <status>`). The waits are 1000 ms, 2000 ms, … after every failure except the third. A success is stored under a truthy key even when `useCache` is false, and nothing else changes. |
| `FetchCache.AttemptResult` | script.js:77-83 | One pass of the `try` block fails exactly unless the reply is 2xx and its body parses. A rejected `fetch` keeps its message, a non-2xx reply gives `Erro HTTP: <status>`, and a 2xx reply gives what `response.json()` yields. |
| `FetchCache.Cache.constructor` | script.js:7-11 | The `cache` object starts with no stored reply and no loaded thumbnail. |
| `FetchCache.FirstOk` | script.js:75-93 | Gives the index of the first attempt that succeeds: every earlier attempt fails. It gives none only when all attempts fail. |
| `FetchCache.AttemptCount` | script.js:72-101 | Between one and three attempts are made. Every attempt before the last one made failed, and fewer than three are made only when the last one made succeeded. |
| `FetchCache.Fetched` | script.js:72-103 | A request not served from the cache succeeds exactly when one of its three attempts succeeds. Every attempt before the successful one failed. On failure the third attempt's error is rethrown. |
| `FetchCache.Cache.AddThumbnail` | script.js:250-252 | The `onload` of a preloaded thumbnail adds exactly that id to `cache.thumbnails`. |
| `FetchCache.Cache.CheckAlbum` | script.js:107-114 | `FetchDone` under the key `album_<id>` with the cache allowed: served from the cache when present. Otherwise it keeps the retry behaviour above, and a success is stored. |
| `FetchCache.Cache.GetAlbumImages` | script.js:117-124 | `FetchDone` under `album_images_<id>`, with the cache allowed exactly when `forceRefresh` is false. A bypassed or missing entry is fetched with the retry behaviour above, and a success replaces the entry. |
| `FetchCache.Cache.GetAlbums` | script.js:127-134 | `FetchDone` under `all_albums` with the cache never used: one to three attempts, the result is `Fetched`, and a success is still stored under `all_albums`. |
| `FetchCache.NotFoundMessage` | script.js:79-81 | The error thrown for status 404 contains `404`. |
| `AlbumLoading.NotFoundReplyIsDeletion` | script.js:221-224 | When all three attempts get a 404 reply, the image-list request throws `Erro HTTP: 404`, which contains `404`. By `Refreshes`, a forced `refreshAlbum` then ends `NotFound` and sets `isAlbumDeleted`. |
| `AlbumLoading.CheckAndLoadAlbum` | script.js:158-179 | When the gallery is present, its message or loader first replaces every container. A falsy album id goes to the redirect with no request. The check is `checkAlbum`'s result. A failure redirects and leaves the cache as it was. A success stores the check's body, then runs exactly an unforced `refreshAlbum` (`Refreshes`) from that state. An album already in the cache always reaches the refresh. |
| `AlbumLoading.RefreshAlbum` | script.js:181-233 | `Refreshes`: if a refresh is in progress and this one is not forced, it is `Busy`. If the album was deleted, it is `AlbumGone`. Both change nothing. A falsy id or a missing gallery returns early, and only `isProcessing` is cleared. Otherwise `isProcessing` ends false and the image list comes from `getAlbumImages`. A non-empty `images` array gives `Shown` of that list, with the selection cleared, `imageMap` rebuilt and one container per image. Any other body gives `NoImages`. An error gives `NotFound` when its message contains `404`, and otherwise `LoadError`, each with that message. `isAlbumDeleted` latches and becomes set exactly on `NotFound`. On every outcome past the gallery check except `Shown`, no container is left and the selection and map are kept. |
| `AlbumLoading.FindCover` | script.js:561-563 | Gives the index of the first image whose lower-cased name starts with `fotocapa`: no earlier image qualifies. It gives none when no image does. |
| `AlbumLoading.CoverSrc` | script.js:560-575 | A failed image-list load shows the "Erro Capa" placeholder. A body with no `images` array shows "Sem Capa". Otherwise the cover is the first `fotocapa` image's thumbnail, and "Sem Capa" is shown exactly when there is none. |
| `AlbumLoading.CoverNameIgnoresCase` | script.js:562 | Any name whose first eight letters lower-case to `fotocapa` is a cover, whatever follows. |
| `AlbumLoading.FotoCapaIsCover` | script.js:562 | `FotoCapa…` names are covers. |
| `AlbumLoading.LoadAlbums` | script.js:482-615 | A load in progress makes it return with no change. A page without the album container returns early and leaves `isLoadingAlbums` latched true. Otherwise the flag ends false and the listing is `getAlbums`' result. An error gives `ListError` with its message and no cache change. A body without a non-empty `folders` array gives `NoAlbums`, with the body stored under `all_albums`. Otherwise it is `Listed`, with one card per folder in order, each with its id, name and cover. Each cover is chosen from the cached image list as it was when the cover step began, or else from a fresh fetch. Cards are appended five at a time with a 10 ms pause between slices. The cache is as `CoversStored` says. |
| `AlbumLoading.CoverFetchResult` | script.js:552-556 | The cover step's single `fetch` fails exactly unless the reply is 2xx and its body parses. A rejected `fetch` keeps its message, a non-2xx reply gives `Erro ao carregar imagens do álbum.`, and a 2xx reply gives the parsed body. |
| `AlbumLoading.CoverCards` | script.js:517-585 | One card per album, in order, each with the cover described above. `CoversStored`: every existing entry is kept. The list of every uncached album whose fetch succeeded is stored under its key, with the fetched value, and no other key is added. |
| `AlbumLoading.CoverCard` | script.js:546-580 | One album's card: its cover is taken from the cached list or from a fresh fetch. The cache changes only by storing a successfully fetched list under the album's key. |
| `AlbumLoading.AppendInBatches` | script.js:587-602 | The container receives every card once, in album order. There is one 10 ms pause between consecutive slices of five and none after the last. |
| `Gallery.AppState.constructor` | script.js:14-20 | The page `state` starts with an empty selection and `imageMap`, all three flags false and no container. |
| `Gallery.AppState.DisplayImages` | script.js:264-335 | On a page without `#image-gallery` changes nothing and preloads nothing. Otherwise clears the selection. Rebuilds `imageMap` from the images, the last name winning for a repeated id. Renders one unselected container per image showing either the thumbnail (when cached) or the placeholder. Starts preloading in slices of five. |
| `Gallery.Render` | script.js:278-331 | The `forEach` of `displayImages` builds `imageMap` equal to the name map of all images. Container `i` is image `i`, unselected, with the cached thumbnail or the placeholder as its source. |
| `Gallery.NameMapSpec` | script.js:269-279 | The map's keys are exactly the images' ids. Each id maps to the name of its last occurrence. |
| `Gallery.AppState.Toggle` | script.js:316-326 | A click not on the container or its circle changes nothing. Otherwise it flips the container's selection: a newly selected id is appended to `selectedImages` and a deselected id has all its occurrences removed. |
| `Gallery.RemoveAll` | script.js:324 | After the filter the id is absent, and every other element is kept. |
| `Gallery.RemoveAllAppend` | script.js:324 | The filter keeps the order of the ids it keeps: filtering a concatenation concatenates the filtered parts. |
| `Gallery.RemoveAllKeepsOthers` | script.js:324 | The filter keeps every other id as often as before. |
| `Gallery.AppState.ThumbnailLoaded` | script.js:299-305 | The real thumbnail's `onload` sets that container's source to the thumbnail URL and caches the id, leaving everything else unchanged. |
| `Gallery.AppState.DisplayMatchingImages` | script.js:429-441 | Without `#image-gallery` nothing changes. Otherwise the search-result view clears the gallery, `imageMap` and the selection. |
| `Gallery.UncachedSpec` | script.js:245-253 | An id is requested by preloading exactly when it belongs to some image and is not in `cache.thumbnails`. |
| `Gallery.PreloadImages` | script.js:236-261 | A zero batch size loads nothing. Otherwise the images are taken in slices of `batchSize` covering the list in order. Every image without a cached thumbnail is requested, in order. A 100 ms wait precedes every slice but the first. |
| `Gallery.ExtractIdFrom` | script.js:780 | A captured id is non-empty and free of `&`. |
| `Gallery.ExtractIdFromSpec` | script.js:780 | `/id=([^&]+)/` finds nothing exactly when no position starts `id=` followed by a character other than `&`. Otherwise it captures, after the leftmost such position, the longest run without `&` (`TakeId`). |
| `Gallery.ThumbnailUrlRoundTrip` | script.js:780 | The id extracted from a thumbnail URL (`THUMBNAIL_BASE_URL` plus the id) is the image's id, for every non-empty id without `&`. |
| `Gallery.PlaceholderHasNoId` | script.js:296 | The placeholder SVG source holds no `id=` match, so select-all finds no id in a container still showing it. |
| `Gallery.AppState.SelectAll` | script.js:771-786 | As written: the selection is cleared. Then each container not yet selected is marked selected, and its id is pushed when its source yields one. The final list is those ids in order. |
| `Gallery.NewlySelectedSpec` | script.js:773-785 | An id ends up in the as-written selection exactly when some previously unselected container's source yields that id. |
| `Gallery.SelectAllDropsSelected` | script.js:773-785 | A concrete page with containers `a` (already selected) and `b`: select-all leaves the list `["b"]`, while every container is shown selected. |
| `Gallery.AppState.SelectAllCorrected` | script.js:771-786 | Every container ends selected, and the selection lists the id of every container whose source yields one, in page order. |
| `Gallery.ShownIdsLoaded` | script.js:771-786 | When every container shows its thumbnail, the corrected select-all selects exactly all images' ids, in page order. |
| `Gallery.FallbackIsOneBased` | script.js:657-659 | An id without a non-empty `imageMap` name is saved as `imagem_`, then digits, then `.jpg`. The digits read back as the image's 1-based position. |
| `Gallery.FallbackNamesDistinct` | script.js:657-659 | Two different positions whose ids have no name never get the same zip file name. |
| `Gallery.EntriesAllFetched` | script.js:644-661 | When every download succeeds, the zip holds one entry per selected id, in order. Each is named by its `imageMap` name plus `.jpg`, or `imagem_<position + 1>.jpg` when the name is missing or empty. |
| `Gallery.FetchedPositions` | script.js:646-671 | The positions whose download resolved, in increasing order: every such position below `k` is listed, and only those. |
| `Gallery.EntriesFetched` | script.js:646-671 | The zip holds exactly the downloads that resolved, in selection order. There is one entry per such position, and the `j`-th entry is the `j`-th such position's id, named for that position. |
| `Gallery.ZipBatch` | script.js:645-672 | One slice of downloads adds the entries of exactly its positions, and `completed` grows by the number of entries added. |
| `Gallery.DownloadSelectedImages` | script.js:618-678 | An empty selection and a missing JSZip each stop it before any download. Otherwise the zip holds the entries of all successful downloads in selection order and `completed` counts them. There is one 300 ms pause between consecutive slices of three and none after the last. |
| `Batching.BatchesPartition` | script.js:589-590 | The slices `slice(i, i + n)` for `i = 0, n, 2n, …`, concatenated, give back the whole list. |
| `Batching.BatchesBounded` | script.js:240 | Every slice holds between 1 and `n` elements. |
| `Batching.BatchesFull` | script.js:644-645 | Every slice but the last holds exactly `n` elements. |
| `Batching.BatchesCount` | script.js:644-645 | There are ⌈len / n⌉ slices: `n` times the count covers the list, and one slice fewer does not. |
| `Batching.BatchesStep` | script.js:240-241 | Slicing from `i` is the slice `i .. min(i + n, len)` followed by slicing from its end. |
| `Indexing.ApiRequest` | indexar-albums.js:5-34 | Succeeds exactly on a 2xx reply whose body parses. A timeout or an `AbortError` gives `Requisição cancelada por timeout`. Any other thrown error keeps its message. A non-2xx reply gives `API Error: <status> - <statusText>`, which contains the status in decimal. |
| `Text.NatToStringRoundTrip` | indexar-albums.js:21 | The decimal rendering of a status code reads back as that number. |
| `Text.TrimSpec` | indexar-albums.js:51 | `trim()` removes leading and trailing whitespace only: the result is a contiguous part of the input whose two ends are not whitespace, with only whitespace around it. |
| `Text.TrimPadding` | indexar-albums.js:51 | Whitespace around a text with non-whitespace ends is removed by `trim()`, and the text itself is kept. |
| `Indexing.AlbumsToIndex` | indexar-albums.js:50-52 | The albums to index are exactly the folders whose trimmed lower-cased name is not `fotoscapas`. |
| `Indexing.AlbumsToIndexAppend` | indexar-albums.js:50-52 | The filter keeps the folders' order: filtering a concatenation concatenates the filtered parts. |
| `Indexing.CoverFolderPadding` | indexar-albums.js:50-52 | A folder named like `fotoscapas` surrounded by whitespace is removed. |
| `Indexing.FotosCapasIsFiltered` | indexar-albums.js:49-52 | `FotosCapas`, with any surrounding whitespace, is never indexed. |
| `Indexing.IndexAll` | indexar-albums.js:36-168 | A failing folder request rethrows its error. A body without a `folders` array gives the invalid-format error. In both cases no album is processed. Otherwise the report covers the filtered albums (an empty filter gives `{0, 0, 0, []}`). There is one processing request per album in order, and a failing album does not stop the run. |
| `Indexing.IndexAlbums` | indexar-albums.js:64-118 | One `POST /albums/<id>/process-images` per album, in order, with a 5000 ms wait between albums and none after the last. One record per album with its id and name, `success` exactly when its request succeeded and otherwise its error message. `sucessos` counts the successes, and `sucessos + erros` equals `total`, which equals the number of albums. |
| `Indexing.IndexOne` | indexar-albums.js:78-111 | The record of one album is a success exactly when its request succeeds. Otherwise it carries the error's message. |

## Left out

- DOM construction, CSS, messages, loaders, alerts and the redirects to
  `index.html`. Each DOM presence check is a boolean input.
- `utils.debounce`: `AlbumLoading.LoadAlbums` models one run of the debounced body. The
  300 ms coalescing of calls is timing and is not modelled.
- Real `fetch`, `AbortController`, `setTimeout` and `Date`. Every timer becomes
  the list of waits it asks for. Elapsed times (`tempo`), the success
  percentage and the time stamps of the report are not modelled.
- Interleaving of asynchronous calls. Each modelled call runs to completion
  before the next starts. A second `refreshAlbum(…, true)` landing while one is
  awaiting, or a select-all while `refreshAlbum` awaits `getAlbumImages`, is not
  captured.
- `Promise.all` order: the cover fetches of `loadAlbums` and the downloads of a
  slice are modelled one after the other, in list order. This matches the
  resulting card order, file names and positions. Within one slice of
  downloads, JSZip receives the files in the order the downloads complete, and
  that insertion order is not modelled: "in selection order" speaks of names
  and positions only. The cover step's cache reads all use the
  cache as it was before the step, since every `has` check runs before any
  fetch completes.
- AlbumLoading.LoadAlbums: `covers(id)` gives the same outcome for every folder
  with that id. Two fetches of one album that return different lists, and the
  order in which their cache writes land, are not modelled.
- Gallery.PreloadImages: every slice is checked against the thumbnail set as it was
  when preloading started. A thumbnail whose `onload` fires during a 100 ms wait
  and would make a later slice skip it is not seen, so `requested` may list
  more ids than the browser fetches.
- `uploadSelfie`, `compressImage`, `api.uploadSelfie` and the rest of the
  search-result rendering: those are network, canvas and DOM work. Only the
  state reset of `displayMatchingImages` is modelled.
- The JSZip archive generation and the blob download after the slices. A zip
  entry records the file name and the image id, and a repeated file name
  (which JSZip replaces) is kept as two entries.
- `toLowerCase` is modelled on ASCII letters only. This is exact for the
  comparisons with `fotocapa` and `fotoscapas`, which are ASCII. Non-ASCII
  names are compared as they are.
- JSON bodies are reduced to the fields used: `images` (id, name) and `folders`
  (id, name). A body of `null` makes `data.images`, `data.folders` or
  `imagesData.images` throw a `TypeError`; a `Body` cannot be `null`, so that
  error path is not modelled. A name that is not a string, which would make `toLowerCase`
  throw, is not modelled.
- JavaScript object-prototype keys in `imageMap` (an id such as `constructor`)
  are not modelled; the map is a plain Dafny map.
- Event handlers and element identity are not part of the model's state. So
  three losses are not captured. `gallery.innerHTML +=` in
  `downloadSelectedImages` re-parses the gallery, which drops every
  container's click handler. It also detaches the old `<img>` elements, so a
  thumbnail `onload` that fires after a download began sets `src` on a
  detached element, and only `cache.thumbnails` gains the id. That container
  keeps its placeholder until the next render, and select-all finds no id in
  it. Third, `cloneNode(true)` in `loadAlbums` drops the album cards' click
  handlers.
- Gallery.AppState.ThumbnailLoaded: models only an `onload` that fires before any
  download has started; see the line above.
- `img.src` is taken to be the string assigned. A browser returns the parsed
  URL, which percent-encodes unsafe characters. This is exact for Drive ids,
  which are URL-safe.
- `cache.images` is declared in `script.js` but never used, and is not
  modelled.
- `server.js`, the proxy, and the command-line entry point around
  `indexarTodosAlbuns` (its `process.exit`) are not part of this model.

## Findings

| source | as written | input that shows it | evidently intended | confidence | as-written member | corrected member |
|---|---|---|---|---|---|---|
| script.js:773-785 | Select-all empties `state.selectedImages` and then pushes ids only for containers not already marked selected, although it leaves every container marked selected. | Two containers showing the thumbnails of `a` (already selected) and `b` (not selected): the list becomes `["b"]` while both are shown selected, so a download then skips `a`. | Every shown image is selected: `["a", "b"]`. | not executed | `Gallery.SelectAllDropsSelected` | `Gallery.AppState.SelectAllCorrected` |
