/**
 * The bulk indexing script: `apiRequest` (error mapping of one request with a
 * two-minute abort timer) and `indexarTodosAlbuns` (lists the folders, drops
 * the covers folder and asks the server to process each album in turn).
 */
module Indexing {
  import opened Wrappers
  import opened Text
  import opened ApiData

  /** The wait between two albums, in milliseconds. */
  const AlbumWaitMs: nat := 5000

  const TimeoutMessage: string := "Requisição cancelada por timeout"
  const InvalidFormatMessage: string := "Formato de resposta inválido - folders não é um array"

  /** What one `fetch` of `apiRequest` does. */
  datatype RequestOutcome =
    | TimedOut                                              // the 120000 ms abort timer fires first
    | Thrown(name: string, message: string)                 // `fetch` rejects with this error
    | Replied(status: nat, statusText: string, json: Result<Body>)

  /** The message thrown for a reply whose status is not 2xx. */
  function ApiErrorMessage(status: nat, statusText: string): string {
    "API Error: " + NatToString(status) + " - " + statusText
  }

  /** `apiRequest(endpoint, options)`: the decoded body, or the error it throws. */
  function ApiRequest(o: RequestOutcome): (r: Result<Body>)
    ensures r.Ok? <==> o.Replied? && IsOk(o.status) && o.json.Ok?
    ensures o.TimedOut? || (o.Thrown? && o.name == "AbortError") ==> r == Err(TimeoutMessage)
    ensures o.Thrown? && o.name != "AbortError" ==> r == Err(o.message)
    ensures o.Replied? && !IsOk(o.status) ==>
      r == Err(ApiErrorMessage(o.status, o.statusText)) && Contains(r.error, NatToString(o.status))
  {
    match o
    case TimedOut => Err(TimeoutMessage)
    case Thrown(name, message) => if name == "AbortError" then Err(TimeoutMessage) else Err(message)
    case Replied(status, statusText, json) =>
      if !IsOk(status) then
        ContainsInfix("API Error: ", NatToString(status), " - " + statusText);
        assert ApiErrorMessage(status, statusText) == "API Error: " + NatToString(status) + (" - " + statusText);
        Err(ApiErrorMessage(status, statusText))
      else json
  }

  // ---------------------------------------------------------------------------
  // Which folders are indexed

  /** The covers folder: `album.name.trim().toLowerCase() === "fotoscapas"`. */
  predicate IsCoverFolder(f: Folder) {
    Lower(Trim(f.name)) == "fotoscapas"
  }

  /** `data.folders.filter(album => !IsCoverFolder(album))`. */
  function AlbumsToIndex(folders: seq<Folder>): (r: seq<Folder>)
    ensures |r| <= |folders|
    ensures forall f :: f in r <==> f in folders && !IsCoverFolder(f)
  {
    if folders == [] then []
    else (if IsCoverFolder(folders[0]) then [] else [folders[0]]) + AlbumsToIndex(folders[1..])
  }

  /** The filter keeps the original order: it distributes over concatenation. */
  lemma {:induction false} AlbumsToIndexAppend(a: seq<Folder>, b: seq<Folder>)
    ensures AlbumsToIndex(a + b) == AlbumsToIndex(a) + AlbumsToIndex(b)
  {
    if a == [] {
      assert a + b == b;
    } else {
      assert (a + b)[1..] == a[1..] + b;
      AlbumsToIndexAppend(a[1..], b);
    }
  }

  /** Letter case and surrounding white space do not save the covers folder from the filter. */
  lemma CoverFolderPadding(id: string, w1: string, t: string, w2: string)
    requires AllSpace(w1) && AllSpace(w2)
    requires Lower(t) == "fotoscapas"
    ensures IsCoverFolder(Folder(id, w1 + t + w2))
  {
    assert !IsJsSpace(t[0]) && !IsJsSpace(t[|t| - 1]) by {
      LowerAt(t, 0);
      LowerAt(t, |t| - 1);
    }
    TrimPadding(w1, t, w2);
  }

  /** The folder as it is named on the drive is filtered out, however it is padded. */
  lemma FotosCapasIsFiltered(id: string, w1: string, w2: string)
    requires AllSpace(w1) && AllSpace(w2)
    ensures IsCoverFolder(Folder(id, w1 + "FotosCapas" + w2))
    ensures AlbumsToIndex([Folder(id, w1 + "FotosCapas" + w2)]) == []
  {
    assert Lower("FotosCapas") == "fotoscapas";
    CoverFolderPadding(id, w1, "FotosCapas", w2);
  }

  // ---------------------------------------------------------------------------
  // The indexing run

  function ProcessEndpoint(albumId: string): string {
    "/albums/" + albumId + "/process-images"
  }

  datatype IndexStatus = Indexed | IndexFailed(error: string)

  /** One entry of `resultados` (the elapsed time is not modelled). */
  datatype AlbumResult = AlbumResult(id: string, name: string, status: IndexStatus)

  /** The report the run returns (the success rate and time stamps are not modelled). */
  datatype Report = Report(total: nat, sucessos: nat, erros: nat, albums: seq<AlbumResult>)

  /**
   * The record of one album: its id and name, `success` exactly when its
   * request did not throw, and otherwise the message of the error.
   */
  predicate RecordFor(rec: AlbumResult, album: Folder, o: RequestOutcome) {
    && rec.id == album.id && rec.name == album.name
    && (rec.status.Indexed? <==> ApiRequest(o).Ok?)
    && (ApiRequest(o).Err? ==> rec.status == IndexFailed(ApiRequest(o).error))
  }

  /** The number of records with status `success`. */
  function Successes(rs: seq<AlbumResult>): (n: nat)
    ensures n <= |rs|
  {
    if rs == [] then 0 else Successes(rs[..|rs| - 1]) + (if rs[|rs| - 1].status.Indexed? then 1 else 0)
  }

  /**
   * `indexarTodosAlbuns()`. `listing` is what the request for the folder list
   * does; `process(i)` is what the processing request for the `i`-th album to
   * index does. Returns the report or the error rethrown, the processing
   * requests issued in order, and the waits between albums.
   */
  method IndexAll(listing: RequestOutcome, process: nat -> RequestOutcome)
    returns (r: Result<Report>, posts: seq<string>, waits: seq<nat>)
    ensures ApiRequest(listing).Err? ==> r == Err(ApiRequest(listing).error) && posts == [] && waits == []
    ensures ApiRequest(listing).Ok? && ApiRequest(listing).value.folders.None? ==>
      r == Err(InvalidFormatMessage) && posts == [] && waits == []
    ensures ApiRequest(listing).Ok? && ApiRequest(listing).value.folders.Some? ==>
      r.Ok? && RunOver(AlbumsToIndex(ApiRequest(listing).value.folders.value), process, r.value, posts, waits)
  {
    posts, waits := [], [];
    var data := ApiRequest(listing);
    if data.Err? {
      return Err(data.error), posts, waits;
    }
    if data.value.folders.None? {
      return Err(InvalidFormatMessage), posts, waits;
    }
    var albums := AlbumsToIndex(data.value.folders.value);
    if |albums| == 0 {
      return Ok(Report(0, 0, 0, [])), posts, waits;
    }
    var report;
    report, posts, waits := IndexAlbums(albums, process);
    r := Ok(report);
  }

  /**
   * What a run over `albums` promises: one processing request per album in
   * list order, a wait between two albums and none after the last, one record
   * per album in order, and tallies that add up.
   */
  predicate RunOver(albums: seq<Folder>, process: nat -> RequestOutcome, report: Report,
                    posts: seq<string>, waits: seq<nat>)
  {
    && |posts| == |albums|
    && (forall i :: 0 <= i < |albums| ==> posts[i] == ProcessEndpoint(albums[i].id))
    && |waits| == (if albums == [] then 0 else |albums| - 1)
    && (forall j :: 0 <= j < |waits| ==> waits[j] == AlbumWaitMs)
    && report.total == |albums| == |report.albums|
    && report.sucessos == Successes(report.albums)
    && report.sucessos + report.erros == report.total
    && forall i :: 0 <= i < |albums| ==> RecordFor(report.albums[i], albums[i], process(i))
  }

  /** The `try`/`catch` around one album's processing request. */
  method IndexOne(album: Folder, o: RequestOutcome) returns (record: AlbumResult)
    ensures RecordFor(record, album, o)
  {
    var res := ApiRequest(o);
    if res.Ok? {
      record := AlbumResult(album.id, album.name, Indexed);
    } else {
      record := AlbumResult(album.id, album.name, IndexFailed(res.error));
    }
  }

  /** The `for` loop of `indexarTodosAlbuns` over the albums to index. */
  method IndexAlbums(albums: seq<Folder>, process: nat -> RequestOutcome)
    returns (report: Report, posts: seq<string>, waits: seq<nat>)
    ensures RunOver(albums, process, report, posts, waits)
  {
    posts, waits := [], [];
    var sucessos, erros := 0, 0;
    var resultados: seq<AlbumResult> := [];
    var i := 0;
    while i < |albums|
      invariant i <= |albums|
      invariant |resultados| == i && |posts| == i
      invariant sucessos == Successes(resultados) && sucessos + erros == i
      invariant forall k :: 0 <= k < i ==> posts[k] == ProcessEndpoint(albums[k].id)
      invariant forall k :: 0 <= k < i ==> RecordFor(resultados[k], albums[k], process(k))
      invariant |waits| == (if i == |albums| && i > 0 then i - 1 else i)
      invariant forall j :: 0 <= j < |waits| ==> waits[j] == AlbumWaitMs
    {
      var album := albums[i];
      posts := posts + [ProcessEndpoint(album.id)];
      var record := IndexOne(album, process(i));
      if record.status.Indexed? {
        sucessos := sucessos + 1;
      } else {
        erros := erros + 1;
      }
      assert (resultados + [record])[..i] == resultados;
      resultados := resultados + [record];
      if i < |albums| - 1 {
        waits := waits + [AlbumWaitMs];
      }
      i := i + 1;
    }
    report := Report(|albums|, sucessos, erros, resultados);
  }
}
