/**
 * The handler that serves the web pages compiled into the firmware: it maps a request
 * path to an entry of the static-file table (`canHandle`), then answers it with the
 * file, an HTTP 304 when the client's cached copy is current, an authentication
 * challenge or a 404 (`handleRequest`).
 */
module WebServerStatic {
  import opened Wrappers
  import opened Http

  const HOME_PAGE := "/home.html"
  const WIFI_PAGE := "/wifi_portal.html"

  const CACHE_CONTROL := Header("Cache-Control", "public, max-age=30, must-revalidate")
  const CONNECTION_CLOSE := Header("Connection", "close")
  const ALLOW_ANY_ORIGIN := Header("Access-Control-Allow-Origin", "*")

  /** What `handleRequest` sends. */
  datatype Response =
    | RequestAuthentication
    | Reply(code: nat, contentType: string, body: seq<bv8>, headers: seq<Header>)
    | Status(code: nat)

  /** The path looked up for a URL: "/" stands for the portal page in access-point-only mode, the home page otherwise. */
  function ResolvePath(url: string, apOnly: bool): (path: string)
    ensures url == "/" ==> path == (if apOnly then WIFI_PAGE else HOME_PAGE)
    ensures url != "/" ==> path == url
    ensures path != "/"
  {
    if url == "/" then (if apOnly then WIFI_PAGE else HOME_PAGE) else url
  }

  /** The index of the first entry of `table` named `path`, if any. */
  function FirstMatch(table: seq<StaticFile>, path: string): (r: Option<nat>)
    ensures r.Some? <==> exists i :: 0 <= i < |table| && table[i].filename == path
    ensures r.Some? ==> r.value < |table| && table[r.value].filename == path
    ensures r.Some? ==> forall j :: 0 <= j < r.value ==> table[j].filename != path
  {
    if table == [] then None
    else if table[0].filename == path then Some(0)
    else match FirstMatch(table[1..], path)
      case None => None
      case Some(k) => Some(k + 1)
  }

  /** The `StaticFile *` variable whose address `canHandle` hands to `_getFile`. */
  class FileSlot {
    var file: Option<StaticFile>

    constructor ()
      ensures file == None
    {
      file := None;
    }
  }

  /**
   * `_getFile`: resolve the request's path and search the table linearly; on a match,
   * write the entry through `out` when it is not null and report success.
   */
  method GetFile(request: Request, table: seq<StaticFile>, apOnly: bool, out: FileSlot?) returns (found: bool)
    modifies out
    ensures var m := FirstMatch(table, ResolvePath(request.url, apOnly));
      && (found <==> m.Some?)
      && (out != null && found ==> out.file == Some(table[m.value]))
      && (out != null && !found ==> out.file == old(out.file))
  {
    var path := request.url;
    if path == "/" {
      path := if apOnly then WIFI_PAGE else HOME_PAGE;
    }
    var i := 0;
    while i < |table|
      invariant 0 <= i <= |table|
      invariant forall j :: 0 <= j < i ==> table[j].filename != path
      invariant out != null ==> out.file == old(out.file)
    {
      if path == table[i].filename {
        if out != null {
          out.file := Some(table[i]);
        }
        return true;
      }
      i := i + 1;
    }
    return false;
  }

  /** `canHandle`: accept GET requests whose path is in the table, stashing the entry in `_tempObject`. */
  method CanHandle(request: Request, table: seq<StaticFile>, apOnly: bool) returns (accepted: bool)
    modifies request
    ensures var m := FirstMatch(table, ResolvePath(request.url, apOnly));
      && (accepted <==> request.verb == GET && m.Some?)
      && (accepted ==> request.tempObject == FileEntry(table[m.value]))
      && (!accepted ==> request.tempObject == old(request.tempObject))
  {
    var slot := new FileSlot();
    if request.verb == GET {
      var found := GetFile(request, table, apOnly, slot);
      if found {
        request.tempObject := FileEntry(slot.file.value);
        return true;
      }
    }
    return false;
  }

  /** The answer for a file: 304 with no body when the client's tag matches, the whole file otherwise. */
  function FileReply(file: StaticFile, ifNoneMatch: Option<string>, enableCors: bool): (r: Response)
    ensures r.Reply? && r.contentType == file.contentType
    ensures r.code == 304 <==> ifNoneMatch == Some(file.etag)
    ensures r.code == 304 ==> r.body == [] && r.headers == [CACHE_CONTROL]
    ensures r.code != 304 ==> r.code == 200 && r.body == file.data
    ensures r.code != 304 ==> Header("Etag", file.etag) in r.headers && CACHE_CONTROL in r.headers
    ensures r.code != 304 ==> (ALLOW_ANY_ORIGIN in r.headers <==> enableCors)
    ensures r.code != 304 ==> CONNECTION_CLOSE in r.headers
    ensures r.code != 304 ==>
      forall h :: h in r.headers ==> h in {CONNECTION_CLOSE, ALLOW_ANY_ORIGIN, CACHE_CONTROL, Header("Etag", file.etag)}
  {
    if ifNoneMatch == Some(file.etag) then
      Reply(304, file.contentType, [], [CACHE_CONTROL])
    else
      var cors := if enableCors then [ALLOW_ANY_ORIGIN] else [];
      Reply(200, file.contentType, file.data, [CONNECTION_CLOSE] + cors + [CACHE_CONTROL, Header("Etag", file.etag)])
  }

  /** The answer of `handleRequest`, given the entry `canHandle` stashed (if any). */
  function StaticReply(stashed: Option<StaticFile>, ifNoneMatch: Option<string>, authRequired: bool, enableCors: bool): (r: Response)
    ensures r == RequestAuthentication <==> authRequired
    ensures !authRequired && stashed.None? ==> r == Status(404)
    ensures !authRequired && stashed.Some? ==> r.Reply? && r.code in {200, 304}
    ensures !authRequired && stashed.Some? ==> r == FileReply(stashed.value, ifNoneMatch, enableCors)
  {
    if authRequired then RequestAuthentication
    else match stashed
      case None => Status(404)
      case Some(file) => FileReply(file, ifNoneMatch, enableCors)
  }

  /**
   * `handleRequest`: challenge unauthenticated requests (leaving `_tempObject` as it is),
   * otherwise clear the stashed entry and answer with it, or with 404 when there is none.
   * `authenticated` is what `request->authenticate` answers for the configured credentials.
   */
  method HandleRequest(request: Request, apOnly: bool, username: string, authenticated: bool, enableCors: bool)
    returns (r: Response)
    requires !request.tempObject.BodyBuffer?
    modifies request
    ensures var stashed := if old(request.tempObject).FileEntry? then Some(old(request.tempObject).file) else None;
      r == StaticReply(stashed, request.ifNoneMatch, AuthRequired(apOnly, username, authenticated), enableCors)
    ensures request.tempObject == (if r == RequestAuthentication then old(request.tempObject) else NoObject)
  {
    if !apOnly && username != "" && !authenticated {
      return RequestAuthentication;
    }
    match request.tempObject
    case FileEntry(file) =>
      request.tempObject := NoObject;
      if request.ifNoneMatch == Some(file.etag) {
        return Reply(304, file.contentType, [], [CACHE_CONTROL]);
      }
      var headers := [CONNECTION_CLOSE];
      if enableCors {
        headers := headers + [ALLOW_ANY_ORIGIN];
      }
      headers := headers + [CACHE_CONTROL];
      headers := headers + [Header("Etag", file.etag)];
      return Reply(200, file.contentType, file.data, headers);
    case NoObject =>
      return Status(404);
  }

  /**
   * A GET request as the server runs it through this handler: `canHandle` decides whether
   * the handler takes it, and `handleRequest` answers a taken one with the first entry
   * of the table whose name is the resolved path.
   */
  method ServeStatic(table: seq<StaticFile>, url: string, ifNoneMatch: Option<string>,
                     apOnly: bool, username: string, authenticated: bool, enableCors: bool)
    returns (accepted: bool, r: Response)
    ensures var m := FirstMatch(table, ResolvePath(url, apOnly));
      && (accepted <==> m.Some?)
      && (accepted ==> r == StaticReply(Some(table[m.value]), ifNoneMatch,
                                        AuthRequired(apOnly, username, authenticated), enableCors))
  {
    var request := new Request(GET, url, map[], map[], ifNoneMatch);
    accepted := CanHandle(request, table, apOnly);
    r := Status(404);
    if accepted {
      r := HandleRequest(request, apOnly, username, authenticated, enableCors);
    }
  }
}
