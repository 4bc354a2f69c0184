/**
 * What the request handlers see of the asynchronous web server library: the HTTP
 * method, the request with its arguments and its `_tempObject` slot, and the
 * authentication gate both the static-file handler and the API handlers apply.
 */
module Http {
  import opened Wrappers

  datatype Method = GET | POST | DELETE | PUT | PATCH | HEAD | OPTIONS

  datatype Header = Header(name: string, value: string)

  /** An entry of the table of files compiled into the firmware; `data` holds its `length` bytes. */
  datatype StaticFile = StaticFile(filename: string, data: seq<bv8>, contentType: string, etag: string)

  /**
   * The request's `_tempObject` pointer: empty, the table entry the static handler
   * stashed in `canHandle`, or the body buffer `handleBody` allocated.
   */
  datatype TempObject = NoObject | FileEntry(file: StaticFile) | BodyBuffer(buf: array<bv8>)

  class Request {
    /** The HTTP method (`request->method()`). */
    const verb: Method
    const url: string
    /** The parameters of the query string (`hasParam(name)` with its defaults): name to value. */
    const query: map<string, string>
    /**
     * All the request's arguments, from the query string and from a form body (`hasArg`,
     * `arg`): name to the value of the first parameter of that name, a query parameter
     * when there is one.
     */
    const args: map<string, string>
    /** The value of the `If-None-Match` header, if the request has one. */
    const ifNoneMatch: Option<string>
    var tempObject: TempObject

    constructor (verb: Method, url: string, query: map<string, string>, args: map<string, string>,
                 ifNoneMatch: Option<string>)
      ensures this.verb == verb && this.url == url && this.query == query && this.args == args
      ensures this.ifNoneMatch == ifNoneMatch
      ensures tempObject == NoObject
    {
      this.verb := verb;
      this.url := url;
      this.query := query;
      this.args := args;
      this.ifNoneMatch := ifNoneMatch;
      tempObject := NoObject;
    }
  }

  /**
   * The request must be answered with an authentication challenge: the station is not
   * in access-point-only mode, a user name is configured and the credentials the
   * request carries do not check out.
   */
  predicate AuthRequired(apOnly: bool, username: string, authenticated: bool)
    ensures apOnly ==> !AuthRequired(apOnly, username, authenticated)
    ensures username == "" ==> !AuthRequired(apOnly, username, authenticated)
    ensures authenticated ==> !AuthRequired(apOnly, username, authenticated)
    ensures !apOnly && username != "" && !authenticated ==> AuthRequired(apOnly, username, authenticated)
  {
    !apOnly && username != "" && !authenticated
  }
}
