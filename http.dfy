/**
 * The HTTP layer the clients are written against, reduced to what they use:
 * a request (host, bearer token, path, query), a decoded JSON body, the
 * errors that reach the core, and a client object holding a settable token.
 * Sending a request is a function value (`Transport`), so the network itself
 * stays outside the model.
 */
module Http {
  import opened Wrappers

  /** A JSON object whose members the core reads as strings. */
  type Fields = map<string, string>

  /**
   * A decoded response body: its top-level members holding arrays of
   * objects, and its top-level string members.
   */
  datatype Body = Body(arrays: map<string, seq<Fields>>, strings: map<string, string>)

  /** The exceptions that reach the core. */
  datatype Error =
    | HttpError(status: int)       // a non-2xx response, raised by the HTTP client
    | KeyError(key: string)        // `d[key]` on a dict without that key
    | ValueError(message: string)  // raised by the listing code itself

  /** HTTPStatus.FORBIDDEN */
  const Forbidden: int := 403

  /** `body.get(key, [])` */
  function GetArray(body: Body, key: string): seq<Fields>
  {
    if key in body.arrays then body.arrays[key] else []
  }

  /** `body[key]`, which raises KeyError when the member is missing */
  function IndexArray(body: Body, key: string): Result<seq<Fields>, Error>
  {
    if key in body.arrays then Success(body.arrays[key]) else Failure(KeyError(key))
  }

  /** `body.get(key)` */
  function GetString(body: Body, key: string): Option<string>
  {
    if key in body.strings then Some(body.strings[key]) else None
  }

  /** `obj[key]`, which raises KeyError when the member is missing */
  function Field(obj: Fields, key: string): Result<string, Error>
  {
    if key in obj then Success(obj[key]) else Failure(KeyError(key))
  }

  datatype Request = Request(
    scheme: string,
    host: string,
    port: int,
    apiBase: string,
    authToken: Option<string>,
    path: string,
    query: map<string, string>)

  /** One GET: the decoded body, or the error the HTTP client raises. */
  type Transport = Request -> Result<Body, Error>

  /** The asynchronous HTTP client: a fixed endpoint and a bearer token that can be set. */
  class HttpClient {
    const scheme: string
    const host: string
    const port: int
    const apiBase: string
    var authToken: Option<string>

    constructor (host: string, port: int, scheme: string, apiBase: string)
      ensures this.host == host && this.port == port && this.scheme == scheme && this.apiBase == apiBase
      ensures authToken == None
    {
      this.host := host;
      this.port := port;
      this.scheme := scheme;
      this.apiBase := apiBase;
      authToken := None;
    }

    method SetAuthToken(token: string)
      modifies this
      ensures authToken == Some(token)
    {
      authToken := Some(token);
    }

    /** The GET this client sends for `path` and `query`, carrying its current token. */
    function RequestFor(path: string, query: map<string, string>): Request
      reads this
    {
      Request(scheme, host, port, apiBase, authToken, path, query)
    }
  }
}
