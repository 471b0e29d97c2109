/**
 * The HTTP client of src/utils/api.js: durable key-value storage, the header maps, and the
 * request interceptor that attaches the stored bearer token to every outgoing request.
 */
module Api {
  import opened Wrappers

  /** The browser's durable key-value storage. */
  type Storage = map<string, string>

  /** A set of HTTP headers, by name. */
  type Headers = map<string, string>

  const TokenKey := "token"
  const UserInfoKey := "userInfo"
  const AuthorizationHeader := "Authorization"

  /** The stored token as a truthiness test reads it: a missing key and an empty value are both no token. */
  function StoredToken(storage: Storage): Option<string> {
    if TokenKey in storage && storage[TokenKey] != "" then Some(storage[TokenKey]) else None
  }

  function Bearer(token: string): string {
    "Bearer " + token
  }

  /** What the interceptor makes of a request's headers, given the storage at the time of the request. */
  function AuthorizeHeaders(storage: Storage, headers: Headers): (r: Headers)
    ensures StoredToken(storage).Some? ==>
              AuthorizationHeader in r && r[AuthorizationHeader] == Bearer(StoredToken(storage).value)
    ensures StoredToken(storage).None? ==> r == headers
    ensures forall name :: name != AuthorizationHeader ==> (name in r <==> name in headers)
    ensures forall name :: name != AuthorizationHeader && name in r ==> r[name] == headers[name]
  {
    match StoredToken(storage)
    case Some(token) => headers[AuthorizationHeader := Bearer(token)]
    case None => headers
  }

  /** An outgoing request, which the interceptor changes in place. */
  class Request {
    var url: string
    var verb: string
    var headers: Headers
    var body: string

    constructor (url: string, verb: string, headers: Headers, body: string)
      ensures this.url == url && this.verb == verb && this.headers == headers && this.body == body
    {
      this.url := url;
      this.verb := verb;
      this.headers := headers;
      this.body := body;
    }
  }

  /**
   * The request interceptor: re-reads the token from storage and, when there is one, overwrites the
   * request's Authorization header with it; the request itself is handed back with nothing else changed.
   */
  method Intercept(storage: Storage, req: Request) returns (r: Request)
    modifies req`headers
    ensures r == req
    ensures req.headers == AuthorizeHeaders(storage, old(req.headers))
  {
    var token := StoredToken(storage);
    if token.Some? {
      req.headers := req.headers[AuthorizationHeader := Bearer(token.value)];
    }
    r := req;
  }
}
