/** The HTTP objects the server side works on: the request with its header
    list, the response as the middleware stack sees it (status, headers and
    the body sections its iterator yields), and the JSON response that
    `create_response` builds. */
module Http {
  import opened Common

  /** One request header as Starlette keeps it: the name as the ASGI server
      delivered it (lower-case) and the value as sent. */
  type Header = (string, string)

  type Headers = seq<Header>

  /** `request.headers.get(key)`: Starlette lower-cases the key and returns the
      value of the first header whose name equals it. */
  function Get(h: Headers, key: string): (r: Option<string>)
    ensures r.Some? <==> exists i :: 0 <= i < |h| && h[i].0 == Lower(key)
    ensures r.Some? ==> exists i :: 0 <= i < |h| && h[i].0 == Lower(key) && h[i].1 == r.value
                                    && forall j :: 0 <= j < i ==> h[j].0 != Lower(key)
  {
    if h == [] then None
    else if h[0].0 == Lower(key) then Some(h[0].1)
    else
      var r := Get(h[1..], key);
      assert forall i :: 1 <= i < |h| ==> h[i] == h[1..][i - 1];
      r
  }

  /** `request.headers.get(key, default)` */
  function GetOr(h: Headers, key: string, default: string): string {
    match Get(h, key)
    case Some(v) => v
    case None => default
  }

  /** A request as a value: method (`verb`), path, header list and body bytes. */
  datatype Request = Request(verb: string, path: string, headers: Headers, body: Bytes)

  /** A Starlette request object. Its body is cached in `_body`, which the
      compression middleware overwrites in place. */
  class HttpRequest {
    const verb: string
    const path: string
    const headers: Headers
    var body: Bytes

    constructor (r: Request)
      ensures Value() == r
    {
      verb, path, headers, body := r.verb, r.path, r.headers, r.body;
    }

    /** The request as the next stage receives it. */
    function Value(): Request
      reads this
    {
      Request(verb, path, headers, body)
    }
  }

  /** A response as a middleware receives it from `call_next`: status code,
      header mapping (lower-case names) and the body sections its
      `body_iterator` yields. */
  datatype Response = Response(status: nat, headers: map<string, string>, sections: seq<Bytes>)

  /** An `ORJSONResponse`: status code and the JSON content it renders. */
  datatype JsonResponse = JsonResponse(status: nat, content: Json)
}
