/** messaging/server.py: the server's log-level check, route registration,
    the per-route wrapper that turns a request into an envelope and a status,
    and the three exception handlers the application installs. */
module Server {
  import opened Common
  import opened Types
  import opened Http
  import opened Utils
  import opened Middleware

  // ---------------------------------------------------------------------------
  // Log level

  const LogLevels: seq<string> := ["INFO", "DEBUG", "TRACE", "SUCCESS", "WARNING", "ERROR", "CRITICAL"]

  /** The level `Server.__init__` keeps: "INFO" when none or an empty one is
      given; any other level must be one of the seven loguru names, or the
      constructor fails with AssertionError. */
  function ResolveLogLevel(logLevel: Option<string>): (r: Result<string, Exception>)
    ensures r.Ok? <==> logLevel.None? || logLevel.value == "" || logLevel.value in LogLevels
    ensures r.Ok? ==> r.value in LogLevels
    ensures logLevel.None? || logLevel.value == "" ==> r == Ok("INFO")
    ensures logLevel.Some? && logLevel.value in LogLevels ==> r == Ok(logLevel.value)
    ensures r.Err? ==> r.error == AssertionError("")
  {
    var level := if logLevel.None? || logLevel.value == "" then "INFO" else logLevel.value;
    if level in LogLevels then Ok(level) else Err(AssertionError(""))
  }

  // ---------------------------------------------------------------------------
  // Route registration

  /** `s.lstrip("/")` */
  function LStripSlash(s: string): (r: string)
    ensures r == [] || r[0] != '/'
    ensures EndsWith(s, r)
    ensures forall i :: 0 <= i < |s| - |r| ==> s[i] == '/'
    ensures s == [] || s[0] != '/' ==> r == s
  {
    if s != [] && s[0] == '/' then
      var r := LStripSlash(s[1..]);
      assert s[|s| - |r|..] == s[1..][|s[1..]| - |r|..];
      r
    else s
  }

  /** `s.rstrip("/")` */
  function RStripSlash(s: string): (r: string)
    ensures r == [] || r[|r| - 1] != '/'
    ensures StartsWith(s, r)
    ensures forall i :: |r| <= i < |s| ==> s[i] == '/'
    ensures s == [] || s[|s| - 1] != '/' ==> r == s
  {
    if s != [] && s[|s| - 1] == '/' then
      var r := RStripSlash(s[..|s| - 1]);
      assert s[..|r|] == s[..|s| - 1][..|r|];
      r
    else s
  }

  /** The path a payload class is served on: "/" followed by the class name
      with its leading and trailing slashes stripped. */
  function RoutePath(className: string): (p: string)
    ensures |p| >= 1 && p[0] == '/'
    ensures |p| == 1 || (p[1] != '/' && p[|p| - 1] != '/')
  {
    "/" + RStripSlash(LStripSlash(className))
  }

  /** A class name without slashes at either end is served on "/" + name. */
  lemma RoutePathOfPlainName(className: string)
    requires className != [] && className[0] != '/' && className[|className| - 1] != '/'
    ensures RoutePath(className) == "/" + className
  {
  }

  /** Stripping the path once more changes nothing: a route path is already
      in the form registration produces. */
  lemma RoutePathIdempotent(className: string)
    ensures RoutePath(RoutePath(className)[1..]) == RoutePath(className)
  {
    var core := RStripSlash(LStripSlash(className));
    assert RoutePath(className)[1..] == core;
    if core != [] {
      assert core[0] == '/' ==> false by {
        var l := LStripSlash(className);
        assert StartsWith(l, core);
        assert l[..|core|] == core;
        assert l[0] == core[0];
      }
    }
  }

  /** The methods a route accepts when none are given. */
  const DefaultMethods: seq<string> := ["POST", "HEAD"]

  // ---------------------------------------------------------------------------
  // handler_wrapper

  /** What a user handler returns: a dict, bytes holding JSON, a pydantic
      model, or any other JSON-encodable value. */
  datatype HandlerResult =
    | DictResult(fields: map<string, Json>)
    | BytesResult(bytes: Bytes)
    | ModelResult(model: Model)
    | OtherResult(value: Json)

  /** A handler call returns a result or raises. */
  datatype HandlerOutcome = Returned(result: HandlerResult) | Raised(exception: Exception)

  /** A user handler, `handler(request, payload)`. */
  type Handler = (Request, Model) -> HandlerOutcome

  /** A registered route. */
  datatype Route = Route(path: string, methods: seq<string>, className: string, handler: Handler)

  function Reply(status: nat, body: Json, error: Option<string>): JsonResponse {
    JsonResponse(status, Envelope(body, error, map[]))
  }

  /** The reply's envelope carries an error. */
  predicate HasError(reply: JsonResponse) {
    reply.content.JObj? && "error" in reply.content.fields && reply.content.fields["error"] != JNull
  }

  /** `handler_wrapper`, with the status of its catch-all reply as a
      parameter. The outcome is the response, or the exception re-raised to
      the framework's handlers (an HTTPException, or a cancellation that
      `except Exception` does not catch). */
  function WrapperWith(internalStatus: nat, className: string, request: Request, codec: JsonCodec,
                       validate: Validator, handler: Handler): Result<JsonResponse, Exception>
  {
    if request.verb == "HEAD" then Ok(Reply(200, EmptyObject, None))
    else
      match codec.loads(request.body)
      case Err(e) => Ok(Reply(400, EmptyObject, Some("Invalid JSON, exception: " + e)))
      case Ok(data) =>
        match validate(className, data)
        case Err(e) => Ok(Reply(400, data, Some("Validation error: " + e)))
        case Ok(fields) =>
          match handler(request, Model(className, fields))
          case Raised(e) =>
            if e.HTTPException? || !IsException(e) then Err(e)
            else Ok(Reply(internalStatus, EmptyObject, Some("Internal server error: " + Str(e))))
          case Returned(DictResult(f)) => Ok(Reply(200, JObj(f), None))
          case Returned(BytesResult(b)) =>
            (match codec.loads(b)
             case Ok(j) => Ok(Reply(200, j, None))
             case Err(e) => Ok(Reply(internalStatus, EmptyObject,
                                     Some("Internal server error: " + Str(JSONDecodeError(e))))))
          case Returned(ModelResult(m)) => Ok(Reply(200, ModelDump(m), None))
          case Returned(OtherResult(v)) => Ok(Reply(200, v, None))
  }

  /** `handler_wrapper` as written. A HEAD request is answered 200 with `{}`
      before the body is read; a body that is not JSON, or JSON the payload
      class rejects, is answered 400; the handler is consulted only for a
      validated payload; every reply is an envelope and a re-raised
      exception is the handler's own. The catch-all reply keeps
      `create_response`'s default status, 200. */
  function HandlerWrapper(className: string, request: Request, codec: JsonCodec,
                          validate: Validator, handler: Handler): (r: Result<JsonResponse, Exception>)
    ensures request.verb == "HEAD" ==> r == Ok(Reply(200, EmptyObject, None))
    ensures request.verb != "HEAD" && codec.loads(request.body).Err? ==>
              r == Ok(Reply(400, EmptyObject, Some("Invalid JSON, exception: " + codec.loads(request.body).error)))
    ensures request.verb != "HEAD" && codec.loads(request.body).Ok?
            && validate(className, codec.loads(request.body).value).Err? ==>
              r == Ok(Reply(400, codec.loads(request.body).value,
                            Some("Validation error: " + validate(className, codec.loads(request.body).value).error)))
    ensures request.verb != "HEAD" && codec.loads(request.body).Ok?
            && validate(className, codec.loads(request.body).value).Ok? ==>
              var outcome := handler(request, Model(className, validate(className, codec.loads(request.body).value).value));
              (outcome.Raised? && IsException(outcome.exception) && !outcome.exception.HTTPException? ==>
                 r == Ok(Reply(200, EmptyObject, Some("Internal server error: " + Str(outcome.exception)))))
              && (outcome.Returned? && outcome.result.BytesResult? && codec.loads(outcome.result.bytes).Err? ==>
                    r == Ok(Reply(200, EmptyObject,
                                  Some("Internal server error: " + codec.loads(outcome.result.bytes).error))))
    ensures r.Ok? ==> r.value.status in {200, 400}
    ensures r.Err? ==> request.verb != "HEAD" && (r.error.HTTPException? || !IsException(r.error))
  {
    WrapperWith(200, className, request, codec, validate, handler)
  }

  /** A payload that reaches the handler is the validated instance of the
      route's class, and a returned dict, model or JSON value becomes the
      body of a 200 reply without error. */
  lemma HandlerResultBecomesBody(className: string, request: Request, codec: JsonCodec,
                                 validate: Validator, handler: Handler)
    requires request.verb != "HEAD" && codec.loads(request.body).Ok?
    requires validate(className, codec.loads(request.body).value).Ok?
    ensures var payload := Model(className, validate(className, codec.loads(request.body).value).value);
            var r := HandlerWrapper(className, request, codec, validate, handler);
            match handler(request, payload)
            case Returned(DictResult(f)) => r == Ok(Reply(200, JObj(f), None))
            case Returned(ModelResult(m)) => r == Ok(Reply(200, ModelDump(m), None))
            case Returned(OtherResult(v)) => r == Ok(Reply(200, v, None))
            case Returned(BytesResult(b)) =>
              codec.loads(b).Ok? ==> r == Ok(Reply(200, codec.loads(b).value, None))
            case Raised(e) => e.HTTPException? ==> r == Err(e)
  {
  }

  /** A HEAD request, a body that is not JSON, and a payload the class
      rejects are all answered without calling the handler: any two handlers
      give the same reply. */
  lemma BadInputSkipsHandler(className: string, request: Request, codec: JsonCodec,
                             validate: Validator, h1: Handler, h2: Handler)
    requires request.verb == "HEAD" || codec.loads(request.body).Err?
             || validate(className, codec.loads(request.body).value).Err?
    ensures HandlerWrapper(className, request, codec, validate, h1)
            == HandlerWrapper(className, request, codec, validate, h2)
  {
  }

  /** As written, a handler that raises an ordinary exception produces a
      reply with status 200 that nevertheless carries an error. */
  lemma InternalErrorReturns200(className: string, request: Request, codec: JsonCodec,
                                validate: Validator, handler: Handler)
    requires request.verb == "POST" && codec.loads(request.body).Ok?
    requires validate(className, codec.loads(request.body).value).Ok?
    requires handler(request, Model(className, validate(className, codec.loads(request.body).value).value))
             == Raised(ValueError("boom"))
    ensures HandlerWrapper(className, request, codec, validate, handler)
            == Ok(Reply(200, EmptyObject, Some("Internal server error: boom")))
  {
    assert Str(ValueError("boom")) == "boom";
    assert "Internal server error: " + "boom" == "Internal server error: boom";
    assert HandlerWrapper(className, request, codec, validate, handler)
           == WrapperWith(200, className, request, codec, validate, handler);
  }

  /** `handler_wrapper` as evidently intended: the catch-all reply is a 500.
      Then a reply carries an error exactly when its status is not 200. */
  function HandlerWrapperFixed(className: string, request: Request, codec: JsonCodec,
                               validate: Validator, handler: Handler): (r: Result<JsonResponse, Exception>)
    ensures r.Ok? ==> (r.value.status == 200 <==> !HasError(r.value))
    ensures r.Ok? ==> r.value.status in {200, 400, 500}
    ensures r.Err? ==> r == HandlerWrapper(className, request, codec, validate, handler)
  {
    WrapperWith(500, className, request, codec, validate, handler)
  }

  /** The corrected wrapper differs from the written one only in the status
      of its internal-error replies. */
  lemma HandlerWrapperFixedAgrees(className: string, request: Request, codec: JsonCodec,
                                  validate: Validator, handler: Handler)
    ensures var written := HandlerWrapper(className, request, codec, validate, handler);
            var fixed := HandlerWrapperFixed(className, request, codec, validate, handler);
            (written.Ok? <==> fixed.Ok?)
            && (written.Ok? ==> written.value.content == fixed.value.content
                                && (written.value.status == fixed.value.status
                                    || (written.value.status == 200 && fixed.value.status == 500)))
  {
  }

  // ---------------------------------------------------------------------------
  // Exception handlers

  /** `http_exception_handler`: the exception's own status, its detail as the
      error, an empty body. */
  function HttpExceptionHandler(e: Exception): (r: JsonResponse)
    requires e.HTTPException?
    ensures r.status == e.statusCode
    ensures r.content == Envelope(EmptyObject, Some(e.detail), map[])
  {
    Reply(e.statusCode, EmptyObject, Some(e.detail))
  }

  /** `invalid_signature_exc_handler`: 403 with the exception's message. */
  function InvalidSignatureHandler(e: Exception): (r: JsonResponse)
    requires e.InvalidSignatureException?
    ensures r.status == 403
    ensures r.content == Envelope(EmptyObject, Some(e.message), map[])
  {
    Reply(403, EmptyObject, Some(Str(e)))
  }

  /** `global_exception_handler`: the exception's `status_code` attribute
      when it has one, 500 otherwise; `str(exc)` as the error. */
  function GlobalExceptionHandler(e: Exception): (r: JsonResponse)
    ensures StatusCodeAttr(e).Some? ==> r.status == StatusCodeAttr(e).value
    ensures StatusCodeAttr(e).None? ==> r.status == 500
    ensures r.content == Envelope(EmptyObject, Some(Str(e)), map[])
  {
    var status := match StatusCodeAttr(e) case Some(code) => code case None => 500;
    Reply(status, EmptyObject, Some(Str(e)))
  }

  /** Which handler answers an exception raised inside a route: the
      HTTPException and InvalidSignatureException handlers by type, the
      global handler for every other Exception, and none for a cancellation
      or keyboard interrupt, which propagate. */
  function HandleException(e: Exception): (r: Option<JsonResponse>)
    ensures r.None? <==> !IsException(e)
    ensures e.HTTPException? ==> r == Some(HttpExceptionHandler(e))
    ensures e.InvalidSignatureException? ==> r == Some(InvalidSignatureHandler(e))
    ensures IsException(e) && !e.HTTPException? && !e.InvalidSignatureException? ==>
              r == Some(GlobalExceptionHandler(e))
    ensures r.Some? ==> HasError(r.value) && "body" in r.value.content.fields
                        && r.value.content.fields["body"] == EmptyObject
  {
    if e.HTTPException? then Some(HttpExceptionHandler(e))
    else if e.InvalidSignatureException? then Some(InvalidSignatureHandler(e))
    else if IsException(e) then Some(GlobalExceptionHandler(e))
    else None
  }

  /** A route's final answer: the wrapper's reply, or the handler's answer to
      the exception it re-raised. */
  function Endpoint(route: Route, request: Request, codec: JsonCodec, validate: Validator): (r: Option<JsonResponse>)
    ensures r.Some? ==> r.value.content.JObj? && r.value.content.fields.Keys == {"body", "error", "metadata"}
  {
    match HandlerWrapper(route.className, request, codec, validate, route.handler)
    case Ok(reply) => Some(reply)
    case Err(e) => HandleException(e)
  }

  /** An HTTPException raised by a handler is answered with its own status
      and detail and an empty body. */
  lemma HandlerHttpExceptionMapped(route: Route, request: Request, codec: JsonCodec, validate: Validator,
                                   status: nat, detail: string)
    requires request.verb != "HEAD" && codec.loads(request.body).Ok?
    requires validate(route.className, codec.loads(request.body).value).Ok?
    requires route.handler(request, Model(route.className, validate(route.className, codec.loads(request.body).value).value))
             == Raised(HTTPException(status, detail))
    ensures Endpoint(route, request, codec, validate) == Some(Reply(status, EmptyObject, Some(detail)))
  {
  }

  /** An exception escaping the middleware stack reaches the global handler.
      A request labelled "zstd" whose body does not decompress is therefore
      answered 400 with the HTTPException's text, "400: Failed to decompress
      zstd data: ...", as its error. */
  lemma CorruptCompressedRequestGets400(whitelist: seq<string>, request: Request,
                                        next: Request -> Response, z: Zstd)
    requires !Bypassed(whitelist, request)
    requires GetOr(request.headers, "content-encoding", "") == "zstd"
    requires z.decompress(request.body).Err?
    ensures Transcode(whitelist, request, next, z).Err?
    ensures var e := Transcode(whitelist, request, next, z).error;
            e == HTTPException(400, "Failed to decompress zstd data: " + z.decompress(request.body).error)
            && GlobalExceptionHandler(e) == Reply(400, EmptyObject, Some("400: " + e.detail))
  {
    CorruptCompressedRequestRejected(whitelist, request, next, z);
    HttpExceptionCaughtGlobally("Failed to decompress zstd data: " + z.decompress(request.body).error);
  }

  /** The global handler answers an HTTPException 400 that reaches it with
      status 400 and `str(exc)`, "400: <detail>", as error. */
  lemma HttpExceptionCaughtGlobally(detail: string)
    ensures GlobalExceptionHandler(HTTPException(400, detail)) == Reply(400, EmptyObject, Some("400: " + detail))
  {
    assert NatToString(400) == "400" by {
      assert NatToString(4) == "4";
      assert NatToString(40) == "40";
    }
    assert "400" + ": " == "400: ";
  }

  // ---------------------------------------------------------------------------
  // Server

  class Server {
    const logLevel: string
    const kami: Verifier
    const signature: SignatureMiddleware
    const compression: ZstdMiddleware
    var routes: seq<Route>

    /** `Server.__init__`: both middlewares are installed with their default
        whitelist, so each holds exactly ["/docs"]. */
    constructor (kami: Verifier, logLevel: Option<string> := None)
      requires ResolveLogLevel(logLevel).Ok?
      ensures this.logLevel == ResolveLogLevel(logLevel).value && this.kami == kami
      ensures fresh(signature) && fresh(compression)
      ensures signature.kami == kami && signature.whitelistedRoutes == ["/docs"]
      ensures compression.whitelistedRoutes == ["/docs"]
      ensures routes == []
    {
      this.logLevel := ResolveLogLevel(logLevel).value;
      this.kami := kami;
      this.compression := new ZstdMiddleware();
      this.signature := new SignatureMiddleware(kami);
      this.routes := [];
    }

    /** `serve_synapse`: registers one more route for the class, on its
        route path, for POST and HEAD. */
    method ServeSynapse(className: string, handler: Handler)
      modifies this
      ensures routes == old(routes) + [Route(RoutePath(className), DefaultMethods, className, handler)]
    {
      routes := routes + [Route("/" + RStripSlash(LStripSlash(className)), DefaultMethods, className, handler)];
    }
  }
}
