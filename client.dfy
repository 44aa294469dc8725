/** messaging/client.py: the client's session defaults, URL and header
    building, and `send` with its bounded retry loop and the decision tree
    that turns whatever the server answered into a `StdResponse`. */
module Client {
  import opened Common
  import opened Types
  import opened Http
  import opened Utils
  import opened Middleware
  import opened Server

  // ---------------------------------------------------------------------------
  // Session

  /** The connector settings of an aiohttp session. */
  datatype Connector = Connector(ssl: bool, limit: int, limitPerHost: int, enableCleanupClosed: bool)

  datatype Session = Session(connector: Connector, closed: bool)

  /** `get_client`: a falsy limit (absent or 0) is replaced by its default,
      256 connections in total and 10 per host; TLS verification is off and
      closed connections are cleaned up. */
  function GetClient(connLimit: Option<int> := None, limitPerHost: Option<int> := None): (s: Session)
    ensures !s.closed && !s.connector.ssl && s.connector.enableCleanupClosed
    ensures s.connector.limit != 0 && s.connector.limitPerHost != 0
    ensures connLimit.Some? && connLimit.value != 0 ==> s.connector.limit == connLimit.value
    ensures limitPerHost.Some? && limitPerHost.value != 0 ==> s.connector.limitPerHost == limitPerHost.value
  {
    var limit := if connLimit.None? || connLimit.value == 0 then 256 else connLimit.value;
    var perHost := if limitPerHost.None? || limitPerHost.value == 0 then 10 else limitPerHost.value;
    Session(Connector(false, limit, perHost, true), false)
  }

  /** A zero limit means the same as no limit: both give the defaults. */
  lemma GetClientDefaults()
    ensures GetClient(Some(0), Some(0)) == GetClient()
    ensures GetClient().connector.limit == 256 && GetClient().connector.limitPerHost == 10
  {
  }

  // ---------------------------------------------------------------------------
  // URL

  /** `_build_url`: a scheme is put in front of the url unless it already
      starts with "http" (the second test, for "https", can never decide
      anything the first did not), and the payload class name is appended
      as the last path segment. */
  function BuildUrl(url: string, className: string, protocol: string := "http"): (r: string)
    ensures EndsWith(r, "/" + className)
    ensures StartsWith(url, "http") ==> r == url + "/" + className
    ensures !StartsWith(url, "http") ==> r == protocol + "://" + url + "/" + className
  {
    var base := if !StartsWith(url, "http") && !StartsWith(url, "https") then protocol + "://" + url else url;
    assert (base + "/" + className)[|base + "/" + className| - |"/" + className|..] == "/" + className;
    base + "/" + className
  }

  /** A url starting with "https" starts with "http". */
  lemma HttpsStartsWithHttp(url: string)
    ensures StartsWith(url, "https") ==> StartsWith(url, "http")
  {
    if StartsWith(url, "https") {
      assert url[..4] == url[..5][..4];
    }
  }

  /** With the default protocol the target always starts with "http", and
      for a class name without surrounding slashes it ends in the path the
      server registers for that class. */
  lemma BuildUrlTargetsRoute(url: string, className: string)
    requires className != [] && className[0] != '/' && className[|className| - 1] != '/'
    ensures StartsWith(BuildUrl(url, className), "http")
    ensures EndsWith(BuildUrl(url, className), RoutePath(className))
  {
    RoutePathOfPlainName(className);
    var r := BuildUrl(url, className);
    if StartsWith(url, "http") {
      assert r[..4] == url[..4];
    } else {
      assert r[..4] == "http";
    }
  }

  // ---------------------------------------------------------------------------
  // Headers

  const DefaultMessagePrefix: string := "I solemnly swear that I am up to some good. Hotkey: "

  /** The message that is signed and sent: the given one, or the fixed
      sentence naming the hotkey when none (or an empty one) is given. */
  function SigningMessage(hotkey: string, message: string): string {
    if message == "" then DefaultMessagePrefix + hotkey else message
  }

  const CompressionHeaders: map<string, string> := map["content-encoding" := "zstd", "accept-encoding" := "zstd"]

  /** The headers `_build_headers` produces. */
  function SignedHeaders(hotkey: string, sign: string -> string, includeCompression: bool, message: string)
    : (h: map<string, string>)
    ensures h.Keys == {"content-type", SignatureHeader, HotkeyHeader, MessageHeader}
                      + (if includeCompression then {"content-encoding", "accept-encoding"} else {})
    ensures h["content-type"] == "application/json" && h[HotkeyHeader] == hotkey
    ensures h[MessageHeader] == SigningMessage(hotkey, message)
    ensures h[SignatureHeader] == sign(h[MessageHeader])
    ensures includeCompression ==> h["content-encoding"] == "zstd" && h["accept-encoding"] == "zstd"
  {
    var m := SigningMessage(hotkey, message);
    var base := map["content-type" := "application/json", SignatureHeader := sign(m),
                    HotkeyHeader := hotkey, MessageHeader := m];
    if includeCompression then base + CompressionHeaders else base
  }

  /** The request as the server receives it carries the headers the client
      sent: looking any of them up finds the value sent. */
  predicate Carries(h: Headers, headers: map<string, string>) {
    forall k :: k in headers ==> Get(h, k) == Some(headers[k])
  }

  /** What the server's header lookup finds in a request carrying the
      client's headers. */
  lemma CarriedSignedHeaders(h: Headers, hotkey: string, sign: string -> string, includeCompression: bool,
                             message: string)
    requires Carries(h, SignedHeaders(hotkey, sign, includeCompression, message))
    ensures Get(h, HotkeyHeader) == Some(hotkey)
    ensures Get(h, MessageHeader) == Some(SigningMessage(hotkey, message))
    ensures Get(h, SignatureHeader) == Some(sign(SigningMessage(hotkey, message)))
    ensures includeCompression ==> Get(h, "content-encoding") == Some("zstd")
  {
    var headers := SignedHeaders(hotkey, sign, includeCompression, message);
    assert HotkeyHeader in headers && MessageHeader in headers && SignatureHeader in headers;
    if includeCompression {
      assert "content-encoding" in headers;
    }
  }

  /** A request carrying the client's headers passes the server's gate when
      the verifier accepts the client's signature of its message. */
  lemma ClientRequestPassesGate(hotkey: string, sign: string -> string, includeCompression: bool,
                                whitelist: seq<string>, verify: Verifier, request: Request,
                                next: Request -> Response)
    requires hotkey != ""
    requires var m := SigningMessage(hotkey, ""); sign(m) != "" && verify(hotkey, m, sign(m))
    requires Carries(request.headers, SignedHeaders(hotkey, sign, includeCompression, ""))
    ensures Authenticate(whitelist, verify, request, next) == Forwarded(next(request))
  {
    var m := SigningMessage(hotkey, "");
    CarriedSignedHeaders(request.headers, hotkey, sign, includeCompression, "");
    assert Credentials(request) == (hotkey, sign(m), m);
    assert m != "";
    assert HasCredentials(request);
  }

  /** A request labelled "zstd" whose body is the compressed JSON text of a
      model reaches the handler as that text. */
  lemma CompressedModelReachesHandler(model: Model, codec: JsonCodec, z: Zstd, request: Request)
    requires ZstdRoundTrip(z) && JsonRoundTrip(codec)
    requires GetOr(request.headers, "content-encoding", "") == "zstd"
    requires request.body == z.compress(codec.dumps(ModelDump(model)))
    ensures InboundBody(request, z).Ok?
    ensures codec.loads(InboundBody(request, z).value) == Ok(ModelDump(model))
  {
    var payload := codec.dumps(ModelDump(model));
    RequestBodyRoundTrip(request, z, payload);
    assert codec.loads(payload) == Ok(ModelDump(model));
  }

  /** The compressed body the client sends (what `encode_body` gives for its
      headers, by `ClientEncodingSupported`) reaches the server's handler as
      the JSON text of the model. */
  lemma ClientBodyReachesHandler(hotkey: string, sign: string -> string, model: Model,
                                 codec: JsonCodec, z: Zstd, request: Request)
    requires ZstdRoundTrip(z) && JsonRoundTrip(codec)
    requires Carries(request.headers, SignedHeaders(hotkey, sign, true, ""))
    requires request.body == z.compress(codec.dumps(ModelDump(model)))
    ensures InboundBody(request, z).Ok?
    ensures codec.loads(InboundBody(request, z).value) == Ok(ModelDump(model))
  {
    CarriedCompression(request.headers, hotkey, sign);
    CompressedModelReachesHandler(model, codec, z, request);
  }

  /** A request carrying the client's compressed-request headers is labelled
      "zstd". */
  lemma CarriedCompression(h: Headers, hotkey: string, sign: string -> string)
    requires Carries(h, SignedHeaders(hotkey, sign, true, ""))
    ensures GetOr(h, "content-encoding", "") == "zstd"
  {
    CarriedSignedHeaders(h, hotkey, sign, true, "");
  }

  /** The client always labels its body "zstd", an encoding `encode_body`
      supports. */
  lemma ClientEncodingSupported(hotkey: string, sign: string -> string, model: Model, codec: JsonCodec, z: Zstd)
    ensures EncodeBody(model, SignedHeaders(hotkey, sign, true, ""), codec, z)
            == Ok(z.compress(codec.dumps(ModelDump(model))))
  {
    LowerOfLowerCase("zstd");
  }

  // ---------------------------------------------------------------------------
  // Send: one attempt

  /** `send`'s keyword arguments with their defaults. */
  datatype SendOptions = SendOptions(
    timeoutSec: int := 10,
    maxRetries: int := 2,
    maxWaitSec: int := 4,
    waitExponentialFactor: int := 2,
    enablePreflight: bool := true)

  /** The transport, per attempt number: the HEAD preflight and the POST, each
      answered with a response (and, for the POST, its body bytes) or failing
      with the exception aiohttp raises. */
  datatype Transport = Transport(
    head: (nat, string, map<string, string>, int) -> Result<ClientResponse, Exception>,
    post: (nat, string, map<string, string>, Bytes, int) -> Result<(ClientResponse, Bytes), Exception>)

  /** The world a send runs against: the transport, the codecs and the
      payload class's validator. */
  datatype Env = Env(transport: Transport, codec: JsonCodec, z: Zstd, validate: Validator)

  /** An attempt either settles the send or fails with an exception. */
  datatype AttemptResult = Done(response: StdResponse) | Failed(exception: Exception)

  /** An attempt's result and the POST response it obtained, if any. */
  datatype AttemptOutcome = AttemptOutcome(result: AttemptResult, posted: Option<ClientResponse>)

  /** `raise_for_status`: aiohttp raises for every status from 400 up. */
  function RaiseForStatus(resp: ClientResponse): (r: Option<Exception>)
    ensures r.Some? <==> resp.status >= 400
  {
    if resp.status >= 400 then Some(ClientResponseError(resp.status, "")) else None
  }

  /** Lines 223-239: the parsed JSON of the response body. A body labelled
      zstd (in any letter case) is decompressed and parsed; any other body
      goes through aiohttp's `json()`, which gives None for an empty body. */
  function DecodeResponseJson(resp: ClientResponse, bytes: Bytes, codec: JsonCodec, z: Zstd)
    : (r: Result<Json, Exception>)
    ensures Lower(MapGet(resp.headers, "content-encoding", "")) == "zstd" ==>
              (r.Ok? <==> z.decompress(bytes).Ok? && codec.loads(z.decompress(bytes).value).Ok?)
    ensures Lower(MapGet(resp.headers, "content-encoding", "")) != "zstd" ==>
              (bytes == [] ==> r == Ok(JNull)) && (bytes != [] ==> (r.Ok? <==> codec.loads(bytes).Ok?))
    ensures Lower(MapGet(resp.headers, "content-encoding", "")) == "zstd" && r.Ok? ==>
              r.value == codec.loads(z.decompress(bytes).value).value
    ensures Lower(MapGet(resp.headers, "content-encoding", "")) != "zstd" && bytes != [] && r.Ok? ==>
              r.value == codec.loads(bytes).value
  {
    if Lower(MapGet(resp.headers, "content-encoding", "")) == "zstd" then
      match z.decompress(bytes)
      case Err(e) => Err(ZstdError(e))
      case Ok(decompressed) =>
        match codec.loads(decompressed)
        case Err(e) => Err(JSONDecodeError(e))
        case Ok(j) => Ok(j)
    else if bytes == [] then Ok(JNull)
    else
      match codec.loads(bytes)
      case Err(e) => Err(JSONDecodeError(e))
      case Ok(j) => Ok(j)
  }

  /** Python's name for the type of a parsed JSON value. */
  function PyTypeName(j: Json): string {
    match j
    case JNull => "NoneType"
    case JBool(_) => "bool"
    case JNum(_) => "int"
    case JStr(_) => "str"
    case JArr(_) => "list"
    case JObj(_) => "dict"
  }

  /** `StdResponse` accepts an `error` that is null or a string and a
      `metadata` that is an object; anything else fails its validation. */
  predicate ValidStdFields(error: Json, metadata: Json) {
    (error.JNull? || error.JStr?) && metadata.JObj?
  }

  const StdResponseValidation: string := "validation error for StdResponse"

  /** The record built from the server's error and metadata. */
  function Record(body: Model, error: Json, metadata: Json, resp: ClientResponse): StdResponse
    requires ValidStdFields(error, metadata)
  {
    StdResponse(body, Some(resp), if error.JStr? then Some(error.s) else None, metadata.fields)
  }

  /** The fallback of lines 275-285: the raw body fields, unvalidated. */
  function Constructed(className: string, body: Json, error: Json, metadata: Json, resp: ClientResponse)
    : AttemptResult
  {
    if !body.JObj? then
      Failed(TypeError(className + ".model_construct() argument after ** must be a mapping, not "
                       + PyTypeName(body)))
    else if ValidStdFields(error, metadata) then Done(Record(Model(className, body.fields), error, metadata, resp))
    else Failed(ValidationError(StdResponseValidation))
  }

  /** Lines 246-295: the decision tree over the parsed response JSON. A falsy
      JSON value settles the send with an empty body and a ValueError; a
      truthy value that is not an object fails the attempt (it has no
      `.get`); otherwise the body, error and metadata members are read with
      their defaults, a truthy body is validated (falling back to its raw
      fields) and a missing or falsy one gives an empty body. */
  function Resolve(json: Json, className: string, validate: Validator, resp: ClientResponse): (r: AttemptResult)
    ensures !Truthy(json) ==>
              r == Done(StdResponse(EmptyModel(className), Some(resp),
                                    exception := Some(ValueError("Empty response JSON received for " + className))))
    ensures Truthy(json) && !json.JObj? ==> r.Failed? && r.exception.AttributeError?
    ensures r.Done? ==> r.response.body.className == className && r.response.clientResponse == Some(resp)
    ensures r.Done? && Truthy(json) ==> r.response.exception.None?
    ensures r.Failed? ==> IsException(r.exception)
  {
    if !Truthy(json) then
      Done(StdResponse(EmptyModel(className), Some(resp),
                       exception := Some(ValueError("Empty response JSON received for " + className))))
    else if !json.JObj? then
      Failed(AttributeError("'" + PyTypeName(json) + "' object has no attribute 'get'"))
    else
      var error := MapGet(json.fields, "error", JNull);
      var metadata := MapGet(json.fields, "metadata", EmptyObject);
      var body := MapGet(json.fields, "body", EmptyObject);
      if Truthy(body) then
        match validate(className, body)
        case Ok(fields) =>
          if ValidStdFields(error, metadata) then Done(Record(Model(className, fields), error, metadata, resp))
          else Constructed(className, body, error, metadata, resp)
        case Err(_) => Constructed(className, body, error, metadata, resp)
      else if ValidStdFields(error, metadata) then Done(Record(EmptyModel(className), error, metadata, resp))
      else Failed(ValidationError(StdResponseValidation))
  }

  /** Any non-empty JSON object from the server, read with the defaults of
      lines 258-260 (a missing error is null, missing metadata and a missing
      body are `{}`): an error or metadata of the wrong type fails the
      attempt; otherwise a validating body becomes the typed body, a rejected
      object body is kept raw, a rejected non-object body fails with a
      TypeError, and a falsy or missing body gives an empty one, each with
      the server's error and metadata. */
  lemma ResolveObject(fields: map<string, Json>, className: string, validate: Validator, resp: ClientResponse)
    requires fields != map[]
    ensures var error := MapGet(fields, "error", JNull);
            var metadata := MapGet(fields, "metadata", EmptyObject);
            var body := MapGet(fields, "body", EmptyObject);
            var r := Resolve(JObj(fields), className, validate, resp);
            (!ValidStdFields(error, metadata) ==> r.Failed?)
            && (ValidStdFields(error, metadata) ==>
                  var errorText := if error.JStr? then Some(error.s) else None;
                  (Truthy(body) && validate(className, body).Ok? ==>
                     r == Done(StdResponse(Model(className, validate(className, body).value), Some(resp),
                                           errorText, metadata.fields)))
                  && (Truthy(body) && validate(className, body).Err? && body.JObj? ==>
                        r == Done(StdResponse(Model(className, body.fields), Some(resp), errorText, metadata.fields)))
                  && (Truthy(body) && validate(className, body).Err? && !body.JObj? ==>
                        r.Failed? && r.exception.TypeError?)
                  && (!Truthy(body) ==>
                        r == Done(StdResponse(EmptyModel(className), Some(resp), errorText, metadata.fields))))
  {
    assert Truthy(JObj(fields));
  }

  /** A response object without a "body" member settles the attempt with an
      empty body of the requested class. */
  lemma MissingBodyGivesEmptyModel(fields: map<string, Json>, className: string, validate: Validator,
                                   resp: ClientResponse)
    requires fields != map[] && "body" !in fields
    requires ValidStdFields(MapGet(fields, "error", JNull), MapGet(fields, "metadata", EmptyObject))
    ensures Resolve(JObj(fields), className, validate, resp).Done?
    ensures Resolve(JObj(fields), className, validate, resp).response.body == EmptyModel(className)
  {
    ResolveObject(fields, className, validate, resp);
  }

  /** What the client makes of each kind of server envelope with a
      well-formed error and metadata: a validating body becomes the typed
      body, a rejected object body is kept raw, and a falsy body gives an
      empty one; the server's error and metadata are carried over in each
      case. */
  lemma ResolveEnvelope(body: Json, error: Option<string>, metadata: map<string, Json>,
                        className: string, validate: Validator, resp: ClientResponse)
    ensures var r := Resolve(Envelope(body, error, metadata), className, validate, resp);
            (Truthy(body) && validate(className, body).Ok? ==>
               r == Done(StdResponse(Model(className, validate(className, body).value), Some(resp), error, metadata)))
            && (Truthy(body) && validate(className, body).Err? && body.JObj? ==>
               r == Done(StdResponse(Model(className, body.fields), Some(resp), error, metadata)))
            && (Truthy(body) && validate(className, body).Err? && !body.JObj? ==> r.Failed? && r.exception.TypeError?)
            && (!Truthy(body) ==> r == Done(StdResponse(EmptyModel(className), Some(resp), error, metadata)))
  {
    var j := Envelope(body, error, metadata);
    assert Truthy(j) by {
      assert "body" in j.fields;
    }
  }

  /** A server reply to a successful call, as the server renders it (compressed
      or not), is read back by the client as the handler's model with the
      server's error and metadata. */
  lemma ServerReplyResolves(fields: map<string, Json>, error: Option<string>, metadata: map<string, Json>,
                            className: string, env: Env, resp: ClientResponse, bytes: Bytes)
    requires ZstdRoundTrip(env.z) && JsonRoundTrip(env.codec) && JsonTextsNonEmpty(env.codec)
    requires fields != map[] && env.validate(className, JObj(fields)) == Ok(fields)
    requires var text := env.codec.dumps(Envelope(JObj(fields), error, metadata));
             bytes == if Lower(MapGet(resp.headers, "content-encoding", "")) == "zstd"
                      then env.z.compress(text) else text
    ensures DecodeResponseJson(resp, bytes, env.codec, env.z) == Ok(Envelope(JObj(fields), error, metadata))
    ensures Resolve(Envelope(JObj(fields), error, metadata), className, env.validate, resp)
            == Done(StdResponse(Model(className, fields), Some(resp), error, metadata))
  {
    var j := Envelope(JObj(fields), error, metadata);
    var text := env.codec.dumps(j);
    assert env.codec.loads(text) == Ok(j);
    assert text != [];
    if Lower(MapGet(resp.headers, "content-encoding", "")) == "zstd" {
      assert env.z.decompress(env.z.compress(text)) == Ok(text);
    }
    ResolveEnvelope(JObj(fields), error, metadata, className, env.validate, resp);
  }

  /** One attempt (lines 193-295): the optional HEAD preflight without
      compression headers, then the signed, compressed POST, its status check,
      decoding and resolution. */
  function Attempt(k: nat, hotkey: string, sign: string -> string, url: string, model: Model,
                   env: Env, opts: SendOptions): (o: AttemptOutcome)
    ensures opts.enablePreflight ==>
              var pre := env.transport.head(k, BuildUrl(url, model.className),
                                            SignedHeaders(hotkey, sign, false, ""), opts.timeoutSec);
              (pre.Err? ==> o == AttemptOutcome(Failed(pre.error), None))
              && (pre.Ok? && pre.value.status >= 400 ==>
                    o == AttemptOutcome(Failed(ClientResponseError(pre.value.status, "")), None))
    ensures o.result.Done? ==> o.posted.Some? && o.posted.value.status < 400
                               && o.result.response.clientResponse == o.posted
                               && o.result.response.body.className == model.className
  {
    var target := BuildUrl(url, model.className);
    var preflight :=
      if !opts.enablePreflight then None
      else
        match env.transport.head(k, target, SignedHeaders(hotkey, sign, false, ""), opts.timeoutSec)
        case Err(e) => Some(e)
        case Ok(headResp) => RaiseForStatus(headResp);
    if preflight.Some? then AttemptOutcome(Failed(preflight.value), None)
    else
      var headers := SignedHeaders(hotkey, sign, true, "");
      match EncodeBody(model, headers, env.codec, env.z)
      case Err(e) => AttemptOutcome(Failed(e), None)
      case Ok(payload) =>
        match env.transport.post(k, target, headers, payload, opts.timeoutSec)
        case Err(e) => AttemptOutcome(Failed(e), None)
        case Ok(reply) =>
          var (resp, bytes) := reply;
          var result :=
            if RaiseForStatus(resp).Some? then Failed(RaiseForStatus(resp).value)
            else
              match DecodeResponseJson(resp, bytes, env.codec, env.z)
              case Err(e) => Failed(e)
              case Ok(json) => Resolve(json, model.className, env.validate, resp);
          AttemptOutcome(result, Some(resp))
  }

  /** An attempt consults the transport only twice: the preflight HEAD to
      the route's URL with the signed headers and no compression headers,
      and the POST to the same URL with the signed headers, the zstd label
      and the compressed JSON of the model. Any transport that answers those
      two calls alike gives the same attempt. */
  lemma AttemptSendsSignedRequests(k: nat, hotkey: string, sign: string -> string, url: string, model: Model,
                                   env: Env, other: Transport, opts: SendOptions)
    requires opts.enablePreflight ==>
               var args := (k, BuildUrl(url, model.className), SignedHeaders(hotkey, sign, false, ""), opts.timeoutSec);
               other.head(args.0, args.1, args.2, args.3) == env.transport.head(args.0, args.1, args.2, args.3)
    requires var payload := env.z.compress(env.codec.dumps(ModelDump(model)));
             var headers := SignedHeaders(hotkey, sign, true, "");
             other.post(k, BuildUrl(url, model.className), headers, payload, opts.timeoutSec)
             == env.transport.post(k, BuildUrl(url, model.className), headers, payload, opts.timeoutSec)
    ensures Attempt(k, hotkey, sign, url, model, env.(transport := other), opts)
            == Attempt(k, hotkey, sign, url, model, env, opts)
  {
    ClientEncodingSupported(hotkey, sign, model, env.codec, env.z);
  }

  /** A preflight that fails or is answered from 400 up ends the attempt
      before any POST: whatever the POST would have answered, the attempt is
      the same failure. */
  lemma PreflightFailureSkipsPost(k: nat, hotkey: string, sign: string -> string, url: string, model: Model,
                                  env: Env, post: (nat, string, map<string, string>, Bytes, int)
                                                  -> Result<(ClientResponse, Bytes), Exception>,
                                  opts: SendOptions)
    requires opts.enablePreflight
    requires var pre := env.transport.head(k, BuildUrl(url, model.className),
                                           SignedHeaders(hotkey, sign, false, ""), opts.timeoutSec);
             pre.Err? || pre.value.status >= 400
    ensures var o := Attempt(k, hotkey, sign, url, model, env, opts);
            o.posted.None? && o.result.Failed?
            && Attempt(k, hotkey, sign, url, model, env.(transport := env.transport.(post := post)), opts) == o
  {
  }

  /** Once the preflight passes (or is disabled), the POST decides the
      attempt: a transport failure fails it with nothing posted; a response
      is recorded, fails the attempt from 400 up, and otherwise its body is
      decoded and resolved. */
  lemma PostDecidesAttempt(k: nat, hotkey: string, sign: string -> string, url: string, model: Model,
                           env: Env, opts: SendOptions)
    requires opts.enablePreflight ==>
               var pre := env.transport.head(k, BuildUrl(url, model.className),
                                             SignedHeaders(hotkey, sign, false, ""), opts.timeoutSec);
               pre.Ok? && pre.value.status < 400
    ensures var p := env.transport.post(k, BuildUrl(url, model.className), SignedHeaders(hotkey, sign, true, ""),
                                        env.z.compress(env.codec.dumps(ModelDump(model))), opts.timeoutSec);
            var o := Attempt(k, hotkey, sign, url, model, env, opts);
            (p.Err? ==> o == AttemptOutcome(Failed(p.error), None))
            && (p.Ok? ==> o.posted == Some(p.value.0))
            && (p.Ok? && p.value.0.status >= 400 ==> o.result == Failed(ClientResponseError(p.value.0.status, "")))
            && (p.Ok? && p.value.0.status < 400 ==>
                  o.result == match DecodeResponseJson(p.value.0, p.value.1, env.codec, env.z)
                              case Err(e) => Failed(e)
                              case Ok(json) => Resolve(json, model.className, env.validate, p.value.0))
  {
    ClientEncodingSupported(hotkey, sign, model, env.codec, env.z);
  }

  // ---------------------------------------------------------------------------
  // Send: the retry loop

  /** `2 ** n` */
  function Pow2(n: nat): (p: nat)
    ensures p >= 1
  {
    if n == 0 then 1 else 2 * Pow2(n - 1)
  }

  lemma {:induction false} Pow2Monotone(m: nat, n: nat)
    requires m <= n
    ensures Pow2(m) <= Pow2(n)
  {
    if m < n {
      Pow2Monotone(m, n - 1);
    }
  }

  /** tenacity's `wait_exponential(multiplier, max)` before attempt `k + 1`:
      `multiplier * 2 ** (k - 1)`, capped at the maximum and never negative. */
  function WaitSeconds(k: nat, opts: SendOptions): (w: int)
    requires k >= 1
    ensures 0 <= w
    ensures opts.maxWaitSec >= 0 ==> w <= opts.maxWaitSec
  {
    Max(0, Min(opts.waitExponentialFactor * Pow2(k - 1), opts.maxWaitSec))
  }

  /** With a non-negative multiplier the waits never shrink from one retry
      to the next. */
  lemma WaitsNonDecreasing(k: nat, opts: SendOptions)
    requires k >= 1 && opts.waitExponentialFactor >= 0
    ensures WaitSeconds(k, opts) <= WaitSeconds(k + 1, opts)
  {
    Pow2Monotone(k - 1, k);
  }

  /** The pauses tenacity sleeps after the first `n` attempts. */
  function Pauses(n: nat, opts: SendOptions): (p: seq<int>)
    ensures |p| == n
    ensures forall i :: 0 <= i < n ==> p[i] == WaitSeconds(i + 1, opts)
  {
    seq(n, i requires 0 <= i < n => WaitSeconds(i + 1, opts))
  }

  lemma PausesSnoc(n: nat, opts: SendOptions)
    ensures Pauses(n + 1, opts) == Pauses(n, opts) + [WaitSeconds(n + 1, opts)]
  {
    assert forall i :: 0 <= i < n ==> Pauses(n + 1, opts)[i] == Pauses(n, opts)[i];
  }

  /** The loop's end: how the last attempt ended, the last POST response
      obtained, and how many attempts ran. */
  datatype Run = Run(result: AttemptResult, clientResponse: Option<ClientResponse>, attempts: nat)

  /** tenacity's `AsyncRetrying` with `stop_after_attempt(max_retries)`, from
      attempt `k` on. An attempt that settles ends the loop; one that fails
      with an Exception is retried until attempt number `max_retries` has
      run, and then the failure is wrapped in RetryError; a cancellation or
      keyboard interrupt is not retried and escapes as it is. */
  function Retrying(k: nat, hotkey: string, sign: string -> string, url: string, model: Model,
                    env: Env, opts: SendOptions, clientResponse: Option<ClientResponse>): (r: Run)
    requires k >= 1
    ensures k <= r.attempts <= Max(k, opts.maxRetries)
    ensures r.result.Failed? && IsException(r.result.exception) ==>
              r.result.exception.RetryError? && r.attempts == Max(k, opts.maxRetries)
    ensures r.result.Failed? && r.result.exception.RetryError? ==> IsException(r.result.exception.lastAttempt)
    ensures r.result.Done? ==> r.clientResponse.Some? && r.result.response.clientResponse == r.clientResponse
                               && r.clientResponse.value.status < 400
                               && r.result.response.body.className == model.className
    decreases opts.maxRetries - k
  {
    var o := Attempt(k, hotkey, sign, url, model, env, opts);
    var last := if o.posted.Some? then o.posted else clientResponse;
    match o.result
    case Done(response) => Run(Done(response), last, k)
    case Failed(e) =>
      if !IsException(e) then Run(Failed(e), last, k)
      else if k >= opts.maxRetries then Run(Failed(RetryError(e)), last, k)
      else Retrying(k + 1, hotkey, sign, url, model, env, opts, last)
  }

  /** One step of the loop: the attempt numbered `k` and what follows it. */
  lemma RetryingStep(k: nat, hotkey: string, sign: string -> string, url: string, model: Model,
                     env: Env, opts: SendOptions, clientResponse: Option<ClientResponse>)
    requires k >= 1
    ensures var o := Attempt(k, hotkey, sign, url, model, env, opts);
            var last := if o.posted.Some? then o.posted else clientResponse;
            Retrying(k, hotkey, sign, url, model, env, opts, clientResponse)
            == if o.result.Done? || !IsException(o.result.exception) then Run(o.result, last, k)
               else if k >= opts.maxRetries then Run(Failed(RetryError(o.result.exception)), last, k)
               else Retrying(k + 1, hotkey, sign, url, model, env, opts, last)
  {
  }

  /** The whole loop of one send. It runs at least one attempt and never more
      than `max_retries`, so `max_retries` counts attempts, not retries. */
  function SendRun(hotkey: string, sign: string -> string, url: string, model: Model,
                   env: Env, opts: SendOptions): (r: Run)
    ensures 1 <= r.attempts <= Max(1, opts.maxRetries)
    ensures r.result.Failed? && IsException(r.result.exception) ==> r.attempts == Max(1, opts.maxRetries)
  {
    Retrying(1, hotkey, sign, url, model, env, opts, None)
  }

  /** What `except` clauses of lines 306-333 record for an exception that
      ended the loop. */
  function Caught(e: Exception): Exception {
    if e.CancelledError? then CancelledError("Request was cancelled")
    else if e.KeyboardInterrupt? then KeyboardInterrupt("Request interrupted")
    else e
  }

  /** `send`: never raises. Its result always has a body of the requested
      class; a result without exception comes from a POST answered below 400;
      a failed send has an empty body, the exception, and the last POST
      response obtained. */
  function SendOutcome(hotkey: string, sign: string -> string, url: string, model: Model,
                       env: Env, opts: SendOptions): (r: StdResponse)
    ensures r.body.className == model.className
    ensures r.exception.None? ==> r.clientResponse.Some? && r.clientResponse.value.status < 400
    ensures SendRun(hotkey, sign, url, model, env, opts).result.Failed? ==>
              r.body == EmptyModel(model.className) && r.exception.Some?
              && r.clientResponse == SendRun(hotkey, sign, url, model, env, opts).clientResponse
  {
    var run := SendRun(hotkey, sign, url, model, env, opts);
    match run.result
    case Done(response) => response
    case Failed(e) => StdResponse(EmptyModel(model.className), run.clientResponse, exception := Some(Caught(e)))
  }

  /** A transport whose every call fails to connect. */
  function Unreachable(message: string): Transport {
    Transport((k, url, headers, timeout) => Err(ClientConnectionError(message)),
              (k, url, headers, payload, timeout) => Err(ClientConnectionError(message)))
  }

  lemma {:induction false} UnreachableRetrying(k: nat, hotkey: string, sign: string -> string, url: string,
                                               model: Model, env: Env, opts: SendOptions, message: string)
    requires k >= 1 && env.transport == Unreachable(message)
    ensures Retrying(k, hotkey, sign, url, model, env, opts, None)
            == Run(Failed(RetryError(ClientConnectionError(message))), None, Max(k, opts.maxRetries))
    decreases opts.maxRetries - k
  {
    ClientEncodingSupported(hotkey, sign, model, env.codec, env.z);
    assert Attempt(k, hotkey, sign, url, model, env, opts)
           == AttemptOutcome(Failed(ClientConnectionError(message)), None);
    if k < opts.maxRetries {
      UnreachableRetrying(k + 1, hotkey, sign, url, model, env, opts, message);
    }
  }

  /** Against an unreachable server a send makes exactly `max(1, max_retries)`
      attempts and reports the connection error wrapped in RetryError, with
      an empty body and no response. */
  lemma UnreachableServerExhaustsRetries(hotkey: string, sign: string -> string, url: string, model: Model,
                                         env: Env, opts: SendOptions, message: string)
    requires env.transport == Unreachable(message)
    ensures SendRun(hotkey, sign, url, model, env, opts).attempts == Max(1, opts.maxRetries)
    ensures SendOutcome(hotkey, sign, url, model, env, opts)
            == StdResponse(EmptyModel(model.className), None,
                           exception := Some(RetryError(ClientConnectionError(message))))
  {
    UnreachableRetrying(1, hotkey, sign, url, model, env, opts, message);
  }

  /** When every attempt from `k` on fails with an ordinary exception, the
      loop runs every attempt it is allowed and reports the last failure
      wrapped in RetryError. */
  lemma {:induction false} FailingAttemptsExhaust(k: nat, hotkey: string, sign: string -> string, url: string,
                                                  model: Model, env: Env, opts: SendOptions,
                                                  clientResponse: Option<ClientResponse>)
    requires k >= 1
    requires forall j: nat :: k <= j ==>
               Attempt(j, hotkey, sign, url, model, env, opts).result.Failed?
               && IsException(Attempt(j, hotkey, sign, url, model, env, opts).result.exception)
    ensures var n := Max(k, opts.maxRetries);
            var r := Retrying(k, hotkey, sign, url, model, env, opts, clientResponse);
            r.attempts == n
            && r.result == Failed(RetryError(Attempt(n, hotkey, sign, url, model, env, opts).result.exception))
    decreases opts.maxRetries - k
  {
    var o := Attempt(k, hotkey, sign, url, model, env, opts);
    var last := if o.posted.Some? then o.posted else clientResponse;
    if k < opts.maxRetries {
      FailingAttemptsExhaust(k + 1, hotkey, sign, url, model, env, opts, last);
    }
  }

  /** A transport that answers every request with the same response and an
      empty body. */
  function AlwaysAnswers(resp: ClientResponse): Transport {
    Transport((k, url, headers, timeout) => Ok(resp),
              (k, url, headers, payload, timeout) => Ok((resp, [])))
  }

  /** A server that answers every request with an error status (503, say)
      costs exactly `max(1, max_retries)` attempts, and the send reports the
      status error wrapped in RetryError, with an empty body. */
  lemma ErrorStatusExhaustsRetries(hotkey: string, sign: string -> string, url: string, model: Model,
                                   env: Env, opts: SendOptions, resp: ClientResponse)
    requires resp.status >= 400 && env.transport == AlwaysAnswers(resp)
    ensures SendRun(hotkey, sign, url, model, env, opts).attempts == Max(1, opts.maxRetries)
    ensures var r := SendOutcome(hotkey, sign, url, model, env, opts);
            r.body == EmptyModel(model.className)
            && r.exception == Some(RetryError(ClientResponseError(resp.status, "")))
  {
    forall j: nat | 1 <= j
      ensures Attempt(j, hotkey, sign, url, model, env, opts).result == Failed(ClientResponseError(resp.status, ""))
    {
      ClientEncodingSupported(hotkey, sign, model, env.codec, env.z);
    }
    FailingAttemptsExhaust(1, hotkey, sign, url, model, env, opts, None);
  }

  /** From attempt `j` on, attempts that fail with an ordinary exception are
      retried until attempt `k` is cancelled, and the loop ends there. */
  lemma {:induction false} CancelledAttemptEndsLoop(j: nat, k: nat, hotkey: string, sign: string -> string,
                                                    url: string, model: Model, env: Env, opts: SendOptions,
                                                    clientResponse: Option<ClientResponse>, message: string)
    requires 1 <= j <= k <= Max(1, opts.maxRetries)
    requires forall i :: j <= i < k ==>
               (Attempt(i, hotkey, sign, url, model, env, opts).result.Failed?
                && IsException(Attempt(i, hotkey, sign, url, model, env, opts).result.exception))
    requires Attempt(k, hotkey, sign, url, model, env, opts).result == Failed(CancelledError(message))
    ensures Retrying(j, hotkey, sign, url, model, env, opts, clientResponse).attempts == k
    ensures Retrying(j, hotkey, sign, url, model, env, opts, clientResponse).result == Failed(CancelledError(message))
    decreases k - j
  {
    RetryingStep(j, hotkey, sign, url, model, env, opts, clientResponse);
    if j < k {
      var o := Attempt(j, hotkey, sign, url, model, env, opts);
      CancelledAttemptEndsLoop(j + 1, k, hotkey, sign, url, model, env, opts,
                               if o.posted.Some? then o.posted else clientResponse, message);
    }
  }

  /** A cancellation during any attempt ends the send after that attempt,
      with no retry, as a result recording "Request was cancelled". */
  lemma CancellationNotRetried(k: nat, hotkey: string, sign: string -> string, url: string, model: Model,
                               env: Env, opts: SendOptions, message: string)
    requires 1 <= k <= Max(1, opts.maxRetries)
    requires forall i :: 1 <= i < k ==>
               (Attempt(i, hotkey, sign, url, model, env, opts).result.Failed?
                && IsException(Attempt(i, hotkey, sign, url, model, env, opts).result.exception))
    requires Attempt(k, hotkey, sign, url, model, env, opts).result == Failed(CancelledError(message))
    ensures SendRun(hotkey, sign, url, model, env, opts).attempts == k
    ensures SendOutcome(hotkey, sign, url, model, env, opts).exception
            == Some(CancelledError("Request was cancelled"))
  {
    CancelledAttemptEndsLoop(1, k, hotkey, sign, url, model, env, opts, None, message);
  }

  /** A failed attempt with attempts to spare is followed by the next one. */
  lemma FailureRetried(k: nat, hotkey: string, sign: string -> string, url: string, model: Model,
                       env: Env, opts: SendOptions, clientResponse: Option<ClientResponse>)
    requires 1 <= k < opts.maxRetries
    requires var o := Attempt(k, hotkey, sign, url, model, env, opts);
             o.result.Failed? && IsException(o.result.exception)
    ensures var o := Attempt(k, hotkey, sign, url, model, env, opts);
            Retrying(k, hotkey, sign, url, model, env, opts, clientResponse)
            == Retrying(k + 1, hotkey, sign, url, model, env, opts,
                        if o.posted.Some? then o.posted else clientResponse)
  {
  }

  // ---------------------------------------------------------------------------
  // Client

  class Client {
    const hotkey: string
    /** `KamiClient.sign_message`, an external call. */
    const sign: string -> string
    var session: Option<Session>

    /** `Client.__init__`: a session object is always truthy, so the default
        session is made only when none is given. */
    constructor (hotkey: string, sign: string -> string, session: Option<Session> := None)
      ensures this.hotkey == hotkey && this.sign == sign
      ensures this.session == Some(if session.Some? then session.value else GetClient())
    {
      this.hotkey := hotkey;
      this.sign := sign;
      this.session := Some(if session.Some? then session.value else GetClient());
    }

    /** `_build_headers`, step by step. */
    method BuildHeaders(includeCompression: bool := true, message: string := "")
      returns (headers: map<string, string>)
      ensures headers == SignedHeaders(hotkey, sign, includeCompression, message)
    {
      var m := message;
      if m == "" {
        m := DefaultMessagePrefix + hotkey;
      }
      var signature := sign(m);
      headers := map["content-type" := "application/json", SignatureHeader := signature,
                     HotkeyHeader := hotkey, MessageHeader := m];
      if includeCompression {
        headers := headers + CompressionHeaders;
      }
    }

    /** `_ensure_session`: a missing or closed session is replaced by a new
        default one; an open one is kept. */
    method EnsureSession()
      modifies this
      ensures session.Some? && !session.value.closed
      ensures old(session).Some? && !old(session).value.closed ==> session == old(session)
      ensures old(session).None? || old(session).value.closed ==> session == Some(GetClient())
    {
      if session.None? || session.value.closed {
        session := Some(GetClient());
      }
    }

    /** The body of one attempt, step by step. */
    method RunAttempt(k: nat, url: string, model: Model, env: Env, opts: SendOptions)
      returns (o: AttemptOutcome)
      ensures o == Attempt(k, hotkey, sign, url, model, env, opts)
    {
      var target := BuildUrl(url, model.className);
      if opts.enablePreflight {
        var headHeaders := BuildHeaders(false);
        var head := env.transport.head(k, target, headHeaders, opts.timeoutSec);
        if head.Err? {
          return AttemptOutcome(Failed(head.error), None);
        }
        if head.value.status >= 400 {
          return AttemptOutcome(Failed(ClientResponseError(head.value.status, "")), None);
        }
      }
      var headers := BuildHeaders();
      var payload := EncodeBody(model, headers, env.codec, env.z);
      if payload.Err? {
        return AttemptOutcome(Failed(payload.error), None);
      }
      var posted := env.transport.post(k, target, headers, payload.value, opts.timeoutSec);
      if posted.Err? {
        return AttemptOutcome(Failed(posted.error), None);
      }
      var (clientResp, bytes) := posted.value;
      if clientResp.status >= 400 {
        return AttemptOutcome(Failed(ClientResponseError(clientResp.status, "")), Some(clientResp));
      }
      var json := DecodeResponseJson(clientResp, bytes, env.codec, env.z);
      if json.Err? {
        return AttemptOutcome(Failed(json.error), Some(clientResp));
      }
      o := AttemptOutcome(Resolve(json.value, model.className, env.validate, clientResp), Some(clientResp));
    }

    /** The `AsyncRetrying` loop of `send`: attempts until one settles, one
        fails with a cancellation or an interrupt, or the attempts run out;
        returns how the loop ended and the pauses tenacity sleeps between
        attempts. */
    method RetryLoop(url: string, model: Model, env: Env, opts: SendOptions)
      returns (run: Run, sleeps: seq<int>)
      ensures run == SendRun(hotkey, sign, url, model, env, opts)
      ensures sleeps == Pauses(run.attempts - 1, opts)
    {
      var clientResp: Option<ClientResponse> := None;
      var k: nat := 1;
      sleeps := [];
      while true
        invariant k >= 1
        invariant SendRun(hotkey, sign, url, model, env, opts)
                  == Retrying(k, hotkey, sign, url, model, env, opts, clientResp)
        invariant sleeps == Pauses(k - 1, opts)
        decreases opts.maxRetries - k
      {
        var o := RunAttempt(k, url, model, env, opts);
        RetryingStep(k, hotkey, sign, url, model, env, opts, clientResp);
        if o.posted.Some? {
          clientResp := o.posted;
        }
        if o.result.Done? || !IsException(o.result.exception) {
          return Run(o.result, clientResp, k), sleeps;
        }
        if k >= opts.maxRetries {
          return Run(Failed(RetryError(o.result.exception)), clientResp, k), sleeps;
        }
        PausesSnoc(k - 1, opts);
        sleeps := sleeps + [WaitSeconds(k, opts)];
        k := k + 1;
      }
    }

    /** `send`: the retry loop inside the `except` clauses that turn whatever
        ended it into a result. */
    method Send(url: string, model: Model, env: Env, opts: SendOptions := SendOptions())
      returns (r: StdResponse, sleeps: seq<int>)
      modifies this
      ensures r == SendOutcome(hotkey, sign, url, model, env, opts)
      ensures sleeps == Pauses(SendRun(hotkey, sign, url, model, env, opts).attempts - 1, opts)
      ensures session.Some? && !session.value.closed
    {
      EnsureSession();
      var run;
      run, sleeps := RetryLoop(url, model, env, opts);
      match run.result
      case Done(response) =>
        r := response;
      case Failed(e) =>
        r := StdResponse(EmptyModel(model.className), run.clientResponse, exception := Some(Caught(e)));
    }

    /** `batch_send`: one result per (url, model) pair of the shorter list, in
        order, each what `send` gives for that pair; the semaphore only
        limits concurrency and does not change any result. */
    method BatchSend(urls: seq<string>, models: seq<Model>, env: Env, opts: SendOptions := SendOptions(),
                     semaphore: Option<nat> := None)
      returns (responses: seq<StdResponse>)
      modifies this
      ensures |responses| == Min(|urls|, |models|)
      ensures forall i :: 0 <= i < |responses| ==>
                responses[i] == SendOutcome(hotkey, sign, urls[i], models[i], env, opts)
    {
      responses := [];
      for i := 0 to Min(|urls|, |models|)
        invariant |responses| == i
        invariant forall j :: 0 <= j < i ==> responses[j] == SendOutcome(hotkey, sign, urls[j], models[j], env, opts)
      {
        var r, _ := Send(urls[i], models[i], env, opts);
        responses := responses + [r];
      }
    }
  }
}
