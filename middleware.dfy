/** messaging/middleware.py: the authentication gate over the identity
    headers and the zstd transcoding of request and response bodies. Both
    middlewares keep a whitelist of paths they leave alone. */
module Middleware {
  import opened Common
  import opened Types
  import opened Http
  import opened Utils

  // ---------------------------------------------------------------------------
  // Whitelist

  /** `whitelisted_routes or []`: the caller's list, or a new empty list when
      the caller gave none or an empty one. */
  function Supplied(routes: Option<seq<string>>): seq<string> {
    match routes
    case Some(r) => r
    case None => []
  }

  /** The whitelist either middleware holds after construction: the supplied
      list, with "/docs" appended once when it is not already on it. */
  function WithDocs(routes: Option<seq<string>>): (r: seq<string>)
    ensures "/docs" in r
    ensures "/docs" in Supplied(routes) ==> r == Supplied(routes)
    ensures "/docs" !in Supplied(routes) ==>
              |r| == |Supplied(routes)| + 1 && r[..|Supplied(routes)|] == Supplied(routes)
              && multiset(r)["/docs"] == 1
  {
    var given := Supplied(routes);
    if "/docs" in given then given
    else
      assert (given + ["/docs"])[..|given|] == given;
      given + ["/docs"]
  }

  // ---------------------------------------------------------------------------
  // SignatureMiddleware

  /** `kami.verify(hotkey=..., message=..., signature=...)`, an external call. */
  type Verifier = (string, string, string) -> bool

  /** What the gate does with a request: pass the next stage's response on, or
      answer itself with an envelope. */
  datatype GateResult = Forwarded(response: Response) | Rejected(rejection: JsonResponse)

  /** Python's `repr` of a string, for strings without quotes or escapes. */
  function PyRepr(s: string): string {
    "'" + s + "'"
  }

  /** The leading whitespace that the backslash continuations of the error
      f-string carry into the message. */
  const Continuation: string := "                    "

  /** The 400 error text: it names the three expected headers and shows what
      was received for each. */
  function MissingHeadersError(hotkey: string, signature: string, message: string): string {
    ExpectedPrefix + SignatureHeader + ", " + HotkeyHeader + ", " + MessageHeader + ", "
    + Received(hotkey, signature, message)
  }

  const ExpectedPrefix: string := "Bad Request, missing " + Continuation + "headers, expected: "

  /** The second line of the 400 error: the values that were received. */
  function Received(hotkey: string, signature: string, message: string): string {
    Continuation + "got: hotkey=" + PyRepr(hotkey) + ", signature=" + PyRepr(signature)
    + ", message=" + PyRepr(message)
  }

  /** Each of three strings spliced into a text occurs in it. */
  lemma ContainsSpliced(a: string, x: string, b: string, y: string, c: string, z: string, d: string, e: string)
    ensures var s := a + x + b + y + c + z + d + e;
            Contains(s, x) && Contains(s, y) && Contains(s, z)
  {
    var s := a + x + b + y + c + z + d + e;
    assert s == a + x + (b + y + c + z + d + e);
    ContainsMiddle(a, x, b + y + c + z + d + e);
    assert s == (a + x + b) + y + (c + z + d + e);
    ContainsMiddle(a + x + b, y, c + z + d + e);
    assert s == (a + x + b + y + c) + z + (d + e);
    ContainsMiddle(a + x + b + y + c, z, d + e);
  }

  const InvalidSignatureError: string := "Forbidden due to invalid signature"

  /** The identity headers as the gate reads them ("" when absent). */
  function Credentials(request: Request): (string, string, string) {
    (GetOr(request.headers, HotkeyHeader, ""),
     GetOr(request.headers, SignatureHeader, ""),
     GetOr(request.headers, MessageHeader, ""))
  }

  predicate HasCredentials(request: Request) {
    var (hotkey, signature, message) := Credentials(request);
    hotkey != "" && signature != "" && message != ""
  }

  /** `SignatureMiddleware.dispatch`. A whitelisted path goes to the next stage
      as it is. Otherwise a missing or empty identity header is answered with
      400, a signature the verifier rejects with 403, and only a verified
      request reaches the next stage, whose response is returned unchanged. */
  function Authenticate(whitelist: seq<string>, verify: Verifier, request: Request, next: Request -> Response)
    : (r: GateResult)
    ensures r.Forwarded? <==>
              request.path in whitelist
              || (HasCredentials(request)
                  && verify(Credentials(request).0, Credentials(request).2, Credentials(request).1))
    ensures r.Forwarded? ==> r.response == next(request)
    ensures r.Rejected? ==>
              r.rejection.status == (if HasCredentials(request) then 403 else 400)
              && r.rejection.content.JObj?
              && r.rejection.content.fields.Keys == {"body", "error", "metadata"}
              && r.rejection.content.fields["body"] == EmptyObject
              && r.rejection.content.fields["error"].JStr?
              && r.rejection.content.fields["metadata"] == EmptyObject
  {
    if request.path in whitelist then Forwarded(next(request))
    else
      var (hotkey, signature, message) := Credentials(request);
      if hotkey == "" || signature == "" || message == "" then
        Rejected(JsonResponse(400, Envelope(EmptyObject, Some(MissingHeadersError(hotkey, signature, message)), map[])))
      else if !verify(hotkey, message, signature) then
        Rejected(JsonResponse(403, Envelope(EmptyObject, Some(InvalidSignatureError), map[])))
      else
        Forwarded(next(request))
  }

  /** On a whitelisted path the gate reads no header and consults neither the
      verifier nor anything but the next stage: any verifier and any headers
      give the same forwarding. */
  lemma WhitelistBypassesGate(whitelist: seq<string>, v1: Verifier, v2: Verifier,
                              request: Request, headers: Headers, next: Request -> Response)
    requires request.path in whitelist
    ensures Authenticate(whitelist, v1, request, next) == Forwarded(next(request))
    ensures Authenticate(whitelist, v2, request.(headers := headers), next).Forwarded?
  {
  }

  /** A request without all three identity headers is answered with 400 and
      an error naming the three headers, whatever the verifier or the next
      stage would do: neither is consulted. */
  lemma MissingCredentialsShortCircuit(whitelist: seq<string>, v1: Verifier, v2: Verifier,
                                       request: Request, n1: Request -> Response, n2: Request -> Response)
    requires request.path !in whitelist && !HasCredentials(request)
    ensures Authenticate(whitelist, v1, request, n1) == Authenticate(whitelist, v2, request, n2)
    ensures var r := Authenticate(whitelist, v1, request, n1);
            r.Rejected? && r.rejection.status == 400
            && r.rejection.content.fields["error"].JStr?
            && Contains(r.rejection.content.fields["error"].s, SignatureHeader)
            && Contains(r.rejection.content.fields["error"].s, HotkeyHeader)
            && Contains(r.rejection.content.fields["error"].s, MessageHeader)
  {
    var (hotkey, signature, message) := Credentials(request);
    ContainsSpliced(ExpectedPrefix, SignatureHeader, ", ", HotkeyHeader, ", ", MessageHeader, ", ",
                    Received(hotkey, signature, message));
  }

  /** With all three identity headers present, the verifier alone decides:
      the next stage's response when it accepts, 403 with "Forbidden due to
      invalid signature" when it refuses. */
  lemma VerifierDecides(whitelist: seq<string>, verify: Verifier, request: Request, next: Request -> Response)
    requires request.path !in whitelist && HasCredentials(request)
    ensures var (hotkey, signature, message) := Credentials(request);
            Authenticate(whitelist, verify, request, next)
            == if verify(hotkey, message, signature) then Forwarded(next(request))
               else Rejected(JsonResponse(403, Envelope(EmptyObject, Some(InvalidSignatureError), map[])))
  {
  }

  class SignatureMiddleware {
    const kami: Verifier
    var whitelistedRoutes: seq<string>

    /** `SignatureMiddleware.__init__` */
    constructor (kami: Verifier, whitelistedRoutes: Option<seq<string>> := None)
      ensures this.kami == kami
      ensures this.whitelistedRoutes == WithDocs(whitelistedRoutes)
    {
      this.kami := kami;
      var routes := Supplied(whitelistedRoutes);
      if "/docs" !in routes {
        routes := routes + ["/docs"];
      }
      this.whitelistedRoutes := routes;
    }

    /** `SignatureMiddleware.dispatch`, step by step. */
    method Dispatch(request: Request, next: Request -> Response) returns (r: GateResult)
      ensures r == Authenticate(whitelistedRoutes, kami, request, next)
    {
      if request.path in whitelistedRoutes {
        return Forwarded(next(request));
      }
      var signature := GetOr(request.headers, SignatureHeader, "");
      var hotkey := GetOr(request.headers, HotkeyHeader, "");
      var message := GetOr(request.headers, MessageHeader, "");
      if hotkey == "" || signature == "" || message == "" {
        var rejection := CreateResponse(EmptyObject, 400, Some(MissingHeadersError(hotkey, signature, message)));
        return Rejected(rejection);
      }
      if !kami(hotkey, message, signature) {
        var rejection := CreateResponse(EmptyObject, 403, Some(InvalidSignatureError));
        return Rejected(rejection);
      }
      var response := next(request);
      return Forwarded(response);
    }
  }

  // ---------------------------------------------------------------------------
  // ZstdMiddleware

  /** Whitelisted paths and HEAD requests are passed through untouched. */
  predicate Bypassed(whitelist: seq<string>, request: Request) {
    request.path in whitelist || request.verb == "HEAD"
  }

  /** Lines 93-97: the body the next stage sees. The middleware decides on the
      lower-cased content-encoding, but the decompression itself is done by
      `decode_body`, which tests the raw header value for the substring
      "zstd". */
  function InboundBody(request: Request, z: Zstd): (r: Result<Bytes, Exception>)
    ensures GetOr(request.headers, "content-encoding", "") == "zstd" ==> r == DecodeBody(request, z)
    ensures Lower(GetOr(request.headers, "content-encoding", "")) != "zstd" ==> r == Ok(request.body)
    ensures (Lower(GetOr(request.headers, "content-encoding", "")) == "zstd"
             && GetOr(request.headers, "content-encoding", "") != "zstd") ==> r == Ok(request.body)
  {
    var encoding := GetOr(request.headers, "content-encoding", "");
    if Lower(encoding) == "zstd" then
      ExactZstdContainsOnlyItself(encoding);
      DecodeBody(request, z)
    else Ok(request.body)
  }

  /** A four-letter value contains "zstd" only if it is "zstd". */
  lemma ExactZstdContainsOnlyItself(v: string)
    requires |v| == 4
    ensures Contains(v, "zstd") <==> v == "zstd"
  {
    if Contains(v, "zstd") {
      var i :| 0 <= i <= |v| - 4 && OccursAt(v, "zstd", i);
      assert i == 0;
      assert v[0..4] == v;
    }
    if v == "zstd" {
      assert OccursAt(v, "zstd", 0);
    }
  }

  /** Lines 101-135, after the next stage has answered. The first body section
      is taken before the emptiness test, so a response without body sections
      fails with IndexError. When the accept-encoding header, lower-cased,
      contains "zstd", a new response with the same status and headers carries
      the compressed first section, labelled `content-encoding: zstd` with
      its length as content-length. Otherwise the response keeps its sections
      and gets the length of the first section as content-length. */
  function Outbound(requestHeaders: Headers, response: Response, z: Zstd): (r: Result<Response, Exception>)
    ensures response.sections == [] <==> r.Err?
    ensures r.Err? ==> r.error.IndexError?
    ensures r.Ok? ==> r.value.status == response.status
    ensures r.Ok? && Contains(Lower(GetOr(requestHeaders, "accept-encoding", "")), "zstd") ==>
              r.value.sections == [z.compress(response.sections[0])]
              && r.value.headers == response.headers["content-encoding" := "zstd"]
                                                   ["content-length" := NatToString(|z.compress(response.sections[0])|)]
    ensures r.Ok? && !Contains(Lower(GetOr(requestHeaders, "accept-encoding", "")), "zstd") ==>
              r.value.sections == response.sections
              && r.value.headers == response.headers["content-length" := NatToString(|response.sections[0]|)]
  {
    if response.sections == [] then Err(IndexError("list index out of range"))
    else
      var first := response.sections[0];
      if Contains(Lower(GetOr(requestHeaders, "accept-encoding", "")), "zstd") then
        var compressed := z.compress(first);
        Ok(Response(response.status,
                    response.headers["content-encoding" := "zstd"]["content-length" := NatToString(|compressed|)],
                    [compressed]))
      else
        Ok(response.(headers := response.headers["content-length" := NatToString(|first|)]))
  }

  /** `ZstdMiddleware.dispatch` as a whole. Otherwise the next stage is
      called with the inbound body in place of the request's, and only a
      failed decompression (400) or an empty response (IndexError) fails. */
  function Transcode(whitelist: seq<string>, request: Request, next: Request -> Response, z: Zstd)
    : (r: Result<Response, Exception>)
    ensures Bypassed(whitelist, request) ==> r == Ok(next(request))
    ensures !Bypassed(whitelist, request) && InboundBody(request, z).Ok? ==>
              r == Outbound(request.headers, next(request.(body := InboundBody(request, z).value)), z)
    ensures r.Err? ==> (r.error.HTTPException? && r.error.statusCode == 400) || r.error.IndexError?
  {
    if Bypassed(whitelist, request) then Ok(next(request))
    else
      match InboundBody(request, z)
      case Err(e) => Err(e)
      case Ok(body) => Outbound(request.headers, next(request.(body := body)), z)
  }

  /** A request labelled exactly "zstd" whose body is not a zstd frame never
      reaches the next stage: the dispatch fails with `decode_body`'s
      HTTPException 400. */
  lemma CorruptCompressedRequestRejected(whitelist: seq<string>, request: Request,
                                         next: Request -> Response, z: Zstd)
    requires !Bypassed(whitelist, request)
    requires GetOr(request.headers, "content-encoding", "") == "zstd"
    requires z.decompress(request.body).Err?
    ensures Transcode(whitelist, request, next, z)
            == Err(HTTPException(400, "Failed to decompress zstd data: " + z.decompress(request.body).error))
  {
    assert Get(request.headers, "content-encoding") == Some("zstd");
    assert OccursAt("zstd", "zstd", 0);
  }

  /** What a client that sent `accept-encoding: zstd` receives decompresses to
      the first body section, and its content-length reads back as the length
      of the bytes sent. */
  lemma CompressedResponseRoundTrip(requestHeaders: Headers, response: Response, z: Zstd)
    requires ZstdRoundTrip(z)
    requires response.sections != []
    requires Contains(Lower(GetOr(requestHeaders, "accept-encoding", "")), "zstd")
    ensures var r := Outbound(requestHeaders, response, z).value;
            |r.sections| == 1 && z.decompress(r.sections[0]) == Ok(response.sections[0])
            && r.headers["content-encoding"] == "zstd"
            && ParseNat(r.headers["content-length"]) == |r.sections[0]|
  {
    var r := Outbound(requestHeaders, response, z).value;
    assert z.decompress(z.compress(response.sections[0])) == Ok(response.sections[0]);
    ParseNatToString(|r.sections[0]|);
  }

  /** A single-section response sent uncompressed carries a content-length
      that reads back as its body length. */
  lemma UncompressedContentLength(requestHeaders: Headers, response: Response, z: Zstd)
    requires |response.sections| == 1
    requires !Contains(Lower(GetOr(requestHeaders, "accept-encoding", "")), "zstd")
    ensures var r := Outbound(requestHeaders, response, z).value;
            r.sections == response.sections && ParseNat(r.headers["content-length"]) == |r.sections[0]|
  {
    ParseNatToString(|response.sections[0]|);
  }

  // ---------------------------------------------------------------------------
  // Findings in ZstdMiddleware.dispatch

  /** The client labels a compressed body with exactly "zstd"; such a body
      reaches the handler as the original bytes. */
  lemma RequestBodyRoundTrip(request: Request, z: Zstd, payload: Bytes)
    requires ZstdRoundTrip(z)
    requires GetOr(request.headers, "content-encoding", "") == "zstd"
    requires request.body == z.compress(payload)
    ensures InboundBody(request, z) == Ok(payload)
  {
    assert Get(request.headers, "content-encoding") == Some("zstd");
    assert OccursAt("zstd", "zstd", 0);
    DecodeBodyRoundTrip(request, z, payload);
  }

  /** As written, a body labelled "ZSTD" passes the middleware's lower-cased
      test but not the case-sensitive one of `decode_body`, so the handler
      receives the compressed bytes instead of the payload. */
  lemma UppercaseZstdNotDecompressed(request: Request, z: Zstd, payload: Bytes)
    requires GetOr(request.headers, "content-encoding", "") == "ZSTD"
    requires request.body == z.compress(payload) && z.compress(payload) != payload
    ensures InboundBody(request, z) == Ok(z.compress(payload))
    ensures InboundBody(request, z) != Ok(payload)
  {
    assert Lower("ZSTD") == "zstd" by {
      assert forall i :: 0 <= i < 4 ==> Lower("ZSTD")[i] == "zstd"[i];
    }
  }

  /** Lines 93-97 as evidently intended: whatever letter case the
      content-encoding uses, a body the middleware routes to decompression is
      decompressed, and a failure is the same 400 error. */
  function InboundBodyFixed(request: Request, z: Zstd): (r: Result<Bytes, Exception>)
    ensures Lower(GetOr(request.headers, "content-encoding", "")) != "zstd" ==> r == Ok(request.body)
    ensures Lower(GetOr(request.headers, "content-encoding", "")) == "zstd" ==>
              (r.Ok? <==> z.decompress(request.body).Ok?)
              && (r.Err? ==> r.error.HTTPException? && r.error.statusCode == 400)
  {
    if Lower(GetOr(request.headers, "content-encoding", "")) == "zstd" then
      match z.decompress(request.body)
      case Ok(decompressed) => Ok(decompressed)
      case Err(e) => Err(HTTPException(400, "Failed to decompress zstd data: " + e))
    else Ok(request.body)
  }

  /** The corrected inbound step restores a compressed payload for any letter
      case of "zstd", and agrees with the written one on the exact spelling. */
  lemma InboundBodyFixedRoundTrip(request: Request, z: Zstd, payload: Bytes)
    requires ZstdRoundTrip(z)
    requires Lower(GetOr(request.headers, "content-encoding", "")) == "zstd"
    requires request.body == z.compress(payload)
    ensures InboundBodyFixed(request, z) == Ok(payload)
    ensures GetOr(request.headers, "content-encoding", "") == "zstd"
            ==> InboundBodyFixed(request, z) == InboundBody(request, z)
  {
    assert z.decompress(z.compress(payload)) == Ok(payload);
    if GetOr(request.headers, "content-encoding", "") == "zstd" {
      RequestBodyRoundTrip(request, z, payload);
    }
  }

  /** The bytes a response body iterator yields, in order. */
  function Concat(sections: seq<Bytes>): (b: Bytes)
    ensures |sections| == 1 ==> b == sections[0]
    ensures sections == [] ==> b == []
  {
    if sections == [] then [] else Concat(sections[..|sections| - 1]) + sections[|sections| - 1]
  }

  /** As written, a response without body sections makes the middleware fail
      with IndexError instead of passing the response on. */
  lemma EmptyResponseBodyFails(requestHeaders: Headers, status: nat, headers: map<string, string>, z: Zstd)
    ensures Outbound(requestHeaders, Response(status, headers, []), z)
            == Err(IndexError("list index out of range"))
  {
  }

  /** As written, a body that arrives in two sections keeps both but is
      labelled with the length of the first only (uncompressed), or loses the
      second (compressed). */
  lemma MultiSectionBodyMislabelled(z: Zstd)
    ensures var response := Response(200, map[], [[1], [2]]);
            var r := Outbound([], response, z).value;
            ParseNat(r.headers["content-length"]) == 1 && |Concat(r.sections)| == 2
  {
    var response := Response(200, map[], [[1], [2]]);
    assert !Contains(Lower(GetOr([], "accept-encoding", "")), "zstd") by {
      assert GetOr([], "accept-encoding", "") == "";
      assert Lower("") == "";
    }
    ParseNatToString(1);
    var sections: seq<Bytes> := [[1], [2]];
    assert sections[..1] == [[1]];
    assert Concat(sections) == [1, 2];
  }

  /** Lines 101-135 as evidently intended: a response without body is passed
      on unchanged, and otherwise the whole body, all its sections joined, is
      compressed or measured. */
  function OutboundFixed(requestHeaders: Headers, response: Response, z: Zstd): (r: Response)
    ensures r.status == response.status
    ensures response.sections == [] ==> r == response
    ensures response.sections != [] && Contains(Lower(GetOr(requestHeaders, "accept-encoding", "")), "zstd")
            ==> "content-encoding" in r.headers && r.headers["content-encoding"] == "zstd" && |r.sections| == 1
  {
    if response.sections == [] then response
    else
      var body := Concat(response.sections);
      if Contains(Lower(GetOr(requestHeaders, "accept-encoding", "")), "zstd") then
        var compressed := z.compress(body);
        Response(response.status,
                 response.headers["content-encoding" := "zstd"]["content-length" := NatToString(|compressed|)],
                 [compressed])
      else
        response.(headers := response.headers["content-length" := NatToString(|body|)])
  }

  /** What the corrected outbound step delivers reads back as the whole body
      the handler produced, and its content-length, when set, is the length
      of what is delivered. */
  lemma OutboundFixedDeliversWholeBody(requestHeaders: Headers, response: Response, z: Zstd)
    requires ZstdRoundTrip(z)
    requires response.sections != []
    ensures var r := OutboundFixed(requestHeaders, response, z);
            "content-length" in r.headers
            && (forall i :: 0 <= i < |r.headers["content-length"]| ==> '0' <= r.headers["content-length"][i] <= '9')
            && ParseNat(r.headers["content-length"]) == |Concat(r.sections)|
            && (if "content-encoding" in r.headers && r.headers["content-encoding"] == "zstd"
                   && Contains(Lower(GetOr(requestHeaders, "accept-encoding", "")), "zstd")
                then z.decompress(Concat(r.sections)) == Ok(Concat(response.sections))
                else Concat(r.sections) == Concat(response.sections))
  {
    var body := Concat(response.sections);
    if Contains(Lower(GetOr(requestHeaders, "accept-encoding", "")), "zstd") {
      assert z.decompress(z.compress(body)) == Ok(body);
      ParseNatToString(|z.compress(body)|);
    } else {
      ParseNatToString(|body|);
    }
  }

  /** `ZstdMiddleware.dispatch` with both corrections; it never fails on the
      way out. */
  function TranscodeFixed(whitelist: seq<string>, request: Request, next: Request -> Response, z: Zstd)
    : (r: Result<Response, Exception>)
    ensures Bypassed(whitelist, request) ==> r == Ok(next(request))
    ensures r.Err? ==> InboundBodyFixed(request, z).Err?
  {
    if Bypassed(whitelist, request) then Ok(next(request))
    else
      match InboundBodyFixed(request, z)
      case Err(e) => Err(e)
      case Ok(body) => Ok(OutboundFixed(request.headers, next(request.(body := body)), z))
  }

  class ZstdMiddleware {
    var whitelistedRoutes: seq<string>

    /** `ZstdMiddleware.__init__` */
    constructor (whitelistedRoutes: Option<seq<string>> := None)
      ensures this.whitelistedRoutes == WithDocs(whitelistedRoutes)
    {
      var routes := Supplied(whitelistedRoutes);
      if "/docs" !in routes {
        routes := routes + ["/docs"];
      }
      this.whitelistedRoutes := routes;
    }

    /** `ZstdMiddleware.dispatch`: overwrites the request's cached body with
        its decompression, then rebuilds or annotates the response. */
    method Dispatch(request: HttpRequest, next: Request -> Response, z: Zstd)
      returns (r: Result<Response, Exception>)
      modifies request
      ensures r == Transcode(whitelistedRoutes, old(request.Value()), next, z)
      ensures request.body == if Bypassed(whitelistedRoutes, old(request.Value())) then old(request.body)
                              else match InboundBody(old(request.Value()), z)
                                   case Ok(b) => b
                                   case Err(_) => old(request.body)
    {
      if request.path in whitelistedRoutes {
        r := Ok(next(request.Value()));
        return;
      }
      if request.verb == "HEAD" {
        r := Ok(next(request.Value()));
        return;
      }
      var encoding := Lower(GetOr(request.headers, "content-encoding", ""));
      if encoding == "zstd" {
        var decompressed := DecodeBody(request.Value(), z);
        if decompressed.Err? {
          r := Err(decompressed.error);
          return;
        }
        request.body := decompressed.value;
      }
      var response := next(request.Value());
      var responseBody := response.sections;
      if |responseBody| == 0 {
        r := Err(IndexError("list index out of range"));
        return;
      }
      var bytesResponse := responseBody[0];
      var acceptEncoding := Lower(GetOr(request.headers, "accept-encoding", ""));
      if |responseBody| > 0 && Contains(acceptEncoding, "zstd") {
        var compressed := z.compress(bytesResponse);
        var newResponse := Response(response.status, response.headers, [compressed]);
        newResponse := newResponse.(headers := newResponse.headers["content-encoding" := "zstd"]);
        newResponse := newResponse.(headers := newResponse.headers["content-length" := NatToString(|compressed|)]);
        r := Ok(newResponse);
        return;
      } else {
        if |responseBody| > 0 {
          response := response.(headers := response.headers["content-length" := NatToString(|responseBody[0]|)]);
        }
      }
      r := Ok(response);
    }
  }
}
