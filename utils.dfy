/** messaging/utils.py: the response envelope, body encoding on the client,
    body decoding on the server, and the identity-header extraction helper. */
module Utils {
  import opened Common
  import opened Types
  import opened Http

  // ---------------------------------------------------------------------------
  // create_response

  /** The `error` member of an envelope: null when no error is given. */
  function ErrorJson(error: Option<string>): Json {
    match error
    case None => JNull
    case Some(e) => JStr(e)
  }

  /** The uniform `{body, error, metadata}` content every server response
      carries: exactly those three keys, the body as given, a null error when
      none is given, and the metadata mapping (an empty object when none is
      given). */
  function Envelope(body: Json, error: Option<string>, metadata: map<string, Json>): (j: Json)
    ensures j.JObj? && j.fields.Keys == {"body", "error", "metadata"}
    ensures j.fields["body"] == body
    ensures j.fields["error"] == JNull <==> error.None?
    ensures error.Some? ==> j.fields["error"] == JStr(error.value)
    ensures j.fields["metadata"] == JObj(metadata)
  {
    JObj(map["body" := body, "error" := ErrorJson(error), "metadata" := JObj(metadata)])
  }

  /** `create_response`: the metadata member starts as `{}` and is overwritten
      only when a non-empty mapping is supplied; the status defaults to 200.
      The values are JSON already, so `jsonable_encoder` leaves them as they
      are. */
  method CreateResponse(body: Json, statusCode: nat := 200, error: Option<string> := None,
                        metadata: map<string, Json> := map[])
    returns (response: JsonResponse)
    ensures response.status == statusCode
    ensures response.content == Envelope(body, error, metadata)
  {
    var content := map["body" := body, "error" := ErrorJson(error), "metadata" := EmptyObject];
    if metadata != map[] {
      content := content["metadata" := JObj(metadata)];
    }
    response := JsonResponse(statusCode, JObj(content));
  }

  // ---------------------------------------------------------------------------
  // encode_body

  /** `encode_body`: the JSON bytes of the model when the headers name no
      content encoding (absent or empty), their zstd compression when the
      encoding is "zstd" in any letter case, and NotImplementedError for any
      other encoding. The header mapping is a plain dict, so the key lookup is
      exact. */
  function EncodeBody(model: Model, headers: map<string, string>, codec: JsonCodec, z: Zstd)
    : (r: Result<Bytes, Exception>)
    ensures ("content-encoding" !in headers || headers["content-encoding"] == "")
            ==> r == Ok(codec.dumps(ModelDump(model)))
    ensures "content-encoding" in headers && Lower(headers["content-encoding"]) == "zstd"
            ==> r == Ok(z.compress(codec.dumps(ModelDump(model))))
    ensures r.Err? <==> "content-encoding" in headers && headers["content-encoding"] != ""
                        && Lower(headers["content-encoding"]) != "zstd"
    ensures r.Err? ==> r.error == NotImplementedError(
              "Content encoding of type " + headers["content-encoding"] + " is not supported at the moment")
  {
    var contentEncoding := if "content-encoding" in headers then headers["content-encoding"] else "";
    if contentEncoding != "" then
      if Lower(contentEncoding) == "zstd" then
        Ok(z.compress(codec.dumps(ModelDump(model))))
      else
        Err(NotImplementedError("Content encoding of type " + contentEncoding + " is not supported at the moment"))
    else
      Ok(codec.dumps(ModelDump(model)))
  }

  /** What `encode_body` produces reads back as the model's fields: directly
      when uncompressed, after decompression when compressed with zstd. */
  lemma EncodeBodyRoundTrip(model: Model, headers: map<string, string>, codec: JsonCodec, z: Zstd)
    requires ZstdRoundTrip(z) && JsonRoundTrip(codec)
    requires EncodeBody(model, headers, codec, z).Ok?
    ensures var payload := EncodeBody(model, headers, codec, z).value;
            if "content-encoding" in headers && headers["content-encoding"] != ""
            then z.decompress(payload).Ok? && codec.loads(z.decompress(payload).value) == Ok(ModelDump(model))
            else codec.loads(payload) == Ok(ModelDump(model))
  {
    var json := codec.dumps(ModelDump(model));
    assert codec.loads(json) == Ok(ModelDump(model));
    if "content-encoding" in headers && headers["content-encoding"] != "" {
      assert z.decompress(z.compress(json)) == Ok(json);
    }
  }

  // ---------------------------------------------------------------------------
  // decode_body

  /** `decode_body`: decompresses the body when a content-encoding header is
      present and contains "zstd" (a case-sensitive substring test); a
      decompression failure becomes HTTPException 400; any other body is
      returned unchanged. */
  function DecodeBody(request: Request, z: Zstd): (r: Result<Bytes, Exception>)
    ensures !(Get(request.headers, "content-encoding").Some?
              && Contains(Get(request.headers, "content-encoding").value, "zstd"))
            ==> r == Ok(request.body)
    ensures Get(request.headers, "content-encoding").Some?
            && Contains(Get(request.headers, "content-encoding").value, "zstd")
            ==> (r.Ok? <==> z.decompress(request.body).Ok?)
                && (r.Ok? ==> r.value == z.decompress(request.body).value)
                && (r.Err? ==> r.error == HTTPException(400, "Failed to decompress zstd data: "
                                                              + z.decompress(request.body).error))
  {
    var encoding := Get(request.headers, "content-encoding");
    if encoding.Some? && Contains(encoding.value, "zstd") then
      match z.decompress(request.body)
      case Ok(decompressed) => Ok(decompressed)
      case Err(e) => Err(HTTPException(400, "Failed to decompress zstd data: " + e))
    else
      Ok(request.body)
  }

  /** A body compressed with zstd and labelled with an encoding that contains
      "zstd" comes back as the original bytes. */
  lemma DecodeBodyRoundTrip(request: Request, z: Zstd, payload: Bytes)
    requires ZstdRoundTrip(z)
    requires request.body == z.compress(payload)
    requires Get(request.headers, "content-encoding").Some?
    requires Contains(Get(request.headers, "content-encoding").value, "zstd")
    ensures DecodeBody(request, z) == Ok(payload)
  {
    assert z.decompress(z.compress(payload)) == Ok(payload);
  }

  // ---------------------------------------------------------------------------
  // extract_headers

  /** `extract_headers` as written: it keeps the headers whose name starts with
      upper-case "X-" and then looks up the lower-case identity header names
      in what it kept, so it never finds any of them and always returns three
      empty strings, whatever headers the request carries. */
  method ExtractHeaders(h: Headers) returns (hotkey: string, message: string, signature: string)
    ensures hotkey == "" && message == "" && signature == ""
  {
    var headers: map<string, string> := map[];
    for i := 0 to |h|
      invariant forall k :: k in headers ==> StartsWith(k, "X-")
    {
      if StartsWith(h[i].0, "X-") {
        headers := headers[h[i].0 := h[i].1];
      }
    }
    NoIdentityHeaderStartsWithUpperX();
    signature := MapGet(headers, SignatureHeader, "");
    hotkey := MapGet(headers, HotkeyHeader, "");
    message := MapGet(headers, MessageHeader, "");
  }

  /** None of the identity header names passes the upper-case "X-" filter. */
  lemma NoIdentityHeaderStartsWithUpperX()
    ensures !StartsWith(SignatureHeader, "X-") && !StartsWith(HotkeyHeader, "X-")
            && !StartsWith(MessageHeader, "X-")
  {
    HeaderNamesLowerCase();
    assert "x-"[0] != "X-"[0];
  }

  /** A request carrying all three identity headers, as the client sends them:
      Starlette's lookup finds each of them, yet none passes the "X-" filter
      of `extract_headers`, which therefore returns empty strings for it. */
  lemma ExtractHeadersMissesSentHeaders()
    ensures var h := [(HotkeyHeader, "hk"), (MessageHeader, "m"), (SignatureHeader, "sig")];
            GetOr(h, HotkeyHeader, "") == "hk" && GetOr(h, MessageHeader, "") == "m"
            && GetOr(h, SignatureHeader, "") == "sig"
  {
    var h := [(HotkeyHeader, "hk"), (MessageHeader, "m"), (SignatureHeader, "sig")];
    HeaderNamesLowerCase();
    HeaderNamesDistinct();
    assert h[0].0 == Lower(HotkeyHeader);
    assert Get(h, HotkeyHeader) == Some("hk");
    assert h[1..][0].0 == Lower(MessageHeader);
    assert Get(h, MessageHeader) == Some("m");
    assert h[1..][1..][0].0 == Lower(SignatureHeader);
    assert Get(h, SignatureHeader) == Some("sig");
  }

  /** The mapping the corrected helper builds: the headers whose name starts
      with lower-case "x-", the first occurrence of a name winning as in
      Starlette's lookup. */
  function XHeaders(h: Headers): map<string, string> {
    if h == [] then map[]
    else
      var rest := XHeaders(h[1..]);
      if StartsWith(h[0].0, "x-") then rest[h[0].0 := h[0].1] else rest
  }

  /** Appending a header adds it only if it is an "x-" header not yet seen. */
  lemma {:induction false} XHeadersSnoc(h: Headers, x: Header)
    ensures XHeaders(h + [x])
            == if StartsWith(x.0, "x-") && x.0 !in XHeaders(h) then XHeaders(h)[x.0 := x.1] else XHeaders(h)
  {
    if h == [] {
      assert [x][1..] == [];
    } else {
      assert (h + [x])[1..] == h[1..] + [x];
      XHeadersSnoc(h[1..], x);
    }
  }

  /** Looking up a lower-case "x-" name in `XHeaders` agrees with Starlette's
      `headers.get`. */
  lemma {:induction false} XHeadersAgreeWithGet(h: Headers, key: string)
    requires StartsWith(key, "x-") && Lower(key) == key
    ensures key in XHeaders(h) <==> Get(h, key).Some?
    ensures key in XHeaders(h) ==> XHeaders(h)[key] == Get(h, key).value
  {
    if h != [] {
      XHeadersAgreeWithGet(h[1..], key);
    }
  }

  /** `extract_headers` as evidently intended: the same loop with the
      lower-case "x-" prefix, keeping the first occurrence of a repeated
      header (the added guard `h[i].0 !in headers`; the loop as written lets
      a later duplicate overwrite it), so that each identity header is
      returned with the value Starlette's lookup gives for it ("" when
      absent). */
  method ExtractHeadersFixed(h: Headers) returns (hotkey: string, message: string, signature: string)
    ensures hotkey == GetOr(h, HotkeyHeader, "")
    ensures message == GetOr(h, MessageHeader, "")
    ensures signature == GetOr(h, SignatureHeader, "")
  {
    var headers: map<string, string> := map[];
    for i := 0 to |h|
      invariant headers == XHeaders(h[..i])
    {
      if StartsWith(h[i].0, "x-") && h[i].0 !in headers {
        headers := headers[h[i].0 := h[i].1];
      }
      XHeadersSnoc(h[..i], h[i]);
      assert h[..i + 1] == h[..i] + [h[i]];
    }
    assert h[..|h|] == h;
    HeaderNamesLowerCase();
    XHeadersAgreeWithGet(h, SignatureHeader);
    XHeadersAgreeWithGet(h, HotkeyHeader);
    XHeadersAgreeWithGet(h, MessageHeader);
    signature := MapGet(headers, SignatureHeader, "");
    hotkey := MapGet(headers, HotkeyHeader, "");
    message := MapGet(headers, MessageHeader, "");
  }
}
