/** The record types shared by client and server: the identity header names,
    the exceptions the layer raises or reports, payload model instances, the
    transport response, and the client's standard response record with its
    two field serializers. */
module Types {
  import opened Common

  // ---------------------------------------------------------------------------
  // Identity headers

  const SignatureHeader: string := "x-signature"
  const HotkeyHeader: string := "x-hotkey"
  const MessageHeader: string := "x-message"

  /** The three identity header names are distinct. */
  lemma HeaderNamesDistinct()
    ensures SignatureHeader != HotkeyHeader && HotkeyHeader != MessageHeader
            && SignatureHeader != MessageHeader
  {
  }

  /** The identity header names are already lower-case and share the prefix
      "x-" (lower-case x). */
  lemma HeaderNamesLowerCase()
    ensures Lower(SignatureHeader) == SignatureHeader
    ensures Lower(HotkeyHeader) == HotkeyHeader
    ensures Lower(MessageHeader) == MessageHeader
    ensures StartsWith(SignatureHeader, "x-") && StartsWith(HotkeyHeader, "x-")
            && StartsWith(MessageHeader, "x-")
  {
    LowerOfLowerCase(SignatureHeader);
    LowerOfLowerCase(HotkeyHeader);
    LowerOfLowerCase(MessageHeader);
  }

  // ---------------------------------------------------------------------------
  // Exceptions

  /** The exceptions that cross the layer, one variant per Python class. The
      `message` fields hold `str(exc)`. */
  datatype Exception =
    | HTTPException(statusCode: nat, detail: string)
    | InvalidSignatureException(message: string)
    | NotImplementedError(message: string)
    | ValueError(message: string)
    | JSONDecodeError(message: string)
    | ZstdError(message: string)
    | ValidationError(message: string)
    | AttributeError(message: string)
    | TypeError(message: string)
    | IndexError(message: string)
    | AssertionError(message: string)
    | ClientResponseError(status: nat, message: string)
    | ClientConnectionError(message: string)
    | RetryError(lastAttempt: Exception)
    | CancelledError(message: string)
    | KeyboardInterrupt(message: string)
    | OtherException(typeName: string, message: string, statusAttr: Option<nat>)

  /** `type(exc).__name__` */
  function TypeName(e: Exception): string {
    match e
    case HTTPException(_, _) => "HTTPException"
    case InvalidSignatureException(_) => "InvalidSignatureException"
    case NotImplementedError(_) => "NotImplementedError"
    case ValueError(_) => "ValueError"
    case JSONDecodeError(_) => "JSONDecodeError"
    case ZstdError(_) => "ZstdError"
    case ValidationError(_) => "ValidationError"
    case AttributeError(_) => "AttributeError"
    case TypeError(_) => "TypeError"
    case IndexError(_) => "IndexError"
    case AssertionError(_) => "AssertionError"
    case ClientResponseError(_, _) => "ClientResponseError"
    case ClientConnectionError(_) => "ClientConnectionError"
    case RetryError(_) => "RetryError"
    case CancelledError(_) => "CancelledError"
    case KeyboardInterrupt(_) => "KeyboardInterrupt"
    case OtherException(name, _, _) => name
  }

  /** `str(exc)`. An HTTPException prints as "<status>: <detail>"; a
      RetryError prints the future of its last attempt. */
  function Str(e: Exception): string {
    match e
    case HTTPException(code, detail) => NatToString(code) + ": " + detail
    case RetryError(last) => "RetryError[<Future state=finished raised " + TypeName(last) + ">]"
    case _ => e.message
  }

  /** `isinstance(exc, Exception)`: cancellation and keyboard interrupts derive
      from BaseException only. */
  predicate IsException(e: Exception) {
    !e.CancelledError? && !e.KeyboardInterrupt?
  }

  /** `getattr(exc, "status_code", None)` */
  function StatusCodeAttr(e: Exception): Option<nat> {
    match e
    case HTTPException(code, _) => Some(code)
    case OtherException(_, _, code) => code
    case _ => None
  }

  // ---------------------------------------------------------------------------
  // Payload models

  /** An instance of a pydantic payload class: its class name and field values. */
  datatype Model = Model(className: string, fields: map<string, Json>)

  /** `model.model_dump()` */
  function ModelDump(m: Model): Json {
    JObj(m.fields)
  }

  /** `model_construct()` of a class: an instance built without validation and
      without fields (the class's defaults are not modelled). */
  function EmptyModel(className: string): Model {
    Model(className, map[])
  }

  /** `cls.model_validate(data)`: the validated field values, or the
      validation error's message. */
  type Validator = (string, Json) -> Result<map<string, Json>, string>

  // ---------------------------------------------------------------------------
  // Transport response and the standard response record

  /** The parts of an `aiohttp.ClientResponse` the layer reads. Header names
      are lower-case. */
  datatype ClientResponse = ClientResponse(status: nat, headers: map<string, string>, url: string, host: string)

  /** `StdResponse`: the body is always present; `error`, `metadata` and
      `exception` take their declared defaults when not given, while `body`
      and `client_response` have to be supplied. */
  datatype StdResponse = StdResponse(
    body: Model,
    clientResponse: Option<ClientResponse>,
    error: Option<string> := None,
    metadata: map<string, Json> := map[],
    exception: Option<Exception> := None)

  /** A record built from only the two required fields carries the declared
      defaults. */
  lemma StdResponseDefaults(body: Model, clientResponse: Option<ClientResponse>)
    ensures var r := StdResponse(body, clientResponse);
            r.error == None && r.metadata == map[] && r.exception == None
            && r.body == body && r.clientResponse == clientResponse
  {
  }

  /** The header mapping of a response as JSON. */
  function HeadersJson(headers: map<string, string>): (j: map<string, Json>)
    ensures j.Keys == headers.Keys
    ensures forall k :: k in headers ==> j[k] == JStr(headers[k])
  {
    map k | k in headers :: JStr(headers[k])
  }

  /** `serialize_client_response`: nothing for no response, otherwise exactly
      the status, headers, url and host. */
  function SerializeClientResponse(value: Option<ClientResponse>): (r: Option<map<string, Json>>)
    ensures r.None? <==> value.None?
    ensures r.Some? ==> r.value.Keys == {"status", "headers", "url", "host"}
  {
    match value
    case None => None
    case Some(v) => Some(map[
      "status" := JNum(v.status),
      "headers" := JObj(HeadersJson(v.headers)),
      "url" := JStr(v.url),
      "host" := JStr(v.host)])
  }

  /** Reads back a serialized client response. */
  function ParseClientResponse(m: map<string, Json>): Option<ClientResponse> {
    if "status" in m && "headers" in m && "url" in m && "host" in m
       && m["status"].JNum? && m["status"].n >= 0 && m["url"].JStr? && m["host"].JStr?
       && m["headers"].JObj?
       && (forall k :: k in m["headers"].fields ==> m["headers"].fields[k].JStr?)
    then
      var h := m["headers"].fields;
      Some(ClientResponse(m["status"].n, map k | k in h :: h[k].s, m["url"].s, m["host"].s))
    else None
  }

  /** Serializing a client response loses none of the four fields. */
  lemma ClientResponseRoundTrip(v: ClientResponse)
    ensures SerializeClientResponse(Some(v)).Some?
    ensures ParseClientResponse(SerializeClientResponse(Some(v)).value) == Some(v)
  {
    var m := SerializeClientResponse(Some(v)).value;
    var h := m["headers"].fields;
    assert h == HeadersJson(v.headers);
    assert (map k | k in h :: h[k].s) == v.headers;
  }

  /** `serialize_exception`: nothing for no exception, otherwise the type name,
      the message and the formatted traceback. The traceback text comes from
      the `traceback` module and is a parameter here. */
  function SerializeException(value: Option<Exception>, formatTraceback: Exception -> seq<string>)
    : (r: Option<map<string, Json>>)
    ensures r.None? <==> value.None?
    ensures r.Some? ==> r.value.Keys == {"type", "message", "traceback"}
  {
    match value
    case None => None
    case Some(e) => Some(map[
      "type" := JStr(TypeName(e)),
      "message" := JStr(Str(e)),
      "traceback" := JArr(seq(|formatTraceback(e)|, i requires 0 <= i < |formatTraceback(e)| => JStr(formatTraceback(e)[i])))])
  }

  /** Reads back the type name, message and traceback lines of a serialized
      exception. */
  function ParseException(m: map<string, Json>): Option<(string, string, seq<string>)> {
    if "type" in m && "message" in m && "traceback" in m
       && m["type"].JStr? && m["message"].JStr? && m["traceback"].JArr?
       && (forall i :: 0 <= i < |m["traceback"].items| ==> m["traceback"].items[i].JStr?)
    then
      var t := m["traceback"].items;
      Some((m["type"].s, m["message"].s, seq(|t|, i requires 0 <= i < |t| => t[i].s)))
    else None
  }

  /** A serialized exception reads back as its type name, `str()` and traceback. */
  lemma ExceptionRoundTrip(e: Exception, formatTraceback: Exception -> seq<string>)
    ensures SerializeException(Some(e), formatTraceback).Some?
    ensures ParseException(SerializeException(Some(e), formatTraceback).value)
            == Some((TypeName(e), Str(e), formatTraceback(e)))
  {
    var m := SerializeException(Some(e), formatTraceback).value;
    var t := m["traceback"].items;
    assert (seq(|t|, i requires 0 <= i < |t| => t[i].s)) == formatTraceback(e);
  }
}
