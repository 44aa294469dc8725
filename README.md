# dojo-messaging protocol core in Dafny

A model of the protocol-decision core of `dojo-messaging`, a thin layer for signed HTTP
messages between a client (the validator side) and a FastAPI server (the miner side).
The model covers:

- the server's **authentication gate** (`SignatureMiddleware`) over the `x-hotkey`,
  `x-signature` and `x-message` headers and its path whitelist;
- the **zstd negotiation** on both sides: `encode_body`, `decode_body` and
  `ZstdMiddleware`, covering when a body is compressed or decompressed and how
  `content-length` is set;
- the **response envelope** `{body, error, metadata}` (`create_response`) and the
  server's mapping of each request outcome to a status and an envelope (`handler_wrapper`
  and the three exception handlers);
- the **client pipeline**: session defaults, URL and signed-header building, `send`
  with its bounded retry loop and its response-resolution tree, and `batch_send`;
- the **`StdResponse` record**, with its defaults and its two field serializers.

Everything outside the layer is an explicit parameter of the model. This covers
zstandard, JSON parsing and serialization, pydantic validation, `kami`
signing and verification, and the network. A lemma that needs a round trip
(`decompress(compress(b)) == b`, `loads(dumps(j)) == j`) states it as a hypothesis.

Modules, one file each:
- `Common`: option/result, bytes, the Python string operations used, JSON values with
  Python truthiness, and the codec records.
- `Types`: `messaging/types.py`.
- `Http`: requests with Starlette's header lookup, and responses.
- `Utils`: `messaging/utils.py`.
- `Middleware`: `messaging/middleware.py`.
- `Server`: `messaging/server.py`.
- `Client`: `messaging/client.py`.

Several behaviours of the code are easy to misread. The model follows the code in each
case:
- `raise_for_status` raises for every status from 400 up, not for every non-2xx status.
- Every exception raised inside an attempt is retried, including error statuses, invalid
  JSON and malformed envelopes. Retries are not limited to transport failures.
- The catch-all in `handler_wrapper` answers with status 200, not 500. This is the last
  row of "Findings".
- An empty response JSON is reported in `exception` as a ValueError, not in `error`.
- `max_retries` counts attempts. A value of 1 or less still runs exactly one attempt.
- The wait before attempt `k + 1` is `max(0, min(factor * 2^(k-1), max_wait_sec))`.

## Model

| member | source | states |
|---|---|---|
| Types.HeaderNamesDistinct | messaging/types.py:14-16 | the three identity header names are pairwise distinct |
| Types.HeaderNamesLowerCase | messaging/types.py:14-16 | each identity header name is its own lower-case form and starts with lower-case "x-" |
| Types.StdResponseDefaults | messaging/types.py:19-29 | a record built from body and client_response alone has error None, metadata {} and exception None |
| Types.SerializeClientResponse | messaging/types.py:31-42 | None maps to None; a response maps to exactly the keys status, headers, url and host |
| Types.ClientResponseRoundTrip | messaging/types.py:31-42 | the serialized client response reads back as the same status, headers, url and host |
| Types.SerializeException | messaging/types.py:44-54 | None maps to None; an exception maps to exactly the keys type, message and traceback |
| Types.ExceptionRoundTrip | messaging/types.py:44-54 | the serialized exception reads back as its type name, `str()` and traceback lines |
| Utils.Envelope | messaging/utils.py:33-36 | the content has exactly the keys body, error and metadata; error is null iff none is given; metadata is the given mapping ({} by default) |
| Utils.CreateResponse | messaging/utils.py:18-38 | the status is the given one (200 by default) and the content is the envelope, with metadata overwritten only for a non-empty mapping |
| Utils.EncodeBody | messaging/utils.py:41-54 | no or empty content-encoding gives the JSON bytes; "zstd" in any letter case gives their compression; any other encoding is NotImplementedError with the source's message |
| Utils.EncodeBodyRoundTrip | messaging/utils.py:41-54 | what `encode_body` returns parses back (after decompression when compressed) to the model's fields |
| Utils.DecodeBody | messaging/utils.py:57-72 | the body is decompressed only when a content-encoding header contains "zstd" (case-sensitive); a decompression failure is HTTPException 400 "Failed to decompress zstd data: ..."; otherwise the body is unchanged |
| Utils.DecodeBodyRoundTrip | messaging/utils.py:57-72 | a compressed payload labelled with an encoding containing "zstd" comes back as the payload |
| Utils.ExtractHeaders | messaging/utils.py:75-89 | as written, returns ("", "", "") for every header list |
| Utils.NoIdentityHeaderStartsWithUpperX | messaging/utils.py:80-84 | none of the lower-case identity header names passes the "X-" filter |
| Utils.ExtractHeadersMissesSentHeaders | messaging/utils.py:79-84 | a request carrying all three identity headers has them found by Starlette's lookup, so the empty result is a loss |
| Utils.XHeadersAgreeWithGet | messaging/utils.py:78-84 | the corrected "x-" filter finds a lower-case "x-" name iff Starlette's lookup does, with the same value |
| Utils.ExtractHeadersFixed | messaging/utils.py:75-89 | the corrected loop returns (hotkey, message, signature) as Starlette's lookup gives them, "" when absent |
| Middleware.WithDocs | messaging/middleware.py:31-34 | "/docs" is on the whitelist; a list that had it is unchanged; otherwise it is the list plus "/docs" exactly once at the end |
| Middleware.SignatureMiddleware.constructor | messaging/middleware.py:23-34 | keeps the verifier and the whitelist of `WithDocs` |
| Middleware.Authenticate | messaging/middleware.py:36-62 | forwarded iff the path is whitelisted or all three headers are non-empty and verify; a forwarded response is the next stage's unchanged; a rejection is 400 (headers missing) or 403 (signature refused) with body {} and an error |
| Middleware.WhitelistBypassesGate | messaging/middleware.py:39-40 | a whitelisted path is forwarded whatever the verifier and whatever the headers |
| Middleware.MissingCredentialsShortCircuit | messaging/middleware.py:42-49 | with a header missing or empty the answer is 400, independent of the verifier and the next stage, and the error names all three headers |
| Middleware.VerifierDecides | messaging/middleware.py:51-62 | with all headers present, accepted gives the next stage's response and refused gives 403 "Forbidden due to invalid signature" with body {} |
| Middleware.SignatureMiddleware.Dispatch | messaging/middleware.py:36-62 | the dispatch computes exactly `Authenticate` |
| Middleware.InboundBody | messaging/middleware.py:93-97 | a request with encoding exactly "zstd" gets `decode_body`; an encoding whose lower-case form is not "zstd" leaves the body; other spellings of "zstd" leave it too |
| Middleware.Outbound | messaging/middleware.py:101-135 | no body sections gives IndexError; with "zstd" accepted the response keeps its status, carries only the compressed first section, content-encoding zstd and its length; otherwise it keeps its sections and gets the first section's length |
| Middleware.Transcode | messaging/middleware.py:82-135 | a whitelisted path or a HEAD request is passed through untouched; otherwise the next stage sees the inbound body and its answer goes through `Outbound`; the only failures are the 400 of a failed decompression and the IndexError of an empty response |
| Middleware.CorruptCompressedRequestRejected | messaging/middleware.py:93-97 | a request labelled exactly "zstd" whose body does not decompress never reaches the next stage: the dispatch fails with HTTPException 400 "Failed to decompress zstd data: ..." |
| Middleware.CompressedResponseRoundTrip | messaging/middleware.py:109-125 | the compressed response decompresses to the first body section and its content-length reads back as the bytes sent |
| Middleware.UncompressedContentLength | messaging/middleware.py:126-135 | a one-section uncompressed response's content-length reads back as its body length |
| Middleware.RequestBodyRoundTrip | messaging/middleware.py:93-97 | a compressed body labelled exactly "zstd" reaches the next stage as the payload |
| Middleware.UppercaseZstdNotDecompressed | messaging/middleware.py:93-97 | as written, a compressed body labelled "ZSTD" reaches the handler still compressed |
| Middleware.InboundBodyFixed | messaging/middleware.py:93-97 | corrected: decompression happens exactly when the lower-cased encoding is "zstd" |
| Middleware.InboundBodyFixedRoundTrip | messaging/middleware.py:93-97 | the corrected step restores the payload for any spelling of "zstd" and agrees with the written one on "zstd" |
| Middleware.EmptyResponseBodyFails | messaging/middleware.py:104-110 | as written, a response without body sections gives IndexError |
| Middleware.MultiSectionBodyMislabelled | messaging/middleware.py:104-129 | as written, a two-section body keeps two bytes but is labelled with content-length 1 |
| Middleware.OutboundFixed | messaging/middleware.py:101-135 | corrected: a bodyless response passes unchanged, and the whole body is compressed or measured |
| Middleware.OutboundFixedDeliversWholeBody | messaging/middleware.py:101-135 | the corrected response's content-length is the delivered length, and the delivered bytes (decompressed when labelled zstd) are the whole original body |
| Middleware.TranscodeFixed | messaging/middleware.py:82-135 | corrected dispatch: bypass as before, and a failure can only come from decompressing the request |
| Middleware.ZstdMiddleware.constructor | messaging/middleware.py:75-80 | the whitelist of `WithDocs` |
| Middleware.ZstdMiddleware.Dispatch | messaging/middleware.py:82-135 | returns `Transcode` of the request as it came, and leaves the request's body decompressed exactly when the inbound step succeeded |
| Server.ResolveLogLevel | messaging/server.py:32-43 | no or empty level gives "INFO"; a listed level is kept; anything else is AssertionError; an accepted level is one of the seven |
| Server.LStripSlash | messaging/server.py:258 | the result is a suffix without a leading "/" and only slashes were removed |
| Server.RStripSlash | messaging/server.py:258 | the result is a prefix without a trailing "/" and only slashes were removed |
| Server.RoutePath | messaging/server.py:258 | the path starts with "/" and has no further slash at its start or end |
| Server.RoutePathOfPlainName | messaging/server.py:258 | a class name without surrounding slashes is served on "/" + name |
| Server.RoutePathIdempotent | messaging/server.py:258 | re-deriving a route path from itself gives the same path |
| Server.HandlerWrapper | messaging/server.py:201-252 | HEAD is 200 with {}; bad JSON is 400 "Invalid JSON, exception: ..." with {}; a rejected payload is 400 "Validation error: ..." with the parsed data; any ordinary exception other than HTTPException raised by the handler, and handler bytes that fail to parse, give 200 with {} and error "Internal server error: " + str(e); replies are 200 or 400; a re-raised exception is an HTTPException or a cancellation |
| Server.HandlerResultBecomesBody | messaging/server.py:231-247 | a dict, model or other value becomes the body of a 200 reply; bytes are parsed first; an HTTPException is re-raised |
| Server.BadInputSkipsHandler | messaging/server.py:204-229 | HEAD, bad JSON and rejected payloads give the same reply for any two handlers |
| Server.InternalErrorReturns200 | messaging/server.py:248-252 | as written, a handler raising ValueError("boom") gives status 200 with error "Internal server error: boom" |
| Server.HandlerWrapperFixed | messaging/server.py:248-252 | corrected: a reply's status is 200 iff it carries no error; statuses are 200, 400 or 500 |
| Server.HandlerWrapperFixedAgrees | messaging/server.py:248-252 | the corrected wrapper differs from the written one only in turning the internal-error status 200 into 500 |
| Server.HttpExceptionHandler | messaging/server.py:115-123 | the exception's status, its detail as error, body {} |
| Server.InvalidSignatureHandler | messaging/server.py:128-138 | status 403, the exception's message as error, body {} |
| Server.GlobalExceptionHandler | messaging/server.py:95-110 | the status_code attribute if present, else 500; `str(exc)` as error; body {} |
| Server.HandleException | messaging/server.py:92-138 | HTTPException and InvalidSignatureException go to their handlers, every other Exception to the global one, a cancellation to none; every answer has an error and body {} |
| Server.Endpoint | messaging/server.py:201-252 | every answer of a route is a three-key envelope |
| Server.HandlerHttpExceptionMapped | messaging/server.py:245-247 | an HTTPException raised by the handler is answered with its own status and detail and body {} |
| Server.CorruptCompressedRequestGets400 | messaging/server.py:95-110 | a "zstd" request body that fails to decompress escapes the middleware as HTTPException 400, and the global handler answers it 400 with "400: " followed by the detail as error |
| Server.HttpExceptionCaughtGlobally | messaging/server.py:95-110 | an HTTPException 400 reaching the global handler is answered 400, with body {} and `str(exc)`, "400: <detail>", as error |
| Server.Server.constructor | messaging/server.py:26-57 | the resolved log level, and both middlewares installed with the whitelist ["/docs"] |
| Server.Server.ServeSynapse | messaging/server.py:140-145 | appends one route on the class's route path for POST and HEAD |
| Client.GetClient | messaging/client.py:32-45 | limits are never 0: a falsy limit becomes 256 (total) or 10 (per host), a non-zero one is kept; no TLS verification; cleanup of closed connections |
| Client.GetClientDefaults | messaging/client.py:32-36 | a zero limit gives the same session as no limit |
| Client.BuildUrl | messaging/client.py:48-52 | the target ends with "/" + class name; the protocol is prefixed iff the url does not start with "http" |
| Client.HttpsStartsWithHttp | messaging/client.py:49 | the "https" test never changes the decision |
| Client.BuildUrlTargetsRoute | messaging/client.py:48-52 | the target starts with "http" and ends with the route path the server registers for the class |
| Client.SignedHeaders | messaging/client.py:82-102 | exactly content-type, signature, hotkey and message, plus content-encoding and accept-encoding "zstd" iff compression is requested; the signature signs the message sent; an empty message becomes the fixed sentence with the hotkey |
| Client.CarriedSignedHeaders | messaging/client.py:93-100 | the server's lookup in a request carrying the client's headers finds the hotkey, the message sent and its signature, and "zstd" as content-encoding when compression was requested |
| Client.CarriedCompression | messaging/client.py:99-100 | a request carrying the client's compressed-request headers is labelled "zstd" |
| Client.ClientRequestPassesGate | messaging/client.py:87-98 | a request carrying the client's headers is forwarded by the server's gate when the verifier accepts the client's signature |
| Client.ClientBodyReachesHandler | messaging/client.py:207-208 | the compressed body the client sends with its headers reaches the server handler as the model's JSON text |
| Client.CompressedModelReachesHandler | messaging/middleware.py:93-97 | a request labelled "zstd" whose body is a model's compressed JSON text reaches the handler as that text |
| Client.ClientEncodingSupported | messaging/client.py:77-80 | the client's content-encoding never makes `encode_body` fail |
| Client.RaiseForStatus | messaging/client.py:204-216 | raises iff the status is 400 or more |
| Client.DecodeResponseJson | messaging/client.py:222-244 | a zstd-labelled body decodes iff it decompresses and parses, to the parse of the decompressed bytes; an empty unlabelled body is None; another one decodes iff it parses, to its parse |
| Client.Resolve | messaging/client.py:246-295 | falsy JSON settles with an empty body and a ValueError; non-object JSON fails the attempt; a settled record has the requested class and the POST response, and no exception when the JSON was truthy |
| Client.ResolveObject | messaging/client.py:257-295 | for any non-empty object, with missing "error" read as null and missing "metadata" and "body" as {}: a mistyped error or metadata fails the attempt; otherwise a validating body gives the typed model, a rejected object body its raw fields, a rejected non-object body a TypeError, and a falsy or missing body the empty model, each with the server's error and metadata |
| Client.MissingBodyGivesEmptyModel | messaging/client.py:258-260 | an object without "body" (and with well-typed error and metadata) settles with the empty model |
| Client.ResolveEnvelope | messaging/client.py:257-295 | for a server envelope: a validating body gives the typed model, a rejected object body gives its raw fields, a falsy body gives the empty model, each with the server's error and metadata |
| Client.ServerReplyResolves | messaging/client.py:222-274 | a server's successful reply, compressed or not, decodes to the envelope and resolves to the handler's model with the server's error and metadata |
| Client.Attempt | messaging/client.py:192-295 | with preflight on, a HEAD (signed headers, no compression headers) that fails or answers from 400 up fails the attempt with that exception and no POST response; a settled attempt obtained a POST response below 400, records it, and has a body of the requested class |
| Client.AttemptSendsSignedRequests | messaging/client.py:193-218 | the attempt consults only the HEAD with the uncompressed signed headers and the POST to the same URL with the signed zstd headers and the compressed model JSON: transports agreeing on those two calls give the same attempt |
| Client.PreflightFailureSkipsPost | messaging/client.py:196-207 | a failed preflight ends the attempt before the POST: nothing is posted, the attempt fails, whatever the POST would answer |
| Client.PostDecidesAttempt | messaging/client.py:209-295 | after a passing or disabled preflight: a POST failure fails the attempt with nothing posted; a POST response is recorded, fails the attempt from 400 up, and below 400 is decoded and resolved |
| Client.WaitSeconds | messaging/client.py:187-189 | a wait is never negative and never above `max_wait_sec` |
| Client.WaitsNonDecreasing | messaging/client.py:187-189 | waits never shrink from one retry to the next |
| Client.Pauses | messaging/client.py:187-189 | the pauses after n attempts: n of them, the i-th being the wait before attempt i + 2 |
| Client.PausesSnoc | messaging/client.py:187-189 | one more attempt adds exactly its wait at the end of the pauses |
| Client.Retrying | messaging/client.py:185-192 | between k and max(k, max_retries) attempts; a loop ending in an ordinary exception ran them all and wraps it in RetryError |
| Client.SendRun | messaging/client.py:185-192 | at least one and at most max(1, max_retries) attempts |
| Client.FailingAttemptsExhaust | messaging/client.py:185-192 | when every attempt fails, all max(1, max_retries) run and the last failure is wrapped in RetryError |
| Client.ErrorStatusExhaustsRetries | messaging/client.py:185-216 | a server always answering an error status costs max(1, max_retries) attempts and yields RetryError with an empty body |
| Client.UnreachableServerExhaustsRetries | messaging/client.py:322-329 | an unreachable server costs max(1, max_retries) attempts and yields RetryError of the connection error, an empty body and no response |
| Client.CancelledAttemptEndsLoop | messaging/client.py:186-191 | ordinary failures before attempt k are retried and a cancellation at attempt k ends the loop there, with that cancellation |
| Client.CancellationNotRetried | messaging/client.py:185-313 | a cancellation in any attempt k, after ordinary failures, ends the send after attempt k, recorded as "Request was cancelled" |
| Client.FailureRetried | messaging/client.py:185-192 | a failed attempt with attempts to spare is followed by the next one |
| Client.SendOutcome | messaging/client.py:153-333 | never raises; the body always has the requested class; no exception only after a POST answered below 400; a failed send has the empty body, an exception and the last POST response |
| Client.Client.constructor | messaging/client.py:69-80 | the given session, or a default one when none is given |
| Client.Client.BuildHeaders | messaging/client.py:82-102 | builds exactly `SignedHeaders` |
| Client.Client.EnsureSession | messaging/client.py:104-107 | a missing or closed session is replaced by a default one; an open one is kept |
| Client.Client.RunAttempt | messaging/client.py:192-295 | one attempt, step by step, equal to `Attempt` |
| Client.Client.RetryLoop | messaging/client.py:185-295 | the attempt loop, step by step, ends exactly as `SendRun` and sleeps the `Pauses` of the attempts it ran |
| Client.Client.Send | messaging/client.py:153-333 | returns `SendOutcome`; sleeps exactly the `Pauses` of the attempts run, one capped exponential wait between consecutive attempts; leaves an open session |
| Client.Client.BatchSend | messaging/client.py:109-151 | one result per pair of the shorter list, in input order, each what `send` gives for it, with or without a semaphore |

## Left out

- Network I/O: aiohttp sessions and requests, `Client.close`, uvicorn serving (`Server.initialise`, `Server.close`) and `get_external_ip`. The transport is a parameter that answers each HEAD and POST by attempt number, so a send is deterministic given it. Timeouts are only passed on to it.
- zstandard, orjson, `json.loads`, pydantic and `kami` are parameters. They are not implementations. Their round trips are hypotheses of the lemmas that need them.
- The payload class's schema: `model_validate` is a parameter, and `model_construct` neither applies field defaults nor drops unknown keys. An empty model has no fields.
- JSON numbers are integers. Floats are not modelled.
- `Lower` lower-cases ASCII letters only. `str.lower` also handles other scripts.
- The 400 message of the gate quotes values as `'value'`. Python's `repr` escaping of quotes and control characters is not modelled.
- Middleware.WithDocs: a non-empty caller list is extended in place in the source, so the caller sees "/docs" added. The model builds a new sequence and leaves that aliasing out.
- The debug log at messaging/middleware.py:107 decodes the first body section as UTF-8. Its UnicodeDecodeError on a non-UTF-8 body is not modelled.
- aiohttp's `json()` rejects a body whose content-type is not JSON, and treats a whitespace-only body as empty. Neither is modelled: only an empty body gives None. The UTF-8 decode after decompression counts as part of JSON parsing.
- Exception texts produced by libraries are approximations: the `ClientResponseError` message (the reason phrase) is "", the AttributeError, TypeError, ValidationError and AssertionError texts are fixed strings, and `str` of tenacity's RetryError leaves out the Future's address (`<Future at 0x… state=finished raised X>` is rendered without `at 0x…`). The layer's own texts are exact.
- Signing is total. A failure raised by `sign_message` is not modelled.
- Middleware.Verifier: signature verification is total. An exception raised by `kami.verify`, which would reach the global handler as a 500, is not modelled.
- Starlette routing (404 and 405, and FastAPI's default handler for Starlette's own HTTPException) is not modelled. Neither is the full composition of the middleware stack. `HandleException`, `Endpoint` and `CorruptCompressedRequestGets400` model the pieces the layer installs.
- `Server.__init__`: the `app or FastAPI()` and `kami or KamiClient()` defaults, `include_router`, and the route's `operation_id` and description are not modelled. Logging configuration is not modelled either.
- Server.Server.constructor: requires a level that `ResolveLogLevel` accepts. The AssertionError raised for any other level is modelled by `ResolveLogLevel`.
- Logging: all `logger` calls, `InterceptHandler`, `retry_log` and `_log_context`.
- `batch_send` runs its sends one after another. `asyncio.gather` and the semaphore are left out, since they do not change any result.
- The return after the retry loop (messaging/client.py:301-305) is never reached: every attempt returns or raises, and tenacity either retries or raises. The model's loop likewise exits only by returning. The catch-all `except (Exception, BaseException)` (messaging/client.py:330-333) handles nothing in the model: no exception other than the RetryError, a cancellation or an interrupt can leave the loop.
- Client.Client.Send: the session is checked but not used. The transport does not depend on it.
- Client.Client.RetryLoop: a cancellation arrives only as an attempt's outcome from the transport. A cancellation during tenacity's backoff sleep or during `_ensure_session` (messaging/client.py:185-191) is not modelled. In the source it is likewise caught at messaging/client.py:306-313 and the send yields "Request was cancelled" with the last POST response obtained.

## Findings

| source | as written | input that shows it | evidently intended | confidence | as-written member | corrected member |
|---|---|---|---|---|---|---|
| messaging/utils.py:80 | `extract_headers` keeps header names starting with upper-case "X-", then looks up the lower-case identity names, so it finds nothing | a request with `x-hotkey: hk`, `x-message: m`, `x-signature: sig` gives ("", "", "") | filter on lower-case "x-" (Starlette names are lower-case), first occurrence winning as in `headers.get` | high; not executed | Utils.ExtractHeaders | Utils.ExtractHeadersFixed |
| messaging/middleware.py:94 | the middleware routes a body to decompression when the lower-cased content-encoding is "zstd", but `decode_body` (messaging/utils.py:62) tests the raw value for "zstd" case-sensitively | `content-encoding: ZSTD` with a compressed body: the handler gets the compressed bytes and answers 400 "Invalid JSON" | decompress whenever the lower-cased value is "zstd" | medium; not executed | Middleware.UppercaseZstdNotDecompressed | Middleware.InboundBodyFixed |
| messaging/middleware.py:106 | `response_body[0]` is read before the emptiness test at line 110 | a response whose body iterator yields no section: IndexError, answered 500 by the global handler | pass a bodyless response through unchanged | medium; not executed | Middleware.EmptyResponseBodyFails | Middleware.OutboundFixed |
| messaging/middleware.py:106-129 | only the first body section is compressed or measured, while an uncompressed response keeps all its sections | sections `[1]` and `[2]` without zstd accepted: content-length 1 for 2 bytes | compress or measure the whole body | medium; not executed | Middleware.MultiSectionBodyMislabelled | Middleware.OutboundFixed |
| messaging/server.py:252 | the catch-all reply leaves `create_response`'s default status, 200 | a handler raising `ValueError("boom")` gives 200 with error "Internal server error: boom" | 500 for an internal error | high; not executed | Server.InternalErrorReturns200 | Server.HandlerWrapperFixed |
