# timber-api attempt tracking, modelled in Dafny

`TimberApi` is a small PHP client that posts log lines to the Timber ingestion
endpoint, either as a raw line or as a JSON batch. For JSON batches it keeps
per-request bookkeeping in Redis, keyed by the batch's request identifier:

- how many attempts were made;
- when the first one started;
- the first log line of the batch;
- one response slot per attempt.

An attempt is recorded before the POST. It is then settled in one of two ways:

- a success writes the status code into the slot, possibly copies the record to `ok_<id>`, and deletes the working key;
- a failure writes a `{msg, body}` diagnostic into the slot, keeps the record and re-throws the exception.

The client also carries mutable state: an auth token, sent as a Basic
Authorization header, and a content-type mode. The mode starts as plain text
and is switched to JSON for good by the first JSON submission.

The project has five modules:

- `Wrappers`: `Option` and `Result`.
- `Base64`: the base64 encoding of section 4 of RFC 4648, which the Authorization header uses, with a decoder as its inverse.
- `Payload`: decoded JSON values and the lookup of the request identifier.
- `Tracking`: the Redis bookkeeping as pure functions of the keyspace (`map<string, Record>`), with the lemmas about it.
- `Client`: class `TimberApi`. Its fields are the keyspace, the token and the content type. Two ghost fields record the number of JSON submissions and the ordered trace of store writes, store deletes and POSTs. Each method is proved against the `Tracking` function it performs.

Inputs the client cannot see are parameters:

- the HTTP outcome: a status code, or one of the three exception kinds the catch blocks tell apart;
- the clock reading;
- the decoded form of the JSON text;
- the outcome of the `ok_` guard (see below).

The `ok_` guard at src/TimberApi.php:141 compares the JSON-encoded slot,
a string starting with `{`, with the integer 1. Under PHP 7 loose comparison
that is always false. Under PHP 8 it is always true. It never depends on the
attempt count, although that is what it appears meant to test. The model
therefore takes the guard as a boolean `promote`. The properties about the
`ok_` key hold whichever way it goes.

## Model

| member | source | states |
|---|---|---|
| `Base64.Encode` | src/TimberApi.php:151 | the encoded token has 4 characters for every started group of 3 bytes |
| `Base64.DecodeEncode` | src/TimberApi.php:151 | decoding the base64 text of any byte string gives that byte string back |
| `Base64.EncodeAbc` | src/TimberApi.php:151 | the bytes "abc" encode as "YWJj" |
| `Base64.EncodeFoobar` | src/TimberApi.php:151 | "foobar" encodes as "Zm9vYmFy", the test vector of RFC 4648 section 10 |
| `Payload.RequestId` | src/TimberApi.php:35 | an identifier is found exactly when the batch is a non-empty array whose first line has a string at context.http.request_id, and it is that string |
| `Payload.RequestIdOfLine` | src/TimberApi.php:35 | a batch whose first line carries `{"context": {"http": {"request_id": id}}}` yields `id` |
| `Payload.FirstLine` | src/TimberApi.php:108 | the stored body is an element of the batch |
| `Tracking.OkKey` | src/TimberApi.php:143 | the promotion key is `ok_` followed by the identifier, and never equals the identifier |
| `Tracking.Fill` | src/TimberApi.php:127 | filling the current slot keeps the attempt count, time, body and every other slot, and keeps a well-formed record well formed |
| `Tracking.OpenAttemptNew` | src/TimberApi.php:102-119 | on a key with no record, the stored record has 1 attempt, responses {1: null}, the given time and the batch's first line; other keys are unchanged |
| `Tracking.OpenAttemptExisting` | src/TimberApi.php:111-119 | on an existing record, attempts rises by exactly 1 and the new slot is null; earlier slots, time, body and other keys are unchanged |
| `Tracking.RecordErrorSlot` | src/TimberApi.php:122-130 | a logged error changes only the current slot, which becomes the diagnostic; attempts is unchanged and the record stays stored |
| `Tracking.RecordSuccessKeys` | src/TimberApi.php:132-146 | after a success the working key is absent; the only other key written is `ok_<id>`, only under the guard, holding the record with the status code in the current slot |
| `Tracking.Diagnose` | src/TimberApi.php:47-81 | the diagnostic carries the exception's message; its body is non-null exactly for a ClientException, and is then the response body |
| `Tracking.SendEffectFrame` | src/TimberApi.php:37-81 | a JSON submission touches only `id` and `ok_<id>`; a success removes `id`; a failure leaves `id` with one more attempt and the diagnostic in its slot |
| `Tracking.SendEffectWellFormed` | src/TimberApi.php:98-146 | a JSON submission keeps every record with exactly one slot per attempt |
| `Tracking.FailedSendRecord` | src/TimberApi.php:98-130 | the record a failed submission leaves: the previous one with one more attempt whose slot is the diagnostic, or a new one with attempt 1 |
| `Tracking.SucceededSendRecord` | src/TimberApi.php:132-146 | after a success `id` is absent and, under the guard, `ok_<id>` holds the record with one more attempt whose slot is the status code |
| `Tracking.FailureHistorySlots` | src/TimberApi.php:122-130 | the responses built by N failures have exactly slots 1..N, slot i being the diagnostic of the i-th failure |
| `Tracking.FailuresAccumulate` | src/TimberApi.php:98-130 | from no record, N failed submissions leave a stored record with N attempts, the first submission's time and first line, and the N diagnostics |
| `Tracking.SuccessAfterFailures` | src/TimberApi.php:132-146 | a success after N failures deletes `id`; under the guard `ok_<id>` has N + 1 attempts, the N diagnostics and the status code in slot N + 1 |
| `Tracking.ClientFailureAsWritten` | src/TimberApi.php:58-70 | as written, a ClientException leaves the current slot null and the caller gets an Error instead of the ClientException |
| `Tracking.FailureRecorded` | src/TimberApi.php:58-70 | with the response body read as intended, every failure's diagnostic is in the current slot, with a body only for a ClientException |
| `Client.RawResult` | src/TimberApi.php:26-29 | a raw send returns the response on success and passes the transport's exception through unchanged |
| `Client.TimberApi.constructor` | src/TimberApi.php:12-19 | a new client has no token and the plain content type |
| `Client.TimberApi.SetAuthToken` | src/TimberApi.php:21-24 | the token is kept verbatim and is what later Authorization headers encode |
| `Client.TimberApi.PrepareRequestHeaders` | src/TimberApi.php:148-154 | the Authorization header is `Basic ` followed by text that decodes to the token (nothing for no token); the Content-Type is the client's current mode |
| `Client.TimberApi.PrepareRequestOptions` | src/TimberApi.php:89-96 | the options carry the given body, the current headers and a 60-second timeout |
| `Client.TimberApi.PostRequest` | src/TimberApi.php:84-87 | one POST with the prepared options is appended to the trace, and its outcome is returned |
| `Client.TimberApi.SendRawLogLine` | src/TimberApi.php:26-29 | one POST of the line to /frames; the store is unchanged; the content type is plain before any JSON submission and JSON after one |
| `Client.TimberApi.LogJsonAttempt` | src/TimberApi.php:98-120 | the store becomes the opened attempt of `id` and the write of that record is traced |
| `Client.TimberApi.LogError` | src/TimberApi.php:122-130 | the store becomes the error-logged one and the write of the filled record is traced |
| `Client.TimberApi.LogSuccess` | src/TimberApi.php:132-146 | the store becomes the success-settled one; the trace shows the optional `ok_` write, then the delete of `id` |
| `Client.TimberApi.SendJsonLogLine` | src/TimberApi.php:31-82 | content type is JSON from now on; a malformed batch changes nothing else; otherwise the attempt write comes before the POST, then the settling writes follow; the store is the submission's effect; failures are re-thrown unchanged; well-formed records stay well formed |
| `Client.AuthHeaderForAbc` | src/TimberApi.php:148-154 | a client given the token "abc" sends the Authorization header `Basic YWJj` |
| `Client.RawLineAfterJson` | src/TimberApi.php:26-33 | a raw line sent on a new client goes out as plain text; one sent after a JSON submission goes out as JSON |

## Findings

| source | as written | input that shows it | evidently intended | confidence | as-written member | corrected member |
|---|---|---|---|---|---|---|
| src/TimberApi.php:64 | the ClientException handler reads the body with `getContents()` on the PSR-7 response. A response has no such method; only its body stream does. The call raises an Error, so `logError` never runs. | any POST answered with a 4xx status | read the response body (`getBody()`), log `{msg, body}`, re-throw the ClientException | medium, not executed; rests on Guzzle's response class having no `getContents` method, and that class is not part of this model | `Tracking.ClientFailureAsWritten` | `Tracking.FailureRecorded` |

The class uses the corrected behaviour: `Tracking.Diagnose` fills `body` from the response body of a ClientException.

## Left out

- The Guzzle transport, its base URI and its connection handling are not modelled. The POST's result is a parameter of `PostRequest`.
- The Redis facade's networking, persistence and its `get` returning raw strings are not modelled. The keyspace is a map field holding decoded records, so decoding a stored record into PHP arrays and encoding it again is taken to give back the same record. In PHP it does not in these cases:
  - any JSON object inside the stored body, at any depth, whose keys are "0", "1", … in order becomes a PHP list and is stored back as a JSON array (`{"0":"a"}` becomes `["a"]`; an empty object becomes `[]`);
  - integers outside PHP's 64-bit range decode as floats and are stored back in float notation (such as `1.0e+20`), while the model's `Number` is an unbounded integer;
  - JSON numbers with a fraction or an exponent are not modelled at all.
- Concurrent submissions for the same identifier race on the read-modify-write. The model is sequential.
- `Carbon::now()` is a parameter `now`. The timestamp string is opaque.
- The decoding of the JSON text is a parameter: the text together with what it decodes to.
- `Payload.RequestId`: a numeric `request_id`, which PHP would coerce to a string, is treated as malformed. The PHP warnings and TypeErrors of a malformed batch are all one `MalformedPayload` error.
- `Client.TimberApi.LogError` and `Client.TimberApi.LogSuccess` require the record of `id` to be present. Their only caller writes it just before. What PHP would do with a missing record is not modelled.
- The `ok_` guard is the boolean parameter `promote` (see above). The attempt-count test it was apparently meant to be is not modelled.
- `base64_encode(null)` for a client without a token is modelled as encoding the empty string. PHP 8.1's deprecation notice is left out.
- The string values of `RequestParam::PLAIN` and `RequestParam::JSON` are not modelled. RequestParam is not part of this model; the two modes are a datatype.
- Exceptions other than the three handled kinds (Errors raised by the transport) are not modelled.
- Exceptions thrown by Redis inside the try block, which the generic catch would log, are not modelled.
