/**
 * The `TimberApi` client: its mutable fields (the Redis keyspace it works on,
 * the auth token and the content-type mode), the requests it hands to the
 * HTTP transport, and the attempt bookkeeping of JSON submissions.
 */
module Client {
  import opened Wrappers
  import opened Base64
  import Payload
  import opened Tracking

  /** The two `RequestParam` content types the client switches between. */
  datatype ContentType = Plain | Json

  /** The headers of a request. */
  datatype Headers = Headers(authorization: string, contentType: ContentType)

  /** The Guzzle request options: body, headers and timeout in seconds. */
  datatype Options = Options(body: string, headers: Headers, timeout: int)

  /** A POST handed to the transport. */
  datatype Request = Request(path: string, options: Options)

  /** The transport's response, as far as the client looks at it. */
  datatype Response = Response(status: int)

  /** What a JSON submission raises. */
  datatype SendError =
    | MalformedPayload          // the request identifier could not be read from the batch
    | Raised(failure: Failure)  // the POST's exception, re-thrown after it was logged

  /** An effect on the outside world, in the order the client performs them. */
  datatype Event = Put(key: string, record: Record) | Delete(key: string) | Post(request: Request)

  /** The path every submission is posted to. */
  const FramesPath: string := "/frames"

  /** The request timeout in seconds. */
  const TimeoutSeconds: int := 60

  /** The prefix of the Authorization header. */
  const BasicPrefix: string := "Basic "

  /** The response a successful POST returns, or the exception it raised. */
  function RawResult(outcome: Outcome): (r: Result<Response, Failure>)
    ensures r.Success? <==> outcome.Responded?
    ensures outcome.Responded? ==> r.value.status == outcome.status
    ensures outcome.Threw? ==> r.error == outcome.failure
  {
    match outcome
    case Responded(status) => Success(Response(status))
    case Threw(f) => Failure(f)
  }

  /** The effects that settle an attempt of `id` after the POST (logSuccess or logError). */
  function SettleEvents(begun: Store, id: string, outcome: Outcome, promote: bool): seq<Event>
    requires id in begun
  {
    match outcome
    case Responded(status) =>
      (if promote then [Put(OkKey(id), Fill(begun[id], Succeeded(status)))] else []) + [Delete(id)]
    case Threw(f) => [Put(id, Fill(begun[id], Failed(Diagnose(f))))]
  }

  class TimberApi {
    /** The Redis keyspace the facade reads and writes. */
    var store: Store
    /** The token given to `setAuthToken`; None (PHP `null`) until then. */
    var token: Option<seq<byte>>
    /** The content type of the next request. */
    var contentType: ContentType
    /** How many times `sendJsonLogLine` has been called on this client. */
    ghost var jsonCalls: nat
    /** Every store write, store delete and POST so far, in order. */
    ghost var events: seq<Event>

    /** The content type is plain until the first JSON submission and JSON from then on. */
    ghost predicate Valid()
      reads this
    {
      contentType == (if jsonCalls == 0 then Plain else Json)
    }

    /** A new client over the keyspace `redis`: no token, plain content type. */
    constructor (redis: Store)
      ensures Valid()
      ensures store == redis && token == None && contentType == Plain
      ensures jsonCalls == 0 && events == []
    {
      store := redis;
      token := None;
      contentType := Plain;
      jsonCalls := 0;
      events := [];
    }

    /** The bytes the Authorization header encodes; `base64_encode(null)` encodes nothing. */
    function TokenBytes(): seq<byte>
      reads this`token
    {
      token.GetOr([])
    }

    /** `setAuthToken`: keeps the token verbatim for every later request. */
    method SetAuthToken(t: seq<byte>)
      modifies this`token
      ensures token == Some(t)
      ensures TokenBytes() == t
    {
      token := Some(t);
    }

    /**
     * `prepareRequestHeaders`: Basic authorization carrying the token in
     * base64, and the current content type.
     */
    function PrepareRequestHeaders(): (h: Headers)
      reads this`token, this`contentType
      ensures h.contentType == contentType
      ensures |h.authorization| >= |BasicPrefix| && h.authorization[..|BasicPrefix|] == BasicPrefix
      ensures Decode(h.authorization[|BasicPrefix|..]) == Some(TokenBytes())
    {
      var encoded := Encode(TokenBytes());
      DecodeEncode(TokenBytes());
      assert (BasicPrefix + encoded)[|BasicPrefix|..] == encoded;
      Headers(BasicPrefix + encoded, contentType)
    }

    /** `prepareRequestOptions`: the body, the current headers and the 60-second timeout. */
    function PrepareRequestOptions(body: string): (o: Options)
      reads this`token, this`contentType
      ensures o.body == body && o.timeout == TimeoutSeconds
      ensures o.headers == PrepareRequestHeaders()
    {
      Options(body, PrepareRequestHeaders(), TimeoutSeconds)
    }

    /** `postRequest`: hands the POST to the transport, whose answer is `outcome`. */
    method PostRequest(path: string, body: string, outcome: Outcome) returns (result: Outcome)
      modifies this`events
      ensures events == old(events) + [Post(Request(path, PrepareRequestOptions(body)))]
      ensures result == outcome
    {
      events := events + [Post(Request(path, PrepareRequestOptions(body)))];
      result := outcome;
    }

    /** `sendRawLogLine`: one POST of the line; the store is not touched and errors pass through. */
    method SendRawLogLine(line: string, outcome: Outcome) returns (r: Result<Response, Failure>)
      requires Valid()
      modifies this`events
      ensures Valid()
      ensures store == old(store)
      ensures events == old(events) + [Post(Request(FramesPath, PrepareRequestOptions(line)))]
      ensures PrepareRequestOptions(line).headers.contentType == (if jsonCalls == 0 then Plain else Json)
      ensures r == RawResult(outcome)
    {
      var result := PostRequest(FramesPath, line, outcome);
      r := RawResult(result);
    }

    /**
     * `logJsonAttempt`: loads or starts the record of `id`, counts the attempt,
     * opens its slot and writes the record back.
     */
    method LogJsonAttempt(first: Payload.Json, id: string, now: Timestamp)
      modifies this`store, this`events
      ensures store == OpenAttempt(old(store), id, now, first)
      ensures events == old(events) + [Put(id, store[id])]
    {
      var data: Record;
      if id !in store {
        data := Record(0, now, map[], first);
      } else {
        data := store[id];
      }
      data := data.(attempts := data.attempts + 1);
      data := data.(responses := data.responses[data.attempts := Pending]);
      store := store[id := data];
      events := events + [Put(id, data)];
    }

    /** `logError`: writes the diagnostic into the current slot of `id`. */
    method LogError(d: Diagnostic, id: string)
      requires id in store
      modifies this`store, this`events
      ensures store == RecordError(old(store), id, d)
      ensures events == old(events) + [Put(id, Fill(old(store)[id], Failed(d)))]
    {
      var data := store[id];
      data := Fill(data, Failed(d));
      store := store[id := data];
      events := events + [Put(id, data)];
    }

    /**
     * `logSuccess`: writes the status code into the current slot, copies the
     * record to `ok_<id>` when the guard `promote` holds, and deletes `id`.
     */
    method LogSuccess(status: int, id: string, promote: bool)
      requires id in store
      modifies this`store, this`events
      ensures store == RecordSuccess(old(store), id, status, promote)
      ensures events == old(events) + SettleEvents(old(store), id, Responded(status), promote)
    {
      var data := store[id];
      data := Fill(data, Succeeded(status));
      if promote {
        store := store[OkKey(id) := data];
        events := events + [Put(OkKey(id), data)];
      }
      store := store - {id};
      events := events + [Delete(id)];
    }

    /**
     * `sendJsonLogLine`: switches to JSON for good, reads the request
     * identifier from the batch `decoded` (what `json` decodes to), logs the
     * attempt, posts `json`, and settles the attempt: on a response the
     * record is completed and removed, on an exception the diagnostic is
     * logged and the exception re-thrown. `now` is the clock reading and
     * `promote` the outcome of the `ok_` guard.
     */
    method SendJsonLogLine(json: string, decoded: Option<Payload.Json>, now: Timestamp, outcome: Outcome, promote: bool)
      returns (r: Result<Response, SendError>)
      requires Valid()
      modifies this`contentType, this`jsonCalls, this`store, this`events
      ensures Valid() && contentType == Json && jsonCalls == old(jsonCalls) + 1
      ensures Payload.RequestId(decoded).None? ==>
        r == Failure(MalformedPayload) && store == old(store) && events == old(events)
      ensures Payload.RequestId(decoded).Some? ==>
        var id := Payload.RequestId(decoded).value;
        var first := Payload.FirstLine(decoded);
        var begun := OpenAttempt(old(store), id, now, first);
        && store == SendEffect(old(store), id, now, first, outcome, promote)
        && events == old(events) + [Put(id, begun[id]), Post(Request(FramesPath, PrepareRequestOptions(json)))]
                     + SettleEvents(begun, id, outcome, promote)
        && r == match outcome
                case Responded(status) => Success(Response(status))
                case Threw(f) => Failure(Raised(f))
      ensures WellFormedStore(old(store)) ==> WellFormedStore(store)
    {
      contentType := Json;
      jsonCalls := jsonCalls + 1;
      var requestId := Payload.RequestId(decoded);
      if requestId.None? {
        return Failure(MalformedPayload);
      }
      var id := requestId.value;
      var first := Payload.FirstLine(decoded);
      ghost var before := events;
      LogJsonAttempt(first, id, now);
      ghost var begun := store;
      var result := PostRequest(FramesPath, json, outcome);
      ghost var posted := events;
      assert posted == before + [Put(id, begun[id]), Post(Request(FramesPath, PrepareRequestOptions(json)))];
      match result {
        case Responded(status) =>
          LogSuccess(status, id, promote);
          r := Success(Response(status));
        case Threw(f) =>
          LogError(Diagnose(f), id);
          r := Failure(Raised(f));
      }
      assert events == posted + SettleEvents(begun, id, outcome, promote);
      if WellFormedStore(old(store)) {
        SendEffectWellFormed(old(store), id, now, first, outcome, promote);
      }
    }
  }

  /**
   * The content type is a property of the client, not of the request: a raw
   * line sent before any JSON submission goes out as plain text, one sent
   * after a JSON submission goes out as JSON.
   */
  method RawLineAfterJson(redis: Store, line: string, json: string, decoded: Option<Payload.Json>,
                          now: Timestamp, outcome: Outcome, promote: bool)
    returns (before: ContentType, after: ContentType)
    ensures before == Plain && after == Json
  {
    var api := new TimberApi(redis);
    var _ := api.SendRawLogLine(line, outcome);
    before := api.PrepareRequestOptions(line).headers.contentType;
    var _ := api.SendJsonLogLine(json, decoded, now, outcome, promote);
    var _ := api.SendRawLogLine(line, outcome);
    after := api.PrepareRequestOptions(line).headers.contentType;
  }

  /** A client given the token "abc" sends the Authorization header `Basic YWJj`. */
  method AuthHeaderForAbc(redis: Store) returns (authorization: string)
    ensures authorization == "Basic YWJj"
  {
    var api := new TimberApi(redis);
    api.SetAuthToken(['a' as int, 'b' as int, 'c' as int]);
    EncodeAbc();
    authorization := api.PrepareRequestHeaders().authorization;
  }
}
