/**
 * The attempt-tracking bookkeeping that `TimberApi` keeps in Redis for JSON
 * submissions, as pure functions of the store. The class in module Client
 * performs these steps in place; the lemmas here state what they promise.
 */
module Tracking {
  import opened Wrappers
  import opened Payload

  /** `Carbon::now()` rendered as a string; the model never looks inside it. */
  type Timestamp = string

  /** The `{msg, body}` array a catch block of `sendJsonLogLine` logs. */
  datatype Diagnostic = Diagnostic(msg: string, body: Option<string>)

  /**
   * One entry of `responses`: `null` while the attempt is in flight, then the
   * encoded diagnostic of a failure or the encoded `{response_code}` of a success.
   */
  datatype Slot = Pending | Failed(diagnostic: Diagnostic) | Succeeded(responseCode: int)

  /** The record stored (JSON-encoded) under a request identifier. */
  datatype Record = Record(attempts: int, time: Timestamp, responses: map<int, Slot>, body: Json)

  /** The Redis keyspace, each value already decoded. */
  type Store = map<string, Record>

  /** The three kinds of exception the POST can raise, as `sendJsonLogLine` tells them apart. */
  datatype Failure =
    | Connect(msg: string)                        // ConnectException: no response
    | Client(msg: string, responseBody: string)   // ClientException: a 4xx response
    | Other(msg: string)                          // any other Exception

  /** What the POST gives: a response with a status code, or an exception. */
  datatype Outcome = Responded(status: int) | Threw(failure: Failure)

  /** The key a completed record may be copied to. */
  function OkKey(id: string): (k: string)
    ensures k != id && |k| == |id| + 3 && k[..3] == "ok_" && k[3..] == id
  {
    "ok_" + id
  }

  /** The slots of `responses` are exactly those of attempts 1..n. */
  ghost predicate SlotsUpTo(responses: map<int, Slot>, n: int) {
    forall i :: i in responses <==> 1 <= i <= n
  }

  /** A record as this bookkeeping leaves it: one response slot for each attempt so far. */
  ghost predicate WellFormed(r: Record) {
    r.attempts >= 1 && SlotsUpTo(r.responses, r.attempts)
  }

  /** Every record in the store is well formed. */
  ghost predicate WellFormedStore(s: Store) {
    forall k :: k in s ==> WellFormed(s[k])
  }

  /** Fills the slot of the record's current attempt, as `logError` and `logSuccess` do. */
  function Fill(r: Record, slot: Slot): (r': Record)
    ensures r'.attempts == r.attempts && r'.time == r.time && r'.body == r.body
    ensures r'.responses.Keys == r.responses.Keys + {r.attempts}
    ensures r'.responses[r.attempts] == slot
    ensures forall i :: i in r.responses && i != r.attempts ==> r'.responses[i] == r.responses[i]
    ensures WellFormed(r) ==> WellFormed(r')
  {
    r.(responses := r.responses[r.attempts := slot])
  }

  /**
   * `logJsonAttempt`: loads the record of `id`, or starts one with no attempts,
   * the time `now` and the batch's first line; counts one more attempt and
   * opens an empty slot for it.
   */
  function OpenAttempt(store: Store, id: string, now: Timestamp, first: Json): Store {
    var data := if id in store then store[id] else Record(0, now, map[], first);
    var attempts := data.attempts + 1;
    store[id := data.(attempts := attempts, responses := data.responses[attempts := Pending])]
  }

  /** On a key with no record, the first attempt is recorded with an empty slot 1 and the batch's first line. */
  lemma OpenAttemptNew(store: Store, id: string, now: Timestamp, first: Json)
    requires id !in store
    ensures var s := OpenAttempt(store, id, now, first);
      && s.Keys == store.Keys + {id}
      && (forall k :: k in store ==> s[k] == store[k])
      && s[id] == Record(1, now, map[1 := Pending], first)
  {
  }

  /**
   * On an existing record, one more attempt is counted and its slot opened;
   * the earlier slots, the time and the first line are kept, and so is every
   * other key.
   */
  lemma OpenAttemptExisting(store: Store, id: string, now: Timestamp, first: Json)
    requires id in store
    ensures var s := OpenAttempt(store, id, now, first);
      var n := store[id].attempts + 1;
      && s.Keys == store.Keys
      && (forall k :: k in store && k != id ==> s[k] == store[k])
      && s[id].attempts == n
      && s[id].time == store[id].time
      && s[id].body == store[id].body
      && s[id].responses.Keys == store[id].responses.Keys + {n}
      && s[id].responses[n] == Pending
      && (forall i :: i in store[id].responses && i != n ==> s[id].responses[i] == store[id].responses[i])
  {
  }

  /** `logError`: writes the diagnostic into the current slot of `id` and keeps the record. */
  function RecordError(store: Store, id: string, d: Diagnostic): Store
    requires id in store
  {
    store[id := Fill(store[id], Failed(d))]
  }

  /**
   * A logged error changes only the current slot of `id`: the keys, the
   * attempt count and every other record stay as they were.
   */
  lemma RecordErrorSlot(store: Store, id: string, d: Diagnostic)
    requires id in store
    ensures var s := RecordError(store, id, d);
      && s.Keys == store.Keys
      && (forall k :: k in store && k != id ==> s[k] == store[k])
      && s[id] == Fill(store[id], Failed(d))
      && s[id].attempts == store[id].attempts
      && s[id].responses[store[id].attempts] == Failed(d)
  {
  }

  /**
   * `logSuccess`: writes the status code into the current slot, copies the
   * record to `ok_<id>` when `promote` (the outcome of the guard) holds, and
   * deletes `id`.
   */
  function RecordSuccess(store: Store, id: string, code: int, promote: bool): Store
    requires id in store
  {
    var completed := Fill(store[id], Succeeded(code));
    var written := if promote then store[OkKey(id) := completed] else store;
    written - {id}
  }

  /**
   * After a success `id` is gone; `ok_<id>` is the only key that may be
   * written, and only when the guard holds, with the completed record;
   * every other key is untouched.
   */
  lemma RecordSuccessKeys(store: Store, id: string, code: int, promote: bool)
    requires id in store
    ensures var s := RecordSuccess(store, id, code, promote);
      && id !in s
      && s.Keys == store.Keys - {id} + (if promote then {OkKey(id)} else {})
      && (promote ==> s[OkKey(id)] == Fill(store[id], Succeeded(code)))
      && (forall k :: k in store && k != id && (promote ==> k != OkKey(id)) ==> s[k] == store[k])
  {
  }

  /**
   * The diagnostic the catch blocks build: the exception's message, and the
   * body of the response for a ClientException only.
   */
  function Diagnose(f: Failure): (d: Diagnostic)
    ensures d.msg == f.msg
    ensures d.body.Some? <==> f.Client?
    ensures f.Client? ==> d.body == Some(f.responseBody)
  {
    match f
    case Connect(msg) => Diagnostic(msg, None)
    case Client(msg, body) => Diagnostic(msg, Some(body))
    case Other(msg) => Diagnostic(msg, None)
  }

  /**
   * The store after one JSON submission for `id` whose POST had `outcome`:
   * the attempt is begun, then settled as a success or a failure.
   */
  function SendEffect(store: Store, id: string, now: Timestamp, first: Json, outcome: Outcome, promote: bool): Store {
    var begun := OpenAttempt(store, id, now, first);
    match outcome
    case Responded(status) => RecordSuccess(begun, id, status, promote)
    case Threw(f) => RecordError(begun, id, Diagnose(f))
  }

  /** The attempt count `id` had before a submission, zero when it had no record. */
  function PriorAttempts(store: Store, id: string): int {
    if id in store then store[id].attempts else 0
  }

  /**
   * A JSON submission reads and writes only `id` and `ok_<id>`; a failed one
   * leaves the record under `id` with one more attempt and the diagnostic in
   * its slot, a successful one removes `id`.
   */
  lemma SendEffectFrame(store: Store, id: string, now: Timestamp, first: Json, outcome: Outcome, promote: bool)
    ensures var s := SendEffect(store, id, now, first, outcome, promote);
      && (forall k :: k != id && k != OkKey(id) ==> (k in s <==> k in store))
      && (forall k :: k in store && k != id && k != OkKey(id) ==> s[k] == store[k])
      && (outcome.Responded? ==> id !in s)
      && (outcome.Threw? ==>
            && id in s
            && s[id].attempts == PriorAttempts(store, id) + 1
            && s[id].responses[s[id].attempts] == Failed(Diagnose(outcome.failure))
            && (OkKey(id) in s <==> OkKey(id) in store))
  {
  }

  /** A JSON submission keeps every record of a well-formed store well formed. */
  lemma SendEffectWellFormed(store: Store, id: string, now: Timestamp, first: Json, outcome: Outcome, promote: bool)
    requires WellFormedStore(store)
    ensures WellFormedStore(SendEffect(store, id, now, first, outcome, promote))
  {
    var begun := OpenAttempt(store, id, now, first);
    assert WellFormed(begun[id]);
    assert WellFormedStore(begun);
  }

  /** The record a failed submission leaves under `id`, written out. */
  lemma FailedSendRecord(store: Store, id: string, now: Timestamp, first: Json, f: Failure)
    ensures id in SendEffect(store, id, now, first, Threw(f), false)
    ensures SendEffect(store, id, now, first, Threw(f), false)[id] ==
      if id in store then
        store[id].(attempts := store[id].attempts + 1,
                   responses := store[id].responses[store[id].attempts + 1 := Failed(Diagnose(f))])
      else Record(1, now, map[1 := Failed(Diagnose(f))], first)
  {
  }

  /** The record a successful submission copies to `ok_<id>` when the guard holds, written out. */
  lemma SucceededSendRecord(store: Store, id: string, now: Timestamp, first: Json, status: int, promote: bool)
    ensures id !in SendEffect(store, id, now, first, Responded(status), promote)
    ensures promote ==>
      && OkKey(id) in SendEffect(store, id, now, first, Responded(status), promote)
      && SendEffect(store, id, now, first, Responded(status), promote)[OkKey(id)] ==
           if id in store then
             store[id].(attempts := store[id].attempts + 1,
                        responses := store[id].responses[store[id].attempts + 1 := Succeeded(status)])
           else Record(1, now, map[1 := Succeeded(status)], first)
  {
  }

  /** One submission that reached the POST and failed: its clock reading, batch and exception. */
  datatype FailedCall = FailedCall(now: Timestamp, first: Json, failure: Failure)

  /** The store after the failed submissions `calls`, in order, all for `id`. */
  function Retries(store: Store, id: string, calls: seq<FailedCall>): Store
    decreases |calls|
  {
    if calls == [] then store
    else
      var c := calls[|calls| - 1];
      SendEffect(Retries(store, id, calls[..|calls| - 1]), id, c.now, c.first, Threw(c.failure), false)
  }

  /** The `responses` map that the failed submissions `calls` fill in, slot i for the i-th. */
  function FailureHistory(calls: seq<FailedCall>): map<int, Slot>
    decreases |calls|
  {
    if calls == [] then map[]
    else FailureHistory(calls[..|calls| - 1])[|calls| := Failed(Diagnose(calls[|calls| - 1].failure))]
  }

  /** Slot i of the history is the diagnostic of the i-th failure, and there are no other slots. */
  lemma {:induction false} FailureHistorySlots(calls: seq<FailedCall>)
    ensures SlotsUpTo(FailureHistory(calls), |calls|)
    ensures forall i :: 1 <= i <= |calls| ==> FailureHistory(calls)[i] == Failed(Diagnose(calls[i - 1].failure))
    decreases |calls|
  {
    if calls != [] {
      var prefix := calls[..|calls| - 1];
      FailureHistorySlots(prefix);
      forall i | 1 <= i < |calls|
        ensures FailureHistory(calls)[i] == Failed(Diagnose(calls[i - 1].failure))
      {
        assert prefix[i - 1] == calls[i - 1];
      }
    }
  }

  /**
   * Starting with no record for `id`, N failed submissions leave under `id` a
   * record with N attempts, the time and first line of the first submission,
   * and the N diagnostics as its responses.
   */
  lemma {:induction false} FailuresAccumulate(store: Store, id: string, calls: seq<FailedCall>)
    requires id !in store
    ensures calls == [] ==> id !in Retries(store, id, calls)
    ensures calls != [] ==>
      && id in Retries(store, id, calls)
      && Retries(store, id, calls)[id] == Record(|calls|, calls[0].now, FailureHistory(calls), calls[0].first)
    decreases |calls|
  {
    if calls != [] {
      var n := |calls|;
      var prefix := calls[..n - 1];
      var c := calls[n - 1];
      var prev := Retries(store, id, prefix);
      FailuresAccumulate(store, id, prefix);
      FailedSendRecord(prev, id, c.now, c.first, c.failure);
      if prefix != [] {
        assert prefix[0] == calls[0];
      }
    }
  }

  /**
   * When the submission after N failed ones succeeds, `id` is deleted; when the
   * guard lets it through, `ok_<id>` holds the whole history: N + 1 attempts,
   * the N diagnostics and the status code in the last slot.
   */
  lemma SuccessAfterFailures(store: Store, id: string, calls: seq<FailedCall>,
                             now: Timestamp, first: Json, status: int, promote: bool)
    requires id !in store
    ensures var s := SendEffect(Retries(store, id, calls), id, now, first, Responded(status), promote);
      var n := |calls| + 1;
      && id !in s
      && (promote ==>
            && OkKey(id) in s
            && s[OkKey(id)].attempts == n
            && s[OkKey(id)].responses == FailureHistory(calls)[n := Succeeded(status)])
  {
    FailuresAccumulate(store, id, calls);
    SucceededSendRecord(Retries(store, id, calls), id, now, first, status, promote);
  }

  /** What a catch block of `sendJsonLogLine` ends up throwing. */
  datatype Raised = Rethrown(failure: Failure) | UndefinedMethod

  /**
   * The store and the thrown error after a failed POST, as the source is
   * written: for a ClientException the catch block calls `getContents()` on the
   * PSR-7 response, a method a response does not have, so an Error escapes
   * before `logError` runs.
   */
  function FailedSendAsWritten(store: Store, id: string, now: Timestamp, first: Json, f: Failure): (Store, Raised) {
    var begun := OpenAttempt(store, id, now, first);
    if f.Client? then (begun, UndefinedMethod)
    else (RecordError(begun, id, Diagnose(f)), Rethrown(f))
  }

  /**
   * As written, a 4xx response leaves the current slot `null` and the caller
   * receives an Error instead of the ClientException.
   */
  lemma ClientFailureAsWritten(store: Store, id: string, now: Timestamp, first: Json, msg: string, body: string)
    ensures var (s, raised) := FailedSendAsWritten(store, id, now, first, Client(msg, body));
      && id in s
      && s[id].responses[s[id].attempts] == Pending
      && raised == UndefinedMethod
  {
  }

  /**
   * With the response body read as intended, every failure is logged: the
   * current slot holds the diagnostic of exactly that failure, whose body is
   * the response body for a ClientException and null otherwise.
   */
  lemma FailureRecorded(store: Store, id: string, now: Timestamp, first: Json, f: Failure)
    ensures var s := SendEffect(store, id, now, first, Threw(f), false);
      && id in s
      && s[id].responses[s[id].attempts] == Failed(Diagnostic(f.msg, if f.Client? then Some(f.responseBody) else None))
  {
  }
}
