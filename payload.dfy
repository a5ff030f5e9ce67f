/**
 * The decoded form of a JSON log batch and the lookup of the request
 * identifier that `sendJsonLogLine` performs on it.
 */
module Payload {
  import opened Wrappers

  /** A decoded JSON value. Objects are PHP `stdClass` instances (or associative arrays). */
  datatype Json =
    | Null
    | Bool(b: bool)
    | Number(n: int)
    | Str(s: string)
    | Array(items: seq<Json>)
    | Object(fields: map<string, Json>)

  /** The property `key` of an object; None on anything else or when the key is missing. */
  function Member(j: Json, key: string): (r: Option<Json>)
    ensures r.Some? <==> j.Object? && key in j.fields
  {
    if j.Object? && key in j.fields then Some(j.fields[key]) else None
  }

  /** Follows a chain of property names from `j`: the reference reading of a property-access chain. */
  function Path(j: Json, keys: seq<string>): Option<Json>
    decreases |keys|
  {
    if keys == [] then Some(j)
    else
      match Member(j, keys[0])
      case None => None
      case Some(child) => Path(child, keys[1..])
  }

  /** The property chain under which a log line carries its request identifier. */
  const RequestIdPath: seq<string> := ["context", "http", "request_id"]

  /** True when `batch` decoded to a non-empty JSON array. */
  predicate NonEmptyBatch(batch: Option<Json>) {
    batch.Some? && batch.value.Array? && |batch.value.items| > 0
  }

  /** The first log line of a non-empty batch, the value stored as a record's `body`. */
  function FirstLine(batch: Option<Json>): (first: Json)
    requires NonEmptyBatch(batch)
    ensures first in batch.value.items
  {
    batch.value.items[0]
  }

  /**
   * The request identifier: property `request_id` of property `http` of
   * property `context` of the first log line; None when the text did not
   * decode, is not a non-empty array, lacks one of the properties or holds a
   * non-string there.
   */
  function RequestId(batch: Option<Json>): (r: Option<string>)
    ensures r.Some? <==> NonEmptyBatch(batch) && Path(FirstLine(batch), RequestIdPath).Some?
                         && Path(FirstLine(batch), RequestIdPath).value.Str?
    ensures r.Some? ==> Path(FirstLine(batch), RequestIdPath) == Some(Str(r.value))
  {
    if !NonEmptyBatch(batch) then None
    else
      var context := Member(FirstLine(batch), "context");
      if context.None? then None
      else
        var http := Member(context.value, "http");
        if http.None? then None
        else
          var id := Member(http.value, "request_id");
          if id.Some? && id.value.Str? then Some(id.value.s) else None
  }

  /** A batch whose first line is `{"context": {"http": {"request_id": id}}, ...}` yields `id`. */
  lemma RequestIdOfLine(id: string, line: map<string, Json>, http: map<string, Json>, rest: seq<Json>)
    requires "context" in line && line["context"] == Object(map["http" := Object(http)])
    requires "request_id" in http && http["request_id"] == Str(id)
    ensures RequestId(Some(Array([Object(line)] + rest))) == Some(id)
  {
  }
}
