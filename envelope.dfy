/**
 * What the endpoint receives: the body of a reply as `json_decode` gives it,
 * and the decisions the endpoint takes on it (success of a create or a
 * delete, the listing it hands back, the single record, the first id).
 */
module Envelope {

  import opened Wrappers
  import opened Requests

  /** A record object of a reply; `id` is None when the field is absent or null. */
  datatype Record = Record(id: Option<string>, fields: Fields)

  /**
   * The `result` member of a reply: absent or null, one object, a list of
   * objects, or any other JSON scalar.
   */
  datatype Payload = Missing | Object(record: Record) | Records(items: seq<Record>) | Scalar

  /** The `result_info` member of a list reply. */
  datatype PageInfo = PageInfo(page: int, perPage: int, count: int, totalCount: int)

  /**
   * The decoded body: `NotObject` when `json_decode` gives anything but an
   * object (null for text that is not JSON, an array, a scalar).
   */
  datatype Body = NotObject | Envelope(result: Payload, resultInfo: Option<PageInfo>)

  /** What PHP throws where the model cannot return a value. */
  datatype Thrown =
    | ReturnTypeError    // a value that is not an object returned from a method declared `: \stdClass`
    | ObjectUsedAsArray  // `$records->result[0]` on an object result

  datatype Outcome<+T> = Ok(value: T) | Err(error: Thrown)

  /** The object `listRecords` returns: `result` and `result_info`. */
  datatype Listing = Listing(result: Payload, resultInfo: Option<PageInfo>)

  /** `isset($body->result->id)`: the success test of `addRecord` and `deleteRecord`. */
  predicate ResultIdSet(b: Body) {
    b.Envelope? && b.result.Object? && b.result.record.id.Some?
  }

  /**
   * `(object)['result' => $body->result, 'result_info' => $body->result_info]`.
   * Reading a member of a body that is not an object gives null.
   */
  function ListingOf(b: Body): Listing {
    if b.Envelope? then Listing(b.result, b.resultInfo) else Listing(Missing, None)
  }

  /** `return $body->result` from a method declared `: \stdClass`. */
  function DetailsOf(b: Body): Outcome<Record> {
    if b.Envelope? && b.result.Object? then Ok(b.result.record) else Err(ReturnTypeError)
  }

  /** `return $body` from a method declared `: \stdClass`. */
  function WholeBody(b: Body): Outcome<Body> {
    if b.Envelope? then Ok(b) else Err(ReturnTypeError)
  }

  /**
   * A create or a delete succeeds on exactly the replies on which
   * `getRecordDetails` would return a record carrying an id, and on which
   * `listRecords` would hand back an object `result` carrying an id; a
   * missing, null, list or id-less result fails, and so does an
   * undecodable body.
   */
  lemma SuccessIffDetailsHaveId(b: Body)
    ensures ResultIdSet(b) <==> DetailsOf(b).Ok? && DetailsOf(b).value.id.Some?
    ensures ResultIdSet(b) <==> ListingOf(b).result.Object? && ListingOf(b).result.record.id.Some?
  {
  }

  /**
   * The id of the first listed record, with an explicit absence when
   * `isset($records->result[0]->id)` fails; an object result throws.
   */
  function FirstRecordId(p: Payload): (r: Outcome<Option<string>>)
    ensures r.Err? <==> p.Object?
    ensures p.Records? && p.items != [] ==> r == Ok(p.items[0].id)
    ensures r.Ok? && r.value.Some? ==> p.Records? && p.items != [] && p.items[0].id == r.value
  {
    match p
    case Object(_) => Err(ObjectUsedAsArray)
    case Records(items) => Ok(if items != [] then items[0].id else None)
    case _ => Ok(None)
  }

  /** Only the first record decides the lookup: later matches are ignored. */
  lemma FirstMatchWins(first: Record, later: seq<Record>, other: seq<Record>)
    ensures FirstRecordId(Records([first] + later)) == FirstRecordId(Records([first] + other))
  {
  }

  /**
   * `getRecordID` as written: `return false` from a method declared
   * `: string`, outside strict typing, reaches the caller as "".
   */
  function CoercedRecordId(p: Payload): (r: Outcome<string>)
    ensures r.Err? <==> p.Object?
    ensures p.Records? && p.items != [] && p.items[0].id.Some? ==> r == Ok(p.items[0].id.value)
  {
    match FirstRecordId(p)
    case Err(e) => Err(e)
    case Ok(id) => Ok(if id.Some? then id.value else "")
  }

  /** As written, "no match" and "a match whose id is empty" give the same answer. */
  lemma CoercionLosesAbsence(p: Payload)
    ensures CoercedRecordId(p) == Ok("") <==> FirstRecordId(p) == Ok(None) || FirstRecordId(p) == Ok(Some(""))
  {
  }

  /** An empty result list: the as-written lookup answers "", not a `false` sentinel. */
  lemma SentinelCollision()
    ensures CoercedRecordId(Records([])) == Ok("")
    ensures CoercedRecordId(Records([])) == CoercedRecordId(Records([Record(Some(""), map[])]))
    ensures FirstRecordId(Records([])) != FirstRecordId(Records([Record(Some(""), map[])]))
  {
  }
}
