# DNS record endpoint of a Cloudflare API client, in Dafny

This project models the `DNS` endpoint class of a PHP client for Cloudflare's
DNS-record API (`src/Endpoints/DNS.php`). The class turns method calls into
requests on an HTTP adapter and reads the decoded reply:

- `addRecord` builds the body of a create request field by field and reports
  success when the reply echoes a record id;
- `listRecords` builds the query of a list request (paging, optional type,
  order and direction, and name and content filters with or without a match
  mode) and hands back `result` and `result_info`;
- `getRecordID` lists with the lookup defaults and takes the id of the first
  record;
- `getRecordDetails`, `updateRecordDetails` and `deleteRecord` build a
  record path, pass the caller's data through, and return the reply, its
  `result` or a success flag.

Layout:

- `wrappers.dfy` — `Option`.
- `php_strings.dfy` (module `PhpStrings`) — PHP's `empty()` on strings (true
  for "" and "0"), `is_numeric()` on decimal notation, the `(int)` cast, the
  decimal rendering of an integer, and their round trip.
- `requests.dfy` (module `Requests`) — request values and paths, the create
  body `CreateOptions`, and the list query `ListQuery`, with lemmas about the
  keys they hold.
- `envelope.dfy` (module `Envelope`) — the decoded reply as a datatype, the
  success test, the listing, and the first-id lookup.
- `dns.dfy` (module `Endpoints`) — class `Adapter`, which records every
  request, and class `DNS`, whose `body` field every method assigns before
  reading from it. Each method builds its array step by step, as the source
  does, and is proved equal to the functions above.

The adapter's network calls and `json_decode` are not modelled. Each `DNS`
method takes a `reply` parameter: the body that `json_decode` would give for
the service's answer. Any body that is not a JSON object is `NotObject`, as
when `json_decode` returns null.

Where the code behaves differently from what its signatures and names
suggest, the model follows the code:

- **Decode failures are not raised as their own error.** A create or delete
  whose body cannot be decoded returns false. A list returns a null `result`
  and a null `result_info`, because in PHP reading a member of null gives null
  and a warning. `getRecordDetails` and `updateRecordDetails` throw a type
  error because their declared return type is `\stdClass` (`Thrown.ReturnTypeError`).
- **`getRecordID` on a single-object result throws.** The expression
  `$records->result[0]` throws "Cannot use object of type stdClass as array"
  (`Thrown.ObjectUsedAsArray`).
- **Only the name gets the exact-match filter in `getRecordID`.** The name is
  sent under `name.exact`, and the type is sent under the plain key `type`.
- **`getRecordID` returns "" instead of `false` (see Findings).** The model's
  `DNS.GetRecordID` returns an explicit absence in its place.

## Model

| member | source | states |
|---|---|---|
| `PhpStrings.RenderRoundTrip` | src/Endpoints/DNS.php:59-60 | the decimal form of every integer passes `is_numeric` and `(int)` gives the same integer back |
| `PhpStrings.CastTruncatesFraction` | src/Endpoints/DNS.php:59-60 | a signed decimal with a fraction passes `is_numeric`, and `(int)` keeps only the whole part, which truncates toward zero. This includes a fraction with no whole digits (".5", "-.5"), which casts to 0 |
| `PhpStrings.NoDigitNotNumeric` | src/Endpoints/DNS.php:59 | a string without any decimal digit ("high", "") fails `is_numeric` |
| `Requests.CreateOptions` | src/Endpoints/DNS.php:48-65 | the create body holds `type`, `name`, `content` and `proxied` with the caller's values. It holds `ttl` iff ttl > 0, `priority` as `(int)priority` iff the priority is numeric, and `data` iff data is non-empty. It holds no other key |
| `Requests.IntegerPrioritySent` | src/Endpoints/DNS.php:59-61 | a priority written as an integer's decimal form is sent as that integer |
| `Requests.WordPriorityDropped` | src/Endpoints/DNS.php:59-61 | a priority without digits is left out of the body |
| `Requests.RecordsPathInjective` | src/Endpoints/DNS.php:67 | the collection path `zones/{zoneID}/dns_records` determines the zone id |
| `Requests.RecordPathInjective` | src/Endpoints/DNS.php:167 | within one zone, the record path `…/dns_records/{recordID}` determines the record id |
| `Requests.ListQueryPaging` | src/Endpoints/DNS.php:106-110 | the list query always holds `page`, `per_page` and `match` with the caller's values, unclamped (zero and negative values included) |
| `Requests.ListQueryOptional` | src/Endpoints/DNS.php:112-134 | `type`, `order` and `direction` are in the query iff non-empty in PHP's sense, with the caller's values |
| `Requests.NameFilter` | src/Endpoints/DNS.php:116-120 | `name.<mode>` is in the query iff name and mode are both non-empty. `name` is in it iff only the name is. Both map to the name, and they never appear together |
| `Requests.ContentFilter` | src/Endpoints/DNS.php:122-126 | the same rule for `content` and `content.<mode>` |
| `Requests.QueryKeysBounded` | src/Endpoints/DNS.php:106-134 | the query holds no key besides the eight fixed ones and the two composite filter keys |
| `Requests.LookupQuery` | src/Endpoints/DNS.php:149-151 | the lookup query is page 1 of 20 with `match=all`. It has `type` iff the type is non-empty and `name.exact` iff the name is non-empty. It has no plain `name`, no content filter, no `order` and no `direction` |
| `Envelope.SuccessIffDetailsHaveId` | src/Endpoints/DNS.php:70-74 | the success test of a create or a delete (`isset($body->result->id)`, also at lines 171-175) holds on exactly the replies on which `getRecordDetails` would return a record with an id, and on which `listRecords` would return an object `result` with an id. A missing, null, list or id-less result fails, and so does an undecodable body |
| `Envelope.FirstRecordId` | src/Endpoints/DNS.php:152-155 | the lookup throws exactly on an object result. On a non-empty list it gives the first record's id, and it gives an id only when that is the first record's id |
| `Envelope.FirstMatchWins` | src/Endpoints/DNS.php:152-153 | records after the first do not change the lookup |
| `Envelope.CoercedRecordId` | src/Endpoints/DNS.php:149-156 | the lookup as written, with `false` coerced to the declared `string` return type: it throws exactly on an object result, and returns the first listed record's id as that string when the id is set |
| `Envelope.CoercionLosesAbsence` | src/Endpoints/DNS.php:155 | as written, the answer is "" exactly when there is no first id or the first id is "" |
| `Envelope.SentinelCollision` | src/Endpoints/DNS.php:155 | an empty result list gives "" as written, the same answer as a record whose id is "", while the corrected lookup tells the two apart |
| `Endpoints.DNS.constructor` | src/Endpoints/DNS.php:20-23 | the endpoint keeps the adapter it is given |
| `Endpoints.DNS.AddRecord` | src/Endpoints/DNS.php:38-76 | posts exactly `CreateOptions` of its arguments to `zones/{zoneID}/dns_records`, stores the reply in `body`, and returns true iff the reply's `result.id` is set |
| `Endpoints.DNS.ListRecords` | src/Endpoints/DNS.php:93-140 | gets `zones/{zoneID}/dns_records` with exactly `ListQuery` of its arguments, stores the reply, and returns the reply's `result` and `result_info` unchanged (null and null for a body that is not an object) |
| `Endpoints.DNS.GetRecordDetails` | src/Endpoints/DNS.php:142-147 | gets the record path with no query, and returns the `result` object, or the return-type `TypeError` (never another error) when `result` is not an object |
| `Endpoints.DNS.GetRecordID` | src/Endpoints/DNS.php:149-156 | sends the lookup query and returns the first listed record's id, or an explicit absence (the corrected `FirstRecordId`) |
| `Endpoints.DNS.UpdateRecordDetails` | src/Endpoints/DNS.php:158-163 | puts the caller's fields unchanged to the record path, and returns the whole reply, or the return-type `TypeError` (never another error) when the reply is not an object |
| `Endpoints.DNS.DeleteRecord` | src/Endpoints/DNS.php:165-176 | deletes the record path, stores the reply, and returns true iff the reply's `result.id` is set |

## Findings

| source | as written | input that shows it | evidently intended | confidence | as-written member | corrected member |
|---|---|---|---|---|---|---|
| src/Endpoints/DNS.php:149-156 | `getRecordID` is declared `: string` and ends in `return false`. The file does not declare strict types, so PHP coerces `false` to "" and the caller never sees `false` | a list reply with an empty result (`{"result":[]}`) gives "". A first record whose id is "" gives the same "" | a "no record" answer the caller can tell apart from any id | medium, not executed | `Envelope.CoercedRecordId` (with `Envelope.SentinelCollision`) | `Envelope.FirstRecordId` (used by `Endpoints.DNS.GetRecordID`) |

## Left out

- The adapter's HTTP calls (`post`, `get`, `put`, `delete`) and `getBody()` are network I/O. `Adapter.Send` only records the request, and the decoded reply is a parameter.
- `json_decode` is a library call and is not modelled. The reply is given already decoded as an `Envelope.Body`, and a body that is not an object stands for every non-object result, null included.
- `BodyAccessorTrait` is not part of this model. Only the assignments to `body` are modelled, and the constructor takes the property to start as null.
- `is_numeric` is modelled for decimal notation only: an optional sign, digits, and an optional fraction. Leading and trailing whitespace and exponents ("1e3") are not modelled, so such priorities are dropped by the model but sent by PHP.
- PhpStrings.CastTruncatesFraction: PHP's `(int)` turns a numeric string with a fraction into a double first and then truncates the double. The model truncates the exact decimal instead, so it does not capture the double's rounding. A whole part above 2^53 is rounded ("9007199254740993.5" becomes 9007199254740994 in PHP, 9007199254740993 in the model), and so is a fraction too close to 1 ("1.99999999999999999" becomes 2 in PHP, 1 in the model). `PhpStrings.IntCast` and the `priority` entry of `Requests.CreateOptions` share this gap.
- PHP integers are 64-bit. The model uses unbounded integers, so it does not capture `(int)` saturating on huge numeric strings or `ttl`, `page` and `per_page` beyond 64 bits.
- PHP arrays are ordered, and the adapter serialises the query and the body in insertion order. The model keeps the keys and values of each array but not their order.
- Record ids are modelled as strings. Numeric JSON ids, and list elements that are not objects, are not modelled.
- `result_info` is modelled as a fixed four-field record. Other members of the reply (`success`, `errors`) are not modelled; `updateRecordDetails` passes them through.
