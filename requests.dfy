/**
 * What the endpoint sends: the values of a PHP request array, the resource
 * paths, and the two arrays the endpoint assembles itself: the body of a
 * create request and the query of a list request.
 */
module Requests {

  import opened PhpStrings

  /** A value of a PHP array sent to the adapter. */
  datatype Value = Str(s: string) | Int(i: int) | Bool(b: bool) | Arr(entries: map<string, Value>)

  /** A PHP array with string keys, as sent as a JSON body or a query string. */
  type Fields = map<string, Value>

  datatype Verb = Get | Post | Put | Delete

  /** One call on the adapter: the HTTP verb, the path and the array passed. */
  datatype Request = Request(verb: Verb, path: string, payload: Fields)

  /** `'zones/' . $zoneID . '/dns_records'` */
  function RecordsPath(zoneID: string): string {
    "zones/" + zoneID + "/dns_records"
  }

  /** `'zones/' . $zoneID . '/dns_records/' . $recordID` */
  function RecordPath(zoneID: string, recordID: string): string {
    RecordsPath(zoneID) + "/" + recordID
  }

  /** The collection path names its zone unambiguously. */
  lemma RecordsPathInjective(z1: string, z2: string)
    requires RecordsPath(z1) == RecordsPath(z2)
    ensures z1 == z2
  {
    var p1, p2 := RecordsPath(z1), RecordsPath(z2);
    assert |z1| == |z2|;
    assert z1 == p1[6..6 + |z1|];
    assert z2 == p2[6..6 + |z2|];
  }

  /** Within one zone, the record path names its record unambiguously. */
  lemma RecordPathInjective(zoneID: string, r1: string, r2: string)
    requires RecordPath(zoneID, r1) == RecordPath(zoneID, r2)
    ensures r1 == r2
  {
    var n := |RecordsPath(zoneID)| + 1;
    assert r1 == RecordPath(zoneID, r1)[n..];
    assert r2 == RecordPath(zoneID, r2)[n..];
  }

  /** The arguments of `addRecord` that go into the request body. */
  datatype NewRecord = NewRecord(
    recordType: string,
    name: string,
    content: string,
    ttl: int,
    proxied: bool,
    priority: string,
    data: Fields)

  /**
   * The pairs of create-body keys that have the same length, and so are not
   * told apart by their lengths alone, are different strings.
   */
  lemma CreateKeysDistinct()
    ensures "type" != "name" && "type" != "data" && "name" != "data" && "content" != "proxied"
  {
    assert "type"[0] == 't' && "name"[0] == 'n' && "data"[0] == 'd';
    assert "content"[0] == 'c' && "proxied"[0] == 'p';
  }

  /**
   * The body `addRecord` posts: `type`, `name`, `content` and `proxied` always;
   * `ttl` only when positive; `priority`, cast to an integer, only when the
   * priority string is numeric; `data` only when the array is non-empty.
   */
  function CreateOptions(r: NewRecord): (o: Fields)
    ensures o.Keys <= {"type", "name", "content", "proxied", "ttl", "priority", "data"}
    ensures "type" in o && o["type"] == Str(r.recordType)
    ensures "name" in o && o["name"] == Str(r.name)
    ensures "content" in o && o["content"] == Str(r.content)
    ensures "proxied" in o && o["proxied"] == Bool(r.proxied)
    ensures "ttl" in o <==> r.ttl > 0
    ensures "ttl" in o ==> o["ttl"] == Int(r.ttl)
    ensures "priority" in o <==> IsNumeric(r.priority)
    ensures "priority" in o ==> o["priority"] == Int(IntCast(r.priority))
    ensures "data" in o <==> |r.data| > 0
    ensures "data" in o ==> o["data"] == Arr(r.data)
  {
    CreateKeysDistinct();
    var fixed := map["type" := Str(r.recordType), "name" := Str(r.name),
                     "content" := Str(r.content), "proxied" := Bool(r.proxied)];
    var withTtl := if r.ttl > 0 then fixed["ttl" := Int(r.ttl)] else fixed;
    var withPriority :=
      if IsNumeric(r.priority) then withTtl["priority" := Int(IntCast(r.priority))] else withTtl;
    if |r.data| > 0 then withPriority["data" := Arr(r.data)] else withPriority
  }

  /** A priority given as an integer's decimal form reaches the body as that integer. */
  lemma IntegerPrioritySent(r: NewRecord, p: int)
    requires r.priority == Render(p)
    ensures "priority" in CreateOptions(r) && CreateOptions(r)["priority"] == Int(p)
  {
    RenderRoundTrip(p);
  }

  /** A priority without any digit ("high", the default "") is dropped from the body. */
  lemma WordPriorityDropped(r: NewRecord)
    requires forall i :: 0 <= i < |r.priority| ==> !IsDigit(r.priority[i])
    ensures "priority" !in CreateOptions(r)
  {
    NoDigitNotNumeric(r.priority);
  }

  /** The arguments of `listRecords` that go into the query. */
  datatype Filter = Filter(
    recordType: string,
    name: string,
    content: string,
    page: int,
    perPage: int,
    order: string,
    direction: string,
    matchMode: string,
    nameFilterMode: string,
    contentFilterMode: string)

  /** The filter `getRecordID` passes: the defaults of `listRecords` with its type and name. */
  function LookupFilter(recordType: string, name: string): Filter {
    Filter(recordType, name, "", 1, 20, "", "", "all", "exact", "exact")
  }

  /** `if (!empty($value)) { $query[$key] = $value; }` */
  function PutIfNonEmpty(m: Fields, key: string, value: string): (r: Fields)
  {
    if !IsEmpty(value) then m[key := Str(value)] else m
  }

  /**
   * The query key for a name or content filter: `field.mode` when the mode is
   * non-empty, the plain field name otherwise.
   */
  function FilterKey(field: string, mode: string): string {
    if !IsEmpty(mode) then field + "." + mode else field
  }

  /**
   * The fixed query keys are different strings, and a composite filter key
   * `name.<mode>` or `content.<mode>` is none of them and never the other one.
   */
  lemma QueryKeysDistinct(nameMode: string, contentMode: string)
    ensures "page" != "type" && "page" != "name" && "type" != "name" && "match" != "order"
    ensures FilterKey("name", nameMode) == if IsEmpty(nameMode) then "name" else "name." + nameMode
    ensures FilterKey("content", contentMode) == if IsEmpty(contentMode) then "content" else "content." + contentMode
    ensures var k := FilterKey("name", nameMode);
      k != "page" && k != "per_page" && k != "match" && k != "type" &&
      k != "order" && k != "direction" && k != FilterKey("content", contentMode)
    ensures var k := FilterKey("content", contentMode);
      k != "page" && k != "per_page" && k != "match" && k != "type" &&
      k != "order" && k != "direction"
    ensures var k := "name." + nameMode;
      k != "page" && k != "per_page" && k != "match" && k != "type" &&
      k != "order" && k != "direction" && k != "name" && k != "content"
    ensures var k := "content." + contentMode;
      k != "page" && k != "per_page" && k != "match" && k != "type" &&
      k != "order" && k != "direction" && k != "name" && k != "content"
    ensures "name." + nameMode != "content." + contentMode
  {
    assert "name" + "." == "name." && "content" + "." == "content.";
    var nk, ck := "name." + nameMode, "content." + contentMode;
    assert nk[0] == 'n' && ck[0] == 'c';
    assert "page"[0] == 'p' && "per_page"[0] == 'p' && "match"[0] == 'm' && "type"[0] == 't';
    assert "order"[0] == 'o' && "direction"[0] == 'd' && "name"[0] == 'n' && "content"[0] == 'c';
  }

  /** The query after each step of `listRecords`, the last one being what it sends. */
  datatype QueryStages = QueryStages(
    fixed: Fields,
    withType: Fields,
    withName: Fields,
    withContent: Fields,
    withOrder: Fields,
    query: Fields)

  /**
   * The query built as the source builds it: the paging entries first, then
   * each optional entry when its value is non-empty.
   */
  function ListQueryStages(f: Filter): QueryStages {
    var fixed := map["page" := Int(f.page), "per_page" := Int(f.perPage), "match" := Str(f.matchMode)];
    var withType := PutIfNonEmpty(fixed, "type", f.recordType);
    var withName := PutIfNonEmpty(withType, FilterKey("name", f.nameFilterMode), f.name);
    var withContent := PutIfNonEmpty(withName, FilterKey("content", f.contentFilterMode), f.content);
    var withOrder := PutIfNonEmpty(withContent, "order", f.order);
    QueryStages(fixed, withType, withName, withContent, withOrder,
                PutIfNonEmpty(withOrder, "direction", f.direction))
  }

  /** The query `listRecords` sends. */
  function ListQuery(f: Filter): Fields {
    ListQueryStages(f).query
  }

  /** `page`, `per_page` and `match` are always sent with the caller's values, unclamped. */
  lemma ListQueryPaging(f: Filter)
    ensures var q := ListQuery(f);
      && "page" in q && q["page"] == Int(f.page)
      && "per_page" in q && q["per_page"] == Int(f.perPage)
      && "match" in q && q["match"] == Str(f.matchMode)
  {
    QueryKeysDistinct(f.nameFilterMode, f.contentFilterMode);
    var st := ListQueryStages(f);
    assert Paged(st.withType, f);
    assert Paged(st.withName, f);
    assert Paged(st.withContent, f);
    assert Paged(st.withOrder, f);
  }

  /** `page`, `per_page` and `match` hold the caller's values. */
  ghost predicate Paged(q: Fields, f: Filter) {
    && "page" in q && q["page"] == Int(f.page)
    && "per_page" in q && q["per_page"] == Int(f.perPage)
    && "match" in q && q["match"] == Str(f.matchMode)
  }

  /** `type`, `order` and `direction` are sent exactly when non-empty, with the caller's values. */
  lemma ListQueryOptional(f: Filter)
    ensures var q := ListQuery(f);
      && ("type" in q <==> !IsEmpty(f.recordType))
      && ("type" in q ==> q["type"] == Str(f.recordType))
      && ("order" in q <==> !IsEmpty(f.order))
      && ("order" in q ==> q["order"] == Str(f.order))
      && ("direction" in q <==> !IsEmpty(f.direction))
      && ("direction" in q ==> q["direction"] == Str(f.direction))
  {
    QueryKeysDistinct(f.nameFilterMode, f.contentFilterMode);
    var st := ListQueryStages(f);
    assert "type" in st.withContent <==> "type" in st.withType;
    assert "type" in st.withContent ==> st.withContent["type"] == st.withType["type"];
    assert "order" !in st.withContent;
    assert "direction" !in st.withOrder;
  }

  /**
   * The name filter: the key `name.<mode>` exactly when the name and the mode
   * are both non-empty, the plain key `name` exactly when only the name is,
   * both mapped to the name; so a non-empty name is under exactly one key.
   */
  lemma NameFilter(f: Filter)
    ensures var q := ListQuery(f);
      && ("name." + f.nameFilterMode in q <==> !IsEmpty(f.name) && !IsEmpty(f.nameFilterMode))
      && ("name" in q <==> !IsEmpty(f.name) && IsEmpty(f.nameFilterMode))
      && ("name." + f.nameFilterMode in q ==> q["name." + f.nameFilterMode] == Str(f.name))
      && ("name" in q ==> q["name"] == Str(f.name))
      && !("name" in q && "name." + f.nameFilterMode in q)
  {
    QueryKeysDistinct(f.nameFilterMode, f.contentFilterMode);
    var st := ListQueryStages(f);
    var composite := "name." + f.nameFilterMode;
    assert "name" !in st.withType && composite !in st.withType;
    assert "name" in st.query <==> "name" in st.withName;
    assert composite in st.query <==> composite in st.withName;
    assert "name" in st.query ==> st.query["name"] == st.withName["name"];
    assert composite in st.query ==> st.query[composite] == st.withName[composite];
  }

  /** The content filter follows the same rule as the name filter. */
  lemma ContentFilter(f: Filter)
    ensures var q := ListQuery(f);
      && ("content." + f.contentFilterMode in q <==> !IsEmpty(f.content) && !IsEmpty(f.contentFilterMode))
      && ("content" in q <==> !IsEmpty(f.content) && IsEmpty(f.contentFilterMode))
      && ("content." + f.contentFilterMode in q ==> q["content." + f.contentFilterMode] == Str(f.content))
      && ("content" in q ==> q["content"] == Str(f.content))
      && !("content" in q && "content." + f.contentFilterMode in q)
  {
    QueryKeysDistinct(f.nameFilterMode, f.contentFilterMode);
    var st := ListQueryStages(f);
    var composite := "content." + f.contentFilterMode;
    assert "content" !in st.withName && composite !in st.withName;
    assert "content" in st.query <==> "content" in st.withContent;
    assert composite in st.query <==> composite in st.withContent;
    assert "content" in st.query ==> st.query["content"] == st.withContent["content"];
    assert composite in st.query ==> st.query[composite] == st.withContent[composite];
  }

  /** The query holds no key besides the fixed ones and the two filter keys. */
  lemma QueryKeysBounded(f: Filter)
    ensures forall k :: k in ListQuery(f) ==>
      k in {"page", "per_page", "match", "type", "order", "direction", "name", "content"} ||
      k == "name." + f.nameFilterMode || k == "content." + f.contentFilterMode
  {
    QueryKeysDistinct(f.nameFilterMode, f.contentFilterMode);
  }

  /**
   * The lookup query of `getRecordID`: first page of 20, `match=all`, the
   * type when non-empty, and the name under `name.exact` when non-empty;
   * no plain name, no content filter, no order and no direction.
   */
  lemma LookupQuery(recordType: string, name: string)
    ensures var q := ListQuery(LookupFilter(recordType, name));
      && q["page"] == Int(1) && q["per_page"] == Int(20) && q["match"] == Str("all")
      && ("type" in q <==> !IsEmpty(recordType))
      && ("name.exact" in q <==> !IsEmpty(name))
      && "name" !in q && "content" !in q && "content.exact" !in q
      && "order" !in q && "direction" !in q
      && q.Keys <= {"page", "per_page", "match", "type", "name.exact"}
  {
    var q := ListQuery(LookupFilter(recordType, name));
    ListQueryPaging(LookupFilter(recordType, name));
    ListQueryOptional(LookupFilter(recordType, name));
    NameFilter(LookupFilter(recordType, name));
    ContentFilter(LookupFilter(recordType, name));
    QueryKeysBounded(LookupFilter(recordType, name));
    assert !IsEmpty("exact");
    assert "name." + "exact" == "name.exact";
    assert "content." + "exact" == "content.exact";
  }
}
