/**
 * The DNS record endpoint. The adapter is a recorder of the requests the
 * endpoint makes; the decoded reply to each request is a parameter of the
 * endpoint method that makes it. Every method stores that reply in the
 * `body` field before reading from it.
 */
module Endpoints {

  import opened Wrappers
  import opened PhpStrings
  import opened Requests
  import opened Envelope

  /** The HTTP adapter, reduced to the log of the requests sent through it. */
  class Adapter {
    var log: seq<Request>

    constructor ()
      ensures log == []
    {
      log := [];
    }

    /** Sends one request and hands back the decoded reply the service gave. */
    method Send(request: Request, reply: Body) returns (decoded: Body)
      modifies this
      ensures log == old(log) + [request]
      ensures decoded == reply
    {
      log := log + [request];
      decoded := reply;
    }
  }

  class DNS {
    const adapter: Adapter
    var body: Body

    constructor (adapter: Adapter)
      ensures this.adapter == adapter
      ensures body == NotObject
    {
      this.adapter := adapter;
      body := NotObject;
    }

    /**
     * Posts a new record to `zones/{zoneID}/dns_records`; true exactly when
     * the reply echoes an id in `result`.
     */
    method AddRecord(zoneID: string, recordType: string, name: string, content: string,
                     ttl: int, proxied: bool, priority: string, data: Fields, reply: Body)
      returns (ok: bool)
      modifies this, adapter
      ensures adapter.log == old(adapter.log) + [Request(Post, RecordsPath(zoneID),
        CreateOptions(NewRecord(recordType, name, content, ttl, proxied, priority, data)))]
      ensures body == reply
      ensures ok <==> ResultIdSet(reply)
    {
      var options := map["type" := Str(recordType), "name" := Str(name),
                         "content" := Str(content), "proxied" := Bool(proxied)];
      if ttl > 0 {
        options := options["ttl" := Int(ttl)];
      }
      if IsNumeric(priority) {
        options := options["priority" := Int(IntCast(priority))];
      }
      if |data| > 0 {
        options := options["data" := Arr(data)];
      }
      body := adapter.Send(Request(Post, RecordsPath(zoneID), options), reply);
      ok := ResultIdSet(body);
    }

    /**
     * Gets `zones/{zoneID}/dns_records` with the query of the filter and
     * returns the reply's `result` and `result_info` untouched.
     */
    method ListRecords(zoneID: string, recordType: string, name: string, content: string,
                       page: int, perPage: int, order: string, direction: string,
                       matchMode: string, nameFilterMode: string, contentFilterMode: string,
                       reply: Body)
      returns (listing: Listing)
      modifies this, adapter
      ensures adapter.log == old(adapter.log) + [Request(Get, RecordsPath(zoneID),
        ListQuery(Filter(recordType, name, content, page, perPage, order, direction,
                         matchMode, nameFilterMode, contentFilterMode)))]
      ensures body == reply
      ensures reply.Envelope? ==> listing.result == reply.result && listing.resultInfo == reply.resultInfo
      ensures reply.NotObject? ==> listing == Listing(Missing, None)
    {
      var query := map["page" := Int(page), "per_page" := Int(perPage), "match" := Str(matchMode)];
      if !IsEmpty(recordType) {
        query := query["type" := Str(recordType)];
      }
      assert "name" + "." == "name." && "content" + "." == "content.";
      if !IsEmpty(name) && !IsEmpty(nameFilterMode) {
        query := query["name." + nameFilterMode := Str(name)];
      } else if !IsEmpty(name) {
        query := query["name" := Str(name)];
      }
      if !IsEmpty(content) && !IsEmpty(contentFilterMode) {
        query := query["content." + contentFilterMode := Str(content)];
      } else if !IsEmpty(content) {
        query := query["content" := Str(content)];
      }
      if !IsEmpty(order) {
        query := query["order" := Str(order)];
      }
      if !IsEmpty(direction) {
        query := query["direction" := Str(direction)];
      }
      body := adapter.Send(Request(Get, RecordsPath(zoneID), query), reply);
      listing := ListingOf(body);
    }

    /**
     * Gets `zones/{zoneID}/dns_records/{recordID}` and returns the `result`
     * object; a reply without an object result throws a type error.
     */
    method GetRecordDetails(zoneID: string, recordID: string, reply: Body)
      returns (details: Outcome<Record>)
      modifies this, adapter
      ensures adapter.log == old(adapter.log) + [Request(Get, RecordPath(zoneID, recordID), map[])]
      ensures body == reply
      ensures details.Ok? <==> reply.Envelope? && reply.result.Object?
      ensures details.Ok? ==> details.value == reply.result.record
      ensures details.Err? ==> details.error == ReturnTypeError
    {
      body := adapter.Send(Request(Get, RecordPath(zoneID, recordID), map[]), reply);
      details := DetailsOf(body);
    }

    /**
     * Lists with the lookup filter (first page of 20, exact name match) and
     * returns the id of the first record, or an explicit absence.
     */
    method GetRecordID(zoneID: string, recordType: string, name: string, reply: Body)
      returns (id: Outcome<Option<string>>)
      modifies this, adapter
      ensures adapter.log == old(adapter.log) + [Request(Get, RecordsPath(zoneID),
        ListQuery(LookupFilter(recordType, name)))]
      ensures body == reply
      ensures id == FirstRecordId(ListingOf(reply).result)
    {
      var records := ListRecords(zoneID, recordType, name, "", 1, 20, "", "", "all", "exact", "exact", reply);
      id := FirstRecordId(records.result);
    }

    /**
     * Puts the caller's fields to `zones/{zoneID}/dns_records/{recordID}` and
     * returns the whole decoded reply; a reply that is not an object throws.
     */
    method UpdateRecordDetails(zoneID: string, recordID: string, details: Fields, reply: Body)
      returns (response: Outcome<Body>)
      modifies this, adapter
      ensures adapter.log == old(adapter.log) + [Request(Put, RecordPath(zoneID, recordID), details)]
      ensures body == reply
      ensures response.Ok? <==> reply.Envelope?
      ensures response.Ok? ==> response.value == reply
      ensures response.Err? ==> response.error == ReturnTypeError
    {
      body := adapter.Send(Request(Put, RecordPath(zoneID, recordID), details), reply);
      response := WholeBody(body);
    }

    /**
     * Deletes `zones/{zoneID}/dns_records/{recordID}`; true exactly when the
     * reply echoes an id in `result`.
     */
    method DeleteRecord(zoneID: string, recordID: string, reply: Body) returns (ok: bool)
      modifies this, adapter
      ensures adapter.log == old(adapter.log) + [Request(Delete, RecordPath(zoneID, recordID), map[])]
      ensures body == reply
      ensures ok <==> ResultIdSet(reply)
    {
      body := adapter.Send(Request(Delete, RecordPath(zoneID, recordID), map[]), reply);
      ok := ResultIdSet(body);
    }
  }

  /**
   * A client of the endpoint against replies fixed in advance: a create that
   * is echoed succeeds and one answered with a null result fails; a list of
   * two records comes back whole, the lookup takes the first id, and the
   * same list call twice sends the same query twice.
   */
  method ReplayScenario(zoneID: string) {
    var adapter := new Adapter();
    var dns := new DNS(adapter);
    var created := Envelope(Object(Record(Some("abc123"), map[])), None);
    var ok := dns.AddRecord(zoneID, "A", "example.com", "127.0.0.1", 0, true, "", map[], created);
    assert ok;
    ok := dns.AddRecord(zoneID, "A", "example.com", "127.0.0.1", 0, true, "", map[], Envelope(Missing, None));
    assert !ok;

    var a, b := Record(Some("a"), map[]), Record(Some("b"), map[]);
    var listed := Envelope(Records([a, b]), Some(PageInfo(1, 20, 2, 2)));
    var listing := dns.ListRecords(zoneID, "", "www", "", 2, 50, "", "", "any", "startswith", "", listed);
    assert listing.result.items == [a, b] && listing.resultInfo == Some(PageInfo(1, 20, 2, 2));
    var again := dns.ListRecords(zoneID, "", "www", "", 2, 50, "", "", "any", "startswith", "", listed);
    var n := |adapter.log|;
    assert adapter.log[n - 1] == adapter.log[n - 2];

    var id := dns.GetRecordID(zoneID, "A", "www", listed);
    assert id == Ok(Some("a"));
  }
}
