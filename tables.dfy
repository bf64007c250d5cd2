/**
 * What both revisions of the users table (chalicelib/persistence.py and data.py)
 * share: the table's schema, the `serialize` hook, the requests the table sends to
 * DynamoDB, and the specifications of `exists`, `create_table`, `add_elements` and
 * `get_elements`. DynamoDB itself is foreign: its replies are inputs.
 */
module Tables {
  import opened Wrappers
  import opened PyValue
  import opened Logging

  /** The two revisions differ only in how they shape the error events they log. */
  datatype Revision =
    | Current   // chalicelib/persistence.py: error details are JSON-encoded into "message"
    | Earlier   // data.py: error details are extra keys of the event

  // ---------------------------------------------------------------------------
  // The schema hooks

  datatype KeyType = Hash | Range
  datatype KeyElement = KeyElement(attributeName: string, keyType: KeyType)
  datatype ScalarType = NumberType | StringType   // "N" and "S"
  datatype AttributeDefinition = AttributeDefinition(attributeName: string, attributeType: ScalarType)
  datatype Throughput = Throughput(readCapacityUnits: nat, writeCapacityUnits: nat)

  /** `get_key_schema`: partition key `id`, sort key `last_name`. */
  function KeySchema(): seq<KeyElement> {
    [KeyElement("id", Hash), KeyElement("last_name", Range)]
  }

  /** `get_attribute_definitions`. */
  function AttributeDefinitions(): seq<AttributeDefinition> {
    [AttributeDefinition("id", NumberType), AttributeDefinition("last_name", StringType)]
  }

  /** `get_provisioned_throughput`. */
  function ProvisionedThroughput(): Throughput {
    Throughput(1, 1)
  }

  /**
   * The schema is one DynamoDB accepts: one partition key first, one sort key, every
   * key attribute defined, and nothing defined that is not a key.
   */
  lemma UsersSchemaWellFormed()
    ensures |KeySchema()| == 2 && KeySchema()[0].keyType == Hash && KeySchema()[1].keyType == Range
    ensures KeySchema()[0].attributeName == "id" && KeySchema()[1].attributeName == "last_name"
    ensures forall i :: 0 <= i < |KeySchema()| ==>
              exists j :: 0 <= j < |AttributeDefinitions()| &&
                          AttributeDefinitions()[j].attributeName == KeySchema()[i].attributeName
    ensures forall j :: 0 <= j < |AttributeDefinitions()| ==>
              exists i :: 0 <= i < |KeySchema()| &&
                          AttributeDefinitions()[j].attributeName == KeySchema()[i].attributeName
    ensures AttributeDefinitions()[0] == AttributeDefinition("id", NumberType)
    ensures AttributeDefinitions()[1] == AttributeDefinition("last_name", StringType)
    ensures ProvisionedThroughput().readCapacityUnits == 1 && ProvisionedThroughput().writeCapacityUnits == 1
  {
    assert AttributeDefinitions()[0].attributeName == KeySchema()[0].attributeName;
    assert AttributeDefinitions()[1].attributeName == KeySchema()[1].attributeName;
  }

  /** The requests that change the table service. */
  datatype DynamoRequest =
    | CreateTable(name: string, keySchema: seq<KeyElement>, attributeDefinitions: seq<AttributeDefinition>,
                  throughput: Throughput)
    | BatchWrite(table: string, items: seq<Value>)   // what the batch writer flushes

  const RESOURCE_NOT_FOUND: string := "ResourceNotFoundException"

  // ---------------------------------------------------------------------------
  // serialize

  predicate Numeric(v: Value) {
    v.JInt? || v.JFloat? || v.JDecimal?
  }

  function NumberOf(v: Value): real
    requires Numeric(v)
  {
    match v
    case JInt(i) => i as real
    case JFloat(f) => f
    case JDecimal(d) => d
  }

  /**
   * `Decimal(str(v))`: a number becomes the Decimal of the same value; the text of
   * anything else (None, a bool, a container) is not a numeral.
   */
  function ToDecimal(v: Value): (r: Result<Value, Exc>)
    ensures r.Success? <==> Numeric(v)
    ensures r.Success? ==> r.value == JDecimal(NumberOf(v))
    ensures r.Failure? ==> r.error == INVALID_OPERATION
  {
    if Numeric(v) then Success(JDecimal(NumberOf(v))) else Failure(INVALID_OPERATION)
  }

  /** `element["address"]["coordinates"]` exists and holds a dict with "lat" and "lng". */
  predicate HasCoordinates(element: Value) {
    element.JDict? && HasKey(element.entries, "address") &&
    var address := Lookup(element.entries, "address");
    address.JDict? && HasKey(address.entries, "coordinates") &&
    var coordinates := Lookup(address.entries, "coordinates");
    coordinates.JDict? && HasKey(coordinates.entries, "lat") && HasKey(coordinates.entries, "lng")
  }

  function AddressOf(element: Value): Value
    requires HasCoordinates(element)
  {
    Lookup(element.entries, "address")
  }

  function CoordinatesOf(element: Value): Value
    requires HasCoordinates(element)
  {
    Lookup(AddressOf(element).entries, "coordinates")
  }

  function Lat(element: Value): Value
    requires HasCoordinates(element)
  {
    Lookup(CoordinatesOf(element).entries, "lat")
  }

  function Lng(element: Value): Value
    requires HasCoordinates(element)
  {
    Lookup(CoordinatesOf(element).entries, "lng")
  }

  /**
   * `UsersTable.serialize`: the coordinates dict becomes one holding exactly "lat" and
   * "lng", as Decimals of the same numbers, and the element keeps everything else.
   * The lookups fail like Python's `[]` (KeyError, or TypeError on a non-dict), and
   * a coordinate that is not a number fails the Decimal conversion; then nothing changes.
   */
  function Serialize(element: Value): (r: Result<Value, Exc>)
    ensures r.Success? <==> HasCoordinates(element) && Numeric(Lat(element)) && Numeric(Lng(element))
    ensures r.Success? ==>
              HasCoordinates(r.value) &&
              CoordinatesOf(r.value) == JDict([("lat", JDecimal(NumberOf(Lat(element)))),
                                               ("lng", JDecimal(NumberOf(Lng(element))))])
    ensures r.Failure? ==> r.error.OtherError? && r.error.name in ["KeyError", "TypeError", "InvalidOperation"]
  {
    var address := GetItem(element, "address");
    if address.Failure? then Failure(address.error) else
    var coordinates := GetItem(address.value, "coordinates");
    if coordinates.Failure? then Failure(coordinates.error) else
    var lat := GetItem(coordinates.value, "lat");
    if lat.Failure? then Failure(lat.error) else
    var lng := GetItem(coordinates.value, "lng");
    if lng.Failure? then Failure(lng.error) else
    var decLat := ToDecimal(lat.value);
    if decLat.Failure? then Failure(decLat.error) else
    var decLng := ToDecimal(lng.value);
    if decLng.Failure? then Failure(decLng.error) else
    var replaced := JDict([("lat", decLat.value), ("lng", decLng.value)]);
    var newAddress := JDict(Store(address.value.entries, "coordinates", replaced));
    Success(JDict(Store(element.entries, "address", newAddress)))
  }

  /** `serialize` leaves every field but address.coordinates as it was. */
  lemma SerializeKeepsOtherFields(element: Value, k: string)
    requires Serialize(element).Success?
    ensures var r := Serialize(element).value;
            r.JDict? &&
            (k != "address" ==>
               (HasKey(r.entries, k) <==> HasKey(element.entries, k)) &&
               (HasKey(element.entries, k) ==> Lookup(r.entries, k) == Lookup(element.entries, k))) &&
            (k != "coordinates" ==>
               (HasKey(AddressOf(r).entries, k) <==> HasKey(AddressOf(element).entries, k)) &&
               (HasKey(AddressOf(element).entries, k) ==>
                  Lookup(AddressOf(r).entries, k) == Lookup(AddressOf(element).entries, k)))
  {
    var replaced := JDict([("lat", JDecimal(NumberOf(Lat(element)))), ("lng", JDecimal(NumberOf(Lng(element))))]);
    var newAddress := JDict(Store(AddressOf(element).entries, "coordinates", replaced));
    assert Serialize(element).value == JDict(Store(element.entries, "address", newAddress));
    if k != "address" {
      StoreKeepsOthers(element.entries, "address", newAddress, k);
    }
    if k != "coordinates" {
      StoreKeepsOthers(AddressOf(element).entries, "coordinates", replaced, k);
    }
  }

  /** Storing the same value twice under a key is storing it once. */
  lemma {:induction false} StoreTwice(entries: seq<(string, Value)>, key: string, v: Value)
    ensures Store(Store(entries, key, v), key, v) == Store(entries, key, v)
  {
    if entries != [] && entries[0].0 != key {
      var rest := Store(entries[1..], key, v);
      StoreTwice(entries[1..], key, v);
      assert ([entries[0]] + rest)[1..] == rest;
    }
  }

  /** Serializing an element a second time changes nothing more. */
  lemma SerializeIdempotent(element: Value)
    requires Serialize(element).Success?
    ensures Serialize(Serialize(element).value) == Serialize(element)
  {
    var replaced := JDict([("lat", JDecimal(NumberOf(Lat(element)))), ("lng", JDecimal(NumberOf(Lng(element))))]);
    var newAddress := JDict(Store(AddressOf(element).entries, "coordinates", replaced));
    var r := Serialize(element).value;
    assert r == JDict(Store(element.entries, "address", newAddress));
    assert replaced.entries[0] == ("lat", JDecimal(NumberOf(Lat(element))));
    assert replaced.entries[1] == ("lng", JDecimal(NumberOf(Lng(element))));
    assert Lat(r) == JDecimal(NumberOf(Lat(element)));
    assert Lng(r) == JDecimal(NumberOf(Lng(element)));
    StoreTwice(AddressOf(element).entries, "coordinates", replaced);
    StoreTwice(element.entries, "address", newAddress);
  }

  /**
   * The `for e in elements: put_item(serialize(e))` loop: the serialized elements, up
   * to the first that fails, and that failure.
   */
  function SerializeEach(items: seq<Value>): (r: (seq<Value>, Option<Exc>))
    ensures |r.0| <= |items|
    ensures forall i :: 0 <= i < |r.0| ==> Serialize(items[i]) == Success(r.0[i])
    ensures r.1.None? ==> |r.0| == |items|
    ensures r.1.Some? ==> |r.0| < |items| && Serialize(items[|r.0|]) == Failure(r.1.value)
    decreases |items|
  {
    if items == [] then ([], None)
    else
      var init := items[..|items| - 1];
      var prev := SerializeEach(init);
      assert forall i :: 0 <= i < |init| ==> init[i] == items[i];
      if prev.1.Some? then prev
      else match Serialize(items[|items| - 1])
        case Success(v) =>
          var put := prev.0 + [v];
          assert forall i :: 0 <= i < |prev.0| ==> put[i] == prev.0[i];
          (put, None)
        case Failure(e) => (prev.0, Some(e))
  }

  /** Once an element fails, the elements after it are not serialized. */
  lemma {:induction false} SerializeFailureSticks(items: seq<Value>, k: nat)
    requires k <= |items| && SerializeEach(items[..k]).1.Some?
    ensures SerializeEach(items) == SerializeEach(items[..k])
    decreases |items| - k
  {
    if k < |items| {
      var next := items[..k + 1];
      assert next[..k] == items[..k];
      SerializeFailureSticks(items, k + 1);
    } else {
      assert items[..k] == items;
    }
  }

  /** The loop of `add_elements`: serialize each element in turn, stopping at the first failure. */
  method SerializeBatch(items: seq<Value>) returns (put: seq<Value>, failure: Option<Exc>)
    ensures (put, failure) == SerializeEach(items)
  {
    put := [];
    failure := None;
    var i := 0;
    assert items[..0] == [];
    while i < |items|
      invariant 0 <= i <= |items|
      invariant SerializeEach(items[..i]) == (put, None)
    {
      assert items[..i + 1][..i] == items[..i];
      var s := Serialize(items[i]);
      if s.Failure? {
        failure := Some(s.error);
        SerializeFailureSticks(items, i + 1);
        return;
      }
      put := put + [s.value];
      i := i + 1;
    }
    assert items[..i] == items;
  }

  // ---------------------------------------------------------------------------
  // The effects of the table operations

  /** The error event a revision logs for a ClientError, with the summary `text`. */
  function ClientErrorEvent(rev: Revision, text: string, e: Exc): (ev: LogEvent)
    requires e.ClientError?
    ensures rev == Current <==> Acceptable(ev)
  {
    match rev
    case Current =>
      Msg(Dumped(JDict([("message", JStr(text)), ("error_code", JStr(e.code)), ("error_message", JStr(e.message))])))
    case Earlier =>
      LogEvent(Plain(text), None, ["error_code", "error_message"])
  }

  /** An error raised inside the except block replaces the exception being handled. */
  function AfterErrorLog(ev: LogEvent): Option<Exc> {
    if Acceptable(ev) then None else Some(PARAM_VALIDATION_ERROR)
  }

  /** How an operation ends and the event it attempts to log on the error channel, if any. */
  datatype Effect<T> = Effect(result: Result<T, Exc>, errorEvent: Option<LogEvent>)

  /**
   * `exists()`, given the error `table.load()` raises (None when it succeeds): true
   * when loading succeeds; false, silently, exactly on ResourceNotFoundException;
   * another ClientError is logged and re-raised; any other error escapes unlogged.
   */
  function ExistsEffect(rev: Revision, name: string, load: Option<Exc>): (r: Effect<bool>)
    ensures load.None? <==> r == Effect(Success(true), None)
    ensures r.result == Success(false) <==> load.Some? && load.value.ClientError? && load.value.code == RESOURCE_NOT_FOUND
    ensures r.result.Success? ==> r.errorEvent.None?
    ensures load.Some? && load.value.ClientError? && load.value.code != RESOURCE_NOT_FOUND ==>
              r.errorEvent == Some(ClientErrorEvent(rev, "Could not check for existence of " + name, load.value)) &&
              (rev == Current ==> r.result == Failure(load.value))
    ensures load.Some? && !load.value.ClientError? ==> r == Effect(Failure(load.value), None)
  {
    match load
    case None => Effect(Success(true), None)
    case Some(e) =>
      if !e.ClientError? then Effect(Failure(e), None)
      else if e.code == RESOURCE_NOT_FOUND then Effect(Success(false), None)
      else
        var ev := ClientErrorEvent(rev, "Could not check for existence of " + name, e);
        var raised := AfterErrorLog(ev);
        Effect(Failure(if raised.Some? then raised.value else e), Some(ev))
  }

  /** The request `create_table` sends. */
  function CreateRequest(name: string): DynamoRequest {
    CreateTable(name, KeySchema(), AttributeDefinitions(), ProvisionedThroughput())
  }

  /**
   * `create_table()`, given the errors of `create_table` and `wait_until_exists`:
   * the first failure is logged and re-raised.
   */
  function CreateEffect(name: string, create: Option<Exc>, wait: Option<Exc>): (r: Effect<()>)
    ensures r.result.Success? <==> create.None? && wait.None?
    ensures r.result.Success? <==> r.errorEvent.None?
    ensures r.result.Failure? ==>
              r.result.error == (if create.Some? then create.value else wait.value) &&
              r.errorEvent == Some(Msg(CreateTableFailed(name, r.result.error)))
  {
    var failure := if create.Some? then create else wait;
    match failure
    case None => Effect(Success(()), None)
    case Some(e) => Effect(Failure(e), Some(Msg(CreateTableFailed(name, e))))
  }

  /** What `add_elements` sends, and the one event it logs, on `channel`. */
  datatype Added = Added(writes: seq<DynamoRequest>, channel: Channel, event: LogEvent)

  /** Every element serializes, so the batch holds all of them. */
  predicate AllSerialize(items: seq<Value>) {
    forall i :: 0 <= i < |items| ==> Serialize(items[i]).Success?
  }

  /**
   * `add_elements(elements)` with the table handle `table` and the error the batch
   * write raises (`write`, None when it succeeds). The batch writer flushes what was
   * put even when serializing a later element fails, and an error of that flush
   * replaces the serialization error. Nothing escapes: the outcome is logged.
   */
  function AddEffect(name: string, table: Option<string>, elements: Value, write: Option<Exc>): (r: Added)
    ensures r.channel == InfoChannel || r.channel == ErrorChannel
  {
    if table.None? then Added([], ErrorChannel, Msg(SaveFailed(name, ATTRIBUTE_ERROR)))
    else match Iter(elements)
      case Failure(e) => Added([], ErrorChannel, Msg(SaveFailed(name, e)))
      case Success(items) =>
        var (put, failure) := SerializeEach(items);
        var writes := if put == [] then [] else [BatchWrite(name, put)];
        var flushed := if put == [] then None else write;
        var raised := if flushed.Some? then flushed else failure;
        if raised.None? then Added(writes, InfoChannel, Msg(SavedInto(Len(elements), name)))
        else Added(writes, ErrorChannel, Msg(SaveFailed(name, raised.value)))
  }

  /**
   * `add_elements` logs one event and never raises; it logs success exactly when there
   * is a table, every element serializes and the flush (if any) succeeds; the batch
   * then holds every serialized element.
   */
  lemma AddEffectCases(name: string, table: Option<string>, elements: Value, write: Option<Exc>)
    ensures var r := AddEffect(name, table, elements, write);
            Acceptable(r.event) &&
            (r.writes == [] || (|r.writes| == 1 && r.writes[0].BatchWrite? && r.writes[0].table == name)) &&
            (r.channel == InfoChannel <==>
               table.Some? && Sized(elements) && AllSerialize(Iter(elements).value) &&
               (Len(elements) == 0 || write.None?)) &&
            (r.channel == InfoChannel ==> r.event == Msg(SavedInto(Len(elements), name))) &&
            (r.channel == ErrorChannel ==> r.event.message.SaveFailed? && r.event.message.table == name) &&
            (table.None? ==> r == Added([], ErrorChannel, Msg(SaveFailed(name, ATTRIBUTE_ERROR)))) &&
            (table.Some? && Sized(elements) && AllSerialize(Iter(elements).value) ==>
               r.writes == (if Len(elements) == 0 then [] else [BatchWrite(name, SerializeEach(Iter(elements).value).0)]))
  {
    if table.Some? && Sized(elements) {
      var items := Iter(elements).value;
      var failure := SerializeEach(items).1;
      assert failure.None? <==> AllSerialize(items) by {
        if !AllSerialize(items) {
          var i :| 0 <= i < |items| && !Serialize(items[i]).Success?;
        }
      }
    }
  }

  // ---------------------------------------------------------------------------
  // get_elements: the pagination loop

  /** What one `scan` returns (its Items, default [], and LastEvaluatedKey), or the error it raises. */
  datatype ScanReply = ScanFailed(error: Exc) | Page(items: seq<Value>, lastKey: Option<Value>)

  /**
   * `response.get("LastEvaluatedKey", None)` of a page: None when the key is absent and
   * when it holds a JSON null.
   */
  function NextKey(page: ScanReply): (r: Option<Value>)
    requires page.Page?
    ensures r.None? <==> page.lastKey.None? || page.lastKey.value == JNull
    ensures r.Some? ==> r == page.lastKey
  {
    if page.lastKey == Some(JNull) then None else page.lastKey
  }

  /** A reply that ends the loop (`done = start_key is None`): an error, or a page with no continuation key. */
  predicate Terminal(reply: ScanReply) {
    reply.ScanFailed? || NextKey(reply).None?
  }

  /** The index of the first reply that ends the loop, or |replies| when none does. */
  function Stop(replies: seq<ScanReply>): (k: nat)
    ensures k <= |replies|
    ensures k < |replies| ==> Terminal(replies[k])
    ensures forall j :: 0 <= j < k ==> !Terminal(replies[j])
  {
    if replies == [] || Terminal(replies[0]) then 0
    else 1 + Stop(replies[1..])
  }

  /** The Items of the pages, concatenated in the order they were read. */
  function ItemsOf(replies: seq<ScanReply>): seq<Value>
    decreases |replies|
  {
    if replies == [] then []
    else
      var last := replies[|replies| - 1];
      ItemsOf(replies[..|replies| - 1]) + (if last.Page? then last.items else [])
  }

  /** An item is returned exactly when some page read holds it. */
  lemma {:induction false} ItemsOfMembership(replies: seq<ScanReply>, x: Value)
    ensures x in ItemsOf(replies) <==> exists j :: 0 <= j < |replies| && replies[j].Page? && x in replies[j].items
    decreases |replies|
  {
    if replies != [] {
      var init := replies[..|replies| - 1];
      ItemsOfMembership(init, x);
      if x in ItemsOf(replies) && !(x in ItemsOf(init)) {
        assert replies[|replies| - 1].Page? && x in replies[|replies| - 1].items;
      }
      if exists j :: 0 <= j < |replies| && replies[j].Page? && x in replies[j].items {
        var j :| 0 <= j < |replies| && replies[j].Page? && x in replies[j].items;
        if j < |replies| - 1 {
          assert init[j] == replies[j];
        }
      }
    }
  }

  /**
   * The ExclusiveStartKey the scan after `read` sends: the last continuation key that
   * was truthy (`if start_key:`), kept in kwargs from one scan to the next.
   */
  function ScanKey(read: seq<ScanReply>): Option<Value>
    decreases |read|
  {
    if read == [] then None
    else
      var last := read[|read| - 1];
      if last.Page? && last.lastKey.Some? && Truthy(last.lastKey.value) then last.lastKey
      else ScanKey(read[..|read| - 1])
  }

  /** The ExclusiveStartKey of every scan the loop sends. */
  function Scans(replies: seq<ScanReply>): (r: seq<Option<Value>>)
    requires Stop(replies) < |replies|
    ensures |r| == Stop(replies) + 1
  {
    seq(Stop(replies) + 1, j requires 0 <= j <= Stop(replies) => ScanKey(replies[..j]))
  }

  /** The loop's result: every page's Items up to the last page, or the scan error. */
  function ScanResult(replies: seq<ScanReply>): Result<seq<Value>, Exc>
    requires Stop(replies) < |replies|
  {
    var k := Stop(replies);
    if replies[k].ScanFailed? then Failure(replies[k].error) else Success(ItemsOf(replies[..k + 1]))
  }

  /** The first scan has no start key; each later one passes the previous page's truthy key. */
  lemma ScanForwardsKey(replies: seq<ScanReply>, j: nat)
    requires Stop(replies) < |replies| && j <= Stop(replies)
    ensures j == 0 ==> Scans(replies)[j] == None
    ensures j > 0 && Truthy(replies[j - 1].lastKey.value) ==> Scans(replies)[j] == replies[j - 1].lastKey
  {
    if j > 0 {
      assert replies[..j][j - 1] == replies[j - 1];
    }
  }

  /**
   * The `while not done` loop of `get_elements`, given the replies of its scans: the
   * concatenated Items and the start key of every scan.
   */
  method ScanPages(replies: seq<ScanReply>) returns (r: Result<seq<Value>, Exc>, scans: seq<Option<Value>>)
    requires Stop(replies) < |replies|
    ensures r == ScanResult(replies)
    ensures scans == Scans(replies)
  {
    var k := Stop(replies);
    var elements: seq<Value> := [];
    var done := false;
    var startKey: Option<Value> := None;
    var kwargs: Option<Value> := None;
    var i := 0;
    scans := [];
    while !done
      invariant 0 <= i <= k + 1
      invariant !done ==> i <= k
      invariant done ==> i == k + 1 && replies[k].Page?
      invariant elements == ItemsOf(replies[..i])
      invariant |scans| == i && forall j :: 0 <= j < i ==> scans[j] == ScanKey(replies[..j])
      invariant i == 0 ==> startKey.None? && kwargs.None?
      invariant i > 0 ==> replies[i - 1].Page? && startKey == NextKey(replies[i - 1]) &&
                          kwargs == ScanKey(replies[..i - 1])
      decreases k + 1 - i
    {
      if startKey.Some? && Truthy(startKey.value) {
        kwargs := startKey;
      }
      assert i > 0 ==> replies[..i][..i - 1] == replies[..i - 1];
      assert kwargs == ScanKey(replies[..i]);
      scans := scans + [kwargs];
      var reply := replies[i];
      if reply.ScanFailed? {
        r := Failure(reply.error);
        assert scans == Scans(replies);
        return;
      }
      assert replies[..i + 1][..i] == replies[..i];
      elements := elements + reply.items;
      startKey := NextKey(reply);
      done := startKey.None?;
      i := i + 1;
    }
    r := Success(elements);
    assert scans == Scans(replies);
  }

  /**
   * `get_elements()` with the table handle `table`: the concatenated pages; on a
   * ClientError, one error event and []; any other error escapes (AttributeError
   * when there is no table handle yet).
   */
  function GetEffect(rev: Revision, name: string, table: Option<string>, replies: seq<ScanReply>)
    : (r: Effect<seq<Value>>)
    requires table.Some? ==> Stop(replies) < |replies|
    ensures table.None? ==> r == Effect(Failure(ATTRIBUTE_ERROR), None)
    ensures table.Some? && ScanResult(replies).Success? ==> r == Effect(ScanResult(replies), None)
    ensures table.Some? && ScanResult(replies).Failure? && ScanResult(replies).error.ClientError? ==>
              r.errorEvent == Some(ClientErrorEvent(rev, "Couldn't get elements from table " + name,
                                                    ScanResult(replies).error)) &&
              (rev == Current ==> r.result == Success([]))
    ensures table.Some? && ScanResult(replies).Failure? && !ScanResult(replies).error.ClientError? ==>
              r == Effect(ScanResult(replies), None)
  {
    if table.None? then Effect(Failure(ATTRIBUTE_ERROR), None)
    else match ScanResult(replies)
      case Success(xs) => Effect(Success(xs), None)
      case Failure(e) =>
        if !e.ClientError? then Effect(Failure(e), None)
        else
          var ev := ClientErrorEvent(rev, "Couldn't get elements from table " + name, e);
          var raised := AfterErrorLog(ev);
          Effect(if raised.Some? then Failure(raised.value) else Success([]), Some(ev))
  }
}
