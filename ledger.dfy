/** The Mongo side of an import: the `import_record_items` audit collection, where every
    processed row leaves an item, and the `import_records` collection, whose status field
    tracks the import as a whole. */
module Ledger {
  import opened Wrappers
  import opened Text
  import opened Ports

  /** The driver's `mongo.ErrClientDisconnected`. */
  const ErrClientDisconnected := "client is disconnected"

  const StatusDone := "done"
  const StatusFailed := "failed"

  /** One audit document. Times are instants on an abstract clock, 0 being Go's zero time. */
  datatype Item = Item(
    importRecordId: string,
    modelType: string,
    modelId: string,
    payload: Row,
    status: string,
    errors: string,
    createdAt: int,
    updatedAt: int)

  /** What a processor hands to the logger for one row. */
  datatype LogParams = LogParams(
    importRecordId: string,
    modelType: string,
    modelId: string,
    payload: Row,
    status: string,
    errors: string)

  /** The `_id` of an import record: a 12-byte ObjectId (kept as its lower-case hex) or a plain string. */
  datatype RecordId = ObjectId(hex: string) | StringId(s: string)

  /** An import record; `fields` stands for every field this service never writes. */
  datatype ImportRecord = ImportRecord(status: string, updatedAt: int, fields: map<string, string>)

  /** The Mongo handle. `hasClient` and `hasDatabase` say whether the handle's Client and
      Database are set; `insertFaults` is the error the server answers to an `InsertOne` of
      that document (any document not in it is accepted); `updateFaults` is the error an
      `UpdateOne` filtering on that `_id` answers. */
  class Mongo {
    const hasClient: bool
    const hasDatabase: bool
    const insertFaults: map<Item, string>
    const updateFaults: map<RecordId, string>
    var items: seq<Item>
    var records: map<RecordId, ImportRecord>

    constructor (hasClient: bool, hasDatabase: bool, insertFaults: map<Item, string>,
                 updateFaults: map<RecordId, string>, records: map<RecordId, ImportRecord>)
      ensures this.hasClient == hasClient && this.hasDatabase == hasDatabase
      ensures this.insertFaults == insertFaults && this.updateFaults == updateFaults
      ensures items == [] && this.records == records
    {
      this.hasClient := hasClient;
      this.hasDatabase := hasDatabase;
      this.insertFaults := insertFaults;
      this.updateFaults := updateFaults;
      items := [];
      this.records := records;
    }

    /** An insert through this handle reaches the server. */
    predicate Reaches() {
      hasClient && hasDatabase
    }
  }

  /** The handle is usable for status updates and for logging (`m != nil && m.Database != nil`). */
  predicate Connected(m: Mongo?) {
    m != null && m.hasDatabase
  }

  /** The documents of `xs` the server accepts, in order: each insert succeeds or fails on its own. */
  function Accepted(faults: map<Item, string>, xs: seq<Item>): (r: seq<Item>)
    ensures |r| <= |xs|
  {
    if xs == [] then []
    else (if xs[0] in faults then [] else [xs[0]]) + Accepted(faults, xs[1..])
  }

  /** Exactly the documents without a fault are stored, and all of them when none has one. */
  lemma {:induction false} AcceptedFacts(faults: map<Item, string>, xs: seq<Item>)
    ensures forall x :: x in Accepted(faults, xs) <==> x in xs && x !in faults
    ensures (forall k :: 0 <= k < |xs| ==> xs[k] !in faults) ==> Accepted(faults, xs) == xs
  {
    if xs != [] {
      AcceptedFacts(faults, xs[1..]);
      assert xs == [xs[0]] + xs[1..];
    }
  }

  /** Filtering runs of inserts one after the other is filtering their concatenation. */
  lemma {:induction false} AcceptedConcat(faults: map<Item, string>, a: seq<Item>, b: seq<Item>)
    ensures Accepted(faults, a + b) == Accepted(faults, a) + Accepted(faults, b)
  {
    if a != [] {
      var head := if a[0] in faults then [] else [a[0]];
      assert (a + b)[0] == a[0] && (a + b)[1..] == a[1..] + b;
      AcceptedConcat(faults, a[1..], b);
      calc {
        Accepted(faults, a + b);
        head + Accepted(faults, a[1..] + b);
        head + (Accepted(faults, a[1..]) + Accepted(faults, b));
        (head + Accepted(faults, a[1..])) + Accepted(faults, b);
        Accepted(faults, a) + Accepted(faults, b);
      }
    } else {
      assert a + b == b;
    }
  }

  /** What the collection gains from a run of log calls that would each write one document of `xs`. */
  function Visible(m: Mongo?, xs: seq<Item>): (r: seq<Item>)
    ensures m == null || !m.Reaches() ==> r == []
    ensures |r| <= |xs|
  {
    if m != null && m.Reaches() then Accepted(m.insertFaults, xs) else []
  }

  /** The document `InsertItem` stores: created_at filled in only when it was zero, updated_at always now. */
  function Stamped(item: Item, now: int): (r: Item)
    ensures r.updatedAt == now
    ensures r.createdAt == (if item.createdAt == 0 then now else item.createdAt)
    ensures r.(createdAt := item.createdAt, updatedAt := item.updatedAt) == item
  {
    item.(createdAt := if item.createdAt == 0 then now else item.createdAt, updatedAt := now)
  }

  /** Appends one audit document. */
  method InsertItem(m: Mongo?, item: Item, now: int) returns (err: Option<string>)
    modifies m
    ensures m == null || !m.hasClient || !m.hasDatabase ==> err == Some(ErrClientDisconnected)
    ensures m != null && m.Reaches() ==>
      err == (if Stamped(item, now) in m.insertFaults then Some(m.insertFaults[Stamped(item, now)]) else None)
    ensures m != null ==> m.records == old(m.records)
    ensures m != null ==> m.items == old(m.items) + Visible(m, [Stamped(item, now)])
  {
    if m == null || !m.hasClient || !m.hasDatabase {
      return Some(ErrClientDisconnected);
    }
    var doc := Stamped(item, now);
    if doc in m.insertFaults {
      return Some(m.insertFaults[doc]);
    }
    m.items := m.items + [doc];
    err := None;
  }

  /** The audit document written for `p` at time `now`. */
  function Entry(p: LogParams, now: int): (r: Item)
    ensures r.status == p.status && r.errors == p.errors && r.modelId == p.modelId
    ensures r.modelType == p.modelType && r.payload == p.payload && r.importRecordId == p.importRecordId
    ensures r.createdAt == now && r.updatedAt == now
  {
    Item(p.importRecordId, p.modelType, p.modelId, p.payload, p.status, p.errors, now, now)
  }

  /** Logs one row: nothing happens without a connected handle, and an insert error is
      swallowed (the Go code only prints it). */
  method LogMongo(m: Mongo?, p: LogParams, now: int)
    modifies m
    ensures m != null ==> m.records == old(m.records)
    ensures m != null ==> m.items == old(m.items) + Visible(m, [Entry(p, now)])
  {
    if !Connected(m) {
      return;
    }
    var item := Item(p.importRecordId, p.modelType, p.modelId, p.payload, p.status, p.errors, 0, 0);
    var _ := InsertItem(m, item, now);
  }

  /** Logs one row as failed, whatever status the caller filled in. */
  method LogMongoFail(m: Mongo?, p: LogParams, now: int)
    modifies m
    ensures m != null ==> m.records == old(m.records)
    ensures m != null ==> m.items == old(m.items) + Visible(m, [Entry(p.(status := StatusFailed), now)])
  {
    LogMongo(m, p.(status := StatusFailed), now);
  }

  predicate IsHexDigit(c: char) {
    IsDigit(c) || 'a' <= c <= 'f' || 'A' <= c <= 'F'
  }

  /** `primitive.ObjectIDFromHex`: exactly 24 hex digits, in either case. */
  function ObjectIdFromHex(s: string): (r: Option<RecordId>)
    ensures r.Some? <==> |s| == 24 && forall i :: 0 <= i < |s| ==> IsHexDigit(s[i])
    ensures r.Some? ==> r.value.ObjectId?
  {
    if |s| == 24 && forall i :: 0 <= i < |s| ==> IsHexDigit(s[i]) then Some(ObjectId(ToLower(s))) else None
  }

  /** The record an update by `id` reaches: the ObjectId reading of `id` when it parses
      and names a record, else the record stored under the plain string. */
  function Target(records: map<RecordId, ImportRecord>, id: string): (r: Option<RecordId>)
    ensures r.Some? ==> r.value in records
    ensures r.Some? ==> r.value == StringId(id) || Some(r.value) == ObjectIdFromHex(id)
    ensures r.None? <==> StringId(id) !in records && (ObjectIdFromHex(id).None? || ObjectIdFromHex(id).value !in records)
    ensures ObjectIdFromHex(id).Some? && ObjectIdFromHex(id).value in records ==> r == ObjectIdFromHex(id)
  {
    match ObjectIdFromHex(id)
    case Some(oid) =>
      if oid in records then Some(oid)
      else if StringId(id) in records then Some(StringId(id)) else None
    case None =>
      if StringId(id) in records then Some(StringId(id)) else None
  }

  /** The error of the first `UpdateOne` that fails: the one on the ObjectId filter is sent
      when `id` parses as an ObjectId, and the one on the string filter only when the first
      was not sent or matched nothing. */
  function UpdateFault(faults: map<RecordId, string>, records: map<RecordId, ImportRecord>, id: string): (r: Option<string>)
    ensures var oid := ObjectIdFromHex(id);
      r.Some? <==> ((oid.Some? && oid.value in faults)
                    || (StringId(id) in faults && (oid.None? || (oid.value !in faults && oid.value !in records))))
  {
    var oid := ObjectIdFromHex(id);
    if oid.Some? && oid.value in faults then Some(faults[oid.value])
    else if oid.Some? && oid.value in records then None
    else if StringId(id) in faults then Some(faults[StringId(id)])
    else None
  }

  /** `UpdateImportRecordStatus` as a function of the record store: the checks in order,
      then the updates; an `UpdateOne` error is returned as it is, and otherwise the status
      and updated_at are written to the record `Target` picks. */
  function StatusUpdate(connected: bool, faults: map<RecordId, string>, records: map<RecordId, ImportRecord>,
                        id: string, status: string, now: int)
    : Result<map<RecordId, ImportRecord>>
  {
    if !connected then Err(ErrClientDisconnected)
    else if id == "" then Err("empty importRecordID")
    else if status == "" then Err("empty status")
    else match UpdateFault(faults, records, id)
      case Some(e) => Err(e)
      case None =>
        match Target(records, id)
        case None => Err("no import_record found with id " + id + " (tried ObjectId and string)")
        case Some(k) => Ok(records[k := records[k].(status := status, updatedAt := now)])
  }

  /** A successful update touches exactly one record, and of it only status and updated_at. */
  lemma StatusUpdateFrame(faults: map<RecordId, string>, records: map<RecordId, ImportRecord>, id: string, status: string, now: int)
    requires StatusUpdate(true, faults, records, id, status, now).Ok?
    ensures var r := StatusUpdate(true, faults, records, id, status, now).value;
      exists k :: k in records && Target(records, id) == Some(k)
        && r.Keys == records.Keys
        && r[k].status == status && r[k].updatedAt == now && r[k].fields == records[k].fields
        && forall j :: j in records && j != k ==> r[j] == records[j]
  {
    var k := Target(records, id).value;
    assert k in records;
  }

  /** Marking done twice is marking done once at the later time. */
  lemma DoneTwice(faults: map<RecordId, string>, records: map<RecordId, ImportRecord>, id: string, t1: int, t2: int)
    requires StatusUpdate(true, faults, records, id, StatusDone, t1).Ok?
    ensures var once := StatusUpdate(true, faults, records, id, StatusDone, t1).value;
      StatusUpdate(true, faults, once, id, StatusDone, t2) == StatusUpdate(true, faults, records, id, StatusDone, t2)
  {
    var once := StatusUpdate(true, faults, records, id, StatusDone, t1).value;
    var k := Target(records, id).value;
    assert once.Keys == records.Keys;
    assert UpdateFault(faults, once, id) == UpdateFault(faults, records, id);
    assert Target(once, id) == Target(records, id);
    assert once[k := once[k].(status := StatusDone, updatedAt := t2)]
        == records[k := records[k].(status := StatusDone, updatedAt := t2)];
  }

  /** Every check fails before any write, in the order the Go code makes them; past the
      checks an `UpdateOne` error is returned unchanged, and without one the only error is
      that no record matched. */
  lemma StatusUpdateChecks(connected: bool, faults: map<RecordId, string>, records: map<RecordId, ImportRecord>, id: string, status: string, now: int)
    ensures !connected ==> StatusUpdate(connected, faults, records, id, status, now) == Err(ErrClientDisconnected)
    ensures connected && id == "" ==> StatusUpdate(connected, faults, records, id, status, now) == Err("empty importRecordID")
    ensures connected && id != "" && status == "" ==> StatusUpdate(connected, faults, records, id, status, now) == Err("empty status")
    ensures connected && id != "" && status != "" && UpdateFault(faults, records, id).Some? ==>
      StatusUpdate(connected, faults, records, id, status, now) == Err(UpdateFault(faults, records, id).value)
    ensures (connected && id != "" && status != "" && UpdateFault(faults, records, id).None?
             && StatusUpdate(connected, faults, records, id, status, now).Err?) ==>
      StatusUpdate(connected, faults, records, id, status, now).error
        == "no import_record found with id " + id + " (tried ObjectId and string)"
  {
  }

  /** The two `UpdateOne` errors: the one on the ObjectId filter wins even when the record is
      stored under the plain string, and the one on the string filter matters only when the
      ObjectId update was not sent or matched nothing. */
  lemma UpdateFaultOrder(faults: map<RecordId, string>, records: map<RecordId, ImportRecord>, id: string, status: string, now: int)
    requires id != "" && status != ""
    ensures var oid := ObjectIdFromHex(id);
      oid.Some? && oid.value in faults ==> StatusUpdate(true, faults, records, id, status, now) == Err(faults[oid.value])
    ensures var oid := ObjectIdFromHex(id);
      oid.Some? && oid.value !in faults && oid.value in records ==> StatusUpdate(true, faults, records, id, status, now).Ok?
    ensures var oid := ObjectIdFromHex(id);
      (oid.None? || (oid.value !in faults && oid.value !in records)) && StringId(id) in faults ==>
      StatusUpdate(true, faults, records, id, status, now) == Err(faults[StringId(id)])
  {
  }

  /** Sets the status (and updated_at) of one import record. */
  method UpdateImportRecordStatus(m: Mongo?, id: string, status: string, now: int) returns (err: Option<string>)
    modifies m
    ensures var r := StatusUpdate(Connected(m), if m == null then map[] else m.updateFaults,
                                  if m == null then map[] else old(m.records), id, status, now);
      (r.Ok? <==> err.None?) && (r.Err? ==> err == Some(r.error))
      && (m != null ==> m.records == (if r.Ok? then r.value else old(m.records)))
    ensures m != null ==> m.items == old(m.items)
  {
    if !Connected(m) {
      return Some(ErrClientDisconnected);
    }
    if id == "" {
      return Some("empty importRecordID");
    }
    if status == "" {
      return Some("empty status");
    }
    var oid := ObjectIdFromHex(id);
    if oid.Some? {
      if oid.value in m.updateFaults {
        return Some(m.updateFaults[oid.value]);
      }
      if oid.value in m.records {
        m.records := m.records[oid.value := m.records[oid.value].(status := status, updatedAt := now)];
        return None;
      }
    }
    if StringId(id) in m.updateFaults {
      return Some(m.updateFaults[StringId(id)]);
    }
    if StringId(id) !in m.records {
      return Some("no import_record found with id " + id + " (tried ObjectId and string)");
    }
    m.records := m.records[StringId(id) := m.records[StringId(id)].(status := status, updatedAt := now)];
    err := None;
  }

  /** `UpdateImportRecordStatusDone`. */
  method UpdateImportRecordStatusDone(m: Mongo?, id: string, now: int) returns (err: Option<string>)
    modifies m
    ensures var r := StatusUpdate(Connected(m), if m == null then map[] else m.updateFaults,
                                  if m == null then map[] else old(m.records), id, StatusDone, now);
      (r.Ok? <==> err.None?) && (m != null ==> m.records == (if r.Ok? then r.value else old(m.records)))
    ensures m != null ==> m.items == old(m.items)
  {
    err := UpdateImportRecordStatus(m, id, StatusDone, now);
  }
}
