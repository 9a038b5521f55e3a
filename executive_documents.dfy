/** `ExecutiveDocumentsProcessor`: each row becomes one executive document. A debt number
    that does not resolve leaves the document without a debt and only adds a warning; the
    document type is the one required field. */
module ExecutiveDocuments {
  import opened Wrappers
  import opened Text
  import opened Ports
  import opened Ledger
  import opened Db
  import opened Proc
  import opened Helpers

  const ModelType := "executive_documents"

  const MissingDebtNumber := "missing debt_number -> debt_id=NULL"
  const MissingDocType := "missing executive_document_type"
  const EstateIgnored := "document_has_estate provided but column absent -> ignored"

  /** The words `boolLoose` reads as true and as false; any other non-blank text is true. */
  const TrueWords: set<string> := {"1", "true", "t", "yes", "y", "да", "д", "on"}
  const FalseWords: set<string> := {"0", "false", "f", "no", "n", "нет", "off"}

  /** The `switch` of `boolLoose` on the trimmed, lower-cased text `v`. */
  function BoolWord(v: string): (r: bool)
    ensures r <==> v != "" && v !in FalseWords
  {
    if v == "" then false
    else if v in TrueWords then true
    else if v in FalseWords then false
    else true
  }

  /** `boolLoose`: false for blank text and the false words, whatever their case; true
      for everything else. */
  function BoolLoose(s: string): (r: bool)
    ensures r <==> (var v := TrimSpace(ToLower(s)); v != "" && v !in FalseWords)
  {
    BoolWord(TrimSpace(ToLower(s)))
  }

  lemma {:induction false} LowerCharIdempotent(c: char)
    ensures LowerChar(LowerChar(c)) == LowerChar(c)
  {
  }

  lemma {:induction false} ToLowerIdempotent(s: string)
    ensures ToLower(ToLower(s)) == ToLower(s)
  {
    var t := ToLower(s);
    forall i | 0 <= i < |s|
      ensures ToLower(t)[i] == t[i]
    {
      LowerCharIdempotent(s[i]);
    }
  }

  /** `boolLoose` ignores case: a cell and its lower-cased form read the same. */
  lemma BoolLooseIgnoresCase(s: string)
    ensures BoolLoose(ToLower(s)) == BoolLoose(s)
  {
    ToLowerIdempotent(s);
  }

  /** `models.ExecutiveDocument` as this processor fills it. */
  datatype ExecDoc = ExecDoc(
    id: string,
    docType: string,
    serialNumber: Option<string>,
    debtId: Option<string>,
    amount: string,
    startDate: Option<DateTime>,
    statusCourt: Option<string>,
    issuingAuthority: Option<string>,
    issuePlace: Option<string>,
    issueDate: Option<DateTime>,
    creditorReplacement: Option<string>,
    isCanceled: bool,
    cancellationNumber: Option<string>,
    cancellationDate: Option<string>,
    lawyerReceivedAt: Option<DateTime>,
    privateBailiffReceivedAt: Option<DateTime>,
    dvpTransferredAt: Option<DateTime>)

  /** What the processor consults: the `debts` table by number, the date parser, and the
      documents `ExecutiveDocumentsRepo.Create` fails on, with the error, by document id. */
  datatype Env = Env(debts: Table<string, string>, parse: (string, string) -> Option<DateTime>, faults: map<string, string>)

  /** The debt a row links to, the warning about it, the cache afterwards and the numbers
      a query was sent for. */
  datatype DebtLink = DebtLink(debtId: Option<string>, warnings: seq<string>, cache: map<string, Option<string>>, queries: seq<string>)

  /** The debt number of a row: trimmed, with every space removed. */
  function DebtNumberOf(m: Row): string {
    RemoveChar(Trimmed(m, "debt_number"), ' ')
  }

  /** The debt lookup through `getDebtUUID`, and its warning. */
  function LinkDebt(debts: Table<string, string>, cache: map<string, Option<string>>, m: Row): DebtLink {
    var dn := DebtNumberOf(m);
    if dn == "" then DebtLink(None, [MissingDebtNumber], cache, [])
    else
      var c := CachedLookup(cache, dn, Query(debts, dn));
      var q := if c.queried then [dn] else [];
      if c.err.None? then
        DebtLink(c.value, if c.value.None? then ["debt not found: " + dn + " -> debt_id=NULL"] else [], c.cache, q)
      else DebtLink(None, ["debt lookup error: " + c.err.value + " -> debt_id=NULL"], c.cache, q)
  }

  /** A row that passed: the row, its id, its document type and the debt it links to. */
  datatype Pending = Pending(m: Row, id: string, docType: string, debtId: Option<string>)

  /** The document built from a row with a type. */
  function DocOf(p: Pending, parse: (string, string) -> Option<DateTime>): ExecDoc {
    var m := p.m;
    ExecDoc(p.id, p.docType,
      NullIfEmpty(Trimmed(m, "executive_document_serial_number")),
      p.debtId,
      NormalizeAmount(Trimmed(m, "executive_document_amount")),
      ParseDateStrict(Trimmed(m, "executive_document_start_date"), parse),
      NullIfEmpty(Trimmed(m, "executive_document_status_court")),
      NullIfEmpty(Trimmed(m, "executive_document_issuing_authority")),
      NullIfEmpty(Trimmed(m, "executive_document_issue_place")),
      ParseDateStrict(Trimmed(m, "executive_document_issue_date"), parse),
      NullIfEmpty(Trimmed(m, "executive_document_creditor_replacement")),
      BoolLoose(Trimmed(m, "executive_document_is_canceled")),
      NullIfEmpty(Trimmed(m, "executive_document_cancellation_number")),
      NullIfEmpty(Trimmed(m, "executive_document_cancellation_date")),
      ParseDateStrict(Trimmed(m, "executive_document_lawyer_received_at"), parse),
      ParseDateStrict(Trimmed(m, "executive_document_private_bailiff_received_at"), parse),
      ParseDateStrict(Trimmed(m, "executive_document_dvp_transferred_at"), parse))
  }

  /** The warnings of a row, in the order they are raised. */
  function WarningsOf(link: DebtLink, m: Row): seq<string> {
    link.warnings + (if Trimmed(m, "document_has_estate") != "" then [EstateIgnored] else [])
  }

  /** One row: its audit item, the row whose document is stored (if any), the cache and
      the queries. */
  datatype RowStep = RowStep(item: Item, stored: Option<Pending>, cache: map<string, Option<string>>, queries: seq<string>)

  function ProcessRow(env: Env, cache: map<string, Option<string>>, rec: string, now: int, m: Row, id: string): RowStep {
    var link := LinkDebt(env.debts, cache, m);
    var docType := Trimmed(m, "executive_document_type");
    if docType == "" then RowStep(Failed(rec, ModelType, id, m, MissingDocType, now), None, link.cache, link.queries)
    else if id in env.faults then RowStep(Failed(rec, ModelType, id, m, env.faults[id], now), None, link.cache, link.queries)
    else RowStep(Done(rec, ModelType, id, m, JoinWarnings(WarningsOf(link, m)), now),
                 Some(Pending(m, id, docType, link.debtId)), link.cache, link.queries)
  }

  /** The documents of the rows stored, in order. */
  function DocsOf(ps: seq<Pending>, parse: (string, string) -> Option<DateTime>): (r: seq<ExecDoc>)
    ensures |r| == |ps|
  {
    Each(p => DocOf(p, parse), ps)
  }

  /** The loop state: the cache, the items, the rows stored, the queries and the id the
      next row gets. */
  datatype Pass = Pass(cache: map<string, Option<string>>, items: seq<Item>, stored: seq<Pending>, queries: seq<string>, next: nat)

  /** The state before the first row. */
  function Start(firstId: nat): Pass {
    Pass(map[], [], [], [], firstId)
  }

  /** The loop body on one row, which gets id `UuidText(p.next)`. */
  function Advance(env: Env, rec: string, now: int, p: Pass, m: Row): Pass {
    var s := ProcessRow(env, p.cache, rec, now, m, UuidText(p.next));
    Pass(s.cache, p.items + [s.item], p.stored + (if s.stored.Some? then [s.stored.value] else []), p.queries + s.queries, p.next + 1)
  }

  /** The loop over `rows` from the state `p`. */
  function Run(env: Env, rec: string, now: int, p: Pass, rows: seq<Row>): Pass
    decreases |rows|
  {
    if rows == [] then p else Run(env, rec, now, Advance(env, rec, now, p, rows[0]), rows[1..])
  }

  // ---------------------------------------------------------------------------
  // Properties
  // ---------------------------------------------------------------------------

  /** The debt link: a document gets a debt id exactly when the number resolves, and then
      there is no warning about it; otherwise there is exactly one warning, and the document
      is still built. */
  lemma LinkDebtFacts(debts: Table<string, string>, cache: map<string, Option<string>>, m: Row)
    ensures var l := LinkDebt(debts, cache, m); var dn := DebtNumberOf(m);
      (l.debtId.Some? <==> l.warnings == [])
      && |l.warnings| <= 1
      && (dn == "" ==> l.debtId.None? && l.cache == cache && l.queries == [])
      && (dn != "" && dn in cache ==> l.debtId == cache[dn] && l.queries == [] && l.cache == cache)
      && (dn != "" && dn !in cache ==>
            (l.queries == [dn] && dn in l.cache && l.cache[dn] == l.debtId
             && (l.debtId.Some? <==> dn !in debts.faults && dn in debts.rows)
             && (l.debtId.Some? ==> l.debtId.value == debts.rows[dn])))
  {
  }

  /** A number with no row is reported as a lookup error the first time (the query fails with
      pgx's no-rows error) and as "not found" from then on, the failure being cached as nil;
      only the first asks the database. */
  lemma UnknownDebtTwice(debts: Table<string, string>, cache: map<string, Option<string>>, m: Row)
    requires DebtNumberOf(m) != "" && DebtNumberOf(m) !in cache
    requires DebtNumberOf(m) !in debts.faults && DebtNumberOf(m) !in debts.rows
    ensures var dn := DebtNumberOf(m);
      var l1 := LinkDebt(debts, cache, m);
      var l2 := LinkDebt(debts, l1.cache, m);
      l1.warnings == ["debt lookup error: " + ErrNoRows + " -> debt_id=NULL"] && l1.queries == [dn]
      && l2.warnings == ["debt not found: " + dn + " -> debt_id=NULL"] && l2.queries == [] && l2.cache == l1.cache
  {
  }

  /** One row: an item for the row's id and payload; a document is stored exactly when the
      item is done; a row without a type fails with that message and stores nothing, and
      its debt lookup still happens; a done item carries the joined warnings. */
  lemma ProcessRowFacts(env: Env, cache: map<string, Option<string>>, rec: string, now: int, m: Row, id: string)
    ensures var s := ProcessRow(env, cache, rec, now, m, id); var link := LinkDebt(env.debts, cache, m);
      s.item.modelId == id && s.item.payload == m && s.item.modelType == ModelType
      && s.cache == link.cache && s.queries == link.queries
      && (s.stored.Some? <==> s.item.status == StatusDone)
      && (s.item.status == StatusDone || s.item.status == StatusFailed)
      && (Trimmed(m, "executive_document_type") == "" ==> s.item.status == StatusFailed && s.item.errors == MissingDocType)
      && (Trimmed(m, "executive_document_type") != "" && id in env.faults ==> s.item.status == StatusFailed && s.item.errors == env.faults[id])
      && (s.stored.Some? ==>
            (var doc := DocOf(s.stored.value, env.parse);
             doc.id == id && doc.docType == Trimmed(m, "executive_document_type") && doc.debtId == link.debtId
             && s.item.errors == JoinWarnings(WarningsOf(link, m))))
  {
    var link := LinkDebt(env.debts, cache, m);
    var docType := Trimmed(m, "executive_document_type");
    if docType != "" && id !in env.faults {
      var doc := DocOf(Pending(m, id, docType, link.debtId), env.parse);
      assert doc.id == id && doc.docType == docType && doc.debtId == link.debtId;
    }
  }

  /** One row: one more item, for that row and under the next id, the earlier ones kept;
      at most one more row stored. */
  lemma AdvanceFacts(env: Env, rec: string, now: int, p: Pass, m: Row)
    ensures var q := Advance(env, rec, now, p, m);
      |q.items| == |p.items| + 1 && q.items[..|p.items|] == p.items
      && q.items[|p.items|].modelId == UuidText(p.next) && q.items[|p.items|].payload == m
      && |q.stored| <= |p.stored| + 1 && q.next == p.next + 1
  {
    ProcessRowItem(env, p.cache, rec, now, m, UuidText(p.next));
  }

  lemma ProcessRowItem(env: Env, cache: map<string, Option<string>>, rec: string, now: int, m: Row, id: string)
    ensures var s := ProcessRow(env, cache, rec, now, m, id);
      s.item.modelId == id && s.item.payload == m
  {
  }

  /** The loop from any state: one item per row, in row order, under consecutive ids, the
      earlier items kept, and at most one stored row per row. */
  lemma {:induction false} RunFacts(env: Env, rec: string, now: int, p: Pass, rows: seq<Row>)
    ensures var r := Run(env, rec, now, p, rows);
      |r.items| == |p.items| + |rows| && r.items[..|p.items|] == p.items
      && Tagged(r.items[|p.items|..], rows, p.next)
      && |r.stored| <= |p.stored| + |rows| && r.next == p.next + |rows|
    decreases |rows|
  {
    if rows != [] {
      var q := Advance(env, rec, now, p, rows[0]);
      AdvanceFacts(env, rec, now, p, rows[0]);
      RunFacts(env, rec, now, q, rows[1..]);
      var r := Run(env, rec, now, q, rows[1..]);
      assert Run(env, rec, now, p, rows) == r;
      assert r.items[..|p.items|] == q.items[..|p.items|];
      assert r.items[|p.items|..] == [q.items[|p.items|]] + r.items[|q.items|..];
      TaggedCons(q.items[|p.items|], r.items[|q.items|..], rows[0], rows[1..], p.next);
      assert [rows[0]] + rows[1..] == rows;
    }
  }

  /** The loop over a batch logs one item per row, in row order, the `k`-th under id
      `UuidText(firstId + k)`, and stores at most one document per row. */
  lemma RunRowsFacts(env: Env, rec: string, now: int, batch: seq<Row>, firstId: nat)
    ensures var r := Run(env, rec, now, Start(firstId), batch);
      Tagged(r.items, batch, firstId) && |r.stored| <= |batch| && r.next == firstId + |batch|
  {
    var p := Start(firstId);
    RunFacts(env, rec, now, p, batch);
    var r := Run(env, rec, now, p, batch);
    assert |p.items| == 0 && |p.stored| == 0 && p.next == firstId;
    assert r.items[0..] == r.items;
  }

  // ---------------------------------------------------------------------------
  // The processor
  // ---------------------------------------------------------------------------

  /** `ExecutiveDocumentsProcessor` over its dependencies; `docs` is the
      `executive_documents` table, `queries` the debt numbers sent to the database. */
  class ExecDocsProcessor {
    const pgAvailable: bool
    const mongo: Mongo?
    const ids: IdSource
    const debts: Table<string, string>
    const parse: (string, string) -> Option<DateTime>
    const faults: map<string, string>
    var docs: seq<ExecDoc>
    ghost var queries: seq<string>

    constructor (pgAvailable: bool, mongo: Mongo?, ids: IdSource, debts: Table<string, string>,
                 parse: (string, string) -> Option<DateTime>, faults: map<string, string>, docs: seq<ExecDoc>)
      ensures this.pgAvailable == pgAvailable && this.mongo == mongo && this.ids == ids && this.debts == debts
      ensures this.parse == parse && this.faults == faults && this.docs == docs && queries == []
    {
      this.pgAvailable := pgAvailable;
      this.mongo := mongo;
      this.ids := ids;
      this.debts := debts;
      this.parse := parse;
      this.faults := faults;
      this.docs := docs;
      queries := [];
    }

    function Environment(): Env {
      Env(debts, parse, faults)
    }

    /** `getDebtUUID` on the batch cache, with the warning the loop derives from its answer. */
    method Link(m: Row, cache0: map<string, Option<string>>) returns (debtId: Option<string>, warnings: seq<string>, cache: map<string, Option<string>>)
      modifies this`queries
      ensures var l := LinkDebt(debts, cache0, m);
        debtId == l.debtId && warnings == l.warnings && cache == l.cache && queries == old(queries) + l.queries
    {
      cache := cache0;
      var dn := RemoveChar(Trimmed(m, "debt_number"), ' ');
      if dn == "" {
        return None, [MissingDebtNumber], cache;
      }
      if dn in cache {
        debtId := cache[dn];
        warnings := if debtId.None? then ["debt not found: " + dn + " -> debt_id=NULL"] else [];
        return;
      }
      queries := queries + [dn];
      var answer := Query(debts, dn);
      if answer.Err? {
        cache := cache[dn := None];
        return None, ["debt lookup error: " + answer.error + " -> debt_id=NULL"], cache;
      }
      cache := cache[dn := Some(answer.value)];
      debtId, warnings := Some(answer.value), [];
    }

    /** The body of the loop on one row. */
    method Row(rec: string, now: int, m: Row, id: string, cache0: map<string, Option<string>>)
      returns (cache: map<string, Option<string>>, ghost s: RowStep)
      modifies mongo, this`docs, this`queries
      ensures s == ProcessRow(Environment(), cache0, rec, now, m, id)
      ensures cache == s.cache && queries == old(queries) + s.queries
      ensures docs == old(docs) + DocsOf(if s.stored.Some? then [s.stored.value] else [], parse)
      ensures mongo != null ==> mongo.items == old(mongo.items) + Visible(mongo, [s.item]) && mongo.records == old(mongo.records)
    {
      s := ProcessRow(Environment(), cache0, rec, now, m, id);
      var debtId, warnings;
      debtId, warnings, cache := Link(m, cache0);
      var docType := Trimmed(m, "executive_document_type");
      if docType == "" {
        assert s.stored.None? && DocsOf([], parse) == [];
        LogFail(mongo, rec, ModelType, id, m, MissingDocType, now);
        return;
      }
      if Trimmed(m, "document_has_estate") != "" {
        warnings := warnings + [EstateIgnored];
      }
      var pending := Pending(m, id, docType, debtId);
      if id in faults {
        assert s.stored.None? && DocsOf([], parse) == [];
        LogFail(mongo, rec, ModelType, id, m, faults[id], now);
        return;
      }
      assert warnings == WarningsOf(LinkDebt(debts, cache0, m), m);
      assert s.stored == Some(pending) && s.item == Done(rec, ModelType, id, m, JoinWarnings(warnings), now);
      Keep(rec, now, pending, JoinWarnings(warnings));
    }

    /** A row whose document is created: the document is stored and a done item, with the
        row's warnings, is logged. */
    method Keep(rec: string, now: int, pending: Pending, warnings: string)
      modifies mongo, this`docs
      ensures docs == old(docs) + DocsOf([pending], parse)
      ensures mongo != null ==>
        mongo.items == old(mongo.items) + Visible(mongo, [Done(rec, ModelType, pending.id, pending.m, warnings, now)])
        && mongo.records == old(mongo.records)
    {
      docs := docs + DocsOf([pending], parse);
      Log(mongo, rec, ModelType, pending.id, pending.m, StatusDone, warnings, now);
    }

    /** The loop of `ProcessBatch`. */
    method RunLoop(rec: string, batch: seq<Row>, now: int) returns (ghost p: Pass)
      modifies mongo, ids, this`docs, this`queries
      ensures p == Run(Environment(), rec, now, Start(old(ids.next)), batch)
      ensures ids.next == p.next && docs == old(docs) + DocsOf(p.stored, parse) && queries == old(queries) + p.queries
      ensures mongo != null ==> mongo.items == old(mongo.items) + Visible(mongo, p.items) && mongo.records == old(mongo.records)
    {
      var cache: map<string, Option<string>> := map[];
      ghost var items0 := if mongo != null then mongo.items else [];
      ghost var p0 := Start(ids.next);
      p := p0;
      var i := 0;
      assert batch[i..] == batch;
      while i < |batch|
        invariant 0 <= i <= |batch|
        invariant Run(Environment(), rec, now, p, batch[i..]) == Run(Environment(), rec, now, p0, batch)
        invariant ids.next == p.next
        invariant cache == p.cache && docs == old(docs) + DocsOf(p.stored, parse) && queries == old(queries) + p.queries
        invariant mongo != null ==> mongo.items == items0 + Visible(mongo, p.items) && mongo.records == old(mongo.records)
      {
        assert batch[i..][0] == batch[i] && batch[i..][1..] == batch[i + 1..];
        cache, p := NextRow(rec, now, batch[i], cache, old(docs), old(queries), items0, p);
        i := i + 1;
      }
    }

    /** The loop body on row `m`: `p` is the loop state so far, and `d0`, `q0` and `items0`
        the table, query log and audit collection at the start of the batch. */
    method NextRow(rec: string, now: int, m: Row, cache0: map<string, Option<string>>,
                   ghost d0: seq<ExecDoc>, ghost q0: seq<string>, ghost items0: seq<Item>, ghost p: Pass)
      returns (cache: map<string, Option<string>>, ghost p': Pass)
      requires ids.next == p.next
      requires cache0 == p.cache && docs == d0 + DocsOf(p.stored, parse) && queries == q0 + p.queries
      requires mongo != null ==> mongo.items == items0 + Visible(mongo, p.items)
      modifies mongo, ids, this`docs, this`queries
      ensures p' == Advance(Environment(), rec, now, p, m) && ids.next == p'.next
      ensures cache == p'.cache && docs == d0 + DocsOf(p'.stored, parse) && queries == q0 + p'.queries
      ensures mongo != null ==> mongo.items == items0 + Visible(mongo, p'.items) && mongo.records == old(mongo.records)
    {
      var id := ids.NewString();
      ghost var s;
      cache, s := Row(rec, now, m, id, cache0);
      ghost var added := if s.stored.Some? then [s.stored.value] else [];
      p' := Pass(s.cache, p.items + [s.item], p.stored + added, p.queries + s.queries, p.next + 1);
      EachAppend(q => DocOf(q, parse), p.stored, added);
      AppendAssoc(d0, DocsOf(p.stored, parse), DocsOf(added, parse));
      AppendAssoc(q0, p.queries, s.queries);
      if mongo != null {
        VisibleConcat(mongo, p.items, [s.item]);
        AppendAssoc(items0, Visible(mongo, p.items), Visible(mongo, [s.item]));
      }
    }

    /** `ProcessBatch`: after the dependency check, every row is handled and the import
        record is marked done, whatever the rows gave. */
    method ProcessBatch(ctxValue: Option<string>, batch: seq<Row>, now: int) returns (err: Option<string>)
      modifies mongo, ids, this`docs, this`queries
      ensures var deps := CheckDeps(pgAvailable, mongo);
        deps.Some? ==>
          (err == deps && ids.next == old(ids.next) && docs == old(docs) && queries == old(queries)
           && (mongo != null ==> mongo.items == old(mongo.items) && mongo.records == old(mongo.records)))
      ensures var deps := CheckDeps(pgAvailable, mongo);
        var rec := RecordIdOf(ctxValue);
        var p := Run(Environment(), rec, now, Start(old(ids.next)), batch);
        deps.None? ==>
          (err.None? && mongo != null && ids.next == old(ids.next) + |batch|
           && docs == old(docs) + DocsOf(p.stored, parse) && queries == old(queries) + p.queries
           && mongo.items == old(mongo.items) + Visible(mongo, p.items)
           && mongo.records == (var u := StatusUpdate(true, mongo.updateFaults, old(mongo.records), rec, StatusDone, now);
                                if u.Ok? then u.value else old(mongo.records)))
    {
      var deps := CheckDeps(pgAvailable, mongo);
      if deps.Some? {
        return deps;
      }
      var rec := RecordIdOf(ctxValue);
      ghost var p := RunLoop(rec, batch, now);
      RunRowsFacts(Environment(), rec, now, batch, old(ids.next));
      var _ := UpdateImportRecordStatusDone(mongo, rec, now);
      err := None;
    }
  }
}
