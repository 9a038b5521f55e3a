/** `EnforcementProceedingsProcessor`: each row with a known debt becomes one enforcement
    proceeding. A first pass looks the debts up and logs the rows it rejects; the proceedings
    of the other rows are then sent as one batch of INSERTs, and each answer, read in order,
    logs its row. Every audit item gets an id of its own, drawn when it is logged. */
module EnforcementProceedings {
  import opened Wrappers
  import opened Text
  import opened Ports
  import opened Ledger
  import opened Db
  import opened Proc
  import opened Helpers

  /** The model type of every item: the default table name. */
  const ModelType := "enforcement_proceedings"

  const MissingDebtNumber := "missing debt_number"

  /** The row `INSERT INTO <table> (...)` writes. */
  datatype Proceeding = Proceeding(
    serialNumber: Option<string>,
    debtId: string,
    amount: string,
    privateBailiffName: Option<string>,
    privateBailiffRegion: Option<string>,
    startDate: Option<DateTime>,
    statusAisOip: Option<string>,
    createdAt: int)

  /** One queued statement: the table it inserts into and the row. */
  type Insert = RowInsert<Proceeding>

  // ---------------------------------------------------------------------------
  // The first pass
  // ---------------------------------------------------------------------------

  /** The debt number of a row: every space removed, then trimmed. */
  function DebtNumberOf(m: Row): string {
    TrimSpace(RemoveChar(Field(m, "debt_number"), ' '))
  }

  datatype Verdict = Reject(msg: string) | Keep(debtId: string)

  /** The debt lookup of a row: the verdict, the per-batch cache afterwards and the numbers
      a query was sent for. */
  datatype Screen = Screen(verdict: Verdict, cache: map<string, Option<string>>, queries: seq<string>)

  function ScreenRow(debts: Table<string, string>, cache: map<string, Option<string>>, m: Row): Screen {
    var dn := DebtNumberOf(m);
    if dn == "" then Screen(Reject(MissingDebtNumber), cache, [])
    else
      var r := CachedLookup(cache, dn, Query(debts, dn));
      var q := if r.queried then [dn] else [];
      if r.err.Some? || r.value.None? then Screen(Reject(WithCause("debt not found: " + dn, r.err)), r.cache, q)
      else Screen(Keep(r.value.value), r.cache, q)
  }

  /** A kept row: the row and its debt. */
  datatype Pending = Pending(m: Row, debtId: string)

  /** The state of the first pass: the cache, the items of the rejected rows, the kept rows,
      the queries, and the id the next item gets. */
  datatype Pass = Pass(cache: map<string, Option<string>>, items: seq<Item>, kept: seq<Pending>, queries: seq<string>, next: nat)

  function Start(firstId: nat): Pass {
    Pass(map[], [], [], [], firstId)
  }

  /** One row of the first pass: a rejected row is logged under a fresh id, a kept row
      takes none. */
  function Advance(debts: Table<string, string>, rec: string, now: int, p: Pass, m: Row): Pass {
    var s := ScreenRow(debts, p.cache, m);
    match s.verdict
    case Reject(msg) => Pass(s.cache, p.items + [Failed(rec, ModelType, UuidText(p.next), m, msg, now)], p.kept, p.queries + s.queries, p.next + 1)
    case Keep(debtId) => Pass(s.cache, p.items, p.kept + [Pending(m, debtId)], p.queries + s.queries, p.next)
  }

  function Run(debts: Table<string, string>, rec: string, now: int, p: Pass, rows: seq<Row>): Pass
    decreases |rows|
  {
    if rows == [] then p else Run(debts, rec, now, Advance(debts, rec, now, p, rows[0]), rows[1..])
  }

  // ---------------------------------------------------------------------------
  // The batch of inserts
  // ---------------------------------------------------------------------------

  /** The proceeding of a kept row, created at `now`. */
  function ProceedingOf(p: Pending, parse: (string, string) -> Option<DateTime>, now: int): Proceeding {
    var m := p.m;
    Proceeding(
      NullIfEmpty(Field(m, "enforcement_proceeding_serial_number")),
      p.debtId,
      NormalizeAmount(Field(m, "enforcement_proceeding_amount")),
      NullIfEmpty(Field(m, "enforcement_proceeding_private_bailiff_name")),
      NullIfEmpty(Field(m, "enforcement_proceeding_private_bailiff_region")),
      ParseDateStrict(Field(m, "enforcement_proceeding_start_date"), parse),
      NullIfEmpty(Field(m, "enforcement_proceeding_status_ais_oip")),
      now)
  }

  /** The statements queued for the kept rows, in order. */
  function Statements(table: string, ps: seq<Pending>, parse: (string, string) -> Option<DateTime>, now: int): (r: seq<Insert>)
    ensures |r| == |ps|
    decreases |ps|
  {
    if ps == [] then []
    else
      var n := |ps| - 1;
      Statements(table, ps[..n], parse, now) + [RowInsert(table, ProceedingOf(ps[n], parse, now))]
  }

  /** The item logged for a kept row once its statement answered `err`, under id `id`: a
      failure with the error, or done with no text (the rows carry no warnings). */
  function Outcome(rec: string, now: int, p: Pending, err: Option<string>, id: string): Item {
    if err.Some? then Failed(rec, ModelType, id, p.m, err.value, now)
    else Done(rec, ModelType, id, p.m, "", now)
  }

  /** The items of the answers, the `k`-th under `UuidText(first + k)`. */
  function Results(rec: string, now: int, ps: seq<Pending>, answers: seq<Option<string>>, first: nat): (r: seq<Item>)
    requires |answers| == |ps|
    decreases |ps|
  {
    if ps == [] then []
    else
      var n := |ps| - 1;
      Results(rec, now, ps[..n], answers[..n], first) + [Outcome(rec, now, ps[n], answers[n], UuidText(first + n))]
  }

  // ---------------------------------------------------------------------------
  // Properties
  // ---------------------------------------------------------------------------

  /** The proceeding of a kept row: the row's debt, created at `now`; the serial number,
      bailiff name and region and AIS OIP status NULL when blank and trimmed otherwise; the
      amount normalised ("0" when blank); and a start date only for a non-blank cell, always
      at midnight. */
  lemma ProceedingOfFacts(p: Pending, parse: (string, string) -> Option<DateTime>, now: int)
    ensures var r := ProceedingOf(p, parse, now); var m := p.m;
      r.debtId == p.debtId && r.createdAt == now
      && (r.serialNumber.None? <==> IsBlank(Field(m, "enforcement_proceeding_serial_number")))
      && (r.serialNumber.Some? ==> r.serialNumber.value == TrimSpace(Field(m, "enforcement_proceeding_serial_number")))
      && (r.privateBailiffName.None? <==> IsBlank(Field(m, "enforcement_proceeding_private_bailiff_name")))
      && (r.privateBailiffName.Some? ==> r.privateBailiffName.value == TrimSpace(Field(m, "enforcement_proceeding_private_bailiff_name")))
      && (r.privateBailiffRegion.None? <==> IsBlank(Field(m, "enforcement_proceeding_private_bailiff_region")))
      && (r.privateBailiffRegion.Some? ==> r.privateBailiffRegion.value == TrimSpace(Field(m, "enforcement_proceeding_private_bailiff_region")))
      && (r.statusAisOip.None? <==> IsBlank(Field(m, "enforcement_proceeding_status_ais_oip")))
      && (r.statusAisOip.Some? ==> r.statusAisOip.value == TrimSpace(Field(m, "enforcement_proceeding_status_ais_oip")))
      && (IsBlank(Field(m, "enforcement_proceeding_amount")) ==> r.amount == "0")
      && r.amount != ""
      && (IsBlank(Field(m, "enforcement_proceeding_start_date")) ==> r.startDate.None?)
      && (r.startDate.Some? ==> r.startDate.value.hour == 0 && r.startDate.value.minute == 0)
  {
    NormalizeAmountFacts(Field(p.m, "enforcement_proceeding_amount"));
  }

  /** The `k`-th statement inserts the proceeding of the `k`-th kept row into `table`. */
  lemma {:induction false} StatementsAt(table: string, ps: seq<Pending>, parse: (string, string) -> Option<DateTime>, now: int)
    ensures forall k :: 0 <= k < |ps| ==> Statements(table, ps, parse, now)[k] == RowInsert(table, ProceedingOf(ps[k], parse, now))
    decreases |ps|
  {
    if ps != [] {
      var n := |ps| - 1;
      StatementsAt(table, ps[..n], parse, now);
      var r0 := Statements(table, ps[..n], parse, now);
      var x := RowInsert(table, ProceedingOf(ps[n], parse, now));
      assert Statements(table, ps, parse, now) == r0 + [x];
      forall k | 0 <= k < |ps|
        ensures Statements(table, ps, parse, now)[k] == RowInsert(table, ProceedingOf(ps[k], parse, now))
      {
        if k < n {
          assert ps[..n][k] == ps[k];
          assert (r0 + [x])[k] == r0[k];
        }
      }
    }
  }

  /** A blank number (spaces removed) fails with "missing debt_number" and no query; a
      number the lookup errs on or finds nothing for fails with "debt not found: N", the
      error in parentheses when there was one; a found number keeps the row with its debt. */
  lemma ScreenFacts(debts: Table<string, string>, cache: map<string, Option<string>>, m: Row)
    ensures var s := ScreenRow(debts, cache, m); var dn := DebtNumberOf(m);
      var r := CachedLookup(cache, dn, Query(debts, dn));
      (dn == "" ==> s == Screen(Reject(MissingDebtNumber), cache, []))
      && (dn != "" && dn in cache && cache[dn].None? ==> s == Screen(Reject("debt not found: " + dn), cache, []))
      && (dn != "" && dn !in cache && Query(debts, dn).Err? ==>
            s.verdict == Reject("debt not found: " + dn + " (" + Query(debts, dn).error + ")") && s.queries == [dn])
      && (dn != "" && r.value.Some? ==> s.verdict == Keep(r.value.value))
  {
  }

  /** `getDebtUUID` caches nil on an error, so a number that failed with an error fails
      again on a later row with the bare "debt not found: N", and no query is sent. */
  lemma RepeatedBadNumber(debts: Table<string, string>, cache: map<string, Option<string>>, m1: Row, m2: Row)
    requires DebtNumberOf(m1) != "" && DebtNumberOf(m1) !in cache && Query(debts, DebtNumberOf(m1)).Err?
    requires DebtNumberOf(m2) == DebtNumberOf(m1)
    ensures var s1 := ScreenRow(debts, cache, m1); var s2 := ScreenRow(debts, s1.cache, m2);
      s1.verdict == Reject("debt not found: " + DebtNumberOf(m1) + " (" + Query(debts, DebtNumberOf(m1)).error + ")")
      && s2.verdict == Reject("debt not found: " + DebtNumberOf(m1)) && s2.queries == [] && s2.cache == s1.cache
  {
  }

  /** The first pass from any state: each row adds one failure or one kept row, never both;
      the failures are numbered on from where they were, and only they use up ids. */
  lemma {:induction false} RunFacts(debts: Table<string, string>, rec: string, now: int, p: Pass, rows: seq<Row>, first: nat)
    requires Numbered(p.items, first) && AllFailed(p.items) && p.next == first + |p.items|
    ensures var r := Run(debts, rec, now, p, rows);
      |r.items| + |r.kept| == |p.items| + |p.kept| + |rows|
      && p.items <= r.items && p.kept <= r.kept
      && Numbered(r.items, first) && AllFailed(r.items) && r.next == first + |r.items|
    decreases |rows|
  {
    if rows != [] {
      var q := Advance(debts, rec, now, p, rows[0]);
      var s := ScreenRow(debts, p.cache, rows[0]);
      if s.verdict.Reject? {
        assert q.items == p.items + [Failed(rec, ModelType, UuidText(p.next), rows[0], s.verdict.msg, now)];
        assert q.items[|p.items|].modelId == UuidText(first + |p.items|);
      } else {
        assert q.items == p.items;
      }
      RunFacts(debts, rec, now, q, rows[1..], first);
      assert Run(debts, rec, now, p, rows) == Run(debts, rec, now, q, rows[1..]);
    }
  }

  /** One item per answer: the `k`-th carries `UuidText(first + k)` and the `k`-th kept
      row; it is done, with no text, exactly when the `k`-th statement succeeded, and
      otherwise failed with that statement's error. */
  lemma {:induction false} ResultsFacts(rec: string, now: int, ps: seq<Pending>, answers: seq<Option<string>>, first: nat)
    requires |answers| == |ps|
    ensures var r := Results(rec, now, ps, answers, first);
      |r| == |ps| && Numbered(r, first)
      && forall k :: 0 <= k < |ps| ==>
           r[k].payload == ps[k].m && r[k].modelType == ModelType
           && (answers[k].None? ==> r[k].status == StatusDone && r[k].errors == "")
           && (answers[k].Some? ==> r[k].status == StatusFailed && r[k].errors == answers[k].value)
    decreases |ps|
  {
    if ps != [] {
      var n := |ps| - 1;
      ResultsFacts(rec, now, ps[..n], answers[..n], first);
    }
  }

  /** A whole batch: one item per row in all (the failures of the first pass and one per
      kept row), the ids numbered from `firstId` with no repeat. */
  lemma OneItemPerRow(debts: Table<string, string>, rec: string, now: int, batch: seq<Row>, firstId: nat, answers: seq<Option<string>>)
    requires |answers| == |Run(debts, rec, now, Start(firstId), batch).kept|
    ensures var p := Run(debts, rec, now, Start(firstId), batch); var res := Results(rec, now, p.kept, answers, p.next);
      |p.items| + |res| == |batch| && AllFailed(p.items) && p.next == firstId + |p.items|
      && forall i, j :: 0 <= i < j < |p.items + res| ==> (p.items + res)[i].modelId != (p.items + res)[j].modelId
  {
    RunFacts(debts, rec, now, Start(firstId), batch, firstId);
    var p := Run(debts, rec, now, Start(firstId), batch);
    ResultsFacts(rec, now, p.kept, answers, p.next);
    DistinctIds(p.items, Results(rec, now, p.kept, answers, p.next), firstId);
  }

  /** Once an INSERT of the batch fails, every later kept row is logged failed with that
      statement's error, and no later proceeding reaches the table. */
  lemma AfterFirstFailure(exec: Insert -> Option<string>, rec: string, now: int,
                          kept: seq<Pending>, stmts: seq<Insert>, first: nat, k: nat)
    requires |stmts| == |kept| && k < |kept| && BatchAnswers(exec, stmts)[k].Some?
    ensures var a := BatchAnswers(exec, stmts); var r := Results(rec, now, kept, a, first);
      |r| == |kept|
      && (forall j :: k <= j < |kept| ==> r[j].status == StatusFailed && r[j].errors == a[k].value)
      && Inserted(stmts, a) == Inserted(stmts[..k], a[..k])
  {
    var a := BatchAnswers(exec, stmts);
    BatchAnswersFacts(exec, stmts);
    ResultsFacts(rec, now, kept, a, first);
    BatchInsertedStops(exec, stmts, k);
  }

  /** `Results` grows by one item per answer. */
  lemma ResultsSnoc(rec: string, now: int, ps: seq<Pending>, answers: seq<Option<string>>, first: nat, i: nat)
    requires |answers| == |ps| && i < |ps|
    ensures Results(rec, now, ps[..i + 1], answers[..i + 1], first)
      == Results(rec, now, ps[..i], answers[..i], first) + [Outcome(rec, now, ps[i], answers[i], UuidText(first + i))]
  {
    assert ps[..i + 1][..i] == ps[..i] && answers[..i + 1][..i] == answers[..i];
  }

  // ---------------------------------------------------------------------------
  // The processor
  // ---------------------------------------------------------------------------

  /** `EnforcementProceedingsProcessor`: `proceedingsTable` and `debtsTable` are the
      configured table names (blank for the defaults); `debts` is the debts table by number,
      `exec` the answer of the database to each queued INSERT, `proceedings` the rows the
      proceedings table gained, `debtQueries` the numbers looked up and `sent` the
      statements queued. */
  class EnforcementProceedingsProcessor {
    const pgAvailable: bool
    const mongo: Mongo?
    const ids: IdSource
    const proceedingsTable: string
    const debtsTable: string
    const debts: Table<string, string>
    const exec: Insert -> Option<string>
    const parse: (string, string) -> Option<DateTime>
    var proceedings: seq<Proceeding>
    ghost var debtQueries: seq<string>
    ghost var sent: seq<Insert>

    constructor (pgAvailable: bool, mongo: Mongo?, ids: IdSource, proceedingsTable: string, debtsTable: string,
                 debts: Table<string, string>, exec: Insert -> Option<string>, parse: (string, string) -> Option<DateTime>)
      ensures this.pgAvailable == pgAvailable && this.mongo == mongo && this.ids == ids
      ensures this.proceedingsTable == proceedingsTable && this.debtsTable == debtsTable && this.debts == debts
      ensures this.exec == exec && this.parse == parse && proceedings == [] && debtQueries == [] && sent == []
    {
      this.pgAvailable := pgAvailable;
      this.mongo := mongo;
      this.ids := ids;
      this.proceedingsTable := proceedingsTable;
      this.debtsTable := debtsTable;
      this.debts := debts;
      this.exec := exec;
      this.parse := parse;
      proceedings := [];
      debtQueries := [];
      sent := [];
    }

    /** The table the INSERTs go to. */
    function Target(): (t: string)
      ensures t == if IsBlank(proceedingsTable) then "enforcement_proceedings" else proceedingsTable
    {
      FirstNonEmpty(proceedingsTable, "enforcement_proceedings")
    }

    /** The table the debts are looked up in (`debts` holds its rows). */
    function DebtsTarget(): (t: string)
      ensures t == if IsBlank(debtsTable) then "debts" else debtsTable
    {
      FirstNonEmpty(debtsTable, "debts")
    }

    /** `getDebtUUID` on the row's number, through the batch's cache. */
    method Screen(m: Row, cache0: map<string, Option<string>>) returns (v: Verdict, cache: map<string, Option<string>>)
      modifies this`debtQueries
      ensures var s := ScreenRow(debts, cache0, m);
        v == s.verdict && cache == s.cache && debtQueries == old(debtQueries) + s.queries
    {
      var debtNumber := TrimSpace(RemoveChar(Field(m, "debt_number"), ' '));
      cache := cache0;
      if debtNumber == "" {
        return Reject(MissingDebtNumber), cache;
      }
      var id: Option<string>, err: Option<string>;
      if debtNumber in cache {
        id, err := cache[debtNumber], None;
      } else {
        debtQueries := debtQueries + [debtNumber];
        var answer := Query(debts, debtNumber);
        if answer.Err? {
          cache := cache[debtNumber := None];
          id, err := None, Some(answer.error);
        } else {
          cache := cache[debtNumber := Some(answer.value)];
          id, err := Some(answer.value), None;
        }
      }
      if err.Some? || id.None? {
        return Reject(WithCause("debt not found: " + debtNumber, err)), cache;
      }
      v := Keep(id.value);
    }

    /** One row of the first pass. */
    method NextRow(rec: string, now: int, m: Row, cache0: map<string, Option<string>>, kept0: seq<Pending>,
                   ghost dq0: seq<string>, ghost items0: seq<Item>, ghost p: Pass)
      returns (cache: map<string, Option<string>>, kept: seq<Pending>, ghost p': Pass)
      requires ids.next == p.next && cache0 == p.cache && kept0 == p.kept && debtQueries == dq0 + p.queries
      requires mongo != null ==> mongo.items == items0 + Visible(mongo, p.items)
      modifies mongo, ids, this`debtQueries
      ensures p' == Advance(debts, rec, now, p, m)
      ensures ids.next == p'.next && cache == p'.cache && kept == p'.kept && debtQueries == dq0 + p'.queries
      ensures mongo != null ==> mongo.items == items0 + Visible(mongo, p'.items) && mongo.records == old(mongo.records)
    {
      var v;
      v, cache := Screen(m, cache0);
      ghost var s := ScreenRow(debts, p.cache, m);
      AppendAssoc(dq0, p.queries, s.queries);
      match v
      case Reject(msg) =>
        var id := ids.NewString();
        LogFail(mongo, rec, ModelType, id, m, msg, now);
        kept := kept0;
        ghost var item := Failed(rec, ModelType, id, m, msg, now);
        p' := Pass(cache, p.items + [item], p.kept, p.queries + s.queries, p.next + 1);
        if mongo != null {
          VisibleConcat(mongo, p.items, [item]);
          AppendAssoc(items0, Visible(mongo, p.items), Visible(mongo, [item]));
        }
      case Keep(debtId) =>
        kept := kept0 + [Pending(m, debtId)];
        p' := Pass(cache, p.items, kept, p.queries + s.queries, p.next);
    }

    /** The first pass over the batch. */
    method FirstPass(rec: string, batch: seq<Row>, now: int) returns (kept: seq<Pending>, ghost p: Pass)
      modifies mongo, ids, this`debtQueries
      ensures p == Run(debts, rec, now, Start(old(ids.next)), batch) && kept == p.kept && ids.next == p.next
      ensures debtQueries == old(debtQueries) + p.queries
      ensures mongo != null ==> mongo.items == old(mongo.items) + Visible(mongo, p.items) && mongo.records == old(mongo.records)
    {
      ghost var items0 := if mongo != null then mongo.items else [];
      ghost var p0 := Start(ids.next);
      p := p0;
      var cache: map<string, Option<string>> := map[];
      kept := [];
      var i := 0;
      assert batch[i..] == batch;
      while i < |batch|
        invariant 0 <= i <= |batch|
        invariant Run(debts, rec, now, p, batch[i..]) == Run(debts, rec, now, p0, batch)
        invariant ids.next == p.next && cache == p.cache && kept == p.kept && debtQueries == old(debtQueries) + p.queries
        invariant mongo != null ==> mongo.items == items0 + Visible(mongo, p.items) && mongo.records == old(mongo.records)
      {
        assert batch[i..][0] == batch[i] && batch[i..][1..] == batch[i + 1..];
        cache, kept, p := NextRow(rec, now, batch[i], cache, kept, old(debtQueries), items0, p);
        i := i + 1;
      }
    }

    /** One answer of the batch: the item of `p` under a fresh id, and the row when the
        statement succeeded. */
    method SendOne(rec: string, now: int, p: Pending, stmt: Insert, prev: Option<string>) returns (err: Option<string>, ghost item: Item)
      modifies mongo, ids, this`proceedings
      ensures err == BatchAnswer(exec, prev, stmt)
      ensures item == Outcome(rec, now, p, err, UuidText(old(ids.next))) && ids.next == old(ids.next) + 1
      ensures proceedings == old(proceedings) + (if err.None? then [stmt.row] else [])
      ensures mongo != null ==> mongo.items == old(mongo.items) + Visible(mongo, [item]) && mongo.records == old(mongo.records)
    {
      err := if prev.Some? then prev else exec(stmt);
      var id := ids.NewString();
      item := Outcome(rec, now, p, err, id);
      if err.Some? {
        LogFail(mongo, rec, ModelType, id, p.m, err.value, now);
      } else {
        Log(mongo, rec, ModelType, id, p.m, StatusDone, "", now);
        proceedings := proceedings + [stmt.row];
      }
    }

    /** The `i`-th answer of the batch, appended to what the first `i` answers did. */
    method SendNext(rec: string, now: int, kept: seq<Pending>, stmts: seq<Insert>, ghost answers: seq<Option<string>>,
                    ghost first: nat, i: nat, prev: Option<string>, ghost items0: seq<Item>, ghost rows0: seq<Proceeding>)
      returns (err: Option<string>)
      requires |stmts| == |kept| && answers == BatchAnswers(exec, stmts) && i < |kept| && ids.next == first + i
      requires prev == (if i == 0 then None else answers[i - 1])
      requires proceedings == rows0 + Inserted(stmts[..i], answers[..i])
      requires mongo != null ==> mongo.items == items0 + Visible(mongo, Results(rec, now, kept[..i], answers[..i], first))
      modifies mongo, ids, this`proceedings
      ensures ids.next == first + i + 1 && err == answers[i]
      ensures proceedings == rows0 + Inserted(stmts[..i + 1], answers[..i + 1])
      ensures mongo != null ==>
        mongo.items == items0 + Visible(mongo, Results(rec, now, kept[..i + 1], answers[..i + 1], first))
        && mongo.records == old(mongo.records)
    {
      ghost var done := Results(rec, now, kept[..i], answers[..i], first);
      ghost var ins := Inserted(stmts[..i], answers[..i]);
      BatchAnswersAt(exec, stmts, i);
      ResultsSnoc(rec, now, kept, answers, first, i);
      InsertedSnoc(stmts, answers, i);
      AppendAssoc(rows0, ins, if answers[i].None? then [stmts[i].row] else []);
      ghost var item: Item;
      err, item := SendOne(rec, now, kept[i], stmts[i], prev);
      assert err == answers[i];
      if mongo != null {
        VisibleConcat(mongo, done, [item]);
        AppendAssoc(items0, Visible(mongo, done), Visible(mongo, [item]));
      }
    }

    /** The answers to `stmts`, read in order: each logs its row under a fresh id, and a
        successful one adds its row to the table. */
    method SendAll(rec: string, now: int, kept: seq<Pending>, stmts: seq<Insert>, ghost answers: seq<Option<string>>)
      requires |stmts| == |kept| && answers == BatchAnswers(exec, stmts)
      modifies mongo, ids, this`proceedings
      ensures proceedings == old(proceedings) + Inserted(stmts, answers) && ids.next == old(ids.next) + |kept|
      ensures mongo != null ==>
        mongo.items == old(mongo.items) + Visible(mongo, Results(rec, now, kept, answers, old(ids.next)))
        && mongo.records == old(mongo.records)
    {
      ghost var first := ids.next;
      ghost var items0 := if mongo != null then mongo.items else [];
      ghost var rows0 := proceedings;
      var i := 0;
      var prev: Option<string> := None;
      assert kept[..0] == [] && stmts[..0] == [] && answers[..0] == [];
      assert Results(rec, now, kept[..0], answers[..0], first) == [] && Inserted(stmts[..0], answers[..0]) == [];
      while i < |kept|
        invariant 0 <= i <= |kept| && ids.next == first + i
        invariant i == 0 ==> prev.None?
        invariant i > 0 ==> prev == answers[i - 1]
        invariant proceedings == rows0 + Inserted(stmts[..i], answers[..i])
        invariant mongo != null ==>
          mongo.items == items0 + Visible(mongo, Results(rec, now, kept[..i], answers[..i], first))
          && mongo.records == old(mongo.records)
      {
        prev := SendNext(rec, now, kept, stmts, answers, first, i, prev, items0, rows0);
        i := i + 1;
      }
      assert kept[..|kept|] == kept;
      assert answers[..|kept|] == answers;
      assert stmts[..|kept|] == stmts;
    }

    /** The batch of INSERTs for the kept rows, sent at once, and its answers. */
    method SendBatch(rec: string, now: int, kept: seq<Pending>)
      modifies mongo, ids, this`proceedings, this`sent
      ensures var stmts := Statements(Target(), kept, parse, now); var answers := BatchAnswers(exec, stmts);
        sent == old(sent) + stmts && proceedings == old(proceedings) + Inserted(stmts, answers)
        && ids.next == old(ids.next) + |kept|
        && (mongo != null ==> mongo.items == old(mongo.items) + Visible(mongo, Results(rec, now, kept, answers, old(ids.next)))
                              && mongo.records == old(mongo.records))
    {
      var stmts := Statements(Target(), kept, parse, now);
      SendAll(rec, now, kept, stmts, BatchAnswers(exec, stmts));
      sent := sent + stmts;
    }

    /** `ProcessBatch`: after the dependency check, the first pass; with no kept row the
        call ends there, without touching the import record; otherwise the batch of
        INSERTs, one item per answer, and the import record marked done. */
    method ProcessBatch(ctxValue: Option<string>, batch: seq<Row>, now: int) returns (err: Option<string>)
      modifies mongo, ids, this`proceedings, this`debtQueries, this`sent
      ensures var deps := CheckDeps(pgAvailable, mongo);
        deps.Some? ==>
          (err == deps && ids.next == old(ids.next) && proceedings == old(proceedings) && sent == old(sent)
           && debtQueries == old(debtQueries)
           && (mongo != null ==> mongo.items == old(mongo.items) && mongo.records == old(mongo.records)))
      ensures var deps := CheckDeps(pgAvailable, mongo);
        var rec := RecordIdOf(ctxValue);
        var p := Run(debts, rec, now, Start(old(ids.next)), batch);
        var stmts := Statements(Target(), p.kept, parse, now); var answers := BatchAnswers(exec, stmts);
        deps.None? ==>
          (err.None? && mongo != null && debtQueries == old(debtQueries) + p.queries
           && (p.kept == [] ==>
                 ids.next == p.next && proceedings == old(proceedings) && sent == old(sent)
                 && mongo.items == old(mongo.items) + Visible(mongo, p.items) && mongo.records == old(mongo.records))
           && (p.kept != [] ==>
                 ids.next == p.next + |p.kept| && sent == old(sent) + stmts
                 && proceedings == old(proceedings) + Inserted(stmts, answers)
                 && mongo.items == old(mongo.items) + Visible(mongo, p.items) + Visible(mongo, Results(rec, now, p.kept, answers, p.next))
                 && mongo.records == (var u := StatusUpdate(true, mongo.updateFaults, old(mongo.records), rec, StatusDone, now);
                                      if u.Ok? then u.value else old(mongo.records))))
    {
      var deps := CheckDeps(pgAvailable, mongo);
      if deps.Some? {
        return deps;
      }
      var rec := RecordIdOf(ctxValue);
      var kept;
      ghost var p;
      kept, p := FirstPass(rec, batch, now);
      if |kept| == 0 {
        return None;
      }
      SendBatch(rec, now, kept);
      var _ := UpdateImportRecordStatusDone(mongo, rec, now);
      err := None;
    }
  }
}
