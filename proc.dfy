/** What every row processor shares: the dependency check, the import record id taken
    from the request context, and the audit item a log call writes. */
module Proc {
  import opened Wrappers
  import opened Text
  import opened Ports
  import opened Ledger
  import opened Helpers

  /** `CheckDeps`: Postgres must have a pool, and Mongo a database. */
  function CheckDeps(pgAvailable: bool, m: Mongo?): (r: Option<string>)
    ensures r.None? <==> pgAvailable && Connected(m)
    ensures !pgAvailable ==> r == Some("postgres not available")
    ensures pgAvailable && !Connected(m) ==> r == Some("mongo not available")
  {
    if !pgAvailable then Some("postgres not available")
    else if !Connected(m) then Some("mongo not available")
    else None
  }

  /** The import record id: the context value, trimmed, when it is a string; "" otherwise. */
  function RecordIdOf(ctxValue: Option<string>): string {
    if ctxValue.Some? then TrimSpace(ctxValue.value) else ""
  }

  /** The audit item one log call writes at time `now`. */
  function LogItem(recordId: string, modelType: string, modelId: string, payload: Row,
                   status: string, errors: string, now: int): (r: Item)
    ensures r == Entry(LogParams(recordId, modelType, modelId, payload, status, errors), now)
  {
    Item(recordId, modelType, modelId, payload, status, errors, now, now)
  }

  /** Shorthands for the two kinds of item. */
  function Failed(recordId: string, modelType: string, modelId: string, payload: Row, errors: string, now: int): Item {
    LogItem(recordId, modelType, modelId, payload, StatusFailed, errors, now)
  }

  function Done(recordId: string, modelType: string, modelId: string, payload: Row, warnings: string, now: int): Item {
    LogItem(recordId, modelType, modelId, payload, StatusDone, warnings, now)
  }

  /** `logMongo` in the processors package: the same write as `LogMongo` on the import items
      repository, taking the fields one by one. */
  method Log(m: Mongo?, recordId: string, modelType: string, modelId: string, payload: Row,
             status: string, errors: string, now: int)
    modifies m
    ensures m != null ==> m.records == old(m.records)
    ensures m != null ==> m.items == old(m.items) + Visible(m, [LogItem(recordId, modelType, modelId, payload, status, errors, now)])
  {
    LogMongo(m, LogParams(recordId, modelType, modelId, payload, status, errors), now);
  }

  /** `logMongoFail`. */
  method LogFail(m: Mongo?, recordId: string, modelType: string, modelId: string, payload: Row,
                 errors: string, now: int)
    modifies m
    ensures m != null ==> m.records == old(m.records)
    ensures m != null ==> m.items == old(m.items) + Visible(m, [Failed(recordId, modelType, modelId, payload, errors, now)])
  {
    Log(m, recordId, modelType, modelId, payload, StatusFailed, errors, now);
  }

  /** `strings.TrimSpace(m[key])`, the way the processors read a cell. */
  function Trimmed(m: Row, key: string): string {
    TrimSpace(Field(m, key))
  }

  /** A not-found message, with the lookup error in parentheses when there was one. */
  function WithCause(msg: string, err: Option<string>): (r: string)
    ensures err.None? ==> r == msg
    ensures err.Some? ==> r == msg + " (" + err.value + ")"
  {
    if err.Some? then msg + " (" + err.value + ")" else msg
  }

  /** `strings.Join(warnings, "; ")`. */
  function JoinWarnings(ws: seq<string>): string {
    Join(ws, "; ")
  }

  /** Visible distributes over concatenation. */
  lemma VisibleConcat(m: Mongo?, a: seq<Item>, b: seq<Item>)
    ensures Visible(m, a + b) == Visible(m, a) + Visible(m, b)
  {
    if m != null && m.Reaches() {
      AcceptedConcat(m.insertFaults, a, b);
    }
  }

  /** `items` hold one item per row of `rows`, in order, under consecutive ids from `next`. */
  predicate Tagged(items: seq<Item>, rows: seq<Row>, next: nat) {
    |items| == |rows|
    && forall k :: 0 <= k < |items| ==> items[k].modelId == UuidText(next + k) && items[k].payload == rows[k]
  }

  lemma TaggedCons(item: Item, items: seq<Item>, m: Row, rows: seq<Row>, next: nat)
    requires item.modelId == UuidText(next) && item.payload == m && Tagged(items, rows, next + 1)
    ensures Tagged([item] + items, [m] + rows, next)
  {
    forall k | 1 <= k < |items| + 1
      ensures ([item] + items)[k].modelId == UuidText(next + k) && ([item] + items)[k].payload == ([m] + rows)[k]
    {
      assert ([item] + items)[k] == items[k - 1] && ([m] + rows)[k] == rows[k - 1];
      assert next + 1 + (k - 1) == next + k;
    }
  }

  /** One loop step on the items: `b` is `a` and the item of `rows[0]`, and `c` extends `b`
      with the items of the other rows. */
  lemma ItemsCons(a: seq<Item>, b: seq<Item>, c: seq<Item>, rows: seq<Row>, next: nat)
    requires rows != [] && |b| == |a| + 1 && b[..|a|] == a
    requires b[|a|].modelId == UuidText(next) && b[|a|].payload == rows[0]
    requires |c| == |b| + |rows| - 1 && c[..|b|] == b && Tagged(c[|b|..], rows[1..], next + 1)
    ensures |c| == |a| + |rows| && c[..|a|] == a && Tagged(c[|a|..], rows, next)
  {
    assert c[|a|..] == [b[|a|]] + c[|b|..];
    TaggedCons(b[|a|], c[|b|..], rows[0], rows[1..], next);
    assert [rows[0]] + rows[1..] == rows;
  }

  /** The number of done items (the `success` counter of the processors that keep one). */
  function CountDone(items: seq<Item>): (n: nat)
    ensures n <= |items|
  {
    if items == [] then 0 else (if items[0].status == StatusDone then 1 else 0) + CountDone(items[1..])
  }

  lemma {:induction false} CountDoneAppend(a: seq<Item>, b: seq<Item>)
    ensures CountDone(a + b) == CountDone(a) + CountDone(b)
    decreases |a|
  {
    if a == [] {
      assert a + b == b;
    } else {
      assert (a + b)[0] == a[0] && (a + b)[1..] == a[1..] + b;
      CountDoneAppend(a[1..], b);
    }
  }

  /** One INSERT of a processor's batch: the table and the row it adds. */
  datatype RowInsert<T> = RowInsert(table: string, row: T)

  /** The rows the table gains: those whose statement succeeded, in order. */
  function Inserted<T>(stmts: seq<RowInsert<T>>, answers: seq<Option<string>>): seq<T>
    requires |answers| == |stmts|
    decreases |stmts|
  {
    if stmts == [] then []
    else
      var n := |stmts| - 1;
      Inserted(stmts[..n], answers[..n]) + (if answers[n].None? then [stmts[n].row] else [])
  }

  /** The table gains the row of every statement that succeeded, and no more rows than
      there were statements. */
  lemma {:induction false} InsertedSucceeded<T>(stmts: seq<RowInsert<T>>, answers: seq<Option<string>>)
    requires |answers| == |stmts|
    ensures var r := Inserted(stmts, answers);
      |r| <= |stmts| && forall k :: 0 <= k < |stmts| && answers[k].None? ==> stmts[k].row in r
    decreases |stmts|
  {
    if stmts != [] {
      var n := |stmts| - 1;
      InsertedSucceeded(stmts[..n], answers[..n]);
      var r := Inserted(stmts, answers);
      forall k | 0 <= k < |stmts| && answers[k].None?
        ensures stmts[k].row in r
      {
        if k < n {
          assert answers[..n][k] == answers[k] && stmts[..n][k] == stmts[k];
        }
      }
    }
  }

  /** Every row the table gains is that of a statement that succeeded. */
  lemma {:induction false} InsertedOnlySucceeded<T>(stmts: seq<RowInsert<T>>, answers: seq<Option<string>>)
    requires |answers| == |stmts|
    ensures forall x :: x in Inserted(stmts, answers) ==>
      exists k :: 0 <= k < |stmts| && answers[k].None? && stmts[k].row == x
    decreases |stmts|
  {
    if stmts != [] {
      var n := |stmts| - 1;
      InsertedOnlySucceeded(stmts[..n], answers[..n]);
      var r0 := Inserted(stmts[..n], answers[..n]);
      forall x | x in Inserted(stmts, answers)
        ensures exists k :: 0 <= k < |stmts| && answers[k].None? && stmts[k].row == x
      {
        if x in r0 {
          var k :| 0 <= k < n && answers[..n][k].None? && stmts[..n][k].row == x;
          assert answers[k].None? && stmts[k].row == x;
        } else {
          assert answers[n].None? && stmts[n].row == x;
        }
      }
    }
  }

  /** When every statement succeeds the table gains all the rows, in order. */
  lemma {:induction false} InsertedAll<T>(stmts: seq<RowInsert<T>>, answers: seq<Option<string>>)
    requires |answers| == |stmts| && forall k :: 0 <= k < |answers| ==> answers[k].None?
    ensures Inserted(stmts, answers) == Each((s: RowInsert<T>) => s.row, stmts)
    decreases |stmts|
  {
    if stmts != [] {
      var n := |stmts| - 1;
      assert forall k :: 0 <= k < n ==> answers[..n][k] == answers[k];
      InsertedAll(stmts[..n], answers[..n]);
      EachAppend((s: RowInsert<T>) => s.row, stmts[..n], [stmts[n]]);
      assert stmts[..n] + [stmts[n]] == stmts;
    }
  }

  /** `Inserted` grows by the row of each successful statement. */
  lemma InsertedSnoc<T>(stmts: seq<RowInsert<T>>, answers: seq<Option<string>>, i: nat)
    requires |answers| == |stmts| && i < |stmts|
    ensures Inserted(stmts[..i + 1], answers[..i + 1])
      == Inserted(stmts[..i], answers[..i]) + (if answers[i].None? then [stmts[i].row] else [])
  {
    assert stmts[..i + 1][..i] == stmts[..i] && answers[..i + 1][..i] == answers[..i];
  }

  /** What `br.Exec()` answers for the next statement of a pgx batch, given the answer to
      the one before: a batch runs in one implicit transaction, so once a statement has
      failed the server skips the rest and every later call returns that same error. */
  function BatchAnswer<T>(exec: RowInsert<T> -> Option<string>, prev: Option<string>, stmt: RowInsert<T>): Option<string> {
    if prev.Some? then prev else exec(stmt)
  }

  /** The answers `br.Exec()` gives, in order, to the statements of one `SendBatch`. */
  function BatchAnswers<T>(exec: RowInsert<T> -> Option<string>, stmts: seq<RowInsert<T>>): (r: seq<Option<string>>)
    ensures |r| == |stmts|
    decreases |stmts|
  {
    if stmts == [] then []
    else
      var n := |stmts| - 1;
      var prev := BatchAnswers(exec, stmts[..n]);
      prev + [BatchAnswer(exec, if n == 0 then None else prev[n - 1], stmts[n])]
  }

  /** The answers to a prefix of the batch are a prefix of the answers. */
  lemma {:induction false} BatchAnswersPrefix<T>(exec: RowInsert<T> -> Option<string>, stmts: seq<RowInsert<T>>, m: nat)
    requires m <= |stmts|
    ensures BatchAnswers(exec, stmts[..m]) == BatchAnswers(exec, stmts)[..m]
    decreases |stmts|
  {
    if m < |stmts| {
      var n := |stmts| - 1;
      BatchAnswersPrefix(exec, stmts[..n], m);
      assert stmts[..n][..m] == stmts[..m];
    } else {
      assert stmts[..m] == stmts;
    }
  }

  /** The `i`-th answer follows from the one before it. */
  lemma BatchAnswersAt<T>(exec: RowInsert<T> -> Option<string>, stmts: seq<RowInsert<T>>, i: nat)
    requires i < |stmts|
    ensures var r := BatchAnswers(exec, stmts);
      r[i] == BatchAnswer(exec, if i == 0 then None else r[i - 1], stmts[i])
  {
    BatchAnswersPrefix(exec, stmts, i + 1);
    BatchAnswersPrefix(exec, stmts, i);
    assert stmts[..i + 1][..i] == stmts[..i];
  }

  /** The answers of a batch: up to the first failure each statement answers for itself,
      and from the first failure on every answer is that failure's error. */
  lemma {:induction false} BatchAnswersFacts<T>(exec: RowInsert<T> -> Option<string>, stmts: seq<RowInsert<T>>)
    ensures var r := BatchAnswers(exec, stmts);
      (forall k :: 0 <= k < |r| && (forall j :: 0 <= j < k ==> r[j].None?) ==> r[k] == exec(stmts[k]))
      && (forall k, j :: 0 <= k <= j < |r| && r[k].Some? ==> r[j] == r[k])
  {
    var r := BatchAnswers(exec, stmts);
    forall k | 0 <= k < |r| && (forall j :: 0 <= j < k ==> r[j].None?)
      ensures r[k] == exec(stmts[k])
    {
      BatchAnswersAt(exec, stmts, k);
      if k > 0 {
        assert r[k - 1].None?;
      }
    }
    forall k, j | 0 <= k <= j < |r| && r[k].Some?
      ensures r[j] == r[k]
    {
      var i := k;
      while i < j
        invariant k <= i <= j && r[i] == r[k]
      {
        BatchAnswersAt(exec, stmts, i + 1);
        i := i + 1;
      }
    }
  }

  /** Nothing after the first failing statement of a batch reaches the table. */
  lemma {:induction false} BatchInsertedStops<T>(exec: RowInsert<T> -> Option<string>, stmts: seq<RowInsert<T>>, k: nat)
    requires k < |stmts| && BatchAnswers(exec, stmts)[k].Some?
    ensures Inserted(stmts, BatchAnswers(exec, stmts)) == Inserted(stmts[..k], BatchAnswers(exec, stmts)[..k])
  {
    var a := BatchAnswers(exec, stmts);
    BatchAnswersFacts(exec, stmts);
    assert forall j :: k <= j < |a| ==> a[j].Some? by {
      forall j | k <= j < |a| ensures a[j].Some? { assert a[j] == a[k]; }
    }
    InsertedFailedTail(stmts, a, k);
  }

  /** Statements that all failed add nothing to the table. */
  lemma {:induction false} InsertedFailedTail<T>(stmts: seq<RowInsert<T>>, answers: seq<Option<string>>, k: nat)
    requires |answers| == |stmts| && k <= |stmts|
    requires forall j :: k <= j < |answers| ==> answers[j].Some?
    ensures Inserted(stmts, answers) == Inserted(stmts[..k], answers[..k])
    decreases |stmts|
  {
    if k < |stmts| {
      var n := |stmts| - 1;
      InsertedFailedTail(stmts[..n], answers[..n], k);
      assert stmts[..n][..k] == stmts[..k] && answers[..n][..k] == answers[..k];
    } else {
      assert stmts[..k] == stmts && answers[..k] == answers;
    }
  }

  /** The items carry the ids drawn from `first` on, with no gap. */
  predicate Numbered(items: seq<Item>, first: nat) {
    forall k :: 0 <= k < |items| ==> items[k].modelId == UuidText(first + k)
  }

  /** Every item is a failure. */
  predicate AllFailed(items: seq<Item>) {
    forall k :: 0 <= k < |items| ==> items[k].status == StatusFailed
  }

  /** The ids of a batch's items: the failures of the first pass from `firstId`, then the
      answers from where the first pass stopped, so no two items share an id. */
  lemma DistinctIds(items: seq<Item>, results: seq<Item>, firstId: nat)
    requires Numbered(items, firstId) && Numbered(results, firstId + |items|)
    ensures forall i, j :: 0 <= i < j < |items + results| ==> (items + results)[i].modelId != (items + results)[j].modelId
  {
    var all := items + results;
    forall i, j | 0 <= i < j < |all|
      ensures all[i].modelId != all[j].modelId
    {
      assert all[i].modelId == UuidText(firstId + i);
      assert all[j].modelId == UuidText(firstId + j);
      UuidTextInjective(firstId + i, firstId + j);
    }
  }
}
