/** `UpdateDebtsProcessor`: each row names a debt by number and carries the columns to
    change. The SET list is built column by column in a fixed order, the placeholders
    numbered as the values are appended, and one UPDATE is executed per row. Every row
    logs one audit item (model id "", model type the debts table), and the import record
    is marked done after every batch. */
module UpdateDebts {
  import opened Wrappers
  import opened Text
  import opened Ports
  import opened Ledger
  import opened Proc
  import opened Helpers

  const MissingDebtNumber := "missing debt_number"
  const NoUpdatableFields := "no updatable fields found"

  /** The columns an update may set, in the order the SET list takes them. */
  datatype Column = StatusId | EndDate | AmountActualDebt | AmountMainDebt | AmountFine
                  | AmountAccrual | UserId | CounterpartyId | Currency

  const Columns: seq<Column> := [StatusId, EndDate, AmountActualDebt, AmountMainDebt, AmountFine,
                                 AmountAccrual, UserId, CounterpartyId, Currency]

  /** The position of a column in `Columns`. */
  function Rank(c: Column): nat {
    match c
    case StatusId => 0
    case EndDate => 1
    case AmountActualDebt => 2
    case AmountMainDebt => 3
    case AmountFine => 4
    case AmountAccrual => 5
    case UserId => 6
    case CounterpartyId => 7
    case Currency => 8
  }

  /** The cell a column is read from. */
  function Key(c: Column): string {
    match c
    case StatusId => "debt_status"
    case EndDate => "debt_end_date"
    case AmountActualDebt => "debt_amount_actual_debt"
    case AmountMainDebt => "debt_amount_main_debt"
    case AmountFine => "debt_amount_fine"
    case AmountAccrual => "debt_amount_accrual"
    case UserId => "debt_username"
    case CounterpartyId => "debt_counterparty"
    case Currency => "debt_currency"
  }

  /** The column's name in the debts table. */
  function Name(c: Column): string {
    match c
    case StatusId => "status_id"
    case EndDate => "end_date"
    case AmountActualDebt => "amount_actual_debt"
    case AmountMainDebt => "amount_main_debt"
    case AmountFine => "amount_fine"
    case AmountAccrual => "amount_accrual"
    case UserId => "user_id"
    case CounterpartyId => "counterparty_id"
    case Currency => "currency"
  }

  /** A statement argument: a text value, a date or NULL, or a timestamp. */
  datatype Arg = Text(s: string) | Date(d: Option<DateTime>) | Timestamp(t: int)

  /** One `column=$n` of the SET list with the value bound to it. */
  datatype Assign = Assign(col: Column, val: Arg)

  /** What the row sets for column `c`, if anything: nothing for a blank cell, nor for a
      user or counterparty that `isUuid` (`uuid.Parse`) rejects; the end date is its strict
      parse, NULL when that fails; amounts are normalised; the rest is the trimmed text. */
  function Applied(m: Row, c: Column, parse: (string, string) -> Option<DateTime>, isUuid: string -> bool): Option<Arg> {
    var v := Trimmed(m, Key(c));
    if v == "" then None
    else match c
      case EndDate => Some(Date(ParseDateStrict(v, parse)))
      case AmountActualDebt => Some(Text(NormalizeAmount(v)))
      case AmountMainDebt => Some(Text(NormalizeAmount(v)))
      case AmountFine => Some(Text(NormalizeAmount(v)))
      case AmountAccrual => Some(Text(NormalizeAmount(v)))
      case UserId => if isUuid(v) then Some(Text(v)) else None
      case CounterpartyId => if isUuid(v) then Some(Text(v)) else None
      case _ => Some(Text(v))
  }

  /** `Applied` for the cells of row `m`. */
  function AppliedOf(m: Row, parse: (string, string) -> Option<DateTime>, isUuid: string -> bool): Column -> Option<Arg> {
    c => Applied(m, c, parse, isUuid)
  }

  /** The assignments `app` gives the columns `cols`, in their order. */
  function Assignments(app: Column -> Option<Arg>, cols: seq<Column>): (r: seq<Assign>)
    ensures |r| <= |cols|
    decreases |cols|
  {
    if cols == [] then []
    else
      var n := |cols| - 1;
      var a := app(cols[n]);
      Assignments(app, cols[..n]) + (if a.Some? then [Assign(cols[n], a.value)] else [])
  }

  /** The SET fragments of `asg`: the `j`-th binds placeholder `$(j+1)`. */
  function SetParts(asg: seq<Assign>): (r: seq<string>)
    ensures |r| == |asg|
    decreases |asg|
  {
    if asg == [] then []
    else
      var n := |asg| - 1;
      SetParts(asg[..n]) + [Name(asg[n].col) + "=$" + NatToString(n + 1)]
  }

  /** The values of `asg`, in order. */
  function ArgsOf(asg: seq<Assign>): (r: seq<Arg>)
    ensures |r| == |asg|
  {
    Each((a: Assign) => a.val, asg)
  }

  /** A statement: the query text and its arguments. */
  datatype Stmt = Stmt(query: string, args: seq<Arg>)

  /** The UPDATE of a row: the SET list, then `updated_at` and the WHERE number on the two
      placeholders after it. */
  function StatementOf(table: string, asg: seq<Assign>, now: int, debtNumber: string): Stmt {
    var k := |asg|;
    Stmt("UPDATE " + table + " SET " + Join(SetParts(asg), ", ")
         + ", updated_at=$" + NatToString(k + 1) + " WHERE number=$" + NatToString(k + 2),
         ArgsOf(asg) + [Timestamp(now), Text(debtNumber)])
  }

  /** The debt number of a row: every space removed, then trimmed. */
  function DebtNumberOf(m: Row): string {
    TrimSpace(RemoveChar(Field(m, "debt_number"), ' '))
  }

  /** What a row comes to before the database is asked: a failure, or the UPDATE to run. */
  datatype Plan = Skip(msg: string) | Send(stmt: Stmt, debtNumber: string)

  /** The parts of the processor a row depends on. */
  datatype Env = Env(table: string, parse: (string, string) -> Option<DateTime>, isUuid: string -> bool,
                     exec: Stmt -> Result<nat>)

  function PlanOf(env: Env, m: Row, now: int): Plan {
    var dn := DebtNumberOf(m);
    if dn == "" then Skip(MissingDebtNumber)
    else
      var asg := Assignments(AppliedOf(m, env.parse, env.isUuid), Columns);
      if asg == [] then Skip(NoUpdatableFields) else Send(StatementOf(env.table, asg, now, dn), dn)
  }

  /** The item a row logs once the plan is carried out: the failure of the plan; the exec
      error; "debt not found: N" when no row was affected; done otherwise. */
  function ItemOf(env: Env, rec: string, now: int, m: Row, plan: Plan): Item {
    match plan
    case Skip(msg) => Failed(rec, env.table, "", m, msg, now)
    case Send(s, dn) =>
      var answer := env.exec(s);
      if answer.Err? then Failed(rec, env.table, "", m, answer.error, now)
      else if answer.value == 0 then Failed(rec, env.table, "", m, "debt not found: " + dn, now)
      else Done(rec, env.table, "", m, "", now)
  }

  /** The item of a row, and the plan of a row, as function values. */
  function Step(env: Env, rec: string, now: int): Row -> Item {
    m => ItemOf(env, rec, now, m, PlanOf(env, m, now))
  }

  function Planner(env: Env, now: int): Row -> Plan {
    m => PlanOf(env, m, now)
  }

  /** The items of a batch, one per row. */
  function Items(step: Row -> Item, rows: seq<Row>): (r: seq<Item>)
    ensures |r| == |rows|
    decreases |rows|
  {
    if rows == [] then []
    else
      var n := |rows| - 1;
      Items(step, rows[..n]) + [step(rows[n])]
  }

  /** The statements a batch executes, in row order. */
  function Sent(plan: Row -> Plan, rows: seq<Row>): seq<Stmt>
    decreases |rows|
  {
    if rows == [] then []
    else
      var n := |rows| - 1;
      var p := plan(rows[n]);
      Sent(plan, rows[..n]) + (if p.Send? then [p.stmt] else [])
  }

  // ---------------------------------------------------------------------------
  // Properties
  // ---------------------------------------------------------------------------

  /** `Applied` column by column: nothing for a blank cell; an invalid user or counterparty
      is dropped without a failure; a non-blank end date always sets `end_date`, to NULL
      when it does not parse. */
  lemma AppliedFacts(m: Row, c: Column, parse: (string, string) -> Option<DateTime>, isUuid: string -> bool)
    ensures var v := Trimmed(m, Key(c)); var a := Applied(m, c, parse, isUuid);
      (v == "" ==> a.None?)
      && ((c == UserId || c == CounterpartyId) ==> (a.Some? <==> v != "" && isUuid(v)) && (a.Some? ==> a.value == Text(v)))
      && (c == EndDate && v != "" ==> a == Some(Date(ParseDateStrict(v, parse))))
      && (c == EndDate && v != "" && ParseDateStrict(v, parse).None? ==> a == Some(Date(None)))
      && (c != UserId && c != CounterpartyId ==> (a.Some? <==> v != ""))
  {
  }

  /** Columns ranked below `r` give assignments ranked below `r`. */
  lemma {:induction false} AssignmentsBelow(app: Column -> Option<Arg>, cols: seq<Column>, r: nat)
    requires forall i :: 0 <= i < |cols| ==> Rank(cols[i]) < r
    ensures forall i :: 0 <= i < |Assignments(app, cols)| ==> Rank(Assignments(app, cols)[i].col) < r
    decreases |cols|
  {
    if cols != [] {
      var n := |cols| - 1;
      assert forall i :: 0 <= i < n ==> cols[..n][i] == cols[i];
      AssignmentsBelow(app, cols[..n], r);
      var asg0 := Assignments(app, cols[..n]);
      var asg := Assignments(app, cols);
      var a := app(cols[n]);
      assert asg == asg0 + (if a.Some? then [Assign(cols[n], a.value)] else []);
      assert Rank(cols[n]) < r;
      forall i | 0 <= i < |asg|
        ensures Rank(asg[i].col) < r
      {
        if i < |asg0| {
          assert asg[i] == asg0[i];
          assert Rank(asg0[i].col) < r;
        } else {
          assert asg[i] == Assign(cols[n], a.value);
          assert asg[i].col == cols[n];
        }
      }
    }
  }

  /** The assignments follow the order of the columns, with no column twice. */
  lemma {:induction false} AssignmentsOrdered(app: Column -> Option<Arg>, cols: seq<Column>)
    requires forall i, j :: 0 <= i < j < |cols| ==> Rank(cols[i]) < Rank(cols[j])
    ensures forall i, j :: 0 <= i < j < |Assignments(app, cols)| ==>
      Rank(Assignments(app, cols)[i].col) < Rank(Assignments(app, cols)[j].col)
    decreases |cols|
  {
    if cols != [] {
      var n := |cols| - 1;
      assert forall i, j :: 0 <= i < j < n ==> cols[..n][i] == cols[i] && cols[..n][j] == cols[j];
      AssignmentsOrdered(app, cols[..n]);
      AssignmentsBelow(app, cols[..n], Rank(cols[n]));
      var asg0 := Assignments(app, cols[..n]);
      var asg := Assignments(app, cols);
      var a := app(cols[n]);
      assert asg == asg0 + (if a.Some? then [Assign(cols[n], a.value)] else []);
      forall i, j | 0 <= i < j < |asg|
        ensures Rank(asg[i].col) < Rank(asg[j].col)
      {
        assert asg[i] == asg0[i];
        if j < |asg0| {
          assert asg[j] == asg0[j];
        } else {
          assert asg[j].col == cols[n];
        }
      }
    }
  }

  /** Every assignment is of one of the columns, with the value `app` gives it. */
  lemma {:induction false} AssignmentsFrom(app: Column -> Option<Arg>, cols: seq<Column>)
    ensures forall a :: a in Assignments(app, cols) ==> a.col in cols && app(a.col) == Some(a.val)
    decreases |cols|
  {
    if cols != [] {
      var n := |cols| - 1;
      AssignmentsFrom(app, cols[..n]);
      assert forall c :: c in cols[..n] ==> c in cols;
    }
  }

  /** Every column `app` gives a value appears among the assignments, with that value. */
  lemma {:induction false} AssignmentsPresent(app: Column -> Option<Arg>, cols: seq<Column>, c: Column)
    requires c in cols && app(c).Some?
    ensures Assign(c, app(c).value) in Assignments(app, cols)
    decreases |cols|
  {
    var n := |cols| - 1;
    if c != cols[n] {
      assert c in cols[..n];
      AssignmentsPresent(app, cols[..n], c);
    }
  }

  /** The SET list of a row: in the fixed column order, each column at most once, and a
      column is there, with the value `Applied` gives, exactly when `Applied` gives one. */
  lemma RowAssignments(m: Row, parse: (string, string) -> Option<DateTime>, isUuid: string -> bool)
    ensures var asg := Assignments(AppliedOf(m, parse, isUuid), Columns);
      (forall i, j :: 0 <= i < j < |asg| ==> Rank(asg[i].col) < Rank(asg[j].col))
      && (forall a :: a in asg ==> Applied(m, a.col, parse, isUuid) == Some(a.val))
      && (forall c :: Applied(m, c, parse, isUuid).Some? ==> Assign(c, Applied(m, c, parse, isUuid).value) in asg)
  {
    var app := AppliedOf(m, parse, isUuid);
    AssignmentsOrdered(app, Columns);
    AssignmentsFrom(app, Columns);
    forall c | Applied(m, c, parse, isUuid).Some?
      ensures Assign(c, Applied(m, c, parse, isUuid).value) in Assignments(app, Columns)
    {
      assert Columns[Rank(c)] == c;
      AssignmentsPresent(app, Columns, c);
    }
  }

  /** Placeholders and arguments agree: the `j`-th SET fragment names the `j`-th column on
      `$(j+1)` and `args[j]` is its value; `updated_at` takes `$(k+1)` and the time, the
      WHERE number `$(k+2)` and the debt number, and there are exactly `k + 2` arguments. */
  lemma {:induction false} StatementFacts(table: string, asg: seq<Assign>, now: int, debtNumber: string)
    ensures var s := StatementOf(table, asg, now, debtNumber); var k := |asg|; var parts := SetParts(asg);
      |s.args| == k + 2
      && s.query == "UPDATE " + table + " SET " + Join(parts, ", ") + ", updated_at=$" + NatToString(k + 1)
                    + " WHERE number=$" + NatToString(k + 2)
      && (forall j :: 0 <= j < k ==> parts[j] == Name(asg[j].col) + "=$" + NatToString(j + 1) && s.args[j] == asg[j].val)
      && s.args[k] == Timestamp(now) && s.args[k + 1] == Text(debtNumber)
    decreases |asg|
  {
    if asg != [] {
      var n := |asg| - 1;
      StatementFacts(table, asg[..n], now, debtNumber);
      var parts := SetParts(asg);
      forall j | 0 <= j < n
        ensures parts[j] == Name(asg[j].col) + "=$" + NatToString(j + 1)
      {
        assert parts[j] == SetParts(asg[..n])[j];
        assert asg[..n][j] == asg[j];
      }
    }
  }

  /** The row is refused before any SQL exactly when its number is blank, or when no column
      applies; otherwise its UPDATE sets the row's assignments and names its number. */
  lemma PlanFacts(env: Env, m: Row, now: int)
    ensures var p := PlanOf(env, m, now); var dn := DebtNumberOf(m);
      var asg := Assignments(AppliedOf(m, env.parse, env.isUuid), Columns);
      (p == Skip(MissingDebtNumber) <==> dn == "")
      && (p == Skip(NoUpdatableFields) <==> dn != "" && asg == [])
      && (p.Send? <==> dn != "" && asg != [])
      && (p.Send? ==> p.debtNumber == dn && p.stmt == StatementOf(env.table, asg, now, dn))
  {
  }

  /** No assignment at all exactly when `app` gives no column a value: for a row, every
      column's cell is blank, or an invalid user or counterparty. */
  lemma {:induction false} NothingApplies(app: Column -> Option<Arg>, cols: seq<Column>)
    ensures Assignments(app, cols) == [] <==> forall i :: 0 <= i < |cols| ==> app(cols[i]).None?
    decreases |cols|
  {
    if cols != [] {
      var n := |cols| - 1;
      NothingApplies(app, cols[..n]);
      assert forall i :: 0 <= i < n ==> cols[..n][i] == cols[i];
    }
  }

  /** The item of a row: model id "", the debts table as model type, the row as payload;
      done exactly when its UPDATE ran and affected a row; a refused row fails with the
      reason. */
  lemma ItemOfFacts(env: Env, rec: string, now: int, m: Row)
    ensures var p := PlanOf(env, m, now); var item := Step(env, rec, now)(m);
      item.modelId == "" && item.modelType == env.table && item.payload == m && item.importRecordId == rec
      && (item.status == StatusDone <==> p.Send? && env.exec(p.stmt).Ok? && env.exec(p.stmt).value > 0)
      && (item.status == StatusDone ==> item.errors == "")
      && (p.Skip? ==> item.status == StatusFailed && item.errors == p.msg)
      && (p.Send? && env.exec(p.stmt).Ok? && env.exec(p.stmt).value == 0 ==>
            item.status == StatusFailed && item.errors == "debt not found: " + DebtNumberOf(m))
  {
  }

  /** One item per row, the `k`-th that of the `k`-th row. */
  lemma {:induction false} ItemsEach(step: Row -> Item, rows: seq<Row>)
    ensures forall k :: 0 <= k < |rows| ==> Items(step, rows)[k] == step(rows[k])
    decreases |rows|
  {
    if rows != [] {
      var n := |rows| - 1;
      ItemsEach(step, rows[..n]);
      assert forall k :: 0 <= k < n ==> rows[..n][k] == rows[k];
    }
  }

  /** A statement is executed for every row that gets as far, and for no other. */
  lemma {:induction false} SentFacts(plan: Row -> Plan, rows: seq<Row>)
    ensures |Sent(plan, rows)| <= |rows|
    ensures forall s :: s in Sent(plan, rows) ==> exists k :: 0 <= k < |rows| && plan(rows[k]).Send? && plan(rows[k]).stmt == s
    ensures forall k :: 0 <= k < |rows| && plan(rows[k]).Send? ==> plan(rows[k]).stmt in Sent(plan, rows)
    decreases |rows|
  {
    if rows != [] {
      var n := |rows| - 1;
      SentFacts(plan, rows[..n]);
      assert forall k :: 0 <= k < n ==> rows[..n][k] == rows[k];
      forall s | s in Sent(plan, rows)
        ensures exists k :: 0 <= k < |rows| && plan(rows[k]).Send? && plan(rows[k]).stmt == s
      {
        if s !in Sent(plan, rows[..n]) {
          assert plan(rows[n]).Send? && plan(rows[n]).stmt == s;
        }
      }
    }
  }

  lemma ItemsSnoc(step: Row -> Item, plan: Row -> Plan, rows: seq<Row>, i: nat)
    requires i < |rows|
    ensures Items(step, rows[..i + 1]) == Items(step, rows[..i]) + [step(rows[i])]
    ensures Sent(plan, rows[..i + 1]) == Sent(plan, rows[..i]) + (if plan(rows[i]).Send? then [plan(rows[i]).stmt] else [])
  {
    assert rows[..i + 1][..i] == rows[..i];
  }

  lemma AssignmentsSnoc(app: Column -> Option<Arg>, i: nat)
    requires i < |Columns|
    ensures Assignments(app, Columns[..i + 1])
        == Assignments(app, Columns[..i]) + (if app(Columns[i]).Some? then [Assign(Columns[i], app(Columns[i]).value)] else [])
  {
    assert Columns[..i + 1][..i] == Columns[..i];
  }

  // ---------------------------------------------------------------------------
  // The SET list builder
  // ---------------------------------------------------------------------------

  /** The state the `appendSet` closure updates: the SET fragments, the arguments and the
      next placeholder number; `applied` is the list of assignments they stand for. */
  class SetBuilder {
    var setParts: seq<string>
    var args: seq<Arg>
    var argIdx: nat
    ghost var applied: seq<Assign>

    ghost predicate Valid()
      reads this
    {
      setParts == SetParts(applied) && args == ArgsOf(applied) && argIdx == |applied| + 1
    }

    constructor ()
      ensures Valid() && applied == [] && argIdx == 1
    {
      setParts := [];
      args := [];
      argIdx := 1;
      applied := [];
    }

    /** `appendSet(col, val)`: the fragment `col=$argIdx`, the value, and the next number. */
    method AppendSet(col: Column, val: Arg)
      requires Valid()
      modifies this
      ensures Valid() && applied == old(applied) + [Assign(col, val)]
      ensures setParts == old(setParts) + [Name(col) + "=$" + NatToString(old(argIdx))] && argIdx == old(argIdx) + 1
    {
      ghost var asg := applied + [Assign(col, val)];
      assert asg[..|applied|] == applied;
      EachAppend((a: Assign) => a.val, applied, [Assign(col, val)]);
      setParts := setParts + [Name(col) + "=$" + NatToString(argIdx)];
      args := args + [val];
      argIdx := argIdx + 1;
      applied := asg;
    }
  }

  // ---------------------------------------------------------------------------
  // The processor
  // ---------------------------------------------------------------------------

  /** `UpdateDebtsProcessor`: `debtsTable` is the configured table name (blank for
      "debts"); `exec` is the database's answer to an UPDATE (rows affected, or the error);
      `isUuid` stands for `uuid.Parse` succeeding; `sent` records the statements executed. */
  class UpdateDebtsProcessor {
    const pgAvailable: bool
    const mongo: Mongo?
    const debtsTable: string
    const parse: (string, string) -> Option<DateTime>
    const isUuid: string -> bool
    const exec: Stmt -> Result<nat>
    ghost var sent: seq<Stmt>

    constructor (pgAvailable: bool, mongo: Mongo?, debtsTable: string, parse: (string, string) -> Option<DateTime>,
                 isUuid: string -> bool, exec: Stmt -> Result<nat>)
      ensures this.pgAvailable == pgAvailable && this.mongo == mongo && this.debtsTable == debtsTable
      ensures this.parse == parse && this.isUuid == isUuid && this.exec == exec && sent == []
    {
      this.pgAvailable := pgAvailable;
      this.mongo := mongo;
      this.debtsTable := debtsTable;
      this.parse := parse;
      this.isUuid := isUuid;
      this.exec := exec;
      sent := [];
    }

    function Environment(): (env: Env)
      ensures env.table == if IsBlank(debtsTable) then "debts" else debtsTable
    {
      Env(FirstNonEmpty(debtsTable, "debts"), parse, isUuid, exec)
    }

    /** One `if v := strings.TrimSpace(m[key]); v != "" { appendSet(...) }` block: the
        `i`-th column of the fixed order. */
    method ApplyColumn(b: SetBuilder, m: Row, i: nat)
      requires i < |Columns| && b.Valid() && b.applied == Assignments(AppliedOf(m, parse, isUuid), Columns[..i])
      modifies b
      ensures b.Valid() && b.applied == Assignments(AppliedOf(m, parse, isUuid), Columns[..i + 1])
    {
      AssignmentsSnoc(AppliedOf(m, parse, isUuid), i);
      var c := Columns[i];
      var v := TrimSpace(Field(m, Key(c)));
      if v != "" {
        match c
        case EndDate => b.AppendSet(c, Date(ParseDateStrict(v, parse)));
        case AmountActualDebt => b.AppendSet(c, Text(NormalizeAmount(v)));
        case AmountMainDebt => b.AppendSet(c, Text(NormalizeAmount(v)));
        case AmountFine => b.AppendSet(c, Text(NormalizeAmount(v)));
        case AmountAccrual => b.AppendSet(c, Text(NormalizeAmount(v)));
        case UserId => if isUuid(v) { b.AppendSet(c, Text(v)); }
        case CounterpartyId => if isUuid(v) { b.AppendSet(c, Text(v)); }
        case StatusId => b.AppendSet(c, Text(v));
        case Currency => b.AppendSet(c, Text(v));
      }
    }

    /** The SET list of a row: the blocks of the source, one per column, in the fixed
        order. */
    method BuildSets(m: Row) returns (b: SetBuilder)
      ensures fresh(b) && b.Valid() && b.applied == Assignments(AppliedOf(m, parse, isUuid), Columns)
    {
      b := new SetBuilder();
      assert Columns[..0] == [];
      for i := 0 to |Columns|
        invariant b.Valid() && b.applied == Assignments(AppliedOf(m, parse, isUuid), Columns[..i])
      {
        ApplyColumn(b, m, i);
      }
      assert Columns[..|Columns|] == Columns;
    }

    /** What a row comes to before the database is asked. */
    method Judge(m: Row, now: int) returns (plan: Plan)
      ensures plan == PlanOf(Environment(), m, now)
    {
      var debtNumber := TrimSpace(RemoveChar(Field(m, "debt_number"), ' '));
      if debtNumber == "" {
        return Skip(MissingDebtNumber);
      }
      var b := BuildSets(m);
      if |b.setParts| == 0 {
        return Skip(NoUpdatableFields);
      }
      var table := FirstNonEmpty(debtsTable, "debts");
      var query := "UPDATE " + table + " SET " + Join(b.setParts, ", ")
                   + ", updated_at=$" + NatToString(b.argIdx) + " WHERE number=$" + NatToString(b.argIdx + 1);
      var args := b.args + [Timestamp(now), Text(debtNumber)];
      plan := Send(Stmt(query, args), debtNumber);
    }

    /** One row: its plan carried out and its item logged. */
    method NextRow(rec: string, now: int, m: Row) returns (done: bool)
      modifies mongo, this`sent
      ensures var p := Planner(Environment(), now)(m); var item := Step(Environment(), rec, now)(m);
        sent == old(sent) + (if p.Send? then [p.stmt] else []) && (done <==> item.status == StatusDone)
        && (mongo != null ==> mongo.items == old(mongo.items) + Visible(mongo, [item]) && mongo.records == old(mongo.records))
    {
      var table := FirstNonEmpty(debtsTable, "debts");
      var plan := Judge(m, now);
      done := false;
      match plan
      case Skip(msg) =>
        LogFail(mongo, rec, table, "", m, msg, now);
      case Send(s, debtNumber) =>
        sent := sent + [s];
        var ct := exec(s);
        if ct.Err? {
          Log(mongo, rec, table, "", m, StatusFailed, ct.error, now);
        } else if ct.value == 0 {
          LogFail(mongo, rec, table, "", m, "debt not found: " + debtNumber, now);
        } else {
          done := true;
          Log(mongo, rec, table, "", m, StatusDone, "", now);
        }
    }

    /** Row `i` of the batch, on top of what rows `0..i-1` did. */
    method RowAt(rec: string, now: int, batch: seq<Row>, i: nat, updated0: nat, ghost sent0: seq<Stmt>, ghost items0: seq<Item>)
      returns (updated: nat)
      requires i < |batch|
      requires sent == sent0 + Sent(Planner(Environment(), now), batch[..i])
      requires updated0 == CountDone(Items(Step(Environment(), rec, now), batch[..i]))
      requires mongo != null ==> mongo.items == items0 + Visible(mongo, Items(Step(Environment(), rec, now), batch[..i]))
      modifies mongo, this`sent
      ensures sent == sent0 + Sent(Planner(Environment(), now), batch[..i + 1])
      ensures updated == CountDone(Items(Step(Environment(), rec, now), batch[..i + 1]))
      ensures mongo != null ==>
        mongo.items == items0 + Visible(mongo, Items(Step(Environment(), rec, now), batch[..i + 1]))
        && mongo.records == old(mongo.records)
    {
      ghost var step, plan := Step(Environment(), rec, now), Planner(Environment(), now);
      ghost var done := Items(step, batch[..i]);
      ghost var item := step(batch[i]);
      ghost var p := plan(batch[i]);
      ghost var before := Sent(plan, batch[..i]);
      var ok := NextRow(rec, now, batch[i]);
      ItemsSnoc(step, plan, batch, i);
      CountDoneAppend(done, [item]);
      AppendAssoc(sent0, before, if p.Send? then [p.stmt] else []);
      updated := if ok then updated0 + 1 else updated0;
      if mongo != null {
        VisibleConcat(mongo, done, [item]);
        AppendAssoc(items0, Visible(mongo, done), Visible(mongo, [item]));
      }
    }

    /** The rows of a batch in order; `updated` counts the rows done. */
    method RunRows(rec: string, now: int, batch: seq<Row>) returns (updated: nat)
      modifies mongo, this`sent
      ensures var items := Items(Step(Environment(), rec, now), batch);
        sent == old(sent) + Sent(Planner(Environment(), now), batch) && updated == CountDone(items)
        && (mongo != null ==> mongo.items == old(mongo.items) + Visible(mongo, items) && mongo.records == old(mongo.records))
    {
      ghost var step, plan := Step(Environment(), rec, now), Planner(Environment(), now);
      ghost var items0 := if mongo != null then mongo.items else [];
      updated := 0;
      var i := 0;
      assert batch[..0] == [] && batch[..|batch|] == batch;
      while i < |batch|
        invariant 0 <= i <= |batch|
        invariant sent == old(sent) + Sent(plan, batch[..i]) && updated == CountDone(Items(step, batch[..i]))
        invariant mongo != null ==>
          mongo.items == items0 + Visible(mongo, Items(step, batch[..i])) && mongo.records == old(mongo.records)
      {
        updated := RowAt(rec, now, batch, i, updated, old(sent), items0);
        i := i + 1;
      }
    }

    /** `ProcessBatch`: after the dependency check, every row in order, then the import
        record marked done, whatever the rows came to, and even for an empty batch. */
    method ProcessBatch(ctxValue: Option<string>, batch: seq<Row>, now: int) returns (err: Option<string>)
      modifies mongo, this`sent
      ensures var deps := CheckDeps(pgAvailable, mongo);
        deps.Some? ==>
          (err == deps && sent == old(sent)
           && (mongo != null ==> mongo.items == old(mongo.items) && mongo.records == old(mongo.records)))
      ensures var deps := CheckDeps(pgAvailable, mongo); var rec := RecordIdOf(ctxValue);
        var items := Items(Step(Environment(), rec, now), batch);
        deps.None? ==>
          (err.None? && mongo != null && sent == old(sent) + Sent(Planner(Environment(), now), batch)
           && mongo.items == old(mongo.items) + Visible(mongo, items)
           && mongo.records == (var u := StatusUpdate(true, mongo.updateFaults, old(mongo.records), rec, StatusDone, now);
                                if u.Ok? then u.value else old(mongo.records)))
    {
      var deps := CheckDeps(pgAvailable, mongo);
      if deps.Some? {
        return deps;
      }
      var rec := RecordIdOf(ctxValue);
      var _ := RunRows(rec, now, batch);
      var _ := UpdateImportRecordStatusDone(mongo, rec, now);
      err := None;
    }
  }
}
