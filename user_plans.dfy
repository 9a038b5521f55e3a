/** `UserPlansProcessor`: each row names a user and that user's plan (amount, quantity and
    end date), which is written with `UserPlanRepo.UpdateOrCreate`. The user is mandatory and
    the quantity and end date are validated; every row leaves one audit item. */
module UserPlans {
  import opened Wrappers
  import opened Text
  import opened Ports
  import opened Ledger
  import opened Db
  import opened Proc
  import opened Helpers
  import opened Lookups
  import opened UserPlansRepo

  /** The model type of the items: the table name itself, not a PHP class. */
  const ModelType := "user_plans"

  const MissingUsername := "missing username"
  const BadQuantity := "bad user_plan_quantity"
  const BadEndDate := "bad end_date"

  // ---------------------------------------------------------------------------
  // Cells
  // ---------------------------------------------------------------------------

  /** The quantity with its spaces, commas and dots taken out (`strings.NewReplacer`). */
  function CleanQuantity(s: string): string {
    RemoveChar(RemoveChar(RemoveChar(s, ' '), ','), '.')
  }

  /** The quantity of a cell: 0 when blank, otherwise the cleaned text read as a base-10
      int64, or `None` when it does not read. */
  function Quantity(cell: string): Option<int> {
    var q := TrimSpace(cell);
    if q == "" then Some(0) else ParseInt64(CleanQuantity(q))
  }

  /** A blank cell is 0; only a non-blank cell can be bad; a quantity fits in an int64; and
      the cleaned text has no separator left. */
  lemma QuantityFacts(cell: string)
    ensures IsBlank(cell) ==> Quantity(cell) == Some(0)
    ensures Quantity(cell).None? ==> !IsBlank(cell)
    ensures Quantity(cell).Some? ==> MinInt64 <= Quantity(cell).value <= MaxInt64
    ensures var c := CleanQuantity(TrimSpace(cell)); forall i :: 0 <= i < |c| ==> c[i] != ' ' && c[i] != ',' && c[i] != '.'
  {
    TrimSpaceEmpty(cell);
    var s1 := RemoveChar(TrimSpace(cell), ' ');
    var s2 := RemoveChar(s1, ',');
    var c := RemoveChar(s2, '.');
    assert forall i :: 0 <= i < |s2| ==> s2[i] != ' ' by {
      RemoveCharSubset(s1, ',', ' ');
    }
    RemoveCharSubset(s2, '.', ' ');
    RemoveCharSubset(s2, '.', ',');
  }

  /** Removing a character keeps every other character's absence. */
  lemma {:induction false} RemoveCharSubset(s: string, c: char, d: char)
    requires forall i :: 0 <= i < |s| ==> s[i] != d
    ensures forall i :: 0 <= i < |RemoveChar(s, c)| ==> RemoveChar(s, c)[i] != d
  {
    if s != [] {
      var tail := s[1..];
      assert forall i :: 0 <= i < |tail| ==> tail[i] == s[i + 1];
      RemoveCharSubset(tail, c, d);
      var rest := RemoveChar(tail, c);
      assert forall i :: 0 <= i < |rest| ==> rest[i] != d;
      if s[0] != c {
        assert RemoveChar(s, c) == [s[0]] + rest;
        assert forall i :: 1 <= i < |rest| + 1 ==> ([s[0]] + rest)[i] == rest[i - 1];
      } else {
        assert RemoveChar(s, c) == rest;
      }
    }
  }

  /** A printed quantity in the int64 range reads back as itself. */
  lemma QuantityOfPrinted(n: nat)
    requires n <= MaxInt64
    ensures Quantity(NatToString(n)) == Some(n)
  {
    var s := NatToString(n);
    TrimSpaceOfTrimmedEnds(s);
    RemoveCharAbsent(s, ' ');
    RemoveCharAbsent(s, ',');
    RemoveCharAbsent(s, '.');
    ParseInt64OfPrinted(n);
  }

  // ---------------------------------------------------------------------------
  // One row
  // ---------------------------------------------------------------------------

  /** What the processor consults: the table behind `UserRepo`, `time.ParseInLocation` for
      `parseDateStrict`, and the `user_plans` table's failing statements and month-end
      computation. */
  datatype Env = Env(users: Table<string, int>, parse: (string, string) -> Option<DateTime>,
                     faults: Faults, endOfMonth: Option<DateTime> -> DateTime)

  datatype Verdict = Reject(msg: string) | Ready(plan: UserPlan)

  /** The checks of a row: the verdict, the user cache afterwards and the usernames queried. */
  datatype Check = Check(verdict: Verdict, cache: map<string, Option<int>>, userQueries: seq<string>)

  function CheckRow(env: Env, cache: map<string, Option<int>>, m: Row): Check {
    var un := Trimmed(m, "username");
    if un == "" then Check(Reject(MissingUsername), cache, [])
    else
      var r := CachedLookup(cache, un, Query(env.users, un));
      var q := if r.queried then [un] else [];
      if r.err.Some? || r.value.None? then Check(Reject(WithCause("username not found: " + un, r.err)), r.cache, q)
      else Check(Plan(env.parse, m, r.value.value), r.cache, q)
  }

  /** The plan of a row whose user is `uid`: the amount is normalized and not checked; a
      bad quantity rejects the row, then a non-blank end date that does not parse does. */
  function Plan(parse: (string, string) -> Option<DateTime>, m: Row, uid: int): Verdict {
    var qty := Quantity(Field(m, "user_plan_quantity"));
    var d := Trimmed(m, "end_date");
    if qty.None? then Reject(BadQuantity)
    else if d != "" && ParseDateStrict(d, parse).None? then Reject(BadEndDate)
    else Ready(UserPlan(Some(uid), NormalizeAmount(Field(m, "user_plan_amount")), qty.value, ParseDateStrict(d, parse)))
  }

  /** The item of a row with id `id` and the table afterwards: a rejected row and a failed
      `UpdateOrCreate` are failures and leave the table; a saved plan is done with no text. */
  datatype Outcome = Outcome(item: Item, rows: seq<PlanRow>)

  function Conclude(env: Env, rows: seq<PlanRow>, rec: string, now: int, id: string, m: Row, v: Verdict): Outcome {
    match v
    case Reject(msg) => Outcome(Failed(rec, ModelType, id, m, msg, now), rows)
    case Ready(plan) =>
      var s := Save(rows, env.faults, plan, env.endOfMonth(plan.endDate), now);
      if s.0.Some? then Outcome(Failed(rec, ModelType, id, m, s.0.value, now), rows)
      else Outcome(Done(rec, ModelType, id, m, "", now), s.1)
  }

  // ---------------------------------------------------------------------------
  // The loop
  // ---------------------------------------------------------------------------

  /** The loop state: the user cache, the items, the `user_plans` rows, the usernames
      queried and the id the next row gets. */
  datatype Pass = Pass(cache: map<string, Option<int>>, items: seq<Item>, rows: seq<PlanRow>, userQueries: seq<string>, next: nat)

  /** The loop body on one row, which gets id `UuidText(p.next)` before anything else. */
  function Advance(env: Env, rec: string, now: int, p: Pass, m: Row): Pass {
    var k := CheckRow(env, p.cache, m);
    var o := Conclude(env, p.rows, rec, now, UuidText(p.next), m, k.verdict);
    Pass(k.cache, p.items + [o.item], o.rows, p.userQueries + k.userQueries, p.next + 1)
  }

  function Run(env: Env, rec: string, now: int, p: Pass, rows: seq<Row>): Pass
    decreases |rows|
  {
    if rows == [] then p else Run(env, rec, now, Advance(env, rec, now, p, rows[0]), rows[1..])
  }

  // ---------------------------------------------------------------------------
  // Properties
  // ---------------------------------------------------------------------------

  /** The checks in order: a blank username fails with "missing username" and no query; an
      unresolved one with "username not found: U", the lookup error in parentheses when
      there was one; then a bad quantity; then a non-blank end date that does not parse. */
  lemma RejectedRow(env: Env, cache: map<string, Option<int>>, m: Row)
    ensures var k := CheckRow(env, cache, m); var un := Trimmed(m, "username");
      var r := CachedLookup(cache, un, Query(env.users, un));
      (un == "" ==> k == Check(Reject(MissingUsername), cache, []))
      && (un != "" && (r.err.Some? || r.value.None?) ==> k.verdict == Reject(WithCause("username not found: " + un, r.err)))
      && (un != "" && r.err.None? && r.value.Some? ==>
            (Quantity(Field(m, "user_plan_quantity")).None? ==> k.verdict == Reject(BadQuantity))
            && ((Quantity(Field(m, "user_plan_quantity")).Some? && Trimmed(m, "end_date") != ""
                 && ParseDateStrict(Field(m, "end_date"), env.parse).None?) ==> k.verdict == Reject(BadEndDate)))
  {
    TrimSpaceIdempotent(Field(m, "end_date"));
    ParseDateArgument(Field(m, "end_date"), env.parse);
  }

  /** `parseDateStrict` trims its argument, so it reads a trimmed cell as the cell. */
  lemma ParseDateArgument(s: string, parse: (string, string) -> Option<DateTime>)
    ensures ParseDateStrict(TrimSpace(s), parse) == ParseDateStrict(s, parse)
  {
    TrimSpaceIdempotent(s);
    TrimSpaceEmpty(s);
    TrimSpaceEmpty(TrimSpace(s));
  }

  /** A row that passes every check is ready with the plan of its user: the normalized
      amount, the quantity (0 when blank) and the end date (none when blank). */
  lemma ReadyRow(env: Env, cache: map<string, Option<int>>, m: Row)
    requires CheckRow(env, cache, m).verdict.Ready?
    ensures var plan := CheckRow(env, cache, m).verdict.plan; var un := Trimmed(m, "username");
      un != "" && plan.userId == CachedLookup(cache, un, Query(env.users, un)).value && plan.userId.Some?
      && plan.amount == NormalizeAmount(Field(m, "user_plan_amount"))
      && Quantity(Field(m, "user_plan_quantity")) == Some(plan.quantity)
      && (IsBlank(Field(m, "user_plan_quantity")) ==> plan.quantity == 0)
      && plan.endDate == ParseDateStrict(Field(m, "end_date"), env.parse)
      && (IsBlank(Field(m, "end_date")) ==> plan.endDate.None?)
      && (!IsBlank(Field(m, "end_date")) ==> plan.endDate.Some?)
  {
    QuantityFacts(Field(m, "user_plan_quantity"));
    ParseDateArgument(Field(m, "end_date"), env.parse);
    TrimSpaceEmpty(Field(m, "end_date"));
  }

  /** The item carries the row's id and payload and is done or failed; it is done, with no
      text, exactly when the plan is saved, and only then does the table change, to what
      `UpdateOrCreate` makes of it. */
  lemma ConcludeFacts(env: Env, rows: seq<PlanRow>, rec: string, now: int, id: string, m: Row, v: Verdict)
    ensures var o := Conclude(env, rows, rec, now, id, m, v);
      o.item.modelId == id && o.item.payload == m && o.item.modelType == ModelType
      && (o.item.status == StatusDone || o.item.status == StatusFailed)
      && (v.Reject? ==> o.item.status == StatusFailed && o.item.errors == v.msg && o.rows == rows)
      && (v.Ready? ==>
            var s := Save(rows, env.faults, v.plan, env.endOfMonth(v.plan.endDate), now);
            (o.item.status == StatusDone <==> s.0.None?)
            && (s.0.Some? ==> o.item.errors == s.0.value && o.rows == rows)
            && (s.0.None? ==> o.item.errors == "" && o.rows == s.1))
  {
  }

  lemma AdvanceFacts(env: Env, rec: string, now: int, p: Pass, m: Row)
    ensures var q := Advance(env, rec, now, p, m);
      q.items[..|p.items|] == p.items && |q.items| == |p.items| + 1
      && q.items[|p.items|].modelId == UuidText(p.next) && q.items[|p.items|].payload == m
      && (q.items[|p.items|].status == StatusDone || q.items[|p.items|].status == StatusFailed)
      && q.next == p.next + 1
  {
    var k := CheckRow(env, p.cache, m);
    ConcludeFacts(env, p.rows, rec, now, UuidText(p.next), m, k.verdict);
  }

  /** Every item is done or failed. */
  predicate Settled(items: seq<Item>) {
    forall k :: 0 <= k < |items| ==> items[k].status == StatusDone || items[k].status == StatusFailed
  }

  /** The loop from any state: one item per row, in row order, under consecutive ids, the
      earlier items kept. */
  lemma {:induction false} RunFacts(env: Env, rec: string, now: int, p: Pass, rows: seq<Row>)
    ensures var r := Run(env, rec, now, p, rows);
      |r.items| == |p.items| + |rows| && r.items[..|p.items|] == p.items
      && Tagged(r.items[|p.items|..], rows, p.next) && r.next == p.next + |rows|
    decreases |rows|
  {
    if rows != [] {
      var q := Advance(env, rec, now, p, rows[0]);
      AdvanceFacts(env, rec, now, p, rows[0]);
      RunFacts(env, rec, now, q, rows[1..]);
      var r := Run(env, rec, now, q, rows[1..]);
      assert Run(env, rec, now, p, rows) == r;
      ItemsCons(p.items, q.items, r.items, rows, p.next);
    }
  }

  /** The loop keeps every item done or failed. */
  lemma {:induction false} RunSettled(env: Env, rec: string, now: int, p: Pass, rows: seq<Row>)
    requires Settled(p.items)
    ensures Settled(Run(env, rec, now, p, rows).items)
    decreases |rows|
  {
    if rows != [] {
      var q := Advance(env, rec, now, p, rows[0]);
      AdvanceFacts(env, rec, now, p, rows[0]);
      assert q.items == p.items + [q.items[|p.items|]];
      RunSettled(env, rec, now, q, rows[1..]);
      assert Run(env, rec, now, p, rows) == Run(env, rec, now, q, rows[1..]);
    }
  }

  /** A batch logs one item per row (`success + failed == len(batch)`), in row order, the
      `k`-th under `UuidText(firstId + k)`, each done or failed. */
  lemma OneItemPerRow(env: Env, rec: string, now: int, cache: map<string, Option<int>>, table: seq<PlanRow>, batch: seq<Row>, firstId: nat)
    ensures var r := Run(env, rec, now, Pass(cache, [], table, [], firstId), batch);
      Tagged(r.items, batch, firstId) && Settled(r.items) && r.next == firstId + |batch|
  {
    var p := Pass(cache, [], table, [], firstId);
    RunFacts(env, rec, now, p, batch);
    RunSettled(env, rec, now, p, batch);
    var r := Run(env, rec, now, p, batch);
    assert r.items[0..] == r.items;
  }

  // ---------------------------------------------------------------------------
  // The processor
  // ---------------------------------------------------------------------------

  /** `UserPlansProcessor` over its dependencies. */
  class UserPlansProcessor {
    const pgAvailable: bool
    const mongo: Mongo?
    const ids: IdSource
    const users: UserRepo
    const plans: PlansTable
    const parse: (string, string) -> Option<DateTime>

    constructor (pgAvailable: bool, mongo: Mongo?, ids: IdSource, users: UserRepo, plans: PlansTable,
                 parse: (string, string) -> Option<DateTime>)
      ensures this.pgAvailable == pgAvailable && this.mongo == mongo && this.ids == ids
      ensures this.users == users && this.plans == plans && this.parse == parse
    {
      this.pgAvailable := pgAvailable;
      this.mongo := mongo;
      this.ids := ids;
      this.users := users;
      this.plans := plans;
      this.parse := parse;
    }

    function Environment(): Env {
      Env(users.users, parse, plans.faults, plans.endOfMonth)
    }

    /** The checks of one row. */
    method Judge(m: Row) returns (v: Verdict, ghost k: Check)
      modifies users
      ensures k == CheckRow(Environment(), old(users.cache), m)
      ensures v == k.verdict && users.cache == k.cache && users.queries == old(users.queries) + k.userQueries
    {
      k := CheckRow(Environment(), users.cache, m);
      var username := Trimmed(m, "username");
      if username == "" {
        return Reject(MissingUsername), k;
      }
      var uid, err := users.GetUserBigint(username);
      if err.Some? || uid.None? {
        return Reject(WithCause("username not found: " + username, err)), k;
      }
      var amount := NormalizeAmount(Field(m, "user_plan_amount"));
      var qty := Quantity(Field(m, "user_plan_quantity"));
      if qty.None? {
        return Reject(BadQuantity), k;
      }
      var d := Trimmed(m, "end_date");
      var endDate := ParseDateStrict(d, parse);
      if d != "" && endDate.None? {
        return Reject(BadEndDate), k;
      }
      v := Ready(UserPlan(uid, amount, qty.value, endDate));
    }

    /** The end of a row: the save, if the row is ready, and its one item. */
    method Settle(rec: string, now: int, id: string, m: Row, v: Verdict)
      modifies mongo, plans
      ensures var o := Conclude(Environment(), old(plans.rows), rec, now, id, m, v);
        plans.rows == o.rows
        && (mongo != null ==> mongo.items == old(mongo.items) + Visible(mongo, [o.item]) && mongo.records == old(mongo.records))
    {
      match v
      case Reject(msg) =>
        LogFail(mongo, rec, ModelType, id, m, msg, now);
      case Ready(plan) =>
        var err := plans.UpdateOrCreate(plan, now);
        if err.Some? {
          LogFail(mongo, rec, ModelType, id, m, err.value, now);
        } else {
          Log(mongo, rec, ModelType, id, m, StatusDone, "", now);
        }
    }

    /** The loop body on row `m`, `p` being the loop state so far and the ghost parameters
        the user queries and audit collection at the start of the batch. */
    method NextRow(rec: string, now: int, m: Row, ghost uq0: seq<string>, ghost items0: seq<Item>, ghost p: Pass)
      returns (ghost p': Pass)
      requires ids.next == p.next && users.cache == p.cache && plans.rows == p.rows
      requires users.queries == uq0 + p.userQueries
      requires mongo != null ==> mongo.items == items0 + Visible(mongo, p.items)
      modifies mongo, ids, users, plans
      ensures p' == Advance(Environment(), rec, now, p, m)
      ensures ids.next == p'.next && users.cache == p'.cache && plans.rows == p'.rows
      ensures users.queries == uq0 + p'.userQueries
      ensures mongo != null ==> mongo.items == items0 + Visible(mongo, p'.items) && mongo.records == old(mongo.records)
    {
      var id := ids.NewString();
      var v;
      ghost var k;
      v, k := Judge(m);
      Settle(rec, now, id, m, v);
      ghost var o := Conclude(Environment(), p.rows, rec, now, id, m, v);
      p' := Pass(k.cache, p.items + [o.item], o.rows, p.userQueries + k.userQueries, p.next + 1);
      AppendAssoc(uq0, p.userQueries, k.userQueries);
      if mongo != null {
        VisibleConcat(mongo, p.items, [o.item]);
        AppendAssoc(items0, Visible(mongo, p.items), Visible(mongo, [o.item]));
      }
    }

    /** The loop of `ProcessBatch`. */
    method RunLoop(rec: string, batch: seq<Row>, now: int) returns (ghost p: Pass)
      modifies mongo, ids, users, plans
      ensures p == Run(Environment(), rec, now, Pass(old(users.cache), [], old(plans.rows), [], old(ids.next)), batch)
      ensures ids.next == p.next && users.cache == p.cache && plans.rows == p.rows
      ensures users.queries == old(users.queries) + p.userQueries
      ensures mongo != null ==> mongo.items == old(mongo.items) + Visible(mongo, p.items) && mongo.records == old(mongo.records)
    {
      ghost var items0 := if mongo != null then mongo.items else [];
      ghost var p0 := Pass(users.cache, [], plans.rows, [], ids.next);
      p := p0;
      var i := 0;
      assert batch[i..] == batch;
      while i < |batch|
        invariant 0 <= i <= |batch|
        invariant Run(Environment(), rec, now, p, batch[i..]) == Run(Environment(), rec, now, p0, batch)
        invariant ids.next == p.next && users.cache == p.cache && plans.rows == p.rows
        invariant users.queries == old(users.queries) + p.userQueries
        invariant mongo != null ==> mongo.items == items0 + Visible(mongo, p.items) && mongo.records == old(mongo.records)
      {
        assert batch[i..][0] == batch[i] && batch[i..][1..] == batch[i + 1..];
        p := NextRow(rec, now, batch[i], old(users.queries), items0, p);
        i := i + 1;
      }
    }

    /** `ProcessBatch`: after the dependency check, every row gets one item and the ready
        plans are saved one by one; the import record is marked done after every batch. */
    method ProcessBatch(ctxValue: Option<string>, batch: seq<Row>, now: int) returns (err: Option<string>)
      modifies mongo, ids, users, plans
      ensures var deps := CheckDeps(pgAvailable, mongo);
        deps.Some? ==>
          (err == deps && ids.next == old(ids.next) && plans.rows == old(plans.rows) && users.cache == old(users.cache)
           && (mongo != null ==> mongo.items == old(mongo.items) && mongo.records == old(mongo.records)))
      ensures var deps := CheckDeps(pgAvailable, mongo);
        var rec := RecordIdOf(ctxValue);
        var p := Run(Environment(), rec, now, Pass(old(users.cache), [], old(plans.rows), [], old(ids.next)), batch);
        deps.None? ==>
          (err.None? && mongo != null && ids.next == old(ids.next) + |batch| && users.cache == p.cache
           && plans.rows == p.rows && users.queries == old(users.queries) + p.userQueries
           && mongo.items == old(mongo.items) + Visible(mongo, p.items)
           && mongo.records == (var u := StatusUpdate(true, mongo.updateFaults, old(mongo.records), rec, StatusDone, now);
                                if u.Ok? then u.value else old(mongo.records)))
    {
      var deps := CheckDeps(pgAvailable, mongo);
      if deps.Some? {
        return deps;
      }
      var rec := RecordIdOf(ctxValue);
      ghost var p := RunLoop(rec, batch, now);
      OneItemPerRow(Environment(), rec, now, old(users.cache), old(plans.rows), batch, old(ids.next));
      var _ := UpdateImportRecordStatusDone(mongo, rec, now);
      err := None;
    }
  }
}
