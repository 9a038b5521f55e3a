/** `ActionsProcessor`: each row with a known debt becomes one action; the user and the debt
    status are optional and only add warnings when they do not resolve. The actions are
    inserted in one call after the loop, and every kept row is logged from its answer. */
module Actions {
  import opened Wrappers
  import opened Ports
  import opened Ledger
  import opened Db
  import opened Proc
  import opened Helpers
  import opened Lookups
  import opened ActionsRepo
  import ModelTypes

  /** The model type of the items: the PHP class of the `actions` table. */
  const ModelType := ModelTypes.PHPModelByTable(ModelTypes.Actions)

  const MissingDebtNumber := "missing debt_number"

  /** What the processor consults: `DebtsRepo.GetIDByNumber`, the tables behind `UserRepo`
      and `DebtStatusesRepo`, and the two time parsers of `parseTimeLoose`. */
  datatype Env = Env(
    debtIdOf: string -> DebtIdAnswer,
    users: Table<string, int>,
    statuses: Table<string, int>,
    parse: (string, string) -> Option<DateTime>,
    parseUtc: (string, string) -> Option<DateTime>)

  /** The caches of the two shared repositories. */
  datatype Caches = Caches(users: map<string, Option<int>>, statuses: map<string, Option<int>>)

  /** A kept row (`meta` with what its action needs): the row, its id, the debt, the user,
      the status and the warnings. */
  datatype Pending = Pending(m: Row, id: string, debtId: string, userId: Option<int>, statusId: Option<int>, warnings: seq<string>)

  /** One row: the item logged for a rejected row, or the row kept; the caches afterwards and
      the debt numbers, usernames and statuses a query was sent for. */
  datatype RowStep = RowStep(item: Option<Item>, kept: Option<Pending>, caches: Caches,
                             debtQueries: seq<string>, userQueries: seq<string>, statusQueries: seq<string>)

  function ProcessRow(env: Env, c: Caches, rec: string, now: int, m: Row, id: string): RowStep {
    var dn := Trimmed(m, "debt_number");
    if dn == "" then RowStep(Some(Failed(rec, ModelType, id, m, MissingDebtNumber, now)), None, c, [], [], [])
    else
      var a := env.debtIdOf(dn);
      if a.err.Some? || a.id.None? then
        RowStep(Some(Failed(rec, ModelType, id, m, WithCause("debt not found: " + dn, a.err), now)), None, c, [dn], [], [])
      else
        var u := UserRef(env.users, c.users, Trimmed(m, "username"));
        var s := StatusRef(env.statuses, c.statuses, Trimmed(m, "status"));
        RowStep(None, Some(Pending(m, id, a.id.value, u.id, s.id, u.warnings + s.warnings)),
                Caches(u.cache, s.cache), [dn], u.queries, s.queries)
  }

  /** The action of a kept row. */
  function ActionOf(p: Pending, parse: (string, string) -> Option<DateTime>, parseUtc: (string, string) -> Option<DateTime>): Action {
    Action(p.id, Some(p.debtId), p.userId, p.statusId,
      NullIfEmpty(Trimmed(p.m, "type")),
      NullIfEmpty(Trimmed(p.m, "comment")),
      ParseTimeLoose(Field(p.m, "created_at"), parse, parseUtc))
  }

  function ActionsOf(ps: seq<Pending>, parse: (string, string) -> Option<DateTime>, parseUtc: (string, string) -> Option<DateTime>): (r: seq<Action>)
    ensures |r| == |ps|
  {
    Each(p => ActionOf(p, parse, parseUtc), ps)
  }

  /** The item logged for a kept row once the insert answered `err`. */
  function Outcome(rec: string, now: int, p: Pending, err: Option<string>): Item {
    if err.Some? then Failed(rec, ModelType, p.id, p.m, err.value, now)
    else Done(rec, ModelType, p.id, p.m, JoinWarnings(p.warnings), now)
  }

  function Outcomes(rec: string, now: int, ps: seq<Pending>, err: Option<string>): (r: seq<Item>)
    ensures |r| == |ps|
  {
    Each(p => Outcome(rec, now, p, err), ps)
  }

  /** The loop state: the caches, the items of rejected rows, the kept rows, the queries and
      the id the next row gets. */
  datatype Pass = Pass(caches: Caches, items: seq<Item>, kept: seq<Pending>,
                       debtQueries: seq<string>, userQueries: seq<string>, statusQueries: seq<string>, next: nat)

  function Start(c: Caches, firstId: nat): Pass {
    Pass(c, [], [], [], [], [], firstId)
  }

  /** The loop body on one row, which gets id `UuidText(p.next)`. */
  function Advance(env: Env, rec: string, now: int, p: Pass, m: Row): Pass {
    var s := ProcessRow(env, p.caches, rec, now, m, UuidText(p.next));
    Pass(s.caches,
         p.items + (if s.item.Some? then [s.item.value] else []),
         p.kept + (if s.kept.Some? then [s.kept.value] else []),
         p.debtQueries + s.debtQueries, p.userQueries + s.userQueries, p.statusQueries + s.statusQueries,
         p.next + 1)
  }

  function Run(env: Env, rec: string, now: int, p: Pass, rows: seq<Row>): Pass
    decreases |rows|
  {
    if rows == [] then p else Run(env, rec, now, Advance(env, rec, now, p, rows[0]), rows[1..])
  }

  // ---------------------------------------------------------------------------
  // Properties
  // ---------------------------------------------------------------------------

  /** A rejected row: a blank debt number fails with "missing debt_number" before any lookup;
      a number `GetIDByNumber` errs on or does not know fails with "debt not found", the error
      in parentheses, and nothing but the debt is looked up. Either way no row is kept. */
  lemma RejectedRow(env: Env, c: Caches, rec: string, now: int, m: Row, id: string)
    ensures var s := ProcessRow(env, c, rec, now, m, id); var dn := Trimmed(m, "debt_number");
      (dn == "" ==> s == RowStep(Some(Failed(rec, ModelType, id, m, MissingDebtNumber, now)), None, c, [], [], []))
      && (dn != "" && (env.debtIdOf(dn).err.Some? || env.debtIdOf(dn).id.None?) ==>
            s.kept.None? && s.caches == c && s.debtQueries == [dn] && s.userQueries == [] && s.statusQueries == []
            && s.item == Some(Failed(rec, ModelType, id, m,
                 if env.debtIdOf(dn).err.Some? then "debt not found: " + dn + " (" + env.debtIdOf(dn).err.value + ")"
                 else "debt not found: " + dn, now)))
  {
  }

  /** A kept row: a debt number that resolves keeps the row under its id with that debt,
      whatever the user and status give; the warnings are the user's then the status's, so
      there are at most two, and none exactly when both resolve. */
  lemma KeptRow(env: Env, c: Caches, rec: string, now: int, m: Row, id: string)
    requires Trimmed(m, "debt_number") != ""
    requires env.debtIdOf(Trimmed(m, "debt_number")).err.None? && env.debtIdOf(Trimmed(m, "debt_number")).id.Some?
    ensures var s := ProcessRow(env, c, rec, now, m, id); var dn := Trimmed(m, "debt_number");
      var u := UserRef(env.users, c.users, Trimmed(m, "username")); var st := StatusRef(env.statuses, c.statuses, Trimmed(m, "status"));
      s.item.None? && s.kept.Some?
      && s.kept.value == Pending(m, id, env.debtIdOf(dn).id.value, u.id, st.id, u.warnings + st.warnings)
      && s.debtQueries == [dn] && s.userQueries == u.queries && s.statusQueries == st.queries
      && s.caches == Caches(u.cache, st.cache)
      && |s.kept.value.warnings| <= 2
      && (s.kept.value.warnings == [] <==> u.id.Some? && st.id.Some?)
  {
    var u := UserRef(env.users, c.users, Trimmed(m, "username"));
    var st := StatusRef(env.statuses, c.statuses, Trimmed(m, "status"));
    ResolveFacts(env.users, c.users, "username", "user_id", Trimmed(m, "username"));
    ResolveFacts(env.statuses, c.statuses, "status", "debt_status_id", Trimmed(m, "status"));
    assert |u.warnings| <= 1 && |st.warnings| <= 1;
  }

  /** One row: exactly one of an item and a kept row; the item, if any, is a failure for the
      row's id and payload. */
  lemma RowShape(env: Env, c: Caches, rec: string, now: int, m: Row, id: string)
    ensures var s := ProcessRow(env, c, rec, now, m, id);
      (s.item.Some? <==> s.kept.None?)
      && (s.item.Some? ==> s.item.value.modelId == id && s.item.value.payload == m && s.item.value.status == StatusFailed)
      && (s.kept.Some? ==> s.kept.value.id == id && s.kept.value.m == m)
  {
  }

  lemma AdvanceFacts(env: Env, rec: string, now: int, p: Pass, m: Row)
    ensures var q := Advance(env, rec, now, p, m);
      |q.items| + |q.kept| == |p.items| + |p.kept| + 1
      && p.items <= q.items && p.kept <= q.kept
      && (AllFailed(p.items) ==> AllFailed(q.items)) && q.next == p.next + 1
  {
    RowShape(env, p.caches, rec, now, m, UuidText(p.next));
  }

  /** The loop from any state: every row lands either among the failed items or among the
      kept rows, never both; what was there before is kept, and the rejected rows' items are
      all failures. */
  lemma {:induction false} RunFacts(env: Env, rec: string, now: int, p: Pass, rows: seq<Row>)
    ensures var r := Run(env, rec, now, p, rows);
      |r.items| + |r.kept| == |p.items| + |p.kept| + |rows|
      && p.items <= r.items && p.kept <= r.kept
      && (AllFailed(p.items) ==> AllFailed(r.items)) && r.next == p.next + |rows|
    decreases |rows|
  {
    if rows != [] {
      var q := Advance(env, rec, now, p, rows[0]);
      AdvanceFacts(env, rec, now, p, rows[0]);
      RunFacts(env, rec, now, q, rows[1..]);
      var r := Run(env, rec, now, q, rows[1..]);
      assert Run(env, rec, now, p, rows) == r;
    }
  }

  /** Every action the loop builds carries a debt, so all of them are queued for insertion. */
  lemma AllQueued(ps: seq<Pending>, parse: (string, string) -> Option<DateTime>, parseUtc: (string, string) -> Option<DateTime>)
    ensures Queued(ActionsOf(ps, parse, parseUtc)) == ActionsOf(ps, parse, parseUtc)
  {
    var xs := ActionsOf(ps, parse, parseUtc);
    assert forall k :: 0 <= k < |xs| ==> xs[k] == ActionOf(ps[k], parse, parseUtc);
    QueuedAll(xs);
  }

  /** `InsertActions` on the kept rows' actions: the table grows by the actions, in row
      order, up to the first whose insert fails, and that failure is the error. */
  lemma InsertKept(rows: seq<Action>, faults: map<string, string>, ps: seq<Pending>,
                   parse: (string, string) -> Option<DateTime>, parseUtc: (string, string) -> Option<DateTime>)
    ensures var xs := ActionsOf(ps, parse, parseUtc); var k := FirstFault(faults, xs);
      Insert(rows, faults, xs) == (if k < |xs| then Some(faults[xs[k].id]) else None, rows + xs[..k])
  {
    AllQueued(ps, parse, parseUtc);
    InsertFacts(rows, faults, ActionsOf(ps, parse, parseUtc));
  }

  /** After the insert every kept row is logged under its own id and payload: all failed
      with the insert's error when there is one, all done with their warnings joined by
      "; " otherwise. */
  lemma OutcomesFacts(rec: string, now: int, ps: seq<Pending>, err: Option<string>)
    ensures var r := Outcomes(rec, now, ps, err);
      forall k :: 0 <= k < |ps| ==>
        r[k].modelId == ps[k].id && r[k].payload == ps[k].m && r[k].modelType == ModelType
        && (err.Some? ==> r[k].status == StatusFailed && r[k].errors == err.value)
        && (err.None? ==> r[k].status == StatusDone && r[k].errors == JoinWarnings(ps[k].warnings))
  {
  }

  /** A batch yields one item per row in all: the failures of the loop and, when some row
      was kept, one outcome per kept row. */
  lemma OneItemPerRow(env: Env, rec: string, now: int, c: Caches, batch: seq<Row>, firstId: nat, err: Option<string>)
    ensures var r := Run(env, rec, now, Start(c, firstId), batch);
      |r.items| + |Outcomes(rec, now, r.kept, err)| == |batch| && AllFailed(r.items)
      && r.next == firstId + |batch|
  {
    RunFacts(env, rec, now, Start(c, firstId), batch);
  }

  // ---------------------------------------------------------------------------
  // The processor
  // ---------------------------------------------------------------------------

  /** `ActionsProcessor` over its dependencies; `debtQueries` are the debt numbers sent to
      `GetIDByNumber`, in order. */
  class ActionsProcessor {
    const pgAvailable: bool
    const mongo: Mongo?
    const ids: IdSource
    const debtIdOf: string -> DebtIdAnswer
    const users: UserRepo
    const statuses: DebtStatusesRepo
    const table: ActionsTable
    const parse: (string, string) -> Option<DateTime>
    const parseUtc: (string, string) -> Option<DateTime>
    ghost var debtQueries: seq<string>

    constructor (pgAvailable: bool, mongo: Mongo?, ids: IdSource, debtIdOf: string -> DebtIdAnswer, users: UserRepo,
                 statuses: DebtStatusesRepo, table: ActionsTable,
                 parse: (string, string) -> Option<DateTime>, parseUtc: (string, string) -> Option<DateTime>)
      ensures this.pgAvailable == pgAvailable && this.mongo == mongo && this.ids == ids && this.debtIdOf == debtIdOf
      ensures this.users == users && this.statuses == statuses && this.table == table
      ensures this.parse == parse && this.parseUtc == parseUtc && debtQueries == []
    {
      this.pgAvailable := pgAvailable;
      this.mongo := mongo;
      this.ids := ids;
      this.debtIdOf := debtIdOf;
      this.users := users;
      this.statuses := statuses;
      this.table := table;
      this.parse := parse;
      this.parseUtc := parseUtc;
      debtQueries := [];
    }

    function Environment(): Env {
      Env(debtIdOf, users.users, statuses.statuses, parse, parseUtc)
    }

    /** The user of a row, through `UserRepo.GetUserBigint`. */
    method LinkUser(m: Row) returns (userId: Option<int>, warnings: seq<string>)
      modifies users
      ensures var r := UserRef(users.users, old(users.cache), Trimmed(m, "username"));
        userId == r.id && warnings == r.warnings && users.cache == r.cache && users.queries == old(users.queries) + r.queries
    {
      var un := Trimmed(m, "username");
      if un == "" {
        return None, [Missing("username", "user_id")];
      }
      var uid, err := users.GetUserBigint(un);
      assert err.Some? ==> uid.None?;
      if err.None? && uid.Some? {
        return uid, [];
      }
      userId, warnings := None, [NotFound("username", un, "user_id")];
    }

    /** The status of a row, through `DebtStatusesRepo.GetStatusBigint` on an allocated cache. */
    method LinkStatus(m: Row) returns (statusId: Option<int>, warnings: seq<string>)
      requires statuses.cache.Some?
      modifies statuses
      ensures var r := StatusRef(statuses.statuses, old(statuses.cache).value, Trimmed(m, "status"));
        statusId == r.id && warnings == r.warnings && statuses.cache == Some(r.cache)
        && statuses.queries == old(statuses.queries) + r.queries
    {
      var st := Trimmed(m, "status");
      if st == "" {
        return None, [Missing("status", "debt_status_id")];
      }
      var answer := statuses.GetStatusBigint(st);
      if answer.Answer? && answer.err.None? && answer.value.Some? {
        return answer.value, [];
      }
      statusId, warnings := None, [NotFound("status", st, "debt_status_id")];
    }

    /** The checks of one row: the failure of a rejected row, or the row kept. */
    method Judge(rec: string, now: int, m: Row) returns (id: string, failure: Option<string>, kept: Option<Pending>, ghost s: RowStep)
      requires statuses.cache.Some?
      modifies ids, users, statuses, this`debtQueries
      ensures s == ProcessRow(Environment(), Caches(old(users.cache), old(statuses.cache).value), rec, now, m, UuidText(old(ids.next)))
      ensures s.item == (if failure.Some? then Some(Failed(rec, ModelType, id, m, failure.value, now)) else None)
      ensures kept == s.kept && ids.next == old(ids.next) + 1
      ensures users.cache == s.caches.users && statuses.cache == Some(s.caches.statuses)
      ensures debtQueries == old(debtQueries) + s.debtQueries && users.queries == old(users.queries) + s.userQueries
        && statuses.queries == old(statuses.queries) + s.statusQueries
    {
      ghost var c0 := Caches(users.cache, statuses.cache.value);
      s := ProcessRow(Environment(), c0, rec, now, m, UuidText(ids.next));
      var debtNumber := Trimmed(m, "debt_number");
      if debtNumber == "" {
        id := ids.NewString();
        assert s == RowStep(Some(Failed(rec, ModelType, id, m, MissingDebtNumber, now)), None, c0, [], [], []);
        return id, Some(MissingDebtNumber), None, s;
      }
      debtQueries := debtQueries + [debtNumber];
      var a := debtIdOf(debtNumber);
      if a.err.Some? || a.id.None? {
        id := ids.NewString();
        var msg := WithCause("debt not found: " + debtNumber, a.err);
        assert s == RowStep(Some(Failed(rec, ModelType, id, m, msg, now)), None, c0, [debtNumber], [], []);
        return id, Some(msg), None, s;
      }
      var p;
      ghost var u, st;
      p, u, st := Keep(m, a.id.value);
      assert s == RowStep(None, Some(p), Caches(u.cache, st.cache), [debtNumber], u.queries, st.queries);
      id, failure, kept := p.id, None, Some(p);
    }

    /** A row with a debt: its user and status are looked up and it is kept under a fresh id. */
    method Keep(m: Row, debtId: string) returns (p: Pending, ghost u: Ref, ghost st: Ref)
      requires statuses.cache.Some?
      modifies ids, users, statuses
      ensures u == UserRef(users.users, old(users.cache), Trimmed(m, "username")) && st == StatusRef(statuses.statuses, old(statuses.cache).value, Trimmed(m, "status"))
      ensures p == Pending(m, UuidText(old(ids.next)), debtId, u.id, st.id, u.warnings + st.warnings)
        && users.cache == u.cache && statuses.cache == Some(st.cache) && ids.next == old(ids.next) + 1
        && users.queries == old(users.queries) + u.queries && statuses.queries == old(statuses.queries) + st.queries
    {
      u := UserRef(users.users, users.cache, Trimmed(m, "username"));
      st := StatusRef(statuses.statuses, statuses.cache.value, Trimmed(m, "status"));
      var userId, uw := LinkUser(m);
      var statusId, sw := LinkStatus(m);
      var id := ids.NewString();
      p := Pending(m, id, debtId, userId, statusId, uw + sw);
    }

    /** The loop of `ProcessBatch`: the rows kept, in order, with their actions. */
    method RunLoop(rec: string, batch: seq<Row>, now: int) returns (kept: seq<Pending>, actions: seq<Action>, ghost p: Pass)
      requires statuses.cache.Some?
      modifies mongo, ids, users, statuses, this`debtQueries
      ensures p == Run(Environment(), rec, now, Start(Caches(old(users.cache), old(statuses.cache).value), old(ids.next)), batch)
      ensures kept == p.kept && actions == ActionsOf(p.kept, parse, parseUtc) && ids.next == p.next
      ensures users.cache == p.caches.users && statuses.cache == Some(p.caches.statuses)
      ensures debtQueries == old(debtQueries) + p.debtQueries && users.queries == old(users.queries) + p.userQueries
        && statuses.queries == old(statuses.queries) + p.statusQueries
      ensures mongo != null ==> mongo.items == old(mongo.items) + Visible(mongo, p.items) && mongo.records == old(mongo.records)
    {
      ghost var items0 := if mongo != null then mongo.items else [];
      ghost var p0 := Start(Caches(users.cache, statuses.cache.value), ids.next);
      p := p0;
      kept, actions := [], [];
      var i := 0;
      assert batch[i..] == batch;
      while i < |batch|
        invariant 0 <= i <= |batch|
        invariant Run(Environment(), rec, now, p, batch[i..]) == Run(Environment(), rec, now, p0, batch)
        invariant ids.next == p.next && kept == p.kept && actions == ActionsOf(p.kept, parse, parseUtc)
        invariant users.cache == p.caches.users && statuses.cache == Some(p.caches.statuses)
        invariant debtQueries == old(debtQueries) + p.debtQueries && users.queries == old(users.queries) + p.userQueries
          && statuses.queries == old(statuses.queries) + p.statusQueries
        invariant mongo != null ==> mongo.items == items0 + Visible(mongo, p.items) && mongo.records == old(mongo.records)
      {
        assert batch[i..][0] == batch[i] && batch[i..][1..] == batch[i + 1..];
        kept, actions, p := NextRow(rec, now, batch[i], kept, actions, old(debtQueries), old(users.queries), old(statuses.queries), items0, p);
        i := i + 1;
      }
    }

    /** The loop body on row `m`, `p` being the loop state so far and the ghost parameters
        the query logs and audit collection at the start of the batch. */
    method NextRow(rec: string, now: int, m: Row, kept0: seq<Pending>, actions0: seq<Action>,
                   ghost dq0: seq<string>, ghost uq0: seq<string>, ghost sq0: seq<string>, ghost items0: seq<Item>, ghost p: Pass)
      returns (kept: seq<Pending>, actions: seq<Action>, ghost p': Pass)
      requires ids.next == p.next && kept0 == p.kept && actions0 == ActionsOf(p.kept, parse, parseUtc)
      requires users.cache == p.caches.users && statuses.cache == Some(p.caches.statuses)
      requires debtQueries == dq0 + p.debtQueries && users.queries == uq0 + p.userQueries && statuses.queries == sq0 + p.statusQueries
      requires mongo != null ==> mongo.items == items0 + Visible(mongo, p.items)
      modifies mongo, ids, users, statuses, this`debtQueries
      ensures p' == Advance(Environment(), rec, now, p, m)
      ensures ids.next == p'.next && kept == p'.kept && actions == ActionsOf(p'.kept, parse, parseUtc)
      ensures users.cache == p'.caches.users && statuses.cache == Some(p'.caches.statuses)
      ensures debtQueries == dq0 + p'.debtQueries && users.queries == uq0 + p'.userQueries && statuses.queries == sq0 + p'.statusQueries
      ensures mongo != null ==> mongo.items == items0 + Visible(mongo, p'.items) && mongo.records == old(mongo.records)
    {
      var id, failure, k;
      ghost var s;
      id, failure, k, s := Judge(rec, now, m);
      if failure.Some? {
        LogFail(mongo, rec, ModelType, id, m, failure.value, now);
      }
      ghost var item := if s.item.Some? then [s.item.value] else [];
      ghost var added := if s.kept.Some? then [s.kept.value] else [];
      p' := Pass(s.caches, p.items + item, p.kept + added,
                 p.debtQueries + s.debtQueries, p.userQueries + s.userQueries, p.statusQueries + s.statusQueries, p.next + 1);
      kept, actions := kept0, actions0;
      if k.Some? {
        kept := kept + [k.value];
        actions := actions + ActionsOf([k.value], parse, parseUtc);
      }
      assert kept == p'.kept;
      EachAppend(q => ActionOf(q, parse, parseUtc), p.kept, added);
      AppendAssoc(dq0, p.debtQueries, s.debtQueries);
      AppendAssoc(uq0, p.userQueries, s.userQueries);
      AppendAssoc(sq0, p.statusQueries, s.statusQueries);
      if mongo != null {
        VisibleConcat(mongo, p.items, item);
        AppendAssoc(items0, Visible(mongo, p.items), Visible(mongo, item));
      }
    }

    /** Logs every kept row with the insert's answer. */
    method LogOutcomes(rec: string, now: int, kept: seq<Pending>, err: Option<string>)
      modifies mongo
      ensures mongo != null ==>
        mongo.items == old(mongo.items) + Visible(mongo, Outcomes(rec, now, kept, err)) && mongo.records == old(mongo.records)
    {
      var i := 0;
      while i < |kept|
        invariant 0 <= i <= |kept|
        invariant mongo != null ==>
          mongo.items == old(mongo.items) + Visible(mongo, Outcomes(rec, now, kept[..i], err)) && mongo.records == old(mongo.records)
      {
        ghost var before := if mongo != null then mongo.items else [];
        var p := kept[i];
        if err.Some? {
          Log(mongo, rec, ModelType, p.id, p.m, StatusFailed, err.value, now);
        } else {
          Log(mongo, rec, ModelType, p.id, p.m, StatusDone, JoinWarnings(p.warnings), now);
        }
        assert kept[..i + 1] == kept[..i] + [p];
        EachAppend(q => Outcome(rec, now, q, err), kept[..i], [p]);
        if mongo != null {
          VisibleConcat(mongo, Outcomes(rec, now, kept[..i], err), Outcomes(rec, now, [p], err));
          AppendAssoc(old(mongo.items), Visible(mongo, Outcomes(rec, now, kept[..i], err)), Visible(mongo, Outcomes(rec, now, [p], err)));
        }
        i := i + 1;
      }
      assert kept[..i] == kept;
    }

    /** After the loop: nothing more without a kept row; otherwise one insert, one item per
        kept row from its answer, and the import record marked done. */
    method Flush(rec: string, now: int, kept: seq<Pending>, actions: seq<Action>)
      requires actions == ActionsOf(kept, parse, parseUtc)
      modifies mongo, table
      ensures var ins := Insert(old(table.rows), table.faults, actions);
        kept == [] ==> table.rows == old(table.rows) && (mongo != null ==> mongo.items == old(mongo.items) && mongo.records == old(mongo.records))
      ensures var ins := Insert(old(table.rows), table.faults, actions);
        kept != [] ==>
          (table.rows == ins.1
           && (mongo != null ==>
                mongo.items == old(mongo.items) + Visible(mongo, Outcomes(rec, now, kept, ins.0))
                && mongo.records == (var u := StatusUpdate(Connected(mongo), mongo.updateFaults, old(mongo.records), rec, StatusDone, now);
                                     if u.Ok? then u.value else old(mongo.records))))
    {
      if |actions| == 0 {
        return;
      }
      var err := table.InsertActions(actions);
      LogOutcomes(rec, now, kept, err);
      var _ := UpdateImportRecordStatusDone(mongo, rec, now);
    }

    /** `ProcessBatch`: after the dependency check, every row is checked and the kept rows'
        actions are inserted in one call; the import record is marked done only when some
        row was kept. No error is returned past the dependency check. */
    method ProcessBatch(ctxValue: Option<string>, batch: seq<Row>, now: int) returns (err: Option<string>)
      requires statuses.cache.Some?
      modifies mongo, ids, users, statuses, table, this`debtQueries
      ensures var deps := CheckDeps(pgAvailable, mongo);
        deps.Some? ==>
          (err == deps && ids.next == old(ids.next) && table.rows == old(table.rows) && debtQueries == old(debtQueries)
           && users.cache == old(users.cache) && statuses.cache == old(statuses.cache)
           && (mongo != null ==> mongo.items == old(mongo.items) && mongo.records == old(mongo.records)))
      ensures var deps := CheckDeps(pgAvailable, mongo);
        var rec := RecordIdOf(ctxValue);
        var p := Run(Environment(), rec, now, Start(Caches(old(users.cache), old(statuses.cache).value), old(ids.next)), batch);
        var ins := Insert(old(table.rows), table.faults, ActionsOf(p.kept, parse, parseUtc));
        deps.None? ==>
          (err.None? && mongo != null && ids.next == old(ids.next) + |batch|
           && users.cache == p.caches.users && statuses.cache == Some(p.caches.statuses)
           && debtQueries == old(debtQueries) + p.debtQueries
           && (p.kept == [] ==>
                 table.rows == old(table.rows) && mongo.items == old(mongo.items) + Visible(mongo, p.items)
                 && mongo.records == old(mongo.records))
           && (p.kept != [] ==>
                 table.rows == ins.1
                 && mongo.items == old(mongo.items) + Visible(mongo, p.items) + Visible(mongo, Outcomes(rec, now, p.kept, ins.0))
                 && mongo.records == (var u := StatusUpdate(true, mongo.updateFaults, old(mongo.records), rec, StatusDone, now);
                                      if u.Ok? then u.value else old(mongo.records))))
    {
      var deps := CheckDeps(pgAvailable, mongo);
      if deps.Some? {
        return deps;
      }
      var rec := RecordIdOf(ctxValue);
      var kept, actions;
      ghost var p;
      kept, actions, p := RunLoop(rec, batch, now);
      RunFacts(Environment(), rec, now, Start(Caches(old(users.cache), old(statuses.cache).value), old(ids.next)), batch);
      Flush(rec, now, kept, actions);
      err := None;
    }
  }
}
