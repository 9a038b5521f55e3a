/** `AgreementsProcessor`: each row with a known debt is written as that debt's agreement
    (one agreement per debt, upserted). The user and the agreement type are optional: a
    missing or unresolved one only adds a warning. Agreement types are looked up by name and
    created when absent, through a cache that lives for one batch. */
module Agreements {
  import opened Wrappers
  import opened Text
  import opened Ports
  import opened Ledger
  import opened Db
  import opened Proc
  import opened Helpers
  import opened Lookups
  import ModelTypes

  /** The model type of the items: the PHP class of the `agreements` table. */
  const ModelType := ModelTypes.PHPModelByTable(ModelTypes.Agreements)

  const MissingDebtNumber := "missing debt_number"
  const MissingType := "missing agreement_type -> agreement_type_id=NULL"

  // ---------------------------------------------------------------------------
  // getOrCreateAgreementType
  // ---------------------------------------------------------------------------

  /** A statement sent to `agreement_types`: the case-insensitive select by name, or the insert. */
  datatype Stmt = SelectType(name: string) | InsertType(name: string)

  /** What the three statements of `getOrCreateAgreementType` answer for a name: the first
      select, the insert, and the select sent after a failed insert (which another writer
      may have made succeed in between). */
  datatype TypeAnswers = TypeAnswers(select: string -> Result<int>, insert: string -> Result<int>, reselect: string -> Result<int>)

  /** The batch cache key of a type name: trimmed and lower-cased. */
  function TypeKey(name: string): string {
    ToLower(TrimSpace(name))
  }

  /** The error of a name that could be neither found nor created. */
  function TypeFailure(name: string): string {
    "agreement_type not found/created: " + name
  }

  /** The answer of `getOrCreateAgreementType`: the id or the error, the cache afterwards and
      the statements sent. */
  datatype TypeRes = TypeRes(id: Option<int>, err: Option<string>, cache: map<string, int>, sent: seq<Stmt>)

  function GetOrCreate(db: TypeAnswers, cache: map<string, int>, name: string): TypeRes {
    var key := TypeKey(name);
    if key in cache then TypeRes(Some(cache[key]), None, cache, [])
    else match db.select(name)
      case Ok(id) => TypeRes(Some(id), None, cache[key := id], [SelectType(name)])
      case Err(_) => match db.insert(name)
        case Ok(id) => TypeRes(Some(id), None, cache[key := id], [SelectType(name), InsertType(name)])
        case Err(_) => match db.reselect(name)
          case Ok(id) => TypeRes(Some(id), None, cache[key := id], [SelectType(name), InsertType(name), SelectType(name)])
          case Err(_) => TypeRes(None, Some(TypeFailure(name)), cache,
                                 [SelectType(name), InsertType(name), SelectType(name)])
  }

  /** A name whose key is cached answers from the cache, with no statement. Otherwise the
      select, the insert and the second select are sent in that order, each only if the one
      before failed; the first id found is the answer and is cached under the key. Only when
      all three fail is there an error, naming the type, and then nothing is cached. Exactly
      one of an id and an error comes back. */
  lemma GetOrCreateFacts(db: TypeAnswers, cache: map<string, int>, name: string)
    ensures var r := GetOrCreate(db, cache, name); var key := TypeKey(name);
      (r.id.Some? <==> r.err.None?)
      && (key in cache ==> r == TypeRes(Some(cache[key]), None, cache, []))
      && (key !in cache ==>
            (1 <= |r.sent| <= 3 && r.sent[0] == SelectType(name)
             && (db.select(name).Ok? ==> r.id == Some(db.select(name).value) && |r.sent| == 1)
             && (db.select(name).Err? ==> r.sent[1] == InsertType(name))
             && (db.select(name).Err? && db.insert(name).Ok? ==> r.id == Some(db.insert(name).value) && |r.sent| == 2)
             && (db.select(name).Err? && db.insert(name).Err? ==> r.sent == [SelectType(name), InsertType(name), SelectType(name)] && (r.id.Some? <==> db.reselect(name).Ok?) && (r.id.Some? ==> r.id.value == db.reselect(name).value))
             && (r.id.Some? ==> r.cache == cache[key := r.id.value])
             && (r.err.Some? ==> r.err.value == TypeFailure(name) && r.cache == cache)))
  {
  }

  /** A failure is not cached: the next row naming the same type sends the three statements
      again. */
  lemma FailureRetried(db: TypeAnswers, cache: map<string, int>, name: string)
    requires TypeKey(name) !in cache && GetOrCreate(db, cache, name).err.Some?
    ensures var r := GetOrCreate(db, cache, name);
      GetOrCreate(db, r.cache, name).sent == [SelectType(name), InsertType(name), SelectType(name)]
  {
  }

  /** Names that differ only in case and surrounding spaces share one cache entry: once one
      is known the other sends nothing and gets the same id. */
  lemma CaseInsensitiveCache(db: TypeAnswers, cache: map<string, int>, a: string, b: string)
    requires TypeKey(a) == TypeKey(b) && GetOrCreate(db, cache, a).id.Some?
    ensures var r := GetOrCreate(db, cache, a); var r2 := GetOrCreate(db, r.cache, b);
      r2.id == r.id && r2.sent == [] && r2.cache == r.cache
  {
  }

  // ---------------------------------------------------------------------------
  // One row
  // ---------------------------------------------------------------------------

  /** What the processor consults: `DebtsRepo.GetIDByNumber`, the table behind `UserRepo`,
      `agreement_types`, and the debts whose agreement upsert fails, with the error. */
  datatype Env = Env(debtIdOf: string -> DebtIdAnswer, users: Table<string, int>, types: TypeAnswers, faults: map<string, string>)

  /** The shared `UserRepo` cache and the batch's type cache. */
  datatype Caches = Caches(users: map<string, Option<int>>, types: map<string, int>)

  /** A row ready to be written: the row, its debt, its user and its type. */
  datatype Pending = Pending(m: Row, debtId: string, userId: Option<int>, typeId: Option<int>)

  datatype Verdict = Reject(msg: string) | Ready(p: Pending, warnings: seq<string>)

  /** The checks of a row: the verdict, the caches afterwards, and the debt numbers, usernames
      and type statements sent. */
  datatype Check = Check(verdict: Verdict, caches: Caches, debtQueries: seq<string>, userQueries: seq<string>, typeStmts: seq<Stmt>)

  /** The agreement type of a row, and its warning. */
  datatype TypeLink = TypeLink(id: Option<int>, warnings: seq<string>, cache: map<string, int>, sent: seq<Stmt>)

  function LinkType(db: TypeAnswers, cache: map<string, int>, tname: string): TypeLink {
    if tname == "" then TypeLink(None, [MissingType], cache, [])
    else
      var r := GetOrCreate(db, cache, tname);
      TypeLink(r.id, if r.err.Some? then ["agreement_type upsert failed: " + r.err.value] else [], r.cache, r.sent)
  }

  function CheckRow(env: Env, c: Caches, m: Row): Check {
    var dn := Trimmed(m, "debt_number");
    if dn == "" then Check(Reject(MissingDebtNumber), c, [], [], [])
    else
      var a := env.debtIdOf(dn);
      if a.err.Some? || a.id.None? then Check(Reject(WithCause("debt not found: " + dn, a.err)), c, [dn], [], [])
      else
        var u := UserRef(env.users, c.users, Trimmed(m, "username"));
        var t := LinkType(env.types, c.types, Trimmed(m, "agreement_type"));
        Check(Ready(Pending(m, a.id.value, u.id, t.id), u.warnings + t.warnings), Caches(u.cache, t.cache), [dn], u.queries, t.sent)
  }

  /** The item of a row with id `id`, and the agreement written, if any: a rejected row and
      a failed upsert are failures; a written row is done with its warnings. */
  datatype Outcome = Outcome(item: Item, written: Option<Pending>)

  function Conclude(faults: map<string, string>, rec: string, now: int, id: string, m: Row, v: Verdict): Outcome {
    match v
    case Reject(msg) => Outcome(Failed(rec, ModelType, id, m, msg, now), None)
    case Ready(p, warnings) =>
      if p.debtId in faults then Outcome(Failed(rec, ModelType, id, m, faults[p.debtId], now), None)
      else Outcome(Done(rec, ModelType, id, m, JoinWarnings(warnings), now), Some(p))
  }

  // ---------------------------------------------------------------------------
  // The agreements table
  // ---------------------------------------------------------------------------

  /** An `agreements` row: the row it was last written from, and its timestamps. */
  datatype Stored = Stored(p: Pending, createdAt: int, updatedAt: int)

  /** `models.Agreement` as `UpdateOrCreate` writes it (the generated id is not modelled). */
  datatype Agreement = Agreement(
    typeId: Option<int>,
    debtId: string,
    userId: Option<int>,
    amountDebt: string,
    monthlyPaymentAmount: string,
    scheduledPaymentDay: Option<string>,
    startDate: Option<DateTime>,
    endDate: Option<DateTime>,
    createdAt: int,
    updatedAt: int)

  /** The agreement a stored row reads as. */
  function AgreementOf(s: Stored, parse: (string, string) -> Option<DateTime>): Agreement {
    var m := s.p.m;
    Agreement(s.p.typeId, s.p.debtId, s.p.userId,
      NormalizeAmount(Field(m, "agreement_amount_debt")),
      NormalizeAmount(Field(m, "agreement_monthly_payment_amount")),
      NullIfEmpty(Trimmed(m, "agreement_scheduled_payment_day")),
      ParseDateStrict(Field(m, "agreement_start_date"), parse),
      ParseDateStrict(Field(m, "agreement_end_date"), parse),
      s.createdAt, s.updatedAt)
  }

  /** `UpdateOrCreate`: insert, or on a conflicting debt id overwrite every column but
      `created_at`. */
  function Upsert(t: map<string, Stored>, p: Pending, now: int): map<string, Stored> {
    t[p.debtId := Stored(p, if p.debtId in t then t[p.debtId].createdAt else now, now)]
  }

  /** The writes of `ps`, in order. */
  function UpsertAll(t: map<string, Stored>, ps: seq<Pending>, now: int): map<string, Stored>
    decreases |ps|
  {
    if ps == [] then t else Upsert(UpsertAll(t, ps[..|ps| - 1], now), ps[|ps| - 1], now)
  }

  lemma UpsertAllSnoc(t: map<string, Stored>, ps: seq<Pending>, p: Pending, now: int)
    ensures UpsertAll(t, ps + [p], now) == Upsert(UpsertAll(t, ps, now), p, now)
  {
    assert (ps + [p])[..|ps|] == ps;
  }

  /** A batch of writes at `now` drops no debt, and every row it leaves keeps the creation
      time it had, or has `now` if the batch created it. */
  lemma {:induction false} UpsertAllKeeps(t: map<string, Stored>, ps: seq<Pending>, now: int)
    ensures var r := UpsertAll(t, ps, now);
      (forall k :: k in t ==> k in r)
      && (forall k :: k in r ==> r[k].createdAt == (if k in t then t[k].createdAt else now))
    decreases |ps|
  {
    if ps != [] {
      UpsertAllKeeps(t, ps[..|ps| - 1], now);
    }
  }

  /** A debt the batch does not write is left exactly as it was, present or absent. */
  lemma {:induction false} UpsertAllUntouched(t: map<string, Stored>, ps: seq<Pending>, now: int, k: string)
    requires forall i :: 0 <= i < |ps| ==> ps[i].debtId != k
    ensures var r := UpsertAll(t, ps, now);
      (k in r <==> k in t) && (k in t ==> r[k] == t[k])
    decreases |ps|
  {
    if ps != [] {
      var init := ps[..|ps| - 1];
      assert forall i :: 0 <= i < |init| ==> init[i] == ps[i];
      UpsertAllUntouched(t, init, now, k);
    }
  }

  /** A debt the batch writes ends up with the LAST row written for it, updated at `now`,
      keeping the creation time it had before the batch, or `now` if it is new. */
  lemma {:induction false} UpsertAllWritten(t: map<string, Stored>, ps: seq<Pending>, now: int, i: nat)
    requires i < |ps| && forall j :: i < j < |ps| ==> ps[j].debtId != ps[i].debtId
    ensures var r := UpsertAll(t, ps, now); var d := ps[i].debtId;
      d in r && r[d] == Stored(ps[i], if d in t then t[d].createdAt else now, now)
    decreases |ps|
  {
    var n := |ps| - 1;
    var init := ps[..n];
    var d := ps[i].debtId;
    if i == n {
      UpsertAllKeeps(t, init, now);
    } else {
      assert init[i] == ps[i];
      forall j | i < j < |init| ensures init[j].debtId != d {
        assert init[j] == ps[j];
      }
      UpsertAllWritten(t, init, now, i);
    }
  }

  // ---------------------------------------------------------------------------
  // The loop
  // ---------------------------------------------------------------------------

  /** The loop state: the caches, the items, the rows written, the queries and statements
      sent, and the id the next row gets. */
  datatype Pass = Pass(caches: Caches, items: seq<Item>, written: seq<Pending>,
                       debtQueries: seq<string>, userQueries: seq<string>, typeStmts: seq<Stmt>, next: nat)

  function Start(users: map<string, Option<int>>, firstId: nat): Pass {
    Pass(Caches(users, map[]), [], [], [], [], [], firstId)
  }

  /** The loop body on one row, which gets id `UuidText(p.next)` before anything else. */
  function Advance(env: Env, rec: string, now: int, p: Pass, m: Row): Pass {
    var k := CheckRow(env, p.caches, m);
    var o := Conclude(env.faults, rec, now, UuidText(p.next), m, k.verdict);
    Pass(k.caches, p.items + [o.item], p.written + (if o.written.Some? then [o.written.value] else []),
         p.debtQueries + k.debtQueries, p.userQueries + k.userQueries, p.typeStmts + k.typeStmts, p.next + 1)
  }

  function Run(env: Env, rec: string, now: int, p: Pass, rows: seq<Row>): Pass
    decreases |rows|
  {
    if rows == [] then p else Run(env, rec, now, Advance(env, rec, now, p, rows[0]), rows[1..])
  }

  // ---------------------------------------------------------------------------
  // Properties of a row and of the loop
  // ---------------------------------------------------------------------------

  /** A blank debt number, or one `GetIDByNumber` errs on or does not know, rejects the row
      before the user and the type are looked at. */
  lemma RejectedRow(env: Env, c: Caches, m: Row)
    ensures var k := CheckRow(env, c, m); var dn := Trimmed(m, "debt_number");
      (dn == "" ==> k == Check(Reject(MissingDebtNumber), c, [], [], []))
      && (dn != "" && (env.debtIdOf(dn).err.Some? || env.debtIdOf(dn).id.None?) ==>
            k == Check(Reject(WithCause("debt not found: " + dn, env.debtIdOf(dn).err)), c, [dn], [], []))
  {
  }

  /** A row with a known debt is ready whatever its user and type give: the warnings are the
      user's then the type's, at most two, and a failed type get-or-create is a warning
      carrying its error, never a rejection. */
  lemma ReadyRow(env: Env, c: Caches, m: Row)
    requires Trimmed(m, "debt_number") != ""
    requires env.debtIdOf(Trimmed(m, "debt_number")).err.None? && env.debtIdOf(Trimmed(m, "debt_number")).id.Some?
    ensures var k := CheckRow(env, c, m); var tname := Trimmed(m, "agreement_type");
      var u := UserRef(env.users, c.users, Trimmed(m, "username")); var t := LinkType(env.types, c.types, tname);
      k.verdict.Ready? && k.verdict.p.debtId == env.debtIdOf(Trimmed(m, "debt_number")).id.value
      && k.verdict.p.userId == u.id && k.verdict.p.typeId == t.id
      && k.verdict.warnings == u.warnings + t.warnings && |k.verdict.warnings| <= 2
      && (tname == "" ==> t.warnings == [MissingType] && t.id.None? && t.sent == [])
      && (tname != "" && GetOrCreate(env.types, c.types, tname).err.Some? ==>
            t.id.None? && t.warnings == ["agreement_type upsert failed: " + TypeFailure(tname)])
  {
    var tname := Trimmed(m, "agreement_type");
    ResolveFacts(env.users, c.users, "username", "user_id", Trimmed(m, "username"));
    if tname != "" {
      GetOrCreateFacts(env.types, c.types, tname);
    }
  }

  /** The item of a row carries its id and payload and is done or failed; it is done exactly
      when the agreement is written, with the row's warnings joined by "; "; a failed upsert
      logs the error. */
  lemma ConcludeFacts(faults: map<string, string>, rec: string, now: int, id: string, m: Row, v: Verdict)
    ensures var o := Conclude(faults, rec, now, id, m, v);
      o.item.modelId == id && o.item.payload == m && o.item.modelType == ModelType
      && (o.item.status == StatusDone || o.item.status == StatusFailed)
      && (o.item.status == StatusDone <==> o.written.Some?)
      && (v.Reject? ==> o.item.status == StatusFailed && o.item.errors == v.msg)
      && (v.Ready? && v.p.debtId in faults ==> o.item.status == StatusFailed && o.item.errors == faults[v.p.debtId])
      && (o.written.Some? ==> v.Ready? && o.written.value == v.p && o.item.errors == JoinWarnings(v.warnings))
  {
  }

  lemma AdvanceFacts(env: Env, rec: string, now: int, p: Pass, m: Row)
    ensures var q := Advance(env, rec, now, p, m);
      q.items[..|p.items|] == p.items && |q.items| == |p.items| + 1
      && q.items[|p.items|].modelId == UuidText(p.next) && q.items[|p.items|].payload == m
      && CountDone([q.items[|p.items|]]) == |q.written| - |p.written|
      && |q.written| >= |p.written| && q.next == p.next + 1
  {
    var k := CheckRow(env, p.caches, m);
    ConcludeFacts(env.faults, rec, now, UuidText(p.next), m, k.verdict);
  }

  /** The loop from any state: one item per row, in row order, under consecutive ids, the
      earlier items kept; the done items are exactly as many as the rows written. */
  lemma {:induction false} RunFacts(env: Env, rec: string, now: int, p: Pass, rows: seq<Row>)
    ensures var r := Run(env, rec, now, p, rows);
      |r.items| == |p.items| + |rows| && r.items[..|p.items|] == p.items
      && Tagged(r.items[|p.items|..], rows, p.next)
      && CountDone(r.items[|p.items|..]) == |r.written| - |p.written| && |r.written| >= |p.written|
      && r.next == p.next + |rows|
    decreases |rows|
  {
    if rows != [] {
      var q := Advance(env, rec, now, p, rows[0]);
      AdvanceFacts(env, rec, now, p, rows[0]);
      RunFacts(env, rec, now, q, rows[1..]);
      var r := Run(env, rec, now, q, rows[1..]);
      assert Run(env, rec, now, p, rows) == r;
      ItemsCons(p.items, q.items, r.items, rows, p.next);
      assert r.items[|p.items|..] == [q.items[|p.items|]] + r.items[|q.items|..];
      CountDoneAppend([q.items[|p.items|]], r.items[|q.items|..]);
    }
  }

  /** A batch logs one item per row, in row order, the `k`-th under `UuidText(firstId + k)`;
      the done ones are as many as the agreements written (`success + failed == len(batch)`). */
  lemma OneItemPerRow(env: Env, rec: string, now: int, users: map<string, Option<int>>, batch: seq<Row>, firstId: nat)
    ensures var r := Run(env, rec, now, Start(users, firstId), batch);
      Tagged(r.items, batch, firstId) && CountDone(r.items) == |r.written| && r.next == firstId + |batch|
  {
    var p := Start(users, firstId);
    RunFacts(env, rec, now, p, batch);
    var r := Run(env, rec, now, p, batch);
    assert r.items[0..] == r.items;
  }

  // ---------------------------------------------------------------------------
  // The processor
  // ---------------------------------------------------------------------------

  /** `AgreementsProcessor` over its dependencies; `agreements` is the table by debt id,
      `debtQueries` the numbers sent to `GetIDByNumber` and `typeStmts` the statements sent
      to `agreement_types`. */
  class AgreementsProcessor {
    const pgAvailable: bool
    const mongo: Mongo?
    const ids: IdSource
    const debtIdOf: string -> DebtIdAnswer
    const users: UserRepo
    const types: TypeAnswers
    const faults: map<string, string>
    var agreements: map<string, Stored>
    ghost var debtQueries: seq<string>
    ghost var typeStmts: seq<Stmt>

    constructor (pgAvailable: bool, mongo: Mongo?, ids: IdSource, debtIdOf: string -> DebtIdAnswer, users: UserRepo,
                 types: TypeAnswers, faults: map<string, string>, agreements: map<string, Stored>)
      ensures this.pgAvailable == pgAvailable && this.mongo == mongo && this.ids == ids && this.debtIdOf == debtIdOf
      ensures this.users == users && this.types == types && this.faults == faults && this.agreements == agreements
      ensures debtQueries == [] && typeStmts == []
    {
      this.pgAvailable := pgAvailable;
      this.mongo := mongo;
      this.ids := ids;
      this.debtIdOf := debtIdOf;
      this.users := users;
      this.types := types;
      this.faults := faults;
      this.agreements := agreements;
      debtQueries := [];
      typeStmts := [];
    }

    function Environment(): Env {
      Env(debtIdOf, users.users, types, faults)
    }

    /** `getOrCreateAgreementType`. */
    method GetOrCreateType(name: string, cache0: map<string, int>) returns (id: Option<int>, err: Option<string>, cache: map<string, int>)
      modifies this`typeStmts
      ensures var r := GetOrCreate(types, cache0, name);
        id == r.id && err == r.err && cache == r.cache && typeStmts == old(typeStmts) + r.sent
    {
      cache := cache0;
      var key := ToLower(TrimSpace(name));
      if key in cache {
        return Some(cache[key]), None, cache;
      }
      typeStmts := typeStmts + [SelectType(name)];
      var a := types.select(name);
      if a.Ok? {
        cache := cache[key := a.value];
        return Some(a.value), None, cache;
      }
      typeStmts := typeStmts + [InsertType(name)];
      a := types.insert(name);
      if a.Ok? {
        cache := cache[key := a.value];
        return Some(a.value), None, cache;
      }
      typeStmts := typeStmts + [SelectType(name)];
      a := types.reselect(name);
      if a.Ok? {
        cache := cache[key := a.value];
        return Some(a.value), None, cache;
      }
      id, err := None, Some(TypeFailure(name));
    }

    /** The user of a row, through `UserRepo.GetUserBigint`. */
    method LinkUser(m: Row) returns (userId: Option<int>, warnings: seq<string>)
      modifies users
      ensures var r := UserRef(users.users, old(users.cache), Trimmed(m, "username"));
        userId == r.id && warnings == r.warnings && users.cache == r.cache && users.queries == old(users.queries) + r.queries
    {
      var un := Trimmed(m, "username");
      if un == "" {
        return None, [Missing("username", "user_id")];
      }
      var uid, err := users.GetUserBigint(un);
      assert err.Some? ==> uid.None?;
      if err.None? && uid.Some? {
        return uid, [];
      }
      userId, warnings := None, [NotFound("username", un, "user_id")];
    }

    /** The agreement type of a row. */
    method TypeOf(m: Row, cache0: map<string, int>) returns (typeId: Option<int>, warnings: seq<string>, cache: map<string, int>)
      modifies this`typeStmts
      ensures var t := LinkType(types, cache0, Trimmed(m, "agreement_type"));
        typeId == t.id && warnings == t.warnings && cache == t.cache && typeStmts == old(typeStmts) + t.sent
    {
      var tname := Trimmed(m, "agreement_type");
      if tname == "" {
        return None, [MissingType], cache0;
      }
      var err;
      typeId, err, cache := GetOrCreateType(tname, cache0);
      warnings := if err.Some? then ["agreement_type upsert failed: " + err.value] else [];
    }

    /** The checks of one row. */
    method Judge(m: Row, typeCache0: map<string, int>) returns (v: Verdict, typeCache: map<string, int>, ghost k: Check)
      modifies users, this`debtQueries, this`typeStmts
      ensures k == CheckRow(Environment(), Caches(old(users.cache), typeCache0), m)
      ensures v == k.verdict && users.cache == k.caches.users && typeCache == k.caches.types
      ensures debtQueries == old(debtQueries) + k.debtQueries && users.queries == old(users.queries) + k.userQueries
        && typeStmts == old(typeStmts) + k.typeStmts
    {
      ghost var c0 := Caches(users.cache, typeCache0);
      k := CheckRow(Environment(), c0, m);
      typeCache := typeCache0;
      var debtNumber := Trimmed(m, "debt_number");
      if debtNumber == "" {
        v := Reject(MissingDebtNumber);
        assert k == Check(v, c0, [], [], []);
        return;
      }
      debtQueries := debtQueries + [debtNumber];
      var a := debtIdOf(debtNumber);
      if a.err.Some? || a.id.None? {
        v := Reject(WithCause("debt not found: " + debtNumber, a.err));
        assert k == Check(v, c0, [debtNumber], [], []);
        return;
      }
      ghost var u := UserRef(users.users, users.cache, Trimmed(m, "username"));
      ghost var t := LinkType(types, typeCache0, Trimmed(m, "agreement_type"));
      var userId, uw := LinkUser(m);
      var typeId, tw;
      typeId, tw, typeCache := TypeOf(m, typeCache0);
      v := Ready(Pending(m, a.id.value, userId, typeId), uw + tw);
      assert k == Check(v, Caches(u.cache, t.cache), [debtNumber], u.queries, t.sent);
    }

    /** `UpdateOrCreate` on the agreements table. */
    method UpdateOrCreate(p: Pending, now: int) returns (err: Option<string>)
      modifies this`agreements
      ensures err == (if p.debtId in faults then Some(faults[p.debtId]) else None)
      ensures agreements == (if err.Some? then old(agreements) else Upsert(old(agreements), p, now))
    {
      if p.debtId in faults {
        return Some(faults[p.debtId]);
      }
      var created := if p.debtId in agreements then agreements[p.debtId].createdAt else now;
      agreements := agreements[p.debtId := Stored(p, created, now)];
      err := None;
    }

    /** The end of a row: the upsert, if the row is ready, and its one item. */
    method Settle(rec: string, now: int, id: string, m: Row, v: Verdict)
      modifies mongo, this`agreements
      ensures var o := Conclude(faults, rec, now, id, m, v);
        agreements == (if o.written.Some? then Upsert(old(agreements), o.written.value, now) else old(agreements))
        && (mongo != null ==> mongo.items == old(mongo.items) + Visible(mongo, [o.item]) && mongo.records == old(mongo.records))
    {
      match v
      case Reject(msg) =>
        LogFail(mongo, rec, ModelType, id, m, msg, now);
      case Ready(p, warnings) =>
        var err := UpdateOrCreate(p, now);
        if err.Some? {
          LogFail(mongo, rec, ModelType, id, m, err.value, now);
        } else {
          Log(mongo, rec, ModelType, id, m, StatusDone, JoinWarnings(warnings), now);
        }
    }

    /** The loop body on row `m`, `p` being the loop state so far and the ghost parameters
        the logs at the start of the batch. */
    method NextRow(rec: string, now: int, m: Row, typeCache0: map<string, int>,
                   ghost a0: map<string, Stored>, ghost dq0: seq<string>, ghost uq0: seq<string>, ghost ts0: seq<Stmt>,
                   ghost items0: seq<Item>, ghost p: Pass)
      returns (typeCache: map<string, int>, ghost p': Pass)
      requires ids.next == p.next && users.cache == p.caches.users && typeCache0 == p.caches.types
      requires agreements == UpsertAll(a0, p.written, now)
      requires debtQueries == dq0 + p.debtQueries && users.queries == uq0 + p.userQueries && typeStmts == ts0 + p.typeStmts
      requires mongo != null ==> mongo.items == items0 + Visible(mongo, p.items)
      modifies mongo, ids, users, this`agreements, this`debtQueries, this`typeStmts
      ensures p' == Advance(Environment(), rec, now, p, m)
      ensures ids.next == p'.next && users.cache == p'.caches.users && typeCache == p'.caches.types
      ensures agreements == UpsertAll(a0, p'.written, now)
      ensures debtQueries == dq0 + p'.debtQueries && users.queries == uq0 + p'.userQueries && typeStmts == ts0 + p'.typeStmts
      ensures mongo != null ==> mongo.items == items0 + Visible(mongo, p'.items) && mongo.records == old(mongo.records)
    {
      var id := ids.NewString();
      var v;
      ghost var k;
      v, typeCache, k := Judge(m, typeCache0);
      Settle(rec, now, id, m, v);
      ghost var o := Conclude(faults, rec, now, id, m, v);
      ghost var added := if o.written.Some? then [o.written.value] else [];
      p' := Pass(k.caches, p.items + [o.item], p.written + added,
                 p.debtQueries + k.debtQueries, p.userQueries + k.userQueries, p.typeStmts + k.typeStmts, p.next + 1);
      if o.written.Some? {
        UpsertAllSnoc(a0, p.written, o.written.value, now);
      } else {
        assert p.written + added == p.written;
      }
      AppendAssoc(dq0, p.debtQueries, k.debtQueries);
      AppendAssoc(uq0, p.userQueries, k.userQueries);
      AppendAssoc(ts0, p.typeStmts, k.typeStmts);
      if mongo != null {
        VisibleConcat(mongo, p.items, [o.item]);
        AppendAssoc(items0, Visible(mongo, p.items), Visible(mongo, [o.item]));
      }
    }

    /** The loop of `ProcessBatch`, with a fresh type cache. */
    method RunLoop(rec: string, batch: seq<Row>, now: int) returns (ghost p: Pass)
      modifies mongo, ids, users, this`agreements, this`debtQueries, this`typeStmts
      ensures p == Run(Environment(), rec, now, Start(old(users.cache), old(ids.next)), batch)
      ensures ids.next == p.next && users.cache == p.caches.users && agreements == UpsertAll(old(agreements), p.written, now)
      ensures debtQueries == old(debtQueries) + p.debtQueries && users.queries == old(users.queries) + p.userQueries
        && typeStmts == old(typeStmts) + p.typeStmts
      ensures mongo != null ==> mongo.items == old(mongo.items) + Visible(mongo, p.items) && mongo.records == old(mongo.records)
    {
      ghost var items0 := if mongo != null then mongo.items else [];
      ghost var p0 := Start(users.cache, ids.next);
      p := p0;
      var typeCache: map<string, int> := map[];
      var i := 0;
      assert batch[i..] == batch;
      while i < |batch|
        invariant 0 <= i <= |batch|
        invariant Run(Environment(), rec, now, p, batch[i..]) == Run(Environment(), rec, now, p0, batch)
        invariant ids.next == p.next && users.cache == p.caches.users && typeCache == p.caches.types
        invariant agreements == UpsertAll(old(agreements), p.written, now)
        invariant debtQueries == old(debtQueries) + p.debtQueries && users.queries == old(users.queries) + p.userQueries
          && typeStmts == old(typeStmts) + p.typeStmts
        invariant mongo != null ==> mongo.items == items0 + Visible(mongo, p.items) && mongo.records == old(mongo.records)
      {
        assert batch[i..][0] == batch[i] && batch[i..][1..] == batch[i + 1..];
        typeCache, p := NextRow(rec, now, batch[i], typeCache, old(agreements), old(debtQueries), old(users.queries), old(typeStmts), items0, p);
        i := i + 1;
      }
    }

    /** `ProcessBatch`: after the dependency check, every row gets one item, the agreements
        are written one by one, and the import record is marked done after every batch. */
    method ProcessBatch(ctxValue: Option<string>, batch: seq<Row>, now: int) returns (err: Option<string>)
      modifies mongo, ids, users, this`agreements, this`debtQueries, this`typeStmts
      ensures var deps := CheckDeps(pgAvailable, mongo);
        deps.Some? ==>
          (err == deps && ids.next == old(ids.next) && agreements == old(agreements) && users.cache == old(users.cache)
           && debtQueries == old(debtQueries) && typeStmts == old(typeStmts)
           && (mongo != null ==> mongo.items == old(mongo.items) && mongo.records == old(mongo.records)))
      ensures var deps := CheckDeps(pgAvailable, mongo);
        var rec := RecordIdOf(ctxValue);
        var p := Run(Environment(), rec, now, Start(old(users.cache), old(ids.next)), batch);
        deps.None? ==>
          (err.None? && mongo != null && ids.next == old(ids.next) + |batch| && users.cache == p.caches.users
           && agreements == UpsertAll(old(agreements), p.written, now)
           && debtQueries == old(debtQueries) + p.debtQueries && typeStmts == old(typeStmts) + p.typeStmts
           && mongo.items == old(mongo.items) + Visible(mongo, p.items)
           && mongo.records == (var u := StatusUpdate(true, mongo.updateFaults, old(mongo.records), rec, StatusDone, now);
                                if u.Ok? then u.value else old(mongo.records)))
    {
      var deps := CheckDeps(pgAvailable, mongo);
      if deps.Some? {
        return deps;
      }
      var rec := RecordIdOf(ctxValue);
      ghost var p := RunLoop(rec, batch, now);
      OneItemPerRow(Environment(), rec, now, old(users.cache), batch, old(ids.next));
      var _ := UpdateImportRecordStatusDone(mongo, rec, now);
      err := None;
    }
  }
}
