/** `DistributionDebtsProcessor`: reassigns debts to users. For each row it resolves the
    debt, the user and the user's role in the "app" team (through three per-batch caches),
    then makes the debt's own team "debt/<debt id>" hold exactly that user in that role. */
module Distribution {
  import opened Wrappers
  import opened Text
  import opened Ports
  import opened Ledger
  import opened Db
  import opened Proc
  import ModelTypes
  import Helpers

  const DebtTeamPrefix := "debt/"
  const DefaultAppTeam := "app"
  /** The `user_type` of every membership this processor writes. */
  const DefaultUserType := ModelTypes.PHPModelMap[ModelTypes.Users]
  const ModelType := "distribution_debts"

  /** The columns of a `debts` row this processor reads or writes. */
  datatype DebtRow = DebtRow(userId: Option<int>, userAssignedAt: Option<int>)

  /** A `role_user` row. */
  datatype RoleUser = RoleUser(userId: int, roleId: int, userType: string, teamId: int)

  /** The statements the processor sends, each with the key that decides whether it fails. */
  datatype Stmt =
    | AppTeamLookup
    | DebtLookup(number: string)
    | UserLookup(username: string)
    | RoleLookup(userId: int)
    | UpdateOwner(debtId: string)
    | EnsureTeam(name: string)
    | SelectTeam(name: string)
    | DeleteStale(teamId: int)
    | InsertRole(teamId: int)

  /** The tables this processor only reads (debt ids by number, user ids by username) and the
      statements that fail, with the error text the database gives for each. */
  datatype Lookups = Lookups(debtNumbers: map<string, string>, users: map<string, int>, faults: map<Stmt, string>)

  /** The tables this processor writes. Team ids are handed out from `nextTeamId`. */
  datatype Tables = Tables(debts: map<string, DebtRow>, teams: map<string, int>, nextTeamId: int, roleUser: seq<RoleUser>)

  /** The `teams.name` unique index, and ids below the next one handed out. */
  predicate TablesValid(t: Tables) {
    (forall a, b :: a in t.teams && b in t.teams && a != b ==> t.teams[a] != t.teams[b])
    && (forall a :: a in t.teams ==> t.teams[a] < t.nextTeamId)
  }

  /** What a single-row query answers: its fault if it has one, else the row or "no rows". */
  function Answer<V>(faults: map<Stmt, string>, s: Stmt, found: Option<V>): (r: Result<V>)
    ensures s in faults ==> r == Err(faults[s])
    ensures s !in faults ==> r == (if found.Some? then Ok(found.value) else Err(ErrNoRows))
  {
    if s in faults then Err(faults[s]) else if found.Some? then Ok(found.value) else Err(ErrNoRows)
  }

  /** `SELECT role_id FROM role_user WHERE user_id = $1 AND team_id = $2 LIMIT 1`, LIMIT 1
      taking the first row in table order. */
  function FirstRole(rows: seq<RoleUser>, userId: int, teamId: int): Option<int>
  {
    if rows == [] then None
    else if rows[0].userId == userId && rows[0].teamId == teamId then Some(rows[0].roleId)
    else FirstRole(rows[1..], userId, teamId)
  }

  /** The role found is the role of a membership of the user in the team, and none is found
      exactly when the user has no membership there. */
  lemma {:induction false} FirstRoleSound(rows: seq<RoleUser>, userId: int, teamId: int)
    ensures var r := FirstRole(rows, userId, teamId);
      (r.Some? ==> exists x :: x in rows && x.userId == userId && x.teamId == teamId && x.roleId == r.value)
      && (r.None? <==> forall x :: x in rows ==> !(x.userId == userId && x.teamId == teamId))
  {
    if rows != [] {
      FirstRoleSound(rows[1..], userId, teamId);
      assert forall x :: x in rows[1..] ==> x in rows;
      assert forall x :: x in rows ==> x == rows[0] || x in rows[1..];
    }
  }

  // ---------------------------------------------------------------------------
  // Resolution of one row (the pre-pass)
  // ---------------------------------------------------------------------------

  /** What a lookup through one of the processor's caches gives. */
  datatype Outcome<V> = Found(v: V) | CachedNil | NotFound | LookupError(msg: string)

  datatype Resolution<K, V> = Resolution(outcome: Outcome<V>, cache: map<K, Option<V>>, queried: bool)

  /** One cached lookup as this processor does it: a hit answers from the cache (a cached nil
      meaning "skip silently"); a miss queries, caching the id on success and nil on "no rows",
      and leaving the cache alone on any other error. */
  function Resolve<K, V>(cache: map<K, Option<V>>, key: K, answer: Result<V>): (r: Resolution<K, V>)
    ensures r.queried <==> key !in cache
    ensures key in r.cache <==> !r.outcome.LookupError?
    ensures r.outcome.CachedNil? <==> key in cache && cache[key].None?
    ensures r.outcome.Found? ==> key in r.cache && r.cache[key] == Some(r.outcome.v)
    ensures r.outcome.NotFound? ==> key in r.cache && r.cache[key].None? && IsNoRows(answer)
    ensures r.outcome.LookupError? ==> answer == Err(r.outcome.msg) && !IsNoRows(answer)
    ensures r.queried && answer.Ok? ==> r.outcome == Found(answer.value)
  {
    if key in cache then
      Resolution(if cache[key].Some? then Found(cache[key].value) else CachedNil, cache, false)
    else match answer
      case Ok(v) => Resolution(Found(v), cache[key := Some(v)], true)
      case Err(e) =>
        if e == ErrNoRows then Resolution(NotFound, cache[key := None], true)
        else Resolution(LookupError(e), cache, true)
  }

  /** A lookup only ever adds its own key to the cache. */
  lemma ResolveKeepsCache<K, V>(cache: map<K, Option<V>>, key: K, answer: Result<V>)
    ensures var r := Resolve(cache, key, answer);
      (forall k :: k in cache ==> k in r.cache && r.cache[k] == cache[k]) && r.cache.Keys <= cache.Keys + {key}
  {
  }

  /** The three per-batch caches. */
  datatype Caches = Caches(debt: map<string, Option<string>>, user: map<string, Option<int>>, role: map<int, Option<int>>)

  const NoCaches := Caches(map[], map[], map[])

  /** A row that survived resolution. */
  datatype ValidRow = ValidRow(id: string, payload: Row, debtId: string, userId: int, roleId: int)

  datatype RowOutcome = Skip | Reject(msg: string) | Accept(row: ValidRow)

  /** The verdict on one row, the caches after it and the queries it sent, in order. */
  datatype RowStep = RowStep(outcome: RowOutcome, caches: Caches, queries: seq<Stmt>)

  function DebtAnswer(lk: Lookups, dn: string): Result<string> {
    Answer(lk.faults, DebtLookup(dn), if dn in lk.debtNumbers then Some(lk.debtNumbers[dn]) else None)
  }

  function UserAnswer(lk: Lookups, un: string): Result<int> {
    Answer(lk.faults, UserLookup(un), if un in lk.users then Some(lk.users[un]) else None)
  }

  function RoleAnswer(lk: Lookups, roles: seq<RoleUser>, app: int, userId: int): Result<int> {
    Answer(lk.faults, RoleLookup(userId), FirstRole(roles, userId, app))
  }

  function DebtNumberOf(m: Row): string {
    TrimSpace(Field(m, "debt_number"))
  }

  function UsernameOf(m: Row): string {
    TrimSpace(Field(m, "debt_username"))
  }

  /** The result of one lookup stage of the pre-pass: the row stops there (skipped or
      rejected), or goes on with the value found. Either way the caches and the queries of
      the stage come with it. */
  datatype Stage<T> = Stop(outcome: RowOutcome, caches: Caches, queries: seq<Stmt>) | Go(value: T, caches: Caches, queries: seq<Stmt>)

  /** The pre-pass on one row: the two presence checks, then debt, user and app-team role. */
  function ResolveRow(lk: Lookups, roles: seq<RoleUser>, app: int, c: Caches, m: Row, rowId: string): RowStep {
    var dn := DebtNumberOf(m);
    var un := UsernameOf(m);
    if dn == "" then RowStep(Reject("missing debt_number"), c, [])
    else if un == "" then RowStep(Reject("missing username"), c, [])
    else Lookups3(lk, roles, app, c, m, rowId, dn, un)
  }

  /** The three lookups of a row whose number and username are present, each going on only
      when the one before found its value. */
  function Lookups3(lk: Lookups, roles: seq<RoleUser>, app: int, c: Caches, m: Row, rowId: string,
                    dn: string, un: string): RowStep {
    var d := DebtStage(lk, c, dn);
    if d.Stop? then RowStep(d.outcome, d.caches, d.queries)
    else
      var u := UserStage(lk, d.caches, un);
      if u.Stop? then RowStep(u.outcome, u.caches, d.queries + u.queries)
      else
        var r := RoleStage(lk, roles, app, u.caches, u.value);
        if r.Stop? then RowStep(r.outcome, r.caches, d.queries + u.queries + r.queries)
        else RowStep(Accept(ValidRow(rowId, m, d.value, u.value, r.value)), r.caches, d.queries + u.queries + r.queries)
  }

  /** The debt lookup of a row whose number and username are present. */
  function DebtStage(lk: Lookups, c: Caches, dn: string): Stage<string> {
    var d := Resolve(c.debt, dn, DebtAnswer(lk, dn));
    var q := if d.queried then [DebtLookup(dn)] else [];
    var c1 := c.(debt := d.cache);
    match d.outcome
    case CachedNil => Stop(Skip, c1, q)
    case NotFound => Stop(Reject("debt not found: " + dn), c1, q)
    case LookupError(e) => Stop(Reject("debt lookup error: " + e), c1, q)
    case Found(debtId) => Go(debtId, c1, q)
  }

  /** The user lookup of a row whose debt resolved. */
  function UserStage(lk: Lookups, c: Caches, un: string): Stage<int> {
    var u := Resolve(c.user, un, UserAnswer(lk, un));
    var q := if u.queried then [UserLookup(un)] else [];
    var c1 := c.(user := u.cache);
    match u.outcome
    case CachedNil => Stop(Skip, c1, q)
    case NotFound => Stop(Reject("username not found: " + un), c1, q)
    case LookupError(e) => Stop(Reject("user lookup error: " + e), c1, q)
    case Found(userId) => Go(userId, c1, q)
  }

  /** The app-team role lookup of a row whose debt and user resolved. */
  function RoleStage(lk: Lookups, roles: seq<RoleUser>, app: int, c: Caches, userId: int): Stage<int> {
    var r := Resolve(c.role, userId, RoleAnswer(lk, roles, app, userId));
    var q := if r.queried then [RoleLookup(userId)] else [];
    var c1 := c.(role := r.cache);
    match r.outcome
    case CachedNil => Stop(Skip, c1, q)
    case NotFound => Stop(Reject("user has no role in app team"), c1, q)
    case LookupError(e) => Stop(Reject("lookup app role failed: " + e), c1, q)
    case Found(roleId) => Go(roleId, c1, q)
  }

  /** The state of the pre-pass after a prefix of the batch. */
  datatype PreState = PreState(caches: Caches, items: seq<Item>, rows: seq<ValidRow>, queries: seq<Stmt>)

  /** The pre-pass verdict as a function of the caches, the row and its id. */
  function Resolver(lk: Lookups, roles: seq<RoleUser>, app: int): (Caches, Row, string) -> RowStep {
    (c, m, rowId) => ResolveRow(lk, roles, app, c, m, rowId)
  }

  /** The pre-pass over the first `n` rows of `batch`, the `k`-th row getting id
      `UuidText(firstId + k)` and its verdict from `resolve` (`Resolver(lk, roles, app)` in
      the processor). */
  function PrePass(resolve: (Caches, Row, string) -> RowStep, rec: string, now: int,
                   batch: seq<Row>, n: nat, firstId: nat): PreState
    requires n <= |batch|
  {
    if n == 0 then PreState(NoCaches, [], [], [])
    else
      var st := PrePass(resolve, rec, now, batch, n - 1, firstId);
      var rowId := UuidText(firstId + n - 1);
      Advance(st, resolve(st.caches, batch[n - 1], rowId), rec, now, batch[n - 1], rowId)
  }

  /** The pre-pass state after one more row, given the verdict on it. */
  function Advance(st: PreState, s: RowStep, rec: string, now: int, m: Row, rowId: string): PreState {
    PreState(s.caches,
      st.items + (if s.outcome.Reject? then [Failed(rec, ModelType, rowId, m, s.outcome.msg, now)] else []),
      st.rows + (if s.outcome.Accept? then [s.outcome.row] else []),
      st.queries + s.queries)
  }

  /** One more row of the pre-pass. */
  lemma PrePassNext(resolve: (Caches, Row, string) -> RowStep, rec: string, now: int, batch: seq<Row>, i: nat, firstId: nat)
    requires i < |batch|
    ensures var st := PrePass(resolve, rec, now, batch, i, firstId); var rowId := UuidText(firstId + i);
      PrePass(resolve, rec, now, batch, i + 1, firstId) == Advance(st, resolve(st.caches, batch[i], rowId), rec, now, batch[i], rowId)
  {
  }

  // ---------------------------------------------------------------------------
  // Reconciliation of one row (the main pass)
  // ---------------------------------------------------------------------------

  /** The write steps of one row, in the order they run. */
  datatype Step = UpdateDebtsStep | EnsureTeamStep | SelectTeamStep | TeamPrefixStep | DeleteRoleUserStep | InsertRoleUserStep

  /** The prefix of the failure message of each step. */
  function StepPrefix(s: Step): string {
    match s
    case UpdateDebtsStep => "update debts: "
    case EnsureTeamStep => "ensure team: "
    case SelectTeamStep => "select team_id: "
    case TeamPrefixStep => "team name not debt/*: "
    case DeleteRoleUserStep => "delete wrong role_user: "
    case InsertRoleUserStep => "insert correct role_user: "
  }

  /** The position of a step in the sequence. */
  function StepIndex(s: Step): nat {
    match s
    case UpdateDebtsStep => 0
    case EnsureTeamStep => 1
    case SelectTeamStep => 2
    case TeamPrefixStep => 3
    case DeleteRoleUserStep => 4
    case InsertRoleUserStep => 5
  }

  /** The UPDATE of the owner: it writes only when the stored owner differs. */
  function SetOwner(t: Tables, debtId: string, userId: int, now: int): Tables {
    if debtId in t.debts && t.debts[debtId].userId != Some(userId)
    then t.(debts := t.debts[debtId := DebtRow(Some(userId), Some(now))])
    else t
  }

  /** `INSERT INTO teams (name) VALUES ($1) ON CONFLICT (name) DO NOTHING`. */
  function EnsureTeamRow(t: Tables, name: string): Tables {
    if name in t.teams then t
    else t.(teams := t.teams[name := t.nextTeamId], nextTeamId := t.nextTeamId + 1)
  }

  /** A membership the DELETE removes from team `teamId` once the debt's owner is `owner`. */
  predicate Stale(x: RoleUser, teamId: int, owner: int, roleId: int) {
    x.teamId == teamId && (x.userId != owner || x.roleId != roleId)
  }

  /** The table without the stale memberships of `teamId`. */
  function RemoveStale(rows: seq<RoleUser>, teamId: int, owner: int, roleId: int): (r: seq<RoleUser>)
    ensures |r| <= |rows|
  {
    if rows == [] then []
    else (if Stale(rows[0], teamId, owner, roleId) then [] else [rows[0]]) + RemoveStale(rows[1..], teamId, owner, roleId)
  }

  /** The DELETE keeps exactly the rows that are not stale. */
  lemma {:induction false} RemoveStaleMembers(rows: seq<RoleUser>, teamId: int, owner: int, roleId: int)
    ensures forall x :: x in RemoveStale(rows, teamId, owner, roleId) <==> x in rows && !Stale(x, teamId, owner, roleId)
  {
    if rows != [] {
      RemoveStaleMembers(rows[1..], teamId, owner, roleId);
      assert forall x :: x in rows <==> x == rows[0] || x in rows[1..];
    }
  }

  /** The team row with id `teamId` is named "debt/…" (`tm.name LIKE 'debt/%'`). */
  predicate IsDebtTeam(teams: map<string, int>, teamId: int) {
    exists n :: n in teams && teams[n] == teamId && HasPrefix(n, DebtTeamPrefix)
  }

  /** The DELETE over `role_user` joined with the team and the debt; a NULL owner matches nothing. */
  function DeleteWrong(t: Tables, teamId: int, debtId: string, roleId: int, systemTeamId: int): Tables {
    if IsDebtTeam(t.teams, teamId) && debtId in t.debts && teamId != systemTeamId && t.debts[debtId].userId.Some?
    then t.(roleUser := RemoveStale(t.roleUser, teamId, t.debts[debtId].userId.value, roleId))
    else t
  }

  predicate HasMembership(rows: seq<RoleUser>, userId: int, roleId: int, teamId: int) {
    exists x :: x in rows && x.userId == userId && x.roleId == roleId && x.teamId == teamId
  }

  /** The INSERT … WHERE NOT EXISTS of the correct membership. */
  function InsertIfAbsent(t: Tables, userId: int, roleId: int, teamId: int): Tables {
    if HasMembership(t.roleUser, userId, roleId, teamId) then t
    else t.(roleUser := t.roleUser + [RoleUser(userId, roleId, DefaultUserType, teamId)])
  }

  datatype Reconciled = Reconciled(tables: Tables, failure: Option<(Step, string)>)

  /** The main pass on one row: each step either fails, leaving what earlier steps wrote,
      or applies its write and hands over to the next. */
  function Reconcile(t: Tables, faults: map<Stmt, string>, systemTeamId: int, now: int, r: ValidRow): Reconciled {
    var name := DebtTeamPrefix + r.debtId;
    if UpdateOwner(r.debtId) in faults then Reconciled(t, Some((UpdateDebtsStep, faults[UpdateOwner(r.debtId)])))
    else
      var t1 := SetOwner(t, r.debtId, r.userId, now);
      if EnsureTeam(name) in faults then Reconciled(t1, Some((EnsureTeamStep, faults[EnsureTeam(name)])))
      else
        var t2 := EnsureTeamRow(t1, name);
        if SelectTeam(name) in faults then Reconciled(t2, Some((SelectTeamStep, faults[SelectTeam(name)])))
        else if name !in t2.teams then Reconciled(t2, Some((SelectTeamStep, ErrNoRows)))
        else
          var teamId := t2.teams[name];
          if !HasPrefix(name, DebtTeamPrefix) then Reconciled(t2, Some((TeamPrefixStep, name)))
          else if DeleteStale(teamId) in faults then Reconciled(t2, Some((DeleteRoleUserStep, faults[DeleteStale(teamId)])))
          else
            var t3 := DeleteWrong(t2, teamId, r.debtId, r.roleId, systemTeamId);
            if InsertRole(teamId) in faults then Reconciled(t3, Some((InsertRoleUserStep, faults[InsertRole(teamId)])))
            else Reconciled(InsertIfAbsent(t3, r.userId, r.roleId, teamId), None)
  }

  /** The item the main pass logs for one row. */
  function RowItem(rec: string, now: int, r: ValidRow, failure: Option<(Step, string)>): Item {
    if failure.Some? then Failed(rec, ModelType, r.id, r.payload, StepPrefix(failure.value.0) + failure.value.1, now)
    else Done(rec, ModelType, r.id, r.payload, "", now)
  }

  /** The reconciliation of one row as a function of the tables. */
  function Reconciler(faults: map<Stmt, string>, systemTeamId: int, now: int): (Tables, ValidRow) -> Reconciled {
    (t, r) => Reconcile(t, faults, systemTeamId, now, r)
  }

  /** The main pass over the surviving rows, each reconciled by `reconcile`
      (`Reconciler(faults, systemTeamId, now)` in the processor): tables afterwards, and the
      items logged. */
  function MainPass(reconcile: (Tables, ValidRow) -> Reconciled, t: Tables, rec: string, now: int,
                    rows: seq<ValidRow>): (Tables, seq<Item>)
    decreases |rows|
  {
    if rows == [] then (t, [])
    else
      var prev := MainPass(reconcile, t, rec, now, rows[..|rows| - 1]);
      var last := rows[|rows| - 1];
      var step := reconcile(prev.0, last);
      (step.tables, prev.1 + [RowItem(rec, now, last, step.failure)])
  }

  /** One item per row, in order, done or failed, under the row's own id and payload. */
  predicate Shaped(items: seq<Item>, rows: seq<ValidRow>, rec: string) {
    |items| == |rows|
    && forall k :: 0 <= k < |rows| ==> (items[k].modelId == rows[k].id && items[k].payload == rows[k].payload
      && items[k].modelType == ModelType && items[k].importRecordId == rec
      && (items[k].status == StatusDone || items[k].status == StatusFailed))
  }

  lemma ShapedAppend(items: seq<Item>, rows: seq<ValidRow>, rec: string, item: Item, row: ValidRow)
    requires Shaped(items, rows, rec) && Shaped([item], [row], rec)
    ensures Shaped(items + [item], rows + [row], rec)
  {
    var items', rows' := items + [item], rows + [row];
    forall k | 0 <= k < |rows'|
      ensures items'[k].modelId == rows'[k].id && items'[k].payload == rows'[k].payload
        && items'[k].modelType == ModelType && items'[k].importRecordId == rec
        && (items'[k].status == StatusDone || items'[k].status == StatusFailed)
    {
      if k < |rows| {
        assert items'[k] == items[k] && rows'[k] == rows[k];
      } else {
        assert items'[k] == [item][0] && rows'[k] == [row][0];
      }
    }
  }

  /** The main pass logs one item per row, in order, done or failed, under the row's own id
      and payload. */
  lemma {:induction false} MainPassShape(reconcile: (Tables, ValidRow) -> Reconciled, t: Tables, rec: string, now: int,
                                         rows: seq<ValidRow>)
    ensures Shaped(MainPass(reconcile, t, rec, now, rows).1, rows, rec)
    decreases |rows|
  {
    if rows != [] {
      var init := rows[..|rows| - 1];
      var last := rows[|rows| - 1];
      MainPassShape(reconcile, t, rec, now, init);
      var prev := MainPass(reconcile, t, rec, now, init);
      var item := RowItem(rec, now, last, reconcile(prev.0, last).failure);
      RowItemShape(rec, now, last, reconcile(prev.0, last).failure);
      assert Shaped([item], [last], rec);
      ShapedAppend(prev.1, init, rec, item, last);
      assert init + [last] == rows;
    }
  }

  lemma RowItemShape(rec: string, now: int, r: ValidRow, failure: Option<(Step, string)>)
    ensures var item := RowItem(rec, now, r, failure);
      item.modelId == r.id && item.payload == r.payload && item.modelType == ModelType && item.importRecordId == rec
      && (item.status == StatusDone || item.status == StatusFailed)
  {
  }

  /** One more row of the main pass. */
  lemma MainPassNext(reconcile: (Tables, ValidRow) -> Reconciled, t: Tables, rec: string, now: int, rows: seq<ValidRow>, k: nat)
    requires k < |rows|
    ensures var prev := MainPass(reconcile, t, rec, now, rows[..k]); var step := reconcile(prev.0, rows[k]);
      MainPass(reconcile, t, rec, now, rows[..k + 1]) == (step.tables, prev.1 + [RowItem(rec, now, rows[k], step.failure)])
  {
    assert rows[..k + 1][..k] == rows[..k];
  }

  /** `if v, ok := cache[key]; ok { … } else { query; … }`, the lookup pattern the pre-pass
      repeats for debts, users and roles. */
  method CacheGet<K, V>(cache: map<K, Option<V>>, key: K, answer: Result<V>) returns (o: Outcome<V>, c: map<K, Option<V>>)
    ensures Resolution(o, c, key !in cache) == Resolve(cache, key, answer)
  {
    c := cache;
    if key in c {
      if c[key].None? {
        return CachedNil, c;
      }
      return Found(c[key].value), c;
    }
    if answer.Err? {
      if answer.error == ErrNoRows {
        c := c[key := None];
        return NotFound, c;
      }
      return LookupError(answer.error), c;
    }
    c := c[key := Some(answer.value)];
    o := Found(answer.value);
  }

  // ---------------------------------------------------------------------------
  // The processor
  // ---------------------------------------------------------------------------

  /** `DistributionDebtsProcessor` over its database. `systemTeamId` is the processor's
      `SystemTeamID`, which the wiring in handlers.go never sets, so it is 0. */
  class Redistribution {
    const pgAvailable: bool
    const mongo: Mongo?
    const ids: IdSource
    const systemTeamId: int
    const lookups: Lookups
    var debts: map<string, DebtRow>
    var teams: map<string, int>
    var nextTeamId: int
    var roleUser: seq<RoleUser>
    /** Every lookup query sent, in order. */
    ghost var queries: seq<Stmt>

    constructor (pgAvailable: bool, mongo: Mongo?, ids: IdSource, lookups: Lookups, t: Tables)
      ensures this.pgAvailable == pgAvailable && this.mongo == mongo && this.ids == ids
      ensures this.lookups == lookups && systemTeamId == 0 && Snapshot() == t && queries == []
    {
      this.pgAvailable := pgAvailable;
      this.mongo := mongo;
      this.ids := ids;
      this.lookups := lookups;
      systemTeamId := 0;
      debts := t.debts;
      teams := t.teams;
      nextTeamId := t.nextTeamId;
      roleUser := t.roleUser;
      queries := [];
    }

    function Snapshot(): Tables
      reads this
    {
      Tables(debts, teams, nextTeamId, roleUser)
    }

    /** The app team lookup against the tables as they are. */
    function AppTeamAnswer(): Result<int>
      reads this
    {
      Answer(lookups.faults, AppTeamLookup, if DefaultAppTeam in teams then Some(teams[DefaultAppTeam]) else None)
    }

    /** The pre-pass on one row, the caches held the way the Go loop holds its three maps. */
    method ResolveOne(m: Row, rowId: string, app: int, roles: seq<RoleUser>, c0: Caches)
      returns (outcome: RowOutcome, c: Caches, ghost s: RowStep)
      modifies this`queries
      ensures s == ResolveRow(lookups, roles, app, c0, m, rowId)
      ensures outcome == s.outcome && c == s.caches && queries == old(queries) + s.queries
    {
      s := ResolveRow(lookups, roles, app, c0, m, rowId);
      c := c0;
      var debtNumber := TrimSpace(Field(m, "debt_number"));
      var username := TrimSpace(Field(m, "debt_username"));
      if debtNumber == "" {
        return Reject("missing debt_number"), c, s;
      }
      if username == "" {
        return Reject("missing username"), c, s;
      }
      outcome, c := ResolveFound(m, rowId, app, roles, c, debtNumber, username);
    }

    /** The lookups of the pre-pass. */
    method ResolveFound(m: Row, rowId: string, app: int, roles: seq<RoleUser>, c0: Caches, debtNumber: string, username: string)
      returns (outcome: RowOutcome, c: Caches)
      modifies this`queries
      ensures var s := Lookups3(lookups, roles, app, c0, m, rowId, debtNumber, username);
        outcome == s.outcome && c == s.caches && queries == old(queries) + s.queries
    {
      var d := ResolveDebt(c0, debtNumber);
      if d.Stop? {
        return d.outcome, d.caches;
      }
      var u := ResolveUser(d.caches, username);
      if u.Stop? {
        return u.outcome, u.caches;
      }
      Helpers.AppendAssoc(old(queries), d.queries, u.queries);
      var r := ResolveRole(u.caches, app, roles, u.value);
      Helpers.AppendAssoc(old(queries), d.queries + u.queries, r.queries);
      assert Lookups3(lookups, roles, app, c0, m, rowId, debtNumber, username)
        == if r.Stop? then RowStep(r.outcome, r.caches, d.queries + u.queries + r.queries)
           else RowStep(Accept(ValidRow(rowId, m, d.value, u.value, r.value)), r.caches, d.queries + u.queries + r.queries);
      if r.Stop? {
        return r.outcome, r.caches;
      }
      outcome, c := Accept(ValidRow(rowId, m, d.value, u.value, r.value)), r.caches;
    }

    /** The debt lookup of the pre-pass. */
    method ResolveDebt(c: Caches, debtNumber: string) returns (st: Stage<string>)
      modifies this`queries
      ensures st == DebtStage(lookups, c, debtNumber) && queries == old(queries) + st.queries
    {
      if debtNumber !in c.debt {
        queries := queries + [DebtLookup(debtNumber)];
      }
      var d, dc := CacheGet(c.debt, debtNumber, DebtAnswer(lookups, debtNumber));
      var q := if debtNumber !in c.debt then [DebtLookup(debtNumber)] else [];
      if d.CachedNil? {
        return Stop(Skip, c.(debt := dc), q);
      } else if d.NotFound? {
        return Stop(Reject("debt not found: " + debtNumber), c.(debt := dc), q);
      } else if d.LookupError? {
        return Stop(Reject("debt lookup error: " + d.msg), c.(debt := dc), q);
      }
      st := Go(d.v, c.(debt := dc), q);
    }

    /** The user lookup of the pre-pass. */
    method ResolveUser(c: Caches, username: string) returns (st: Stage<int>)
      modifies this`queries
      ensures st == UserStage(lookups, c, username) && queries == old(queries) + st.queries
    {
      if username !in c.user {
        queries := queries + [UserLookup(username)];
      }
      var u, uc := CacheGet(c.user, username, UserAnswer(lookups, username));
      var q := if username !in c.user then [UserLookup(username)] else [];
      if u.CachedNil? {
        return Stop(Skip, c.(user := uc), q);
      } else if u.NotFound? {
        return Stop(Reject("username not found: " + username), c.(user := uc), q);
      } else if u.LookupError? {
        return Stop(Reject("user lookup error: " + u.msg), c.(user := uc), q);
      }
      st := Go(u.v, c.(user := uc), q);
    }

    /** The app-team role lookup of the pre-pass. */
    method ResolveRole(c: Caches, app: int, roles: seq<RoleUser>, userId: int) returns (st: Stage<int>)
      modifies this`queries
      ensures st == RoleStage(lookups, roles, app, c, userId) && queries == old(queries) + st.queries
    {
      if userId !in c.role {
        queries := queries + [RoleLookup(userId)];
      }
      var r, rc := CacheGet(c.role, userId, RoleAnswer(lookups, roles, app, userId));
      var q := if userId !in c.role then [RoleLookup(userId)] else [];
      if r.CachedNil? {
        return Stop(Skip, c.(role := rc), q);
      } else if r.NotFound? {
        return Stop(Reject("user has no role in app team"), c.(role := rc), q);
      } else if r.LookupError? {
        return Stop(Reject("lookup app role failed: " + r.msg), c.(role := rc), q);
      }
      st := Go(r.v, c.(role := rc), q);
    }

    /** The main pass on one row: the owner UPDATE, the team INSERT and SELECT, the prefix
        check, the DELETE of stale memberships and the INSERT of the right one. */
    method ReconcileOne(r: ValidRow, now: int) returns (failure: Option<(Step, string)>)
      modifies this`debts, this`teams, this`nextTeamId, this`roleUser
      ensures Reconciled(Snapshot(), failure) == Reconcile(old(Snapshot()), lookups.faults, systemTeamId, now, r)
    {
      var faults := lookups.faults;
      var name := DebtTeamPrefix + r.debtId;

      if UpdateOwner(r.debtId) in faults {
        return Some((UpdateDebtsStep, faults[UpdateOwner(r.debtId)]));
      }
      if r.debtId in debts && debts[r.debtId].userId != Some(r.userId) {
        debts := debts[r.debtId := DebtRow(Some(r.userId), Some(now))];
      }
      ghost var t1 := SetOwner(old(Snapshot()), r.debtId, r.userId, now);
      assert Snapshot() == t1;

      if EnsureTeam(name) in faults {
        return Some((EnsureTeamStep, faults[EnsureTeam(name)]));
      }
      if name !in teams {
        teams := teams[name := nextTeamId];
        nextTeamId := nextTeamId + 1;
      }
      ghost var t2 := EnsureTeamRow(t1, name);
      assert Snapshot() == t2;

      if SelectTeam(name) in faults {
        return Some((SelectTeamStep, faults[SelectTeam(name)]));
      }
      if name !in teams {
        return Some((SelectTeamStep, ErrNoRows));
      }
      var teamId, teamName := teams[name], name;

      if !HasPrefix(teamName, DebtTeamPrefix) {
        return Some((TeamPrefixStep, teamName));
      }

      if DeleteStale(teamId) in faults {
        return Some((DeleteRoleUserStep, faults[DeleteStale(teamId)]));
      }
      if IsDebtTeam(teams, teamId) && r.debtId in debts && teamId != systemTeamId && debts[r.debtId].userId.Some? {
        roleUser := RemoveStale(roleUser, teamId, debts[r.debtId].userId.value, r.roleId);
      }
      ghost var t3 := DeleteWrong(t2, teamId, r.debtId, r.roleId, systemTeamId);
      assert Snapshot() == t3;

      if InsertRole(teamId) in faults {
        return Some((InsertRoleUserStep, faults[InsertRole(teamId)]));
      }
      if !HasMembership(roleUser, r.userId, r.roleId, teamId) {
        roleUser := roleUser + [RoleUser(r.userId, r.roleId, DefaultUserType, teamId)];
      }
      failure := None;
    }

    /** The pre-pass loop of `ProcessBatch`: every row gets a fresh id, a rejected row a
        failed item, and the surviving rows are collected in order. */
    method RunPrePass(rec: string, app: int, batch: seq<Row>, now: int) returns (rows: seq<ValidRow>)
      modifies mongo, ids, this`queries
      ensures var st := PrePass(Resolver(lookups, roleUser, app), rec, now, batch, |batch|, old(ids.next));
        rows == st.rows && queries == old(queries) + st.queries && ids.next == old(ids.next) + |batch|
        && (mongo != null ==> mongo.items == old(mongo.items) + Visible(mongo, st.items) && mongo.records == old(mongo.records))
    {
      var roles := roleUser;
      var caches := NoCaches;
      rows := [];
      ghost var items0 := if mongo != null then mongo.items else [];
      ghost var st := PrePass(Resolver(lookups, roles, app), rec, now, batch, 0, old(ids.next));
      var i := 0;
      while i < |batch|
        invariant 0 <= i <= |batch|
        invariant ids.next == old(ids.next) + i
        invariant st == PrePass(Resolver(lookups, roles, app), rec, now, batch, i, old(ids.next))
        invariant caches == st.caches && rows == st.rows && queries == old(queries) + st.queries
        invariant mongo != null ==> mongo.items == items0 + Visible(mongo, st.items) && mongo.records == old(mongo.records)
      {
        caches, rows, st := PreRow(rec, app, roles, batch, i, old(ids.next), now, caches, rows, old(queries), items0, st);
        i := i + 1;
      }
    }

    /** The body of the pre-pass loop, on row `i` of the batch: `st` is the pre-pass state so
        far, and `q0` and `items0` the query log and audit collection at the start of the batch. */
    method PreRow(rec: string, app: int, roles: seq<RoleUser>, batch: seq<Row>, i: nat, ghost firstId: nat, now: int,
                  caches0: Caches, rows0: seq<ValidRow>, ghost q0: seq<Stmt>, ghost items0: seq<Item>, ghost st: PreState)
      returns (caches: Caches, rows: seq<ValidRow>, ghost st': PreState)
      requires i < |batch| && ids.next == firstId + i
      requires st == PrePass(Resolver(lookups, roles, app), rec, now, batch, i, firstId)
      requires caches0 == st.caches && rows0 == st.rows && queries == q0 + st.queries
      requires mongo != null ==> mongo.items == items0 + Visible(mongo, st.items)
      modifies mongo, ids, this`queries
      ensures ids.next == old(ids.next) + 1
      ensures st' == PrePass(Resolver(lookups, roles, app), rec, now, batch, i + 1, firstId)
      ensures caches == st'.caches && rows == st'.rows && queries == q0 + st'.queries
      ensures mongo != null ==> mongo.items == items0 + Visible(mongo, st'.items) && mongo.records == old(mongo.records)
    {
      var rowId := ids.NewString();
      var outcome;
      ghost var s;
      outcome, caches, s := Judge(rec, app, roles, batch, i, firstId, now, rowId, caches0, st);
      st' := Advance(st, s, rec, now, batch[i], rowId);
      Helpers.AppendAssoc(q0, st.queries, s.queries);
      rows := Settle(rec, batch[i], rowId, now, outcome, rows0, items0, st, s);
    }

    /** The verdict on row `i` of the batch, which is the next step of the pre-pass. */
    method Judge(rec: string, app: int, roles: seq<RoleUser>, batch: seq<Row>, i: nat, ghost firstId: nat, now: int,
                 rowId: string, caches0: Caches, ghost st: PreState)
      returns (outcome: RowOutcome, caches: Caches, ghost s: RowStep)
      requires i < |batch| && rowId == UuidText(firstId + i)
      requires st == PrePass(Resolver(lookups, roles, app), rec, now, batch, i, firstId) && caches0 == st.caches
      modifies this`queries
      ensures outcome == s.outcome && caches == s.caches && queries == old(queries) + s.queries
      ensures PrePass(Resolver(lookups, roles, app), rec, now, batch, i + 1, firstId) == Advance(st, s, rec, now, batch[i], rowId)
    {
      outcome, caches, s := ResolveOne(batch[i], rowId, app, roles, caches0);
      PrePassNext(Resolver(lookups, roles, app), rec, now, batch, i, firstId);
      assert s == Resolver(lookups, roles, app)(caches0, batch[i], rowId);
    }

    /** Logs the verdict on one row of the pre-pass and keeps an accepted row. */
    method Settle(rec: string, m: Row, rowId: string, now: int, outcome: RowOutcome, rows0: seq<ValidRow>,
                  ghost items0: seq<Item>, ghost st: PreState, ghost s: RowStep)
      returns (rows: seq<ValidRow>)
      requires outcome == s.outcome && rows0 == st.rows
      requires mongo != null ==> mongo.items == items0 + Visible(mongo, st.items)
      modifies mongo
      ensures var st' := Advance(st, s, rec, now, m, rowId);
        rows == st'.rows && (mongo != null ==> mongo.items == items0 + Visible(mongo, st'.items) && mongo.records == old(mongo.records))
    {
      rows := rows0;
      if outcome.Reject? {
        ghost var item := Failed(rec, ModelType, rowId, m, outcome.msg, now);
        LogFail(mongo, rec, ModelType, rowId, m, outcome.msg, now);
        if mongo != null {
          VisibleConcat(mongo, st.items, [item]);
          Helpers.AppendAssoc(items0, Visible(mongo, st.items), Visible(mongo, [item]));
        }
      } else {
        assert st.items + [] == st.items;
        if outcome.Accept? {
          rows := rows + [outcome.row];
        }
      }
    }

    /** The main loop of `ProcessBatch`: one done or failed item per surviving row. */
    /** One row of the main pass: reconcile it, then log the verdict. */
    method MainRow(rec: string, r: ValidRow, now: int) returns (ghost item: Item)
      modifies mongo, this`debts, this`teams, this`nextTeamId, this`roleUser
      ensures var step := Reconciler(lookups.faults, systemTeamId, now)(old(Snapshot()), r);
        Snapshot() == step.tables && item == RowItem(rec, now, r, step.failure)
        && (mongo != null ==> mongo.items == old(mongo.items) + Visible(mongo, [item]) && mongo.records == old(mongo.records))
    {
      var failure := ReconcileOne(r, now);
      assert Reconciler(lookups.faults, systemTeamId, now)(old(Snapshot()), r) == Reconcile(old(Snapshot()), lookups.faults, systemTeamId, now, r);
      item := RowItem(rec, now, r, failure);
      if failure.Some? {
        LogFail(mongo, rec, ModelType, r.id, r.payload, StepPrefix(failure.value.0) + failure.value.1, now);
      } else {
        Log(mongo, rec, ModelType, r.id, r.payload, StatusDone, "", now);
      }
    }

    method RunMainPass(rec: string, rows: seq<ValidRow>, now: int)
      modifies mongo, this`debts, this`teams, this`nextTeamId, this`roleUser
      ensures var mp := MainPass(Reconciler(lookups.faults, systemTeamId, now), old(Snapshot()), rec, now, rows);
        Snapshot() == mp.0 && (mongo != null ==> mongo.items == old(mongo.items) + Visible(mongo, mp.1) && mongo.records == old(mongo.records))
    {
      ghost var reconcile := Reconciler(lookups.faults, systemTeamId, now);
      var k := 0;
      while k < |rows|
        invariant 0 <= k <= |rows|
        invariant var mp := MainPass(reconcile, old(Snapshot()), rec, now, rows[..k]);
          Snapshot() == mp.0 && (mongo != null ==> mongo.items == old(mongo.items) + Visible(mongo, mp.1))
        invariant mongo != null ==> mongo.records == old(mongo.records)
      {
        ghost var mp := MainPass(reconcile, old(Snapshot()), rec, now, rows[..k]);
        MainPassNext(reconcile, old(Snapshot()), rec, now, rows, k);
        ghost var item := MainRow(rec, rows[k], now);
        assert Snapshot() == MainPass(reconcile, old(Snapshot()), rec, now, rows[..k + 1]).0;
        assert MainPass(reconcile, old(Snapshot()), rec, now, rows[..k + 1]).1 == mp.1 + [item];
        if mongo != null {
          VisibleConcat(mongo, mp.1, [item]);
          Helpers.AppendAssoc(old(mongo.items), Visible(mongo, mp.1), Visible(mongo, [item]));
        }
        k := k + 1;
      }
      assert rows[..|rows|] == rows;
    }

    /** The two passes and the final status update of a batch whose app team resolved to `app`. */
    method RunBatch(rec: string, app: int, batch: seq<Row>, now: int)
      requires mongo != null
      modifies mongo, ids, this`debts, this`teams, this`nextTeamId, this`roleUser, this`queries
      ensures var pre := PrePass(Resolver(lookups, old(roleUser), app), rec, now, batch, |batch|, old(ids.next));
        var main := MainPass(Reconciler(lookups.faults, systemTeamId, now), old(Snapshot()), rec, now, pre.rows);
        ids.next == old(ids.next) + |batch| && queries == old(queries) + pre.queries
        && mongo.items == old(mongo.items) + Visible(mongo, pre.items + main.1)
        && Snapshot() == main.0
        && mongo.records == (if pre.rows == [] then old(mongo.records) else
             var u := StatusUpdate(Connected(mongo), mongo.updateFaults, old(mongo.records), rec, StatusDone, now);
             if u.Ok? then u.value else old(mongo.records))
    {
      var rows := RunPrePass(rec, app, batch, now);
      ghost var pre := PrePass(Resolver(lookups, old(roleUser), app), rec, now, batch, |batch|, old(ids.next));
      ghost var items1 := mongo.items;
      if |rows| == 0 {
        assert pre.items + [] == pre.items;
        return;
      }
      RunMainPass(rec, rows, now);
      VisibleConcat(mongo, pre.items, MainPass(Reconciler(lookups.faults, systemTeamId, now), old(Snapshot()), rec, now, pre.rows).1);
      Helpers.AppendAssoc(old(mongo.items), Visible(mongo, pre.items),
        Visible(mongo, MainPass(Reconciler(lookups.faults, systemTeamId, now), old(Snapshot()), rec, now, pre.rows).1));
      var _ := UpdateImportRecordStatusDone(mongo, rec, now);
    }

    /** `ProcessBatch`. `ctxValue` is the import record id carried by the context, and `now`
        the clock reading used for every timestamp of the batch. */
    method ProcessBatch(ctxValue: Option<string>, batch: seq<Row>, now: int) returns (err: Option<string>)
      modifies mongo, ids, this`debts, this`teams, this`nextTeamId, this`roleUser, this`queries
      ensures var rec := RecordIdOf(ctxValue);
        var deps := CheckDeps(pgAvailable, mongo);
        var app := old(AppTeamAnswer());
        var pre := PrePass(Resolver(lookups, old(roleUser), if app.Ok? then app.value else 0), rec, now, batch, |batch|, old(ids.next));
        var main := MainPass(Reconciler(lookups.faults, systemTeamId, now), old(Snapshot()), rec, now, pre.rows);
        if deps.Some? then
          err == deps && Snapshot() == old(Snapshot()) && queries == old(queries) && ids.next == old(ids.next)
          && (mongo != null ==> mongo.items == old(mongo.items) && mongo.records == old(mongo.records))
        else if app.Err? then
          err == Some(if IsNoRows(app) then "app team not found: " + DefaultAppTeam else "lookup app team failed: " + app.error)
          && Snapshot() == old(Snapshot()) && queries == old(queries) + [AppTeamLookup] && ids.next == old(ids.next)
          && mongo.items == old(mongo.items) && mongo.records == old(mongo.records)
        else
          err.None? && ids.next == old(ids.next) + |batch|
          && queries == old(queries) + [AppTeamLookup] + pre.queries
          && mongo.items == old(mongo.items) + Visible(mongo, pre.items + main.1)
          && Snapshot() == main.0
          && mongo.records == (if pre.rows == [] then old(mongo.records) else
               var u := StatusUpdate(true, mongo.updateFaults, old(mongo.records), rec, StatusDone, now);
               if u.Ok? then u.value else old(mongo.records))
    {
      var deps := CheckDeps(pgAvailable, mongo);
      if deps.Some? {
        return deps;
      }
      var rec := RecordIdOf(ctxValue);

      queries := queries + [AppTeamLookup];
      var appAnswer := AppTeamAnswer();
      if appAnswer.Err? {
        if appAnswer.error == ErrNoRows {
          return Some("app team not found: " + DefaultAppTeam);
        }
        return Some("lookup app team failed: " + appAnswer.error);
      }
      RunBatch(rec, appAnswer.value, batch, now);
      err := None;
    }
  }
}
