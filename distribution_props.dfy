/** What one row of the redistribution main pass leaves behind, and what the pre-pass
    guarantees about the rows it lets through. */
module DistributionProps {
  import opened Wrappers
  import opened Text
  import opened Ports
  import opened Db
  import opened Ledger
  import opened Distribution

  /** The DELETE changes nothing once no membership is stale. */
  lemma {:induction false} RemoveStaleNoop(rows: seq<RoleUser>, teamId: int, owner: int, roleId: int)
    requires forall x :: x in rows ==> !Stale(x, teamId, owner, roleId)
    ensures RemoveStale(rows, teamId, owner, roleId) == rows
  {
    if rows != [] {
      assert rows[0] in rows;
      assert forall x :: x in rows[1..] ==> x in rows;
      RemoveStaleNoop(rows[1..], teamId, owner, roleId);
      assert [rows[0]] + rows[1..] == rows;
    }
  }

  /** The team of a row, as the main pass names it. */
  function TeamName(r: ValidRow): string {
    DebtTeamPrefix + r.debtId
  }

  lemma TeamNameIsDebtTeam(r: ValidRow)
    ensures HasPrefix(TeamName(r), DebtTeamPrefix)
  {
    assert TeamName(r)[..|DebtTeamPrefix|] == DebtTeamPrefix;
  }

  /** The check that the team name starts with "debt/" never fires: the team is fetched by its "debt/" name. */
  lemma ReconcileNeverFailsPrefix(t: Tables, faults: map<Stmt, string>, systemTeamId: int, now: int, r: ValidRow)
    ensures var f := Reconcile(t, faults, systemTeamId, now, r).failure;
      f.None? || f.value.0 != TeamPrefixStep
  {
    TeamNameIsDebtTeam(r);
  }

  /** SELECT right after the INSERT … ON CONFLICT DO NOTHING always finds the team, so the
      select step fails only when its statement fails. */
  lemma ReconcileSelectFindsTeam(t: Tables, faults: map<Stmt, string>, systemTeamId: int, now: int, r: ValidRow)
    ensures var f := Reconcile(t, faults, systemTeamId, now, r).failure;
      f.Some? && f.value.0 == SelectTeamStep ==> SelectTeam(TeamName(r)) in faults && f.value.1 == faults[SelectTeam(TeamName(r))]
  {
  }

  /** A failure at a step keeps every write of the steps before it and makes none after:
      the tables are those the earlier steps produced, and the error is that statement's. */
  lemma ReconcileFailureFrame(t: Tables, faults: map<Stmt, string>, systemTeamId: int, now: int, r: ValidRow)
    ensures var rc := Reconcile(t, faults, systemTeamId, now, r);
      var t1 := SetOwner(t, r.debtId, r.userId, now);
      var t2 := EnsureTeamRow(t1, TeamName(r));
      (rc.failure.Some? && rc.failure.value.0 == UpdateDebtsStep <==> UpdateOwner(r.debtId) in faults)
      && (UpdateOwner(r.debtId) in faults ==> rc == Reconciled(t, Some((UpdateDebtsStep, faults[UpdateOwner(r.debtId)]))))
      && (rc.failure.Some? && rc.failure.value.0 == EnsureTeamStep ==>
            rc.tables == t1 && rc.failure.value.1 == faults[EnsureTeam(TeamName(r))])
      && (rc.failure.Some? && (rc.failure.value.0 == SelectTeamStep || rc.failure.value.0 == DeleteRoleUserStep) ==>
            rc.tables == t2)
      && (rc.failure.Some? && rc.failure.value.0 == DeleteRoleUserStep ==>
            rc.failure.value.1 == faults[DeleteStale(t2.teams[TeamName(r)])])
      && (rc.failure.Some? && rc.failure.value.0 == InsertRoleUserStep ==>
            rc.tables == DeleteWrong(t2, t2.teams[TeamName(r)], r.debtId, r.roleId, systemTeamId)
            && rc.failure.value.1 == faults[InsertRole(t2.teams[TeamName(r)])])
  {
    TeamNameIsDebtTeam(r);
  }

  /** A failed step never touches a relation that a later step writes: a failure before the
      team steps leaves the teams, and one before the membership steps leaves role_user. */
  lemma ReconcileFailureKeepsLater(t: Tables, faults: map<Stmt, string>, systemTeamId: int, now: int, r: ValidRow)
    ensures var rc := Reconcile(t, faults, systemTeamId, now, r);
      rc.failure.Some? && StepIndex(rc.failure.value.0) <= 1 ==> rc.tables.teams == t.teams && rc.tables.nextTeamId == t.nextTeamId
    ensures var rc := Reconcile(t, faults, systemTeamId, now, r);
      rc.failure.Some? && StepIndex(rc.failure.value.0) <= 4 ==> rc.tables.roleUser == t.roleUser
  {
    TeamNameIsDebtTeam(r);
  }

  /** A completed row went through every step: the team exists after its INSERT, and the
      tables are those the four writes produce in turn. */
  lemma ReconcileDone(t: Tables, faults: map<Stmt, string>, systemTeamId: int, now: int, r: ValidRow)
    requires Reconcile(t, faults, systemTeamId, now, r).failure.None?
    ensures var t2 := EnsureTeamRow(SetOwner(t, r.debtId, r.userId, now), TeamName(r));
      TeamName(r) in t2.teams
      && UpdateOwner(r.debtId) !in faults && EnsureTeam(TeamName(r)) !in faults && SelectTeam(TeamName(r)) !in faults
      && DeleteStale(t2.teams[TeamName(r)]) !in faults && InsertRole(t2.teams[TeamName(r)]) !in faults
      && Reconcile(t, faults, systemTeamId, now, r).tables
         == InsertIfAbsent(DeleteWrong(t2, t2.teams[TeamName(r)], r.debtId, r.roleId, systemTeamId),
                           r.userId, r.roleId, t2.teams[TeamName(r)])
  {
    TeamNameIsDebtTeam(r);
  }

  /** After a completed row the debt (when the table has it) is owned by the user, and no
      other debt changed. */
  lemma ReconcileSetsOwner(t: Tables, faults: map<Stmt, string>, systemTeamId: int, now: int, r: ValidRow)
    requires Reconcile(t, faults, systemTeamId, now, r).failure.None?
    ensures var t' := Reconcile(t, faults, systemTeamId, now, r).tables;
      t'.debts.Keys == t.debts.Keys
      && (r.debtId in t.debts ==> t'.debts[r.debtId].userId == Some(r.userId))
      && (r.debtId in t.debts && t.debts[r.debtId].userId == Some(r.userId) ==> t'.debts[r.debtId] == t.debts[r.debtId])
      && (forall d :: d in t.debts && d != r.debtId ==> t'.debts[d] == t.debts[d])
  {
    ReconcileDone(t, faults, systemTeamId, now, r);
    var t1 := SetOwner(t, r.debtId, r.userId, now);
    var t2 := EnsureTeamRow(t1, TeamName(r));
    var team := t2.teams[TeamName(r)];
    var t3 := DeleteWrong(t2, team, r.debtId, r.roleId, systemTeamId);
    assert InsertIfAbsent(t3, r.userId, r.roleId, team).debts == t3.debts == t2.debts == t1.debts;
  }

  /** After a completed row the team "debt/<debt id>" exists, and no other team changed. */
  lemma ReconcileTeamExists(t: Tables, faults: map<Stmt, string>, systemTeamId: int, now: int, r: ValidRow)
    requires Reconcile(t, faults, systemTeamId, now, r).failure.None?
    ensures var t' := Reconcile(t, faults, systemTeamId, now, r).tables;
      TeamName(r) in t'.teams
      && (TeamName(r) in t.teams ==> t'.teams == t.teams)
      && (forall n :: n in t.teams ==> n in t'.teams && t'.teams[n] == t.teams[n])
      && t'.teams.Keys == t.teams.Keys + {TeamName(r)}
  {
    ReconcileDone(t, faults, systemTeamId, now, r);
    var t1 := SetOwner(t, r.debtId, r.userId, now);
    var t2 := EnsureTeamRow(t1, TeamName(r));
    var team := t2.teams[TeamName(r)];
    var t3 := DeleteWrong(t2, team, r.debtId, r.roleId, systemTeamId);
    assert InsertIfAbsent(t3, r.userId, r.roleId, team).teams == t3.teams == t2.teams;
    assert t1.teams == t.teams;
  }

  /** After a completed row the user holds the role in the debt's team; unless that team is
      the system team, no other (user, role) pair is left in it; and no other team's
      memberships changed. */
  lemma ReconcileMembers(t: Tables, faults: map<Stmt, string>, systemTeamId: int, now: int, r: ValidRow)
    requires Reconcile(t, faults, systemTeamId, now, r).failure.None?
    ensures var t' := Reconcile(t, faults, systemTeamId, now, r).tables;
      var team := t'.teams[TeamName(r)];
      HasMembership(t'.roleUser, r.userId, r.roleId, team)
      && (r.debtId in t.debts && team != systemTeamId ==>
            forall x :: x in t'.roleUser && x.teamId == team ==> x.userId == r.userId && x.roleId == r.roleId)
      && (forall x: RoleUser :: x.teamId != team ==> (x in t'.roleUser <==> x in t.roleUser))
      && (forall x :: x in t'.roleUser && x !in t.roleUser ==> x == RoleUser(r.userId, r.roleId, DefaultUserType, team))
  {
    ReconcileDone(t, faults, systemTeamId, now, r);
    TeamNameIsDebtTeam(r);
    var name := TeamName(r);
    var t1 := SetOwner(t, r.debtId, r.userId, now);
    var t2 := EnsureTeamRow(t1, name);
    var team := t2.teams[name];
    var t3 := DeleteWrong(t2, team, r.debtId, r.roleId, systemTeamId);
    assert IsDebtTeam(t2.teams, team);
    if IsDebtTeam(t2.teams, team) && r.debtId in t2.debts && team != systemTeamId && t2.debts[r.debtId].userId.Some? {
      RemoveStaleMembers(t2.roleUser, team, t2.debts[r.debtId].userId.value, r.roleId);
    }
    var t' := InsertIfAbsent(t3, r.userId, r.roleId, team);
    assert forall x :: x in t'.roleUser ==> x in t3.roleUser || x == RoleUser(r.userId, r.roleId, DefaultUserType, team);
    if !HasMembership(t3.roleUser, r.userId, r.roleId, team) {
      assert RoleUser(r.userId, r.roleId, DefaultUserType, team) in t'.roleUser;
    }
  }

  /** Every membership the main pass inserts has `user_type` the User class. */
  lemma ReconcileUserType(t: Tables, faults: map<Stmt, string>, systemTeamId: int, now: int, r: ValidRow)
    ensures var t' := Reconcile(t, faults, systemTeamId, now, r).tables;
      forall x :: x in t'.roleUser && x !in t.roleUser ==> x.userType == DefaultUserType
  {
    TeamNameIsDebtTeam(r);
    var name := TeamName(r);
    var t1 := SetOwner(t, r.debtId, r.userId, now);
    var t2 := EnsureTeamRow(t1, name);
    if name in t2.teams {
      var team := t2.teams[name];
      if IsDebtTeam(t2.teams, team) && r.debtId in t2.debts && team != systemTeamId && t2.debts[r.debtId].userId.Some? {
        RemoveStaleMembers(t2.roleUser, team, t2.debts[r.debtId].userId.value, r.roleId);
      }
    }
  }

  /** Team ids stay unique and below the next id handed out. */
  lemma ReconcileKeepsValid(t: Tables, faults: map<Stmt, string>, systemTeamId: int, now: int, r: ValidRow)
    requires TablesValid(t)
    ensures TablesValid(Reconcile(t, faults, systemTeamId, now, r).tables)
  {
    var rc := Reconcile(t, faults, systemTeamId, now, r);
    var t2 := EnsureTeamRow(SetOwner(t, r.debtId, r.userId, now), TeamName(r));
    EnsureTeamRowValid(SetOwner(t, r.debtId, r.userId, now), TeamName(r));
    ReconcileTeams(t, faults, systemTeamId, now, r);
    assert (rc.tables.teams == t.teams && rc.tables.nextTeamId == t.nextTeamId)
      || (rc.tables.teams == t2.teams && rc.tables.nextTeamId == t2.nextTeamId);
  }

  /** The INSERT of a team keeps names unique and hands out a fresh id. */
  lemma EnsureTeamRowValid(t: Tables, name: string)
    requires TablesValid(t)
    ensures TablesValid(EnsureTeamRow(t, name))
  {
  }

  /** Only the team INSERT writes the teams. */
  lemma ReconcileTeams(t: Tables, faults: map<Stmt, string>, systemTeamId: int, now: int, r: ValidRow)
    ensures var rc := Reconcile(t, faults, systemTeamId, now, r);
      var t2 := EnsureTeamRow(SetOwner(t, r.debtId, r.userId, now), TeamName(r));
      (rc.tables.teams == t.teams && rc.tables.nextTeamId == t.nextTeamId)
      || (rc.tables.teams == t2.teams && rc.tables.nextTeamId == t2.nextTeamId)
  {
  }

  /** Running a completed row again, with the same faults, writes nothing and completes. */
  lemma ReconcileRepeat(t: Tables, faults: map<Stmt, string>, systemTeamId: int, now: int, later: int, r: ValidRow)
    requires Reconcile(t, faults, systemTeamId, now, r).failure.None?
    requires r.debtId in t.debts
    ensures var t' := Reconcile(t, faults, systemTeamId, now, r).tables;
      Reconcile(t', faults, systemTeamId, later, r) == Reconciled(t', None)
  {
    TeamNameIsDebtTeam(r);
    ReconcileDone(t, faults, systemTeamId, now, r);
    ReconcileSetsOwner(t, faults, systemTeamId, now, r);
    ReconcileTeamExists(t, faults, systemTeamId, now, r);
    ReconcileMembers(t, faults, systemTeamId, now, r);
    var t' := Reconcile(t, faults, systemTeamId, now, r).tables;
    var name := TeamName(r);
    var team := t'.teams[name];
    assert team == EnsureTeamRow(SetOwner(t, r.debtId, r.userId, now), name).teams[name];
    assert SetOwner(t', r.debtId, r.userId, later) == t';
    assert EnsureTeamRow(t', name) == t';
    assert IsDebtTeam(t'.teams, team);
    if team != systemTeamId {
      RemoveStaleNoop(t'.roleUser, team, r.userId, r.roleId);
    }
    assert DeleteWrong(t', team, r.debtId, r.roleId, systemTeamId) == t';
    assert InsertIfAbsent(t', r.userId, r.roleId, team) == t';
    assert Reconcile(t', faults, systemTeamId, later, r) == Reconciled(InsertIfAbsent(DeleteWrong(t', team, r.debtId, r.roleId, systemTeamId), r.userId, r.roleId, team), None);
  }

  // ---------------------------------------------------------------------------
  // The pre-pass
  // ---------------------------------------------------------------------------

  /** What a cache should hold for a key whose query answered `a`: the id, or nil for
      "no rows". */
  function Expected<V>(a: Result<V>): Option<V> {
    if a.Ok? then Some(a.value) else None
  }

  /** Every cached entry is what the database answers for its key. */
  predicate Sound(lk: Lookups, roles: seq<RoleUser>, app: int, c: Caches) {
    (forall k :: k in c.debt ==> c.debt[k] == Expected(DebtAnswer(lk, k)))
    && (forall k :: k in c.user ==> c.user[k] == Expected(UserAnswer(lk, k)))
    && (forall k :: k in c.role ==> c.role[k] == Expected(RoleAnswer(lk, roles, app, k)))
  }

  /** Caches only gain keys. */
  predicate Grows(c: Caches, c': Caches) {
    c.debt.Keys <= c'.debt.Keys && c.user.Keys <= c'.user.Keys && c.role.Keys <= c'.role.Keys
  }

  /** Every query in `qs` is for a key the caches `c` did not hold. */
  predicate Fresh(c: Caches, qs: seq<Stmt>) {
    forall q :: q in qs ==> ((q.DebtLookup? && q.number !in c.debt) || (q.UserLookup? && q.username !in c.user)
      || (q.RoleLookup? && q.userId !in c.role))
  }

  /** Every lookup in `qs` that the database answered without a fault left its key cached. */
  predicate Remembers(lk: Lookups, c: Caches, qs: seq<Stmt>) {
    forall q :: q in qs && q !in lk.faults ==> ((q.DebtLookup? && q.number in c.debt)
      || (q.UserLookup? && q.username in c.user) || (q.RoleLookup? && q.userId in c.role))
  }

  /** Every statement in `qs` the database answers without a fault occurs once. */
  predicate OnceEach(lk: Lookups, qs: seq<Stmt>) {
    forall q :: q in qs && q !in lk.faults ==> multiset(qs)[q] == 1
  }

  /** A row the pre-pass accepts carries the ids the database gives for its number, its
      username and the user's role in the app team. */
  predicate Resolved(lk: Lookups, roles: seq<RoleUser>, app: int, r: ValidRow) {
    ResolvedBy(lk, roles, app, r, DebtNumberOf(r.payload), UsernameOf(r.payload))
  }

  /** The same, for the keys `dn` and `un` read from the row. */
  predicate ResolvedBy(lk: Lookups, roles: seq<RoleUser>, app: int, r: ValidRow, dn: string, un: string) {
    DebtAnswer(lk, dn) == Ok(r.debtId) && UserAnswer(lk, un) == Ok(r.userId)
    && RoleAnswer(lk, roles, app, r.userId) == Ok(r.roleId)
  }

  lemma DebtStageFacts(lk: Lookups, roles: seq<RoleUser>, app: int, c: Caches, dn: string)
    requires Sound(lk, roles, app, c)
    ensures var d := DebtStage(lk, c, dn);
      Sound(lk, roles, app, d.caches) && Grows(c, d.caches) && d.caches.user == c.user && d.caches.role == c.role
      && (d.Go? ==> DebtAnswer(lk, dn) == Ok(d.value))
  {
    ResolveKeepsCache(c.debt, dn, DebtAnswer(lk, dn));
  }

  lemma UserStageFacts(lk: Lookups, roles: seq<RoleUser>, app: int, c: Caches, un: string)
    requires Sound(lk, roles, app, c)
    ensures var u := UserStage(lk, c, un);
      Sound(lk, roles, app, u.caches) && Grows(c, u.caches) && u.caches.debt == c.debt && u.caches.role == c.role
      && (u.Go? ==> UserAnswer(lk, un) == Ok(u.value))
  {
    ResolveKeepsCache(c.user, un, UserAnswer(lk, un));
  }

  lemma RoleStageFacts(lk: Lookups, roles: seq<RoleUser>, app: int, c: Caches, userId: int)
    requires Sound(lk, roles, app, c)
    ensures var r := RoleStage(lk, roles, app, c, userId);
      Sound(lk, roles, app, r.caches) && Grows(c, r.caches) && r.caches.debt == c.debt && r.caches.user == c.user
      && (r.Go? ==> RoleAnswer(lk, roles, app, userId) == Ok(r.value))
  {
    ResolveKeepsCache(c.role, userId, RoleAnswer(lk, roles, app, userId));
  }

  lemma DebtStageQueries(lk: Lookups, c: Caches, dn: string)
    ensures var d := DebtStage(lk, c, dn);
      Grows(c, d.caches) && (d.queries == [] || (d.queries == [DebtLookup(dn)] && dn !in c.debt))
      && Fresh(c, d.queries) && Remembers(lk, d.caches, d.queries)
  {
    ResolveKeepsCache(c.debt, dn, DebtAnswer(lk, dn));
  }

  lemma UserStageQueries(lk: Lookups, c: Caches, un: string)
    ensures var u := UserStage(lk, c, un);
      Grows(c, u.caches) && (u.queries == [] || (u.queries == [UserLookup(un)] && un !in c.user))
      && Fresh(c, u.queries) && Remembers(lk, u.caches, u.queries)
  {
    ResolveKeepsCache(c.user, un, UserAnswer(lk, un));
  }

  lemma RoleStageQueries(lk: Lookups, roles: seq<RoleUser>, app: int, c: Caches, userId: int)
    ensures var r := RoleStage(lk, roles, app, c, userId);
      Grows(c, r.caches) && (r.queries == [] || (r.queries == [RoleLookup(userId)] && userId !in c.role))
      && Fresh(c, r.queries) && Remembers(lk, r.caches, r.queries)
  {
    ResolveKeepsCache(c.role, userId, RoleAnswer(lk, roles, app, userId));
  }

  /** What one row of the pre-pass does to the caches and the query log, the row's keys
      being `dn` and `un`. */
  predicate StepFacts(lk: Lookups, roles: seq<RoleUser>, app: int, c: Caches, s: RowStep, dn: string, un: string) {
    Sound(lk, roles, app, s.caches) && Grows(c, s.caches) && Fresh(c, s.queries)
    && Remembers(lk, s.caches, s.queries) && (forall q :: q in s.queries ==> multiset(s.queries)[q] == 1)
    && (s.outcome.Accept? ==> ResolvedBy(lk, roles, app, s.outcome.row, dn, un))
  }

  predicate RowFacts(lk: Lookups, roles: seq<RoleUser>, app: int, c: Caches, s: RowStep) {
    Sound(lk, roles, app, s.caches) && Grows(c, s.caches) && Fresh(c, s.queries)
    && Remembers(lk, s.caches, s.queries) && (forall q :: q in s.queries ==> multiset(s.queries)[q] == 1)
    && (s.outcome.Accept? ==> Resolved(lk, roles, app, s.outcome.row))
  }

  lemma Lookups3Facts(lk: Lookups, roles: seq<RoleUser>, app: int, c: Caches, m: Row, rowId: string, dn: string, un: string)
    requires Sound(lk, roles, app, c)
    ensures var s := Lookups3(lk, roles, app, c, m, rowId, dn, un);
      StepFacts(lk, roles, app, c, s, dn, un) && (s.outcome.Accept? ==> s.outcome.row.payload == m)
  {
    Lookups3Caches(lk, roles, app, c, m, rowId, dn, un);
    Lookups3Queries(lk, roles, app, c, m, rowId, dn, un);
  }

  /** The caches after the lookups of a row are sound and hold every key they held before;
      an accepted row carries the ids the database gives. */
  lemma Lookups3Caches(lk: Lookups, roles: seq<RoleUser>, app: int, c: Caches, m: Row, rowId: string, dn: string, un: string)
    requires Sound(lk, roles, app, c)
    ensures var s := Lookups3(lk, roles, app, c, m, rowId, dn, un);
      Sound(lk, roles, app, s.caches) && Grows(c, s.caches)
      && (s.outcome.Accept? ==> ResolvedBy(lk, roles, app, s.outcome.row, dn, un) && s.outcome.row.payload == m)
  {
    var s := Lookups3(lk, roles, app, c, m, rowId, dn, un);
    var d := DebtStage(lk, c, dn);
    DebtStageFacts(lk, roles, app, c, dn);
    if d.Stop? {
      assert s.caches == d.caches && !s.outcome.Accept?;
    } else {
      var u := UserStage(lk, d.caches, un);
      UserStageFacts(lk, roles, app, d.caches, un);
      if u.Stop? {
        assert s.caches == u.caches && !s.outcome.Accept?;
      } else {
        var r := RoleStage(lk, roles, app, u.caches, u.value);
        RoleStageFacts(lk, roles, app, u.caches, u.value);
        assert s.caches == r.caches;
        assert Grows(c, d.caches) && Grows(d.caches, u.caches) && Grows(u.caches, r.caches);
        if r.Go? {
          assert s.outcome == Accept(ValidRow(rowId, m, d.value, u.value, r.value));
        }
      }
    }
  }

  /** The queries of a row are for keys not yet cached, none twice, and each one the
      database answered left its key cached. */
  lemma Lookups3Queries(lk: Lookups, roles: seq<RoleUser>, app: int, c: Caches, m: Row, rowId: string, dn: string, un: string)
    ensures var s := Lookups3(lk, roles, app, c, m, rowId, dn, un);
      Fresh(c, s.queries) && Remembers(lk, s.caches, s.queries) && (forall q :: q in s.queries ==> multiset(s.queries)[q] == 1)
  {
    var d := DebtStage(lk, c, dn);
    DebtStageQueries(lk, c, dn);
    if d.Go? {
      var u := UserStage(lk, d.caches, un);
      UserStageQueries(lk, d.caches, un);
      FreshConcat(c, d.caches, d.queries, u.queries);
      RemembersConcat(lk, d.caches, u.caches, d.queries, u.queries);
      if u.Go? {
        var r := RoleStage(lk, roles, app, u.caches, u.value);
        RoleStageQueries(lk, roles, app, u.caches, u.value);
        FreshConcat(c, u.caches, d.queries + u.queries, r.queries);
        RemembersConcat(lk, u.caches, r.caches, d.queries + u.queries, r.queries);
        Distinct3(d.queries, u.queries, r.queries, dn, un, u.value);
      } else {
        Distinct3(d.queries, u.queries, [], dn, un, 0);
        assert d.queries + u.queries + [] == d.queries + u.queries;
      }
    } else {
      Distinct3(d.queries, [], [], dn, un, 0);
      assert d.queries + [] + [] == d.queries;
    }
  }

  lemma FreshConcat(c0: Caches, c1: Caches, qa: seq<Stmt>, qb: seq<Stmt>)
    requires Fresh(c0, qa) && Fresh(c1, qb) && Grows(c0, c1)
    ensures Fresh(c0, qa + qb)
  {
    forall q | q in qa + qb
      ensures (q.DebtLookup? && q.number !in c0.debt) || (q.UserLookup? && q.username !in c0.user)
        || (q.RoleLookup? && q.userId !in c0.role)
    {
      if q !in qa {
        assert q in qb;
      }
    }
  }

  lemma RemembersConcat(lk: Lookups, c1: Caches, c2: Caches, qa: seq<Stmt>, qb: seq<Stmt>)
    requires Remembers(lk, c1, qa) && Remembers(lk, c2, qb) && Grows(c1, c2)
    ensures Remembers(lk, c2, qa + qb)
  {
    forall q | q in qa + qb && q !in lk.faults
      ensures (q.DebtLookup? && q.number in c2.debt) || (q.UserLookup? && q.username in c2.user)
        || (q.RoleLookup? && q.userId in c2.role)
    {
      if q !in qa {
        assert q in qb;
      }
    }
  }

  /** One optional query of each kind: no statement repeats. */
  lemma Distinct3(qa: seq<Stmt>, qb: seq<Stmt>, qc: seq<Stmt>, dn: string, un: string, userId: int)
    requires qa == [] || qa == [DebtLookup(dn)]
    requires qb == [] || qb == [UserLookup(un)]
    requires qc == [] || qc == [RoleLookup(userId)]
    ensures forall q :: q in qa + qb + qc ==> multiset(qa + qb + qc)[q] == 1
  {
  }

  lemma ResolveRowFacts(lk: Lookups, roles: seq<RoleUser>, app: int, c: Caches, m: Row, rowId: string)
    requires Sound(lk, roles, app, c)
    ensures RowFacts(lk, roles, app, c, ResolveRow(lk, roles, app, c, m, rowId))
  {
    if DebtNumberOf(m) != "" && UsernameOf(m) != "" {
      Lookups3Facts(lk, roles, app, c, m, rowId, DebtNumberOf(m), UsernameOf(m));
    }
  }

  lemma OnceEachConcat(lk: Lookups, c: Caches, qa: seq<Stmt>, qb: seq<Stmt>)
    requires OnceEach(lk, qa) && Remembers(lk, c, qa) && Fresh(c, qb)
    requires forall q :: q in qb ==> multiset(qb)[q] == 1
    ensures OnceEach(lk, qa + qb)
  {
    forall q | q in qa + qb && q !in lk.faults
      ensures multiset(qa + qb)[q] == 1
    {
      if q in qa {
        assert q !in qb;
      } else {
        assert q in qb;
      }
    }
  }

  /** What holds of the pre-pass state after any prefix of the batch: the caches hold only
      what the database answers, every lookup the database answers (a not-found included)
      has been sent at most once, and every row let through carries the debt, user and role
      ids the database gives for it. */
  predicate PreInv(lk: Lookups, roles: seq<RoleUser>, app: int, st: PreState) {
    Sound(lk, roles, app, st.caches) && Remembers(lk, st.caches, st.queries) && OnceEach(lk, st.queries)
    && forall r :: r in st.rows ==> Resolved(lk, roles, app, r)
  }

  lemma AdvanceKeeps(lk: Lookups, roles: seq<RoleUser>, app: int, st: PreState, s: RowStep, rec: string, now: int, m: Row, rowId: string)
    requires PreInv(lk, roles, app, st) && RowFacts(lk, roles, app, st.caches, s)
    ensures PreInv(lk, roles, app, Advance(st, s, rec, now, m, rowId))
  {
    RemembersConcat(lk, st.caches, s.caches, st.queries, s.queries);
    RemembersGrow(lk, st.caches, s.caches, st.queries);
    OnceEachConcat(lk, st.caches, st.queries, s.queries);
  }

  /** The invariant holds over every prefix of the batch. */
  lemma PrePassFacts(lk: Lookups, roles: seq<RoleUser>, app: int, rec: string, now: int,
                     batch: seq<Row>, n: nat, firstId: nat)
    requires n <= |batch|
    ensures PreInv(lk, roles, app, PrePass(Resolver(lk, roles, app), rec, now, batch, n, firstId))
  {
    var resolve := Resolver(lk, roles, app);
    forall c: Caches, m: Row, rowId: string | Sound(lk, roles, app, c)
      ensures RowFacts(lk, roles, app, c, resolve(c, m, rowId))
    {
      ResolveRowFacts(lk, roles, app, c, m, rowId);
    }
    PrePassKeeps(lk, roles, app, resolve, rec, now, batch, n, firstId);
  }

  /** The invariant holds over every prefix of the batch for any verdict function that
      keeps the per-row facts. */
  lemma {:induction false} PrePassKeeps(lk: Lookups, roles: seq<RoleUser>, app: int, resolve: (Caches, Row, string) -> RowStep,
                                        rec: string, now: int, batch: seq<Row>, n: nat, firstId: nat)
    requires n <= |batch|
    requires forall c: Caches, m: Row, rowId: string :: Sound(lk, roles, app, c) ==> RowFacts(lk, roles, app, c, resolve(c, m, rowId))
    ensures PreInv(lk, roles, app, PrePass(resolve, rec, now, batch, n, firstId))
  {
    if n > 0 {
      PrePassKeeps(lk, roles, app, resolve, rec, now, batch, n - 1, firstId);
      var st := PrePass(resolve, rec, now, batch, n - 1, firstId);
      var rowId := UuidText(firstId + n - 1);
      AdvanceKeeps(lk, roles, app, st, resolve(st.caches, batch[n - 1], rowId), rec, now, batch[n - 1], rowId);
    }
  }

  lemma RemembersGrow(lk: Lookups, c: Caches, c': Caches, qs: seq<Stmt>)
    requires Remembers(lk, c, qs) && Grows(c, c')
    ensures Remembers(lk, c', qs)
  {
  }

  /** The two presence checks come first, the number before the username, and reject the
      row with no lookup and no change to the caches. */
  lemma MissingKeysRejected(lk: Lookups, roles: seq<RoleUser>, app: int, c: Caches, m: Row, rowId: string)
    ensures IsBlank(Field(m, "debt_number")) ==>
      ResolveRow(lk, roles, app, c, m, rowId) == RowStep(Reject("missing debt_number"), c, [])
    ensures !IsBlank(Field(m, "debt_number")) && IsBlank(Field(m, "debt_username")) ==>
      ResolveRow(lk, roles, app, c, m, rowId) == RowStep(Reject("missing username"), c, [])
  {
    TrimSpaceEmpty(Field(m, "debt_number"));
    TrimSpaceEmpty(Field(m, "debt_username"));
  }

  /** A row whose debt number, or (its debt resolved from the cache) whose username, is a
      cached miss is skipped silently: no item, no query. */
  lemma CachedMissSkipped(lk: Lookups, roles: seq<RoleUser>, app: int, c: Caches, m: Row, rowId: string)
    ensures var dn, un := DebtNumberOf(m), UsernameOf(m);
      dn != "" && un != "" && dn in c.debt && c.debt[dn].None? ==>
        ResolveRow(lk, roles, app, c, m, rowId) == RowStep(Skip, c, [])
    ensures var dn, un := DebtNumberOf(m), UsernameOf(m);
      dn != "" && un != "" && dn in c.debt && c.debt[dn].Some? && un in c.user && c.user[un].None? ==>
        ResolveRow(lk, roles, app, c, m, rowId) == RowStep(Skip, c, [])
  {
  }

  /** Of two rows with the same unknown debt number, only the first is logged ("debt not
      found: N", after one lookup); the second is skipped without a lookup. */
  lemma UnknownDebtLoggedOnce(lk: Lookups, roles: seq<RoleUser>, app: int, c: Caches, m1: Row, m2: Row, id1: string, id2: string)
    requires DebtNumberOf(m1) == DebtNumberOf(m2) != "" && UsernameOf(m1) != "" && UsernameOf(m2) != ""
    requires DebtNumberOf(m1) !in c.debt && DebtNumberOf(m1) !in lk.debtNumbers && DebtLookup(DebtNumberOf(m1)) !in lk.faults
    ensures var s1 := ResolveRow(lk, roles, app, c, m1, id1);
      s1.outcome == Reject("debt not found: " + DebtNumberOf(m1)) && s1.queries == [DebtLookup(DebtNumberOf(m1))]
      && ResolveRow(lk, roles, app, s1.caches, m2, id2) == RowStep(Skip, s1.caches, [])
  {
  }

  // ---------------------------------------------------------------------------
  // The main pass
  // ---------------------------------------------------------------------------

  /** The `k`-th item of the main pass is the verdict on the `k`-th surviving row, reconciled
      against the tables the rows before it left: a failure at one row aborts only that row. */
  lemma {:induction false} MainPassItem(reconcile: (Tables, ValidRow) -> Reconciled, t: Tables, rec: string, now: int,
                                        rows: seq<ValidRow>, k: nat)
    requires k < |rows|
    ensures |MainPass(reconcile, t, rec, now, rows).1| == |rows|
    ensures var before := MainPass(reconcile, t, rec, now, rows[..k]).0;
      MainPass(reconcile, t, rec, now, rows).1[k] == RowItem(rec, now, rows[k], reconcile(before, rows[k]).failure)
    decreases |rows|
  {
    MainPassShape(reconcile, t, rec, now, rows);
    var init := rows[..|rows| - 1];
    MainPassShape(reconcile, t, rec, now, init);
    if k < |rows| - 1 {
      MainPassItem(reconcile, t, rec, now, init, k);
      assert init[..k] == rows[..k];
    } else {
      assert init == rows[..k];
    }
  }

  /** A done item exactly for each row that completed. */
  lemma RowItemStatus(rec: string, now: int, r: ValidRow, failure: Option<(Step, string)>)
    ensures RowItem(rec, now, r, failure).status == StatusDone <==> failure.None?
    ensures failure.Some? ==> RowItem(rec, now, r, failure).errors == StepPrefix(failure.value.0) + failure.value.1
    ensures failure.None? ==> RowItem(rec, now, r, failure).errors == ""
  {
  }

  /** Team ids stay unique over the whole main pass. */
  lemma {:induction false} MainPassKeepsValid(t: Tables, faults: map<Stmt, string>, systemTeamId: int, rec: string, now: int,
                                              rows: seq<ValidRow>)
    requires TablesValid(t)
    ensures TablesValid(MainPass(Reconciler(faults, systemTeamId, now), t, rec, now, rows).0)
    decreases |rows|
  {
    if rows != [] {
      MainPassKeepsValid(t, faults, systemTeamId, rec, now, rows[..|rows| - 1]);
      ReconcileKeepsValid(MainPass(Reconciler(faults, systemTeamId, now), t, rec, now, rows[..|rows| - 1]).0, faults, systemTeamId, now, rows[|rows| - 1]);
    }
  }
}
