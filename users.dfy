/** `UsersProcessor`: each row with a first name, a username and a password becomes one user.
    A first pass checks the three required cells and logs the rows it rejects; the users of
    the other rows are then sent as one batch of INSERTs into "users", and each answer,
    read in order, logs its row with the row's warnings. A password that is not already a
    bcrypt hash is hashed on the way in. */
module Users {
  import opened Wrappers
  import opened Text
  import opened Ports
  import opened Ledger
  import opened Proc
  import opened Helpers

  const ModelType := "users"

  /** The table the INSERTs go to: the processor's configured table name is not used. */
  const UsersTable := "users"

  const RoleWarning := "role provided but not applied (no role-binding logic)"
  const DepartmentWarning := "department provided but not applied (no department-binding logic)"
  const BcryptWarning := "password was plaintext -> bcrypt applied"

  // ---------------------------------------------------------------------------
  // Passwords
  // ---------------------------------------------------------------------------

  /** The regular expression `^\$(2a|2b|2y)\$`. */
  predicate HasBcryptPrefix(pw: string) {
    HasPrefix(pw, "$2a$") || HasPrefix(pw, "$2b$") || HasPrefix(pw, "$2y$")
  }

  /** What `ensureBcrypt` takes for a hash already: the prefix, and at least 60 bytes. */
  predicate LooksHashed(pw: string) {
    HasBcryptPrefix(pw) && Utf8Len(pw) >= 60
  }

  /** `ensureBcrypt`: a password that looks hashed is kept, with `true`; any other is
      hashed by `hash` (`bcrypt.GenerateFromPassword` at cost 12), or kept as it is when
      hashing fails, with `false`. */
  function EnsureBcrypt(pw: string, hash: string -> Option<string>): (string, bool) {
    if LooksHashed(pw) then (pw, true)
    else match hash(pw)
      case Some(h) => (h, false)
      case None => (pw, false)
  }

  /** The flag is true exactly for a password that looks hashed, which is then kept; a
      password that does not is replaced by its hash, or kept when hashing fails. */
  lemma EnsureBcryptFacts(pw: string, hash: string -> Option<string>)
    ensures var (out, hashed) := EnsureBcrypt(pw, hash);
      (hashed <==> HasBcryptPrefix(pw) && Utf8Len(pw) >= 60)
      && (hashed ==> out == pw)
      && (!hashed && hash(pw).Some? ==> out == hash(pw).value)
      && (!hashed && hash(pw).None? ==> out == pw)
  {
  }

  /** Hashing is applied at most once: when the hash of a password looks hashed itself,
      passing the result through `ensureBcrypt` again keeps it. */
  lemma EnsureBcryptStable(pw: string, hash: string -> Option<string>)
    requires hash(pw).Some? && LooksHashed(hash(pw).value)
    ensures var out := EnsureBcrypt(pw, hash).0; EnsureBcrypt(out, hash) == (out, true)
  {
  }

  /** A password shorter than 60 characters is never taken for a hash, whatever its prefix. */
  lemma ShortPasswordHashed(pw: string, hash: string -> Option<string>)
    requires Utf8Len(pw) < 60
    ensures !EnsureBcrypt(pw, hash).1
  {
  }

  // ---------------------------------------------------------------------------
  // The first pass
  // ---------------------------------------------------------------------------

  /** A row that passed the checks: the row and its three required cells, trimmed. */
  datatype Pending = Pending(m: Row, firstName: string, username: string, password: string)

  datatype Verdict = Reject(msg: string) | Keep(p: Pending)

  /** The required cells in order; the first blank one rejects the row. */
  function Screen(m: Row): (v: Verdict) {
    var firstName, username, password := Trimmed(m, "first_name"), Trimmed(m, "username"), Trimmed(m, "password");
    if firstName == "" then Reject("missing first_name")
    else if username == "" then Reject("missing username")
    else if password == "" then Reject("missing password")
    else Keep(Pending(m, firstName, username, password))
  }

  /** The first blank required cell, in the order first name, username, password, names
      the failure; a row with all three is kept with them trimmed. */
  lemma ScreenFacts(m: Row)
    ensures var v := Screen(m); var f, u, p := Trimmed(m, "first_name"), Trimmed(m, "username"), Trimmed(m, "password");
      (v.Keep? <==> f != "" && u != "" && p != "")
      && (f == "" ==> v == Reject("missing first_name"))
      && (f != "" && u == "" ==> v == Reject("missing username"))
      && (f != "" && u != "" && p == "" ==> v == Reject("missing password"))
      && (v.Keep? ==> v.p == Pending(m, f, u, p))
  {
  }

  /** The state of the first pass: the items of the rejected rows, the kept rows, and the id
      the next item gets. */
  datatype Pass = Pass(items: seq<Item>, kept: seq<Pending>, next: nat)

  function Advance(rec: string, now: int, p: Pass, m: Row): Pass {
    match Screen(m)
    case Reject(msg) => Pass(p.items + [Failed(rec, ModelType, UuidText(p.next), m, msg, now)], p.kept, p.next + 1)
    case Keep(k) => Pass(p.items, p.kept + [k], p.next)
  }

  function Run(rec: string, now: int, p: Pass, rows: seq<Row>): Pass
    decreases |rows|
  {
    if rows == [] then p else Run(rec, now, Advance(rec, now, p, rows[0]), rows[1..])
  }

  // ---------------------------------------------------------------------------
  // The batch of inserts
  // ---------------------------------------------------------------------------

  /** The row `INSERT INTO users (...)` writes. */
  datatype User = User(
    firstName: string,
    lastName: Option<string>,
    middleName: Option<string>,
    username: string,
    email: Option<string>,
    phone: Option<string>,
    password: string,
    createdAt: int)

  /** The email: trimmed and lower-cased, or NULL when blank. */
  function EmailOf(m: Row): Option<string> {
    var v := Trimmed(m, "email");
    if v == "" then None else Some(ToLower(v))
  }

  /** The user of a kept row, created at `now`; role and department are not written. */
  function UserOf(p: Pending, hash: string -> Option<string>, now: int): User {
    User(p.firstName, NullIfEmpty(Field(p.m, "last_name")), NullIfEmpty(Field(p.m, "middle_name")), p.username,
         EmailOf(p.m), NullIfEmpty(Field(p.m, "phone")), EnsureBcrypt(p.password, hash).0, now)
  }

  /** The warnings of a kept row, in order: a role, a department, a password that had to be
      hashed. */
  function WarningsOf(p: Pending, hash: string -> Option<string>): seq<string> {
    (if NullIfEmpty(Field(p.m, "role")).Some? then [RoleWarning] else [])
    + (if NullIfEmpty(Field(p.m, "department")).Some? then [DepartmentWarning] else [])
    + (if !EnsureBcrypt(p.password, hash).1 then [BcryptWarning] else [])
  }

  /** One queued statement: the table and the user. */
  type Insert = RowInsert<User>

  /** The statements queued for the kept rows, in order. */
  function Statements(ps: seq<Pending>, hash: string -> Option<string>, now: int): (r: seq<Insert>)
    ensures |r| == |ps|
    decreases |ps|
  {
    if ps == [] then []
    else
      var n := |ps| - 1;
      Statements(ps[..n], hash, now) + [RowInsert(UsersTable, UserOf(ps[n], hash, now))]
  }

  /** The item logged for a kept row once its statement answered `err`, under id `id`: a
      failure with the error, or done with the row's warnings joined by "; ". */
  function Outcome(rec: string, now: int, hash: string -> Option<string>, p: Pending, err: Option<string>, id: string): Item {
    if err.Some? then Failed(rec, ModelType, id, p.m, err.value, now)
    else Done(rec, ModelType, id, p.m, JoinWarnings(WarningsOf(p, hash)), now)
  }

  /** The items of the answers, the `k`-th under `UuidText(first + k)`. */
  function Results(rec: string, now: int, hash: string -> Option<string>, ps: seq<Pending>, answers: seq<Option<string>>, first: nat): (r: seq<Item>)
    requires |answers| == |ps|
    ensures |r| == |ps|
    decreases |ps|
  {
    if ps == [] then []
    else
      var n := |ps| - 1;
      Results(rec, now, hash, ps[..n], answers[..n], first) + [Outcome(rec, now, hash, ps[n], answers[n], UuidText(first + n))]
  }

  // ---------------------------------------------------------------------------
  // Properties
  // ---------------------------------------------------------------------------

  /** The user written for a kept row: the three required cells trimmed, the optional ones
      NULL when blank, the email lower-cased, the password through `ensureBcrypt`, and
      neither role nor department. */
  lemma UserOfFacts(p: Pending, hash: string -> Option<string>, now: int)
    requires Screen(p.m) == Keep(p)
    ensures var u := UserOf(p, hash, now);
      u.firstName == Trimmed(p.m, "first_name") != "" && u.username == Trimmed(p.m, "username") != ""
      && (u.email.None? <==> IsBlank(Field(p.m, "email")))
      && (u.email.Some? ==> u.email.value == ToLower(TrimSpace(Field(p.m, "email"))))
      && (u.lastName.None? <==> IsBlank(Field(p.m, "last_name")))
      && (u.phone.None? <==> IsBlank(Field(p.m, "phone")))
      && (LooksHashed(p.password) ==> u.password == p.password)
      && u.createdAt == now
  {
    TrimSpaceEmpty(Field(p.m, "email"));
  }

  /** The role warning is there exactly for a non-blank role, the department warning for a
      non-blank department, the bcrypt warning for a password that did not look hashed,
      and in that order. */
  lemma WarningsFacts(p: Pending, hash: string -> Option<string>)
    ensures var w := WarningsOf(p, hash);
      (RoleWarning in w <==> !IsBlank(Field(p.m, "role")))
      && (DepartmentWarning in w <==> !IsBlank(Field(p.m, "department")))
      && (BcryptWarning in w <==> !LooksHashed(p.password))
      && |w| <= 3
      && (w != [] && !IsBlank(Field(p.m, "role")) ==> w[0] == RoleWarning)
      && (w != [] && !LooksHashed(p.password) ==> w[|w| - 1] == BcryptWarning)
  {
  }

  /** The `k`-th statement inserts the user of the `k`-th kept row into "users". */
  lemma {:induction false} StatementsAt(ps: seq<Pending>, hash: string -> Option<string>, now: int)
    ensures forall k :: 0 <= k < |ps| ==> Statements(ps, hash, now)[k] == RowInsert(UsersTable, UserOf(ps[k], hash, now))
    decreases |ps|
  {
    if ps != [] {
      var n := |ps| - 1;
      StatementsAt(ps[..n], hash, now);
      var r0 := Statements(ps[..n], hash, now);
      var x := RowInsert(UsersTable, UserOf(ps[n], hash, now));
      assert Statements(ps, hash, now) == r0 + [x];
      forall k | 0 <= k < |ps|
        ensures Statements(ps, hash, now)[k] == RowInsert(UsersTable, UserOf(ps[k], hash, now))
      {
        if k < n {
          assert ps[..n][k] == ps[k];
          assert (r0 + [x])[k] == r0[k];
        }
      }
    }
  }

  /** The first pass from any state: each row adds one failure or one kept row, never both;
      the failures are numbered on from where they were, and only they use up ids. */
  lemma {:induction false} RunFacts(rec: string, now: int, p: Pass, rows: seq<Row>, first: nat)
    requires Numbered(p.items, first) && AllFailed(p.items) && p.next == first + |p.items|
    ensures var r := Run(rec, now, p, rows);
      |r.items| + |r.kept| == |p.items| + |p.kept| + |rows|
      && p.items <= r.items && p.kept <= r.kept
      && Numbered(r.items, first) && AllFailed(r.items) && r.next == first + |r.items|
    decreases |rows|
  {
    if rows != [] {
      var q := Advance(rec, now, p, rows[0]);
      var v := Screen(rows[0]);
      if v.Reject? {
        assert q.items == p.items + [Failed(rec, ModelType, UuidText(p.next), rows[0], v.msg, now)];
        assert q.items[|p.items|].modelId == UuidText(first + |p.items|);
      } else {
        assert q.items == p.items;
      }
      RunFacts(rec, now, q, rows[1..], first);
      assert Run(rec, now, p, rows) == Run(rec, now, q, rows[1..]);
    }
  }

  /** Every kept row passed the checks. */
  lemma {:induction false} RunKeepsScreened(rec: string, now: int, p: Pass, rows: seq<Row>)
    requires forall k :: 0 <= k < |p.kept| ==> Screen(p.kept[k].m) == Keep(p.kept[k])
    ensures var r := Run(rec, now, p, rows); forall k :: 0 <= k < |r.kept| ==> Screen(r.kept[k].m) == Keep(r.kept[k])
    decreases |rows|
  {
    if rows != [] {
      var q := Advance(rec, now, p, rows[0]);
      var v := Screen(rows[0]);
      if v.Keep? {
        assert q.kept == p.kept + [v.p] && v.p.m == rows[0];
      } else {
        assert q.kept == p.kept;
      }
      RunKeepsScreened(rec, now, q, rows[1..]);
      assert Run(rec, now, p, rows) == Run(rec, now, q, rows[1..]);
    }
  }

  /** One item per answer: the `k`-th carries `UuidText(first + k)` and the `k`-th kept
      row; it is done with the row's warnings exactly when the `k`-th statement succeeded,
      and otherwise failed with that statement's error. */
  lemma {:induction false} ResultsFacts(rec: string, now: int, hash: string -> Option<string>, ps: seq<Pending>, answers: seq<Option<string>>, first: nat)
    requires |answers| == |ps|
    ensures var r := Results(rec, now, hash, ps, answers, first);
      Numbered(r, first)
      && forall k :: 0 <= k < |ps| ==> OutcomeOf(rec, now, hash, ps[k], answers[k], r[k])
    decreases |ps|
  {
    if ps != [] {
      var n := |ps| - 1;
      ResultsFacts(rec, now, hash, ps[..n], answers[..n], first);
      var r0 := Results(rec, now, hash, ps[..n], answers[..n], first);
      var r := Results(rec, now, hash, ps, answers, first);
      assert r == r0 + [Outcome(rec, now, hash, ps[n], answers[n], UuidText(first + n))];
      forall k | 0 <= k < |ps|
        ensures r[k].modelId == UuidText(first + k)
        ensures OutcomeOf(rec, now, hash, ps[k], answers[k], r[k])
      {
        if k < n {
          assert r[k] == r0[k] && ps[..n][k] == ps[k] && answers[..n][k] == answers[k];
        }
      }
    }
  }

  /** The item of a kept row says what its answer was. */
  predicate OutcomeOf(rec: string, now: int, hash: string -> Option<string>, p: Pending, answer: Option<string>, item: Item) {
    item.payload == p.m && item.modelType == ModelType
    && (answer.None? ==> item.status == StatusDone && item.errors == JoinWarnings(WarningsOf(p, hash)))
    && (answer.Some? ==> item.status == StatusFailed && item.errors == answer.value)
  }

  /** A whole batch: one item per row (the failures of the first pass and one per kept row),
      the ids numbered from `firstId` with no repeat. */
  lemma OneItemPerRow(rec: string, now: int, hash: string -> Option<string>, batch: seq<Row>, firstId: nat, answers: seq<Option<string>>)
    requires |answers| == |Run(rec, now, Pass([], [], firstId), batch).kept|
    ensures var p := Run(rec, now, Pass([], [], firstId), batch); var res := Results(rec, now, hash, p.kept, answers, p.next);
      |p.items| + |res| == |batch| && AllFailed(p.items) && p.next == firstId + |p.items|
      && forall i, j :: 0 <= i < j < |p.items + res| ==> (p.items + res)[i].modelId != (p.items + res)[j].modelId
  {
    RunFacts(rec, now, Pass([], [], firstId), batch, firstId);
    var p := Run(rec, now, Pass([], [], firstId), batch);
    ResultsFacts(rec, now, hash, p.kept, answers, p.next);
    DistinctIds(p.items, Results(rec, now, hash, p.kept, answers, p.next), firstId);
  }

  /** Once an INSERT of the batch fails, every later kept row is logged failed with that
      statement's error, and no later user reaches the table. */
  lemma AfterFirstFailure(exec: Insert -> Option<string>, rec: string, now: int, hash: string -> Option<string>,
                          kept: seq<Pending>, stmts: seq<Insert>, first: nat, k: nat)
    requires |stmts| == |kept| && k < |kept| && BatchAnswers(exec, stmts)[k].Some?
    ensures var a := BatchAnswers(exec, stmts); var r := Results(rec, now, hash, kept, a, first);
      (forall j :: k <= j < |kept| ==> r[j].status == StatusFailed && r[j].errors == a[k].value)
      && Inserted(stmts, a) == Inserted(stmts[..k], a[..k])
  {
    var a := BatchAnswers(exec, stmts);
    BatchAnswersFacts(exec, stmts);
    ResultsFacts(rec, now, hash, kept, a, first);
    BatchInsertedStops(exec, stmts, k);
  }

  lemma ResultsSnoc(rec: string, now: int, hash: string -> Option<string>, ps: seq<Pending>, answers: seq<Option<string>>, first: nat, i: nat)
    requires |answers| == |ps| && i < |ps|
    ensures Results(rec, now, hash, ps[..i + 1], answers[..i + 1], first)
      == Results(rec, now, hash, ps[..i], answers[..i], first) + [Outcome(rec, now, hash, ps[i], answers[i], UuidText(first + i))]
  {
    assert ps[..i + 1][..i] == ps[..i] && answers[..i + 1][..i] == answers[..i];
  }

  // ---------------------------------------------------------------------------
  // The processor
  // ---------------------------------------------------------------------------

  /** `UsersProcessor`: `exec` is the answer of the database to each queued INSERT, `hash`
      stands for `bcrypt.GenerateFromPassword` (none when it fails), `users` the rows the
      users table gained and `sent` the statements queued. */
  class UsersProcessor {
    const pgAvailable: bool
    const mongo: Mongo?
    const ids: IdSource
    const exec: Insert -> Option<string>
    const hash: string -> Option<string>
    var users: seq<User>
    ghost var sent: seq<Insert>

    constructor (pgAvailable: bool, mongo: Mongo?, ids: IdSource, exec: Insert -> Option<string>, hash: string -> Option<string>)
      ensures this.pgAvailable == pgAvailable && this.mongo == mongo && this.ids == ids
      ensures this.exec == exec && this.hash == hash && users == [] && sent == []
    {
      this.pgAvailable := pgAvailable;
      this.mongo := mongo;
      this.ids := ids;
      this.exec := exec;
      this.hash := hash;
      users := [];
      sent := [];
    }

    /** One row of the first pass. */
    method NextRow(rec: string, now: int, m: Row, kept0: seq<Pending>, ghost items0: seq<Item>, ghost p: Pass)
      returns (kept: seq<Pending>, ghost p': Pass)
      requires ids.next == p.next && kept0 == p.kept
      requires mongo != null ==> mongo.items == items0 + Visible(mongo, p.items)
      modifies mongo, ids
      ensures p' == Advance(rec, now, p, m) && ids.next == p'.next && kept == p'.kept
      ensures mongo != null ==> mongo.items == items0 + Visible(mongo, p'.items) && mongo.records == old(mongo.records)
    {
      var firstName := TrimSpace(Field(m, "first_name"));
      var username := TrimSpace(Field(m, "username"));
      var password := TrimSpace(Field(m, "password"));
      var msg := "";
      if firstName == "" {
        msg := "missing first_name";
      } else if username == "" {
        msg := "missing username";
      } else if password == "" {
        msg := "missing password";
      }
      if msg != "" {
        assert Screen(m) == Reject(msg);
        var id := ids.NewString();
        LogFail(mongo, rec, ModelType, id, m, msg, now);
        kept := kept0;
        ghost var item := Failed(rec, ModelType, id, m, msg, now);
        p' := Pass(p.items + [item], p.kept, p.next + 1);
        if mongo != null {
          VisibleConcat(mongo, p.items, [item]);
          AppendAssoc(items0, Visible(mongo, p.items), Visible(mongo, [item]));
        }
      } else {
        assert Screen(m) == Keep(Pending(m, firstName, username, password));
        kept := kept0 + [Pending(m, firstName, username, password)];
        p' := Pass(p.items, kept, p.next);
      }
    }

    /** The first pass over the batch. */
    method FirstPass(rec: string, batch: seq<Row>, now: int) returns (kept: seq<Pending>, ghost p: Pass)
      modifies mongo, ids
      ensures p == Run(rec, now, Pass([], [], old(ids.next)), batch) && kept == p.kept && ids.next == p.next
      ensures mongo != null ==> mongo.items == old(mongo.items) + Visible(mongo, p.items) && mongo.records == old(mongo.records)
    {
      ghost var items0 := if mongo != null then mongo.items else [];
      ghost var p0 := Pass([], [], ids.next);
      p := p0;
      kept := [];
      var i := 0;
      assert batch[i..] == batch;
      while i < |batch|
        invariant 0 <= i <= |batch|
        invariant Run(rec, now, p, batch[i..]) == Run(rec, now, p0, batch)
        invariant ids.next == p.next && kept == p.kept
        invariant mongo != null ==> mongo.items == items0 + Visible(mongo, p.items) && mongo.records == old(mongo.records)
      {
        assert batch[i..][0] == batch[i] && batch[i..][1..] == batch[i + 1..];
        kept, p := NextRow(rec, now, batch[i], kept, items0, p);
        i := i + 1;
      }
    }

    /** One answer of the batch: the item of `p` under a fresh id, and the user when the
        statement succeeded. */
    method SendOne(rec: string, now: int, p: Pending, stmt: Insert, prev: Option<string>) returns (err: Option<string>, ghost item: Item)
      modifies mongo, ids, this`users
      ensures err == BatchAnswer(exec, prev, stmt)
      ensures item == Outcome(rec, now, hash, p, err, UuidText(old(ids.next))) && ids.next == old(ids.next) + 1
      ensures users == old(users) + (if err.None? then [stmt.row] else [])
      ensures mongo != null ==> mongo.items == old(mongo.items) + Visible(mongo, [item]) && mongo.records == old(mongo.records)
    {
      err := if prev.Some? then prev else exec(stmt);
      var id := ids.NewString();
      item := Outcome(rec, now, hash, p, err, id);
      if err.Some? {
        Log(mongo, rec, ModelType, id, p.m, StatusFailed, err.value, now);
      } else {
        var errText := JoinWarnings(WarningsOf(p, hash));
        Log(mongo, rec, ModelType, id, p.m, StatusDone, errText, now);
        users := users + [stmt.row];
      }
    }

    /** The `i`-th answer of the batch, appended to what the first `i` answers did. */
    method SendNext(rec: string, now: int, kept: seq<Pending>, stmts: seq<Insert>, ghost answers: seq<Option<string>>,
                    ghost first: nat, i: nat, prev: Option<string>, ghost items0: seq<Item>, ghost rows0: seq<User>)
      returns (err: Option<string>)
      requires |stmts| == |kept| && answers == BatchAnswers(exec, stmts) && i < |kept| && ids.next == first + i
      requires prev == (if i == 0 then None else answers[i - 1])
      requires users == rows0 + Inserted(stmts[..i], answers[..i])
      requires mongo != null ==> mongo.items == items0 + Visible(mongo, Results(rec, now, hash, kept[..i], answers[..i], first))
      modifies mongo, ids, this`users
      ensures ids.next == first + i + 1 && err == answers[i]
      ensures users == rows0 + Inserted(stmts[..i + 1], answers[..i + 1])
      ensures mongo != null ==>
        mongo.items == items0 + Visible(mongo, Results(rec, now, hash, kept[..i + 1], answers[..i + 1], first))
        && mongo.records == old(mongo.records)
    {
      ghost var done := Results(rec, now, hash, kept[..i], answers[..i], first);
      ghost var ins := Inserted(stmts[..i], answers[..i]);
      BatchAnswersAt(exec, stmts, i);
      ResultsSnoc(rec, now, hash, kept, answers, first, i);
      InsertedSnoc(stmts, answers, i);
      AppendAssoc(rows0, ins, if answers[i].None? then [stmts[i].row] else []);
      ghost var item: Item;
      err, item := SendOne(rec, now, kept[i], stmts[i], prev);
      assert err == answers[i];
      if mongo != null {
        VisibleConcat(mongo, done, [item]);
        AppendAssoc(items0, Visible(mongo, done), Visible(mongo, [item]));
      }
    }

    /** The answers to `stmts`, read in order. */
    method SendAll(rec: string, now: int, kept: seq<Pending>, stmts: seq<Insert>, ghost answers: seq<Option<string>>)
      requires |stmts| == |kept| && answers == BatchAnswers(exec, stmts)
      modifies mongo, ids, this`users
      ensures users == old(users) + Inserted(stmts, answers) && ids.next == old(ids.next) + |kept|
      ensures mongo != null ==>
        mongo.items == old(mongo.items) + Visible(mongo, Results(rec, now, hash, kept, answers, old(ids.next)))
        && mongo.records == old(mongo.records)
    {
      ghost var first := ids.next;
      ghost var items0 := if mongo != null then mongo.items else [];
      ghost var rows0 := users;
      var i := 0;
      var prev: Option<string> := None;
      assert kept[..0] == [] && stmts[..0] == [] && answers[..0] == [];
      assert kept[..|kept|] == kept && answers[..|kept|] == answers && stmts[..|kept|] == stmts;
      while i < |kept|
        invariant 0 <= i <= |kept| && ids.next == first + i
        invariant i == 0 ==> prev.None?
        invariant i > 0 ==> prev == answers[i - 1]
        invariant users == rows0 + Inserted(stmts[..i], answers[..i])
        invariant mongo != null ==>
          mongo.items == items0 + Visible(mongo, Results(rec, now, hash, kept[..i], answers[..i], first))
          && mongo.records == old(mongo.records)
      {
        prev := SendNext(rec, now, kept, stmts, answers, first, i, prev, items0, rows0);
        i := i + 1;
      }
    }

    /** `ProcessBatch`: after the dependency check, the first pass; with no kept row the
        call ends there, without touching the import record; otherwise the batch of
        INSERTs, one item per answer, and the import record marked done. */
    method ProcessBatch(ctxValue: Option<string>, batch: seq<Row>, now: int) returns (err: Option<string>)
      modifies mongo, ids, this`users, this`sent
      ensures var deps := CheckDeps(pgAvailable, mongo);
        deps.Some? ==>
          (err == deps && ids.next == old(ids.next) && users == old(users) && sent == old(sent)
           && (mongo != null ==> mongo.items == old(mongo.items) && mongo.records == old(mongo.records)))
      ensures var deps := CheckDeps(pgAvailable, mongo);
        var rec := RecordIdOf(ctxValue);
        var p := Run(rec, now, Pass([], [], old(ids.next)), batch);
        var stmts := Statements(p.kept, hash, now); var answers := BatchAnswers(exec, stmts);
        deps.None? ==>
          (err.None? && mongo != null
           && (p.kept == [] ==>
                 ids.next == p.next && users == old(users) && sent == old(sent)
                 && mongo.items == old(mongo.items) + Visible(mongo, p.items) && mongo.records == old(mongo.records))
           && (p.kept != [] ==>
                 ids.next == p.next + |p.kept| && sent == old(sent) + stmts
                 && users == old(users) + Inserted(stmts, answers)
                 && mongo.items == old(mongo.items) + Visible(mongo, p.items) + Visible(mongo, Results(rec, now, hash, p.kept, answers, p.next))
                 && mongo.records == (var u := StatusUpdate(true, mongo.updateFaults, old(mongo.records), rec, StatusDone, now);
                                      if u.Ok? then u.value else old(mongo.records))))
    {
      var deps := CheckDeps(pgAvailable, mongo);
      if deps.Some? {
        return deps;
      }
      var rec := RecordIdOf(ctxValue);
      var kept;
      ghost var p;
      kept, p := FirstPass(rec, batch, now);
      if |kept| == 0 {
        return None;
      }
      var stmts := Statements(kept, hash, now);
      SendAll(rec, now, kept, stmts, BatchAnswers(exec, stmts));
      sent := sent + stmts;
      var _ := UpdateImportRecordStatusDone(mongo, rec, now);
      err := None;
    }
  }
}
