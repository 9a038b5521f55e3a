/** `PaymentsProcessor`: validates each row (debt by number, user by username, payment date,
    amount), hands the prepared payments to the payment repository in one call, and logs one
    result per prepared row from the errors it reports. */
module Payments {
  import opened Wrappers
  import opened Text
  import opened Ports
  import opened Ledger
  import opened Db
  import opened Proc
  import opened Helpers
  import opened Lookups

  const ModelType := "payments"

  /** `models.Payment` as this processor fills it. */
  datatype Payment = Payment(
    id: string,
    debtId: string,
    userId: string,
    amount: string,
    amountAfterSubtraction: string,
    amountGovernmentDuty: string,
    amountRepresentationExpenses: string,
    amountNotaryFees: string,
    amountPostage: string,
    amountAccountsReceivable: string,
    amountMainDebt: string,
    amountAccrual: string,
    amountFine: string,
    paymentDate: DateTime,
    confirmed: bool)

  /** What the checks consult: the debt lookup, the users table behind `UserRepo`, and the
      date parser (`time.ParseInLocation`). */
  datatype Env = Env(debtIdOf: string -> DebtIdAnswer, users: Table<string, int>, parse: (string, string) -> Option<DateTime>)

  /** The batch's own caches (found debts and found users only) and the shared `UserRepo` cache. */
  datatype Caches = Caches(debt: map<string, string>, user: map<string, int>, repo: map<string, Option<int>>)

  datatype Verdict = Reject(msg: string) | Accept(payment: Payment)

  /** The verdict on one row, the caches after it, and the debt numbers and usernames it
      sent a query for. */
  datatype Step = Step(verdict: Verdict, caches: Caches, debtQueries: seq<string>, userQueries: seq<string>)

  /** A payment prepared from a row, with the row's id and payload. */
  datatype Prepared = Prepared(id: string, payment: Payment, payload: Row)

  /** The payment built from a row whose checks all passed. */
  function MakePayment(m: Row, id: string, debtId: string, userId: int, amount: string, date: DateTime): Payment {
    Payment(id, debtId, IntToString(userId), amount,
      NormalizeAmount(Trimmed(m, "amount_after_subtraction")),
      NormalizeAmount(Trimmed(m, "amount_government_duty")),
      NormalizeAmount(Trimmed(m, "amount_representation_expenses")),
      NormalizeAmount(Trimmed(m, "amount_notary_fees")),
      NormalizeAmount(Trimmed(m, "amount_postage")),
      NormalizeAmount(Trimmed(m, "amount_accounts_receivable")),
      NormalizeAmount(Trimmed(m, "amount_main_debt")),
      NormalizeAmount(Trimmed(m, "amount_accrual")),
      NormalizeAmount(Trimmed(m, "amount_fine")),
      date, false)
  }

  /** The checks on one row, in order: debt number, debt, username, user, date, amount. */
  function JudgeRow(env: Env, c: Caches, m: Row, id: string): Step {
    var dn := Trimmed(m, "debt_number");
    if dn == "" then Step(Reject("missing debt_number"), c, [], [])
    else if dn in c.debt then UserPart(env, c, m, id, c.debt[dn])
    else
      var a := env.debtIdOf(dn);
      if a.err.Some? || a.id.None? then Step(Reject(WithCause("debt not found: " + dn, a.err)), c, [dn], [])
      else UserPart(env, c.(debt := c.debt[dn := a.id.value]), m, id, a.id.value).(debtQueries := [dn])
  }

  /** The checks after the debt resolved. A username the batch has not resolved goes to
      `UserRepo`, whose own cache also answers for names it failed on before. */
  function UserPart(env: Env, c: Caches, m: Row, id: string, debtId: string): Step {
    var un := Trimmed(m, "username");
    if un == "" then Step(Reject("missing username"), c, [], [])
    else if un in c.user then Step(Finish(env, m, id, debtId, c.user[un]), c, [], [])
    else
      var r := CachedLookup(c.repo, un, Query(env.users, un));
      var q := if r.queried then [un] else [];
      if r.err.Some? || r.value.None? then Step(Reject(WithCause("username not found: " + un, r.err)), c.(repo := r.cache), [], q)
      else Step(Finish(env, m, id, debtId, r.value.value), c.(repo := r.cache, user := c.user[un := r.value.value]), [], q)
  }

  /** The date and amount checks. */
  function Finish(env: Env, m: Row, id: string, debtId: string, userId: int): Verdict {
    var date := ParseDateStrict(Trimmed(m, "payment_date"), env.parse);
    var amount := NormalizeAmount(Trimmed(m, "amount"));
    if date.None? then Reject("bad payment_date")
    else if amount == "" || amount == "0" then Reject("missing/zero amount")
    else Accept(MakePayment(m, id, debtId, userId, amount, date.value))
  }

  /** The first pass after `n` rows. */
  datatype Pre = Pre(caches: Caches, items: seq<Item>, prepared: seq<Prepared>, debtQueries: seq<string>, userQueries: seq<string>)

  /** The checks on one row as a function of the caches, the row and its id. */
  function Judge(env: Env): (Caches, Row, string) -> Step {
    (c, m, id) => JudgeRow(env, c, m, id)
  }

  /** The first pass over the first `n` rows of `batch`, the `k`-th row getting id
      `UuidText(firstId + k)` and its verdict from `judge` (`Judge(env)` in the processor);
      `repo0` is the `UserRepo` cache at the start. */
  function PrePass(judge: (Caches, Row, string) -> Step, repo0: map<string, Option<int>>, rec: string, now: int,
                   batch: seq<Row>, n: nat, firstId: nat): Pre
    requires n <= |batch|
  {
    if n == 0 then Pre(Caches(map[], map[], repo0), [], [], [], [])
    else
      var st := PrePass(judge, repo0, rec, now, batch, n - 1, firstId);
      var id := UuidText(firstId + n - 1);
      Advance(st, judge(st.caches, batch[n - 1], id), rec, now, batch[n - 1], id)
  }

  /** The first pass after one more row: a rejected row is logged failed, an accepted one
      prepared. */
  function Advance(st: Pre, s: Step, rec: string, now: int, m: Row, id: string): Pre {
    Pre(s.caches,
      st.items + (if s.verdict.Reject? then [Failed(rec, ModelType, id, m, s.verdict.msg, now)] else []),
      st.prepared + (if s.verdict.Accept? then [Prepared(id, s.verdict.payment, m)] else []),
      st.debtQueries + s.debtQueries,
      st.userQueries + s.userQueries)
  }

  /** The payments handed to `CreateBatch`, in order. */
  function PaymentsOf(ps: seq<Prepared>): (r: seq<Payment>)
    ensures |r| == |ps| && forall i :: 0 <= i < |ps| ==> r[i] == ps[i].payment
  {
    seq(|ps|, i requires 0 <= i < |ps| => ps[i].payment)
  }

  /** The item logged for prepared row `p` given its error from `CreateBatch`. */
  function ResultItem(rec: string, now: int, p: Prepared, err: Option<string>): Item {
    if err.Some? then Failed(rec, ModelType, p.id, p.payload, err.value, now)
    else Done(rec, ModelType, p.id, p.payload, "", now)
  }

  /** The items of the result loop for the first `k` prepared rows; `createErr(payments, i)`
      is `errs[i]` of the `CreateBatch` call (nil everywhere when it returns nil). */
  function Results(rec: string, now: int, ps: seq<Prepared>, createErr: (seq<Payment>, nat) -> Option<string>, k: nat): seq<Item>
    requires k <= |ps|
  {
    if k == 0 then []
    else Results(rec, now, ps, createErr, k - 1) + [ResultItem(rec, now, ps[k - 1], createErr(PaymentsOf(ps), k - 1))]
  }

  // ---------------------------------------------------------------------------
  // Properties
  // ---------------------------------------------------------------------------

  /** The checks run in order and each one names its field: the first failing check gives
      the row's message, and a debt number already resolved in the batch is not queried again. */
  lemma JudgeOrder(env: Env, c: Caches, m: Row, id: string)
    ensures var s := JudgeRow(env, c, m, id); var dn := Trimmed(m, "debt_number");
      (dn == "" ==> s == Step(Reject("missing debt_number"), c, [], []))
      && (dn != "" && dn !in c.debt && (env.debtIdOf(dn).err.Some? || env.debtIdOf(dn).id.None?) ==>
            s == Step(Reject(WithCause("debt not found: " + dn, env.debtIdOf(dn).err)), c, [dn], []))
      && (dn != "" && dn in c.debt ==> s.debtQueries == [] && s.caches.debt == c.debt)
      && ((dn != "" && (dn in c.debt || (env.debtIdOf(dn).err.None? && env.debtIdOf(dn).id.Some?))
           && Trimmed(m, "username") == "") ==> s.verdict == Reject("missing username"))
  {
  }

  /** A debt that is not found is not cached: the next row with the same number asks again. */
  lemma MissingDebtNotCached(env: Env, c: Caches, m: Row, id: string)
    requires Trimmed(m, "debt_number") != "" && Trimmed(m, "debt_number") !in c.debt
    requires env.debtIdOf(Trimmed(m, "debt_number")).id.None?
    ensures var s := JudgeRow(env, c, m, id);
      s.caches == c && s.debtQueries == [Trimmed(m, "debt_number")] && s.verdict.Reject?
  {
  }

  /** A username the database fails on is reported with the error the first time, and, being
      then a negative entry of the shared `UserRepo` cache, without an error and without a
      query for every later row of any batch. */
  lemma UnknownUserTwice(env: Env, c: Caches, m: Row, id: string, debtId: string)
    requires Trimmed(m, "username") != "" && Trimmed(m, "username") !in c.user
    requires Trimmed(m, "username") !in c.repo && Query(env.users, Trimmed(m, "username")).Err?
    ensures var un := Trimmed(m, "username");
      var s1 := UserPart(env, c, m, id, debtId);
      var s2 := UserPart(env, s1.caches, m, id, debtId);
      s1.verdict == Reject("username not found: " + un + " (" + Query(env.users, un).error + ")")
      && s1.userQueries == [un]
      && s2.verdict == Reject("username not found: " + un) && s2.userQueries == [] && s2.caches == s1.caches
  {
  }

  /** An accepted row becomes an unconfirmed payment under the row's id, for the debt and
      user it resolved to, with a non-zero amount and a date at midnight. */
  lemma AcceptedPayment(env: Env, c: Caches, m: Row, id: string)
    requires JudgeRow(env, c, m, id).verdict.Accept?
    ensures var s := JudgeRow(env, c, m, id); var p := s.verdict.payment; var dn := Trimmed(m, "debt_number");
      p.id == id && !p.confirmed && p.amount != "" && p.amount != "0"
      && p.amount == NormalizeAmount(Trimmed(m, "amount"))
      && dn in s.caches.debt && p.debtId == s.caches.debt[dn]
      && Trimmed(m, "username") in s.caches.user && p.userId == IntToString(s.caches.user[Trimmed(m, "username")])
      && p.paymentDate.hour == 0 && p.paymentDate.minute == 0
  {
    var dn := Trimmed(m, "debt_number");
    var un := Trimmed(m, "username");
    if dn in c.debt {
      UserAccepted(env, c, m, id, c.debt[dn]);
    } else {
      var a := env.debtIdOf(dn);
      UserAccepted(env, c.(debt := c.debt[dn := a.id.value]), m, id, a.id.value);
    }
  }

  lemma UserAccepted(env: Env, c: Caches, m: Row, id: string, debtId: string)
    requires UserPart(env, c, m, id, debtId).verdict.Accept?
    ensures var s := UserPart(env, c, m, id, debtId); var p := s.verdict.payment; var un := Trimmed(m, "username");
      p.id == id && !p.confirmed && p.amount != "" && p.amount != "0"
      && p.amount == NormalizeAmount(Trimmed(m, "amount")) && p.debtId == debtId && s.caches.debt == c.debt
      && un in s.caches.user && p.userId == IntToString(s.caches.user[un])
      && p.paymentDate.hour == 0 && p.paymentDate.minute == 0
  {
    var un := Trimmed(m, "username");
    var s := UserPart(env, c, m, id, debtId);
    if un in c.user {
      assert s == Step(Finish(env, m, id, debtId, c.user[un]), c, [], []);
      FinishAccepted(env, m, id, debtId, c.user[un]);
    } else {
      var r := CachedLookup(c.repo, un, Query(env.users, un));
      var userId := r.value.value;
      assert s.verdict == Finish(env, m, id, debtId, userId) && s.caches.user == c.user[un := userId] && s.caches.debt == c.debt;
      FinishAccepted(env, m, id, debtId, userId);
    }
  }

  lemma FinishAccepted(env: Env, m: Row, id: string, debtId: string, userId: int)
    requires Finish(env, m, id, debtId, userId).Accept?
    ensures var p := Finish(env, m, id, debtId, userId).payment;
      p.id == id && !p.confirmed && p.amount != "" && p.amount != "0"
      && p.amount == NormalizeAmount(Trimmed(m, "amount")) && p.debtId == debtId && p.userId == IntToString(userId)
      && p.paymentDate.hour == 0 && p.paymentDate.minute == 0
  {
  }

  /** In the first pass every row is either logged failed or prepared, never both. */
  lemma {:induction false} PrePassCounts(judge: (Caches, Row, string) -> Step, repo0: map<string, Option<int>>, rec: string, now: int,
                                         batch: seq<Row>, n: nat, firstId: nat)
    requires n <= |batch|
    ensures var st := PrePass(judge, repo0, rec, now, batch, n, firstId);
      |st.items| + |st.prepared| == n
      && forall k :: 0 <= k < |st.items| ==> st.items[k].status == StatusFailed && st.items[k].modelType == ModelType
  {
    if n > 0 {
      PrePassCounts(judge, repo0, rec, now, batch, n - 1, firstId);
      var st := PrePass(judge, repo0, rec, now, batch, n - 1, firstId);
      var id := UuidText(firstId + n - 1);
      AdvanceCounts(st, judge(st.caches, batch[n - 1], id), rec, now, batch[n - 1], id);
    }
  }

  /** The first pass after one more row. */
  lemma PrePassNext(judge: (Caches, Row, string) -> Step, repo0: map<string, Option<int>>, rec: string, now: int,
                    batch: seq<Row>, i: nat, firstId: nat)
    requires i < |batch|
    ensures var st := PrePass(judge, repo0, rec, now, batch, i, firstId); var id := UuidText(firstId + i);
      PrePass(judge, repo0, rec, now, batch, i + 1, firstId) == Advance(st, judge(st.caches, batch[i], id), rec, now, batch[i], id)
  {
  }

  /** One row of the first pass adds exactly one failed item or one prepared row. */
  lemma AdvanceCounts(st: Pre, s: Step, rec: string, now: int, m: Row, id: string)
    requires forall k :: 0 <= k < |st.items| ==> st.items[k].status == StatusFailed && st.items[k].modelType == ModelType
    ensures var st' := Advance(st, s, rec, now, m, id);
      |st'.items| + |st'.prepared| == |st.items| + |st.prepared| + 1
      && forall k :: 0 <= k < |st'.items| ==> st'.items[k].status == StatusFailed && st'.items[k].modelType == ModelType
  {
    var st' := Advance(st, s, rec, now, m, id);
    if s.verdict.Reject? {
      assert st'.items == st.items + [Failed(rec, ModelType, id, m, s.verdict.msg, now)] && st'.prepared == st.prepared;
    } else {
      assert st'.items == st.items && |st'.prepared| == |st.prepared| + 1;
    }
  }

  /** `item` reports prepared row `p` given its error from `CreateBatch`: failed with that
      error, or done with no warnings. */
  predicate Reports(item: Item, p: Prepared, err: Option<string>) {
    item.modelId == p.id && item.payload == p.payload
    && (err.Some? ==> item.status == StatusFailed && item.errors == err.value)
    && (err.None? ==> item.status == StatusDone && item.errors == "")
  }

  /** The result loop logs exactly one item per prepared row, in order: failed with the
      batch error at that index, done with no warnings otherwise. */
  lemma {:induction false} ResultsFacts(rec: string, now: int, ps: seq<Prepared>, createErr: (seq<Payment>, nat) -> Option<string>, k: nat)
    requires k <= |ps|
    ensures var r := Results(rec, now, ps, createErr, k);
      |r| == k && forall i :: 0 <= i < k ==> Reports(r[i], ps[i], createErr(PaymentsOf(ps), i))
  {
    if k > 0 {
      ResultsFacts(rec, now, ps, createErr, k - 1);
      var r0 := Results(rec, now, ps, createErr, k - 1);
      var err := createErr(PaymentsOf(ps), k - 1);
      var item := ResultItem(rec, now, ps[k - 1], err);
      assert Reports(item, ps[k - 1], err);
      var r := r0 + [item];
      assert Results(rec, now, ps, createErr, k) == r;
      forall i | 0 <= i < k - 1
        ensures Reports(r[i], ps[i], createErr(PaymentsOf(ps), i))
      {
        assert r[i] == r0[i];
      }
    }
  }

  /** Together, a batch with at least one prepared row logs exactly one item per row. */
  lemma OneItemPerRow(judge: (Caches, Row, string) -> Step, repo0: map<string, Option<int>>, rec: string, now: int, batch: seq<Row>, firstId: nat,
                      createErr: (seq<Payment>, nat) -> Option<string>)
    ensures var st := PrePass(judge, repo0, rec, now, batch, |batch|, firstId);
      |st.items + Results(rec, now, st.prepared, createErr, |st.prepared|)| == |batch|
  {
    var st := PrePass(judge, repo0, rec, now, batch, |batch|, firstId);
    PrePassCounts(judge, repo0, rec, now, batch, |batch|, firstId);
    ResultsFacts(rec, now, st.prepared, createErr, |st.prepared|);
  }

  // ---------------------------------------------------------------------------
  // The processor
  // ---------------------------------------------------------------------------

  /** `PaymentsProcessor` over its dependencies. `users` is the shared `UserRepo`;
      `createErr` stands for the errors `PaymentRepo.CreateBatch` reports. */
  class PaymentsProcessor {
    const pgAvailable: bool
    const mongo: Mongo?
    const ids: IdSource
    const users: UserRepo
    const debtIdOf: string -> DebtIdAnswer
    const parse: (string, string) -> Option<DateTime>
    const createErr: (seq<Payment>, nat) -> Option<string>
    /** Every payment batch handed to `CreateBatch`. */
    var sent: seq<seq<Payment>>
    /** Every debt number sent to `GetIDByNumber`, in order. */
    ghost var debtQueries: seq<string>

    constructor (pgAvailable: bool, mongo: Mongo?, ids: IdSource, users: UserRepo, debtIdOf: string -> DebtIdAnswer,
                 parse: (string, string) -> Option<DateTime>, createErr: (seq<Payment>, nat) -> Option<string>)
      ensures this.pgAvailable == pgAvailable && this.mongo == mongo && this.ids == ids && this.users == users
      ensures this.debtIdOf == debtIdOf && this.parse == parse && this.createErr == createErr
      ensures sent == [] && debtQueries == []
    {
      this.pgAvailable := pgAvailable;
      this.mongo := mongo;
      this.ids := ids;
      this.users := users;
      this.debtIdOf := debtIdOf;
      this.parse := parse;
      this.createErr := createErr;
      sent := [];
      debtQueries := [];
    }

    function Environment(): Env {
      Env(debtIdOf, users.users, parse)
    }

    /** The user checks of one row. */
    method JudgeUser(m: Row, id: string, c0: Caches, debtId: string) returns (verdict: Verdict, c: Caches)
      requires users.cache == c0.repo
      modifies users
      ensures var s := UserPart(Environment(), c0, m, id, debtId);
        verdict == s.verdict && c == s.caches && users.cache == c.repo && users.queries == old(users.queries) + s.userQueries
    {
      c := c0;
      var username := Trimmed(m, "username");
      if username == "" {
        return Reject("missing username"), c;
      }
      var userId: int;
      if username in c.user {
        userId := c.user[username];
      } else {
        var v, err := users.GetUserBigint(username);
        c := c.(repo := users.cache);
        if err.Some? || v.None? {
          return Reject(WithCause("username not found: " + username, err)), c;
        }
        userId := v.value;
        c := c.(user := c.user[username := userId]);
      }
      verdict := Finish(Environment(), m, id, debtId, userId);
    }

    /** The checks of one row, caches in hand. */
    method JudgeOne(m: Row, id: string, c0: Caches) returns (verdict: Verdict, c: Caches, ghost s: Step)
      requires users.cache == c0.repo
      modifies users, this`debtQueries
      ensures s == JudgeRow(Environment(), c0, m, id)
      ensures verdict == s.verdict && c == s.caches && users.cache == c.repo
      ensures users.queries == old(users.queries) + s.userQueries && debtQueries == old(debtQueries) + s.debtQueries
    {
      s := JudgeRow(Environment(), c0, m, id);
      c := c0;
      var debtNumber := Trimmed(m, "debt_number");
      if debtNumber == "" {
        return Reject("missing debt_number"), c, s;
      }
      var debtId: string;
      if debtNumber in c.debt {
        debtId := c.debt[debtNumber];
      } else {
        debtQueries := debtQueries + [debtNumber];
        var a := debtIdOf(debtNumber);
        if a.err.Some? || a.id.None? {
          return Reject(WithCause("debt not found: " + debtNumber, a.err)), c, s;
        }
        debtId := a.id.value;
        c := c.(debt := c.debt[debtNumber := debtId]);
      }
      ghost var q0 := users.queries;
      verdict, c := JudgeUser(m, id, c, debtId);
      if debtNumber !in c0.debt {
        assert debtQueries == old(debtQueries) + [debtNumber];
      }
    }

    /** The body of the first loop, on row `i`. */
    method PreRow(rec: string, batch: seq<Row>, i: nat, ghost firstId: nat, now: int, c0: Caches, prepared0: seq<Prepared>,
                  ghost repo0: map<string, Option<int>>, ghost uq0: seq<string>, ghost dq0: seq<string>, ghost items0: seq<Item>, ghost st: Pre)
      returns (c: Caches, prepared: seq<Prepared>, ghost st': Pre)
      requires i < |batch| && ids.next == firstId + i
      requires st == PrePass(Judge(Environment()), repo0, rec, now, batch, i, firstId)
      requires c0 == st.caches && prepared0 == st.prepared && users.cache == c0.repo
      requires users.queries == uq0 + st.userQueries && debtQueries == dq0 + st.debtQueries
      requires mongo != null ==> mongo.items == items0 + Visible(mongo, st.items)
      modifies mongo, ids, users, this`debtQueries
      ensures ids.next == old(ids.next) + 1
      ensures st' == PrePass(Judge(Environment()), repo0, rec, now, batch, i + 1, firstId)
      ensures c == st'.caches && prepared == st'.prepared && users.cache == c.repo
      ensures users.queries == uq0 + st'.userQueries && debtQueries == dq0 + st'.debtQueries
      ensures mongo != null ==> mongo.items == items0 + Visible(mongo, st'.items) && mongo.records == old(mongo.records)
    {
      var id := ids.NewString();
      var verdict;
      ghost var s;
      verdict, c, s := JudgeOne(batch[i], id, c0);
      PrePassNext(Judge(Environment()), repo0, rec, now, batch, i, firstId);
      assert s == Judge(Environment())(c0, batch[i], id);
      st' := Advance(st, s, rec, now, batch[i], id);
      AppendAssoc(uq0, st.userQueries, s.userQueries);
      AppendAssoc(dq0, st.debtQueries, s.debtQueries);
      prepared := prepared0;
      if verdict.Reject? {
        LogFail(mongo, rec, ModelType, id, batch[i], verdict.msg, now);
        if mongo != null {
          VisibleConcat(mongo, st.items, [Failed(rec, ModelType, id, batch[i], verdict.msg, now)]);
          AppendAssoc(items0, Visible(mongo, st.items), Visible(mongo, [Failed(rec, ModelType, id, batch[i], verdict.msg, now)]));
        }
      } else {
        assert st.items + [] == st.items;
        prepared := prepared + [Prepared(id, verdict.payment, batch[i])];
      }
    }

    /** The first loop of `ProcessBatch`. */
    method RunPrePass(rec: string, batch: seq<Row>, now: int) returns (prepared: seq<Prepared>)
      modifies mongo, ids, users, this`debtQueries
      ensures var st := PrePass(Judge(Environment()), old(users.cache), rec, now, batch, |batch|, old(ids.next));
        prepared == st.prepared && ids.next == old(ids.next) + |batch|
        && users.cache == st.caches.repo && users.queries == old(users.queries) + st.userQueries
        && debtQueries == old(debtQueries) + st.debtQueries
        && (mongo != null ==> mongo.items == old(mongo.items) + Visible(mongo, st.items) && mongo.records == old(mongo.records))
    {
      ghost var repo0 := users.cache;
      ghost var items0 := if mongo != null then mongo.items else [];
      ghost var st := PrePass(Judge(Environment()), repo0, rec, now, batch, 0, old(ids.next));
      var c := Caches(map[], map[], users.cache);
      prepared := [];
      var i := 0;
      while i < |batch|
        invariant 0 <= i <= |batch|
        invariant ids.next == old(ids.next) + i
        invariant st == PrePass(Judge(Environment()), repo0, rec, now, batch, i, old(ids.next))
        invariant c == st.caches && prepared == st.prepared && users.cache == c.repo
        invariant users.queries == old(users.queries) + st.userQueries && debtQueries == old(debtQueries) + st.debtQueries
        invariant mongo != null ==> mongo.items == items0 + Visible(mongo, st.items) && mongo.records == old(mongo.records)
      {
        c, prepared, st := PreRow(rec, batch, i, old(ids.next), now, c, prepared, repo0, old(users.queries), old(debtQueries), items0, st);
        i := i + 1;
      }
    }

    /** The result loop: one item per prepared row. */
    method LogResults(rec: string, prepared: seq<Prepared>, payments: seq<Payment>, now: int)
      requires payments == PaymentsOf(prepared)
      modifies mongo
      ensures mongo != null ==>
        (mongo.items == old(mongo.items) + Visible(mongo, Results(rec, now, prepared, createErr, |prepared|))
         && mongo.records == old(mongo.records))
    {
      var i := 0;
      while i < |prepared|
        invariant 0 <= i <= |prepared|
        invariant mongo != null ==>
          (mongo.items == old(mongo.items) + Visible(mongo, Results(rec, now, prepared, createErr, i))
           && mongo.records == old(mongo.records))
      {
        ghost var done := Results(rec, now, prepared, createErr, i);
        ghost var item := ResultItem(rec, now, prepared[i], createErr(payments, i));
        assert Results(rec, now, prepared, createErr, i + 1) == done + [item];
        LogResult(rec, now, prepared[i], createErr(payments, i));
        if mongo != null {
          VisibleConcat(mongo, done, [item]);
          AppendAssoc(old(mongo.items), Visible(mongo, done), Visible(mongo, [item]));
        }
        i := i + 1;
      }
    }

    /** The result of one prepared row. */
    method LogResult(rec: string, now: int, pr: Prepared, e: Option<string>)
      modifies mongo
      ensures mongo != null ==>
        mongo.items == old(mongo.items) + Visible(mongo, [ResultItem(rec, now, pr, e)]) && mongo.records == old(mongo.records)
    {
      if e.Some? {
        LogFail(mongo, rec, ModelType, pr.id, pr.payload, e.value, now);
      } else {
        Log(mongo, rec, ModelType, pr.id, pr.payload, StatusDone, "", now);
      }
    }

    /** `ProcessBatch`. */
    method ProcessBatch(ctxValue: Option<string>, batch: seq<Row>, now: int) returns (err: Option<string>)
      modifies mongo, ids, users, this`sent, this`debtQueries
      ensures var deps := CheckDeps(pgAvailable, mongo);
        deps.Some? ==>
          (err == deps && ids.next == old(ids.next) && sent == old(sent)
           && users.cache == old(users.cache) && users.queries == old(users.queries)
           && (mongo != null ==> mongo.items == old(mongo.items) && mongo.records == old(mongo.records)))
      ensures var deps := CheckDeps(pgAvailable, mongo);
        var rec := RecordIdOf(ctxValue);
        var st := PrePass(Judge(Environment()), old(users.cache), rec, now, batch, |batch|, old(ids.next));
        var results := Results(rec, now, st.prepared, createErr, |st.prepared|);
        deps.None? ==>
          (err.None? && mongo != null && ids.next == old(ids.next) + |batch|
           && users.cache == st.caches.repo && users.queries == old(users.queries) + st.userQueries
           && debtQueries == old(debtQueries) + st.debtQueries
           && (st.prepared == [] ==>
                 (sent == old(sent) && mongo.items == old(mongo.items) + Visible(mongo, st.items)
                  && mongo.records == old(mongo.records)))
           && (st.prepared != [] ==>
                 (sent == old(sent) + [PaymentsOf(st.prepared)]
                  && mongo.items == old(mongo.items) + Visible(mongo, st.items + results)
                  && mongo.records == (var u := StatusUpdate(true, mongo.updateFaults, old(mongo.records), rec, StatusDone, now);
                                       if u.Ok? then u.value else old(mongo.records)))))
    {
      var deps := CheckDeps(pgAvailable, mongo);
      if deps.Some? {
        return deps;
      }
      var rec := RecordIdOf(ctxValue);
      var prepared := RunPrePass(rec, batch, now);
      if |prepared| == 0 {
        return None;
      }
      var payments := PaymentsOf(prepared);
      sent := sent + [payments];
      ghost var items1 := mongo.items;
      ghost var st := PrePass(Judge(Environment()), old(users.cache), rec, now, batch, |batch|, old(ids.next));
      LogResults(rec, prepared, payments, now);
      VisibleConcat(mongo, st.items, Results(rec, now, st.prepared, createErr, |st.prepared|));
      AppendAssoc(old(mongo.items), Visible(mongo, st.items), Visible(mongo, Results(rec, now, st.prepared, createErr, |st.prepared|)));
      var _ := UpdateImportRecordStatusDone(mongo, rec, now);
      err := None;
    }
  }
}
