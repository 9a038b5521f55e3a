/** `UserPlanRepo.UpdateOrCreate`: the plan of a user for a month is updated in place when
    it exists and inserted otherwise. */
module UserPlansRepo {
  import opened Wrappers
  import opened Helpers

  /** `models.UserPlan`: the amount is the normalized text sent as `$1::numeric`. */
  datatype UserPlan = UserPlan(userId: Option<int>, amount: string, quantity: int, endDate: Option<DateTime>)

  /** A row of `user_plans`. */
  datatype PlanRow = PlanRow(userId: int, amount: string, quantity: int, endDate: DateTime, createdAt: int)

  /** The statements that can fail, keyed by user id. */
  datatype Faults = Faults(update: map<int, string>, insert: map<int, string>)

  /** The rows the UPDATE's WHERE clause selects. */
  predicate Matches(r: PlanRow, userId: int, eom: DateTime) {
    r.userId == userId && r.endDate == eom
  }

  /** `tag.RowsAffected()` of the UPDATE. */
  function Affected(rows: seq<PlanRow>, userId: int, eom: DateTime): (n: nat)
    ensures n == 0 <==> forall i :: 0 <= i < |rows| ==> !Matches(rows[i], userId, eom)
  {
    if rows == [] then 0
    else (if Matches(rows[0], userId, eom) then 1 else 0) + Affected(rows[1..], userId, eom)
  }

  /** The UPDATE: every selected row takes the amount and the quantity. */
  function SetPlan(rows: seq<PlanRow>, userId: int, eom: DateTime, amount: string, quantity: int): (r: seq<PlanRow>)
    ensures |r| == |rows|
    ensures forall i :: 0 <= i < |rows| ==>
      (r[i] == if Matches(rows[i], userId, eom) then rows[i].(amount := amount, quantity := quantity) else rows[i])
  {
    seq(|rows|, i requires 0 <= i < |rows| =>
      if Matches(rows[i], userId, eom) then rows[i].(amount := amount, quantity := quantity) else rows[i])
  }

  /** `UpdateOrCreate` as a function of the table; `eom` is `endOfMonth(up.EndDate)`,
      computed once for both statements. */
  function Save(rows: seq<PlanRow>, f: Faults, up: UserPlan, eom: DateTime, now: int): (Option<string>, seq<PlanRow>) {
    if up.userId.None? then (None, rows)
    else
      var uid := up.userId.value;
      if uid in f.update then (Some(f.update[uid]), rows)
      else if Affected(rows, uid, eom) > 0 then (None, SetPlan(rows, uid, eom, up.amount, up.quantity))
      else if uid in f.insert then (Some(f.insert[uid]), rows)
      else (None, rows + [PlanRow(uid, up.amount, up.quantity, eom, now)])
  }

  /** No user: nothing is sent. An update error is returned without trying the insert. */
  lemma SaveChecks(rows: seq<PlanRow>, f: Faults, up: UserPlan, eom: DateTime, now: int)
    ensures up.userId.None? ==> Save(rows, f, up, eom, now) == (None, rows)
    ensures up.userId.Some? && up.userId.value in f.update ==>
      Save(rows, f, up, eom, now) == (Some(f.update[up.userId.value]), rows)
    ensures Save(rows, f, up, eom, now).0.Some? ==> Save(rows, f, up, eom, now).1 == rows
  {
  }

  /** After a successful save, some row of (user, month end) holds the amount and the
      quantity; the insert happens only when no such row existed, and then adds exactly one. */
  lemma SaveStores(rows: seq<PlanRow>, f: Faults, up: UserPlan, eom: DateTime, now: int)
    requires up.userId.Some? && Save(rows, f, up, eom, now).0.None?
    ensures var r := Save(rows, f, up, eom, now).1;
      (exists i :: 0 <= i < |r| && Matches(r[i], up.userId.value, eom) && r[i].amount == up.amount && r[i].quantity == up.quantity)
      && (Affected(rows, up.userId.value, eom) > 0 ==> |r| == |rows|)
      && (Affected(rows, up.userId.value, eom) == 0 ==> r == rows + [PlanRow(up.userId.value, up.amount, up.quantity, eom, now)])
      && (forall i :: 0 <= i < |rows| && !Matches(rows[i], up.userId.value, eom) ==> r[i] == rows[i])
  {
    var uid := up.userId.value;
    var r := Save(rows, f, up, eom, now).1;
    if Affected(rows, uid, eom) > 0 {
      var i :| 0 <= i < |rows| && Matches(rows[i], uid, eom);
      assert Matches(r[i], uid, eom);
    } else {
      assert Matches(r[|rows|], uid, eom);
    }
  }

  /** The `user_plans` table; `endOfMonth` stands for the month-end computation of the
      repository (which reads the clock when no date is given). */
  class PlansTable {
    const faults: Faults
    const endOfMonth: Option<DateTime> -> DateTime
    var rows: seq<PlanRow>

    constructor (faults: Faults, endOfMonth: Option<DateTime> -> DateTime, rows: seq<PlanRow>)
      ensures this.faults == faults && this.endOfMonth == endOfMonth && this.rows == rows
    {
      this.faults := faults;
      this.endOfMonth := endOfMonth;
      this.rows := rows;
    }

    /** `UpdateOrCreate`. */
    method UpdateOrCreate(up: UserPlan, now: int) returns (err: Option<string>)
      modifies this
      ensures (err, rows) == Save(old(rows), faults, up, endOfMonth(up.endDate), now)
    {
      if up.userId.None? {
        return None;
      }
      var eom := endOfMonth(up.endDate);
      var uid := up.userId.value;
      if uid in faults.update {
        return Some(faults.update[uid]);
      }
      var affected := Affected(rows, uid, eom);
      rows := SetPlan(rows, uid, eom, up.amount, up.quantity);
      if affected > 0 {
        return None;
      }
      assert rows == old(rows);
      if uid in faults.insert {
        return Some(faults.insert[uid]);
      }
      rows := rows + [PlanRow(uid, up.amount, up.quantity, eom, now)];
      err := None;
    }
  }
}
