/** `AddressesRepo`: one address per (debtor, address type), saved by an existence check
    followed by an UPDATE of every matching row or an INSERT of a new one. */
module AddressesRepo {
  import opened Wrappers
  import opened Text
  import opened Ports

  /** The `subject_type` of every address row this repository inserts. */
  const DebtorSubjectType := "App\\Infrastructure\\Persistence\\Models\\Debtor"

  /** `models.Address`; `typeId` is the nil-able `*int`. */
  datatype Address = Address(debtorId: string, iin: string, address: string, typeId: Option<int>)

  /** A row of the `addresses` table. */
  datatype AddressRow = AddressRow(id: string, subjectType: string, subjectId: string, address: string,
                                   typeId: int, createdAt: int, updatedAt: int)

  /** The table and the counter behind `gen_random_uuid()`. */
  datatype Addresses = Addresses(rows: seq<AddressRow>, nextId: nat)

  /** The statements that can fail, each keyed by the debtor id it is sent for. */
  datatype Faults = Faults(check: map<string, string>, update: map<string, string>, insert: map<string, string>)

  /** `SELECT EXISTS(… WHERE subject_id = $1 AND type_id = $2)`. */
  predicate Exists(rows: seq<AddressRow>, subjectId: string, typeId: int) {
    exists i :: 0 <= i < |rows| && rows[i].subjectId == subjectId && rows[i].typeId == typeId
  }

  /** The UPDATE: every row of the key gets the new address. */
  function SetAddress(rows: seq<AddressRow>, subjectId: string, typeId: int, address: string, now: int)
    : (r: seq<AddressRow>)
    ensures |r| == |rows|
    ensures forall i :: 0 <= i < |rows| ==>
      (r[i] == if rows[i].subjectId == subjectId && rows[i].typeId == typeId
               then rows[i].(address := address, updatedAt := now) else rows[i])
  {
    seq(|rows|, i requires 0 <= i < |rows| =>
      if rows[i].subjectId == subjectId && rows[i].typeId == typeId
      then rows[i].(address := address, updatedAt := now) else rows[i])
  }

  /** `SaveAddress` as a function of the table: the error and the table afterwards. */
  function Save(st: Addresses, f: Faults, a: Address, now: int): (Option<string>, Addresses) {
    TrimSpaceEmpty(a.iin);
    TrimSpaceEmpty(a.address);
    TrimSpaceEmpty(a.debtorId);
    var t := if a.typeId.Some? then a.typeId.value else 0;
    if TrimSpace(a.iin) == "" then (Some("iin is required"), st)
    else if TrimSpace(a.address) == "" then (None, st)
    else if TrimSpace(a.debtorId) == "" then (Some("debtor_id is required"), st)
    else if a.debtorId in f.check then (Some("check exists error: " + f.check[a.debtorId]), st)
    else if Exists(st.rows, a.debtorId, t) then
      if a.debtorId in f.update then (Some("update address error: " + f.update[a.debtorId]), st)
      else (None, st.(rows := SetAddress(st.rows, a.debtorId, t, a.address, now)))
    else if a.debtorId in f.insert then (Some("insert address error: " + f.insert[a.debtorId]), st)
    else (None, Addresses(st.rows + [AddressRow(RowUuidText(st.nextId), DebtorSubjectType, a.debtorId, a.address, t, now, now)],
                          st.nextId + 1))
  }

  /** The checks come first and in order: a blank IIN is an error, then a blank address is
      silently skipped, then a blank debtor id is an error; none of them touches the table. */
  lemma SaveChecks(st: Addresses, f: Faults, a: Address, now: int)
    ensures IsBlank(a.iin) ==> Save(st, f, a, now) == (Some("iin is required"), st)
    ensures !IsBlank(a.iin) && IsBlank(a.address) ==> Save(st, f, a, now) == (None, st)
    ensures !IsBlank(a.iin) && !IsBlank(a.address) && IsBlank(a.debtorId) ==>
      Save(st, f, a, now) == (Some("debtor_id is required"), st)
  {
    TrimSpaceEmpty(a.iin);
    TrimSpaceEmpty(a.address);
    TrimSpaceEmpty(a.debtorId);
  }

  /** A failed save leaves the table as it was. */
  lemma SaveFailsCleanly(st: Addresses, f: Faults, a: Address, now: int)
    requires Save(st, f, a, now).0.Some?
    ensures Save(st, f, a, now).1 == st
  {
  }

  /** After a successful save of a non-blank address, some row of the key (the nil type
      counting as 0) holds the address, and rows of other keys are untouched. */
  lemma SaveStores(st: Addresses, f: Faults, a: Address, now: int)
    requires !IsBlank(a.address) && Save(st, f, a, now).0.None?
    ensures var t := if a.typeId.Some? then a.typeId.value else 0;
      var r := Save(st, f, a, now).1.rows;
      |st.rows| <= |r|
      && (exists i :: 0 <= i < |r| && r[i].subjectId == a.debtorId && r[i].typeId == t && r[i].address == a.address)
      && (forall i :: 0 <= i < |st.rows| && !(st.rows[i].subjectId == a.debtorId && st.rows[i].typeId == t) ==> r[i] == st.rows[i])
  {
    TrimSpaceEmpty(a.address);
    var t := if a.typeId.Some? then a.typeId.value else 0;
    var r := Save(st, f, a, now).1.rows;
    if Exists(st.rows, a.debtorId, t) {
      var i :| 0 <= i < |st.rows| && st.rows[i].subjectId == a.debtorId && st.rows[i].typeId == t;
      assert r[i].address == a.address;
    } else {
      assert r[|st.rows|].address == a.address;
    }
  }

  /** `SaveBatchAddresses` as a function: the saves in order, stopping at the first error. */
  function SaveAll(st: Addresses, f: Faults, xs: seq<Address>, now: int): (Option<string>, Addresses)
    decreases |xs|
  {
    if xs == [] then (None, st)
    else
      var (e, st1) := Save(st, f, xs[0], now);
      if e.Some? then (e, st1) else SaveAll(st1, f, xs[1..], now)
  }

  /** The saves before a failing one stay done: when the first `k` saves succeed, the batch
      is those saves followed by the rest. */
  lemma {:induction false} SaveAllSplit(st: Addresses, f: Faults, xs: seq<Address>, k: nat, now: int)
    requires k <= |xs| && SaveAll(st, f, xs[..k], now).0.None?
    ensures SaveAll(st, f, xs, now) == SaveAll(SaveAll(st, f, xs[..k], now).1, f, xs[k..], now)
    decreases k
  {
    if k > 0 {
      var (e, st1) := Save(st, f, xs[0], now);
      assert xs[..k][0] == xs[0] && xs[..k][1..] == xs[1..][..k - 1];
      assert e.None?;
      assert SaveAll(st, f, xs[..k], now) == SaveAll(st1, f, xs[1..][..k - 1], now);
      assert SaveAll(st, f, xs, now) == SaveAll(st1, f, xs[1..], now);
      SaveAllSplit(st1, f, xs[1..], k - 1, now);
      assert xs[1..][k - 1..] == xs[k..];
    } else {
      assert xs[..0] == [] && xs[0..] == xs;
    }
  }

  /** The `addresses` table, with the faults of its three statements. */
  class AddressesTable {
    const faults: Faults
    var rows: seq<AddressRow>
    var nextId: nat

    constructor (faults: Faults, rows: seq<AddressRow>, nextId: nat)
      ensures this.faults == faults && this.rows == rows && this.nextId == nextId
    {
      this.faults := faults;
      this.rows := rows;
      this.nextId := nextId;
    }

    function State(): Addresses
      reads this
    {
      Addresses(rows, nextId)
    }

    /** `SaveAddress`. */
    method SaveAddress(a: Address, now: int) returns (err: Option<string>)
      modifies this
      ensures (err, State()) == Save(old(State()), faults, a, now)
    {
      if TrimSpace(a.iin) == "" {
        return Some("iin is required");
      }
      if TrimSpace(a.address) == "" {
        return None;
      }
      if TrimSpace(a.debtorId) == "" {
        return Some("debtor_id is required");
      }
      var typeId := 0;
      if a.typeId.Some? {
        typeId := a.typeId.value;
      }
      if a.debtorId in faults.check {
        return Some("check exists error: " + faults.check[a.debtorId]);
      }
      var found := Exists(rows, a.debtorId, typeId);
      if found {
        if a.debtorId in faults.update {
          return Some("update address error: " + faults.update[a.debtorId]);
        }
        rows := SetAddress(rows, a.debtorId, typeId, a.address, now);
      } else {
        if a.debtorId in faults.insert {
          return Some("insert address error: " + faults.insert[a.debtorId]);
        }
        rows := rows + [AddressRow(RowUuidText(nextId), DebtorSubjectType, a.debtorId, a.address, typeId, now, now)];
        nextId := nextId + 1;
      }
      err := None;
    }

    /** `SaveBatchAddresses`. */
    method SaveBatchAddresses(xs: seq<Address>, now: int) returns (err: Option<string>)
      modifies this
      ensures (err, State()) == SaveAll(old(State()), faults, xs, now)
    {
      var i := 0;
      while i < |xs|
        invariant 0 <= i <= |xs|
        invariant SaveAll(old(State()), faults, xs, now) == SaveAll(State(), faults, xs[i..], now)
      {
        assert xs[i..][0] == xs[i] && xs[i..][1..] == xs[i + 1..];
        err := SaveAddress(xs[i], now);
        if err.Some? {
          return;
        }
        i := i + 1;
      }
      err := None;
    }
  }
}
