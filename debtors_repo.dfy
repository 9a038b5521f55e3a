/** `DebtorRepo`: the upsert of a debtor by IIN, which hands back the row as stored, and
    the repository's own full-name splitter. */
module DebtorsRepo {
  import opened Wrappers
  import opened Text
  import opened Ports
  import opened Helpers
  import Names

  /** `models.Debtor`. `createdAt` is what the RETURNING clause reads back. */
  datatype Debtor = Debtor(
    id: string,
    iin: string,
    lastName: string,
    firstName: string,
    middleName: string,
    fullName: string,
    status: string,
    idCardNumber: string,
    idCardAuthorities: string,
    idCardStartDate: Option<DateTime>,
    idCardEndDate: Option<DateTime>,
    birthDay: Option<DateTime>,
    birthplace: string,
    nationality: string,
    createdAt: Option<int>)

  /** A row of the `debtors` table: the columns the RETURNING clause reads, and updated_at. */
  datatype StoredDebtor = StoredDebtor(debtor: Debtor, updatedAt: int)

  /** The names sent: split from the full name only when all three name fields are blank
      and the full name is not. */
  function WithNames(d: Debtor): (r: Debtor)
    ensures r.(lastName := d.lastName, firstName := d.firstName, middleName := d.middleName) == d
    ensures !(!IsBlank(d.fullName) && IsBlank(d.lastName) && IsBlank(d.firstName) && IsBlank(d.middleName)) ==> r == d
    ensures !IsBlank(d.fullName) && IsBlank(d.lastName) && IsBlank(d.firstName) && IsBlank(d.middleName) ==>
      Names.FullName(r.lastName, r.firstName, r.middleName) == Names.ParseFullName(d.fullName)
  {
    TrimSpaceEmpty(d.fullName);
    TrimSpaceEmpty(d.lastName);
    TrimSpaceEmpty(d.firstName);
    TrimSpaceEmpty(d.middleName);
    if TrimSpace(d.fullName) != "" && TrimSpace(d.lastName) == "" && TrimSpace(d.firstName) == ""
       && TrimSpace(d.middleName) == ""
    then
      var n := Names.ParseFullName(d.fullName);
      d.(lastName := n.last, firstName := n.first, middleName := n.middle)
    else d
  }

  /** `COALESCE(NULLIF(EXCLUDED.c, ''), debtors.c)`. */
  function KeepIfEmpty(incoming: string, stored: string): string {
    if incoming == "" then stored else incoming
  }

  /** `COALESCE(EXCLUDED.c, debtors.c)`. */
  function Coalesce<T>(incoming: Option<T>, stored: Option<T>): Option<T> {
    if incoming.Some? then incoming else stored
  }

  /** The `ON CONFLICT (iin) DO UPDATE SET` clause: id, iin and created_at stay; an empty
      incoming string or a null incoming date keeps the stored value. */
  function Merge(stored: Debtor, incoming: Debtor): Debtor {
    stored.(
      lastName := KeepIfEmpty(incoming.lastName, stored.lastName),
      firstName := KeepIfEmpty(incoming.firstName, stored.firstName),
      middleName := KeepIfEmpty(incoming.middleName, stored.middleName),
      status := KeepIfEmpty(incoming.status, stored.status),
      idCardNumber := KeepIfEmpty(incoming.idCardNumber, stored.idCardNumber),
      idCardAuthorities := KeepIfEmpty(incoming.idCardAuthorities, stored.idCardAuthorities),
      idCardStartDate := Coalesce(incoming.idCardStartDate, stored.idCardStartDate),
      idCardEndDate := Coalesce(incoming.idCardEndDate, stored.idCardEndDate),
      birthDay := Coalesce(incoming.birthDay, stored.birthDay),
      birthplace := KeepIfEmpty(incoming.birthplace, stored.birthplace),
      nationality := KeepIfEmpty(incoming.nationality, stored.nationality))
  }

  /** The row an INSERT creates: a generated id, no full name column, created now. */
  function Inserted(d: Debtor, newId: string, now: int): Debtor {
    d.(id := newId, fullName := "", createdAt := Some(now))
  }

  /** The table after the statement for `d` (names already filled in), the new id being
      `newId`. */
  function Upsert(rows: map<string, StoredDebtor>, d: Debtor, newId: string, now: int): map<string, StoredDebtor> {
    if d.iin in rows then rows[d.iin := StoredDebtor(Merge(rows[d.iin].debtor, d), now)]
    else rows[d.iin := StoredDebtor(Inserted(d, newId, now), now)]
  }

  /** The outcome of `UpdateOrCreate` on a table: the debtor handed back (`None` for the
      blank-IIN early return), the error, the table afterwards and whether a new id was drawn. */
  datatype Outcome = Outcome(debtor: Option<Debtor>, err: Option<string>, rows: map<string, StoredDebtor>, drewId: bool)

  /** `UpdateOrCreate` as a function of the table. */
  function Save(rows: map<string, StoredDebtor>, faults: map<string, string>, d: Debtor, newId: string, now: int): Outcome {
    TrimSpaceEmpty(d.iin);
    if TrimSpace(d.iin) == "" then Outcome(None, None, rows, false)
    else if d.iin in faults then Outcome(None, Some(faults[d.iin]), rows, false)
    else
      var r := Upsert(rows, WithNames(d), newId, now);
      Outcome(Some(r[d.iin].debtor), None, r, d.iin !in rows)
  }

  /** A blank IIN sends nothing; otherwise the debtor handed back is the row stored under
      the IIN after the write, and no other row changes. */
  lemma SaveFacts(rows: map<string, StoredDebtor>, faults: map<string, string>, d: Debtor, newId: string, now: int)
    ensures var o := Save(rows, faults, d, newId, now);
      (IsBlank(d.iin) ==> o == Outcome(None, None, rows, false))
      && (!IsBlank(d.iin) && d.iin !in faults ==>
            o.err.None? && d.iin in o.rows && o.debtor == Some(o.rows[d.iin].debtor)
            && o.rows.Keys == rows.Keys + {d.iin}
            && (forall k :: k in rows && k != d.iin ==> o.rows[k] == rows[k]))
      && (!IsBlank(d.iin) && d.iin in faults ==> o.debtor.None? && o.err == Some(faults[d.iin]) && o.rows == rows)
  {
    TrimSpaceEmpty(d.iin);
  }

  /** On a conflict the id and created_at stay, an empty string or null date keeps the
      stored value and everything else overwrites; a new id is taken only on insert. */
  lemma SaveConflict(rows: map<string, StoredDebtor>, faults: map<string, string>, d: Debtor, newId: string, now: int)
    requires !IsBlank(d.iin) && d.iin !in faults && d.iin in rows
    ensures var o := Save(rows, faults, d, newId, now);
      var s := rows[d.iin].debtor;
      var w := WithNames(d);
      o.debtor.Some? && !o.drewId &&
      var r := o.debtor.value;
      r.id == s.id && r.createdAt == s.createdAt && r.iin == s.iin
      && r.status == (if d.status == "" then s.status else d.status)
      && r.lastName == (if w.lastName == "" then s.lastName else w.lastName)
      && r.birthDay == (if d.birthDay.None? then s.birthDay else d.birthDay)
      && r.birthplace == (if d.birthplace == "" then s.birthplace else d.birthplace)
  {
    TrimSpaceEmpty(d.iin);
  }

  /** A new IIN gets the generated id and is stored with its names filled in. */
  lemma SaveInsert(rows: map<string, StoredDebtor>, faults: map<string, string>, d: Debtor, newId: string, now: int)
    requires !IsBlank(d.iin) && d.iin !in faults && d.iin !in rows
    ensures var o := Save(rows, faults, d, newId, now);
      o.drewId && o.debtor == Some(WithNames(d).(id := newId, fullName := "", createdAt := Some(now)))
  {
    TrimSpaceEmpty(d.iin);
  }

  /** `parseFullName` in the repository: trim, collapse white space, split on single
      spaces and take up to three pieces. */
  method ParseFullName(fullname0: string) returns (last: string, first: string, middle: string)
    ensures Names.FullName(last, first, middle) == Names.ParseFullName(fullname0)
  {
    var fullname := TrimSpace(fullname0);
    fullname := Join(Fields(fullname), " ");
    var parts := Split(fullname, ' ');
    last, first, middle := "", "", "";
    if |parts| >= 1 {
      last := parts[0];
    }
    if |parts| >= 2 {
      first := parts[1];
    }
    if |parts| >= 3 {
      middle := parts[2];
    }
  }

  /** The `debtors` table. `faults` holds the error the statement for an IIN fails with;
      `nextId` numbers the ids `gen_random_uuid()` hands out. */
  class DebtorsTable {
    const faults: map<string, string>
    var rows: map<string, StoredDebtor>
    var nextId: nat

    constructor (faults: map<string, string>, rows: map<string, StoredDebtor>, nextId: nat)
      ensures this.faults == faults && this.rows == rows && this.nextId == nextId
    {
      this.faults := faults;
      this.rows := rows;
      this.nextId := nextId;
    }

    /** `UpdateOrCreate`. */
    method UpdateOrCreate(d0: Debtor, now: int) returns (debtor: Option<Debtor>, err: Option<string>)
      modifies this
      ensures var o := Save(old(rows), faults, d0, RowUuidText(old(nextId)), now);
        debtor == o.debtor && err == o.err && rows == o.rows
        && nextId == old(nextId) + (if o.drewId then 1 else 0)
    {
      if TrimSpace(d0.iin) == "" {
        return None, None;
      }
      var d := d0;
      if TrimSpace(d.fullName) != "" && TrimSpace(d.lastName) == "" && TrimSpace(d.firstName) == ""
         && TrimSpace(d.middleName) == "" {
        var last, first, middle := ParseFullName(d.fullName);
        d := d.(lastName := last, firstName := first, middleName := middle);
      }
      assert d == WithNames(d0);
      if d.iin in faults {
        return None, Some(faults[d.iin]);
      }
      var newId := RowUuidText(nextId);
      if d.iin !in rows {
        nextId := nextId + 1;
      }
      rows := Upsert(rows, d, newId, now);
      debtor, err := Some(rows[d.iin].debtor), None;
    }
  }
}
