/** `DebtsRepo`: the upsert of a debt by its number. Before the write the text columns are
    trimmed, missing amounts become 0 and unusable additional data becomes "{}"; on a
    conflict the stored row keeps what the incoming row leaves null or empty. */
module DebtsRepo {
  import opened Wrappers
  import opened Text
  import opened Helpers

  /** The ten amount columns of a debt; `None` is a nil `*float64`. Amounts are exact
      reals: float64 rounding plays no part in a value that is only copied. */
  datatype Amounts = Amounts(
    actualDebt: Option<real>,
    accountsReceivable: Option<real>,
    credit: Option<real>,
    mainDebt: Option<real>,
    fine: Option<real>,
    accrual: Option<real>,
    governmentDuty: Option<real>,
    representationExpense: Option<real>,
    notaryFees: Option<real>,
    postage: Option<real>)

  /** `models.Debt` (its CreatedAt is never sent: the INSERT writes NOW()). */
  datatype Debt = Debt(
    id: string,
    debtorId: Option<string>,
    number: string,
    startDate: Option<DateTime>,
    endDate: Option<DateTime>,
    filial: string,
    productName: string,
    currency: string,
    amounts: Amounts,
    additionalData: string,
    userId: Option<int>,
    counterpartyId: Option<int>,
    statusId: Option<int>)

  /** A row of the `debts` table, with its timestamps (`updatedAt` is unset until a conflict update). */
  datatype StoredDebt = StoredDebt(debt: Debt, createdAt: int, updatedAt: Option<int>)

  /** Every amount is set. */
  predicate AllSet(a: Amounts) {
    a.actualDebt.Some? && a.accountsReceivable.Some? && a.credit.Some? && a.mainDebt.Some?
    && a.fine.Some? && a.accrual.Some? && a.governmentDuty.Some? && a.representationExpense.Some?
    && a.notaryFees.Some? && a.postage.Some?
  }

  function OrZero(x: Option<real>): (r: Option<real>)
    ensures r.Some? && (x.Some? ==> r == x) && (x.None? ==> r == Some(0.0))
  {
    if x.None? then Some(0.0) else x
  }

  /** The additional data actually written: the given text when it is not blank and
      begins, as given, with "{" or "["; "{}" otherwise. */
  function AdditionalOf(s: string): (r: string)
    ensures r == s || r == "{}"
    ensures r == s <==> s == "{}" || (!IsBlank(s) && (HasPrefix(s, "{") || HasPrefix(s, "[")))
  {
    TrimSpaceEmpty(s);
    if TrimSpace(s) != "" && (HasPrefix(s, "{") || HasPrefix(s, "[")) then s else "{}"
  }

  /** The row as it is sent: text trimmed, amounts defaulted, additional data checked. */
  function Prepared(row: Debt): (p: Debt)
    ensures p.filial == TrimSpace(row.filial) && p.productName == TrimSpace(row.productName)
    ensures p.currency == TrimSpace(row.currency)
    ensures AllSet(p.amounts)
    ensures p.additionalData == AdditionalOf(row.additionalData)
    ensures p.(filial := row.filial, productName := row.productName, currency := row.currency,
               amounts := row.amounts, additionalData := row.additionalData) == row
  {
    row.(filial := TrimSpace(row.filial), productName := TrimSpace(row.productName),
         currency := TrimSpace(row.currency),
         amounts := Defaulted(row.amounts),
         additionalData := AdditionalOf(row.additionalData))
  }

  /** Every nil amount replaced by 0. */
  function Defaulted(a: Amounts): Amounts {
    Amounts(OrZero(a.actualDebt), OrZero(a.accountsReceivable), OrZero(a.credit),
      OrZero(a.mainDebt), OrZero(a.fine), OrZero(a.accrual), OrZero(a.governmentDuty),
      OrZero(a.representationExpense), OrZero(a.notaryFees), OrZero(a.postage))
  }

  /** Defaulting sets every amount, and is the same as coalescing with all zeros. */
  lemma DefaultedFacts(a: Amounts)
    ensures AllSet(Defaulted(a))
    ensures Defaulted(a) == MergeAmounts(a, Amounts(Some(0.0), Some(0.0), Some(0.0), Some(0.0), Some(0.0),
                                                  Some(0.0), Some(0.0), Some(0.0), Some(0.0), Some(0.0)))
  {
  }

  /** `COALESCE(EXCLUDED.c, debts.c)`. */
  function Coalesce<T>(incoming: Option<T>, stored: Option<T>): Option<T> {
    if incoming.Some? then incoming else stored
  }

  /** `COALESCE(NULLIF(EXCLUDED.c, ''), debts.c)`. */
  function KeepIfEmpty(incoming: string, stored: string): string {
    if incoming == "" then stored else incoming
  }

  function MergeAmounts(incoming: Amounts, stored: Amounts): Amounts {
    Amounts(
      Coalesce(incoming.actualDebt, stored.actualDebt),
      Coalesce(incoming.accountsReceivable, stored.accountsReceivable),
      Coalesce(incoming.credit, stored.credit),
      Coalesce(incoming.mainDebt, stored.mainDebt),
      Coalesce(incoming.fine, stored.fine),
      Coalesce(incoming.accrual, stored.accrual),
      Coalesce(incoming.governmentDuty, stored.governmentDuty),
      Coalesce(incoming.representationExpense, stored.representationExpense),
      Coalesce(incoming.notaryFees, stored.notaryFees),
      Coalesce(incoming.postage, stored.postage))
  }

  /** The `ON CONFLICT (number) DO UPDATE SET` clause: the stored id and number stay;
      COALESCE for ids, dates, amounts and additional data, NULLIF '' for the text columns.
      `additionalData` is never null, so the incoming value always wins there. */
  function Merge(stored: Debt, incoming: Debt): Debt {
    stored.(
      debtorId := Coalesce(incoming.debtorId, stored.debtorId),
      startDate := Coalesce(incoming.startDate, stored.startDate),
      endDate := Coalesce(incoming.endDate, stored.endDate),
      filial := KeepIfEmpty(incoming.filial, stored.filial),
      productName := KeepIfEmpty(incoming.productName, stored.productName),
      currency := KeepIfEmpty(incoming.currency, stored.currency),
      amounts := MergeAmounts(incoming.amounts, stored.amounts),
      additionalData := incoming.additionalData,
      userId := Coalesce(incoming.userId, stored.userId),
      counterpartyId := Coalesce(incoming.counterpartyId, stored.counterpartyId),
      statusId := Coalesce(incoming.statusId, stored.statusId))
  }

  /** The table after the statement for the prepared row `p` at time `now`. */
  function Upsert(rows: map<string, StoredDebt>, p: Debt, now: int): map<string, StoredDebt> {
    if p.number in rows then
      rows[p.number := StoredDebt(Merge(rows[p.number].debt, p), rows[p.number].createdAt, Some(now))]
    else
      rows[p.number := StoredDebt(p, now, None)]
  }

  /** The upsert touches exactly the row of its number, which exists afterwards; the id is
      the supplied one only when the number was new. */
  lemma UpsertFrame(rows: map<string, StoredDebt>, row: Debt, now: int)
    ensures var r := Upsert(rows, Prepared(row), now);
      r.Keys == rows.Keys + {row.number}
      && (forall n :: n in rows && n != row.number ==> r[n] == rows[n])
      && r[row.number].debt.number == (if row.number in rows then rows[row.number].debt.number else row.number)
      && r[row.number].debt.id == (if row.number in rows then rows[row.number].debt.id else row.id)
      && r[row.number].createdAt == (if row.number in rows then rows[row.number].createdAt else now)
  {
  }

  /** On a conflict every amount and the additional data are overwritten: a missing
      amount resets the stored one to 0. */
  lemma ConflictOverwritesAmounts(rows: map<string, StoredDebt>, row: Debt, now: int)
    requires row.number in rows
    ensures var d := Upsert(rows, Prepared(row), now)[row.number].debt;
      d.amounts == Prepared(row).amounts && d.additionalData == AdditionalOf(row.additionalData)
      && (row.amounts.fine.None? ==> d.amounts.fine == Some(0.0))
  {
    var a := Prepared(row).amounts;
    assert AllSet(a);
    assert MergeAmounts(a, rows[row.number].debt.amounts) == a;
  }

  /** On a conflict a null id or date, and an empty (after trimming) filial, product or
      currency, keep what is stored; anything else overwrites. */
  lemma ConflictKeepsStored(rows: map<string, StoredDebt>, row: Debt, now: int)
    requires row.number in rows
    ensures var s := rows[row.number].debt;
      var d := Upsert(rows, Prepared(row), now)[row.number].debt;
      (d.debtorId == if row.debtorId.None? then s.debtorId else row.debtorId)
      && (d.startDate == if row.startDate.None? then s.startDate else row.startDate)
      && (d.endDate == if row.endDate.None? then s.endDate else row.endDate)
      && (d.userId == if row.userId.None? then s.userId else row.userId)
      && (d.counterpartyId == if row.counterpartyId.None? then s.counterpartyId else row.counterpartyId)
      && (d.statusId == if row.statusId.None? then s.statusId else row.statusId)
      && (d.filial == if IsBlank(row.filial) then s.filial else TrimSpace(row.filial))
      && (d.productName == if IsBlank(row.productName) then s.productName else TrimSpace(row.productName))
      && (d.currency == if IsBlank(row.currency) then s.currency else TrimSpace(row.currency))
      && Upsert(rows, Prepared(row), now)[row.number].updatedAt == Some(now)
  {
    TrimSpaceEmpty(row.filial);
    TrimSpaceEmpty(row.productName);
    TrimSpaceEmpty(row.currency);
  }

  /** The same row sent twice leaves the table as sending it once, up to updated_at. */
  lemma UpsertTwice(rows: map<string, StoredDebt>, row: Debt, t1: int, t2: int)
    ensures var once := Upsert(rows, Prepared(row), t1);
      var twice := Upsert(once, Prepared(row), t2);
      twice.Keys == once.Keys && twice[row.number].debt == once[row.number].debt
  {
    var p := Prepared(row);
    var once := Upsert(rows, p, t1);
    var s := once[row.number].debt;
    assert AllSet(p.amounts);
    assert MergeAmounts(p.amounts, s.amounts) == s.amounts;
    assert Merge(s, p) == s;
  }

  /** `GetByUUID` is a stub that finds nothing. */
  function GetByUUID(uuid: string): (r: Option<Debt>)
    ensures r.None?
  {
    None
  }

  /** The `debts` table as the repository writes it. `faults` holds the error the
      statement for a debt number fails with. */
  class DebtsTable {
    const faults: map<string, string>
    var rows: map<string, StoredDebt>

    constructor (faults: map<string, string>, rows: map<string, StoredDebt>)
      ensures this.faults == faults && this.rows == rows
    {
      this.faults := faults;
      this.rows := rows;
    }

    /** The ten nil checks of `UpdateOrCreate`. */
    static method ZeroMissing(a0: Amounts) returns (a: Amounts)
      ensures a == Defaulted(a0)
    {
      var actualDebt := ZeroIfNil(a0.actualDebt);
      var accountsReceivable := ZeroIfNil(a0.accountsReceivable);
      var credit := ZeroIfNil(a0.credit);
      var mainDebt := ZeroIfNil(a0.mainDebt);
      var fine := ZeroIfNil(a0.fine);
      var accrual := ZeroIfNil(a0.accrual);
      var governmentDuty := ZeroIfNil(a0.governmentDuty);
      var representationExpense := ZeroIfNil(a0.representationExpense);
      var notaryFees := ZeroIfNil(a0.notaryFees);
      var postage := ZeroIfNil(a0.postage);
      a := Amounts(actualDebt, accountsReceivable, credit, mainDebt, fine, accrual, governmentDuty, representationExpense, notaryFees, postage);
    }

    /** One nil check: a missing amount becomes a pointer to 0. */
    static method ZeroIfNil(x: Option<real>) returns (y: Option<real>)
      ensures y.Some? && (x.Some? ==> y == x) && (x.None? ==> y == Some(0.0))
    {
      y := x;
      if y.None? { y := Some(0.0); }
    }

    /** `UpdateOrCreate`: the row is a copy, normalised field by field, then sent. */
    method UpdateOrCreate(row: Debt, now: int) returns (err: Option<string>)
      modifies this
      ensures row.number in faults ==> err == Some(faults[row.number]) && rows == old(rows)
      ensures row.number !in faults ==> err.None? && rows == Upsert(old(rows), Prepared(row), now)
    {
      var r := row;
      r := r.(filial := TrimSpace(r.filial));
      r := r.(productName := TrimSpace(r.productName));
      r := r.(currency := TrimSpace(r.currency));

      var a := ZeroMissing(r.amounts);
      r := r.(amounts := a);

      var additional := "{}";
      if TrimSpace(r.additionalData) != "" {
        if HasPrefix(r.additionalData, "{") || HasPrefix(r.additionalData, "[") {
          additional := r.additionalData;
        }
      }
      r := r.(additionalData := additional);
      assert r == Prepared(row);

      if r.number in faults {
        return Some(faults[r.number]);
      }
      rows := Upsert(rows, r, now);
      err := None;
    }
  }
}
