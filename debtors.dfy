/** `DebtorsProcessor`: each row upserts a debtor by IIN and then fans out to the debt, the
    addresses, the phones and the contact-person phones of that debtor. A failed fan-out write
    is logged under its own model type and does not fail the row. */
module Debtors {
  import opened Wrappers
  import opened Text
  import opened Ports
  import opened Ledger
  import opened Proc
  import opened Helpers
  import DebtorsRepo
  import DebtsRepo
  import AddressesRepo
  import PhonesRepo
  import ContactPhonesRepo

  /** `Type()`: the model type of a row that fails. */
  const ProcessorType := "import_debtors"
  /** The model type of the item of a row that succeeds. */
  const DoneType := "debtors"
  /** The model types of the fan-out failures. */
  const DebtsType := "debts"
  const AddressesType := "addresses"
  const PhonesType := "phones"
  const ContactsType := "contact_person_phones"

  /** The layouts `parseDate` tries, in order (Go reference-time notation). */
  const DateLayouts: seq<string> := ["2006-01-02", "02.01.2006", "02/01/2006", "02-01-2006"]

  /** The address cells and the type id each is saved under. */
  const AddressKeys: seq<(string, int)> := [("reg_address", 1), ("fact_address", 2), ("work_address", 3)]

  /** The phone cells and the type id each is saved under. */
  const PhoneKeys: seq<(string, int)> := [("phones", 1), ("work_phones", 2), ("home_phones", 3)]

  /** `parseDate`: nil for a blank cell, otherwise the first layout `parse` (`time.Parse`)
      accepts the trimmed cell with. */
  function ParseDate(s: string, parse: (string, string) -> Option<DateTime>): (r: Option<DateTime>)
    ensures IsBlank(s) ==> r.None?
  {
    TrimSpaceEmpty(s);
    if TrimSpace(s) == "" then None else FirstMatch(DateLayouts, TrimSpace(s), parse)
  }

  /** A date comes from the first of the four layouts that accepts the trimmed cell. */
  lemma ParseDateLayouts(s: string, parse: (string, string) -> Option<DateTime>)
    ensures var r := ParseDate(s, parse);
      r.Some? ==> exists i :: (0 <= i < |DateLayouts| && parse(DateLayouts[i], TrimSpace(s)) == r
                     && forall j :: 0 <= j < i ==> parse(DateLayouts[j], TrimSpace(s)).None?)
  {
    FirstMatchFacts(DateLayouts, TrimSpace(s), parse);
  }

  /** `parseFloatPtr`: nil for a blank cell, otherwise what `parseFloat` (`strconv.ParseFloat`)
      makes of the trimmed cell with every "," turned into ".". */
  function ParseFloat(s: string, parseFloat: string -> Option<real>): (r: Option<real>)
    ensures IsBlank(s) ==> r.None?
  {
    TrimSpaceEmpty(s);
    var t := TrimSpace(s);
    if t == "" then None else parseFloat(ReplaceChar(t, ',', '.'))
  }

  /** A decimal comma is read as a point: the text handed to the parser has no comma and
      otherwise is the trimmed cell. */
  lemma ParseFloatDecimalComma(s: string, parseFloat: string -> Option<real>)
    requires !IsBlank(s)
    ensures exists t :: (ParseFloat(s, parseFloat) == parseFloat(t) && |t| == |TrimSpace(s)|
      && forall i :: 0 <= i < |t| ==> t[i] != ',' && (TrimSpace(s)[i] != ',' ==> t[i] == TrimSpace(s)[i]))
  {
    TrimSpaceEmpty(s);
    var t := ReplaceChar(TrimSpace(s), ',', '.');
    assert ParseFloat(s, parseFloat) == parseFloat(t);
  }

  /** The repositories as the processor holds them: `None` is a nil repository. */
  datatype Repos = Repos(
    debtorFaults: map<string, string>,
    debts: Option<map<string, string>>,
    addresses: Option<AddressesRepo.Faults>,
    phones: Option<map<string, string>>,
    contacts: Option<(ContactPhonesRepo.Faults, string -> Option<int>)>)

  /** What one batch runs against: the repositories, the records a row is turned into
      (`debtorOf(m, iin, now)` and `debtOf(m, id, debtorId, number)`), the import record id
      and the clock. */
  datatype Env = Env(
    repos: Repos,
    debtorOf: (Row, string, int) -> DebtorsRepo.Debtor,
    debtOf: (Row, string, string, string) -> DebtsRepo.Debt,
    rec: string,
    now: int)

  /** Everything a row can change: the five tables, the items this batch logged, and the
      next uuid to hand out. */
  datatype World = World(
    debtors: map<string, DebtorsRepo.StoredDebtor>,
    debtorNext: nat,
    debts: map<string, DebtsRepo.StoredDebt>,
    addresses: AddressesRepo.Addresses,
    phones: PhonesRepo.Phones,
    contacts: ContactPhonesRepo.Tables,
    items: seq<Item>,
    next: nat,
    success: nat,
    failed: nat)

  /** The debtor sent for a row. */
  function DebtorOf(m: Row, iin: string, now: int, parse: (string, string) -> Option<DateTime>): DebtorsRepo.Debtor {
    DebtorsRepo.Debtor("", iin, "", "", "", Trimmed(m, "full_name"), Trimmed(m, "status"),
      Trimmed(m, "id_card_number"), Trimmed(m, "id_card_authorities_in_granting"),
      ParseDate(Field(m, "id_card_start_date"), parse), ParseDate(Field(m, "id_card_end_date"), parse),
      ParseDate(Field(m, "birth_day"), parse), Trimmed(m, "birthplace"), Trimmed(m, "nationality"),
      Some(now))
  }

  /** The debt sent for a row, under a fresh id and for the stored debtor. */
  function DebtOf(m: Row, id: string, debtorId: string, number: string,
                  parse: (string, string) -> Option<DateTime>, parseFloat: string -> Option<real>): DebtsRepo.Debt {
    DebtsRepo.Debt(id, Some(debtorId), number,
      ParseDate(Field(m, "start_date"), parse), ParseDate(Field(m, "end_date"), parse),
      Trimmed(m, "filial"), Trimmed(m, "product_name"), Trimmed(m, "currency"),
      DebtsRepo.Amounts(ParseFloat(Field(m, "amount_actual_debt"), parseFloat), None,
        ParseFloat(Field(m, "amount_credit"), parseFloat), ParseFloat(Field(m, "amount_main_debt"), parseFloat),
        ParseFloat(Field(m, "amount_fine"), parseFloat), None, None, None, None, None),
      Trimmed(m, "additional_data"), None, None, None)
  }

  /** The record builders put the key fields where the statements expect them: the IIN of
      the debtor, and the number, the id and the debtor of the debt. */
  ghost predicate KeyedBuilders(debtorOf: (Row, string, int) -> DebtorsRepo.Debtor, debtOf: (Row, string, string, string) -> DebtsRepo.Debt) {
    (forall m, iin, now :: debtorOf(m, iin, now).iin == iin)
    && (forall m, id, debtorId, number :: debtOf(m, id, debtorId, number).number == number
          && debtOf(m, id, debtorId, number).id == id && debtOf(m, id, debtorId, number).debtorId == Some(debtorId))
  }

  ghost predicate Keyed(env: Env) {
    KeyedBuilders(env.debtorOf, env.debtOf)
  }

  /** A row's fate after the debtor upsert: skipped (already logged failed), or going on
      with the debtor as stored. */
  datatype Head = Skip(w: World) | Go(w: World, debtor: DebtorsRepo.Debtor)

  /** The failed item of a row or of a fan-out write, under the next fresh uuid. */
  function LogFailed(env: Env, w: World, modelType: string, m: Row, err: string): World {
    w.(items := w.items + [Failed(env.rec, modelType, UuidText(w.next), m, err, env.now)], next := w.next + 1)
  }

  /** The IIN check and the debtor upsert. */
  function DebtorStep(env: Env, w: World, m: Row): Head
    requires Keyed(env)
  {
    var iin := Trimmed(m, "iin");
    if iin == "" then Skip(LogFailed(env, w, ProcessorType, m, "missing iin").(failed := w.failed + 1))
    else
      var o := DebtorsRepo.Save(w.debtors, env.repos.debtorFaults, env.debtorOf(m, iin, env.now), RowUuidText(w.debtorNext), env.now);
      if o.err.Some? then Skip(LogFailed(env, w, ProcessorType, m, o.err.value).(failed := w.failed + 1))
      else
        TrimSpaceIdempotent(Field(m, "iin"));
        Go(w.(debtors := o.rows, debtorNext := w.debtorNext + (if o.drewId then 1 else 0), success := w.success + 1), o.debtor.value)
  }

  /** The debt write: only with a debts repository and a non-blank debt number. The debt's
      id is drawn before the write, the failure's id after it. */
  function DebtStep(env: Env, w: World, m: Row, debtorId: string): World {
    var number := Trimmed(m, "debt_number");
    if env.repos.debts.None? || number == "" then w
    else
      var row := env.debtOf(m, UuidText(w.next), debtorId, number);
      var w1 := w.(next := w.next + 1);
      if number in env.repos.debts.value then LogFailed(env, w1, DebtsType, m, env.repos.debts.value[number])
      else w1.(debts := DebtsRepo.Upsert(w.debts, DebtsRepo.Prepared(row), env.now))
  }

  /** One address cell: skipped when blank, otherwise saved under its type id. */
  function AddressOne(env: Env, w: World, m: Row, debtorId: string, iin: string, key: (string, int)): World
    requires env.repos.addresses.Some?
  {
    var addr := Trimmed(m, key.0);
    if addr == "" then w
    else
      var r := AddressesRepo.Save(w.addresses, env.repos.addresses.value, AddressesRepo.Address(debtorId, iin, addr, Some(key.1)), env.now);
      var w1 := w.(addresses := r.1);
      if r.0.Some? then LogFailed(env, w1, AddressesType, m, r.0.value) else w1
  }

  /** The first `n` address cells, in order. */
  function AddressFold(env: Env, w: World, m: Row, debtorId: string, iin: string, n: nat): World
    requires env.repos.addresses.Some? && n <= |AddressKeys|
  {
    if n == 0 then w else AddressOne(env, AddressFold(env, w, m, debtorId, iin, n - 1), m, debtorId, iin, AddressKeys[n - 1])
  }

  function AddressStep(env: Env, w: World, m: Row, debtorId: string, iin: string): World {
    if env.repos.addresses.None? then w else AddressFold(env, w, m, debtorId, iin, |AddressKeys|)
  }

  /** One phone cell: skipped when blank, otherwise handed over raw under its type id. */
  function PhoneOne(env: Env, w: World, m: Row, debtorId: string, key: (string, int)): World
    requires env.repos.phones.Some?
  {
    var raw := Trimmed(m, key.0);
    if raw == "" then w
    else
      var r := PhonesRepo.Save(w.phones, env.repos.phones.value,
        PhonesRepo.Phone(AddressesRepo.DebtorSubjectType, debtorId, raw, Some(key.1)), env.now);
      var w1 := w.(phones := r.1);
      if r.0.Some? then LogFailed(env, w1, PhonesType, m, r.0.value) else w1
  }

  /** One phone cell with the phones INSERT as written (the other half of the Findings row):
      the cell reaches `SavePhonesAsWritten` instead of the corrected save. */
  function PhoneOneAsWritten(env: Env, w: World, m: Row, debtorId: string, key: (string, int)): World {
    var raw := Trimmed(m, key.0);
    if raw == "" then w
    else
      var r := PhonesRepo.SaveAsWritten(w.phones,
        PhonesRepo.Phone(AddressesRepo.DebtorSubjectType, debtorId, raw, Some(key.1)));
      var w1 := w.(phones := r.1);
      if r.0.Some? then LogFailed(env, w1, PhonesType, m, r.0.value) else w1
  }

  /** The first `n` phone cells, in order. */
  function PhoneFold(env: Env, w: World, m: Row, debtorId: string, n: nat): World
    requires env.repos.phones.Some? && n <= |PhoneKeys|
  {
    if n == 0 then w else PhoneOne(env, PhoneFold(env, w, m, debtorId, n - 1), m, debtorId, PhoneKeys[n - 1])
  }

  function PhoneStep(env: Env, w: World, m: Row, debtorId: string): World {
    if env.repos.phones.None? then w else PhoneFold(env, w, m, debtorId, |PhoneKeys|)
  }

  /** The contact-person phones cell: only with a repository and a non-blank cell. */
  function ContactStep(env: Env, w: World, m: Row, debtorId: string): World {
    var raw := Trimmed(m, "contact_person_phones");
    if env.repos.contacts.None? || raw == "" then w
    else
      var (f, scan) := env.repos.contacts.value;
      var r := ContactPhonesRepo.Save(w.contacts, f, ContactPhonesRepo.ContactRow(debtorId, "", raw), scan, env.now);
      var w1 := w.(contacts := r.1);
      if r.0.Some? then LogFailed(env, w1, ContactsType, m, r.0.value) else w1
  }

  /** The fan-out of a row whose debtor was stored, and its done item under the debtor's id. */
  function FanOut(env: Env, w: World, m: Row, d: DebtorsRepo.Debtor, iin: string): World {
    var w5 := Writes(env, w, m, d.id, iin);
    w5.(items := w5.items + [Done(env.rec, DoneType, d.id, m, "", env.now)])
  }

  /** The four fan-out writes, in the order the row's cells are handled. */
  function Writes(env: Env, w: World, m: Row, debtorId: string, iin: string): World {
    var w2 := DebtStep(env, w, m, debtorId);
    var w3 := AddressStep(env, w2, m, debtorId, iin);
    var w4 := PhoneStep(env, w3, m, debtorId);
    ContactStep(env, w4, m, debtorId)
  }

  /** One row. */
  function RowStep(env: Env, w: World, m: Row): World
    requires Keyed(env)
  {
    match DebtorStep(env, w, m)
    case Skip(w1) => w1
    case Go(w1, d) => FanOut(env, w1, m, d, Trimmed(m, "iin"))
  }

  /** The rows, in order, from the state `w`. */
  function Run(env: Env, w: World, rows: seq<Row>): World
    requires Keyed(env)
    decreases |rows|
  {
    if rows == [] then w else Run(env, RowStep(env, w, rows[0]), rows[1..])
  }

  // ---------------------------------------------------------------------------
  // Properties
  // ---------------------------------------------------------------------------

  /** The item that stands for a whole row: its failure, or its success. */
  predicate RowLevel(it: Item) {
    it.modelType == ProcessorType || it.modelType == DoneType
  }

  function RowLevelCount(xs: seq<Item>): (n: nat)
    ensures n <= |xs|
  {
    if xs == [] then 0 else RowLevelCount(xs[..|xs| - 1]) + (if RowLevel(xs[|xs| - 1]) then 1 else 0)
  }

  lemma {:induction false} RowLevelCountAppend(a: seq<Item>, b: seq<Item>)
    ensures RowLevelCount(a + b) == RowLevelCount(a) + RowLevelCount(b)
    decreases |b|
  {
    if b == [] {
      assert a + b == a;
    } else {
      var b' := b[..|b| - 1];
      assert (a + b)[..|a + b| - 1] == a + b';
      RowLevelCountAppend(a, b');
    }
  }

  lemma {:induction false} NoRowLevel(xs: seq<Item>)
    requires forall i :: 0 <= i < |xs| ==> !RowLevel(xs[i])
    ensures RowLevelCount(xs) == 0
    decreases |xs|
  {
    if xs != [] {
      NoRowLevel(xs[..|xs| - 1]);
    }
  }

  /** The model types of the fan-out failures. */
  const FanOutTypes: set<string> := {DebtsType, AddressesType, PhonesType, ContactsType}

  /** `w'` keeps `w`'s items and adds only failed items whose model type is in `ts`. */
  predicate Adds(w: World, w': World, ts: set<string>) {
    AddsItems(w.items, w'.items, ts)
  }

  /** `b` extends `a` with failed items whose model type is in `ts` only. */
  predicate AddsItems(a: seq<Item>, b: seq<Item>, ts: set<string>) {
    |a| <= |b| && b[..|a|] == a
    && forall i :: |a| <= i < |b| ==> b[i].modelType in ts && b[i].status == StatusFailed
  }

  lemma AddsTrans(w1: World, w2: World, w3: World, ts: set<string>)
    requires Adds(w1, w2, ts) && Adds(w2, w3, ts)
    ensures Adds(w1, w3, ts)
  {
    assert w3.items[..|w1.items|] == w3.items[..|w2.items|][..|w1.items|];
  }

  /** A debt failure is logged under "debts" and nothing but the debts table changes
      otherwise; without a repository or a debt number nothing happens, and a debt the
      database takes is stored under its number for the row's debtor. */
  lemma DebtStepFacts(env: Env, w: World, m: Row, debtorId: string)
    requires Keyed(env)
    ensures var r := DebtStep(env, w, m, debtorId);
      Adds(w, r, {DebtsType}) && r.debtors == w.debtors && r.debtorNext == w.debtorNext && r.success == w.success && r.failed == w.failed
      && r.addresses == w.addresses && r.phones == w.phones && r.contacts == w.contacts
      && (env.repos.debts.None? || IsBlank(Field(m, "debt_number")) ==> r == w)
      && (env.repos.debts.Some? && !IsBlank(Field(m, "debt_number")) && Trimmed(m, "debt_number") !in env.repos.debts.value ==>
            (var number := Trimmed(m, "debt_number");
             r.items == w.items && r.next == w.next + 1 && number in r.debts
             && r.debts[number].debt.debtorId == Some(debtorId)))
  {
    TrimSpaceEmpty(Field(m, "debt_number"));
    var number := Trimmed(m, "debt_number");
    if env.repos.debts.Some? && number != "" {
      var row := env.debtOf(m, UuidText(w.next), debtorId, number);
      var p := DebtsRepo.Prepared(row);
      assert p.number == row.number && p.debtorId == row.debtorId;
    }
  }

  lemma AddressOneFacts(env: Env, w: World, m: Row, debtorId: string, iin: string, key: (string, int))
    requires env.repos.addresses.Some?
    ensures var r := AddressOne(env, w, m, debtorId, iin, key);
      Adds(w, r, {AddressesType}) && r.debtors == w.debtors && r.debtorNext == w.debtorNext && r.success == w.success && r.failed == w.failed
      && r.debts == w.debts && r.phones == w.phones && r.contacts == w.contacts
  {
    var addr := Trimmed(m, key.0);
    if addr != "" {
      var a := AddressesRepo.Save(w.addresses, env.repos.addresses.value, AddressesRepo.Address(debtorId, iin, addr, Some(key.1)), env.now);
      var w1 := w.(addresses := a.1);
      assert AddressOne(env, w, m, debtorId, iin, key) == if a.0.Some? then LogFailed(env, w1, AddressesType, m, a.0.value) else w1;
    }
  }

  lemma {:induction false} AddressFoldFacts(env: Env, w: World, m: Row, debtorId: string, iin: string, n: nat)
    requires env.repos.addresses.Some? && n <= |AddressKeys|
    ensures var r := AddressFold(env, w, m, debtorId, iin, n);
      Adds(w, r, {AddressesType}) && r.debtors == w.debtors && r.debtorNext == w.debtorNext && r.success == w.success && r.failed == w.failed
      && r.debts == w.debts && r.phones == w.phones && r.contacts == w.contacts
  {
    if n > 0 {
      AddressFoldFacts(env, w, m, debtorId, iin, n - 1);
      var w1 := AddressFold(env, w, m, debtorId, iin, n - 1);
      AddressOneFacts(env, w1, m, debtorId, iin, AddressKeys[n - 1]);
      AddsTrans(w, w1, AddressOne(env, w1, m, debtorId, iin, AddressKeys[n - 1]), {AddressesType});
    }
  }

  lemma PhoneOneFacts(env: Env, w: World, m: Row, debtorId: string, key: (string, int))
    requires env.repos.phones.Some?
    ensures var r := PhoneOne(env, w, m, debtorId, key);
      Adds(w, r, {PhonesType}) && r.debtors == w.debtors && r.debtorNext == w.debtorNext && r.success == w.success && r.failed == w.failed
      && r.debts == w.debts && r.addresses == w.addresses && r.contacts == w.contacts
  {
    var raw := Trimmed(m, key.0);
    if raw != "" {
      var p := PhonesRepo.Save(w.phones, env.repos.phones.value,
        PhonesRepo.Phone(AddressesRepo.DebtorSubjectType, debtorId, raw, Some(key.1)), env.now);
      var w1 := w.(phones := p.1);
      assert PhoneOne(env, w, m, debtorId, key) == if p.0.Some? then LogFailed(env, w1, PhonesType, m, p.0.value) else w1;
    }
  }

  /** As written, every phone cell of a stored debtor that holds a digit stores nothing and
      logs one failed "phones" item carrying the syntax error. */
  lemma PhoneOneAsWrittenFails(env: Env, w: World, m: Row, debtorId: string, key: (string, int))
    requires debtorId != "" && Digits(Trimmed(m, key.0)) != ""
    ensures PhoneOneAsWritten(env, w, m, debtorId, key)
      == LogFailed(env, w, PhonesType, m, PhonesRepo.InsertSyntaxError)
  {
    var raw := Trimmed(m, key.0);
    var p := PhonesRepo.Phone(AddressesRepo.DebtorSubjectType, debtorId, raw, Some(key.1));
    DigitsTrimSpace(raw);
    assert TrimSpace(raw) != "";
    assert raw != "";
    TrimSpaceEmpty(AddressesRepo.DebtorSubjectType);
    assert !IsSpace(AddressesRepo.DebtorSubjectType[0]);
    assert !PhonesRepo.Skipped(p);
    PhonesRepo.AsWrittenStoresNothing(w.phones, p);
  }

  lemma {:induction false} PhoneFoldFacts(env: Env, w: World, m: Row, debtorId: string, n: nat)
    requires env.repos.phones.Some? && n <= |PhoneKeys|
    ensures var r := PhoneFold(env, w, m, debtorId, n);
      Adds(w, r, {PhonesType}) && r.debtors == w.debtors && r.debtorNext == w.debtorNext && r.success == w.success && r.failed == w.failed
      && r.debts == w.debts && r.addresses == w.addresses && r.contacts == w.contacts
  {
    if n > 0 {
      PhoneFoldFacts(env, w, m, debtorId, n - 1);
      var w1 := PhoneFold(env, w, m, debtorId, n - 1);
      PhoneOneFacts(env, w1, m, debtorId, PhoneKeys[n - 1]);
      AddsTrans(w, w1, PhoneOne(env, w1, m, debtorId, PhoneKeys[n - 1]), {PhonesType});
    }
  }

  lemma ContactStepFacts(env: Env, w: World, m: Row, debtorId: string)
    ensures var r := ContactStep(env, w, m, debtorId);
      Adds(w, r, {ContactsType}) && r.debtors == w.debtors && r.debtorNext == w.debtorNext && r.success == w.success && r.failed == w.failed
  {
    var raw := Trimmed(m, "contact_person_phones");
    if env.repos.contacts.Some? && raw != "" {
      var (f, scan) := env.repos.contacts.value;
      var c := ContactPhonesRepo.Save(w.contacts, f, ContactPhonesRepo.ContactRow(debtorId, "", raw), scan, env.now);
      var w1 := w.(contacts := c.1);
      assert ContactStep(env, w, m, debtorId) == if c.0.Some? then LogFailed(env, w1, ContactsType, m, c.0.value) else w1;
    }
  }

  /** The fan-out writes add only failed items of the four fan-out model types and leave
      the debtors table and the counters alone. */
  lemma WritesFacts(env: Env, w: World, m: Row, debtorId: string, iin: string)
    requires Keyed(env)
    ensures var r := Writes(env, w, m, debtorId, iin);
      Adds(w, r, FanOutTypes) && r.debtors == w.debtors && r.debtorNext == w.debtorNext && r.success == w.success && r.failed == w.failed
  {
    var w2 := DebtStep(env, w, m, debtorId);
    DebtStepFacts(env, w, m, debtorId);
    var w3 := AddressStep(env, w2, m, debtorId, iin);
    if env.repos.addresses.Some? {
      AddressFoldFacts(env, w2, m, debtorId, iin, |AddressKeys|);
    }
    var w4 := PhoneStep(env, w3, m, debtorId);
    if env.repos.phones.Some? {
      PhoneFoldFacts(env, w3, m, debtorId, |PhoneKeys|);
    }
    ContactStepFacts(env, w4, m, debtorId);
    AddsTrans(w, w2, w3, FanOutTypes);
    AddsTrans(w, w3, w4, FanOutTypes);
    AddsTrans(w, w4, ContactStep(env, w4, m, debtorId), FanOutTypes);
  }

  /** The fan-out ends with one done item under the debtor's id, after failed items of the
      four fan-out model types only, and leaves the debtors table and the counters alone. */
  lemma FanOutFacts(env: Env, w: World, m: Row, d: DebtorsRepo.Debtor, iin: string)
    requires Keyed(env)
    ensures var r := FanOut(env, w, m, d, iin);
      |w.items| < |r.items| && r.items[|r.items| - 1] == Done(env.rec, DoneType, d.id, m, "", env.now)
      && AddsItems(w.items, r.items[..|r.items| - 1], FanOutTypes)
      && r.debtors == w.debtors && r.debtorNext == w.debtorNext && r.success == w.success && r.failed == w.failed
  {
    var w5 := Writes(env, w, m, d.id, iin);
    WritesFacts(env, w, m, d.id, iin);
    var r := FanOut(env, w, m, d, iin);
    assert r.items[..|r.items| - 1] == w5.items;
  }

  /** A blank IIN logs one failed "missing iin" item under a fresh id and writes nothing. */
  lemma MissingIin(env: Env, w: World, m: Row)
    requires Keyed(env) && IsBlank(Field(m, "iin"))
    ensures RowStep(env, w, m) == w.(items := w.items + [Failed(env.rec, ProcessorType, UuidText(w.next), m, "missing iin", env.now)],
                                     next := w.next + 1, failed := w.failed + 1)
  {
    TrimSpaceEmpty(Field(m, "iin"));
  }

  /** A debtor upsert error logs one failed item with the error and skips the fan-out. */
  lemma DebtorRejected(env: Env, w: World, m: Row)
    requires Keyed(env) && !IsBlank(Field(m, "iin")) && Trimmed(m, "iin") in env.repos.debtorFaults
    ensures RowStep(env, w, m) == w.(items := w.items + [Failed(env.rec, ProcessorType, UuidText(w.next), m,
                                                                 env.repos.debtorFaults[Trimmed(m, "iin")], env.now)],
                                     next := w.next + 1, failed := w.failed + 1)
  {
    TrimSpaceEmpty(Field(m, "iin"));
    TrimSpaceIdempotent(Field(m, "iin"));
  }

  /** A stored debtor: the debtors table is the repository's upsert of the row's debtor, and
      the row's items end with one done item of model type "debtors" under the id of the
      debtor stored under the IIN, after failed fan-out items only. */
  lemma DebtorAccepted(env: Env, w: World, m: Row)
    requires Keyed(env) && !IsBlank(Field(m, "iin")) && Trimmed(m, "iin") !in env.repos.debtorFaults
    ensures var r := RowStep(env, w, m); var iin := Trimmed(m, "iin");
      r.debtors == DebtorsRepo.Save(w.debtors, env.repos.debtorFaults, env.debtorOf(m, iin, env.now), RowUuidText(w.debtorNext), env.now).rows
      && iin in r.debtors && |w.items| < |r.items| && r.success == w.success + 1 && r.failed == w.failed
      && r.items[|r.items| - 1] == Done(env.rec, DoneType, r.debtors[iin].debtor.id, m, "", env.now)
      && AddsItems(w.items, r.items[..|r.items| - 1], FanOutTypes)
  {
    TrimSpaceEmpty(Field(m, "iin"));
    TrimSpaceIdempotent(Field(m, "iin"));
    var iin := Trimmed(m, "iin");
    DebtorsRepo.SaveFacts(w.debtors, env.repos.debtorFaults, env.debtorOf(m, iin, env.now), RowUuidText(w.debtorNext), env.now);
    var h := DebtorStep(env, w, m);
    FanOutFacts(env, h.w, m, h.debtor, iin);
  }

  /** No fan-out failure is a row-level item: the model type names differ in length. */
  lemma FanOutNotRowLevel(it: Item)
    requires it.modelType in FanOutTypes
    ensures !RowLevel(it)
  {
    assert |it.modelType| in {5, 9, 6, 21};
  }

  lemma SplitAt<T>(xs: seq<T>, k: nat)
    requires k <= |xs|
    ensures xs == xs[..k] + xs[k..]
  {
  }

  /** Counting over a row that went on: the fan-out failures are not row-level, the done
      item is. */
  lemma CountFanOut(a: seq<Item>, items: seq<Item>)
    requires |items| > 0 && AddsItems(a, items[..|items| - 1], FanOutTypes) && RowLevel(items[|items| - 1])
    ensures |a| < |items| && items[..|a|] == a && RowLevelCount(items) == RowLevelCount(a) + 1
  {
    var body := items[..|items| - 1];
    var mid := body[|a|..];
    forall i | 0 <= i < |mid|
      ensures !RowLevel(mid[i])
    {
      FanOutNotRowLevel(body[|a| + i]);
    }
    NoRowLevel(mid);
    SplitAt(body, |a|);
    SplitAt(items, |body|);
    RowLevelCountAppend(a, mid);
    RowLevelCountAppend(a + mid, [items[|body|]]);
  }

  lemma RowStepCases(env: Env, w: World, m: Row)
    requires Keyed(env)
    ensures var h := DebtorStep(env, w, m);
      RowStep(env, w, m) == if h.Skip? then h.w else FanOut(env, h.w, m, h.debtor, Trimmed(m, "iin"))
  {
  }

  /** The debtor step adds one row-level failed item when it skips the row, and nothing
      when it goes on. */
  lemma DebtorStepItems(env: Env, w: World, m: Row)
    requires Keyed(env)
    ensures var h := DebtorStep(env, w, m);
      (h.Skip? ==> |h.w.items| == |w.items| + 1 && h.w.items[..|w.items|] == w.items
                   && h.w.items[|w.items|].modelType == ProcessorType
                   && h.w.success == w.success && h.w.failed == w.failed + 1)
      && (h.Go? ==> h.w.items == w.items && h.w.success == w.success + 1 && h.w.failed == w.failed)
  {
    var h := DebtorStep(env, w, m);
    if h.Skip? {
      assert h.w.items[..|w.items|] == w.items;
    }
  }

  /** Each row logs exactly one row-level item (its failure or its success), the fan-out
      failures being extra items of other model types, and moves exactly one of the two
      counters: `success` when its last item is the done item, `failed` otherwise. */
  lemma RowStepCounts(env: Env, w: World, m: Row)
    requires Keyed(env)
    ensures var r := RowStep(env, w, m);
      |w.items| < |r.items| && r.items[..|w.items|] == w.items && RowLevelCount(r.items) == RowLevelCount(w.items) + 1
      && r.success + r.failed == w.success + w.failed + 1
      && (r.success == w.success + 1 <==> r.items[|r.items| - 1].modelType == DoneType)
  {
    var h := DebtorStep(env, w, m);
    DebtorStepItems(env, w, m);
    RowStepCases(env, w, m);
    if h.Skip? {
      var r := h.w;
      assert r.items == w.items + [r.items[|w.items|]];
      RowLevelCountAppend(w.items, [r.items[|w.items|]]);
      assert |r.items[|r.items| - 1].modelType| == 14;
    } else {
      var r := FanOut(env, h.w, m, h.debtor, Trimmed(m, "iin"));
      FanOutFacts(env, h.w, m, h.debtor, Trimmed(m, "iin"));
      CountFanOut(w.items, r.items);
    }
  }

  /** Over the batch every row is counted once, as a success or as a failure:
      `success + failed == len(batch)`. */
  lemma {:induction false} RowsAddUp(env: Env, w: World, rows: seq<Row>)
    requires Keyed(env)
    ensures var r := Run(env, w, rows); r.success + r.failed == w.success + w.failed + |rows|
    decreases |rows|
  {
    if rows != [] {
      RowStepCounts(env, w, rows[0]);
      RowsAddUp(env, RowStep(env, w, rows[0]), rows[1..]);
    }
  }

  /** Without any fan-out repository a row touches only the debtors table and the log, and
      logs exactly one item. */
  lemma NoFanOutWithoutRepos(env: Env, w: World, m: Row)
    requires Keyed(env)
    requires env.repos.debts.None? && env.repos.addresses.None? && env.repos.phones.None? && env.repos.contacts.None?
    ensures var r := RowStep(env, w, m);
      r.debts == w.debts && r.addresses == w.addresses && r.phones == w.phones && r.contacts == w.contacts
      && |r.items| == |w.items| + 1
  {
  }

  // ---------------------------------------------------------------------------
  // The processor
  // ---------------------------------------------------------------------------

  /** `DebtorsProcessor` over its dependencies; a null repository is a nil one. The records
      a row is turned into are fixed at construction: `DebtorOf` and `DebtOf` over the given
      `parse` and `parseFloat`, which stand for `time.Parse` and `strconv.ParseFloat`. */
  class DebtorsProcessor {
    const pgAvailable: bool
    const mongo: Mongo?
    const ids: IdSource
    const debtorOf: (Row, string, int) -> DebtorsRepo.Debtor
    const debtOf: (Row, string, string, string) -> DebtsRepo.Debt
    const debtors: DebtorsRepo.DebtorsTable
    const debts: DebtsRepo.DebtsTable?
    const addresses: AddressesRepo.AddressesTable?
    const phones: PhonesRepo.PhonesTable?
    const contacts: ContactPhonesRepo.ContactTables?

    constructor (pgAvailable: bool, mongo: Mongo?, ids: IdSource, parse: (string, string) -> Option<DateTime>,
                 parseFloat: string -> Option<real>, debtors: DebtorsRepo.DebtorsTable, debts: DebtsRepo.DebtsTable?,
                 addresses: AddressesRepo.AddressesTable?, phones: PhonesRepo.PhonesTable?,
                 contacts: ContactPhonesRepo.ContactTables?)
      ensures this.pgAvailable == pgAvailable && this.mongo == mongo && this.ids == ids && this.debtors == debtors
      ensures this.debts == debts && this.addresses == addresses && this.phones == phones && this.contacts == contacts
      ensures forall m, iin, now :: debtorOf(m, iin, now) == DebtorOf(m, iin, now, parse)
      ensures forall m, id, debtorId, number :: debtOf(m, id, debtorId, number) == DebtOf(m, id, debtorId, number, parse, parseFloat)
      ensures Valid()
    {
      this.pgAvailable := pgAvailable;
      this.mongo := mongo;
      this.ids := ids;
      this.debtorOf := (m, iin, now) => DebtorOf(m, iin, now, parse);
      this.debtOf := (m, id, debtorId, number) => DebtOf(m, id, debtorId, number, parse, parseFloat);
      this.debtors := debtors;
      this.debts := debts;
      this.addresses := addresses;
      this.phones := phones;
      this.contacts := contacts;
    }

    /** The builders keep the key fields they are given. */
    ghost predicate Valid() {
      KeyedBuilders(debtorOf, debtOf)
    }

    function Environment(rec: string, now: int): Env {
      Env(Repos(debtors.faults,
                if debts == null then None else Some(debts.faults),
                if addresses == null then None else Some(addresses.faults),
                if phones == null then None else Some(phones.faults),
                if contacts == null then None else Some((contacts.faults, contacts.scan))),
          debtorOf, debtOf, rec, now)
    }

    /** The tables as they are now, with the items of the batch so far. */
    function Snap(items: seq<Item>, success: nat, failed: nat): World
      reads debtors, debts, addresses, phones, contacts, ids
    {
      World(debtors.rows, debtors.nextId,
        if debts == null then map[] else debts.rows,
        if addresses == null then AddressesRepo.Addresses([], 0) else addresses.State(),
        if phones == null then PhonesRepo.Phones([], 0) else phones.State(),
        if contacts == null then ContactPhonesRepo.Tables(map[], map[], 0) else contacts.State(),
        items, ids.next, success, failed)
    }

    /** `w` is the tables as they are now, with the items and the counters of the batch so far. */
    ghost predicate Mirrors(w: World)
      reads debtors, debts, addresses, phones, contacts, ids
    {
      w == Snap(w.items, w.success, w.failed)
    }

    /** Logs a failed item under a fresh uuid. */
    method Fail(rec: string, now: int, modelType: string, m: Row, err: string, ghost w: World, ghost items0: seq<Item>)
      returns (ghost w': World)
      requires Valid()
      requires Mirrors(w)
      requires mongo != null ==> mongo.items == items0 + Visible(mongo, w.items)
      modifies ids, mongo
      ensures w' == LogFailed(Environment(rec, now), w, modelType, m, err) && Mirrors(w')
      ensures mongo != null ==> mongo.items == items0 + Visible(mongo, w'.items) && mongo.records == old(mongo.records)
    {
      var id := ids.NewString();
      LogFail(mongo, rec, modelType, id, m, err, now);
      w' := LogFailed(Environment(rec, now), w, modelType, m, err);
      if mongo != null {
        VisibleConcat(mongo, w.items, [Failed(rec, modelType, id, m, err, now)]);
        AppendAssoc(items0, Visible(mongo, w.items), Visible(mongo, [Failed(rec, modelType, id, m, err, now)]));
      }
    }

    /** The IIN check and the debtor upsert of one row. */
    method DebtorPart(rec: string, now: int, m: Row, ghost w: World, ghost items0: seq<Item>)
      returns (debtor: Option<DebtorsRepo.Debtor>, ghost h: Head)
      requires Valid()
      requires Mirrors(w)
      requires mongo != null ==> mongo.items == items0 + Visible(mongo, w.items)
      modifies debtors, ids, mongo
      ensures h == DebtorStep(Environment(rec, now), w, m) && Mirrors(h.w)
      ensures mongo != null ==> mongo.items == items0 + Visible(mongo, h.w.items) && mongo.records == old(mongo.records)
      ensures debtor.Some? <==> h.Go?
      ensures h.Go? ==> debtor.value == h.debtor
    {
      var env := Environment(rec, now);
      h := DebtorStep(env, w, m);
      var iin := Trimmed(m, "iin");
      if iin == "" {
        ghost var w' := Fail(rec, now, ProcessorType, m, "missing iin", w, items0);
        return None, h;
      }
      var row := debtorOf(m, iin, now);
      var d, err := debtors.UpdateOrCreate(row, now);
      if err.Some? {
        ghost var w' := Fail(rec, now, ProcessorType, m, err.value, w, items0);
        return None, h;
      }
      TrimSpaceIdempotent(Field(m, "iin"));
      TrimSpaceEmpty(iin);
      DebtorsRepo.SaveFacts(w.debtors, env.repos.debtorFaults, row, RowUuidText(w.debtorNext), now);
      debtor := d;
    }

    /** The debt write of one row. */
    method DebtPart(rec: string, now: int, m: Row, debtorId: string, ghost w: World, ghost items0: seq<Item>)
      returns (ghost w': World)
      requires Valid()
      requires Mirrors(w)
      requires mongo != null ==> mongo.items == items0 + Visible(mongo, w.items)
      modifies debts, ids, mongo
      ensures w' == DebtStep(Environment(rec, now), w, m, debtorId) && Mirrors(w')
      ensures mongo != null ==> mongo.items == items0 + Visible(mongo, w'.items) && mongo.records == old(mongo.records)
    {
      var env := Environment(rec, now);
      w' := w;
      if debts == null {
        return;
      }
      var number := Trimmed(m, "debt_number");
      if number == "" {
        return;
      }
      var id := ids.NewString();
      var row := debtOf(m, id, debtorId, number);
      assert row.number == number;
      ghost var w1 := w.(next := w.next + 1);
      assert row == env.debtOf(m, UuidText(w.next), debtorId, number);
      assert env.repos.debts == Some(debts.faults);
      var err := debts.UpdateOrCreate(row, now);
      if err.Some? {
        assert number in debts.faults && err.value == debts.faults[number];
        assert DebtStep(env, w, m, debtorId) == LogFailed(env, w1, DebtsType, m, err.value);
        w' := Fail(rec, now, DebtsType, m, err.value, w1, items0);
      } else {
        assert DebtStep(env, w, m, debtorId) == w1.(debts := debts.rows);
        w' := w1.(debts := debts.rows);
      }
    }

    /** One address cell. */
    method AddressCell(rec: string, now: int, m: Row, debtorId: string, iin: string, key: (string, int), ghost w: World, ghost items0: seq<Item>)
      returns (ghost w': World)
      requires Valid() && addresses != null
      requires Mirrors(w)
      requires mongo != null ==> mongo.items == items0 + Visible(mongo, w.items)
      modifies addresses, ids, mongo
      ensures w' == AddressOne(Environment(rec, now), w, m, debtorId, iin, key) && Mirrors(w')
      ensures mongo != null ==> mongo.items == items0 + Visible(mongo, w'.items) && mongo.records == old(mongo.records)
    {
      w' := w;
      var addr := Trimmed(m, key.0);
      if addr != "" {
        var err := addresses.SaveAddress(AddressesRepo.Address(debtorId, iin, addr, Some(key.1)), now);
        if err.Some? {
          w' := Fail(rec, now, AddressesType, m, err.value, w.(addresses := addresses.State()), items0);
        } else {
          w' := w.(addresses := addresses.State());
        }
      }
    }

    /** The address cells of one row, in order. */
    method AddressPart(rec: string, now: int, m: Row, debtorId: string, iin: string, ghost w: World, ghost items0: seq<Item>)
      returns (ghost w': World)
      requires Valid()
      requires Mirrors(w)
      requires mongo != null ==> mongo.items == items0 + Visible(mongo, w.items)
      modifies addresses, ids, mongo
      ensures w' == AddressStep(Environment(rec, now), w, m, debtorId, iin) && Mirrors(w')
      ensures mongo != null ==> mongo.items == items0 + Visible(mongo, w'.items) && mongo.records == old(mongo.records)
    {
      var env := Environment(rec, now);
      w' := w;
      if addresses == null {
        return;
      }
      var k := 0;
      while k < |AddressKeys|
        invariant 0 <= k <= |AddressKeys|
        invariant w' == AddressFold(env, w, m, debtorId, iin, k) && Mirrors(w')
        invariant mongo != null ==> mongo.items == items0 + Visible(mongo, w'.items) && mongo.records == old(mongo.records)
      {
        w' := AddressCell(rec, now, m, debtorId, iin, AddressKeys[k], w', items0);
        k := k + 1;
      }
    }

    /** One phone cell. */
    method PhoneCell(rec: string, now: int, m: Row, debtorId: string, key: (string, int), ghost w: World, ghost items0: seq<Item>)
      returns (ghost w': World)
      requires Valid() && phones != null
      requires Mirrors(w)
      requires mongo != null ==> mongo.items == items0 + Visible(mongo, w.items)
      modifies phones, ids, mongo
      ensures w' == PhoneOne(Environment(rec, now), w, m, debtorId, key) && Mirrors(w')
      ensures mongo != null ==> mongo.items == items0 + Visible(mongo, w'.items) && mongo.records == old(mongo.records)
    {
      w' := w;
      var raw := Trimmed(m, key.0);
      if raw != "" {
        var err := phones.SavePhones(PhonesRepo.Phone(AddressesRepo.DebtorSubjectType, debtorId, raw, Some(key.1)), now);
        if err.Some? {
          w' := Fail(rec, now, PhonesType, m, err.value, w.(phones := phones.State()), items0);
        } else {
          w' := w.(phones := phones.State());
        }
      }
    }

    /** The phone cells of one row, in order. */
    method PhonePart(rec: string, now: int, m: Row, debtorId: string, ghost w: World, ghost items0: seq<Item>)
      returns (ghost w': World)
      requires Valid()
      requires Mirrors(w)
      requires mongo != null ==> mongo.items == items0 + Visible(mongo, w.items)
      modifies phones, ids, mongo
      ensures w' == PhoneStep(Environment(rec, now), w, m, debtorId) && Mirrors(w')
      ensures mongo != null ==> mongo.items == items0 + Visible(mongo, w'.items) && mongo.records == old(mongo.records)
    {
      var env := Environment(rec, now);
      w' := w;
      if phones == null {
        return;
      }
      var k := 0;
      while k < |PhoneKeys|
        invariant 0 <= k <= |PhoneKeys|
        invariant w' == PhoneFold(env, w, m, debtorId, k) && Mirrors(w')
        invariant mongo != null ==> mongo.items == items0 + Visible(mongo, w'.items) && mongo.records == old(mongo.records)
      {
        w' := PhoneCell(rec, now, m, debtorId, PhoneKeys[k], w', items0);
        k := k + 1;
      }
    }

    /** The contact-person phones of one row. */
    method ContactPart(rec: string, now: int, m: Row, debtorId: string, ghost w: World, ghost items0: seq<Item>)
      returns (ghost w': World)
      requires Valid()
      requires Mirrors(w)
      requires mongo != null ==> mongo.items == items0 + Visible(mongo, w.items)
      modifies contacts, ids, mongo
      ensures w' == ContactStep(Environment(rec, now), w, m, debtorId) && Mirrors(w')
      ensures mongo != null ==> mongo.items == items0 + Visible(mongo, w'.items) && mongo.records == old(mongo.records)
    {
      w' := w;
      if contacts == null {
        return;
      }
      var raw := Trimmed(m, "contact_person_phones");
      if raw == "" {
        return;
      }
      var err := contacts.SaveContactPersonPhones(ContactPhonesRepo.ContactRow(debtorId, "", raw), now);
      if err.Some? {
        w' := Fail(rec, now, ContactsType, m, err.value, w.(contacts := contacts.State()), items0);
      } else {
        w' := w.(contacts := contacts.State());
      }
    }

    /** The four fan-out writes of a row whose debtor was stored. */
    method WritesPart(rec: string, now: int, m: Row, debtorId: string, iin: string, ghost w: World, ghost items0: seq<Item>)
      returns (ghost w': World)
      requires Valid()
      requires Mirrors(w)
      requires mongo != null ==> mongo.items == items0 + Visible(mongo, w.items)
      modifies debts, addresses, phones, contacts, ids, mongo
      ensures w' == Writes(Environment(rec, now), w, m, debtorId, iin) && Mirrors(w')
      ensures mongo != null ==> mongo.items == items0 + Visible(mongo, w'.items) && mongo.records == old(mongo.records)
    {
      ghost var w2 := DebtPart(rec, now, m, debtorId, w, items0);
      ghost var w3 := AddressPart(rec, now, m, debtorId, iin, w2, items0);
      ghost var w4 := PhonePart(rec, now, m, debtorId, w3, items0);
      w' := ContactPart(rec, now, m, debtorId, w4, items0);
    }

    /** The fan-out of a row whose debtor was stored, and its done item. */
    method FanOutPart(rec: string, now: int, m: Row, d: DebtorsRepo.Debtor, iin: string, ghost w: World, ghost items0: seq<Item>)
      returns (ghost w': World)
      requires Valid()
      requires Mirrors(w)
      requires mongo != null ==> mongo.items == items0 + Visible(mongo, w.items)
      modifies debts, addresses, phones, contacts, ids, mongo
      ensures w' == FanOut(Environment(rec, now), w, m, d, iin) && Mirrors(w')
      ensures mongo != null ==> mongo.items == items0 + Visible(mongo, w'.items) && mongo.records == old(mongo.records)
    {
      ghost var w5 := WritesPart(rec, now, m, d.id, iin, w, items0);
      var item := Item(rec, DoneType, d.id, m, StatusDone, "", 0, 0);
      var _ := InsertItem(mongo, item, now);
      assert Stamped(item, now) == Done(rec, DoneType, d.id, m, "", now);
      w' := w5.(items := w5.items + [Done(rec, DoneType, d.id, m, "", now)]);
      if mongo != null {
        VisibleConcat(mongo, w5.items, [Done(rec, DoneType, d.id, m, "", now)]);
        AppendAssoc(items0, Visible(mongo, w5.items), Visible(mongo, [Done(rec, DoneType, d.id, m, "", now)]));
      }
    }

    /** One row: the debtor, then its fan-out; `stored` tells which counter the row moves. */
    method NextRow(rec: string, now: int, m: Row, ghost w: World, ghost items0: seq<Item>)
      returns (stored: bool, ghost w': World)
      requires Valid()
      requires Mirrors(w)
      requires mongo != null ==> mongo.items == items0 + Visible(mongo, w.items)
      modifies debtors, debts, addresses, phones, contacts, ids, mongo
      ensures w' == RowStep(Environment(rec, now), w, m) && Mirrors(w')
      ensures w'.success == w.success + (if stored then 1 else 0) && w'.failed == w.failed + (if stored then 0 else 1)
      ensures mongo != null ==> mongo.items == items0 + Visible(mongo, w'.items) && mongo.records == old(mongo.records)
    {
      RowStepCases(Environment(rec, now), w, m);
      DebtorStepItems(Environment(rec, now), w, m);
      var debtor;
      ghost var h;
      debtor, h := DebtorPart(rec, now, m, w, items0);
      if debtor.None? {
        return false, h.w;
      }
      FanOutFacts(Environment(rec, now), h.w, m, debtor.value, Trimmed(m, "iin"));
      w' := FanOutPart(rec, now, m, debtor.value, Trimmed(m, "iin"), h.w, items0);
      stored := true;
    }

    /** The loop over the batch, with its two counters. */
    method RunRows(rec: string, now: int, batch: seq<Row>) returns (success: nat, failed: nat, ghost w: World)
      requires Valid()
      modifies debtors, debts, addresses, phones, contacts, ids, mongo
      ensures w == Run(Environment(rec, now), old(Snap([], 0, 0)), batch) && Mirrors(w)
      ensures success == w.success && failed == w.failed && success + failed == |batch|
      ensures mongo != null ==> mongo.items == old(mongo.items) + Visible(mongo, w.items) && mongo.records == old(mongo.records)
    {
      ghost var items0 := if mongo != null then mongo.items else [];
      ghost var w0 := Snap([], 0, 0);
      w := w0;
      success, failed := 0, 0;
      var i := 0;
      assert batch[i..] == batch;
      while i < |batch|
        invariant 0 <= i <= |batch|
        invariant Run(Environment(rec, now), w, batch[i..]) == Run(Environment(rec, now), w0, batch) && Mirrors(w)
        invariant success == w.success && failed == w.failed && success + failed == i
        invariant mongo != null ==> mongo.items == items0 + Visible(mongo, w.items) && mongo.records == old(mongo.records)
      {
        assert batch[i..][0] == batch[i] && batch[i..][1..] == batch[i + 1..];
        var stored;
        stored, w := NextRow(rec, now, batch[i], w, items0);
        if stored {
          success := success + 1;
        } else {
          failed := failed + 1;
        }
        i := i + 1;
      }
    }

    /** `ProcessBatch`: after the dependency check every row is processed and the import
        record is set to done, whatever the rows gave. */
    method ProcessBatch(ctxValue: Option<string>, batch: seq<Row>, now: int) returns (err: Option<string>)
      requires Valid()
      modifies debtors, debts, addresses, phones, contacts, ids, mongo
      ensures var deps := CheckDeps(pgAvailable, mongo);
        deps.Some? ==>
          (err == deps && Snap([], 0, 0) == old(Snap([], 0, 0))
           && (mongo != null ==> mongo.items == old(mongo.items) && mongo.records == old(mongo.records)))
      ensures var deps := CheckDeps(pgAvailable, mongo);
        var rec := RecordIdOf(ctxValue);
        var w := Run(Environment(rec, now), old(Snap([], 0, 0)), batch);
        deps.None? ==>
          (err.None? && mongo != null && Mirrors(w)
           && mongo.items == old(mongo.items) + Visible(mongo, w.items)
           && mongo.records == (var u := StatusUpdate(true, mongo.updateFaults, old(mongo.records), rec, StatusDone, now);
                                if u.Ok? then u.value else old(mongo.records)))
    {
      var deps := CheckDeps(pgAvailable, mongo);
      if deps.Some? {
        return deps;
      }
      var rec := RecordIdOf(ctxValue);
      var success, failed;
      ghost var w;
      success, failed, w := RunRows(rec, now, batch);
      var _ := UpdateImportRecordStatusDone(mongo, rec, now);
      err := None;
    }
  }
}
