/** `ContactPersonPhonesRepo`: a cell of "phone,full name,type" entries separated by "|";
    each entry upserts a contact person of the debtor and then that person's phone. */
module ContactPhonesRepo {
  import opened Wrappers
  import opened Text
  import opened Ports
  import PhonesRepo

  /** The `subject_type` of a contact person's phone rows. */
  const ContactPersonSubjectType := "App\\Infrastructure\\Persistence\\Models\\ContactPerson"

  /** `ContactPersonPhoneRow`. */
  datatype ContactRow = ContactRow(debtorId: string, iin: string, value: string)

  /** One usable entry of the cell. */
  datatype Entry = Entry(phone: string, fullName: string, typeId: int)

  /** A contact person row: its id and type. The key is (debtor_id, full_name). */
  datatype Person = Person(id: string, typeId: int, updatedAt: int)

  /** The two tables, keyed by their conflict targets, and the counter behind
      `gen_random_uuid()`. */
  datatype Tables = Tables(
    persons: map<(string, string), Person>,
    phones: map<(string, string, string), (int, int)>,
    nextId: nat)

  /** The statements that can fail: a person upsert keyed by (debtor id, full name), a
      phone upsert keyed by phone. */
  datatype Faults = Faults(person: map<(string, string), string>, phone: map<string, string>)

  /** The type of an entry: 1 unless a third field is present, non-blank and scans as an
      integer (`scan` stands for `fmt.Sscanf(t, "%d", &typeID)`). */
  function TypeOf(parts: seq<string>, scan: string -> Option<int>): (r: int)
    ensures |parts| < 3 || IsBlank(parts[2]) ==> r == 1
  {
    TrimSpaceEmpty(if |parts| >= 3 then parts[2] else "");
    if |parts| >= 3 && TrimSpace(parts[2]) != "" && scan(TrimSpace(parts[2])).Some?
    then scan(TrimSpace(parts[2])).value
    else 1
  }

  /** One "|"-separated entry: skipped when blank or when its first field has no digit. */
  function ParseEntry(entry0: string, scan: string -> Option<int>): (r: Option<Entry>)
    ensures r.Some? ==> r.value.phone != "" && r.value.phone == Digits(Split(TrimSpace(entry0), ',')[0])
  {
    var entry := TrimSpace(entry0);
    if entry == "" then None
    else
      var parts := Split(entry, ',');
      var phone := PhonesRepo.SanitizePhone(parts[0]);
      if phone == "" then None
      else Some(Entry(phone, if |parts| >= 2 then TrimSpace(parts[1]) else "", TypeOf(parts, scan)))
  }

  /** The usable entries, in order. */
  function Entries(pieces: seq<string>, scan: string -> Option<int>): seq<Entry> {
    if pieces == [] then [] else Usable(pieces[0], scan) + Entries(pieces[1..], scan)
  }

  /** What one piece contributes to `Entries`. */
  function Usable(piece: string, scan: string -> Option<int>): seq<Entry> {
    match ParseEntry(piece, scan)
    case Some(e) => [e]
    case None => []
  }

  /** The person upsert: an existing (debtor, name) keeps its id and takes the new type;
      a new one gets a fresh id. */
  function WithPerson(st: Tables, debtorId: string, e: Entry, now: int): Tables {
    var key := (debtorId, e.fullName);
    if key in st.persons then st.(persons := st.persons[key := st.persons[key].(typeId := e.typeId, updatedAt := now)])
    else Tables(st.persons[key := Person(RowUuidText(st.nextId), e.typeId, now)], st.phones, st.nextId + 1)
  }

  /** The phone upsert under the person's id (created now or updated now). */
  function WithPhone(st: Tables, personId: string, e: Entry, now: int): Tables {
    st.(phones := st.phones[(ContactPersonSubjectType, personId, e.phone) := (e.typeId, now)])
  }

  /** One entry: the person first, then its phone; a failed phone upsert leaves the person
      written. */
  function SaveEntry(st: Tables, f: Faults, debtorId: string, e: Entry, now: int): (Option<string>, Tables) {
    var key := (debtorId, e.fullName);
    if key in f.person then (Some("upsert contact person failed: " + f.person[key]), st)
    else
      var st1 := WithPerson(st, debtorId, e, now);
      if e.phone in f.phone then (Some("upsert phone failed: " + f.phone[e.phone]), st1)
      else (None, WithPhone(st1, st1.persons[key].id, e, now))
  }

  /** The entries in order, stopping at the first error. */
  function SaveEntries(st: Tables, f: Faults, debtorId: string, es: seq<Entry>, now: int): (Option<string>, Tables)
    decreases |es|
  {
    if es == [] then (None, st)
    else
      var (err, st1) := SaveEntry(st, f, debtorId, es[0], now);
      if err.Some? then (err, st1) else SaveEntries(st1, f, debtorId, es[1..], now)
  }

  /** `SaveContactPersonPhones` as a function of the tables. */
  function Save(st: Tables, f: Faults, row: ContactRow, scan: string -> Option<int>, now: int): (Option<string>, Tables) {
    if TrimSpace(row.value) == "" || row.debtorId == "" then (None, st)
    else SaveEntries(st, f, row.debtorId, Entries(Split(row.value, '|'), scan), now)
  }

  /** A blank cell or a missing debtor id writes nothing. */
  lemma SaveSkips(st: Tables, f: Faults, row: ContactRow, scan: string -> Option<int>, now: int)
    requires IsBlank(row.value) || row.debtorId == ""
    ensures Save(st, f, row, scan, now) == (None, st)
  {
    TrimSpaceEmpty(row.value);
  }

  /** A successful entry leaves its person under (debtor, name) with the entry's type, and
      the phone under that person's id with the same type; nothing else is removed. */
  lemma SaveEntryStores(st: Tables, f: Faults, debtorId: string, e: Entry, now: int)
    requires SaveEntry(st, f, debtorId, e, now).0.None?
    ensures var t := SaveEntry(st, f, debtorId, e, now).1;
      var key := (debtorId, e.fullName);
      key in t.persons && t.persons[key].typeId == e.typeId
      && (key in st.persons ==> t.persons[key].id == st.persons[key].id)
      && (ContactPersonSubjectType, t.persons[key].id, e.phone) in t.phones
      && t.phones[(ContactPersonSubjectType, t.persons[key].id, e.phone)].0 == e.typeId
      && st.persons.Keys <= t.persons.Keys && st.phones.Keys <= t.phones.Keys
  {
  }

  /** An entry fails with the message of the statement that failed: the person's first. */
  lemma SaveEntryErrors(st: Tables, f: Faults, debtorId: string, e: Entry, now: int)
    ensures (debtorId, e.fullName) in f.person ==>
      SaveEntry(st, f, debtorId, e, now) == (Some("upsert contact person failed: " + f.person[(debtorId, e.fullName)]), st)
    ensures (debtorId, e.fullName) !in f.person && e.phone in f.phone ==>
      SaveEntry(st, f, debtorId, e, now) == (Some("upsert phone failed: " + f.phone[e.phone]), WithPerson(st, debtorId, e, now))
  {
  }

  /** Entries never lose a row: every person and phone key present before is present after. */
  lemma {:induction false} SaveEntriesKeepsKeys(st: Tables, f: Faults, debtorId: string, es: seq<Entry>, now: int)
    ensures var t := SaveEntries(st, f, debtorId, es, now).1;
      st.persons.Keys <= t.persons.Keys && st.phones.Keys <= t.phones.Keys && st.nextId <= t.nextId
    decreases |es|
  {
    if es != [] {
      var (err, st1) := SaveEntry(st, f, debtorId, es[0], now);
      if err.None? {
        SaveEntriesKeepsKeys(st1, f, debtorId, es[1..], now);
      }
    }
  }

  /** A cell entry "phone,name,type" with a usable phone and a blank or missing type field
      is saved with type 1 and the digits of its phone field. */
  lemma ParseEntryDefaults(entry: string, scan: string -> Option<int>)
    requires ParseEntry(entry, scan).Some?
    requires |Split(TrimSpace(entry), ',')| < 3 || IsBlank(Split(TrimSpace(entry), ',')[2])
    ensures ParseEntry(entry, scan).value.typeId == 1
  {
  }

  /** The type a usable entry is saved with: what the integer scan reads from the trimmed
      third field when that field is present, non-blank and scans, and 1 in every other case. */
  lemma ParseEntryType(entry: string, scan: string -> Option<int>)
    requires ParseEntry(entry, scan).Some?
    ensures var parts := Split(TrimSpace(entry), ',');
      var t := if |parts| >= 3 then TrimSpace(parts[2]) else "";
      ParseEntry(entry, scan).value.typeId == (if t != "" && scan(t).Some? then scan(t).value else 1)
  {
  }

  /** The two tables `SaveContactPersonPhones` writes. */
  class ContactTables {
    const faults: Faults
    const scan: string -> Option<int>
    var persons: map<(string, string), Person>
    var phones: map<(string, string, string), (int, int)>
    var nextId: nat

    constructor (faults: Faults, scan: string -> Option<int>, st: Tables)
      ensures this.faults == faults && this.scan == scan && State() == st
    {
      this.faults := faults;
      this.scan := scan;
      persons := st.persons;
      phones := st.phones;
      nextId := st.nextId;
    }

    function State(): Tables
      reads this
    {
      Tables(persons, phones, nextId)
    }

    /** `upsertContactPerson`: the id handed back by RETURNING. */
    method UpsertContactPerson(debtorId: string, e: Entry, now: int) returns (id: string, err: Option<string>)
      modifies this
      ensures (debtorId, e.fullName) in faults.person ==> err == Some(faults.person[(debtorId, e.fullName)]) && State() == old(State())
      ensures (debtorId, e.fullName) !in faults.person ==>
        err.None? && State() == WithPerson(old(State()), debtorId, e, now) && id == persons[(debtorId, e.fullName)].id
    {
      var key := (debtorId, e.fullName);
      if key in faults.person {
        return "", Some(faults.person[key]);
      }
      if key in persons {
        persons := persons[key := persons[key].(typeId := e.typeId, updatedAt := now)];
      } else {
        persons := persons[key := Person(RowUuidText(nextId), e.typeId, now)];
        nextId := nextId + 1;
      }
      id, err := persons[key].id, None;
    }

    /** `upsertPhone`. */
    method UpsertPhone(subjectId: string, e: Entry, now: int) returns (err: Option<string>)
      modifies this
      ensures e.phone in faults.phone ==> err == Some(faults.phone[e.phone]) && State() == old(State())
      ensures e.phone !in faults.phone ==> err.None? && State() == WithPhone(old(State()), subjectId, e, now)
    {
      if e.phone in faults.phone {
        return Some(faults.phone[e.phone]);
      }
      phones := phones[(ContactPersonSubjectType, subjectId, e.phone) := (e.typeId, now)];
      err := None;
    }

    /** The body of the loop for one usable entry. */
    method SaveOne(debtorId: string, e: Entry, now: int) returns (err: Option<string>)
      modifies this
      ensures (err, State()) == SaveEntry(old(State()), faults, debtorId, e, now)
    {
      var contactPersonId;
      contactPersonId, err := UpsertContactPerson(debtorId, e, now);
      if err.Some? {
        return Some("upsert contact person failed: " + err.value);
      }
      err := UpsertPhone(contactPersonId, e, now);
      if err.Some? {
        return Some("upsert phone failed: " + err.value);
      }
    }

    /** `SaveContactPersonPhones`. */
    method SaveContactPersonPhones(row: ContactRow, now: int) returns (err: Option<string>)
      modifies this
      ensures (err, State()) == Save(old(State()), faults, row, scan, now)
    {
      if TrimSpace(row.value) == "" || row.debtorId == "" {
        return None;
      }
      var entries := Split(row.value, '|');
      ghost var target := SaveEntries(State(), faults, row.debtorId, Entries(entries, scan), now);
      var i := 0;
      assert entries[i..] == entries;
      while i < |entries|
        invariant 0 <= i <= |entries|
        invariant target == SaveEntries(State(), faults, row.debtorId, Entries(entries[i..], scan), now)
      {
        assert entries[i..][0] == entries[i] && entries[i..][1..] == entries[i + 1..];
        var parsed := ParseEntry(entries[i], scan);
        assert Entries(entries[i..], scan) == Usable(entries[i], scan) + Entries(entries[i + 1..], scan);
        if parsed.None? {
          assert Usable(entries[i], scan) == [];
          assert Entries(entries[i..], scan) == Entries(entries[i + 1..], scan);
          i := i + 1;
          continue;
        }
        var e := parsed.value;
        assert Entries(entries[i..], scan) == [e] + Entries(entries[i + 1..], scan);
        SaveEntriesCons(State(), faults, row.debtorId, e, Entries(entries[i + 1..], scan), now);
        err := SaveOne(row.debtorId, e, now);
        if err.Some? {
          return;
        }
        i := i + 1;
      }
      err := None;
    }
  }

  /** One step of `SaveEntries`. */
  lemma SaveEntriesCons(st: Tables, f: Faults, debtorId: string, e: Entry, rest: seq<Entry>, now: int)
    ensures SaveEntries(st, f, debtorId, [e] + rest, now)
      == var (err, st1) := SaveEntry(st, f, debtorId, e, now);
         if err.Some? then (err, st1) else SaveEntries(st1, f, debtorId, rest, now)
  {
    assert ([e] + rest)[0] == e && ([e] + rest)[1..] == rest;
  }
}
