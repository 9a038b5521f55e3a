/** `PhoneRepo`: a raw phones cell is split on runs of "/", "|" and ",", every piece is
    reduced to its digits, and each non-empty result is inserted as a phone row. */
module PhonesRepo {
  import opened Wrappers
  import opened Text
  import opened Ports

  /** `models.Phone` (its ID and CreatedAt are not sent). */
  datatype Phone = Phone(subjectType: string, subjectId: string, phonesRaw: string, typeId: Option<int>)

  /** A row of the `phones` table. */
  datatype PhoneRow = PhoneRow(id: string, subjectType: string, subjectId: string, phone: string,
                               typeId: Option<int>, createdAt: int)

  /** The table and the counter behind `gen_random_uuid()`. */
  datatype Phones = Phones(rows: seq<PhoneRow>, nextId: nat)

  /** What the server answers to the INSERT as the repository writes it: the column list
      and the VALUES list both end in ", )". */
  const InsertSyntaxError := "ERROR: syntax error at or near \")\" (SQLSTATE 42601)"

  /** The characters of the class `[\/|,]`. */
  predicate IsPhoneSep(c: char) {
    c == '/' || c == '|' || c == ','
  }

  /** `s` without its leading separators. */
  function DropSeps(s: string): (r: string)
    ensures |r| <= |s|
    ensures s != [] && IsPhoneSep(s[0]) ==> |r| < |s|
  {
    if s != [] && IsPhoneSep(s[0]) then DropSeps(s[1..]) else s
  }

  /** What `DropSeps` removes is a run of separators at the front, and what it keeps is a
      suffix that does not start with one. */
  lemma {:induction false} DropSepsFacts(s: string)
    ensures var r := DropSeps(s);
      r == s[|s| - |r|..] && (r != [] ==> !IsPhoneSep(r[0])) &&
      forall i :: 0 <= i < |s| - |r| ==> IsPhoneSep(s[i])
  {
    if s != [] && IsPhoneSep(s[0]) {
      DropSepsFacts(s[1..]);
      var r := DropSeps(s[1..]);
      assert DropSeps(s) == r;
      assert forall i :: 1 <= i < |s| - |r| ==> s[i] == s[1..][i - 1];
      assert s[1..][|s[1..]| - |r|..] == s[|s| - |r|..];
    }
  }

  /** `regexp.MustCompile("[\\/|,]+").Split(s, -1)`: the pieces between maximal runs of
      separators, empty ones included (a leading or trailing run gives an empty piece). */
  function SplitRuns(s: string): (r: seq<string>)
    ensures |r| >= 1
    decreases |s|
  {
    var w := Word(s, IsPhoneSep);
    if |w| == |s| then [w] else [w] + SplitRuns(DropSeps(s[|w|..]))
  }

  /** `sanitizePhone`: the digits of the trimmed input. */
  function SanitizePhone(input: string): (r: string)
    ensures r == Digits(input)
  {
    DigitsTrimSpace(input);
    Digits(TrimSpace(input))
  }

  /** The phones the loop inserts, in order: every piece sanitized, empty results skipped. */
  function Surviving(pieces: seq<string>): seq<string> {
    if pieces == [] then [] else Kept(pieces[0]) + Surviving(pieces[1..])
  }

  /** The phone a piece contributes: none when sanitizing leaves nothing. */
  function Kept(piece: string): seq<string> {
    var phone := SanitizePhone(piece);
    if phone == "" then [] else [phone]
  }

  /** Concatenating a sequence of strings. */
  function Concat(xs: seq<string>): string {
    if xs == [] then "" else xs[0] + Concat(xs[1..])
  }

  lemma {:induction false} ConcatAppend(a: seq<string>, b: seq<string>)
    ensures Concat(a + b) == Concat(a) + Concat(b)
  {
    if a != [] {
      assert (a + b)[1..] == a[1..] + b;
      ConcatAppend(a[1..], b);
    } else {
      assert a + b == b;
    }
  }

  /** The phones of a raw value, once it is known to be worth splitting. */
  function PhonesOf(raw: string): seq<string> {
    Surviving(SplitRuns(TrimSpace(raw)))
  }

  /** Splitting loses no digit: the phones, glued together, are exactly the digits of the
      raw value, in order, and each of them is a non-empty run of digits. */
  lemma PhonesKeepDigits(raw: string)
    ensures Concat(PhonesOf(raw)) == Digits(raw)
    ensures forall k :: 0 <= k < |PhonesOf(raw)| ==>
      (PhonesOf(raw)[k] != "" && forall i :: 0 <= i < |PhonesOf(raw)[k]| ==> IsDigit(PhonesOf(raw)[k][i]))
  {
    SurvivingDigits(TrimSpace(raw));
    DigitsTrimSpace(raw);
    SurvivingAreDigits(SplitRuns(TrimSpace(raw)));
  }

  lemma {:induction false} SurvivingAreDigits(pieces: seq<string>)
    ensures forall k :: 0 <= k < |Surviving(pieces)| ==>
      (Surviving(pieces)[k] != "" && forall i :: 0 <= i < |Surviving(pieces)[k]| ==> IsDigit(Surviving(pieces)[k][i]))
  {
    if pieces != [] {
      SurvivingAreDigits(pieces[1..]);
      var h := Kept(pieces[0]);
      var t := Surviving(pieces[1..]);
      assert Surviving(pieces) == h + t;
      forall k | 0 <= k < |h + t|
        ensures (h + t)[k] != "" && forall i :: 0 <= i < |(h + t)[k]| ==> IsDigit((h + t)[k][i])
      {
        if k >= |h| {
          assert (h + t)[k] == t[k - |h|];
        }
      }
    }
  }

  lemma {:induction false} ConcatSurviving(pieces: seq<string>)
    ensures Concat(Surviving(pieces)) == if pieces == [] then "" else Digits(pieces[0]) + Concat(Surviving(pieces[1..]))
  {
    if pieces != [] {
      var h := Kept(pieces[0]);
      ConcatAppend(h, Surviving(pieces[1..]));
      if h != [] {
        assert Concat(h) == h[0] + Concat(h[1..]);
        assert h[1..] == [];
      }
    }
  }

  lemma {:induction false} SurvivingDigits(s: string)
    ensures Concat(Surviving(SplitRuns(s))) == Digits(s)
    decreases |s|
  {
    var w := Word(s, IsPhoneSep);
    if |w| == |s| {
      assert w == s;
      ConcatSurvivingCons(w, []);
    } else {
      var rest := s[|w|..];
      assert s == w + rest;
      var d := DropSeps(rest);
      var tail := SplitRuns(d);
      assert SplitRuns(s) == [w] + tail;
      ConcatSurvivingCons(w, tail);
      SurvivingDigits(d);
      DigitsDropSeps(rest);
      DigitsConcat(w, rest);
    }
  }

  /** Separators carry no digits. */
  lemma {:induction false} DigitsDropSeps(s: string)
    ensures Digits(DropSeps(s)) == Digits(s)
  {
    if s != [] && IsPhoneSep(s[0]) {
      DigitsDropSeps(s[1..]);
    }
  }

  lemma ConcatSurvivingCons(w: string, tail: seq<string>)
    ensures Concat(Surviving([w] + tail)) == Digits(w) + Concat(Surviving(tail))
  {
    ConcatSurviving([w] + tail);
    assert ([w] + tail)[0] == w && ([w] + tail)[1..] == tail;
  }

  /** The early return: after trimming, a blank raw value or subject type, or an empty
      subject id, means nothing is written. */
  predicate Skipped(p: Phone) {
    TrimSpace(p.phonesRaw) == "" || TrimSpace(p.subjectType) == "" || p.subjectId == ""
  }

  /** The row inserted for one phone. */
  function RowFor(st: Phones, p: Phone, phone: string, now: int): PhoneRow {
    PhoneRow(RowUuidText(st.nextId), TrimSpace(p.subjectType), p.subjectId, phone, p.typeId, now)
  }

  /** The inserts of `phones` in order, stopping at the first that fails (`faults` keyed by phone). */
  function InsertAll(st: Phones, faults: map<string, string>, p: Phone, phones: seq<string>, now: int)
    : (Option<string>, Phones)
    decreases |phones|
  {
    if phones == [] then (None, st)
    else if phones[0] in faults then (Some(faults[phones[0]]), st)
    else InsertAll(Phones(st.rows + [RowFor(st, p, phones[0], now)], st.nextId + 1), faults, p, phones[1..], now)
  }

  /** One step of `InsertAll`. */
  lemma InsertAllCons(st: Phones, faults: map<string, string>, p: Phone, phone: string, rest: seq<string>, now: int)
    ensures InsertAll(st, faults, p, [phone] + rest, now)
      == if phone in faults then (Some(faults[phone]), st)
         else InsertAll(Phones(st.rows + [RowFor(st, p, phone, now)], st.nextId + 1), faults, p, rest, now)
  {
    assert ([phone] + rest)[0] == phone && ([phone] + rest)[1..] == rest;
  }

  /** `SavePhones` with a well-formed INSERT. */
  function Save(st: Phones, faults: map<string, string>, p: Phone, now: int): (Option<string>, Phones) {
    if Skipped(p) then (None, st) else InsertAll(st, faults, p, PhonesOf(p.phonesRaw), now)
  }

  /** `SavePhones` as written: every INSERT is rejected by the parser, so the first phone
      ends the call with that error and nothing is stored. */
  function SaveAsWritten(st: Phones, p: Phone): (Option<string>, Phones) {
    if Skipped(p) || PhonesOf(p.phonesRaw) == [] then (None, st) else (Some(InsertSyntaxError), st)
  }

  /** As written, no phone is ever stored, and every value holding a digit is an error. */
  lemma AsWrittenStoresNothing(st: Phones, p: Phone)
    ensures SaveAsWritten(st, p).1 == st
    ensures !Skipped(p) && Digits(p.phonesRaw) != "" ==> SaveAsWritten(st, p).0 == Some(InsertSyntaxError)
  {
    PhonesKeepDigits(p.phonesRaw);
  }

  /** A concrete debtor phone the written code fails to save. */
  lemma AsWrittenExample(st: Phones)
    ensures SaveAsWritten(st, Phone("Debtor", "d-1", "7", Some(1))).0 == Some(InsertSyntaxError)
  {
    var p := Phone("Debtor", "d-1", "7", Some(1));
    TrimSpaceEmpty("Debtor");
    TrimSpaceEmpty("7");
    assert !IsSpace("Debtor"[0]) && !IsSpace("7"[0]);
    assert Digits("7"[1..]) == "";
    AsWrittenStoresNothing(st, p);
  }

  /** With a well-formed INSERT, a save without faults stores one row per phone, in order,
      each under the given subject; the phones carry all the digits of the raw value. */
  lemma {:induction false} InsertAllStores(st: Phones, faults: map<string, string>, p: Phone, phones: seq<string>, now: int)
    requires forall k :: 0 <= k < |phones| ==> phones[k] !in faults
    ensures var r := InsertAll(st, faults, p, phones, now);
      r.0.None? && r.1.nextId == st.nextId + |phones| && |r.1.rows| == |st.rows| + |phones|
      && r.1.rows[..|st.rows|] == st.rows
      && forall k :: 0 <= k < |phones| ==> r.1.rows[|st.rows| + k] == RowFor(Phones(st.rows, st.nextId + k), p, phones[k], now)
    decreases |phones|
  {
    if phones != [] {
      var st1 := Phones(st.rows + [RowFor(st, p, phones[0], now)], st.nextId + 1);
      InsertAllStores(st1, faults, p, phones[1..], now);
      var r := InsertAll(st1, faults, p, phones[1..], now);
      assert InsertAll(st, faults, p, phones, now) == r;
      assert r.1.rows[..|st1.rows|] == st1.rows;
      assert r.1.rows[..|st.rows|] == st1.rows[..|st.rows|];
      forall k | 0 <= k < |phones|
        ensures r.1.rows[|st.rows| + k] == RowFor(Phones(st.rows, st.nextId + k), p, phones[k], now)
      {
        if k > 0 {
          assert r.1.rows[|st1.rows| + (k - 1)] == RowFor(Phones(st1.rows, st1.nextId + (k - 1)), p, phones[1..][k - 1], now);
        } else {
          assert r.1.rows[|st.rows|] == st1.rows[|st.rows|];
        }
      }
    }
  }

  /** The `phones` table as `SavePhones` writes it; `faults` holds the error the insert of
      a phone fails with. */
  class PhonesTable {
    const faults: map<string, string>
    var rows: seq<PhoneRow>
    var nextId: nat

    constructor (faults: map<string, string>, rows: seq<PhoneRow>, nextId: nat)
      ensures this.faults == faults && this.rows == rows && this.nextId == nextId
    {
      this.faults := faults;
      this.rows := rows;
      this.nextId := nextId;
    }

    function State(): Phones
      reads this
    {
      Phones(rows, nextId)
    }

    /** `SavePhones` with a well-formed INSERT: one insert per surviving phone, stopping at
        the first error. */
    method SavePhones(p: Phone, now: int) returns (err: Option<string>)
      modifies this
      ensures (err, State()) == Save(old(State()), faults, p, now)
    {
      var raw := TrimSpace(p.phonesRaw);
      var subjectType := TrimSpace(p.subjectType);
      if raw == "" || subjectType == "" || p.subjectId == "" {
        return None;
      }
      var pieces := SplitRuns(raw);
      ghost var target := InsertAll(State(), faults, p, Surviving(pieces), now);
      assert target == Save(old(State()), faults, p, now);
      var i := 0;
      assert pieces[i..] == pieces;
      while i < |pieces|
        invariant 0 <= i <= |pieces|
        invariant target == InsertAll(State(), faults, p, Surviving(pieces[i..]), now)
      {
        assert pieces[i..][0] == pieces[i] && pieces[i..][1..] == pieces[i + 1..];
        assert Surviving(pieces[i..]) == Kept(pieces[i]) + Surviving(pieces[i + 1..]);
        var phone := SanitizePhone(pieces[i]);
        if phone == "" {
          assert Kept(pieces[i]) == [];
          assert Kept(pieces[i]) + Surviving(pieces[i + 1..]) == Surviving(pieces[i + 1..]);
          i := i + 1;
          continue;
        }
        ghost var st := State();
        ghost var rest := Surviving(pieces[i + 1..]);
        assert Kept(pieces[i]) == [phone];
        InsertAllCons(st, faults, p, phone, rest, now);
        if phone in faults {
          return Some(faults[phone]);
        }
        rows := rows + [PhoneRow(RowUuidText(nextId), subjectType, p.subjectId, phone, p.typeId, now)];
        nextId := nextId + 1;
        assert State() == Phones(st.rows + [RowFor(st, p, phone, now)], st.nextId + 1);
        assert target == InsertAll(State(), faults, p, rest, now);
        i := i + 1;
      }
      assert pieces[i..] == [];
      assert target == (None, State());
      err := None;
    }

    /** `SavePhones` as written: the first phone's INSERT fails to parse. */
    method SavePhonesAsWritten(p: Phone) returns (err: Option<string>)
      ensures (err, State()) == SaveAsWritten(State(), p)
    {
      var raw := TrimSpace(p.phonesRaw);
      var subjectType := TrimSpace(p.subjectType);
      if raw == "" || subjectType == "" || p.subjectId == "" {
        return None;
      }
      var pieces := SplitRuns(raw);
      ghost var phones := Surviving(pieces);
      assert phones == PhonesOf(p.phonesRaw);
      var i := 0;
      assert pieces[i..] == pieces;
      while i < |pieces|
        invariant 0 <= i <= |pieces|
        invariant phones == Surviving(pieces[i..])
      {
        assert pieces[i..][0] == pieces[i] && pieces[i..][1..] == pieces[i + 1..];
        var phone := SanitizePhone(pieces[i]);
        if phone == "" {
          i := i + 1;
          continue;
        }
        return Some(InsertSyntaxError);
      }
      err := None;
    }
  }
}
