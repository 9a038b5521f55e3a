/** The shapes every processor shares: a spreadsheet row as a header-to-cell map,
    and a source of fresh row ids standing in for `uuid.NewString`. */
module Ports {
  import opened Text

  /** One data row: trimmed header name to trimmed cell text. */
  type Row = map<string, string>

  /** Go's `m[k]` on a `map[string]string`: a missing key reads as "". */
  function Field(m: Row, k: string): (v: string)
    ensures k in m ==> v == m[k]
    ensures k !in m ==> v == ""
  {
    if k in m then m[k] else ""
  }

  /** The text of the `n`-th id handed out; the algorithm generating UUIDs is not modelled,
      only that two ids drawn at different times differ. */
  function UuidText(n: nat): string {
    "uuid-" + NatToString(n)
  }

  /** Ids drawn at different times are different. */
  lemma UuidTextInjective(a: nat, b: nat)
    requires a != b
    ensures UuidText(a) != UuidText(b)
  {
    if UuidText(a) == UuidText(b) {
      assert NatToString(a) == UuidText(a)[5..];
      assert NatToString(b) == UuidText(b)[5..];
      NatToStringInjective(a, b);
    }
  }

  /** The text of the `n`-th id the database hands out (`gen_random_uuid()`), a family of its
      own: the database and the service draw from different generators. */
  function RowUuidText(n: nat): string {
    "row-" + UuidText(n)
  }

  /** Database ids drawn at different times are different. */
  lemma RowUuidTextInjective(a: nat, b: nat)
    requires a != b
    ensures RowUuidText(a) != RowUuidText(b)
  {
    if RowUuidText(a) == RowUuidText(b) {
      assert UuidText(a) == RowUuidText(a)[4..];
      assert UuidText(b) == RowUuidText(b)[4..];
      UuidTextInjective(a, b);
    }
  }

  /** No database id is ever a service id. */
  lemma RowUuidTextNotUuidText(a: nat, b: nat)
    ensures RowUuidText(a) != UuidText(b)
  {
    assert RowUuidText(a)[0] == 'r' && UuidText(b)[0] == 'u';
  }

  /** A generator of fresh row ids (`uuid.NewString`). */
  class IdSource {
    var next: nat

    constructor (start: nat)
      ensures next == start
    {
      next := start;
    }

    /** Hands out the next id. */
    method NewString() returns (s: string)
      modifies this
      ensures s == UuidText(old(next)) && next == old(next) + 1
    {
      s := UuidText(next);
      next := next + 1;
    }
  }
}
