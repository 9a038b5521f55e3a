/** The Postgres side as seen by a key lookup (`QueryRow(...).Scan`): a table of rows by
    key, and the keys whose query fails with an error other than "no rows". */
module Db {
  import opened Wrappers

  /** pgx's `ErrNoRows` message. */
  const ErrNoRows := "no rows in result set"

  datatype Table<K, V> = Table(rows: map<K, V>, faults: map<K, string>)

  /** The answer of the lookup for `key`. */
  function Query<K, V>(t: Table<K, V>, key: K): (r: Result<V>)
    ensures key in t.faults ==> r == Err(t.faults[key])
    ensures key !in t.faults ==> r == (if key in t.rows then Ok(t.rows[key]) else Err(ErrNoRows))
  {
    if key in t.faults then Err(t.faults[key])
    else if key in t.rows then Ok(t.rows[key])
    else Err(ErrNoRows)
  }

  /** `errors.Is(err, pgx.ErrNoRows)`. */
  predicate IsNoRows<V>(r: Result<V>) {
    r.Err? && r.error == ErrNoRows
  }

  /** What `DebtsRepo.GetIDByNumber` answers: an id or nil, and an error. */
  datatype DebtIdAnswer = DebtIdAnswer(id: Option<string>, err: Option<string>)
}
