/** `ActionRepo.InsertActions`: the actions with a debt are queued in one batch, and the
    results are read back in order until the first error. */
module ActionsRepo {
  import opened Wrappers
  import opened Helpers

  /** `models.Action` (`kind` is the `type` column). */
  datatype Action = Action(
    id: string,
    debtId: Option<string>,
    userId: Option<int>,
    debtStatusId: Option<int>,
    kind: Option<string>,
    comment: Option<string>,
    createdAt: Option<DateTime>)

  /** The statements queued, in input order: those of the actions that have a debt. */
  function Queued(xs: seq<Action>): (q: seq<Action>)
    ensures |q| <= |xs|
    ensures forall k :: 0 <= k < |q| ==> q[k].debtId.Some? && q[k] in xs
    ensures (forall k :: 0 <= k < |xs| ==> xs[k].debtId.None?) <==> q == []
  {
    if xs == [] then []
    else if xs[0].debtId.Some? then [xs[0]] + Queued(xs[1..])
    else Queued(xs[1..])
  }

  lemma {:induction false} QueuedAppend(a: seq<Action>, b: seq<Action>)
    ensures Queued(a + b) == Queued(a) + Queued(b)
  {
    if a == [] {
      assert a + b == b;
    } else {
      assert (a + b)[0] == a[0] && (a + b)[1..] == a[1..] + b;
      QueuedAppend(a[1..], b);
    }
  }

  /** An input whose every action has a debt is queued whole, in order. */
  lemma {:induction false} QueuedAll(xs: seq<Action>)
    requires forall k :: 0 <= k < |xs| ==> xs[k].debtId.Some?
    ensures Queued(xs) == xs
    decreases |xs|
  {
    if xs != [] {
      assert forall k :: 0 <= k < |xs[1..]| ==> xs[1..][k] == xs[k + 1];
      QueuedAll(xs[1..]);
      assert [xs[0]] + xs[1..] == xs;
    }
  }

  /** The results read in order: each statement is applied until the first that fails
      (`faults` holds the error of an action's insert, keyed by its id). */
  function Exec(rows: seq<Action>, faults: map<string, string>, q: seq<Action>): (Option<string>, seq<Action>)
    decreases |q|
  {
    if q == [] then (None, rows)
    else if q[0].id in faults then (Some(faults[q[0].id]), rows)
    else Exec(rows + [q[0]], faults, q[1..])
  }

  /** `InsertActions` as a function of the table. */
  function Insert(rows: seq<Action>, faults: map<string, string>, xs: seq<Action>): (Option<string>, seq<Action>) {
    if |xs| == 0 then (None, rows)
    else
      var q := Queued(xs);
      if |q| == 0 then (None, rows) else Exec(rows, faults, q)
  }

  /** The index of the first queued statement that fails, or the number queued. */
  function FirstFault(faults: map<string, string>, q: seq<Action>): (k: nat)
    ensures k <= |q|
    ensures forall j :: 0 <= j < k ==> q[j].id !in faults
    ensures k < |q| ==> q[k].id in faults
  {
    if q == [] || q[0].id in faults then 0 else 1 + FirstFault(faults, q[1..])
  }

  /** The statements before the first failing one are applied, in order, and its error is
      returned; with no failure every action with a debt is appended and no error returned. */
  lemma {:induction false} ExecPrefix(rows: seq<Action>, faults: map<string, string>, q: seq<Action>)
    ensures var k := FirstFault(faults, q);
      Exec(rows, faults, q) == (if k < |q| then Some(faults[q[k].id]) else None, rows + q[..k])
    decreases |q|
  {
    if q == [] {
      assert rows + q[..0] == rows;
    } else if q[0].id in faults {
      assert FirstFault(faults, q) == 0;
      assert rows + q[..0] == rows;
    } else {
      ExecPrefix(rows + [q[0]], faults, q[1..]);
      var k := FirstFault(faults, q[1..]);
      assert FirstFault(faults, q) == k + 1;
      assert q[..k + 1] == [q[0]] + q[1..][..k];
      assert rows + [q[0]] + q[1..][..k] == rows + q[..k + 1];
    }
  }

  /** Nothing is sent for an empty input or one without any debt; otherwise the table grows
      by the queued actions up to the first failing one. */
  lemma InsertFacts(rows: seq<Action>, faults: map<string, string>, xs: seq<Action>)
    ensures (forall k :: 0 <= k < |xs| ==> xs[k].debtId.None?) ==> Insert(rows, faults, xs) == (None, rows)
    ensures var q := Queued(xs); var k := FirstFault(faults, q);
      Insert(rows, faults, xs) == (if k < |q| then Some(faults[q[k].id]) else None, rows + q[..k])
  {
    var q := Queued(xs);
    ExecPrefix(rows, faults, q);
    if q == [] {
      assert q[..0] == [];
    }
  }

  /** The `actions` table. */
  class ActionsTable {
    const faults: map<string, string>
    var rows: seq<Action>

    constructor (faults: map<string, string>, rows: seq<Action>)
      ensures this.faults == faults && this.rows == rows
    {
      this.faults := faults;
      this.rows := rows;
    }

    /** `InsertActions`. */
    method InsertActions(xs: seq<Action>) returns (err: Option<string>)
      modifies this
      ensures (err, rows) == Insert(old(rows), faults, xs)
    {
      if |xs| == 0 {
        return None;
      }
      var batch: seq<Action> := [];
      var queued := 0;
      var i := 0;
      while i < |xs|
        invariant 0 <= i <= |xs|
        invariant batch == Queued(xs[..i]) && queued == |batch|
        invariant rows == old(rows)
      {
        assert xs[..i + 1] == xs[..i] + [xs[i]];
        QueuedAppend(xs[..i], [xs[i]]);
        if xs[i].debtId.None? {
          i := i + 1;
          continue;
        }
        batch := batch + [xs[i]];
        queued := queued + 1;
        i := i + 1;
      }
      assert xs[..i] == xs;
      if queued == 0 {
        assert Queued(xs) == [];
        return None;
      }
      var j := 0;
      assert batch[j..] == batch;
      while j < queued
        invariant 0 <= j <= queued == |batch|
        invariant Exec(old(rows), faults, batch) == Exec(rows, faults, batch[j..])
      {
        assert batch[j..][0] == batch[j] && batch[j..][1..] == batch[j + 1..];
        if batch[j].id in faults {
          return Some(faults[batch[j].id]);
        }
        rows := rows + [batch[j]];
        j := j + 1;
      }
      err := None;
    }
  }
}
