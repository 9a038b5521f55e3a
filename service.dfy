/** The import service: it picks the row processor registered for an import type, detects
    the file format, reads the first sheet of an XLSX workbook or a CSV file row by row, and
    hands the rows to the processor in batches, falling back to the other reader when the
    first one fails. */
module Service {
  import opened Wrappers
  import opened Text
  import opened Ports

  /** The batch size `NewService` falls back to. */
  const DefaultBatchSize := 1000

  const ErrNoSheets := "xlsx has no sheets"
  const SpreadsheetMediaType := "application/vnd.openxmlformats-officedocument.spreadsheetml.sheet"

  // ---------- toMap ----------

  /** Cell `i` of a record, trimmed; a record shorter than the header reads "" there. */
  function Cell(record: seq<string>, i: nat): (v: string)
    ensures i >= |record| ==> v == ""
  {
    TrimSpace(if i < |record| then record[i] else "")
  }

  /** The row built from the first `n` header names: a later header equal to an earlier one
      (after trimming) overwrites its cell. */
  function RowOf(header: seq<string>, record: seq<string>, n: nat): Row
    requires n <= |header|
  {
    if n == 0 then map[]
    else RowOf(header, record, n - 1)[TrimSpace(header[n - 1]) := Cell(record, n - 1)]
  }

  /** `toMap`. */
  method ToMap(header: seq<string>, record: seq<string>) returns (m: Row)
    ensures m == RowOf(header, record, |header|)
  {
    m := map[];
    var i := 0;
    while i < |header|
      invariant 0 <= i <= |header|
      invariant m == RowOf(header, record, i)
    {
      var val := "";
      if i < |record| {
        val := record[i];
      }
      assert TrimSpace(val) == Cell(record, i);
      m := m[TrimSpace(header[i]) := TrimSpace(val)];
      assert m == RowOf(header, record, i + 1);
      i := i + 1;
    }
  }

  /** The row's keys are exactly the trimmed header names. */
  lemma {:induction false} RowOfKeys(header: seq<string>, record: seq<string>, n: nat)
    requires n <= |header|
    ensures RowOf(header, record, n).Keys == set i | 0 <= i < n :: TrimSpace(header[i])
  {
    if n > 0 {
      RowOfKeys(header, record, n - 1);
      var s := set i | 0 <= i < n :: TrimSpace(header[i]);
      var s' := set i | 0 <= i < n - 1 :: TrimSpace(header[i]);
      assert s == s' + {TrimSpace(header[n - 1])} by {
        forall k | k in s ensures k in s' + {TrimSpace(header[n - 1])} {
          var i :| 0 <= i < n && k == TrimSpace(header[i]);
          if i < n - 1 {
            assert k in s';
          }
        }
      }
    }
  }

  /** The cell under a header name is the one under its last occurrence. */
  lemma {:induction false} RowOfLastWins(header: seq<string>, record: seq<string>, n: nat, i: nat)
    requires i < n <= |header|
    requires forall j | i < j < n :: TrimSpace(header[j]) != TrimSpace(header[i])
    ensures TrimSpace(header[i]) in RowOf(header, record, n)
    ensures RowOf(header, record, n)[TrimSpace(header[i])] == Cell(record, i)
  {
    var m := RowOf(header, record, n - 1);
    var last := TrimSpace(header[n - 1]);
    assert RowOf(header, record, n) == m[last := Cell(record, n - 1)];
    if i < n - 1 {
      RowOfLastWins(header, record, n - 1, i);
      assert last != TrimSpace(header[i]);
    }
  }

  /** Cells beyond the header are ignored. */
  lemma {:induction false} RowOfIgnoresExtraCells(header: seq<string>, record: seq<string>, extra: seq<string>, n: nat)
    requires n <= |header| <= |record|
    ensures RowOf(header, record + extra, n) == RowOf(header, record, n)
  {
    if n > 0 {
      RowOfIgnoresExtraCells(header, record, extra, n - 1);
      assert (record + extra)[n - 1] == record[n - 1];
    }
  }

  // ---------- the rows of a file ----------

  /** The records a reader yields after the header, each a row of cells or a read error. */
  type Records = seq<Result<seq<string>>>

  /** The rows built from the first `n` records: one per readable record, in order;
      unreadable records are skipped. */
  function DataRows(build: seq<string> -> Row, records: Records, n: nat): (rows: seq<Row>)
    requires n <= |records|
    ensures |rows| <= n
  {
    if n == 0 then []
    else
      var rows := DataRows(build, records, n - 1);
      if records[n - 1].Ok? then rows + [build(records[n - 1].value)] else rows
  }

  /** The row of a record under the header `header`, as the readers build it. */
  function Builder(header: seq<string>): seq<string> -> Row {
    record => RowOf(header, record, |header|)
  }

  // ---------- batching ----------

  /** The rows of a sequence of batches, in order. */
  function Flatten(bs: seq<seq<Row>>): seq<Row> {
    if bs == [] then [] else Flatten(bs[..|bs| - 1]) + bs[|bs| - 1]
  }

  /** Flattening one more batch appends its rows. */
  lemma FlattenSnoc(bs: seq<seq<Row>>, b: seq<Row>)
    ensures Flatten(bs + [b]) == Flatten(bs) + b
  {
    assert (bs + [b])[..|bs|] == bs;
  }

  /** The rows of a prefix of the batches are a prefix of the rows. */
  lemma {:induction false} FlattenPrefix(a: seq<seq<Row>>, b: seq<seq<Row>>)
    requires a <= b
    ensures Flatten(a) <= Flatten(b)
    decreases |b|
  {
    if |a| < |b| {
      var b' := b[..|b| - 1];
      assert a <= b';
      FlattenPrefix(a, b');
    } else {
      assert a == b;
    }
  }

  /** The size a batch reaches before it is flushed: a size below 1 flushes every row. */
  function Width(size: int): (w: nat)
    ensures w >= 1
    ensures size >= 1 ==> w == size
  {
    if size < 1 then 1 else size
  }

  /** Where the readers' loop stands: the batches flushed so far and the rows still pending. */
  datatype Chunks = Chunks(full: seq<seq<Row>>, rest: seq<Row>)

  /** One row read: it joins the pending batch, which is flushed once it holds `size` rows. */
  function Push(c: Chunks, row: Row, size: int): Chunks {
    var pending := c.rest + [row];
    if |pending| >= size then Chunks(c.full + [pending], []) else Chunks(c.full, pending)
  }

  /** Where the readers' loop stands after the first `n` records. */
  function Scan(build: seq<string> -> Row, records: Records, n: nat, size: int): Chunks
    requires n <= |records|
  {
    if n == 0 then Chunks([], [])
    else
      var c := Scan(build, records, n - 1, size);
      if records[n - 1].Ok? then Push(c, build(records[n - 1].value), size) else c
  }

  /** What the readers' loop keeps about its state: the flushed batches are full, the
      pending rest is not, and together they hold `rows` in order. */
  predicate Chunked(c: Chunks, rows: seq<Row>, size: int) {
    Flatten(c.full) + c.rest == rows
    && (forall i | 0 <= i < |c.full| :: |c.full[i]| == Width(size))
    && |c.rest| < Width(size)
  }

  /** Reading one more row keeps the loop's state chunked. */
  lemma PushFacts(c: Chunks, rows: seq<Row>, row: Row, size: int)
    requires Chunked(c, rows, size)
    ensures Chunked(Push(c, row, size), rows + [row], size)
  {
    var pending := c.rest + [row];
    assert Flatten(c.full) + pending == rows + [row];
    if |pending| >= size {
      var full := c.full + [pending];
      assert Push(c, row, size) == Chunks(full, []);
      FlattenSnoc(c.full, pending);
      forall i | 0 <= i < |full|
        ensures |full[i]| == Width(size)
      {
        if i < |c.full| {
          assert full[i] == c.full[i];
        } else {
          assert full[i] == pending;
        }
      }
    } else {
      assert Push(c, row, size) == Chunks(c.full, pending);
    }
  }

  /** Flushed batches are full, the pending rest is not, and together they hold the rows
      read so far, in order. */
  lemma {:induction false} ScanFacts(build: seq<string> -> Row, records: Records, n: nat, size: int)
    requires n <= |records|
    ensures var c := Scan(build, records, n, size);
      Flatten(c.full) + c.rest == DataRows(build, records, n)
      && (forall i | 0 <= i < |c.full| :: |c.full[i]| == Width(size))
      && |c.rest| < Width(size)
  {
    ScanChunked(build, records, n, size);
  }

  lemma {:induction false} ScanChunked(build: seq<string> -> Row, records: Records, n: nat, size: int)
    requires n <= |records|
    ensures Chunked(Scan(build, records, n, size), DataRows(build, records, n), size)
  {
    if n > 0 {
      ScanChunked(build, records, n - 1, size);
      var c := Scan(build, records, n - 1, size);
      var rows := DataRows(build, records, n - 1);
      if records[n - 1].Ok? {
        var row := build(records[n - 1].value);
        PushFacts(c, rows, row, size);
        assert Scan(build, records, n, size) == Push(c, row, size);
        assert DataRows(build, records, n) == rows + [row];
      } else {
        assert Scan(build, records, n, size) == c;
        assert DataRows(build, records, n) == rows;
      }
    }
  }

  /** The batches flushed after fewer records come first among those flushed after more. */
  lemma {:induction false} ScanExtends(build: seq<string> -> Row, records: Records, n: nat, m: nat, size: int)
    requires n <= m <= |records|
    ensures Scan(build, records, n, size).full <= Scan(build, records, m, size).full
    decreases m
  {
    if n < m {
      ScanExtends(build, records, n, m - 1, size);
    }
  }

  /** Every batch a reader hands over when all goes well: the flushed ones and then the
      pending rest, if any. */
  function Batches(c: Chunks): seq<seq<Row>> {
    if c.rest == [] then c.full else c.full + [c.rest]
  }

  /** Once the whole file is read, the batches hold every readable row exactly once, in
      order; every batch but the last holds exactly `size` rows, and none is empty. */
  lemma Partition(build: seq<string> -> Row, records: Records, size: int)
    ensures var bs := Batches(Scan(build, records, |records|, size));
      Flatten(bs) == DataRows(build, records, |records|)
      && (forall i | 0 <= i < |bs| :: 1 <= |bs[i]| <= Width(size))
      && (forall i | 0 <= i < |bs| - 1 :: |bs[i]| == Width(size))
  {
    var c := Scan(build, records, |records|, size);
    ScanFacts(build, records, |records|, size);
    if c.rest != [] {
      FlattenSnoc(c.full, c.rest);
      assert forall i | 0 <= i < |c.full| :: (c.full + [c.rest])[i] == c.full[i];
    }
  }

  /** What reaching the processor with a sequence of batches gives: the batches sent, the
      rows the processor accepted, and its first refusal. */
  datatype Delivery = Delivery(sent: seq<seq<Row>>, total: nat, err: Option<string>)

  /** The batches handed over one after the other, the first refused one ending the reading.
      `refusals` says which calls the processor refuses (by their number since it was
      made) and with what error, and `n0` is the number of calls it had before. */
  function Send(refusals: map<nat, string>, n0: nat, bs: seq<seq<Row>>): Delivery {
    if bs == [] then Delivery([], 0, None)
    else
      var d := Send(refusals, n0, bs[..|bs| - 1]);
      var b := bs[|bs| - 1];
      var k := n0 + |bs| - 1;
      if d.err.Some? then d
      else if k in refusals then Delivery(d.sent + [b], d.total, Some(refusals[k]))
      else Delivery(d.sent + [b], d.total + |b|, None)
  }

  /** What `Send` promises: the batches sent are a prefix of those given; the calls before
      the last one sent were accepted; all of them are sent and their rows counted when
      none is refused; otherwise the last one sent was refused, with the processor's error,
      and only the rows of the ones before it are counted. */
  lemma {:induction false} SendFacts(refusals: map<nat, string>, n0: nat, bs: seq<seq<Row>>)
    ensures var d := Send(refusals, n0, bs);
      d.sent <= bs
      && (d.err.None? ==> d.sent == bs && d.total == |Flatten(bs)|)
      && (d.err.Some? ==> (d.sent != [] && n0 + |d.sent| - 1 in refusals
            && d.err == Some(refusals[n0 + |d.sent| - 1])
            && d.total == |Flatten(d.sent[..|d.sent| - 1])|))
      && forall k | n0 <= k < n0 + |d.sent| - (if d.err.Some? then 1 else 0) :: k !in refusals
  {
    SendAll(refusals, n0, bs);
    SendPrefix(refusals, n0, bs);
    SendRefused(refusals, n0, bs);
    SendAccepts(refusals, n0, bs);
  }

  /** With no refusal every batch is sent and its rows counted. */
  lemma {:induction false} SendAll(refusals: map<nat, string>, n0: nat, bs: seq<seq<Row>>)
    ensures var d := Send(refusals, n0, bs);
      d.err.None? ==> d.sent == bs && d.total == |Flatten(bs)|
  {
    if bs != [] {
      var init := bs[..|bs| - 1];
      SendAll(refusals, n0, init);
      var d := Send(refusals, n0, init);
      var b := bs[|bs| - 1];
      if d.err.None? && n0 + |bs| - 1 !in refusals {
        assert bs == init + [b];
        FlattenSnoc(init, b);
      }
    }
  }

  /** The batches sent are a prefix of those given. */
  lemma {:induction false} SendPrefix(refusals: map<nat, string>, n0: nat, bs: seq<seq<Row>>)
    ensures Send(refusals, n0, bs).sent <= bs
  {
    if bs != [] {
      var init := bs[..|bs| - 1];
      SendPrefix(refusals, n0, init);
      SendAll(refusals, n0, init);
      var d := Send(refusals, n0, init);
      if d.err.None? {
        assert bs == init + [bs[|bs| - 1]];
      }
    }
  }

  /** A refusal ends the sending: the last batch sent is the refused one, with the
      processor's error, and only the rows before it are counted. */
  lemma {:induction false} SendRefused(refusals: map<nat, string>, n0: nat, bs: seq<seq<Row>>)
    ensures var d := Send(refusals, n0, bs);
      d.err.Some? ==> (d.sent != [] && n0 + |d.sent| - 1 in refusals
        && d.err == Some(refusals[n0 + |d.sent| - 1])
        && d.total == |Flatten(d.sent[..|d.sent| - 1])|)
  {
    if bs != [] {
      var init := bs[..|bs| - 1];
      SendRefused(refusals, n0, init);
      SendAll(refusals, n0, init);
      var d := Send(refusals, n0, init);
      var b := bs[|bs| - 1];
      if d.err.None? && n0 + |bs| - 1 in refusals {
        assert (init + [b])[..|init|] == init;
      }
    }
  }

  /** Every call before the refused one, or every call when none is refused, was accepted. */
  lemma {:induction false} SendAccepts(refusals: map<nat, string>, n0: nat, bs: seq<seq<Row>>)
    ensures var d := Send(refusals, n0, bs);
      forall k | n0 <= k < n0 + |d.sent| - (if d.err.Some? then 1 else 0) :: k !in refusals
  {
    if bs != [] {
      var init := bs[..|bs| - 1];
      SendAccepts(refusals, n0, init);
      SendAll(refusals, n0, init);
    }
  }

  /** Once a batch is refused, the later ones are never sent. */
  lemma {:induction false} SendStops(refusals: map<nat, string>, n0: nat, short: seq<seq<Row>>, bs: seq<seq<Row>>)
    requires short <= bs
    requires Send(refusals, n0, short).err.Some?
    ensures Send(refusals, n0, bs) == Send(refusals, n0, short)
    decreases |bs|
  {
    if |short| < |bs| {
      var bs' := bs[..|bs| - 1];
      assert short <= bs';
      SendStops(refusals, n0, short, bs');
    } else {
      assert short == bs;
    }
  }

  /** A refusal after the first `i` records decides the outcome of the whole file. */
  lemma StopsAt(build: seq<string> -> Row, records: Records, i: nat, size: int, refusals: map<nat, string>, n0: nat)
    requires i <= |records|
    requires Send(refusals, n0, Scan(build, records, i, size).full).err.Some?
    ensures var short := Send(refusals, n0, Scan(build, records, i, size).full);
      Send(refusals, n0, Scan(build, records, |records|, size).full) == short
      && Send(refusals, n0, Batches(Scan(build, records, |records|, size))) == short
  {
    var c := Scan(build, records, |records|, size);
    ScanExtends(build, records, i, |records|, size);
    var short := Scan(build, records, i, size).full;
    SendStops(refusals, n0, short, c.full);
    SendStops(refusals, n0, short, Batches(c));
  }

  /** The processor as a reader sees it (`ports.Processor`): it keeps every batch it is
      handed, in order, and refuses the calls listed in `refusals`. */
  class Processor {
    const refusals: map<nat, string>
    var calls: seq<seq<Row>>

    constructor (refusals: map<nat, string>)
      ensures this.refusals == refusals && calls == []
    {
      this.refusals := refusals;
      calls := [];
    }

    /** `ProcessBatch`. */
    method ProcessBatch(batch: seq<Row>) returns (err: Option<string>)
      modifies this
      ensures calls == old(calls) + [batch]
      ensures err == (if |old(calls)| in refusals then Some(refusals[|old(calls)|]) else None)
    {
      err := if |calls| in refusals then Some(refusals[|calls|]) else None;
      calls := calls + [batch];
    }
  }

  // ---------- the readers ----------

  /** A CSV stream: the header record (or the error reading it) and the records after it,
      up to the end of the stream. */
  datatype CsvSource = CsvSource(header: Result<seq<string>>, records: Records)

  /** One worksheet as the row iterator yields it: every row's cells (or the error reading
      them), and the iterator's error once it stops, if any. */
  datatype Sheet = Sheet(rows: Records, trailer: Option<string>)

  /** An XLSX stream: the workbook (or the error opening it) as its worksheets, each the
      sheet's rows (or the error opening them). */
  datatype XlsxSource = XlsxSource(book: Result<seq<Result<Sheet>>>)

  /** `streamCSV`: every batch of readable rows is handed over, the pending rest at the end of the stream. */
  function CsvRead(src: CsvSource, size: int, refusals: map<nat, string>, n0: nat): Delivery {
    match src.header
    case Err(e) => Delivery([], 0, Some(e))
    case Ok(header) => Send(refusals, n0, Batches(Scan(Builder(header), src.records, |src.records|, size)))
  }

  /** The rows after the header of the first sheet: the full batches are handed over while
      reading; an error the row iterator reports at its end is returned before the pending
      rest is sent. */
  function SheetRead(header: seq<string>, records: Records, trailer: Option<string>, size: int,
                     refusals: map<nat, string>, n0: nat): Delivery
  {
    Finish(refusals, n0, Scan(Builder(header), records, |records|, size), trailer)
  }

  /** The end of a reading loop that stands at `c`: the full batches are handed over; unless
      one was refused, the iterator's error ends the reading, or else the pending rest is
      handed over as well. */
  function Finish(refusals: map<nat, string>, n0: nat, c: Chunks, trailer: Option<string>): Delivery {
    var d := Send(refusals, n0, c.full);
    if d.err.Some? then d
    else if trailer.Some? then d.(err := trailer)
    else Send(refusals, n0, Batches(c))
  }

  /** `streamXLSXFirstSheet`: the first sheet only, its first row being the header. */
  function XlsxRead(src: XlsxSource, size: int, refusals: map<nat, string>, n0: nat): Delivery {
    match src.book
    case Err(e) => Delivery([], 0, Some(e))
    case Ok(sheets) =>
      if sheets == [] then Delivery([], 0, Some(ErrNoSheets))
      else match sheets[0]
        case Err(e) => Delivery([], 0, Some(e))
        case Ok(sheet) =>
          if sheet.rows == [] then Delivery([], 0, sheet.trailer)
          else match sheet.rows[0]
            case Err(e) => Delivery([], 0, Some(e))
            case Ok(header) => SheetRead(header, sheet.rows[1..], sheet.trailer, size, refusals, n0)
  }

  /** A reader that reads to the end without a refusal hands over every readable row
      exactly once, in order, in batches of `size` but for the last, and counts them all. */
  lemma ReadAll(build: seq<string> -> Row, records: Records, size: int, refusals: map<nat, string>, n0: nat)
    requires Send(refusals, n0, Batches(Scan(build, records, |records|, size))).err.None?
    ensures var d := Send(refusals, n0, Batches(Scan(build, records, |records|, size)));
      var rows := DataRows(build, records, |records|);
      Flatten(d.sent) == rows && d.total == |rows|
      && forall i | 0 <= i < |d.sent| - 1 :: |d.sent[i]| == Width(size)
  {
    Partition(build, records, size);
    SendFacts(refusals, n0, Batches(Scan(build, records, |records|, size)));
  }

  /** A refused batch ends the reading: the processor saw the batches up to it, in order,
      so a prefix of the rows, and only the rows of the batches before it are counted. */
  lemma ReadRefused(build: seq<string> -> Row, records: Records, size: int, refusals: map<nat, string>, n0: nat)
    requires Send(refusals, n0, Batches(Scan(build, records, |records|, size))).err.Some?
    ensures var d := Send(refusals, n0, Batches(Scan(build, records, |records|, size)));
      Flatten(d.sent) <= DataRows(build, records, |records|) && d.total < |Flatten(d.sent)|
  {
    var bs := Batches(Scan(build, records, |records|, size));
    var d := Send(refusals, n0, bs);
    Partition(build, records, size);
    SendFacts(refusals, n0, bs);
    FlattenPrefix(d.sent, bs);
    var k := |d.sent| - 1;
    assert d.sent[k] == bs[k];
    assert d.sent == d.sent[..k] + [d.sent[k]];
    FlattenSnoc(d.sent[..k], d.sent[k]);
  }

  /** One more batch handed over while none was refused. */
  lemma SendStep(refusals: map<nat, string>, n0: nat, bs: seq<seq<Row>>, b: seq<Row>)
    requires Send(refusals, n0, bs).err.None?
    ensures var d := Send(refusals, n0, bs);
      Send(refusals, n0, bs + [b]) ==
        (if n0 + |bs| in refusals then Delivery(bs + [b], d.total, Some(refusals[n0 + |bs|]))
         else Delivery(bs + [b], d.total + |b|, None))
  {
    SendAll(refusals, n0, bs);
    assert (bs + [b])[..|bs|] == bs;
  }

  /** Without an iterator error, reading the records the sheet way is reading them the CSV way. */
  lemma SheetReadWithoutTrailer(header: seq<string>, records: Records, size: int, refusals: map<nat, string>, n0: nat)
    ensures SheetRead(header, records, None, size, refusals, n0)
         == Send(refusals, n0, Batches(Scan(Builder(header), records, |records|, size)))
  {
    var c := Scan(Builder(header), records, |records|, size);
    if Send(refusals, n0, c.full).err.Some? {
      SendStops(refusals, n0, c.full, Batches(c));
    }
  }

  /** `streamCSV`. */
  method StreamCsv(src: CsvSource, p: Processor, size: int) returns (total: nat, err: Option<string>)
    modifies p
    ensures var d := CsvRead(src, size, p.refusals, |old(p.calls)|);
      p.calls == old(p.calls) + d.sent && total == d.total && err == d.err
  {
    if src.header.Err? {
      return 0, Some(src.header.error);
    }
    SheetReadWithoutTrailer(src.header.value, src.records, size, p.refusals, |p.calls|);
    total, err := StreamRecords(src.header.value, src.records, None, p, size);
  }

  /** `streamXLSXFirstSheet`. */
  method StreamXlsx(src: XlsxSource, p: Processor, size: int) returns (total: nat, err: Option<string>)
    modifies p
    ensures var d := XlsxRead(src, size, p.refusals, |old(p.calls)|);
      p.calls == old(p.calls) + d.sent && total == d.total && err == d.err
  {
    if src.book.Err? {
      return 0, Some(src.book.error);
    }
    var sheets := src.book.value;
    if |sheets| == 0 {
      return 0, Some(ErrNoSheets);
    }
    if sheets[0].Err? {
      return 0, Some(sheets[0].error);
    }
    var sheet := sheets[0].value;
    if |sheet.rows| == 0 {
      return 0, sheet.trailer;
    }
    if sheet.rows[0].Err? {
      return 0, Some(sheet.rows[0].error);
    }
    total, err := StreamRecords(sheet.rows[0].value, sheet.rows[1..], sheet.trailer, p, size);
  }

  /** The loop both readers run over the records after the header. `trailer` is the row
      iterator's error at its end (always `None` for CSV, whose reader has none). */
  method StreamRecords(hmap: seq<string>, records: Records, trailer: Option<string>, p: Processor, size: int)
    returns (total: nat, err: Option<string>)
    modifies p
    ensures var d := SheetRead(hmap, records, trailer, size, p.refusals, |old(p.calls)|);
      p.calls == old(p.calls) + d.sent && total == d.total && err == d.err
  {
    ghost var calls0 := p.calls;
    ghost var c := Scan(Builder(hmap), records, |records|, size);
    var batch;
    batch, total, err := FlushFull(hmap, records, p, size);
    if err.Some? {
      return;
    }
    total, err := FlushRest(p, batch, total, trailer, c, calls0);
  }

  /** The end of `StreamRecords` once every full batch was accepted: the iterator's error,
      or else the pending rest handed over. */
  method FlushRest(p: Processor, batch: seq<Row>, total: nat, trailer: Option<string>, ghost c: Chunks, ghost calls0: seq<seq<Row>>)
    returns (total': nat, err: Option<string>)
    requires batch == c.rest && p.calls == calls0 + c.full
    requires Send(p.refusals, |calls0|, c.full) == Delivery(c.full, total, None)
    modifies p
    ensures var f := Finish(p.refusals, |calls0|, c, trailer);
      p.calls == calls0 + f.sent && total' == f.total && err == f.err
  {
    ghost var n0 := |calls0|;
    ghost var f := Finish(p.refusals, n0, c, trailer);
    total', err := total, None;
    if trailer.Some? {
      assert f == Delivery(c.full, total, trailer);
      return total, trailer;
    }
    if |batch| > 0 {
      SendStep(p.refusals, n0, c.full, batch);
      assert Batches(c) == c.full + [batch];
      var e := p.ProcessBatch(batch);
      assert p.calls == calls0 + (c.full + [batch]);
      if e.Some? {
        assert f == Delivery(c.full + [batch], total, e);
        return total, e;
      }
      assert f == Delivery(c.full + [batch], total + |batch|, None);
      total' := total + |batch|;
    } else {
      assert c.rest == [];
      assert Batches(c) == c.full;
      assert f.sent == c.full && f.total == total && f.err == None;
    }
  }

  /** None of the `m` calls numbered from `n0` on is refused. */
  predicate Accepts(refusals: map<nat, string>, n0: nat, m: nat) {
    forall k | n0 <= k < n0 + m :: k !in refusals
  }

  /** Batches whose calls are all accepted are all sent, and all their rows counted. */
  lemma {:induction false} SendAccepted(refusals: map<nat, string>, n0: nat, bs: seq<seq<Row>>)
    requires Accepts(refusals, n0, |bs|)
    ensures Send(refusals, n0, bs) == Delivery(bs, |Flatten(bs)|, None)
    decreases |bs|
  {
    if bs != [] {
      var init := bs[..|bs| - 1];
      assert Accepts(refusals, n0, |init|);
      SendAccepted(refusals, n0, init);
      assert init + [bs[|bs| - 1]] == bs;
      assert n0 + |bs| - 1 !in refusals;
    }
  }

  /** Where `FlushFull` stands after `i` records, none refused. */
  ghost predicate Flushed(build: seq<string> -> Row, records: Records, i: nat, size: int, refusals: map<nat, string>,
                          n0: nat, batch: seq<Row>, total: nat, sent: seq<seq<Row>>)
    requires i <= |records|
  {
    var c := Scan(build, records, i, size);
    batch == c.rest && sent == c.full && total == |Flatten(c.full)| && Accepts(refusals, n0, |c.full|)
  }

  /** `FlushFull`'s loop after one more record: an unreadable one is skipped, a readable one
      joins the batch, and a batch that is then full is handed over, which either counts its
      rows or, refused, ends the reading with the processor's error. */
  lemma FlushedNext(build: seq<string> -> Row, records: Records, i: nat, size: int, refusals: map<nat, string>,
                    n0: nat, batch: seq<Row>, total: nat, sent: seq<seq<Row>>)
    requires i < |records|
    requires Flushed(build, records, i, size, refusals, n0, batch, total, sent)
    ensures records[i].Err? ==> Flushed(build, records, i + 1, size, refusals, n0, batch, total, sent)
    ensures records[i].Ok? && |batch| + 1 < size ==>
      Flushed(build, records, i + 1, size, refusals, n0, batch + [build(records[i].value)], total, sent)
    ensures records[i].Ok? && |batch| + 1 >= size && n0 + |sent| !in refusals ==>
      var b := batch + [build(records[i].value)];
      Flushed(build, records, i + 1, size, refusals, n0, [], total + |b|, sent + [b])
    ensures records[i].Ok? && |batch| + 1 >= size && n0 + |sent| in refusals ==>
      var b := batch + [build(records[i].value)];
      var sd := Send(refusals, n0, Scan(build, records, i + 1, size).full);
      sd.err == Some(refusals[n0 + |sent|]) && sd.total == total && sd.sent == sent + [b]
  {
    var c := Scan(build, records, i, size);
    if records[i].Ok? {
      var b := batch + [build(records[i].value)];
      if |b| >= size {
        assert Scan(build, records, i + 1, size) == Chunks(sent + [b], []);
        SendAccepted(refusals, n0, sent);
        SendStep(refusals, n0, sent, b);
        FlattenSnoc(sent, b);
        if n0 + |sent| !in refusals {
          assert Accepts(refusals, n0, |sent| + 1);
        }
      } else {
        assert Scan(build, records, i + 1, size) == Chunks(sent, b);
      }
    } else {
      assert Scan(build, records, i + 1, size) == c;
    }
  }

  /** The records read one by one, each full batch flushed to the processor; a refusal
      stops the reading. Gives the pending rest when none was refused. */
  method FlushFull(hmap: seq<string>, records: Records, p: Processor, size: int)
    returns (batch: seq<Row>, total: nat, err: Option<string>)
    modifies p
    ensures var c := Scan(Builder(hmap), records, |records|, size);
      var d := Send(p.refusals, |old(p.calls)|, c.full);
      p.calls == old(p.calls) + d.sent && total == d.total && err == d.err
      && (err.None? ==> batch == c.rest && d.sent == c.full)
  {
    ghost var n0 := |p.calls|;
    ghost var calls0 := p.calls;
    batch := [];
    total := 0;
    var i := 0;
    while i < |records|
      invariant 0 <= i <= |records|
      invariant |calls0| <= |p.calls| && p.calls[..|calls0|] == calls0
      invariant Flushed(Builder(hmap), records, i, size, p.refusals, n0, batch, total, p.calls[|calls0|..])
    {
      batch, total, err := ReadRecord(hmap, records, i, p, size, batch, total, n0, calls0);
      if err.Some? {
        ghost var sd := Send(p.refusals, n0, Scan(Builder(hmap), records, i + 1, size).full);
        StopsAt(Builder(hmap), records, i + 1, size, p.refusals, n0);
        assert Send(p.refusals, n0, Scan(Builder(hmap), records, |records|, size).full) == sd;
        assert n0 == |old(p.calls)| && calls0 == old(p.calls);
        return;
      }
      i := i + 1;
    }
    SendAccepted(p.refusals, n0, Scan(Builder(hmap), records, |records|, size).full);
    err := None;
  }

  /** One pass of `FlushFull`'s loop: record `i` read, skipped when unreadable, and the
      batch flushed when it is full. */
  method ReadRecord(hmap: seq<string>, records: Records, i: nat, p: Processor, size: int,
                    batch: seq<Row>, total: nat, ghost n0: nat, ghost calls0: seq<seq<Row>>)
    returns (batch': seq<Row>, total': nat, err: Option<string>)
    requires i < |records|
    requires |calls0| <= |p.calls| && p.calls[..|calls0|] == calls0 && n0 == |calls0|
    requires Flushed(Builder(hmap), records, i, size, p.refusals, n0, batch, total, p.calls[|calls0|..])
    modifies p
    ensures |calls0| <= |p.calls| && p.calls[..|calls0|] == calls0
    ensures err.None? ==> Flushed(Builder(hmap), records, i + 1, size, p.refusals, n0, batch', total', p.calls[|calls0|..])
    ensures err.Some? ==> var sd := Send(p.refusals, n0, Scan(Builder(hmap), records, i + 1, size).full);
      sd.err == err && total' == sd.total && p.calls == calls0 + sd.sent
  {
    ghost var sent := p.calls[|calls0|..];
    assert p.calls == calls0 + sent;
    FlushedNext(Builder(hmap), records, i, size, p.refusals, n0, batch, total, sent);
    if records[i].Err? {
      return batch, total, None;
    }
    var row := ToMap(hmap, records[i].value);
    assert row == Builder(hmap)(records[i].value);
    batch' := batch + [row];
    total' := total;
    err := None;
    if |batch'| >= size {
      var e := p.ProcessBatch(batch');
      assert p.calls == calls0 + (sent + [batch']);
      assert p.calls[|calls0|..] == sent + [batch'];
      if e.Some? {
        return batch', total', e;
      }
      total' := total' + |batch'|;
      batch' := [];
    }
  }

  // ---------- format detection ----------

  /** `path.Ext`: the suffix from the last dot of the last path element, or "". */
  function Ext(p: string): (e: string)
    ensures e == "" || (e[0] == '.' && '/' !in e)
    ensures |e| <= |p| && e == p[|p| - |e|..]
  {
    if p == [] || p[|p| - 1] == '/' then ""
    else if p[|p| - 1] == '.' then "."
    else
      var e := Ext(p[..|p| - 1]);
      if e == "" then "" else e + [p[|p| - 1]]
  }

  /** A name ending in a dot and a dot-free, slash-free extension has that extension. */
  lemma {:induction false} ExtOfName(stem: string, ext: string)
    requires '.' !in ext && '/' !in ext
    ensures Ext(stem + "." + ext) == "." + ext
    decreases |ext|
  {
    if ext == [] {
      assert stem + "." + ext == stem + ".";
    } else {
      var init := ext[..|ext| - 1];
      assert stem + "." + ext == (stem + "." + init) + [ext[|ext| - 1]];
      assert (stem + "." + ext)[..|stem + "." + ext| - 1] == stem + "." + init;
      assert ext[|ext| - 1] in ext;
      ExtOfName(stem, init);
      assert ("." + init) + [ext[|ext| - 1]] == "." + ext;
    }
  }

  /** The path whose extension counts: the URL path when the file path parses as a URL with
      a non-empty path, the file path itself otherwise. `urlPath` stands for `url.Parse`. */
  function PathOf(filePath: string, urlPath: string -> Option<string>): string {
    var u := urlPath(filePath);
    if u.Some? && u.value != "" then u.value else filePath
  }

  /** `detectFormat`: the extension decides when it is xlsx or csv (in any letter case);
      otherwise the media type of the content type, which `mediaType` (`mime.ParseMediaType`)
      extracts, "" when it does not parse. */
  function DetectFormat(filePath: string, contentType: string, urlPath: string -> Option<string>,
                        mediaType: string -> string): (f: string)
    ensures f == "xlsx" || f == "csv" || f == ""
  {
    var ext := ToLower(TrimPrefix(Ext(PathOf(filePath, urlPath)), "."));
    if ext == "xlsx" then "xlsx"
    else if ext == "csv" then "csv"
    else
      var med := mediaType(contentType);
      if med == SpreadsheetMediaType then "xlsx"
      else if med == "text/csv" || med == "application/csv" || med == "text/plain" then "csv"
      else ""
  }

  /** A file named `<stem>.<ext>` whose extension lower-cases to "csv" or "xlsx" is read in
      that format, whatever its content type says. */
  lemma DetectFormatByName(stem: string, ext: string, contentType: string,
                           urlPath: string -> Option<string>, mediaType: string -> string)
    requires '.' !in ext && '/' !in ext
    requires ToLower(ext) == "csv" || ToLower(ext) == "xlsx"
    ensures DetectFormat(PathOf(stem + "." + ext, urlPath), contentType, urlPath, mediaType) == ToLower(ext)
      || PathOf(stem + "." + ext, urlPath) != stem + "." + ext
  {
    var p := stem + "." + ext;
    if PathOf(p, urlPath) == p {
      ExtOfName(stem, ext);
      assert TrimPrefix("." + ext, ".") == ext;
    }
  }

  /** A name without an extension is typed by its content type alone. */
  lemma DetectFormatWithoutExtension(filePath: string, contentType: string,
                                     urlPath: string -> Option<string>, mediaType: string -> string)
    requires Ext(PathOf(filePath, urlPath)) == ""
    ensures var med := mediaType(contentType);
      DetectFormat(filePath, contentType, urlPath, mediaType) ==
        if med == SpreadsheetMediaType then "xlsx"
        else if med == "text/csv" || med == "application/csv" || med == "text/plain" then "csv"
        else ""
  {
    assert TrimPrefix("", ".") == "";
  }

  // ---------- Import ----------

  /** What the service gets from the opener besides the stream. */
  datatype Meta = Meta(source: string, contentType: string, bucket: string, key: string, size: int)

  datatype Request = Request(importType: string, filePath: string, batchSize: int, importRecordId: string)

  datatype ImportResult = ImportResult(
    source: string, filePath: string, format: string, rowsProcessed: nat, sha256FirstChunk: string,
    contentType: string, bucket: string, key: string, sizeBytes: int)

  datatype Reader = XlsxReader | CsvReader

  /** The format a reader reports. */
  function FormatOf(r: Reader): string {
    match r
    case XlsxReader => "xlsx"
    case CsvReader => "csv"
  }

  /** The reader tried first: CSV for a detected csv file, XLSX for everything else. */
  function FirstReader(format: string): Reader {
    if format == "csv" then CsvReader else XlsxReader
  }

  function OtherReader(r: Reader): (o: Reader)
    ensures o != r
  {
    if r == XlsxReader then CsvReader else XlsxReader
  }

  /** One reader run. */
  function Read(r: Reader, xlsx: XlsxSource, csv: CsvSource, size: int, refusals: map<nat, string>, n0: nat): Delivery {
    match r
    case XlsxReader => XlsxRead(xlsx, size, refusals, n0)
    case CsvReader => CsvRead(csv, size, refusals, n0)
  }

  /** The read pipeline's outcome: every batch the processor was handed, the format reported, the rows counted, the error. */
  datatype Pipeline = Pipeline(sent: seq<seq<Row>>, format: string, total: nat, err: Option<string>)

  /** How the outcomes of the first reader and, when it fails, the other one combine. */
  function Fallback(first: Reader, d1: Delivery, d2: Delivery): Pipeline {
    if d1.err.None? then Pipeline(d1.sent, FormatOf(first), d1.total, None)
    else Pipeline(d1.sent + d2.sent, FormatOf(OtherReader(first)), d2.total, d2.err)
  }

  /** The switch on the detected format: the first reader, then the other one if the first
      fails, the processor having seen whatever the first one handed over. */
  function RunPipeline(format: string, xlsx: XlsxSource, csv: CsvSource, size: int,
                       refusals: map<nat, string>, n0: nat): Pipeline
  {
    var first := FirstReader(format);
    var d1 := Read(first, xlsx, csv, size, refusals, n0);
    var d2 := Read(OtherReader(first), xlsx, csv, size, refusals, n0 + |d1.sent|);
    Fallback(first, d1, d2)
  }

  /** The pipeline fails only when both readers fail; on success the reported format names
      the reader whose rows were counted, and that is the first one exactly when the first
      one succeeded; the second reader's batches come after the first one's. */
  lemma PipelineOutcome(first: Reader, d1: Delivery, d2: Delivery)
    ensures var o := Fallback(first, d1, d2);
      (o.err.Some? <==> d1.err.Some? && d2.err.Some?)
      && (o.err.Some? ==> o.err == d2.err)
      && (o.err.None? ==> (o.format == FormatOf(first) <==> d1.err.None?))
      && (d1.err.None? ==> o.total == d1.total && o.sent == d1.sent)
      && (d1.err.Some? ==> o.total == d2.total && o.sent == d1.sent + d2.sent)
  {
  }

  /** A detected csv file is read as CSV first and reported as xlsx only when the CSV reader
      fails; any other file is read as XLSX first. */
  lemma PipelineOrder(format: string)
    ensures FirstReader(format) == CsvReader <==> format == "csv"
    ensures FormatOf(FirstReader(format)) == (if format == "csv" then "csv" else "xlsx")
  {
  }

  /** The service. */
  class ImportService {
    const processors: map<string, Processor>
    const defaultBS: int

    /** `NewService`. */
    constructor (registry: map<string, Processor>, defaultBatch: int)
      ensures processors == registry
      ensures defaultBS == (if defaultBatch <= 0 then DefaultBatchSize else defaultBatch)
    {
      processors := registry;
      defaultBS := if defaultBatch <= 0 then DefaultBatchSize else defaultBatch;
    }

    /** The batch size one import uses: the request's when positive, else the service's. */
    function BatchSize(requested: int): (b: int)
      ensures requested > 0 ==> b == requested
      ensures requested <= 0 ==> b == defaultBS
    {
      if requested <= 0 then defaultBS else requested
    }

    /** One reader's streaming run. */
    static method RunReader(r: Reader, xlsx: XlsxSource, csv: CsvSource, p: Processor, size: int)
      returns (total: nat, err: Option<string>)
      modifies p
      ensures var d := Read(r, xlsx, csv, size, p.refusals, |old(p.calls)|);
        p.calls == old(p.calls) + d.sent && total == d.total && err == d.err
    {
      match r
      case CsvReader =>
        total, err := StreamCsv(csv, p, size);
      case XlsxReader =>
        total, err := StreamXlsx(xlsx, p, size);
    }

    /** The switch of `Import` on the detected format. */
    static method ReadPipeline(format: string, xlsx: XlsxSource, csv: CsvSource, p: Processor, size: int)
      returns (format': string, total: nat, readErr: Option<string>)
      modifies p
      ensures var o := RunPipeline(format, xlsx, csv, size, p.refusals, |old(p.calls)|);
        p.calls == old(p.calls) + o.sent && readErr == o.err
        && (readErr.None? ==> format' == o.format && total == o.total)
    {
      var first := if format == "csv" then CsvReader else XlsxReader;
      var second := OtherReader(first);
      format' := FormatOf(first);
      total, readErr := RunReader(first, xlsx, csv, p, size);
      ghost var d1 := Read(first, xlsx, csv, size, p.refusals, |old(p.calls)|);
      ghost var calls1 := p.calls;
      if readErr.Some? {
        total, readErr := RunReader(second, xlsx, csv, p, size);
        ghost var d2 := Read(second, xlsx, csv, size, p.refusals, |calls1|);
        assert |calls1| == |old(p.calls)| + |d1.sent|;
        assert p.calls == old(p.calls) + (d1.sent + d2.sent);
        if readErr.None? {
          format' := FormatOf(second);
        }
        assert RunPipeline(format, xlsx, csv, size, p.refusals, |old(p.calls)|) == Fallback(first, d1, d2);
      } else {
        assert RunPipeline(format, xlsx, csv, size, p.refusals, |old(p.calls)|).sent == d1.sent;
      }
    }

    /** `Import`. The opener's answer, the streams each reader sees, the digest of the bytes
        read, and `url.Parse` and `mime.ParseMediaType` are parameters. */
    method Import(req: Request, opening: Result<Meta>, xlsx: XlsxSource, csv: CsvSource, digest: string,
                  urlPath: string -> Option<string>, mediaType: string -> string)
      returns (r: Result<ImportResult>)
      modifies if req.importType in processors then {processors[req.importType]} else {}
      ensures req.importType !in processors ==> r == Err("no processor for type: " + req.importType)
      ensures req.importType in processors && opening.Err? ==>
        r == Err(opening.error) && processors[req.importType].calls == old(processors[req.importType].calls)
      ensures req.importType in processors && opening.Ok? ==>
        var p := processors[req.importType];
        var meta := opening.value;
        var o := RunPipeline(DetectFormat(req.filePath, meta.contentType, urlPath, mediaType), xlsx, csv,
                             BatchSize(req.batchSize), p.refusals, |old(p.calls)|);
        p.calls == old(p.calls) + o.sent
        && r == (if o.err.Some? then Err(o.err.value)
                 else Ok(ImportResult(meta.source, req.filePath, o.format, o.total, digest,
                                      meta.contentType, meta.bucket, meta.key, meta.size)))
    {
      if req.importType !in processors {
        return Err("no processor for type: " + req.importType);
      }
      var proc := processors[req.importType];
      if opening.Err? {
        return Err(opening.error);
      }
      var meta := opening.value;
      var format := DetectFormat(req.filePath, meta.contentType, urlPath, mediaType);
      var batchSize := req.batchSize;
      if batchSize <= 0 {
        batchSize := defaultBS;
      }
      var total: nat;
      var readErr: Option<string>;
      format, total, readErr := ReadPipeline(format, xlsx, csv, proc, batchSize);
      if readErr.Some? {
        return Err(readErr.value);
      }
      r := Ok(ImportResult(meta.source, req.filePath, format, total, digest,
                           meta.contentType, meta.bucket, meta.key, meta.size));
    }
  }
}
