/** The MongoDB-to-PostgreSQL export script: each document becomes a
    five-column row (`prepare_row`), rows are sent in fixed-size batches
    (`batch_insert`), and `main` accumulates the batches and the total. */
module MongoToPostgres {
  import opened Outcomes
  import opened Seqs
  import opened PyValues

  // ---------- prepare_row ----------

  /** A BSON document as pymongo returns it. */
  type Document = map<string, Value>

  /** The `datetime` a timestamp becomes, kept abstract: the result of
      `datetime.fromtimestamp(seconds)` or of `datetime.fromisoformat(text)`. */
  datatype Timestamp = EpochSeconds(seconds: real) | IsoDateTime(text: string)

  /** The tuple `(id, message, timestamp, lattitude, longitude)`. */
  datatype Row = Row(id: string, message: Value, timestamp: Option<Timestamp>, latitude: real, longitude: real)

  /** Why `prepare_row` raises. */
  datatype RowError =
    | TimestampOutOfRange(timestamp: Value)   // `fromtimestamp` on a numeric timestamp raised
    | PositionNotDict(position: Value)        // `iss_position` is present but has no `.get`
    | BadCoordinate(key: string, coordinate: Value)  // `float()` refused the coordinate

  /** The foreign behaviour `prepare_row` depends on: Python's built-ins and
      the range of epochs `datetime.fromtimestamp` accepts on the host. */
  datatype Host = Host(py: Builtins, timestampInRange: real -> bool)

  /** Above this value a numeric epoch is taken to be in milliseconds. */
  const MillisecondsThreshold: real := 1_000_000_000_000.0

  /** The epoch in seconds that a number stands for under the unit heuristic. */
  function EpochFromNumber(x: real): (seconds: real)
    ensures x > MillisecondsThreshold ==> seconds * 1000.0 == x
    ensures x <= MillisecondsThreshold ==> seconds == x
  {
    if x > MillisecondsThreshold then x / 1000.0 else x
  }

  /** The timestamp normalisation of `prepare_row`: a number is an epoch in
      seconds or milliseconds; a string is first read as an integer epoch,
      then as ISO 8601, and is None when neither works; anything else is
      None. Only `fromtimestamp` on a number can make it raise: on a string
      that failure is caught and the ISO reading is tried instead. */
  function NormalizeTimestamp(v: Value, host: Host): (r: Result<Option<Timestamp>, RowError>)
    ensures r.Failure? ==> IsNumber(v) && r.error == TimestampOutOfRange(v)
    ensures !IsNumber(v) && !v.VStr? ==> r == Success(None)
    ensures r.Success? && r.value.Some? && r.value.value.IsoDateTime? ==>
      v.VStr? && r.value.value.text == v.s && host.py.isIsoFormat(v.s)
    ensures r.Success? && r.value.Some? && r.value.value.EpochSeconds? ==>
      host.timestampInRange(r.value.value.seconds)
    ensures IsNumber(v) && host.timestampInRange(EpochFromNumber(NumberValue(v))) ==>
      r == Success(Some(EpochSeconds(EpochFromNumber(NumberValue(v)))))
    ensures v.VStr? && ParseInt(v.s).Some? && host.timestampInRange(EpochFromNumber(ParseInt(v.s).value as real)) ==>
      r == Success(Some(EpochSeconds(EpochFromNumber(ParseInt(v.s).value as real))))
    ensures v.VStr? && r == Success(None) ==> !host.py.isIsoFormat(v.s)
    ensures IsNumber(v) && !host.timestampInRange(EpochFromNumber(NumberValue(v))) ==>
      r == Failure(TimestampOutOfRange(v))
    ensures v.VStr? && !(ParseInt(v.s).Some? && host.timestampInRange(EpochFromNumber(ParseInt(v.s).value as real))) ==>
      r == Success(if host.py.isIsoFormat(v.s) then Some(IsoDateTime(v.s)) else None)
  {
    if IsNumber(v) then
      var seconds := EpochFromNumber(NumberValue(v));
      if host.timestampInRange(seconds) then Success(Some(EpochSeconds(seconds)))
      else Failure(TimestampOutOfRange(v))
    else if v.VStr? then
      var iv := ParseInt(v.s);
      if iv.Some? && host.timestampInRange(EpochFromNumber(iv.value as real)) then
        Success(Some(EpochSeconds(EpochFromNumber(iv.value as real))))
      else if host.py.isIsoFormat(v.s) then Success(Some(IsoDateTime(v.s)))
      else Success(None)
    else Success(None)
  }

  /** `float(x)` on a coordinate. */
  function ToFloat(key: string, v: Value, py: Builtins): (r: Result<real, RowError>)
    ensures IsNumber(v) ==> r == Success(NumberValue(v))
    ensures r.Failure? ==> r.error == BadCoordinate(key, v)
    ensures !IsNumber(v) && !v.VStr? ==> r.Failure?
    ensures v.VStr? ==>
      r == if py.floatOfStr(v.s).Some? then Success(py.floatOfStr(v.s).value) else Failure(BadCoordinate(key, v))
  {
    if IsNumber(v) then Success(NumberValue(v))
    else if v.VStr? && py.floatOfStr(v.s).Some? then Success(py.floatOfStr(v.s).value)
    else Failure(BadCoordinate(key, v))
  }

  /** `doc.get("iss_position", {}).get(key, 0.0)`, before `float()`. */
  function PositionField(doc: Document, key: string): (r: Result<Value, RowError>)
    ensures "iss_position" !in doc ==> r == Success(VFloat(0.0))
    ensures "iss_position" in doc && doc["iss_position"].VDict? ==>
      r == Success(if key in doc["iss_position"].entries then doc["iss_position"].entries[key] else VFloat(0.0))
    ensures "iss_position" in doc && !doc["iss_position"].VDict? ==> r == Failure(PositionNotDict(doc["iss_position"]))
  {
    if "iss_position" !in doc then Success(VFloat(0.0))
    else match doc["iss_position"]
      case VDict(position) => Success(if key in position then position[key] else VFloat(0.0))
      case other => Failure(PositionNotDict(other))
  }

  /** `prepare_row`: the row of one document, or the exception it raises.
      The steps run in the source's order (timestamp, both lookups, then the
      two `float()` calls), so the first failing step names the error. */
  function PrepareRow(doc: Document, host: Host): (r: Result<Row, RowError>)
    ensures r.Success? ==> r.value.id == Str(Get(doc, "_id"), host.py) && r.value.message == Get(doc, "message")
    ensures r.Success? ==> NormalizeTimestamp(Get(doc, "timestamp"), host) == Success(r.value.timestamp)
    ensures "iss_position" !in doc && NormalizeTimestamp(Get(doc, "timestamp"), host).Success? ==>
      r.Success? && r.value.latitude == 0.0 && r.value.longitude == 0.0
    ensures r.Failure? && r.error.PositionNotDict? ==> "iss_position" in doc && !doc["iss_position"].VDict?
  {
    var ts := NormalizeTimestamp(Get(doc, "timestamp"), host);
    if ts.Failure? then Failure(ts.error)
    else
      var lat := PositionField(doc, "latitude");
      var lon := PositionField(doc, "longitude");
      if lat.Failure? then Failure(lat.error)
      else if lon.Failure? then Failure(lon.error)
      else
        var latitude := ToFloat("latitude", lat.value, host.py);
        if latitude.Failure? then Failure(latitude.error)
        else
          var longitude := ToFloat("longitude", lon.value, host.py);
          if longitude.Failure? then Failure(longitude.error)
          else Success(Row(Str(Get(doc, "_id"), host.py), Get(doc, "message"), ts.value, latitude.value, longitude.value))
  }

  /** An integer epoch written as a string is read like the same integer
      stored as a number, as long as `fromtimestamp` accepts it. */
  lemma StringEpochAgreesWithNumber(n: int, host: Host)
    requires host.timestampInRange(EpochFromNumber(n as real))
    ensures NormalizeTimestamp(VStr(IntToDecimal(n)), host) == NormalizeTimestamp(VInt(n), host)
    ensures NormalizeTimestamp(VInt(n), host) == Success(Some(EpochSeconds(EpochFromNumber(n as real))))
  {
    ParseIntOfDecimal(n);
  }

  /** For an instant after September 2001 (more than 1e9 seconds after the
      epoch) and up to 1e12 seconds, the heuristic reads its epoch in
      seconds and its epoch in milliseconds as the same instant. */
  lemma UnitsAgree(seconds: real)
    requires 1_000_000_000.0 < seconds <= MillisecondsThreshold
    ensures EpochFromNumber(seconds * 1000.0) == EpochFromNumber(seconds) == seconds
  {
  }

  /** A string that is neither an integer nor ISO 8601 gives no timestamp
      and no error, and so does a timestamp of any type other than a
      number or a string (None included). */
  lemma UnreadableTimestampIsNone(v: Value, host: Host)
    requires v.VStr? ==> ParseInt(v.s).None? && !host.py.isIsoFormat(v.s)
    requires !IsNumber(v)
    ensures NormalizeTimestamp(v, host) == Success(None)
  {
  }

  // ---------- batch_insert and the target table ----------

  /** The effect of `INSERT ... ON CONFLICT (id) DO NOTHING` on the table,
      keyed by id: a row whose id is already present, in the table or
      earlier in the same statement, is skipped. */
  function InsertIgnoringConflicts(table: map<string, Row>, rows: seq<Row>): (t: map<string, Row>)
  {
    if rows == [] then table
    else
      var before := InsertIgnoringConflicts(table, rows[..|rows| - 1]);
      var row := rows[|rows| - 1];
      if row.id in before then before else before[row.id := row]
  }

  /** The ids of a sequence of rows. */
  function Ids(rows: seq<Row>): set<string>
  {
    set row | row in rows :: row.id
  }

  /** The table keeps every row it had and gains exactly the ids sent. */
  lemma {:induction false} InsertKeepsAndAdds(table: map<string, Row>, rows: seq<Row>)
    ensures var t := InsertIgnoringConflicts(table, rows);
      && t.Keys == table.Keys + Ids(rows)
      && forall id :: id in table ==> t[id] == table[id]
  {
    if rows != [] {
      var init := rows[..|rows| - 1];
      InsertKeepsAndAdds(table, init);
      assert rows == init + [rows[|rows| - 1]];
      assert Ids(rows) == Ids(init) + {rows[|rows| - 1].id};
    }
  }

  lemma {:induction false} InsertAppend(table: map<string, Row>, a: seq<Row>, b: seq<Row>)
    ensures InsertIgnoringConflicts(table, a + b) == InsertIgnoringConflicts(InsertIgnoringConflicts(table, a), b)
    decreases |b|
  {
    if b == [] {
      assert a + b == a;
    } else {
      var b' := b[..|b| - 1];
      assert (a + b)[..|a + b| - 1] == a + b';
      InsertAppend(table, a, b');
    }
  }

  /** The count `batch_insert` returns is the number of rows sent, not the
      number stored: two rows with one id count 2 and add 1 row. */
  lemma CountIsRowsSent(id: string, first: Row, second: Row)
    requires first.id == id && second.id == id
    ensures |InsertIgnoringConflicts(map[], [first, second]).Keys| == 1
  {
    assert [first, second][..1] == [first];
    assert [first][..0] == [];
    assert InsertIgnoringConflicts(map[], [first]) == map[id := first];
    assert InsertIgnoringConflicts(map[], [first, second]) == map[id := first];
    assert map[id := first].Keys == {id};
  }

  /** The PostgreSQL side of the export: the INSERT statements sent to the
      `mongo_import` table, in order, on top of the rows it held before. */
  class PgConnection {
    const initialTable: map<string, Row>
    var batches: seq<seq<Row>>

    /** The table by id after the statements sent so far. */
    function Table(): map<string, Row>
      reads this
    {
      InsertIgnoringConflicts(initialTable, Flatten(batches))
    }

    constructor (table: map<string, Row>)
      ensures initialTable == table && batches == []
      ensures Table() == table
    {
      initialTable := table;
      batches := [];
    }

    /** `batch_insert`: nothing is sent for no rows and 0 is returned;
        otherwise one statement carries all the rows and their number is
        returned (its effect on the table is `InsertedBy`). */
    method BatchInsert(rows: seq<Row>) returns (count: nat)
      modifies this
      ensures count == |rows|
      ensures batches == if rows == [] then old(batches) else old(batches) + [rows]
    {
      if rows == [] {
        return 0;
      }
      batches := batches + [rows];
      count := |rows|;
    }
  }

  // ---------- the batching loop of main ----------

  /** The documents `iter_documents` yields: a limit of 0 means all of them. */
  function Take(docs: seq<Document>, limit: nat): (taken: seq<Document>)
    ensures limit == 0 || limit >= |docs| ==> taken == docs
    ensures 0 < limit < |docs| ==> taken == docs[..limit]
    ensures |taken| <= |docs| && taken == docs[..|taken|]
  {
    if limit == 0 || limit >= |docs| then docs else docs[..limit]
  }

  /** `len(batch) >= args.batch_size` holds after every append when the
      batch size is 0 or negative, so such a size behaves as 1. */
  function EffectiveBatchSize(batchSize: int): (size: nat)
    ensures size >= 1
    ensures batchSize >= 1 ==> size == batchSize
    ensures batchSize < 1 ==> size == 1
  {
    if batchSize >= 1 then batchSize else 1
  }

  /** What converting a stream of documents gives: the rows of the documents
      before the first one `prepare_row` rejects, and that rejection. */
  datatype Prepared = Prepared(rows: seq<Row>, error: Option<RowError>)

  function PrepareAll(docs: seq<Document>, host: Host): (p: Prepared)
    ensures |p.rows| <= |docs|
    ensures p.error.None? ==> |p.rows| == |docs|
  {
    if docs == [] then Prepared([], None)
    else
      var p := PrepareAll(docs[..|docs| - 1], host);
      if p.error.Some? then p
      else match PrepareRow(docs[|docs| - 1], host)
        case Success(row) => Prepared(p.rows + [row], None)
        case Failure(e) => Prepared(p.rows, Some(e))
  }

  /** The rows are those of the documents before the first rejected one,
      and the error is that document's. */
  lemma {:induction false} PrepareAllFirstError(docs: seq<Document>, host: Host)
    ensures var p := PrepareAll(docs, host);
      && (forall i :: 0 <= i < |p.rows| ==> PrepareRow(docs[i], host) == Success(p.rows[i]))
      && (p.error.Some? ==> |p.rows| < |docs| && PrepareRow(docs[|p.rows|], host) == Failure(p.error.value))
  {
    if docs != [] {
      var init := docs[..|docs| - 1];
      PrepareAllFirstError(init, host);
      var p := PrepareAll(docs, host);
      forall i | 0 <= i < |p.rows|
        ensures PrepareRow(docs[i], host) == Success(p.rows[i])
      {
        if i < |PrepareAll(init, host).rows| {
          assert docs[i] == init[i];
        }
      }
      if PrepareAll(init, host).error.Some? {
        assert docs[|p.rows|] == init[|p.rows|];
      }
    }
  }

  /** Converting one more document. */
  lemma PrepareAllExtend(docs: seq<Document>, i: nat, host: Host)
    requires i < |docs| && PrepareAll(docs[..i], host).error.None?
    ensures var p := PrepareAll(docs[..i], host);
      PrepareAll(docs[..i + 1], host)
        == match PrepareRow(docs[i], host)
           case Success(row) => Prepared(p.rows + [row], None)
           case Failure(e) => Prepared(p.rows, Some(e))
  {
    assert docs[..i + 1][..i] == docs[..i];
  }

  /** Once a document is rejected, the documents after it do not matter. */
  lemma {:induction false} PrepareAllStops(docs: seq<Document>, i: nat, host: Host)
    requires i <= |docs|
    requires PrepareAll(docs[..i], host).error.Some?
    ensures PrepareAll(docs, host) == PrepareAll(docs[..i], host)
    decreases |docs| - i
  {
    if i < |docs| {
      assert docs[..i + 1][..i] == docs[..i];
      assert PrepareAll(docs[..i + 1], host) == PrepareAll(docs[..i], host);
      PrepareAllStops(docs, i + 1, host);
    } else {
      assert docs[..i] == docs;
    }
  }

  /** The rows of the batches that are full: what is left after removing
      the partial last batch. */
  function FullBatches(rows: seq<Row>, size: nat): (full: seq<Row>)
    requires size >= 1
    ensures |full| <= |rows| && |rows| - |full| < size
    ensures full == rows[..|full|]
    decreases |rows|
  {
    if |rows| < size then [] else rows[..size] + FullBatches(rows[size..], size)
  }

  /** Whole batches followed by fewer than `size` rows keep just the whole
      batches. */
  lemma {:induction false} FullBatchesOfWholePlus(full: seq<Row>, rest: seq<Row>, size: nat)
    requires size >= 1 && IsWhole(full, size) && |rest| < size
    ensures FullBatches(full + rest, size) == full
    decreases |full|
  {
    if full == [] {
      assert full + rest == rest;
    } else {
      assert (full + rest)[..size] == full[..size];
      assert (full + rest)[size..] == full[size..] + rest;
      FullBatchesOfWholePlus(full[size..], rest, size);
      assert full == full[..size] + full[size..];
    }
  }

  /** The `for doc in ...` loop of `main` and its final flush, on the
      documents `docs` the query matches. On success every prepared row is sent, cut into batches of the
      batch size, and the total is the number of documents read. When
      `prepare_row` raises, the exception ends the script: the full batches
      before the rejected document have been sent and the partial one is
      lost. */
  method Transfer(conn: PgConnection, docs: seq<Document>, batchSize: int, limit: nat, host: Host)
    returns (outcome: Result<nat, RowError>)
    modifies conn
    ensures var p := PrepareAll(Take(docs, limit), host);
      var size := EffectiveBatchSize(batchSize);
      && (p.error.None? ==>
            && outcome == Success(|Take(docs, limit)|)
            && conn.batches == old(conn.batches) + Chunks(p.rows, size))
      && (p.error.Some? ==>
            && outcome == Failure(p.error.value)
            && conn.batches == old(conn.batches) + Chunks(FullBatches(p.rows, size), size))
    ensures |conn.batches| >= |old(conn.batches)|
    ensures conn.Table() == InsertIgnoringConflicts(old(conn.Table()), Flatten(conn.batches[|old(conn.batches)|..]))
  {
    var stream := Take(docs, limit);
    var size := EffectiveBatchSize(batchSize);
    ghost var p := PrepareAll(stream, host);
    ghost var full := FullBatches(p.rows, size);
    var batch, total, failure := SendFullBatches(conn, stream, batchSize, host);
    if failure.Some? {
      FlattenChunks(full, size);
      assert conn.batches[|old(conn.batches)|..] == Chunks(full, size);
      TableAfter(conn.initialTable, old(conn.batches), Chunks(full, size));
      return Failure(failure.value);
    }
    assert full + batch == p.rows && |p.rows| == |stream|;
    total := FinalFlush(conn, batch, total, size, full, old(conn.batches));
    FlattenChunks(p.rows, size);
    assert conn.batches[|old(conn.batches)|..] == Chunks(p.rows, size);
    TableAfter(conn.initialTable, old(conn.batches), Chunks(p.rows, size));
    outcome := Success(total);
  }

  /** The final flush: the rows left in the buffer are sent only when there
      are some. */
  method FinalFlush(conn: PgConnection, batch: seq<Row>, total: nat, size: nat,
                    ghost full: seq<Row>, ghost sent: seq<seq<Row>>)
    returns (total': nat)
    requires size >= 1 && IsWhole(full, size) && |batch| < size && total == |full|
    requires conn.batches == sent + Chunks(full, size)
    modifies conn
    ensures total' == |full + batch|
    ensures conn.batches == sent + Chunks(full + batch, size)
  {
    total' := total;
    if batch != [] {
      FlushStep(full, batch, size);
      var inserted := conn.BatchInsert(batch);
      total' := total' + inserted;
    } else {
      assert full + batch == full;
    }
  }

  /** The `for doc in ...` loop itself: rows are appended to the buffer and
      the buffer is sent and emptied whenever it reaches the batch size.
      Stops at the first document `prepare_row` rejects. */
  method SendFullBatches(conn: PgConnection, stream: seq<Document>, batchSize: int, host: Host)
    returns (batch: seq<Row>, total: nat, failure: Option<RowError>)
    modifies conn
    ensures var p := PrepareAll(stream, host);
      var size := EffectiveBatchSize(batchSize);
      var full := FullBatches(p.rows, size);
      && failure == p.error
      && IsWhole(full, size)
      && (failure.None? ==> full + batch == p.rows && |batch| < size)
      && total == |full|
      && conn.batches == old(conn.batches) + Chunks(full, size)
  {
    var size := EffectiveBatchSize(batchSize);
    batch, total := [], 0;
    ghost var flushed: seq<Row> := [];
    for i := 0 to |stream|
      invariant PrepareAll(stream[..i], host).error.None?
      invariant PrepareAll(stream[..i], host).rows == flushed + batch
      invariant IsWhole(flushed, size) && |batch| < size && total == |flushed|
      invariant conn.batches == old(conn.batches) + Chunks(flushed, size)
    {
      var row := PrepareRow(stream[i], host);
      if row.Failure? {
        StoppedAt(stream, i, host, flushed, batch, size);
        return batch, total, Some(row.error);
      }
      PrepareAllExtend(stream, i, host);
      batch, total, flushed := AppendRow(conn, batch, total, row.value, batchSize, size, flushed, old(conn.batches));
    }
    assert stream[..|stream|] == stream;
    FullBatchesOfWholePlus(flushed, batch, size);
    failure := None;
  }

  /** One iteration of the loop after `prepare_row` succeeded: the row is
      appended to the buffer, and a buffer that reaches the batch size is
      sent and emptied. `flushed` are the rows sent so far, on top of the
      statements `sent` the loop started with. */
  method AppendRow(conn: PgConnection, batch: seq<Row>, total: nat, row: Row, batchSize: int, size: nat,
                   ghost flushed: seq<Row>, ghost sent: seq<seq<Row>>)
    returns (batch': seq<Row>, total': nat, ghost flushed': seq<Row>)
    requires size == EffectiveBatchSize(batchSize)
    requires IsWhole(flushed, size) && |batch| < size
    requires total == |flushed|
    requires conn.batches == sent + Chunks(flushed, size)
    modifies conn
    ensures flushed' + batch' == flushed + batch + [row]
    ensures IsWhole(flushed', size) && |batch'| < size
    ensures total' == |flushed'|
    ensures conn.batches == sent + Chunks(flushed', size)
  {
    batch' := batch + [row];
    assert flushed + batch' == flushed + batch + [row];
    if |batch'| >= batchSize {
      assert |batch'| == size by {
        if batchSize < 1 { assert size == 1; } else { assert size == batchSize; }
      }
      FlushStep(flushed, batch', size);
      var inserted := conn.BatchInsert(batch');
      total', flushed' := total + inserted, flushed + batch';
      batch' := [];
      assert flushed' + batch' == flushed';
    } else {
      total', flushed' := total, flushed;
    }
  }

  /** When the document at `i` is rejected, the whole stream converts to
      the rows before it and that error, and the whole batches among those
      rows are the ones already sent. */
  lemma StoppedAt(stream: seq<Document>, i: nat, host: Host, flushed: seq<Row>, batch: seq<Row>, size: nat)
    requires i < |stream| && size >= 1
    requires PrepareAll(stream[..i], host).error.None?
    requires PrepareAll(stream[..i], host).rows == flushed + batch
    requires PrepareRow(stream[i], host).Failure?
    requires IsWhole(flushed, size) && |batch| < size
    ensures PrepareAll(stream, host) == Prepared(flushed + batch, Some(PrepareRow(stream[i], host).error))
    ensures FullBatches(flushed + batch, size) == flushed
    ensures Flatten(Chunks(flushed, size)) == flushed
  {
    PrepareAllExtend(stream, i, host);
    PrepareAllStops(stream, i + 1, host);
    assert stream[..|stream|] == stream;
    FullBatchesOfWholePlus(flushed, batch, size);
    FlattenChunks(flushed, size);
  }

  /** Sending one more batch of at most `size` rows after whole batches. */
  lemma FlushStep(flushed: seq<Row>, batch: seq<Row>, size: nat)
    requires size >= 1 && IsWhole(flushed, size) && 0 < |batch| <= size
    ensures Chunks(flushed + batch, size) == Chunks(flushed, size) + [batch]
    ensures |batch| == size ==> IsWhole(flushed + batch, size)
  {
    ChunksAppend(flushed, batch, size);
    if |batch| == size {
      WholeAppend(flushed, batch, size);
    }
  }

  /** One statement of `batch_insert` inserts its rows into the table as
      `ON CONFLICT (id) DO NOTHING` does. */
  lemma InsertedBy(initial: map<string, Row>, before: seq<seq<Row>>, rows: seq<Row>)
    ensures InsertIgnoringConflicts(initial, Flatten(before + [rows]))
         == InsertIgnoringConflicts(InsertIgnoringConflicts(initial, Flatten(before)), rows)
  {
    TableAfter(initial, before, [rows]);
    assert [rows][..0] == [];
    assert Flatten([rows]) == rows;
  }

  /** The table after more statements is the table before them with their
      rows inserted. */
  lemma TableAfter(initial: map<string, Row>, before: seq<seq<Row>>, added: seq<seq<Row>>)
    ensures InsertIgnoringConflicts(initial, Flatten(before + added))
         == InsertIgnoringConflicts(InsertIgnoringConflicts(initial, Flatten(before)), Flatten(added))
  {
    FlattenAppend(before, added);
    InsertAppend(initial, Flatten(before), Flatten(added));
  }

  /** The batches a successful export sends put back together give the
      prepared rows in document order; all but the last hold exactly the
      batch size and the last holds between one row and the batch size, so
      no empty statement is ever sent. */
  lemma TransferBatches(rows: seq<Row>, batchSize: int)
    ensures var size := EffectiveBatchSize(batchSize);
      var bs := Chunks(rows, size);
      && Flatten(bs) == rows
      && (forall i :: 0 <= i < |bs| - 1 ==> |bs[i]| == size)
      && (bs != [] ==> 0 < |bs[|bs| - 1]| <= size)
      && (rows == [] <==> bs == [])
  {
    var size := EffectiveBatchSize(batchSize);
    FlattenChunks(rows, size);
    ChunkSizes(rows, size);
  }

  predicate AllOfSize(batches: seq<seq<Row>>, size: nat)
  {
    forall i :: 0 <= i < |batches| ==> |batches[i]| == size
  }

  /** When `prepare_row` raises, every batch sent was full. */
  lemma {:induction false} FullBatchesAreFull(rows: seq<Row>, size: nat)
    requires size >= 1
    ensures AllOfSize(Chunks(FullBatches(rows, size), size), size)
    decreases |rows|
  {
    if |rows| >= size {
      var rest := FullBatches(rows[size..], size);
      FullBatchesAreFull(rows[size..], size);
      var full := FullBatches(rows, size);
      assert full == rows[..size] + rest;
      assert full[..size] == rows[..size] && full[size..] == rest;
      if rest != [] {
        var bs := Chunks(full, size);
        assert bs == [rows[..size]] + Chunks(rest, size);
        forall i | 0 <= i < |bs|
          ensures |bs[i]| == size
        {
          if i > 0 {
            assert bs[i] == Chunks(rest, size)[i - 1];
          }
        }
      } else {
        assert full == rows[..size];
        assert Chunks(full, size) == [full];
      }
    }
  }
}
