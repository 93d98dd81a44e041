/** The bulk writer: projects a batch of points onto the seven-column table
    the store expects and hands it to a bulk copy. Opening the connection and
    the copy itself are outside the model; whether they fail is the parameter
    `sqlFails`. */
module BatchWriter {
  import opened Telemetry

  datatype ColumnType = DateTime | String | Double

  /** One cell of the staging table. */
  datatype Cell = Instant(t: int) | Text(s: string) | Number(x: real)

  type Row = seq<Cell>

  /** The staging table's columns, in declaration order, with their types. */
  const Schema: seq<(string, ColumnType)> := [
    ("Timestamp", DateTime),
    ("VehicleId", String),
    ("Latitude", Double),
    ("Longitude", Double),
    ("Elevation", Double),
    ("VibrationFrequency", Double),
    ("CompactionValue", Double)
  ]

  const DestinationTable := "TelemetryPoints"

  /** Source column to destination column, as registered with the bulk copy. */
  const ColumnMappings: seq<(string, string)> := [
    ("Timestamp", "Timestamp"),
    ("VehicleId", "VehicleId"),
    ("Latitude", "Latitude"),
    ("Longitude", "Longitude"),
    ("Elevation", "Elevation"),
    ("VibrationFrequency", "VibrationFrequency"),
    ("CompactionValue", "CompactionValue")
  ]

  function TypeOf(c: Cell): ColumnType
  {
    match c
    case Instant(_) => DateTime
    case Text(_) => String
    case Number(_) => Double
  }

  /** A row fits the staging table: one cell per column, each of the column's type. */
  predicate Conforms(row: Row)
  {
    |row| == |Schema| && forall i :: 0 <= i < |row| ==> TypeOf(row[i]) == Schema[i].1
  }

  /** The value a point supplies for the staging column named `column`. */
  function Field(p: Point, column: string): Option<Cell>
  {
    if column == "Timestamp" then Some(Instant(p.timestamp))
    else if column == "VehicleId" then Some(Text(p.vehicleId))
    else if column == "Latitude" then Some(Number(p.latitude))
    else if column == "Longitude" then Some(Number(p.longitude))
    else if column == "Elevation" then Some(Number(p.elevation))
    else if column == "VibrationFrequency" then Some(Number(p.vibrationFrequency))
    else if column == "CompactionValue" then Some(Number(p.compactionValue))
    else None
  }

  /** The row added for one point: seven values, in column order, each cell
      holding the point's field of the same name as its column. */
  function ToRow(p: Point): (r: Row)
    ensures Conforms(r)
    ensures forall i :: 0 <= i < |r| ==> Field(p, Schema[i].0) == Some(r[i])
  {
    [Instant(p.timestamp), Text(p.vehicleId), Number(p.latitude), Number(p.longitude),
     Number(p.elevation), Number(p.vibrationFrequency), Number(p.compactionValue)]
  }

  /** The staging table built for a batch, one row per point. */
  function Rows(batch: seq<Point>): (table: seq<Row>)
    ensures |table| == |batch|
  {
    if batch == [] then [] else Rows(batch[..|batch| - 1]) + [ToRow(batch[|batch| - 1])]
  }

  /** Two points give the same row exactly when they agree on the seven
      persisted fields: the row carries all of them and nothing else. */
  predicate SameStoredFields(p: Point, q: Point)
  {
    p.timestamp == q.timestamp && p.vehicleId == q.vehicleId
    && p.latitude == q.latitude && p.longitude == q.longitude && p.elevation == q.elevation
    && p.vibrationFrequency == q.vibrationFrequency && p.compactionValue == q.compactionValue
  }

  lemma RowDeterminesStoredFields(p: Point, q: Point)
    ensures ToRow(p) == ToRow(q) <==> SameStoredFields(p, q)
  {
    if ToRow(p) == ToRow(q) {
      assert ToRow(p)[0] == ToRow(q)[0] && ToRow(p)[1] == ToRow(q)[1] && ToRow(p)[2] == ToRow(q)[2];
      assert ToRow(p)[3] == ToRow(q)[3] && ToRow(p)[4] == ToRow(q)[4];
      assert ToRow(p)[5] == ToRow(q)[5] && ToRow(p)[6] == ToRow(q)[6];
    }
  }

  /** `SiteId` and `Speed` are never written: changing them does not change the row. */
  lemma SiteIdAndSpeedNotWritten(p: Point, siteId: int, speed: real)
    ensures ToRow(p.(siteId := siteId, speed := speed)) == ToRow(p)
  {
    RowDeterminesStoredFields(p.(siteId := siteId, speed := speed), p);
  }

  /** Exactly one row per point, in batch order. */
  lemma {:induction false} RowsPerPoint(batch: seq<Point>)
    ensures |Rows(batch)| == |batch|
    ensures forall i :: 0 <= i < |batch| ==> Rows(batch)[i] == ToRow(batch[i])
  {
    if batch != [] {
      RowsPerPoint(batch[..|batch| - 1]);
    }
  }

  /** The bulk copy's mapping is the identity on the staging table's columns. */
  lemma ColumnMappingIsIdentity()
    ensures |ColumnMappings| == |Schema|
    ensures forall i :: 0 <= i < |ColumnMappings| ==>
              ColumnMappings[i].0 == Schema[i].0 && ColumnMappings[i].1 == Schema[i].0
  {
  }

  /** The result of one `WriteBatchAsync` call, as its caller sees it. */
  datatype WriteOutcome =
    | Skipped                    // empty batch: returned before opening a connection
    | Cancelled                  // the token was cancelled while the rows were built
    | SqlFailed                  // opening the connection or the bulk copy threw
    | Written(table: seq<Row>)   // the table handed to the bulk copy

  predicate Threw(o: WriteOutcome)
  {
    o.Cancelled? || o.SqlFailed?
  }

  /** What the writer does with `batch` when the cancellation token reads
      `cancelled` and the store answers with `sqlFails`. */
  function WriteResult(batch: seq<Point>, cancelled: bool, sqlFails: bool): (o: WriteOutcome)
    ensures o.Skipped? <==> batch == []
    ensures o.Written? ==> |o.table| == |batch| && forall i :: 0 <= i < |batch| ==> o.table[i] == ToRow(batch[i])
    ensures Threw(o) <==> batch != [] && (cancelled || sqlFails)
  {
    RowsPerPoint(batch);
    if batch == [] then Skipped
    else if cancelled then Cancelled
    else if sqlFails then SqlFailed
    else Written(Rows(batch))
  }

  /** Builds the staging table row by row, checking the token before each row,
      then hands it to the store. An empty batch returns before anything else. */
  method WriteBatchAsync(batch: seq<Point>, cancelled: bool, sqlFails: bool) returns (o: WriteOutcome)
    ensures o == WriteResult(batch, cancelled, sqlFails)
    ensures batch != [] && cancelled ==> o == Cancelled
  {
    if |batch| == 0 {
      return Skipped;
    }
    var table: seq<Row> := [];
    var i := 0;
    while i < |batch|
      invariant 0 <= i <= |batch|
      invariant table == Rows(batch[..i])
      invariant 0 < i ==> !cancelled
    {
      if cancelled {
        return Cancelled;
      }
      assert batch[..i + 1][..i] == batch[..i];
      table := table + [ToRow(batch[i])];
      i := i + 1;
    }
    assert batch[..i] == batch;
    if sqlFails {
      return SqlFailed;
    }
    return Written(table);
  }
}
