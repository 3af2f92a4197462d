/**
 * One run of the script (pipeline.py:29-159) as a decision over its inputs:
 * the HTTP status, the parsed header and rows, and the timestamp parser.
 * Network, database and console effects are reduced to what the run leaves
 * behind: its outcome and the state of the destination table.
 */
module Pipeline {
  import opened Wrappers
  import opened Header
  import opened Columns
  import opened Sql
  import opened Frame

  /** The only status the fetch accepts (pipeline.py:34). */
  const HTTP_OK: int := 200

  /** How a run ends. */
  datatype Outcome =
    | FetchFailed(status: int)                          // pipeline.py:34-35, raised
    | CoercionFailed(column: string)                    // pipeline.py:64 or 66 on a repeated column, raised
    | NoMappedColumns                                   // pipeline.py:129-130, raised
    | PreviewFailed                                     // pipeline.py:145 on an empty table, raised
    | NothingToInsert                                   // pipeline.py:151-152, completes
    | Inserted(query: string, batch: seq<seq<Value>>)   // pipeline.py:153-156, completes

  /** The run completes without raising. */
  predicate Succeeded(o: Outcome) {
    o.NothingToInsert? || o.Inserted?
  }

  /**
   * The destination table after the run, given the table before it. The
   * drop, the create and the insert of pipeline.py:82-103 and 154 run in one
   * database transaction that only pipeline.py:155 commits; a run that raises
   * or skips the insert closes the connection with that transaction pending,
   * which discards it. So the table either keeps what it held or holds
   * exactly the batch.
   */
  function TableAfter(before: seq<seq<Value>>, o: Outcome): seq<seq<Value>> {
    if o.Inserted? then o.batch else before
  }

  /**
   * The header and rows after the cleaning steps of pipeline.py:44-66, or
   * the name of the timestamp column whose conversion raises.
   */
  function Cleaned(columns: seq<string>, rows: seq<seq<Value>>, parse: Parser): (t: Result<(seq<string>, seq<seq<Value>>), string>)
    requires Rectangular(columns, rows)
    ensures t.Err? <==> AmbiguousTimestamps(NormalizeHeader(columns))
    ensures t.Ok? ==> t.value.0 == NormalizeHeader(columns)
    ensures t.Ok? ==> Rectangular(t.value.0, t.value.1) && |t.value.1| == |rows|
    ensures t.Ok? ==> t.value.1 == CoerceTimestamps(NormalizeHeader(columns), rows, parse)
  {
    var header := NormalizeHeader(columns);
    CoerceTimestampsScope(header, rows, parse);
    match ConvertTimestamps(header, rows, parse)
    case Err(name) => Err(name)
    case Ok(data) => Ok((header, data))
  }

  /**
   * The run with the zero-row skip behaving as intended: with no data rows it
   * completes without inserting. The column map is a parameter; the script
   * runs with `COLUMN_MAP`, and every lemma below that does not name
   * `COLUMN_MAP` holds for any map.
   */
  function Run(m: ColumnMap, status: int, columns: seq<string>, rows: seq<seq<Value>>, parse: Parser): Outcome
    requires Rectangular(columns, rows)
  {
    if status != HTTP_OK then FetchFailed(status)
    else
      match Cleaned(columns, rows, parse)
      case Err(name) => CoercionFailed(name)
      case Ok((header, data)) =>
      match Project(m, header)
      case Err(_) => NoMappedColumns
      case Ok(existing) =>
        var query := InsertQuery(DestinationColumns(m, existing));
        var batch := ValuesList(header, data, existing);
        if |batch| == 0 then NothingToInsert else Inserted(query, batch)
  }

  /**
   * The run exactly as the script is written: the preview `df.iloc[0]` on
   * pipeline.py:145 comes before the zero-row check and raises on a table
   * without rows.
   */
  function RunAsWritten(m: ColumnMap, status: int, columns: seq<string>, rows: seq<seq<Value>>, parse: Parser): Outcome
    requires Rectangular(columns, rows)
  {
    if status != HTTP_OK then FetchFailed(status)
    else
      match Cleaned(columns, rows, parse)
      case Err(name) => CoercionFailed(name)
      case Ok((header, data)) =>
      match Project(m, header)
      case Err(_) => NoMappedColumns
      case Ok(existing) =>
        var query := InsertQuery(DestinationColumns(m, existing));
        if |data| == 0 then PreviewFailed
        else
          var batch := ValuesList(header, data, existing);
          if |batch| == 0 then NothingToInsert else Inserted(query, batch)
  }

  /**
   * The intended reading of the script (`Run`, without the preview of
   * pipeline.py:145) carried out step by step on a DataFrame updated in place.
   */
  method Execute(m: ColumnMap, status: int, columns: seq<string>, rows: seq<seq<Value>>, parse: Parser) returns (outcome: Outcome)
    requires Rectangular(columns, rows)
    ensures outcome == Run(m, status, columns, rows, parse)
  {
    if status != HTTP_OK {
      return FetchFailed(status);
    }
    var df := new DataFrame(columns, rows);
    df.NormalizeColumns();
    var raised := df.CoerceColumn("start", parse);
    if raised {
      return CoercionFailed("start");
    }
    raised := df.CoerceColumn("end", parse);
    if raised {
      return CoercionFailed("end");
    }
    assert Cleaned(columns, rows, parse) == Ok((df.columns, df.rows));
    var projection := Project(m, df.columns);
    if projection.Err? {
      return NoMappedColumns;
    }
    var existing := projection.value;
    var query := InsertQuery(DestinationColumns(m, existing));
    var batch := ValuesList(df.columns, df.rows, existing);
    if |batch| == 0 {
      return NothingToInsert;
    }
    return Inserted(query, batch);
  }

  // ---------------------------------------------------------------------------
  // The decision sequence
  // ---------------------------------------------------------------------------

  /** A run ends in exactly one of five ways, decided in this order. */
  lemma RunOutcomes(m: ColumnMap, status: int, columns: seq<string>, rows: seq<seq<Value>>, parse: Parser)
    requires Rectangular(columns, rows)
    ensures Run(m, status, columns, rows, parse).FetchFailed? <==> status != HTTP_OK
    ensures Run(m, status, columns, rows, parse).CoercionFailed? <==>
      status == HTTP_OK && AmbiguousTimestamps(NormalizeHeader(columns))
    ensures Run(m, status, columns, rows, parse) == NoMappedColumns <==>
      status == HTTP_OK && !AmbiguousTimestamps(NormalizeHeader(columns))
      && forall k :: k in Keys(m) ==> k !in NormalizeHeader(columns)
    ensures Run(m, status, columns, rows, parse) == NothingToInsert <==>
      status == HTTP_OK && !AmbiguousTimestamps(NormalizeHeader(columns))
      && (exists k :: k in Keys(m) && k in NormalizeHeader(columns)) && rows == []
    ensures Run(m, status, columns, rows, parse).Inserted? <==>
      status == HTTP_OK && !AmbiguousTimestamps(NormalizeHeader(columns))
      && (exists k :: k in Keys(m) && k in NormalizeHeader(columns)) && rows != []
    ensures !Run(m, status, columns, rows, parse).PreviewFailed?
  {
  }

  /** A failed fetch stops the run before anything touches the database. */
  lemma FetchFailureLeavesTableUntouched(m: ColumnMap, status: int, columns: seq<string>, rows: seq<seq<Value>>, parse: Parser)
    requires Rectangular(columns, rows) && status != HTTP_OK
    ensures !Succeeded(Run(m, status, columns, rows, parse))
    ensures forall before :: TableAfter(before, Run(m, status, columns, rows, parse)) == before
  {
  }

  /**
   * With no mapped column in the header the run raises before building any
   * statement (at the projection, unless a timestamp conversion raised
   * earlier), and nothing reaches the table.
   */
  lemma NoMatchRaises(m: ColumnMap, status: int, columns: seq<string>, rows: seq<seq<Value>>, parse: Parser)
    requires Rectangular(columns, rows) && status == HTTP_OK
    requires forall k :: k in Keys(m) ==> k !in NormalizeHeader(columns)
    ensures !AmbiguousTimestamps(NormalizeHeader(columns)) ==> Run(m, status, columns, rows, parse) == NoMappedColumns
    ensures !Succeeded(Run(m, status, columns, rows, parse))
    ensures forall before :: TableAfter(before, Run(m, status, columns, rows, parse)) == before
  {
  }

  /**
   * A cleaned header that holds `start` or `end` twice makes the conversion
   * raise, naming `start` when both are repeated; this happens in both
   * readings, before any database work, and nothing reaches the table.
   */
  lemma AmbiguousTimestampsRaise(m: ColumnMap, columns: seq<string>, rows: seq<seq<Value>>, parse: Parser)
    requires Rectangular(columns, rows)
    requires AmbiguousTimestamps(NormalizeHeader(columns))
    ensures Run(m, HTTP_OK, columns, rows, parse) == CoercionFailed(RaisingColumn(NormalizeHeader(columns)))
    ensures RunAsWritten(m, HTTP_OK, columns, rows, parse) == Run(m, HTTP_OK, columns, rows, parse)
    ensures !Succeeded(Run(m, HTTP_OK, columns, rows, parse))
    ensures forall before :: TableAfter(before, Run(m, HTTP_OK, columns, rows, parse)) == before
  {
    CleanedFails(columns, rows, parse);
    RunStopsAtCoercion(m, columns, rows, parse, RaisingColumn(NormalizeHeader(columns)));
    AsWrittenStopsAtCoercion(m, columns, rows, parse, RaisingColumn(NormalizeHeader(columns)));
  }

  lemma CleanedFails(columns: seq<string>, rows: seq<seq<Value>>, parse: Parser)
    requires Rectangular(columns, rows)
    requires AmbiguousTimestamps(NormalizeHeader(columns))
    ensures Cleaned(columns, rows, parse) == Err(RaisingColumn(NormalizeHeader(columns)))
  {
    CoerceTimestampsScope(NormalizeHeader(columns), rows, parse);
  }

  lemma RunStopsAtCoercion(m: ColumnMap, columns: seq<string>, rows: seq<seq<Value>>, parse: Parser, name: string)
    requires Rectangular(columns, rows) && Cleaned(columns, rows, parse) == Err(name)
    ensures Run(m, HTTP_OK, columns, rows, parse) == CoercionFailed(name)
    ensures !Succeeded(Run(m, HTTP_OK, columns, rows, parse))
    ensures forall before :: TableAfter(before, Run(m, HTTP_OK, columns, rows, parse)) == before
  {
  }

  lemma AsWrittenStopsAtCoercion(m: ColumnMap, columns: seq<string>, rows: seq<seq<Value>>, parse: Parser, name: string)
    requires Rectangular(columns, rows) && Cleaned(columns, rows, parse) == Err(name)
    ensures RunAsWritten(m, HTTP_OK, columns, rows, parse) == CoercionFailed(name)
  {
  }

  /**
   * An export with header `Start;start`, whatever its rows: both names clean
   * to `start`, so the run raises at pipeline.py:64 instead of inserting.
   */
  lemma RepeatedStartRaises(columns: seq<string>, rows: seq<seq<Value>>, parse: Parser)
    requires columns == ["Start", "start"] && Rectangular(columns, rows)
    ensures Run(COLUMN_MAP, HTTP_OK, columns, rows, parse) == CoercionFailed("start")
    ensures RunAsWritten(COLUMN_MAP, HTTP_OK, columns, rows, parse) == CoercionFailed("start")
  {
    StartTwice(columns);
    AmbiguousTimestampsRaise(COLUMN_MAP, columns, rows, parse);
  }

  lemma StartTwice(columns: seq<string>)
    requires columns == ["Start", "start"]
    ensures Repeated(NormalizeHeader(columns), "start")
  {
    NormalizeStart();
    StartIsNormalized();
    NormalizeFixesNormalized("start");
    assert columns[0] == "Start" && columns[1] == "start";
    CleansToTwice(columns, "start");
  }

  /** Two names that clean to the same `name` make the cleaned header repeat it. */
  lemma CleansToTwice(columns: seq<string>, name: string)
    requires |columns| == 2 && Normalize(columns[0]) == name && Normalize(columns[1]) == name
    ensures Repeated(NormalizeHeader(columns), name)
  {
    var header := NormalizeHeader(columns);
    assert header[0] == name && header[1] == name;
  }

  /** A header that holds some mapped column projects to a non-empty column list. */
  lemma MatchProjects(m: ColumnMap, header: seq<string>)
    requires exists k :: k in Keys(m) && k in header
    ensures Project(m, header).Ok?
  {
    var k :| k in Keys(m) && k in header;
    assert k in ExistingColumns(m, header);
  }

  /** With no data rows the insert is skipped and the run completes without committing anything. */
  lemma ZeroRowsComplete(m: ColumnMap, columns: seq<string>, parse: Parser)
    requires !AmbiguousTimestamps(NormalizeHeader(columns))
    requires exists k :: k in Keys(m) && k in NormalizeHeader(columns)
    ensures Run(m, HTTP_OK, columns, [], parse) == NothingToInsert
    ensures Succeeded(Run(m, HTTP_OK, columns, [], parse))
    ensures forall before :: TableAfter(before, Run(m, HTTP_OK, columns, [], parse)) == before
  {
    MatchProjects(m, NormalizeHeader(columns));
  }

  // ---------------------------------------------------------------------------
  // What an inserting run submits
  // ---------------------------------------------------------------------------

  /**
   * What an inserting run is made of, for any column map: a non-empty
   * projection, the statement built from its destinations, and a batch that
   * reads the projected cells of every cleaned row.
   */
  lemma InsertedUnfolds(m: ColumnMap, status: int, columns: seq<string>, rows: seq<seq<Value>>, parse: Parser)
    requires Rectangular(columns, rows)
    requires Run(m, status, columns, rows, parse).Inserted?
    ensures var header := NormalizeHeader(columns);
      var existing := ExistingColumns(m, header);
      var o := Run(m, status, columns, rows, parse);
      && existing != []
      && o.query == InsertQuery(DestinationColumns(m, existing))
      && !AmbiguousTimestamps(header)
      && Cleaned(columns, rows, parse).Ok?
      && ReadsCells(o.batch, header, Cleaned(columns, rows, parse).value.1, existing)
      && (forall before :: TableAfter(before, o) == o.batch)
  {
    var header := NormalizeHeader(columns);
    var data := Cleaned(columns, rows, parse).value.1;
    var existing := ExistingColumns(m, header);
    assert Run(m, status, columns, rows, parse).batch == ValuesList(header, data, existing);
    ValuesListReadsCells(header, data, existing);
  }

  /** The destinations `COLUMN_MAP` gives the columns kept from a header. */
  function Destinations(header: seq<string>): seq<string> {
    DestinationColumns(COLUMN_MAP, ExistingColumns(COLUMN_MAP, header))
  }

  /** The statement a run builds from a header that holds some mapped column. */
  lemma StatementForHeader(header: seq<string>)
    requires ExistingColumns(COLUMN_MAP, header) != []
    ensures Distinct(Destinations(header))
    ensures forall d :: d in Destinations(header) ==> d in TABLE_COLUMNS
    ensures ParseInsert(InsertQuery(Destinations(header)))
         == Some((Destinations(header), Repeat(PLACEHOLDER, |ExistingColumns(COLUMN_MAP, header)|)))
  {
    DestinationsHaveNoDuplicates(header);
    DestinationsArePlainNames(header);
    ParseInsertQuery(Destinations(header));
  }

  lemma DestinationsHaveNoDuplicates(header: seq<string>)
    ensures Distinct(Destinations(header))
  {
    ColumnMapWellFormed();
    ExistingColumnsDistinct(COLUMN_MAP, header);
    DestinationsDistinct(COLUMN_MAP, ExistingColumns(COLUMN_MAP, header));
  }

  lemma DestinationsArePlainNames(header: seq<string>)
    ensures forall d :: d in Destinations(header) ==> d in TABLE_COLUMNS && ',' !in d && ')' !in d
  {
    var existing := ExistingColumns(COLUMN_MAP, header);
    DestinationsAreTableColumns(existing);
    TableColumnsAreIdentifiers();
    forall d | d in Destinations(header) ensures ',' !in d && ')' !in d {
      assert IsIdentifier(d);
    }
  }

  /**
   * A run of the script that inserts submits one statement whose column list
   * is, in `COLUMN_MAP` order and without repetition, the destinations of
   * exactly the mapped columns present in the header, with one `%s` per
   * column; and one tuple per data row, in row order, position `j` holding
   * that row's cleaned value in the `j`-th projected column. The table then
   * holds exactly that batch.
   */
  lemma InsertedRun(status: int, columns: seq<string>, rows: seq<seq<Value>>, parse: Parser)
    requires Rectangular(columns, rows)
    requires Run(COLUMN_MAP, status, columns, rows, parse).Inserted?
    ensures var header := NormalizeHeader(columns);
      var existing := ExistingColumns(COLUMN_MAP, header);
      var o := Run(COLUMN_MAP, status, columns, rows, parse);
      && existing != []
      && (forall c :: c in existing <==> c in Keys(COLUMN_MAP) && c in header)
      && Distinct(Destinations(header))
      && (forall d :: d in Destinations(header) ==> d in TABLE_COLUMNS)
      && ParseInsert(o.query) == Some((Destinations(header), Repeat(PLACEHOLDER, |existing|)))
      && !AmbiguousTimestamps(header)
      && Cleaned(columns, rows, parse).Ok?
      && ReadsCells(o.batch, header, Cleaned(columns, rows, parse).value.1, existing)
      && (forall before :: TableAfter(before, o) == o.batch)
  {
    InsertedUnfolds(COLUMN_MAP, status, columns, rows, parse);
    StatementForHeader(NormalizeHeader(columns));
  }

  // ---------------------------------------------------------------------------
  // The preview on an empty table
  // ---------------------------------------------------------------------------

  /**
   * As written, a fetched export with a mapped column but no data rows does
   * not reach the zero-row skip: the preview raises first.
   */
  lemma AsWrittenZeroRowsRaise(m: ColumnMap, columns: seq<string>, parse: Parser)
    requires !AmbiguousTimestamps(NormalizeHeader(columns))
    requires exists k :: k in Keys(m) && k in NormalizeHeader(columns)
    ensures RunAsWritten(m, HTTP_OK, columns, [], parse) == PreviewFailed
    ensures !Succeeded(RunAsWritten(m, HTTP_OK, columns, [], parse))
    ensures Succeeded(Run(m, HTTP_OK, columns, [], parse))
  {
    MatchProjects(m, NormalizeHeader(columns));
    ZeroRowsComplete(m, columns, parse);
  }

  /** The smallest such export for the script's map: a header with the single column `Start` and no rows. */
  lemma AsWrittenEmptyExport(parse: Parser)
    ensures RunAsWritten(COLUMN_MAP, HTTP_OK, ["Start"], [], parse) == PreviewFailed
    ensures Run(COLUMN_MAP, HTTP_OK, ["Start"], [], parse) == NothingToInsert
  {
    NormalizeStart();
    assert NormalizeHeader(["Start"]) == ["start"];
    ColumnMapKeys();
    assert "start" in Keys(COLUMN_MAP) && "start" in NormalizeHeader(["Start"]);
    SingleNameUnambiguous(NormalizeHeader(["Start"]));
    AsWrittenZeroRowsRaise(COLUMN_MAP, ["Start"], parse);
  }

  lemma SingleNameUnambiguous(header: seq<string>)
    requires |header| <= 1
    ensures !AmbiguousTimestamps(header)
  {
  }

  /** Whenever there is at least one data row the two readings agree. */
  lemma AsWrittenAgreesWithRows(m: ColumnMap, status: int, columns: seq<string>, rows: seq<seq<Value>>, parse: Parser)
    requires Rectangular(columns, rows) && rows != []
    ensures RunAsWritten(m, status, columns, rows, parse) == Run(m, status, columns, rows, parse)
  {
  }
}
