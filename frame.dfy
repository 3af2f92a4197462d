/**
 * The parsed survey table: cell values, the timestamp coercion of the `start`
 * and `end` columns (pipeline.py:63-66) and the row tuples handed to the batch
 * insert (pipeline.py:150).
 */
module Frame {
  import opened Wrappers
  import Header

  /** A point in time as `pd.to_datetime` yields it; its representation is left abstract. */
  type Instant = int

  /** One cell: missing (`None`, `NaN`, `NaT`), the raw text of the export, or a timestamp. */
  datatype Value = Null | Text(raw: string) | Time(instant: Instant)

  /** `pd.to_datetime` on one raw value, as a partial parser: `None` where it cannot parse. */
  type Parser = string -> Option<Instant>

  /** Every row has one cell per column, as every row of a pandas DataFrame does. */
  predicate Rectangular(columns: seq<string>, rows: seq<seq<Value>>) {
    forall r :: r in rows ==> |r| == |columns|
  }

  /** The position of the first column called `name`. */
  function IndexOf(columns: seq<string>, name: string): (i: nat)
    requires name in columns
    ensures i < |columns| && columns[i] == name
    ensures forall j :: 0 <= j < i ==> columns[j] != name
  {
    if columns[0] == name then 0 else 1 + IndexOf(columns[1..], name)
  }

  // ---------------------------------------------------------------------------
  // Timestamp coercion
  // ---------------------------------------------------------------------------

  /**
   * `errors="coerce"` on one cell: a value that parses becomes that instant,
   * one that does not becomes null, a missing value stays missing.
   */
  function CoerceCell(parse: Parser, v: Value): Value {
    match v
    case Null => Null
    case Text(s) => (match parse(s) case Some(t) => Time(t) case None => Null)
    case Time(_) => v
  }

  /** One row after the column called `name` has been overwritten with its coerced values. */
  function CoerceRow(columns: seq<string>, row: seq<Value>, name: string, parse: Parser): seq<Value>
    requires |row| == |columns|
  {
    seq(|row|, j requires 0 <= j < |row| => if columns[j] == name then CoerceCell(parse, row[j]) else row[j])
  }

  function CoerceRows(columns: seq<string>, rows: seq<seq<Value>>, name: string, parse: Parser): (r: seq<seq<Value>>)
    requires Rectangular(columns, rows)
    ensures |r| == |rows|
    ensures forall i :: 0 <= i < |rows| ==> r[i] == CoerceRow(columns, rows[i], name, parse)
  {
    if rows == [] then [] else [CoerceRow(columns, rows[0], name, parse)] + CoerceRows(columns, rows[1..], name, parse)
  }

  /** `if name in df.columns: df[name] = pd.to_datetime(df[name], errors="coerce")`, for a name held once. */
  function CoercedColumn(columns: seq<string>, rows: seq<seq<Value>>, name: string, parse: Parser): seq<seq<Value>>
    requires Rectangular(columns, rows)
  {
    if name in columns then CoerceRows(columns, rows, name, parse) else rows
  }

  /** Two columns of the header carry the name `name`. */
  predicate Repeated(columns: seq<string>, name: string) {
    exists i, j :: 0 <= i < j < |columns| && columns[i] == name && columns[j] == name
  }

  /**
   * A header that holds `start` or `end` twice: `df[name]` is then a frame of
   * several columns, and `pd.to_datetime` refuses to assemble a frame whose
   * column names repeat, with `ValueError` whatever `errors` says.
   */
  predicate AmbiguousTimestamps(columns: seq<string>) {
    Repeated(columns, "start") || Repeated(columns, "end")
  }

  /** The column whose conversion raises on an ambiguous header: line 64 runs before line 66. */
  function RaisingColumn(columns: seq<string>): string {
    if Repeated(columns, "start") then "start" else "end"
  }

  /** The coerced rows of lines 63-66 when neither conversion raises: `start` first, then `end`. */
  function CoerceTimestamps(columns: seq<string>, rows: seq<seq<Value>>, parse: Parser): seq<seq<Value>>
    requires Rectangular(columns, rows)
  {
    var once := CoercedColumn(columns, rows, "start", parse);
    CoercedColumnKeepsShape(columns, rows, "start", parse);
    CoercedColumn(columns, once, "end", parse)
  }

  /**
   * Lines 63-66 with their error path: the name of the column whose
   * conversion raises (line 64 before line 66), or the coerced rows.
   */
  function ConvertTimestamps(columns: seq<string>, rows: seq<seq<Value>>, parse: Parser): Result<seq<seq<Value>>, string>
    requires Rectangular(columns, rows)
  {
    if Repeated(columns, "start") then Err("start")
    else if Repeated(columns, "end") then Err("end")
    else Ok(CoerceTimestamps(columns, rows, parse))
  }

  lemma CoercedColumnKeepsShape(columns: seq<string>, rows: seq<seq<Value>>, name: string, parse: Parser)
    requires Rectangular(columns, rows)
    ensures Rectangular(columns, CoercedColumn(columns, rows, name, parse))
    ensures |CoercedColumn(columns, rows, name, parse)| == |rows|
  {
    var r := CoercedColumn(columns, rows, name, parse);
    forall x | x in r ensures |x| == |columns| {
      var i :| 0 <= i < |r| && r[i] == x;
    }
  }

  /**
   * The conversion raises exactly when the header holds `start` or `end`
   * twice, naming `start` when both do. Otherwise it keeps the table's
   * shape and touches only the column named exactly `start` and the one
   * named exactly `end`; there a value that parses becomes its instant and a
   * value that does not becomes null.
   */
  lemma CoerceTimestampsScope(columns: seq<string>, rows: seq<seq<Value>>, parse: Parser)
    requires Rectangular(columns, rows)
    ensures ConvertTimestamps(columns, rows, parse).Err? <==> AmbiguousTimestamps(columns)
    ensures Repeated(columns, "start") ==> ConvertTimestamps(columns, rows, parse) == Err("start")
    ensures !Repeated(columns, "start") && Repeated(columns, "end") ==> ConvertTimestamps(columns, rows, parse) == Err("end")
    ensures AmbiguousTimestamps(columns) ==> ConvertTimestamps(columns, rows, parse) == Err(RaisingColumn(columns))
    ensures !AmbiguousTimestamps(columns) ==> ConvertTimestamps(columns, rows, parse) == Ok(CoerceTimestamps(columns, rows, parse))
    ensures Rectangular(columns, CoerceTimestamps(columns, rows, parse))
    ensures |CoerceTimestamps(columns, rows, parse)| == |rows|
    ensures forall i, j :: 0 <= i < |rows| && 0 <= j < |columns| ==>
      CoerceTimestamps(columns, rows, parse)[i][j] ==
        if columns[j] == "start" || columns[j] == "end" then CoerceCell(parse, rows[i][j]) else rows[i][j]
  {
    var once := CoercedColumn(columns, rows, "start", parse);
    CoercedColumnKeepsShape(columns, rows, "start", parse);
    CoercedColumnKeepsShape(columns, once, "end", parse);
    var twice := CoerceTimestamps(columns, rows, parse);
    forall i, j | 0 <= i < |rows| && 0 <= j < |columns|
      ensures twice[i][j] ==
        if columns[j] == "start" || columns[j] == "end" then CoerceCell(parse, rows[i][j]) else rows[i][j]
    {
      assert rows[i] in rows;
      assert once[i] in once;
    }
  }

  /** A value that parses keeps its point in time; one that does not becomes null. */
  lemma CoerceCellMeaning(parse: Parser, s: string)
    ensures parse(s).Some? ==> CoerceCell(parse, Text(s)) == Time(parse(s).value)
    ensures parse(s).None? ==> CoerceCell(parse, Text(s)) == Null
    ensures CoerceCell(parse, CoerceCell(parse, Text(s))) == CoerceCell(parse, Text(s))
  {
  }

  // ---------------------------------------------------------------------------
  // Row tuples
  // ---------------------------------------------------------------------------

  /** `row.get(col)`: the row's value in the column called `col`, or `None` if there is none. */
  function Get(columns: seq<string>, row: seq<Value>, col: string): Value
    requires |row| == |columns|
  {
    if col in columns then row[IndexOf(columns, col)] else Null
  }

  /** `tuple(row.get(col) for col in existing_columns)`. */
  function RowTuple(columns: seq<string>, row: seq<Value>, cols: seq<string>): (t: seq<Value>)
    requires |row| == |columns|
    ensures |t| == |cols|
    ensures forall j :: 0 <= j < |cols| ==> t[j] == Get(columns, row, cols[j])
  {
    if cols == [] then [] else [Get(columns, row, cols[0])] + RowTuple(columns, row, cols[1..])
  }

  /** `values_list` of pipeline.py:150: one tuple per data row, in row order. */
  function ValuesList(columns: seq<string>, rows: seq<seq<Value>>, cols: seq<string>): (vs: seq<seq<Value>>)
    requires Rectangular(columns, rows)
    ensures |vs| == |rows|
    ensures forall i :: 0 <= i < |rows| ==> |vs[i]| == |cols|
    ensures forall i, j :: 0 <= i < |rows| && 0 <= j < |cols| ==> vs[i][j] == Get(columns, rows[i], cols[j])
  {
    if rows == [] then []
    else [RowTuple(columns, rows[0], cols)] + ValuesList(columns, rows[1..], cols)
  }

  /**
   * `batch` holds one tuple per row of `data`, in order, and position `j` of
   * tuple `i` is row `i`'s cell in column `cols[j]` of `header`.
   */
  predicate ReadsCells(batch: seq<seq<Value>>, header: seq<string>, data: seq<seq<Value>>, cols: seq<string>)
    requires Rectangular(header, data)
    requires forall c :: c in cols ==> c in header
  {
    && |batch| == |data|
    && (forall i :: 0 <= i < |data| ==> |batch[i]| == |cols|)
    && (forall i, j :: 0 <= i < |data| && 0 <= j < |cols| ==> batch[i][j] == data[i][IndexOf(header, cols[j])])
  }

  /**
   * When every projected column exists, no tuple position is null for lack of
   * a column: position `j` of tuple `i` is row `i`'s cell in column `cols[j]`.
   */
  lemma ValuesListReadsCells(columns: seq<string>, rows: seq<seq<Value>>, cols: seq<string>)
    requires Rectangular(columns, rows)
    requires forall c :: c in cols ==> c in columns
    ensures ReadsCells(ValuesList(columns, rows, cols), columns, rows, cols)
  {
  }

  // ---------------------------------------------------------------------------
  // The DataFrame the script updates in place
  // ---------------------------------------------------------------------------

  /** The `df` of pipeline.py: a header and its rows, both reassigned by the script. */
  class DataFrame {
    var columns: seq<string>
    var rows: seq<seq<Value>>

    ghost predicate Valid()
      reads this
    {
      Rectangular(columns, rows)
    }

    /** `pd.read_csv(...)`, given the already parsed header and rows. */
    constructor (columns: seq<string>, rows: seq<seq<Value>>)
      requires Rectangular(columns, rows)
      ensures Valid() && this.columns == columns && this.rows == rows
    {
      this.columns := columns;
      this.rows := rows;
    }

    /** `df.columns = df.columns.str.strip()...` (pipeline.py:44-51). */
    method NormalizeColumns()
      requires Valid()
      modifies this
      ensures Valid()
      ensures columns == Header.NormalizeHeader(old(columns)) && rows == old(rows)
    {
      columns := Header.NormalizeHeader(columns);
    }

    /**
     * `if name in df.columns: df[name] = pd.to_datetime(df[name], errors="coerce")`.
     * Reports whether the conversion raises, which it does before assigning
     * anything when the header holds `name` twice.
     */
    method CoerceColumn(name: string, parse: Parser) returns (raised: bool)
      requires Valid()
      modifies this
      ensures Valid()
      ensures raised <==> Repeated(old(columns), name)
      ensures columns == old(columns)
      ensures rows == if raised then old(rows) else CoercedColumn(old(columns), old(rows), name, parse)
    {
      CoercedColumnKeepsShape(columns, rows, name, parse);
      if Repeated(columns, name) {
        return true;
      }
      if name in columns {
        rows := CoerceRows(columns, rows, name, parse);
      }
      return false;
    }
  }
}
