# Survey export loader: a Dafny model

The loader is one script (`pipeline.py`). It fetches a semicolon-separated
survey export over HTTP and parses it into a table. It then cleans the column
names and turns the `start` and `end` columns into timestamps. It drops and
recreates a fixed PostgreSQL table, keeps only the columns its `COLUMN_MAP`
knows, and inserts every row in one parameterised batch.

This project models the part of that script that decides what is inserted.
The model has six modules:

- `Wrappers` (`wrappers.dfy`): the `Option` and `Result` datatypes the
  other modules share.
- `Header` (`header.dfy`): the column-name normalisation chain (strip,
  lower-case, then replace `' '`, `'&'` and `'-'`), one name at a time and
  for the whole header.
- `Columns` (`columns.dfy`): `COLUMN_MAP` as an ordered list of pairs, and
  the projection onto the columns that exist. The projection fails with an
  error when nothing matches.
- `Sql` (`sql.dfy`): the exact text of the insert statement, plus a reader
  that takes such a statement apart again.
- `Frame` (`frame.dfy`): cell values and the timestamp coercion, with the
  date parser left abstract. The coercion raises when the cleaned header holds
  `start` or `end` twice. It also builds the row tuples, and has a
  `DataFrame` class whose methods update the header and rows in place, as
  the script does with `df`.
- `Pipeline` (`pipeline.dfy`): a whole run as a function of the column map,
  the HTTP status, the parsed header and rows, and the parser. It has two
  readings: `Run`, the intended one, and `RunAsWritten`, the code as it
  stands. `Execute` carries out the intended reading step by step on a
  `DataFrame`. The lemmas about the order of decisions hold for any
  column map. The lemmas that name `COLUMN_MAP` are about the script's own
  table.

`COLUMN_MAP` is a Python dict, and the script iterates over its keys in
insertion order. The model therefore keeps it as a sequence of pairs.
Lemmas prove that its keys are distinct and so are its values.

The table below cites lines of `pipeline.py`.

## Model

| member | source | states |
|---|---|---|
| Header.NormalizeHeader | pipeline.py:44-51 | the new header has one name per old name, and name `i` is the clean-up chain applied to old name `i` |
| Header.Normalize | pipeline.py:45-50 | the chain strip, lower, then replace `' '` by `_`, `&` by `and` and `-` by `_`, in that order; what it yields is stated by `NormalizeIsNormalized`, `NormalizedIffFixpoint`, `NormalizeIdempotent` and `NormalizeAroundSpace` |
| Header.NormalizeIsNormalized | pipeline.py:45-50 | a cleaned name has no whitespace at either end (Python's `isspace` set) and contains no ASCII capital, space, `&` or `-` |
| Header.NormalizedIffFixpoint | pipeline.py:45-50 | a name is in cleaned form exactly when the chain leaves it unchanged (both directions) |
| Header.NormalizeFixesNormalized | pipeline.py:45-50 | a name already in cleaned form passes through strip, lower and the three replacements unchanged |
| Header.NormalizeIdempotent | pipeline.py:45-50 | cleaning a cleaned name changes nothing |
| Header.NormalizeHeaderIdempotent | pipeline.py:44-51 | cleaning an already cleaned header changes nothing |
| Header.Strip | pipeline.py:46 | the result is a contiguous slice of the name, everything cut off before and after it is whitespace, and the result has no whitespace at either end; a name without edge whitespace is returned as it is |
| Header.LowerAt | pipeline.py:47 | lower-casing keeps the length and maps each character on its own (A-Z to a-z, all else kept) |
| Header.ReplaceAbsent | pipeline.py:48-50 | replacing a character that does not occur leaves the name unchanged |
| Header.ReplaceAppend | pipeline.py:48-50 | replacement works piecewise over concatenation |
| Header.NormalizeAroundSpace | pipeline.py:45-50 | a trimmed name that lower-cases to two words around one space, neither containing a space, `&` or `-`, becomes the two words joined by `_` |
| Header.NormalizeAgeRange | pipeline.py:44-51 | the header name `Age Range` becomes `age_range` |
| Header.NormalizeStart | pipeline.py:44-51 | the header name `Start` becomes `start`, the name the timestamp step looks for |
| Columns.ColumnMapKeys | pipeline.py:109-125 | the source names of the map, in insertion order |
| Columns.ColumnMapValuesAreTableColumns | pipeline.py:87-101 | the destination names of the map are the table's 15 data columns, in order, with the capital in `Met_mental_health_professional` |
| Columns.ColumnMapWellFormed | pipeline.py:109-125 | no source name and no destination name of the map occurs twice |
| Columns.ColumnMapKeysNormalized | pipeline.py:109-125 | every source name is already in the form the clean-up chain produces, so each can be matched |
| Columns.TableColumnsAreIdentifiers | pipeline.py:87-101 | every destination name consists of letters and `_` only |
| Columns.ExistingColumns | pipeline.py:128 | a name is kept exactly when it is a source name of the map and also in the header; the kept names follow the map's order |
| Columns.ExistingColumnsDistinct | pipeline.py:128 | the kept names contain no duplicate, even when the header has one |
| Columns.ExistingColumnsUnique | pipeline.py:128 | any duplicate-free list in map order holding exactly the names in both the map and the header equals the projection |
| Columns.ExistingColumnsIgnoreHeaderOrder | pipeline.py:128 | the projection depends only on which names the header holds, not on their order or repetition |
| Columns.ExistingColumnsExample | pipeline.py:128 | the header `start, end, age_range, gender` keeps all four names, in that order |
| Columns.Project | pipeline.py:128-130 | an error exactly when no source name of the map is in the header; otherwise a non-empty list holding exactly the matching names |
| Columns.Lookup | pipeline.py:139 | `COLUMN_MAP[col]` for a present key returns a value paired with that key |
| Columns.LookupInjective | pipeline.py:109-125 | in a well-formed map, two keys with the same destination are the same key |
| Columns.DestinationColumns | pipeline.py:139 | one destination per kept name, each paired with its source name in the map |
| Columns.DestinationsDistinct | pipeline.py:139 | the destination list of duplicate-free source names has no duplicate |
| Columns.DestinationsAreTableColumns | pipeline.py:139 | every destination is one of the table's columns |
| Sql.InsertQuery | pipeline.py:138-141 | the statement text of the f-string, character for character; `ParseInsertQuery` and `InsertQueryArity` state what it reads back as |
| Sql.ParseInsertQuery | pipeline.py:138-141 | the statement built for comma- and parenthesis-free destinations reads back as exactly those names, in order, and as one `%s` per name |
| Sql.InsertQueryArity | pipeline.py:139-140 | the column list and the value list of the statement have the same length |
| Sql.SplitListJoin | pipeline.py:139-140 | a `", "`-joined list of comma-free names splits back into the same names |
| Sql.Repeat | pipeline.py:140 | `['%s'] * n` has `n` elements, all equal to `%s` |
| Frame.IndexOf | pipeline.py:150 | the first position holding the column name |
| Frame.ConvertTimestamps | pipeline.py:63-66 | both conversions with their error path; `CoerceTimestampsScope` states when it raises and what it yields otherwise |
| Frame.CoerceTimestampsScope | pipeline.py:63-66 | the conversion raises exactly when the header holds `start` or `end` twice, naming `start` (line 64) when that one is repeated and `end` (line 66) otherwise; when it does not raise it keeps the table's shape, changes exactly the cells of the columns named `start` and `end`, and replaces each by its coerced value |
| Frame.CoerceCellMeaning | pipeline.py:64-66 | with `errors="coerce"`, a value that parses becomes its instant and one that does not becomes null; coercing twice gives the same as once |
| Frame.CoercedColumnKeepsShape | pipeline.py:63-66 | coercing one column keeps the number of rows and the width of every row |
| Frame.Get | pipeline.py:150 | `row.get(col)`: the cell at the first position of `col`, or null when there is none; `RowTuple` and `ValuesListReadsCells` state it per tuple entry |
| Frame.RowTuple | pipeline.py:150 | `tuple(row.get(col) for col in existing_columns)`: one entry per kept name, holding that column's cell or null when the column is missing |
| Frame.ValuesList | pipeline.py:150 | one tuple per data row, in row order, and entry `j` of tuple `i` is row `i`'s value for kept name `j` |
| Frame.ValuesListReadsCells | pipeline.py:150 | when every kept name is a column, the tuple list has one tuple per row. Entry `j` of tuple `i` is row `i`'s cell at the first position of column `j`, never a null for lack of a column |
| Frame.DataFrame.NormalizeColumns | pipeline.py:44-51 | assigning `df.columns` replaces the header by its cleaned form and leaves the rows alone |
| Frame.DataFrame.CoerceColumn | pipeline.py:63-66 | it reports a raise exactly when the header holds the name twice, and then leaves the rows alone; otherwise the rows become the coerced rows when the column exists; the header never changes |
| Pipeline.TableAfter | pipeline.py:82-103 | the table after a run: the batch after an insert, otherwise what it held before, since only the insert path commits; `FetchFailureLeavesTableUntouched`, `NoMatchRaises`, `AmbiguousTimestampsRaise`, `ZeroRowsComplete` and `InsertedUnfolds` state it per outcome |
| Pipeline.Cleaned | pipeline.py:44-66 | cleaning fails exactly when the cleaned header holds `start` or `end` twice; otherwise the header is the cleaned header and the rows are the parsed rows with `start` and `end` coerced, still rectangular and as many as before |
| Pipeline.Run | pipeline.py:34-156 | the intended run, zero-row skip before any preview; `RunOutcomes` states its five outcomes as if-and-only-ifs, and `InsertedRun` what an inserting run submits |
| Pipeline.RunAsWritten | pipeline.py:34-156 | the run as written, with the line-145 preview before the zero-row check; `AsWrittenZeroRowsRaise`, `AsWrittenEmptyExport` and `AsWrittenAgreesWithRows` relate it to `Run` |
| Pipeline.Execute | pipeline.py:33-156 | for any column map, the step-by-step run on a mutated `DataFrame`, stopping where a conversion raises, ends with the outcome `Run` gives |
| Pipeline.RunOutcomes | pipeline.py:34-156 | a run fails to fetch exactly when the status is not 200; after a good fetch it raises at the timestamp conversion exactly when the cleaned header holds `start` or `end` twice; past that it raises for lack of columns exactly when no source name is in the cleaned header; with a mapped column it skips the insert exactly when there are no rows and inserts exactly when there are |
| Pipeline.FetchFailureLeavesTableUntouched | pipeline.py:34-35 | a non-200 status fails the run, and the table keeps whatever it held |
| Pipeline.NoMatchRaises | pipeline.py:129-130 | a header with no mapped column makes the run raise (at the projection when no conversion raised before), and the table keeps whatever it held |
| Pipeline.AmbiguousTimestampsRaise | pipeline.py:63-66 | a cleaned header holding `start` or `end` twice makes both readings raise at the conversion, naming `start` first, and the table keeps whatever it held |
| Pipeline.RepeatedStartRaises | pipeline.py:44-66 | the export with header `Start;start` raises at line 64, whatever its rows |
| Pipeline.MatchProjects | pipeline.py:128-130 | a header holding some source name projects successfully |
| Pipeline.ZeroRowsComplete | pipeline.py:151-152 | with mapped columns, no repeated `start` or `end`, and no rows, the insert is skipped and the run completes without changing the table |
| Pipeline.StatementForHeader | pipeline.py:138-141 | for a header with a mapped column, the destinations contain no duplicate, are all table columns, and the statement reads back as them with one `%s` each |
| Pipeline.InsertedUnfolds | pipeline.py:128-156 | for any column map, an inserting run had no repeated `start` or `end` and has a non-empty projection. It submits the statement built from the projection's destinations. Its batch holds one tuple per cleaned row, each reading the projected cells. Afterwards the table holds exactly that batch |
| Pipeline.InsertedRun | pipeline.py:128-156 | in an inserting run, the cleaned header holds `start` and `end` at most once each, and the kept names are exactly the mapped names in the cleaned header. The destinations contain no duplicate and are table columns. The statement reads back as the destinations with one `%s` each. The batch holds one tuple per row, in order, each entry being that row's cleaned cell. Afterwards the table holds exactly that batch |
| Pipeline.AsWrittenZeroRowsRaise | pipeline.py:145-152 | as written, an export with a mapped column, no repeated `start` or `end`, and no rows raises at the preview rather than completing, while the intended run completes |
| Pipeline.AsWrittenEmptyExport | pipeline.py:145 | the export with the one column `Start` and no rows raises as written, while the intended run ends with nothing to insert |
| Pipeline.AsWrittenAgreesWithRows | pipeline.py:143-156 | with at least one row the two readings give the same outcome |

## Left out

- The HTTP fetch, its credentials and the export URL (pipeline.py:13-16, 32-36) are I/O. The status code is a parameter of the run.
- Loading the environment (pipeline.py:10-23) is configuration I/O.
- `pd.read_csv` (pipeline.py:41) is not modelled. The run takes the already parsed header and rows. Dropping malformed lines and inferring dtypes are therefore not modelled either.
- `pd.to_datetime` is a parameter, a partial parser from raw text to an abstract instant. Its formats and time zones are not modelled.
- The database connection, the DDL, `execute_batch`, the commit and the close (pipeline.py:72-104, 154-159) are database I/O. Their effect is reduced to `TableAfter`. The drop, create and insert share one transaction, and only line 155 commits it. So the table either keeps its old content or holds exactly the batch.
- The insert on line 154 is assumed to succeed for every batch, and the parser is applied to each cell on its own. So the model does not capture three ways line 154 can raise, each leaving nothing committed:
  - an empty or unparseable `start`/`end` value becomes pandas' `NaT`, which psycopg2 sends as the literal `'NaT'`, and PostgreSQL rejects it;
  - a repeated mapped column other than `start`/`end` (raw `Gender;gender`) makes `row.get` return several values, which psycopg2 cannot adapt;
  - a value the database refuses for its column type.
- `pd.to_datetime` (pandas 2 and later) infers one format per column from its first non-null value, so whether one cell parses can depend on the other cells. The model's parser sees one cell at a time.
- The console output (pipeline.py:32, 36, 54-58, 104, 132-133, 144-145, 152, 156) is left out. The exception is that line 145 indexes row 0, which is part of `RunAsWritten`.
- Header.Lower: lower-cases ASCII letters only, whereas pandas' `str.lower` also folds non-ASCII letters.
- Frame.Get: a header whose cleaned form repeats a name makes pandas return several values for that name. The model reads the first occurrence instead. A repeated `start` or `end` never gets this far: the conversion on lines 64 and 66 raises first, and the model has an outcome for that.
- Frame.Value: a missing cell is a single `Null`. The distinction between `None`, `NaN` and `NaT` is not modelled.
- PostgreSQL folds unquoted identifiers such as `Met_mental_health_professional` to lower case. The model treats names as plain text.

The zero-row case needs care. Line 152 prints "Nothing to insert", so a run with no data rows was meant to complete. The model follows the code:

- the preview on pipeline.py:145 raises first (see Findings);
- even with the intended order, a run that skips the insert never reaches the commit on line 155, so the table is left as it was before the run.

## Findings

| source | as written | input that shows it | evidently intended | confidence | as-written member | corrected member |
|---|---|---|---|---|---|---|
| pipeline.py:145 | The preview `df.iloc[0]` runs before the zero-row check on line 151, so an export with no data rows raises `IndexError` and the skip on lines 151-152 is never reached. | a fetched export with header `Start` and no data rows | skip the insert and complete | not executed | Pipeline.AsWrittenEmptyExport | Pipeline.ZeroRowsComplete |
