/**
 * The text of the parameterised insert statement (pipeline.py:138-141), and a
 * reader that takes such a statement apart again.
 */
module Sql {
  import opened Wrappers

  /** pipeline.py:26-27. */
  const SCHEMA_NAME: string := "mental_health"
  const TABLE_NAME: string := "mental_health_wellbeing"

  /** The fixed pieces of the triple-quoted f-string of pipeline.py:138-141. */
  const INSERT_HEAD: string := "\n    INSERT INTO " + SCHEMA_NAME + "." + TABLE_NAME + " ("
  const VALUES_HEAD: string := ")\n    VALUES ("
  const INSERT_TAIL: string := ")\n"

  /** The separator both lists are joined with. */
  const SEPARATOR: string := ", "

  /** The driver's positional parameter marker. */
  const PLACEHOLDER: string := "%s"

  /** Python's `sep.join(parts)`. */
  function Join(parts: seq<string>, sep: string): string {
    if parts == [] then ""
    else if |parts| == 1 then parts[0]
    else parts[0] + sep + Join(parts[1..], sep)
  }

  /** Python's `[x] * n`. */
  function Repeat(x: string, n: nat): (r: seq<string>)
    ensures |r| == n
    ensures forall i :: 0 <= i < n ==> r[i] == x
  {
    if n == 0 then [] else [x] + Repeat(x, n - 1)
  }

  /** The column list of the statement: the destination names joined by `", "`. */
  function ColumnList(destinations: seq<string>): string {
    Join(destinations, SEPARATOR)
  }

  /** `', '.join(['%s'] * n)`: one placeholder per column. */
  function Placeholders(n: nat): string {
    Join(Repeat(PLACEHOLDER, n), SEPARATOR)
  }

  /** `insert_query` of pipeline.py:138-141 for the given destination columns. */
  function InsertQuery(destinations: seq<string>): string {
    INSERT_HEAD + ColumnList(destinations) + VALUES_HEAD + Placeholders(|destinations|) + INSERT_TAIL
  }

  // ---------------------------------------------------------------------------
  // Reading a statement back
  // ---------------------------------------------------------------------------

  /** Python's `s.split(d)` for a one-character separator `d`. */
  function Split(s: string, d: char): (r: seq<string>)
    ensures |r| >= 1
  {
    if s == [] then [""]
    else
      var rest := Split(s[1..], d);
      if s[0] == d then [""] + rest else [[s[0]] + rest[0]] + rest[1..]
  }

  /** Removes the one blank that a `", "` separator leaves at the front of each later field. */
  function DropBlank(fields: seq<string>): seq<string> {
    if fields == [] then []
    else
      var f := fields[0];
      [if f != [] && f[0] == ' ' then f[1..] else f] + DropBlank(fields[1..])
  }

  /** Splits a `", "`-separated list into its fields. */
  function SplitList(s: string): seq<string> {
    var pieces := Split(s, ',');
    [pieces[0]] + DropBlank(pieces[1..])
  }

  /** The longest prefix of `s` that does not contain `c`. */
  function TakeUntil(s: string, c: char): (r: string)
    ensures |r| <= |s| && r == s[..|r|] && c !in r
    ensures |r| < |s| ==> s[|r|] == c
  {
    if s == [] || s[0] == c then [] else [s[0]] + TakeUntil(s[1..], c)
  }

  /**
   * Takes a statement apart into its column list and its value list, or
   * `None` when it does not have the shape of pipeline.py:138-141.
   */
  function ParseInsert(q: string): Option<(seq<string>, seq<string>)> {
    if |q| < |INSERT_HEAD| || q[..|INSERT_HEAD|] != INSERT_HEAD then None
    else
      var body := q[|INSERT_HEAD|..];
      var columns := TakeUntil(body, ')');
      var after := body[|columns|..];
      if |after| < |VALUES_HEAD| || after[..|VALUES_HEAD|] != VALUES_HEAD then None
      else
        var rest := after[|VALUES_HEAD|..];
        var values := TakeUntil(rest, ')');
        if rest[|values|..] != INSERT_TAIL then None
        else Some((SplitList(columns), SplitList(values)))
  }

  // ---------------------------------------------------------------------------
  // Lemmas
  // ---------------------------------------------------------------------------

  lemma {:induction false} SplitWithoutSeparator(s: string, d: char)
    requires d !in s
    ensures Split(s, d) == [s]
  {
    if s != [] {
      SplitWithoutSeparator(s[1..], d);
      assert s == [s[0]] + s[1..];
    }
  }

  lemma {:induction false} SplitAtFirstSeparator(a: string, b: string, d: char)
    requires d !in a
    ensures Split(a + [d] + b, d) == [a] + Split(b, d)
  {
    if a == [] {
      assert a + [d] + b == [d] + b;
      assert ([d] + b)[1..] == b;
    } else {
      assert (a + [d] + b)[1..] == a[1..] + [d] + b;
      SplitAtFirstSeparator(a[1..], b, d);
      assert a == [a[0]] + a[1..];
    }
  }

  /** Each element with a blank in front. */
  function Blanked(xs: seq<string>): seq<string> {
    if xs == [] then [] else [" " + xs[0]] + Blanked(xs[1..])
  }

  lemma {:induction false} DropBlankOfBlanked(xs: seq<string>)
    ensures DropBlank(Blanked(xs)) == xs
  {
    if xs != [] {
      DropBlankOfBlanked(xs[1..]);
      assert (" " + xs[0])[1..] == xs[0];
    }
  }

  lemma {:induction false} SplitJoin(xs: seq<string>)
    requires xs != [] && forall x :: x in xs ==> ',' !in x
    ensures Split(Join(xs, SEPARATOR), ',') == [xs[0]] + Blanked(xs[1..])
  {
    if |xs| == 1 {
      SplitWithoutSeparator(xs[0], ',');
    } else {
      var tail := Join(xs[1..], SEPARATOR);
      assert Join(xs, SEPARATOR) == xs[0] + [','] + ([' '] + tail);
      SplitAtFirstSeparator(xs[0], [' '] + tail, ',');
      SplitJoin(xs[1..]);
      var p := Split(tail, ',');
      assert ([' '] + tail)[1..] == tail;
      assert Split([' '] + tail, ',') == [[' '] + p[0]] + p[1..];
      assert xs[1..][1..] == xs[2..];
    }
  }

  /** A `", "`-joined list of comma-free names reads back as the same names. */
  lemma SplitListJoin(xs: seq<string>)
    requires xs != [] && forall x :: x in xs ==> ',' !in x
    ensures SplitList(Join(xs, SEPARATOR)) == xs
  {
    SplitJoin(xs);
    var pieces := Split(Join(xs, SEPARATOR), ',');
    assert pieces[1..] == Blanked(xs[1..]);
    DropBlankOfBlanked(xs[1..]);
  }

  lemma {:induction false} JoinAvoids(xs: seq<string>, sep: string, c: char)
    requires c !in sep && forall x :: x in xs ==> c !in x
    ensures c !in Join(xs, sep)
  {
    if |xs| > 1 {
      JoinAvoids(xs[1..], sep, c);
    }
  }

  lemma {:induction false} TakeUntilStops(a: string, b: string, c: char)
    requires c !in a && b != [] && b[0] == c
    ensures TakeUntil(a + b, c) == a
  {
    if a == [] {
      assert a + b == b;
    } else {
      assert (a + b)[1..] == a[1..] + b;
      TakeUntilStops(a[1..], b, c);
    }
  }

  /** The reader finds the two lists between the fixed pieces of the statement. */
  lemma ParseInsertParts(columns: string, values: string)
    requires ')' !in columns && ')' !in values
    ensures ParseInsert(INSERT_HEAD + columns + VALUES_HEAD + values + INSERT_TAIL)
         == Some((SplitList(columns), SplitList(values)))
  {
    var q := INSERT_HEAD + columns + VALUES_HEAD + values + INSERT_TAIL;
    assert q == INSERT_HEAD + (columns + (VALUES_HEAD + (values + INSERT_TAIL)));
    var body := q[|INSERT_HEAD|..];
    assert body == columns + (VALUES_HEAD + (values + INSERT_TAIL));
    TakeUntilStops(columns, VALUES_HEAD + (values + INSERT_TAIL), ')');
    var after := body[|columns|..];
    assert after == VALUES_HEAD + (values + INSERT_TAIL);
    var rest := after[|VALUES_HEAD|..];
    assert rest == values + INSERT_TAIL;
    TakeUntilStops(values, INSERT_TAIL, ')');
  }

  /**
   * The statement built from non-empty destination names without `','` or
   * `')'` reads back as exactly those names, in order, with one `%s` for each.
   */
  lemma ParseInsertQuery(destinations: seq<string>)
    requires destinations != []
    requires forall d :: d in destinations ==> ',' !in d && ')' !in d
    ensures ParseInsert(InsertQuery(destinations))
         == Some((destinations, Repeat(PLACEHOLDER, |destinations|)))
  {
    var columns, values := ColumnList(destinations), Placeholders(|destinations|);
    ListsReadBack(destinations);
    assert InsertQuery(destinations) == INSERT_HEAD + columns + VALUES_HEAD + values + INSERT_TAIL;
    ParseInsertParts(columns, values);
  }

  lemma ListsReadBack(destinations: seq<string>)
    requires destinations != []
    requires forall d :: d in destinations ==> ',' !in d && ')' !in d
    ensures ')' !in ColumnList(destinations) && ')' !in Placeholders(|destinations|)
    ensures SplitList(ColumnList(destinations)) == destinations
    ensures SplitList(Placeholders(|destinations|)) == Repeat(PLACEHOLDER, |destinations|)
  {
    ColumnListReadsBack(destinations);
    PlaceholdersReadBack(|destinations|);
  }

  lemma ColumnListReadsBack(destinations: seq<string>)
    requires destinations != []
    requires forall d :: d in destinations ==> ',' !in d && ')' !in d
    ensures ')' !in ColumnList(destinations)
    ensures SplitList(ColumnList(destinations)) == destinations
  {
    JoinAvoids(destinations, SEPARATOR, ')');
    SplitListJoin(destinations);
  }

  lemma PlaceholdersReadBack(n: nat)
    requires n > 0
    ensures ')' !in Placeholders(n)
    ensures SplitList(Placeholders(n)) == Repeat(PLACEHOLDER, n)
  {
    var marks := Repeat(PLACEHOLDER, n);
    assert forall x :: x in marks ==> x == PLACEHOLDER;
    JoinAvoids(marks, SEPARATOR, ')');
    SplitListJoin(marks);
  }

  /** Column and value lists always have the same number of fields. */
  lemma InsertQueryArity(destinations: seq<string>)
    requires destinations != []
    requires forall d :: d in destinations ==> ',' !in d && ')' !in d
    ensures ParseInsert(InsertQuery(destinations)).Some?
    ensures |ParseInsert(InsertQuery(destinations)).value.0|
         == |ParseInsert(InsertQuery(destinations)).value.1|
  {
    ParseInsertQuery(destinations);
  }
}
