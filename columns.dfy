/**
 * The static column mapping and the projection of the normalised header onto
 * it (pipeline.py:109-130).
 */
module Columns {
  import opened Wrappers
  import opened Header

  /**
   * An ordered source-name to destination-name table. A Python dict keeps its
   * insertion order, so `COLUMN_MAP.keys()` is the order of the pairs here.
   */
  type ColumnMap = seq<(string, string)>

  function Keys(m: ColumnMap): seq<string> {
    seq(|m|, i requires 0 <= i < |m| => m[i].0)
  }

  function Values(m: ColumnMap): seq<string> {
    seq(|m|, i requires 0 <= i < |m| => m[i].1)
  }

  predicate Distinct<T(==)>(s: seq<T>) {
    forall i, j :: 0 <= i < j < |s| ==> s[i] != s[j]
  }

  /** No source name and no destination name occurs twice. */
  predicate WellFormed(m: ColumnMap) {
    Distinct(Keys(m)) && Distinct(Values(m))
  }

  /** `COLUMN_MAP` of pipeline.py:109-125, with the mixed-case destination kept literally. */
  const COLUMN_MAP: ColumnMap := [
    ("start", "start_time"),
    ("end", "end_time"),
    ("age_range", "age_range"),
    ("gender", "gender"),
    ("location", "location"),
    ("stressed_or_overwhelmed", "stressed_or_overwhelmed"),
    ("source_of_stress", "source_of_stress"),
    ("mental_health_issue_experienced", "mental_health_issue_experienced"),
    ("rate_your_current_mental_health", "rate_your_current_mental_health"),
    ("cope_with_stress_or_emotional_challenges", "cope_with_stress_or_emotional_challenges"),
    ("met_mental_health_professional", "Met_mental_health_professional"),
    ("seeking_support", "seeking_support"),
    ("interested_in_attending_therapy_sessions", "interested_in_attending_therapy_sessions"),
    ("joining_mental_health_support_group", "joining_mental_health_support_group"),
    ("mental_health_support_you_need", "mental_health_support_you_need")
  ]

  /** The data columns of the `CREATE TABLE` statement (pipeline.py:87-101), after `id`. */
  const TABLE_COLUMNS: seq<string> := [
    "start_time", "end_time", "age_range", "gender", "location",
    "stressed_or_overwhelmed", "source_of_stress", "mental_health_issue_experienced",
    "rate_your_current_mental_health", "cope_with_stress_or_emotional_challenges",
    "Met_mental_health_professional", "seeking_support",
    "interested_in_attending_therapy_sessions", "joining_mental_health_support_group",
    "mental_health_support_you_need"
  ]

  /** `a` is `b` with some elements left out, the rest kept in order. */
  predicate IsSubsequence<T(==)>(a: seq<T>, b: seq<T>)
    decreases |b|
  {
    if a == [] then true
    else if b == [] then false
    else if a[0] == b[0] then IsSubsequence(a[1..], b[1..])
    else IsSubsequence(a, b[1..])
  }

  /**
   * `existing_columns` of pipeline.py:128: the map's keys, in the map's order,
   * that occur in the (normalised) header.
   */
  function ExistingColumns(m: ColumnMap, header: seq<string>): (r: seq<string>)
    ensures forall c :: c in r <==> c in Keys(m) && c in header
    ensures IsSubsequence(r, Keys(m))
  {
    if m == [] then []
    else
      KeysOfTail(m);
      var rest := ExistingColumns(m[1..], header);
      if m[0].0 in header then [m[0].0] + rest else rest
  }

  /** The error pipeline.py:129-130 raises when no expected column exists. */
  datatype ProjectionError = NoExpectedColumns

  /** The projection together with its empty check (pipeline.py:128-130). */
  function Project(m: ColumnMap, header: seq<string>): (r: Result<seq<string>, ProjectionError>)
    ensures r.Err? <==> forall k :: k in Keys(m) ==> k !in header
    ensures r.Ok? ==> r.value != [] && forall c :: c in r.value <==> c in Keys(m) && c in header
  {
    var existing := ExistingColumns(m, header);
    if existing == [] then Err(NoExpectedColumns)
    else assert existing[0] in existing; Ok(existing)
  }

  /** `m[k]` for a key of the map: the destination paired with `k`. */
  function Lookup(m: ColumnMap, k: string): (v: string)
    requires k in Keys(m)
    ensures (k, v) in m
  {
    KeysOfTail(m);
    if m[0].0 == k then m[0].1 else Lookup(m[1..], k)
  }

  /** `[COLUMN_MAP[col] for col in existing_columns]` of pipeline.py:139. */
  function DestinationColumns(m: ColumnMap, cols: seq<string>): (r: seq<string>)
    requires forall c :: c in cols ==> c in Keys(m)
    ensures |r| == |cols|
    ensures forall i :: 0 <= i < |cols| ==> (cols[i], r[i]) in m
  {
    if cols == [] then [] else [Lookup(m, cols[0])] + DestinationColumns(m, cols[1..])
  }

  // ---------------------------------------------------------------------------
  // Properties of the projection
  // ---------------------------------------------------------------------------

  lemma {:induction false} SubsequenceMembers<T>(a: seq<T>, b: seq<T>)
    requires IsSubsequence(a, b)
    ensures forall c :: c in a ==> c in b
    decreases |b|
  {
    if a != [] && b != [] {
      if a[0] == b[0] {
        SubsequenceMembers(a[1..], b[1..]);
        assert a == [a[0]] + a[1..];
      } else {
        SubsequenceMembers(a, b[1..]);
      }
    }
  }

  lemma {:induction false} KeysOfTail(m: ColumnMap)
    requires m != []
    ensures Keys(m) == [m[0].0] + Keys(m[1..])
    ensures Values(m) == [m[0].1] + Values(m[1..])
    ensures Distinct(Keys(m)) ==> Distinct(Keys(m[1..])) && m[0].0 !in Keys(m[1..])
    ensures Distinct(Values(m)) ==> Distinct(Values(m[1..])) && m[0].1 !in Values(m[1..])
  {
    var ks, vs := Keys(m), Values(m);
    assert Keys(m[1..]) == ks[1..];
    assert Values(m[1..]) == vs[1..];
    assert ks == [ks[0]] + ks[1..];
    assert vs == [vs[0]] + vs[1..];
  }

  /** The projection has no duplicates when the map has none. */
  lemma {:induction false} ExistingColumnsDistinct(m: ColumnMap, header: seq<string>)
    requires WellFormed(m)
    ensures Distinct(ExistingColumns(m, header))
  {
    if m != [] {
      KeysOfTail(m);
      ExistingColumnsDistinct(m[1..], header);
      var rest := ExistingColumns(m[1..], header);
      if m[0].0 in header {
        var r := [m[0].0] + rest;
        forall i, j | 0 <= i < j < |r| ensures r[i] != r[j] {
          if i == 0 {
            assert r[j] == rest[j - 1];
          } else {
            assert r[i] == rest[i - 1] && r[j] == rest[j - 1];
          }
        }
      }
    }
  }

  /**
   * The projection is the ONLY sequence that lists, in the map's order and
   * without gaps or extras, the keys that occur in the header.
   */
  lemma {:induction false} ExistingColumnsUnique(m: ColumnMap, header: seq<string>, s: seq<string>)
    requires Distinct(Keys(m))
    requires IsSubsequence(s, Keys(m))
    requires forall c :: c in s <==> c in Keys(m) && c in header
    ensures s == ExistingColumns(m, header)
  {
    var r := ExistingColumns(m, header);
    if m != [] {
      var k := m[0].0;
      KeysOfTail(m);
      if s != [] && s[0] == k {
        SubsequenceMembers(s[1..], Keys(m[1..]));
        assert s == [s[0]] + s[1..];
        ExistingColumnsUnique(m[1..], header, s[1..]);
      } else {
        SubsequenceMembers(s, Keys(m[1..]));
        ExistingColumnsUnique(m[1..], header, s);
      }
    }
  }

  /** Reordering the header (or repeating names) does not change the projection. */
  lemma {:induction false} ExistingColumnsIgnoreHeaderOrder(m: ColumnMap, h1: seq<string>, h2: seq<string>)
    requires forall c :: c in h1 <==> c in h2
    ensures ExistingColumns(m, h1) == ExistingColumns(m, h2)
  {
    if m != [] {
      ExistingColumnsIgnoreHeaderOrder(m[1..], h1, h2);
    }
  }

  lemma {:induction false} LookupInValues(m: ColumnMap, k: string)
    requires k in Keys(m)
    ensures Lookup(m, k) in Values(m)
  {
    KeysOfTail(m);
    if m[0].0 != k {
      LookupInValues(m[1..], k);
    }
  }

  /** Different keys of a well-formed map have different destinations. */
  lemma {:induction false} LookupInjective(m: ColumnMap, k1: string, k2: string)
    requires WellFormed(m) && k1 in Keys(m) && k2 in Keys(m)
    requires Lookup(m, k1) == Lookup(m, k2)
    ensures k1 == k2
  {
    KeysOfTail(m);
    if m[0].0 == k1 && m[0].0 != k2 {
      LookupInValues(m[1..], k2);
    } else if m[0].0 != k1 && m[0].0 == k2 {
      LookupInValues(m[1..], k1);
    } else if m[0].0 != k1 {
      LookupInjective(m[1..], k1, k2);
    }
  }

  /** No destination name appears twice in the insert column list. */
  lemma DestinationsDistinct(m: ColumnMap, cols: seq<string>)
    requires WellFormed(m) && Distinct(cols)
    requires forall c :: c in cols ==> c in Keys(m)
    ensures Distinct(DestinationColumns(m, cols))
  {
    var d := DestinationColumns(m, cols);
    forall i, j | 0 <= i < j < |d| ensures d[i] != d[j] {
      DestinationAt(m, cols, i);
      DestinationAt(m, cols, j);
      if d[i] == d[j] {
        LookupInjective(m, cols[i], cols[j]);
      }
    }
  }

  /** Position `i` of the destination list is the map's entry for `cols[i]`. */
  lemma {:induction false} DestinationAt(m: ColumnMap, cols: seq<string>, i: nat)
    requires forall c :: c in cols ==> c in Keys(m)
    requires i < |cols|
    ensures DestinationColumns(m, cols)[i] == Lookup(m, cols[i])
  {
    if i > 0 {
      DestinationAt(m, cols[1..], i - 1);
    }
  }

  /** A sequence is a subsequence of itself followed by anything. */
  lemma {:induction false} PrefixIsSubsequence<T>(a: seq<T>, b: seq<T>)
    ensures IsSubsequence(a, a + b)
  {
    if a != [] {
      assert (a + b)[1..] == a[1..] + b;
      PrefixIsSubsequence(a[1..], b);
    }
  }

  /**
   * An export whose normalised header is `start`, `end`, `age_range`,
   * `gender` keeps those four columns, in that order.
   */
  lemma ExistingColumnsExample()
    ensures ExistingColumns(COLUMN_MAP, ["start", "end", "age_range", "gender"])
         == ["start", "end", "age_range", "gender"]
  {
    var s := ["start", "end", "age_range", "gender"];
    ColumnMapKeys();
    ColumnMapKeysDistinct();
    assert Keys(COLUMN_MAP) == s + Keys(COLUMN_MAP)[4..];
    PrefixIsSubsequence(s, Keys(COLUMN_MAP)[4..]);
    ExistingColumnsUnique(COLUMN_MAP, s, s);
  }

  // ---------------------------------------------------------------------------
  // Facts about the constant table
  // ---------------------------------------------------------------------------

  lemma ColumnMapKeys()
    ensures Keys(COLUMN_MAP) == [
      "start", "end", "age_range", "gender", "location", "stressed_or_overwhelmed",
      "source_of_stress", "mental_health_issue_experienced", "rate_your_current_mental_health",
      "cope_with_stress_or_emotional_challenges", "met_mental_health_professional",
      "seeking_support", "interested_in_attending_therapy_sessions",
      "joining_mental_health_support_group", "mental_health_support_you_need"]
  {
  }

  /** The map's destinations are, in order, the data columns the table is created with. */
  lemma ColumnMapValuesAreTableColumns()
    ensures Values(COLUMN_MAP) == TABLE_COLUMNS
  {
  }

  // The facts below about the fifteen literal names are proved in small
  // pieces on purpose. Comparing all pairs of names character by character,
  // or checking every character of every name in one lemma, is more than the
  // verifier handles quickly. So distinctness goes through one integer per
  // name (its fingerprint, written out in KEY_PRINTS and VALUE_PRINTS and
  // checked against the names by KeyPrints and ValuePrints), and the
  // character checks are split into the groups SnakeCaseKeys0 to
  // SnakeCaseKeys8.

  /** A number that tells the names of the table apart: the length and the third character. */
  function Fingerprint(name: string): int {
    if |name| < 3 then |name| else |name| * 0x11_0000 + name[2] as int
  }

  /** Names whose fingerprints are pairwise different are pairwise different. */
  lemma DistinctByFingerprint(s: seq<string>, prints: seq<int>)
    requires |prints| == |s| && Distinct(prints)
    requires forall i :: 0 <= i < |s| ==> Fingerprint(s[i]) == prints[i]
    ensures Distinct(s)
  {
  }

  /** No source name and no destination name of `COLUMN_MAP` occurs twice. */
  lemma ColumnMapWellFormed()
    ensures WellFormed(COLUMN_MAP)
  {
    ColumnMapKeysDistinct();
    ColumnMapValuesDistinct();
  }

  /** The fingerprints of the source names and of the destination names, in map order. */
  const KEY_PRINTS: seq<int> := [
    5570657, 3342436, 10027109, 6684782, 8912995, 25624690, 17825909, 34537582,
    34537588, 44564592, 33423476, 16711781, 44564596, 38994025, 33423470]
  const VALUE_PRINTS: seq<int> := [
    11141217, 8912996, 10027109, 6684782, 8912995, 25624690, 17825909, 34537582,
    34537588, 44564592, 33423476, 16711781, 44564596, 38994025, 33423470]

  lemma ColumnMapKeysDistinct()
    ensures Distinct(Keys(COLUMN_MAP))
  {
    KeyPrints();
    PrintsDistinct();
    DistinctByFingerprint(Keys(COLUMN_MAP), KEY_PRINTS);
  }

  lemma ColumnMapValuesDistinct()
    ensures Distinct(Values(COLUMN_MAP))
  {
    ColumnMapValuesAreTableColumns();
    ValuePrints();
    PrintsDistinct();
    DistinctByFingerprint(TABLE_COLUMNS, VALUE_PRINTS);
  }

  lemma KeyPrints()
    ensures |Keys(COLUMN_MAP)| == |KEY_PRINTS|
    ensures forall i :: 0 <= i < |KEY_PRINTS| ==> Fingerprint(Keys(COLUMN_MAP)[i]) == KEY_PRINTS[i]
  {
    ColumnMapKeys();
  }

  lemma ValuePrints()
    ensures |TABLE_COLUMNS| == |VALUE_PRINTS|
    ensures forall i :: 0 <= i < |VALUE_PRINTS| ==> Fingerprint(TABLE_COLUMNS[i]) == VALUE_PRINTS[i]
  {
  }

  lemma PrintsDistinct()
    ensures Distinct(KEY_PRINTS) && Distinct(VALUE_PRINTS)
  {
  }

  /** Every character is a lower-case ASCII letter or `'_'`. */
  predicate IsSnakeCase(name: string) {
    forall i :: 0 <= i < |name| ==> 'a' <= name[i] <= 'z' || name[i] == '_'
  }

  lemma SnakeCaseIsNormalized(name: string)
    requires IsSnakeCase(name)
    ensures IsNormalized(name)
  {
    forall c | c in name ensures !IsUpper(c) && c !in [' ', '&', '-'] {
      var i :| 0 <= i < |name| && name[i] == c;
    }
  }

  lemma ColumnMapKeysSnakeCase()
    ensures forall k :: k in Keys(COLUMN_MAP) ==> IsSnakeCase(k)
  {
    ColumnMapKeys();
    SnakeCaseKeys0();
    SnakeCaseKeys1();
    SnakeCaseKeys2();
    SnakeCaseKeys3();
    SnakeCaseKeys4();
    SnakeCaseKeys5();
    SnakeCaseKeys6();
    SnakeCaseKeys7();
    SnakeCaseKeys8();
  }

  lemma SnakeCaseKeys0()
    ensures IsSnakeCase("start") && IsSnakeCase("end") && IsSnakeCase("age_range") && IsSnakeCase("gender") && IsSnakeCase("location")
  {
  }

  lemma SnakeCaseKeys1()
    ensures IsSnakeCase("stressed_or_overwhelmed") && IsSnakeCase("source_of_stress")
  {
  }

  lemma SnakeCaseKeys2()
    ensures IsSnakeCase("mental_health_issue_experienced")
  {
  }

  lemma SnakeCaseKeys3()
    ensures IsSnakeCase("rate_your_current_mental_health")
  {
  }

  lemma SnakeCaseKeys4()
    ensures IsSnakeCase("cope_with_stress_or_emotional_challenges")
  {
  }

  lemma SnakeCaseKeys5()
    ensures IsSnakeCase("met_mental_health_professional")
  {
  }

  lemma SnakeCaseKeys6()
    ensures IsSnakeCase("seeking_support") && IsSnakeCase("joining_mental_health_support_group")
  {
  }

  lemma SnakeCaseKeys7()
    ensures IsSnakeCase("interested_in_attending_therapy_sessions")
  {
  }

  lemma SnakeCaseKeys8()
    ensures IsSnakeCase("mental_health_support_you_need")
  {
  }

  /** Every source name of `COLUMN_MAP` is already in normalised form, so it can match a header. */
  lemma ColumnMapKeysNormalized()
    ensures forall k :: k in Keys(COLUMN_MAP) ==> Normalize(k) == k
  {
    ColumnMapKeysSnakeCase();
    forall k | k in Keys(COLUMN_MAP) ensures Normalize(k) == k {
      SnakeCaseIsNormalized(k);
      NormalizeFixesNormalized(k);
    }
  }

  /** Every character is an ASCII letter or `'_'`: a plain SQL identifier. */
  predicate IsIdentifier(name: string) {
    forall i :: 0 <= i < |name| ==> 'a' <= name[i] <= 'z' || 'A' <= name[i] <= 'Z' || name[i] == '_'
  }

  lemma SnakeCaseIsIdentifier(name: string)
    requires IsSnakeCase(name)
    ensures IsIdentifier(name)
  {
  }

  /**
   * Every destination name of the table is a plain identifier: twelve of them
   * are source names of the map, already in snake case, and the other three
   * are checked here.
   */
  lemma TableColumnsAreIdentifiers()
    ensures forall d :: d in TABLE_COLUMNS ==> IsIdentifier(d)
  {
    ColumnMapKeys();
    ColumnMapKeysSnakeCase();
    forall d | d in TABLE_COLUMNS && d in Keys(COLUMN_MAP) ensures IsIdentifier(d) {
      SnakeCaseIsIdentifier(d);
    }
    RenamedColumnsAreIdentifiers();
  }

  lemma RenamedColumnsAreIdentifiers()
    ensures IsIdentifier("start_time") && IsIdentifier("end_time")
    ensures IsIdentifier("Met_mental_health_professional")
  {
  }

  /** Every name in an insert column list built from `COLUMN_MAP` is a column of the created table. */
  lemma DestinationsAreTableColumns(cols: seq<string>)
    requires forall c :: c in cols ==> c in Keys(COLUMN_MAP)
    ensures forall d :: d in DestinationColumns(COLUMN_MAP, cols) ==> d in TABLE_COLUMNS
  {
    ColumnMapValuesAreTableColumns();
    var ds := DestinationColumns(COLUMN_MAP, cols);
    forall d | d in ds ensures d in TABLE_COLUMNS {
      var i :| 0 <= i < |ds| && ds[i] == d;
      var k :| 0 <= k < |COLUMN_MAP| && COLUMN_MAP[k] == (cols[i], d);
      assert Values(COLUMN_MAP)[k] == d;
    }
  }
}
