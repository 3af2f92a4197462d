/**
 * Header normalisation of the survey export (pipeline.py:44-51).
 *
 * Every column name goes through the pandas string-method chain
 * `.str.strip().str.lower().str.replace(" ", "_").str.replace("&", "and")
 * .str.replace("-", "_")`, in that order, and the header as a whole is the
 * element-wise image of that chain.
 */
module Header {

  /** The characters Python's `str.isspace` accepts, which `str.strip()` removes. */
  predicate IsSpace(c: char) {
    var n := c as int;
    (9 <= n <= 13) || (28 <= n <= 32) || n == 0x85 || n == 0xA0 || n == 0x1680
    || (0x2000 <= n <= 0x200A) || n == 0x2028 || n == 0x2029 || n == 0x202F
    || n == 0x205F || n == 0x3000
  }

  predicate IsUpper(c: char) {
    'A' <= c <= 'Z'
  }

  /** ASCII lower-casing of one character. */
  function LowerChar(c: char): (d: char)
    ensures !IsUpper(d)
    ensures IsSpace(d) == IsSpace(c)
    ensures !IsUpper(c) ==> d == c
  {
    if IsUpper(c) then (c as int + 32) as char else c
  }

  /** No whitespace at either end of `s`. */
  predicate NoEdgeSpace(s: string) {
    s == [] || (!IsSpace(s[0]) && !IsSpace(s[|s| - 1]))
  }

  /** Drops the leading whitespace of `s`. */
  function TrimStart(s: string): (r: string)
    ensures |r| <= |s| && r == s[|s| - |r|..]
    ensures forall i :: 0 <= i < |s| - |r| ==> IsSpace(s[i])
    ensures r == [] || !IsSpace(r[0])
  {
    if s == [] || !IsSpace(s[0]) then s else TrimStart(s[1..])
  }

  /** Drops the trailing whitespace of `s`. */
  function TrimEnd(s: string): (r: string)
    ensures |r| <= |s| && r == s[..|r|]
    ensures forall i :: |r| <= i < |s| ==> IsSpace(s[i])
    ensures r == [] || !IsSpace(r[|r| - 1])
  {
    if s == [] || !IsSpace(s[|s| - 1]) then s else TrimEnd(s[..|s| - 1])
  }

  /**
   * `r` is what is left of `s` once its first `a` characters and everything
   * after them beyond `|r|` characters are dropped, all of them whitespace.
   */
  predicate TrimmedFrom(s: string, r: string, a: nat) {
    && a + |r| <= |s| && r == s[a..a + |r|]
    && (forall i :: 0 <= i < a ==> IsSpace(s[i]))
    && (forall i :: a + |r| <= i < |s| ==> IsSpace(s[i]))
  }

  /** Python's `str.strip()` with no argument: it drops whitespace at both ends and keeps the middle. */
  function Strip(s: string): (r: string)
    ensures NoEdgeSpace(r)
    ensures NoEdgeSpace(s) ==> r == s
    ensures exists a :: TrimmedFrom(s, r, a)
  {
    var t := TrimStart(s);
    StripIsTrimmed(s, t, TrimEnd(t));
    TrimEnd(t)
  }

  /** What `TrimStart` and `TrimEnd` promise, put together. */
  lemma StripIsTrimmed(s: string, t: string, r: string)
    requires |t| <= |s| && t == s[|s| - |t|..] && (forall i :: 0 <= i < |s| - |t| ==> IsSpace(s[i]))
    requires |r| <= |t| && r == t[..|r|] && (forall i :: |r| <= i < |t| ==> IsSpace(t[i]))
    ensures TrimmedFrom(s, r, |s| - |t|)
  {
    var a := |s| - |t|;
    DropThenTake(s, a, |r|);
    forall i | a + |r| <= i < |s| ensures IsSpace(s[i]) {
      assert s[i] == t[i - a];
    }
    assert TrimmedFrom(s, r, a);
  }

  lemma DropThenTake<T>(s: seq<T>, a: nat, n: nat)
    requires a + n <= |s|
    ensures s[a..][..n] == s[a..a + n]
  {
  }



  /** ASCII `str.lower()`: every letter A-Z becomes a-z, nothing else changes. */
  function Lower(s: string): string
  {
    if s == [] then [] else [LowerChar(s[0])] + Lower(s[1..])
  }

  /** Lower-casing works character by character and keeps the length. */
  lemma {:induction false} LowerAt(s: string)
    ensures |Lower(s)| == |s|
    ensures forall i :: 0 <= i < |s| ==> Lower(s)[i] == LowerChar(s[i])
  {
    if s != [] {
      LowerAt(s[1..]);
    }
  }

  /** `str.replace(pat, sub)` for a one-character `pat`: every occurrence is replaced. */
  function Replace(s: string, pat: char, sub: string): string
  {
    if s == [] then []
    else (if s[0] == pat then sub else [s[0]]) + Replace(s[1..], pat, sub)
  }

  /** The whole normalisation chain of pipeline.py:45-50 applied to one column name. */
  function Normalize(name: string): string
  {
    Replace(Replace(Replace(Lower(Strip(name)), ' ', "_"), '&', "and"), '-', "_")
  }

  /**
   * A normalised name has no whitespace at either end and contains no `' '`,
   * `'&'`, `'-'` or ASCII upper-case letter.
   */
  lemma NormalizeIsNormalized(name: string)
    ensures IsNormalized(Normalize(name))
  {
    NormalizeSteps(name, Lower(Strip(name)), Normalize(name));
  }

  /** Why the chain's output is normalised: each step keeps the edges and removes one kind of character. */
  lemma NormalizeSteps(name: string, lowered: string, r: string)
    requires lowered == Lower(Strip(name))
    requires r == Replace(Replace(Replace(lowered, ' ', "_"), '&', "and"), '-', "_")
    ensures IsNormalized(r)
  {
    LowerStep(Strip(name));
    var spaced := Replace(lowered, ' ', "_");
    SpaceStep(lowered);
    var ampersands := Replace(spaced, '&', "and");
    AmpersandStep(spaced);
    HyphenStep(ampersands);
  }

  lemma LowerStep(stripped: string)
    requires NoEdgeSpace(stripped)
    ensures NoEdgeSpace(Lower(stripped)) && Avoids(Lower(stripped), [])
  {
    LowerKeepsEdges(stripped);
    LowerAvoidsUpper(stripped);
  }

  lemma SpaceStep(lowered: string)
    requires NoEdgeSpace(lowered) && Avoids(lowered, [])
    ensures NoEdgeSpace(Replace(lowered, ' ', "_")) && Avoids(Replace(lowered, ' ', "_"), [' '])
  {
    ReplaceKeepsEdges(lowered, ' ', "_");
    ReplaceAvoids(lowered, ' ', "_", []);
  }

  lemma AmpersandStep(spaced: string)
    requires NoEdgeSpace(spaced) && Avoids(spaced, [' '])
    ensures NoEdgeSpace(Replace(spaced, '&', "and")) && Avoids(Replace(spaced, '&', "and"), [' ', '&'])
  {
    ReplaceKeepsEdges(spaced, '&', "and");
    ReplaceAvoids(spaced, '&', "and", [' ']);
  }

  lemma HyphenStep(ampersands: string)
    requires NoEdgeSpace(ampersands) && Avoids(ampersands, [' ', '&'])
    ensures NoEdgeSpace(Replace(ampersands, '-', "_")) && Avoids(Replace(ampersands, '-', "_"), [' ', '&', '-'])
  {
    ReplaceKeepsEdges(ampersands, '-', "_");
    ReplaceAvoids(ampersands, '-', "_", [' ', '&']);
    assert [' ', '&'] + ['-'] == [' ', '&', '-'];
  }

  /** No upper-case letter and no character of `bad` occurs in `s`. */
  predicate Avoids(s: string, bad: seq<char>) {
    forall c :: c in s ==> !IsUpper(c) && c !in bad
  }

  lemma LowerAvoidsUpper(s: string)
    ensures Avoids(Lower(s), [])
  {
    var lowered := Lower(s);
    LowerAt(s);
    forall c | c in lowered ensures !IsUpper(c) {
      var i :| 0 <= i < |lowered| && lowered[i] == c;
    }
  }

  /** Replacing a character that does not occur leaves the string as it is. */
  lemma {:induction false} ReplaceAbsent(s: string, pat: char, sub: string)
    requires pat !in s
    ensures Replace(s, pat, sub) == s
  {
    if s != [] {
      ReplaceAbsent(s[1..], pat, sub);
    }
  }

  lemma {:induction false} ReplaceAvoids(s: string, pat: char, sub: string, bad: seq<char>)
    requires Avoids(s, bad) && Avoids(sub, bad + [pat])
    ensures Avoids(Replace(s, pat, sub), bad + [pat])
  {
    if s != [] {
      ReplaceAvoids(s[1..], pat, sub, bad);
    }
  }

  /** The names the chain produces: trimmed, and free of upper case, `' '`, `'&'` and `'-'`. */
  predicate IsNormalized(s: string) {
    NoEdgeSpace(s) && Avoids(s, [' ', '&', '-'])
  }

  /** The header row after `df.columns = ...` on pipeline.py:44. */
  function NormalizeHeader(columns: seq<string>): (r: seq<string>)
    ensures |r| == |columns|
    ensures forall i :: 0 <= i < |columns| ==> r[i] == Normalize(columns[i])
  {
    if columns == [] then [] else [Normalize(columns[0])] + NormalizeHeader(columns[1..])
  }

  lemma LowerKeepsEdges(s: string)
    requires NoEdgeSpace(s)
    ensures NoEdgeSpace(Lower(s))
  {
    LowerAt(s);
  }

  lemma {:induction false} ReplaceAppend(a: string, b: string, pat: char, sub: string)
    ensures Replace(a + b, pat, sub) == Replace(a, pat, sub) + Replace(b, pat, sub)
  {
    if a == [] {
      assert a + b == b;
    } else {
      assert (a + b)[0] == a[0];
      assert (a + b)[1..] == a[1..] + b;
      ReplaceAppend(a[1..], b, pat, sub);
    }
  }

  lemma ReplaceKeepsEdges(s: string, pat: char, sub: string)
    requires NoEdgeSpace(s) && sub != [] && NoEdgeSpace(sub)
    ensures NoEdgeSpace(Replace(s, pat, sub))
  {
    if s != [] {
      var n := |s| - 1;
      assert s == s[..n] + [s[n]];
      ReplaceAppend(s[..n], [s[n]], pat, sub);
      assert Replace([s[n]], pat, sub) == (if s[n] == pat then sub else [s[n]]) + Replace([], pat, sub);
      assert s == [s[0]] + s[1..];
      ReplaceAppend([s[0]], s[1..], pat, sub);
      assert Replace([s[0]], pat, sub) == (if s[0] == pat then sub else [s[0]]) + Replace([], pat, sub);
    }
  }

  /** A name that is already normalised passes through the chain unchanged. */
  lemma NormalizeFixesNormalized(s: string)
    requires IsNormalized(s)
    ensures Normalize(s) == s
  {
    assert Strip(s) == s;
    LowerAt(s);
    assert Lower(s) == s;
    NormalizeWithoutReplacements(s, s);
  }

  /** A name is normalised exactly when the chain leaves it unchanged. */
  lemma NormalizedIffFixpoint(s: string)
    ensures IsNormalized(s) <==> Normalize(s) == s
  {
    NormalizeIsNormalized(s);
    if IsNormalized(s) {
      NormalizeFixesNormalized(s);
    }
  }

  /** Applying the chain twice gives the same name as applying it once. */
  lemma NormalizeIdempotent(s: string)
    ensures Normalize(Normalize(s)) == Normalize(s)
  {
    NormalizeIsNormalized(s);
    NormalizeFixesNormalized(Normalize(s));
  }

  /** Re-normalising an already normalised header row changes nothing. */
  lemma {:induction false} NormalizeHeaderIdempotent(columns: seq<string>)
    ensures NormalizeHeader(NormalizeHeader(columns)) == NormalizeHeader(columns)
  {
    var once := NormalizeHeader(columns);
    forall i | 0 <= i < |columns|
      ensures NormalizeHeader(once)[i] == once[i]
    {
      NormalizeIdempotent(columns[i]);
    }
  }

  /** When trimming and lower-casing already leave a normalised name, the replacements change nothing. */
  lemma NormalizeWithoutReplacements(name: string, lowered: string)
    requires Lower(Strip(name)) == lowered && IsNormalized(lowered)
    ensures Normalize(name) == lowered
  {
    ReplaceAbsent(lowered, ' ', "_");
    ReplaceAbsent(lowered, '&', "and");
    ReplaceAbsent(lowered, '-', "_");
  }

  /** `s` contains none of the three characters the chain replaces. */
  predicate Plain(s: string) {
    ' ' !in s && '&' !in s && '-' !in s
  }

  /**
   * A trimmed name that lower-cases to two plain words around one space
   * becomes those words joined by `'_'`.
   */
  lemma NormalizeAroundSpace(name: string, a: string, b: string)
    requires NoEdgeSpace(name) && Lower(name) == a + " " + b
    requires Plain(a) && Plain(b)
    ensures Normalize(name) == a + "_" + b
  {
    assert Strip(name) == name;
    ReplaceAppend(a + " ", b, ' ', "_");
    ReplaceAppend(a, " ", ' ', "_");
    ReplaceAbsent(a, ' ', "_");
    ReplaceAbsent(b, ' ', "_");
    assert Replace(" ", ' ', "_") == "_";
    var spaced := a + "_" + b;
    assert Replace(Lower(name), ' ', "_") == spaced;
    assert '&' !in spaced && '-' !in spaced;
    ReplaceAbsent(spaced, '&', "and");
    ReplaceAbsent(spaced, '-', "_");
  }

  /** `"Age Range"`, a column of the survey export, becomes `"age_range"`. */
  lemma NormalizeAgeRange(name: string)
    requires name == "Age Range"
    ensures Normalize(name) == "age_range"
  {
    assert NoEdgeSpace(name) by {
      assert name[0] == 'A' && name[|name| - 1] == 'e';
    }
    AgeRangeLowered(name);
    assert "age range" == "age" + " " + "range";
    assert Plain("age") && Plain("range");
    NormalizeAroundSpace(name, "age", "range");
    assert "age" + "_" + "range" == "age_range";
  }

  lemma AgeRangeLowered(name: string)
    requires name == "Age Range"
    ensures Lower(name) == "age range"
  {
    LowerAt(name);
  }

  /** `"Start"` becomes `"start"`, the name the timestamp coercion looks for. */
  lemma NormalizeStart()
    ensures Normalize("Start") == "start"
  {
    StartStripped();
    StartLowered();
    StartIsNormalized();
    NormalizeWithoutReplacements("Start", "start");
  }

  lemma StartIsNormalized()
    ensures IsNormalized("start")
  {
    forall c | c in "start" ensures !IsUpper(c) && c !in [' ', '&', '-'] {
      assert c in ['s', 't', 'a', 'r'];
    }
  }

  lemma StartStripped()
    ensures Strip("Start") == "Start"
  {
    assert NoEdgeSpace("Start") by {
      assert !IsSpace('S') && !IsSpace('t');
    }
  }

  lemma StartLowered()
    ensures Lower("Start") == "start"
  {
    LowerAt("Start");
  }
}
