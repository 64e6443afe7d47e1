/** The chart component's pure helpers (portfolio-client/src/components/LineChart.tsx):
    `formatLabel`, which turns parameter names into axis and legend text, and
    the reduce that keeps only the data sets of the selected parameters. */
module LineChart {
  import opened Options
  import opened Strings
  import opened Datapoint

  // ---------------------------------------------------------------------
  // String operations used by `formatLabel`.
  // ---------------------------------------------------------------------

  /** `s.replace(/_/g, " ")`: every underscore becomes a space. */
  function ReplaceUnderscores(s: string): (r: string)
    ensures |r| == |s|
    ensures '_' !in r
    ensures forall i :: 0 <= i < |s| && s[i] == '_' ==> r[i] == ' '
    ensures forall i :: 0 <= i < |s| && s[i] != '_' ==> r[i] == s[i]
  {
    seq(|s|, i requires 0 <= i < |s| => if s[i] == '_' then ' ' else s[i])
  }

  /** `pat` occurs in `s` starting at position `i`. */
  predicate OccursAt(s: string, pat: string, i: int) {
    0 <= i && i + |pat| <= |s| && s[i..i + |pat|] == pat
  }

  /** `s.indexOf(pat, from)`: the first position at or after `from` where
      `pat` occurs. */
  function IndexFrom(s: string, pat: string, from: nat): (r: Option<nat>)
    ensures r.Some? ==> from <= r.value && OccursAt(s, pat, r.value)
    ensures forall j :: from <= j && (r.None? || j < r.value) ==> !OccursAt(s, pat, j)
    decreases |s| - from
  {
    if from + |pat| > |s| then None
    else if s[from..from + |pat|] == pat then Some(from)
    else IndexFrom(s, pat, from + 1)
  }

  /** `pat` occurs at `i` and nowhere before it. */
  predicate FirstOccurrence(s: string, pat: string, i: int) {
    OccursAt(s, pat, i) && forall j :: 0 <= j < i ==> !OccursAt(s, pat, j)
  }

  /** `s.replace(pat, rep)` with a string pattern: only the first occurrence
      of `pat` is replaced; without one, `s` is returned unchanged. JavaScript
      expands `$&`, `$1` and `$$` in a replacement string; the model is exact
      only for a replacement without '$', such as the empty one `formatLabel`
      passes. */
  function ReplaceFirst(s: string, pat: string, rep: string): (r: string)
    ensures (forall j :: !OccursAt(s, pat, j)) ==> r == s
    ensures forall i :: FirstOccurrence(s, pat, i) ==> r == s[..i] + rep + s[i + |pat|..]
    ensures |r| == |s| || |r| == |s| - |pat| + |rep|
  {
    match IndexFrom(s, pat, 0)
    case None => s
    case Some(i) => s[..i] + rep + s[i + |pat|..]
  }

  /** With a first occurrence at `i`, exactly that occurrence is replaced. */
  lemma ReplaceFirstAt(s: string, pat: string, rep: string, i: int)
    requires FirstOccurrence(s, pat, i)
    ensures ReplaceFirst(s, pat, rep) == s[..i] + rep + s[i + |pat|..]
  {
    var r := IndexFrom(s, pat, 0);
    assert r.Some?;
    assert r.value == i;
  }

  /** Without an occurrence the string is unchanged. */
  lemma ReplaceFirstAbsent(s: string, pat: string, rep: string)
    requires forall j :: !OccursAt(s, pat, j)
    ensures ReplaceFirst(s, pat, rep) == s
  {
  }

  /** The characters `String.prototype.trim` strips: ECMAScript WhiteSpace
      and LineTerminator code points. */
  predicate IsJsWhitespace(c: char) {
    || c == '\t' || c == '\n' || c == '\U{B}' || c == '\U{C}' || c == '\r'
    || c == ' ' || c == '\U{A0}' || c == '\U{1680}'
    || ('\U{2000}' <= c <= '\U{200A}')
    || c == '\U{2028}' || c == '\U{2029}' || c == '\U{202F}' || c == '\U{205F}'
    || c == '\U{3000}' || c == '\U{FEFF}'
  }

  predicate AllWhitespace(s: string) {
    forall k :: 0 <= k < |s| ==> IsJsWhitespace(s[k])
  }

  /** `s` is `r` with whitespace padding: `a` characters before it, the rest after. */
  predicate PaddedBy(s: string, r: string, a: int) {
    && 0 <= a && a + |r| <= |s|
    && s[a..a + |r|] == r
    && AllWhitespace(s[..a])
    && AllWhitespace(s[a + |r|..])
  }

  /** `s` without its leading whitespace. */
  function TrimStart(s: string): (r: string)
    ensures |r| <= |s|
    ensures |r| > 0 ==> !IsJsWhitespace(r[0])
    ensures r == s[|s| - |r|..] && AllWhitespace(s[..|s| - |r|])
  {
    if |s| > 0 && IsJsWhitespace(s[0]) then
      var r := TrimStart(s[1..]);
      var m := |s| - |r|;
      assert s[m..] == s[1..][m - 1..];
      forall k | 0 <= k < m
        ensures IsJsWhitespace(s[..m][k])
      {
        if k > 0 {
          assert s[..m][k] == s[1..][..m - 1][k - 1];
        }
      }
      r
    else
      s
  }

  /** `s` without its trailing whitespace. */
  function TrimEnd(s: string): (r: string)
    ensures |r| <= |s|
    ensures |r| > 0 ==> !IsJsWhitespace(r[|r| - 1])
    ensures r == s[..|r|] && AllWhitespace(s[|r|..])
  {
    if |s| > 0 && IsJsWhitespace(s[|s| - 1]) then
      var n := |s| - 1;
      var r := TrimEnd(s[..n]);
      assert s[..|r|] == s[..n][..|r|];
      forall k | |r| <= k < |s|
        ensures IsJsWhitespace(s[k])
      {
        if k < n {
          assert s[k] == s[..n][|r|..][k - |r|];
        }
      }
      r
    else
      s
  }

  /** `s.trim()`: leading and trailing whitespace removed, nothing else. */
  function Trim(s: string): (r: string)
    ensures |r| > 0 ==> !IsJsWhitespace(r[0]) && !IsJsWhitespace(r[|r| - 1])
    ensures exists a :: PaddedBy(s, r, a)
  {
    var t := TrimStart(s);
    var r := TrimEnd(t);
    var a := |s| - |t|;
    assert PaddedBy(s, r, a) by {
      assert s[a..a + |r|] == t[..|r|];
      assert s[a + |r|..] == t[|r|..];
    }
    r
  }

  /** `toUpperCase` on one character, for the ASCII letters. */
  function UpperChar(c: char): (u: char)
    ensures 'a' <= c <= 'z' ==> 'A' <= u <= 'Z' && u as int - c as int == 'A' as int - 'a' as int
    ensures !('a' <= c <= 'z') ==> u == c
  {
    if 'a' <= c <= 'z' then (c as int - 'a' as int + 'A' as int) as char else c
  }

  /** `s.charAt(0).toUpperCase() + s.slice(1)` */
  function Capitalize(s: string): (r: string)
    ensures |r| == |s|
    ensures |s| > 0 ==> r[0] == UpperChar(s[0])
    ensures |s| > 0 ==> r[1..] == s[1..]
  {
    if |s| == 0 then "" else [UpperChar(s[0])] + s[1..]
  }

  // ---------------------------------------------------------------------
  // `formatLabel`
  // ---------------------------------------------------------------------

  /** One parameter name made readable: underscores to spaces, the first
      "2m" dropped, trimmed, first character upper-cased. The result has no
      underscore, is never longer than the name, and has no whitespace at
      either end. */
  function CleanParameter(param: string): (r: string)
    ensures '_' !in r
    ensures |r| <= |param|
    ensures |r| > 0 ==> !IsJsWhitespace(r[0]) && !IsJsWhitespace(r[|r| - 1])
  {
    var spaced := ReplaceUnderscores(param);
    var removed := ReplaceFirst(spaced, "2m", "");
    var trimmed := Trim(removed);
    ReplaceFirstDeletes(spaced, "2m");
    TrimKeeps(removed);
    CleanSteps(param, spaced, removed, trimmed);
    Capitalize(trimmed)
  }

  /** The stages of `CleanParameter` only ever drop characters, and
      capitalising keeps both the absence of underscores and the trimmed ends. */
  lemma CleanSteps(param: string, spaced: string, removed: string, trimmed: string)
    requires |spaced| == |param| && '_' !in spaced
    requires |removed| <= |spaced| && forall c :: c in removed ==> c in spaced
    requires |trimmed| <= |removed| && forall c :: c in trimmed ==> c in removed
    requires |trimmed| > 0 ==> !IsJsWhitespace(trimmed[0]) && !IsJsWhitespace(trimmed[|trimmed| - 1])
    ensures var r := Capitalize(trimmed);
      && '_' !in r
      && |r| <= |param|
      && (|r| > 0 ==> !IsJsWhitespace(r[0]) && !IsJsWhitespace(r[|r| - 1]))
  {
    CapitalizeKeepsUnderscoreFree(trimmed);
    CapitalizeKeepsEnds(trimmed);
  }

  /** `formatLabel`: the cleaned names joined by ", ". No label contains an
      underscore; no names give "" and one name gives its cleaned form. */
  function FormatLabel(params: seq<string>): (r: string)
    ensures |params| == 0 ==> r == ""
    ensures |params| == 1 ==> r == CleanParameter(params[0])
    ensures '_' !in r
  {
    var parts := MapStrings(CleanParameter, params);
    JoinAvoids(parts, ", ", '_');
    Join(parts, ", ")
  }

  /** `xs.map(f)` */
  function MapStrings(f: string -> string, xs: seq<string>): (r: seq<string>)
    ensures |r| == |xs|
    ensures forall i :: 0 <= i < |xs| ==> r[i] == f(xs[i])
  {
    seq(|xs|, i requires 0 <= i < |xs| => f(xs[i]))
  }

  /** Mapping over one more string adds its image at the end. */
  lemma MapStringsSnoc(f: string -> string, xs: seq<string>, x: string)
    ensures MapStrings(f, xs + [x]) == MapStrings(f, xs) + [f(x)]
  {
  }

  // ---------------------------------------------------------------------
  // `formatLabel` properties.
  // ---------------------------------------------------------------------

  /** Deleting the first occurrence of a pattern only removes characters. */
  lemma ReplaceFirstDeletes(s: string, pat: string)
    ensures |ReplaceFirst(s, pat, "")| <= |s|
    ensures forall c :: c in ReplaceFirst(s, pat, "") ==> c in s
  {
    match IndexFrom(s, pat, 0)
    case None =>
    case Some(i) =>
      assert ReplaceFirst(s, pat, "") == s[..i] + s[i + |pat|..];
  }

  /** Trimming only removes characters. */
  lemma TrimKeeps(s: string)
    ensures |Trim(s)| <= |s|
    ensures forall c :: c in Trim(s) ==> c in s
  {
    var r := Trim(s);
    var a :| PaddedBy(s, r, a);
    forall c | c in r
      ensures c in s
    {
      var k :| 0 <= k < |r| && r[k] == c;
      assert r[k] == s[a..a + |r|][k] == s[a + k];
    }
  }

  lemma CapitalizeKeepsUnderscoreFree(s: string)
    requires '_' !in s
    ensures '_' !in Capitalize(s)
  {
    var r := Capitalize(s);
    forall k | 0 <= k < |r|
      ensures r[k] != '_'
    {
      if k > 0 {
        assert r[k] == r[1..][k - 1] == s[1..][k - 1] == s[k];
      }
    }
  }

  /** Capitalizing a string with no whitespace at its ends keeps it so. */
  lemma CapitalizeKeepsEnds(s: string)
    requires |s| > 0 ==> !IsJsWhitespace(s[0]) && !IsJsWhitespace(s[|s| - 1])
    ensures var r := Capitalize(s);
      |r| > 0 ==> !IsJsWhitespace(r[0]) && !IsJsWhitespace(r[|r| - 1])
  {
    var r := Capitalize(s);
    if |r| > 1 {
      assert r[|r| - 1] == r[1..][|r| - 2] == s[1..][|s| - 2] == s[|s| - 1];
    }
  }

  /** One name gives its cleaned form, with no separator. */
  lemma LabelOfOne(param: string)
    ensures FormatLabel([param]) == CleanParameter(param)
  {
  }

  /** Each further name adds ", " and its cleaned form. */
  lemma LabelSnoc(params: seq<string>, param: string)
    requires |params| > 0
    ensures FormatLabel(params + [param]) == FormatLabel(params) + ", " + CleanParameter(param)
  {
    MapStringsSnoc(CleanParameter, params, param);
    JoinSnoc(MapStrings(CleanParameter, params), CleanParameter(param), ", ");
  }

  /** Only the first occurrence goes: a later one survives, shifted left. */
  lemma LaterOccurrenceSurvives(s: string, pat: string, i: nat, j: nat)
    requires FirstOccurrence(s, pat, i)
    requires i + |pat| <= j && OccursAt(s, pat, j)
    ensures OccursAt(ReplaceFirst(s, pat, ""), pat, j - |pat|)
  {
    ReplaceFirstAt(s, pat, "", i);
    assert s[..i] + "" + s[i + |pat|..] == s[..i] + s[i + |pat|..];
    CutKeepsLater(s, pat, i, j);
  }

  /** Cutting `|pat|` characters at `i` shifts an occurrence behind the cut left. */
  lemma CutKeepsLater(s: string, pat: string, i: nat, j: nat)
    requires i + |pat| <= j && OccursAt(s, pat, j)
    ensures OccursAt(s[..i] + s[i + |pat|..], pat, j - |pat|)
  {
    var r := s[..i] + s[i + |pat|..];
    assert r[j - |pat|..j] == s[j..j + |pat|];
  }

  /** Removing the first "2m" when it starts at `i`. */
  lemma RemoveFirstAt(s: string, i: nat)
    requires OccursAt(s, "2m", i)
    requires forall k :: 0 <= k < i ==> s[k] != '2'
    ensures ReplaceFirst(s, "2m", "") == s[..i] + s[i + 2..]
  {
    forall k | 0 <= k < i
      ensures !OccursAt(s, "2m", k)
    {
      assert s[k..k + 2][0] == s[k];
    }
    ReplaceFirstAt(s, "2m", "", i);
  }

  lemma NoOccurrence(s: string, pat: string)
    requires |pat| > 0 && pat[0] !in s
    ensures ReplaceFirst(s, pat, "") == s
  {
    forall j
      ensures !OccursAt(s, pat, j)
    {
      if 0 <= j && j + |pat| <= |s| {
        assert s[j..j + |pat|][0] == s[j];
      }
    }
    ReplaceFirstAbsent(s, pat, "");
  }

  // ---------------------------------------------------------------------
  // The selected-parameter filter.
  // ---------------------------------------------------------------------

  /** `a` can be obtained from `b` by deleting elements. */
  predicate IsSubsequence<T(==)>(a: seq<T>, b: seq<T>)
    decreases |b|
  {
    || |a| == 0
    || (|b| > 0 && |a| <= |b|
        && ((a[|a| - 1] == b[|b| - 1] && IsSubsequence(a[..|a| - 1], b[..|b| - 1]))
            || IsSubsequence(a, b[..|b| - 1])))
  }

  /** The `useEffect` reduce: keep, in order, the data sets whose parameter
      is in `weather` (the selected parameters). */
  function FilterSelected(data: seq<DataSet>, weather: seq<string>): (r: seq<DataSet>)
    ensures IsSubsequence(r, data)
    ensures forall i :: 0 <= i < |r| ==> r[i].param in weather
    ensures forall d :: multiset(r)[d] == (if d.param in weather then multiset(data)[d] else 0)
  {
    if |data| == 0 then []
    else
      var n := |data| - 1;
      assert data == data[..n] + [data[n]];
      var acc := FilterSelected(data[..n], weather);
      if data[n].param in weather then
        assert (acc + [data[n]])[..|acc|] == acc;
        acc + [data[n]]
      else
        acc
  }

  /** A data set is shown exactly when its parameter is selected. */
  lemma ShownIffSelected(data: seq<DataSet>, weather: seq<string>, d: DataSet)
    ensures d in FilterSelected(data, weather) <==> d in data && d.param in weather
  {
    var r := FilterSelected(data, weather);
    assert d in r <==> multiset(r)[d] > 0;
    assert d in data <==> multiset(data)[d] > 0;
  }
}
