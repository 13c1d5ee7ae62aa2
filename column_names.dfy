/** Column-label normalisation of the cleaner: each label is stripped of surrounding
    whitespace, lower-cased and has its spaces replaced by underscores
    (`col.strip().lower().replace(' ', '_')`). */
module ColumnNames {

  predicate IsSpace(c: char) {
    c == ' ' || '\t' <= c <= '\r' || '\U{1C}' <= c <= '\U{1F}' || c == '\U{85}' || c == '\U{A0}' ||
    c == '\U{1680}' || '\U{2000}' <= c <= '\U{200A}' || c == '\U{2028}' || c == '\U{2029}' ||
    c == '\U{202F}' || c == '\U{205F}' || c == '\U{3000}'
  }

  predicate IsUpper(c: char) {
    'A' <= c <= 'Z'
  }

  /** Lower-casing of one character, for the ASCII letters. */
  function LowerChar(c: char): (d: char)
    ensures !IsUpper(d)
    ensures IsSpace(d) <==> IsSpace(c)
    ensures !IsUpper(c) ==> d == c
  {
    if IsUpper(c) then (c as int + 32) as char else c
  }

  /** `s.lower()`. */
  function Lower(s: string): (r: string)
    ensures |r| == |s|
    ensures forall i :: 0 <= i < |r| ==> !IsUpper(r[i])
    ensures forall i :: 0 <= i < |r| ==> r[i] == LowerChar(s[i])
  {
    seq(|s|, i requires 0 <= i < |s| => LowerChar(s[i]))
  }

  /** `s.replace(' ', '_')`. */
  function ReplaceSpaces(s: string): (r: string)
    ensures |r| == |s|
    ensures ' ' !in r
    ensures forall i :: 0 <= i < |r| ==> r[i] == if s[i] == ' ' then '_' else s[i]
  {
    seq(|s|, i requires 0 <= i < |s| => if s[i] == ' ' then '_' else s[i])
  }

  /** `s.lstrip()`: the suffix of `s` left after its leading whitespace. */
  function TrimStart(s: string): (r: string)
    ensures |r| <= |s| && r == s[|s| - |r|..]
    ensures r == [] || !IsSpace(r[0])
    ensures forall i :: 0 <= i < |s| - |r| ==> IsSpace(s[i])
  {
    if |s| > 0 && IsSpace(s[0]) then TrimStart(s[1..]) else s
  }

  /** `s.rstrip()`: the prefix of `s` left after its trailing whitespace. */
  function TrimEnd(s: string): (r: string)
    ensures |r| <= |s| && r == s[..|r|]
    ensures r == [] || !IsSpace(r[|r| - 1])
    ensures forall i :: |r| <= i < |s| ==> IsSpace(s[i])
  {
    if |s| > 0 && IsSpace(s[|s| - 1]) then TrimEnd(s[..|s| - 1]) else s
  }

  /** `s.strip()`: `s` with its leading whitespace, then its trailing whitespace,
      removed; what remains neither starts nor ends with whitespace. */
  function Strip(s: string): (r: string)
    ensures |r| <= |s|
    ensures r == [] || (!IsSpace(r[0]) && !IsSpace(r[|r| - 1]))
    ensures |r| <= |TrimStart(s)| && r == TrimStart(s)[..|r|]
    ensures forall i :: |r| <= i < |TrimStart(s)| ==> IsSpace(TrimStart(s)[i])
  {
    var start := TrimStart(s);
    var r := TrimEnd(start);
    assert r != [] ==> r[0] == start[0];
    r
  }

  /** Neither lower-casing nor replacing spaces puts whitespace at either end. */
  lemma EndsStayNonSpace(stripped: string)
    requires stripped == [] || (!IsSpace(stripped[0]) && !IsSpace(stripped[|stripped| - 1]))
    ensures var r := ReplaceSpaces(Lower(stripped)); r == [] || (!IsSpace(r[0]) && !IsSpace(r[|r| - 1]))
  {
    var lower := Lower(stripped);
    var r := ReplaceSpaces(lower);
    if r != [] {
      var n := |r| - 1;
      assert lower[0] == LowerChar(stripped[0]) && lower[n] == LowerChar(stripped[n]);
      assert !IsSpace(lower[0]) && !IsSpace(lower[n]);
      assert IsSpace(' ');
      assert r[0] == lower[0] && r[n] == lower[n];
    }
  }

  /** The label a raw column label becomes. */
  function NormalizeName(s: string): (r: string)
    ensures |r| <= |s|
    ensures ' ' !in r
    ensures forall i :: 0 <= i < |r| ==> !IsUpper(r[i])
    ensures r == [] || (!IsSpace(r[0]) && !IsSpace(r[|r| - 1]))
  {
    var stripped := Strip(s);
    EndsStayNonSpace(stripped);
    ReplaceSpaces(Lower(stripped))
  }

  /** Every label normalised, in order (`df.columns = [... for col in df.columns]`). */
  function NormalizeAll(names: seq<string>): (r: seq<string>)
    ensures |r| == |names|
    ensures forall i :: 0 <= i < |names| ==> r[i] == NormalizeName(names[i])
  {
    seq(|names|, i requires 0 <= i < |names| => NormalizeName(names[i]))
  }

  /** A label counts as normalised when it has no surrounding whitespace, no
      upper-case letter and no space. */
  predicate IsNormalized(s: string) {
    (s == [] || (!IsSpace(s[0]) && !IsSpace(s[|s| - 1]))) &&
    ' ' !in s &&
    forall i :: 0 <= i < |s| ==> !IsUpper(s[i])
  }

  lemma StripWithoutEndSpaces(s: string)
    requires s == [] || (!IsSpace(s[0]) && !IsSpace(s[|s| - 1]))
    ensures Strip(s) == s
  {
    assert TrimStart(s) == s;
    assert TrimEnd(s) == s;
  }

  lemma LowerWithoutUpper(s: string)
    requires forall i :: 0 <= i < |s| ==> !IsUpper(s[i])
    ensures Lower(s) == s
  {
    forall i | 0 <= i < |s| ensures Lower(s)[i] == s[i] {
      assert !IsUpper(s[i]);
    }
  }

  lemma ReplaceWithoutSpaces(s: string)
    requires ' ' !in s
    ensures ReplaceSpaces(s) == s
  {
    forall i | 0 <= i < |s| ensures ReplaceSpaces(s)[i] == s[i] {
      assert s[i] != ' ';
    }
  }

  /** Normalisation leaves normalised labels alone, and its results are exactly the
      normalised labels. */
  lemma NormalizedIsFixedPoint(s: string)
    ensures IsNormalized(s) <==> NormalizeName(s) == s
  {
    if IsNormalized(s) {
      StripWithoutEndSpaces(s);
      LowerWithoutUpper(s);
      ReplaceWithoutSpaces(s);
    }
  }

  /** Labels that are each already normalised come through `NormalizeAll` unchanged. */
  lemma NormalizeAllFixes(names: seq<string>)
    requires forall i :: 0 <= i < |names| ==> IsNormalized(names[i])
    ensures NormalizeAll(names) == names
  {
    forall i | 0 <= i < |names| ensures NormalizeName(names[i]) == names[i] {
      NormalizedIsFixedPoint(names[i]);
    }
  }

  /** Normalising twice is normalising once. */
  lemma NormalizeNameIdempotent(s: string)
    ensures NormalizeName(NormalizeName(s)) == NormalizeName(s)
  {
    NormalizedIsFixedPoint(NormalizeName(s));
  }

  lemma NormalizeAllIdempotent(names: seq<string>)
    ensures NormalizeAll(NormalizeAll(names)) == NormalizeAll(names)
  {
    forall i | 0 <= i < |names| ensures NormalizeName(NormalizeName(names[i])) == NormalizeName(names[i]) {
      NormalizeNameIdempotent(names[i]);
    }
  }
}
