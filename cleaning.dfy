/** The cleaner, `clean_data` in src/cleaning.py: normalise the column labels,
    drop duplicate rows, fill the two AI columns with the text "None" for
    respondents who said no (and wherever they are missing), coerce the five
    numeric columns and drop the rows where any of them is missing.

    `Clean` is the value-level specification; `CleanData` performs the same steps
    on a `DataFrame` the way the source does and is proved to agree with it. */
module Cleaning {
  import opened Seqs
  import opened Frames
  import opened ColumnNames

  const UsesAi := "uses_ai"
  const ToolsUsed := "ai_tools_used"
  const Purpose := "purpose_of_ai"

  /** The numeric columns, in the order the cleaner coerces them. */
  const NumericColumns: seq<string> :=
    ["age", "study_hours_per_day", "grades_before_ai", "grades_after_ai", "daily_screen_time_hours"]

  /** The text the cleaner writes for "not applicable". */
  const Sentinel: Option<Cell> := Text("None")

  /** `str(uses).lower() == 'no'`: a missing value prints as "nan" and a number as
      its digits, so only a text cell can match. */
  predicate SaidNo(uses: Option<Cell>)
    ensures SaidNo(uses) ==> uses.Some? && uses.value.Str? && |uses.value.text| == 2
  {
    uses.Some? && uses.value.Str? && Lower(uses.value.text) == "no"
  }

  /** The answers that count as "no" are exactly the four spellings of the word in
      upper and lower case. */
  lemma SaidNoSpellings(uses: Option<Cell>)
    ensures SaidNo(uses) <==> uses == Text("no") || uses == Text("No") || uses == Text("nO") || uses == Text("NO")
  {
    if uses.Some? && uses.value.Str? && |uses.value.text| == 2 {
      var s := uses.value.text;
      var l := Lower(s);
      assert l == [LowerChar(s[0]), LowerChar(s[1])];
      if l == "no" {
        assert s[0] == 'n' || s[0] == 'N';
        assert s[1] == 'o' || s[1] == 'O';
        assert s == [s[0], s[1]];
      }
    }
  }

  /** One cell of an AI column after the fill: the sentinel for a respondent who said
      no or where the value is missing, the value itself otherwise. */
  function Filled(uses: Option<Cell>, v: Option<Cell>): Option<Cell> {
    if SaidNo(uses) || v.None? then Sentinel else v
  }

  /** The fill of the column labelled `name`, when both it and `uses_ai` exist. */
  function FillColumn(columns: seq<string>, r: Row, name: string): (f: Row)
    ensures |f| == |r|
  {
    var u := IndexOf(columns, UsesAi);
    var k := IndexOf(columns, name);
    if 0 <= u < |r| && 0 <= k < |r| then r[k := Filled(r[u], r[k])] else r
  }

  /** What the fill promises about column `name` of a row `r` that became `f`. */
  predicate FilledAt(columns: seq<string>, r: Row, f: Row, name: string) {
    var uses := Lookup(columns, r, UsesAi);
    var before := Lookup(columns, r, name);
    var after := Lookup(columns, f, name);
    && after.Some?
    && (SaidNo(uses) ==> after == Sentinel)
    && (before.None? ==> after == Sentinel)
    && (!SaidNo(uses) && before.Some? ==> after == before)
  }

  /** The sentinel fill of one row (src/cleaning.py, the `uses_ai` block). */
  function FillRow(columns: seq<string>, r: Row): (f: Row)
    ensures |f| == |r|
    ensures UsesAi !in columns ==> f == r
    ensures forall j :: 0 <= j < |r| && j != IndexOf(columns, ToolsUsed) && j != IndexOf(columns, Purpose) ==>
              f[j] == r[j]
    ensures |r| == |columns| && UsesAi in columns && ToolsUsed in columns ==> FilledAt(columns, r, f, ToolsUsed)
    ensures |r| == |columns| && UsesAi in columns && Purpose in columns ==> FilledAt(columns, r, f, Purpose)
  {
    var t := IndexOf(columns, ToolsUsed);
    var p := IndexOf(columns, Purpose);
    var u := IndexOf(columns, UsesAi);
    var g := FillColumn(columns, r, ToolsUsed);
    assert 0 <= u ==> u != t && u != p;
    assert 0 <= t && 0 <= p ==> t != p;
    FillColumn(columns, g, Purpose)
  }

  /** `pd.to_numeric(cell, errors='coerce')` for one cell, with number parsing left
      to `parse`: text becomes its number, or missing when it does not parse. */
  function Coerced(c: Option<Cell>, parse: string -> Option<int>): (d: Option<Cell>)
    ensures d.None? || d.value.Num?
    ensures c.Some? && c.value.Num? ==> d == c
    ensures c.None? ==> d.None?
    ensures c.Some? && c.value.Str? ==>
              d == (if parse(c.value.text).Some? then Some(Num(parse(c.value.text).value)) else None)
  {
    match c
    case Some(Str(s)) => if parse(s).Some? then Some(Num(parse(s).value)) else None
    case _ => c
  }

  lemma CoercedIdempotent(c: Option<Cell>, parse: string -> Option<int>)
    ensures Coerced(Coerced(c, parse), parse) == Coerced(c, parse)
  {
  }

  /** The coercion of the column labelled `name`, when it exists. */
  function CoerceColumn(columns: seq<string>, r: Row, name: string, parse: string -> Option<int>): (f: Row)
    ensures |f| == |r|
  {
    var k := IndexOf(columns, name);
    if 0 <= k < |r| then r[k := Coerced(r[k], parse)] else r
  }

  /** A row after the columns `names` have been coerced one after the other. */
  function CoerceThrough(columns: seq<string>, r: Row, parse: string -> Option<int>, names: seq<string>): (f: Row)
    ensures |f| == |r|
    decreases |names|
  {
    if names == [] then r
    else CoerceColumn(columns, CoerceThrough(columns, r, parse, names[..|names| - 1]), names[|names| - 1], parse)
  }

  /** After the columns `names` are coerced one by one, each of them reads its original
      value coerced, and no other column is touched. */
  lemma {:induction false} CoerceThroughSpec(columns: seq<string>, r: Row, parse: string -> Option<int>, names: seq<string>)
    ensures forall n :: n in names ==>
              Lookup(columns, CoerceThrough(columns, r, parse, names), n) == Coerced(Lookup(columns, r, n), parse)
    ensures forall j :: 0 <= j < |r| && (forall n :: n in names ==> j != IndexOf(columns, n)) ==>
              CoerceThrough(columns, r, parse, names)[j] == r[j]
    decreases |names|
  {
    if names != [] {
      var init := names[..|names| - 1];
      var last := names[|names| - 1];
      assert names == init + [last];
      CoerceThroughSpec(columns, r, parse, init);
      var g := CoerceThrough(columns, r, parse, init);
      var f := CoerceThrough(columns, r, parse, names);
      assert f == CoerceColumn(columns, g, last, parse);
      var k := IndexOf(columns, last);
      forall n | n in names ensures Lookup(columns, f, n) == Coerced(Lookup(columns, r, n), parse) {
        if n == last {
          if last in init {
            CoercedIdempotent(Lookup(columns, r, last), parse);
          } else if 0 <= k < |r| {
            assert forall m :: m in init ==> k != IndexOf(columns, m);
          }
        } else {
          assert n in init;
        }
      }
      forall j | 0 <= j < |r| && (forall n :: n in names ==> j != IndexOf(columns, n)) ensures f[j] == r[j] {
        assert forall n :: n in init ==> j != IndexOf(columns, n);
        assert j != k;
      }
    }
  }

  /** The numeric coercion of one row: each numeric column that exists, cell by cell;
      every other column untouched. */
  function CoerceRow(columns: seq<string>, r: Row, parse: string -> Option<int>): (f: Row)
    ensures |f| == |r|
    ensures forall n :: n in NumericColumns ==> Lookup(columns, f, n) == Coerced(Lookup(columns, r, n), parse)
    ensures forall j :: 0 <= j < |r| && (forall n :: n in NumericColumns ==> j != IndexOf(columns, n)) ==> f[j] == r[j]
  {
    CoerceThroughSpec(columns, r, parse, NumericColumns);
    CoerceThrough(columns, r, parse, NumericColumns)
  }

  /** Coercion leaves a row alone when none of its numeric columns holds text. */
  lemma CoerceRowWithoutText(columns: seq<string>, r: Row, parse: string -> Option<int>)
    requires forall n :: n in NumericColumns ==> !(Lookup(columns, r, n).Some? && Lookup(columns, r, n).value.Str?)
    ensures CoerceRow(columns, r, parse) == r
  {
    var f := CoerceRow(columns, r, parse);
    forall j | 0 <= j < |r| ensures f[j] == r[j] {
      if n :| n in NumericColumns && j == IndexOf(columns, n) {
        assert Lookup(columns, f, n) == Lookup(columns, r, n);
      }
    }
  }

  /** What happens to every de-duplicated row: the fill, then the coercion. */
  function Prepare(columns: seq<string>, r: Row, parse: string -> Option<int>): (f: Row)
    ensures |f| == |r|
  {
    CoerceRow(columns, FillRow(columns, r), parse)
  }

  function PrepareAll(columns: seq<string>, rows: seq<Row>, parse: string -> Option<int>): (prepared: seq<Row>)
    ensures |prepared| == |rows|
    ensures forall i :: 0 <= i < |rows| ==> prepared[i] == Prepare(columns, rows[i], parse)
  {
    seq(|rows|, i requires 0 <= i < |rows| => Prepare(columns, rows[i], parse))
  }

  /** The de-duplicated rows of `t`, filled and coerced, under the labels `columns`. */
  function Prepared(t: Table, columns: seq<string>, parse: string -> Option<int>): (prepared: seq<Row>)
    requires WellFormed(t) && |columns| == |t.columns|
    ensures prepared == PrepareAll(columns, KeepFirst(t.rows), parse)
    ensures WellFormed(Table(columns, prepared))
    ensures |prepared| <= |t.rows|
  {
    var deduplicated := KeepFirst(t.rows);
    var prepared := PrepareAll(columns, deduplicated, parse);
    SubsequenceLength(deduplicated, t.rows);
    assert forall r :: r in prepared ==> |r| == |columns| by {
      forall r | r in prepared ensures |r| == |columns| {
        var i :| 0 <= i < |prepared| && prepared[i] == r;
        assert deduplicated[i] in t.rows;
      }
    }
    prepared
  }

  /** Every prepared row comes from an input row. */
  lemma PreparedFromInput(t: Table, columns: seq<string>, parse: string -> Option<int>)
    requires WellFormed(t) && |columns| == |t.columns|
    ensures forall r :: r in Prepared(t, columns, parse) ==> exists r0 :: r0 in t.rows && r == Prepare(columns, r0, parse)
  {
    var deduplicated := KeepFirst(t.rows);
    var prepared := Prepared(t, columns, parse);
    forall r | r in prepared ensures exists r0 :: r0 in t.rows && r == Prepare(columns, r0, parse) {
      var i :| 0 <= i < |prepared| && prepared[i] == r;
      assert deduplicated[i] in t.rows;
    }
  }

  /** Every input row is prepared. */
  lemma PreparedCoversInput(t: Table, columns: seq<string>, parse: string -> Option<int>)
    requires WellFormed(t) && |columns| == |t.columns|
    ensures forall r0 :: r0 in t.rows ==> Prepare(columns, r0, parse) in Prepared(t, columns, parse)
  {
    var deduplicated := KeepFirst(t.rows);
    var prepared := Prepared(t, columns, parse);
    forall r0 | r0 in t.rows ensures Prepare(columns, r0, parse) in prepared {
      var i :| 0 <= i < |t.rows| && t.rows[i] == r0;
      var k :| 0 <= k < |deduplicated| && deduplicated[k] == r0;
      assert prepared[k] == Prepare(columns, r0, parse);
    }
  }

  /** `clean_data(df)` as a value: labels normalised, duplicates dropped, AI columns
      filled, numeric columns coerced, incomplete rows dropped; the KeyError of
      `dropna` when one of the numeric columns does not exist. */
  function Clean(t: Table, parse: string -> Option<int>): (res: Result<Table>)
    requires WellFormed(t)
    ensures res.Err? <==> exists n :: n in NumericColumns && n !in NormalizeAll(t.columns)
    ensures res.Err? ==> (res.error.KeyError? &&
                          forall n :: n in res.error.missing <==> n in NumericColumns && n !in NormalizeAll(t.columns))
    ensures res.Ok? ==> WellFormed(res.value) && res.value.columns == NormalizeAll(t.columns)
    ensures res.Ok? ==> |res.value.rows| <= |t.rows|
    ensures res.Ok? ==> forall r :: r in res.value.rows ==>
              exists r0 :: r0 in t.rows && r == Prepare(res.value.columns, r0, parse)
    ensures res.Ok? ==> forall r :: r in res.value.rows ==> Complete(res.value.columns, r, NumericColumns)
    ensures res.Ok? ==> forall r0 :: r0 in t.rows && Complete(res.value.columns, Prepare(res.value.columns, r0, parse), NumericColumns) ==>
              Prepare(res.value.columns, r0, parse) in res.value.rows
    ensures res.Ok? ==> IsSubsequence(res.value.rows, PrepareAll(NormalizeAll(t.columns), KeepFirst(t.rows), parse))
  {
    var columns := NormalizeAll(t.columns);
    var prepared := Prepared(t, columns, parse);
    PreparedFromInput(t, columns, parse);
    PreparedCoversInput(t, columns, parse);
    var res := DroppedIncomplete(Table(columns, prepared), NumericColumns);
    if res.Ok? then
      SubsequenceLength(res.value.rows, prepared);
      res
    else
      res
  }

  /** A cleaned table holds each complete prepared row exactly as often as the
      de-duplicated, prepared input does, and no other row. */
  lemma CleanCounts(t: Table, parse: string -> Option<int>)
    requires WellFormed(t) && Clean(t, parse).Ok?
    ensures var u := Clean(t, parse).value;
            forall r :: Count(u.rows, r) ==
              (if Complete(u.columns, r, NumericColumns)
               then Count(PrepareAll(NormalizeAll(t.columns), KeepFirst(t.rows), parse), r) else 0)
  {
    var columns := NormalizeAll(t.columns);
    assert Clean(t, parse) == DroppedIncomplete(Table(columns, Prepared(t, columns, parse)), NumericColumns);
  }

  /** Both AI columns that exist hold a value, and the sentinel when `uses_ai` says no. */
  predicate AiColumnsFilled(columns: seq<string>, r: Row) {
    var uses := Lookup(columns, r, UsesAi);
    && (ToolsUsed in columns ==> Lookup(columns, r, ToolsUsed).Some? && (SaidNo(uses) ==> Lookup(columns, r, ToolsUsed) == Sentinel))
    && (Purpose in columns ==> Lookup(columns, r, Purpose).Some? && (SaidNo(uses) ==> Lookup(columns, r, Purpose) == Sentinel))
  }

  /** The coercion that follows the fill leaves `uses_ai` and the two AI columns as
      the fill made them. */
  lemma PrepareFillsAiColumns(columns: seq<string>, r: Row, parse: string -> Option<int>)
    requires |r| == |columns| && UsesAi in columns
    ensures Lookup(columns, Prepare(columns, r, parse), UsesAi) == Lookup(columns, r, UsesAi)
    ensures ToolsUsed in columns ==> FilledAt(columns, r, Prepare(columns, r, parse), ToolsUsed)
    ensures Purpose in columns ==> FilledAt(columns, r, Prepare(columns, r, parse), Purpose)
  {
    var f := FillRow(columns, r);
    CoerceRowKeeps(columns, f, parse, UsesAi);
    CoerceRowKeeps(columns, f, parse, ToolsUsed);
    CoerceRowKeeps(columns, f, parse, Purpose);
  }

  /** Coercion does not touch a column that is not numeric. */
  lemma CoerceRowKeeps(columns: seq<string>, r: Row, parse: string -> Option<int>, name: string)
    requires name !in NumericColumns
    ensures Lookup(columns, CoerceRow(columns, r, parse), name) == Lookup(columns, r, name)
  {
    var k := IndexOf(columns, name);
    if 0 <= k < |r| {
      assert forall n :: n in NumericColumns ==> k != IndexOf(columns, n);
    }
  }

  /** After cleaning, when `uses_ai` exists, no AI column is missing and every row
      whose `uses_ai` says no (in any letter case) holds the sentinel in both. */
  lemma CleanedAiColumns(t: Table, parse: string -> Option<int>)
    requires WellFormed(t)
    ensures Clean(t, parse).Ok? && UsesAi in NormalizeAll(t.columns) ==>
              forall r :: r in Clean(t, parse).value.rows ==> AiColumnsFilled(NormalizeAll(t.columns), r)
  {
    var columns := NormalizeAll(t.columns);
    var res := Clean(t, parse);
    if res.Ok? && UsesAi in columns {
      forall r | r in res.value.rows ensures AiColumnsFilled(columns, r) {
        var r0 :| r0 in t.rows && r == Prepare(columns, r0, parse);
        PrepareFillsAiColumns(columns, r0, parse);
      }
    }
  }

  /** After cleaning, every row holds a number in each of the five numeric columns. */
  lemma CleanedRowsNumeric(t: Table, parse: string -> Option<int>)
    requires WellFormed(t)
    ensures Clean(t, parse).Ok? ==>
              forall r, n :: r in Clean(t, parse).value.rows && n in NumericColumns ==>
                Lookup(NormalizeAll(t.columns), r, n).Some? && Lookup(NormalizeAll(t.columns), r, n).value.Num?
  {
    var columns := NormalizeAll(t.columns);
    var res := Clean(t, parse);
    if res.Ok? {
      forall r, n | r in res.value.rows && n in NumericColumns
        ensures Lookup(columns, r, n).Some? && Lookup(columns, r, n).value.Num?
      {
        var r0 :| r0 in t.rows && r == Prepare(columns, r0, parse);
        assert Complete(columns, r, NumericColumns);
      }
    }
  }

  /** Two different input rows that the fill makes equal (and complete) both survive
      de-duplication, since it runs before the fill: the cleaned table repeats a row. */
  lemma CleanedRepeats(t: Table, parse: string -> Option<int>, i: int, j: int)
    requires WellFormed(t) && Clean(t, parse).Ok?
    requires 0 <= i < |t.rows| && 0 <= j < |t.rows| && t.rows[i] != t.rows[j]
    requires Prepare(NormalizeAll(t.columns), t.rows[i], parse) == Prepare(NormalizeAll(t.columns), t.rows[j], parse)
    requires Complete(NormalizeAll(t.columns), Prepare(NormalizeAll(t.columns), t.rows[i], parse), NumericColumns)
    ensures !Distinct(Clean(t, parse).value.rows)
  {
    var columns := NormalizeAll(t.columns);
    var p := Prepare(columns, t.rows[i], parse);
    var deduplicated := KeepFirst(t.rows);
    var prepared := Prepared(t, columns, parse);
    var u := Clean(t, parse).value;
    var a :| 0 <= a < |deduplicated| && deduplicated[a] == t.rows[i];
    var b :| 0 <= b < |deduplicated| && deduplicated[b] == t.rows[j];
    assert prepared[a] == p && prepared[b] == p;
    if a < b {
      CountTwice(prepared, a, b);
    } else {
      CountTwice(prepared, b, a);
    }
    CleanCounts(t, parse);
    if Distinct(u.rows) {
      CountOfDistinct(u.rows, p);
    }
  }

  /** Cleaning a cleaned table that repeats a row drops a row. */
  lemma RecleanShortens(t: Table, parse: string -> Option<int>)
    requires WellFormed(t) && Clean(t, parse).Ok? && !Distinct(Clean(t, parse).value.rows)
    ensures Clean(Clean(t, parse).value, parse).Ok?
    ensures |Clean(Clean(t, parse).value, parse).value.rows| < |Clean(t, parse).value.rows|
  {
    var u := Clean(t, parse).value;
    NormalizeAllIdempotent(t.columns);
    KeepFirstShorter(u.rows);
    var again := Clean(u, parse).value;
    SubsequenceLength(again.rows, PrepareAll(NormalizeAll(u.columns), KeepFirst(u.rows), parse));
  }

  /** Cleaning is not idempotent: two different rows that the fill makes equal leave
      a repeated row, and cleaning again removes a row. */
  lemma CleanNotIdempotent(t: Table, parse: string -> Option<int>, i: int, j: int)
    requires WellFormed(t) && Clean(t, parse).Ok?
    requires 0 <= i < |t.rows| && 0 <= j < |t.rows| && t.rows[i] != t.rows[j]
    requires Prepare(NormalizeAll(t.columns), t.rows[i], parse) == Prepare(NormalizeAll(t.columns), t.rows[j], parse)
    requires Complete(NormalizeAll(t.columns), Prepare(NormalizeAll(t.columns), t.rows[i], parse), NumericColumns)
    ensures Clean(Clean(t, parse).value, parse) != Clean(t, parse)
  {
    CleanedRepeats(t, parse, i, j);
    RecleanShortens(t, parse);
  }

  /** `df['uses_ai'].astype(str).str.lower() == 'no'`, for the column at position `u`. */
  method NoMask(df: DataFrame, u: nat) returns (mask: seq<bool>)
    requires df.Valid() && u < |df.columns|
    ensures |mask| == |df.rows|
    ensures forall i :: 0 <= i < |mask| ==> (mask[i] <==> SaidNo(df.rows[i][u]))
  {
    mask := [];
    var i := 0;
    while i < |df.rows|
      invariant 0 <= i <= |df.rows|
      invariant |mask| == i
      invariant forall m :: 0 <= m < i ==> (mask[m] <==> SaidNo(df.rows[m][u]))
    {
      assert df.rows[i] in df.rows;
      var uses := df.rows[i][u];
      mask := mask + [uses.Some? && uses.value.Str? && Lower(uses.value.text) == "no"];
      i := i + 1;
    }
  }

  /** `df.loc[mask, name] = 'None'` then `df[name] = df[name].fillna('None')`, where
      `mask` is the no-mask of the `uses_ai` column. */
  method FillColumnInPlace(df: DataFrame, mask: seq<bool>, name: string)
    requires df.Valid() && UsesAi in df.columns && name in df.columns && name != UsesAi
    requires |mask| == |df.rows|
    requires forall i :: 0 <= i < |mask| ==> (mask[i] <==> SaidNo(df.rows[i][IndexOf(df.columns, UsesAi)]))
    modifies df
    ensures df.Valid() && df.columns == old(df.columns) && |df.rows| == |old(df.rows)|
    ensures forall i :: 0 <= i < |df.rows| ==> df.rows[i] == FillColumn(df.columns, old(df.rows[i]), name)
    ensures forall i :: 0 <= i < |mask| ==> (mask[i] <==> SaidNo(df.rows[i][IndexOf(df.columns, UsesAi)]))
  {
    var u := IndexOf(df.columns, UsesAi);
    var k := IndexOf(df.columns, name);
    var i := 0;
    while i < |df.rows|
      invariant 0 <= i <= |df.rows| == |old(df.rows)|
      invariant df.columns == old(df.columns)
      invariant forall m :: 0 <= m < i ==> df.rows[m] == FillColumn(df.columns, old(df.rows[m]), name)
      invariant forall m :: i <= m < |df.rows| ==> df.rows[m] == old(df.rows[m])
      invariant forall m :: 0 <= m < |df.rows| ==> |df.rows[m]| == |df.columns|
      invariant forall m :: 0 <= m < |df.rows| ==> df.rows[m][u] == old(df.rows[m])[u]
    {
      assert old(df.rows[i]) in old(df.rows);
      var v := df.rows[i][k];
      df.rows := df.rows[i := df.rows[i][k := if mask[i] || v.None? then Sentinel else v]];
      i := i + 1;
    }
    assert forall r :: r in df.rows ==> |r| == |df.columns| by {
      forall r | r in df.rows ensures |r| == |df.columns| {
        var m :| 0 <= m < |df.rows| && df.rows[m] == r;
      }
    }
  }

  /** The `uses_ai` block of the cleaner, in place. */
  method FillSentinel(df: DataFrame)
    requires df.Valid()
    modifies df
    ensures df.Valid() && df.columns == old(df.columns) && |df.rows| == |old(df.rows)|
    ensures forall i :: 0 <= i < |df.rows| ==> df.rows[i] == FillRow(df.columns, old(df.rows[i]))
  {
    if UsesAi in df.columns {
      var mask := NoMask(df, IndexOf(df.columns, UsesAi));
      if ToolsUsed in df.columns {
        FillColumnInPlace(df, mask, ToolsUsed);
      }
      ghost var filledTools := df.rows;
      assert forall i :: 0 <= i < |df.rows| ==> filledTools[i] == FillColumn(df.columns, old(df.rows[i]), ToolsUsed);
      if Purpose in df.columns {
        FillColumnInPlace(df, mask, Purpose);
      }
      assert forall i :: 0 <= i < |df.rows| ==> df.rows[i] == FillColumn(df.columns, filledTools[i], Purpose);
    }
  }

  /** `df[col] = pd.to_numeric(df[col], errors='coerce')`, in place. */
  method CoerceColumnInPlace(df: DataFrame, name: string, parse: string -> Option<int>)
    requires df.Valid()
    modifies df
    ensures df.Valid() && df.columns == old(df.columns) && |df.rows| == |old(df.rows)|
    ensures forall i :: 0 <= i < |df.rows| ==> df.rows[i] == CoerceColumn(df.columns, old(df.rows[i]), name, parse)
  {
    var k := IndexOf(df.columns, name);
    if k < 0 {
      return;
    }
    var i := 0;
    while i < |df.rows|
      invariant 0 <= i <= |df.rows| == |old(df.rows)|
      invariant df.columns == old(df.columns)
      invariant forall m :: 0 <= m < i ==> df.rows[m] == CoerceColumn(df.columns, old(df.rows[m]), name, parse)
      invariant forall m :: i <= m < |df.rows| ==> df.rows[m] == old(df.rows[m])
    {
      assert old(df.rows[i]) in old(df.rows);
      df.rows := df.rows[i := df.rows[i][k := Coerced(df.rows[i][k], parse)]];
      i := i + 1;
    }
    assert forall r :: r in df.rows ==> |r| == |df.columns| by {
      forall r | r in df.rows ensures |r| == |df.columns| {
        var m :| 0 <= m < |df.rows| && df.rows[m] == r;
        assert old(df.rows[m]) in old(df.rows);
      }
    }
  }

  /** The loop over the numeric columns, in place. */
  method CoerceNumeric(df: DataFrame, parse: string -> Option<int>)
    requires df.Valid()
    modifies df
    ensures df.Valid() && df.columns == old(df.columns) && |df.rows| == |old(df.rows)|
    ensures forall i :: 0 <= i < |df.rows| ==> df.rows[i] == CoerceRow(df.columns, old(df.rows[i]), parse)
  {
    for k := 0 to |NumericColumns|
      invariant df.Valid() && df.columns == old(df.columns) && |df.rows| == |old(df.rows)|
      invariant forall i :: 0 <= i < |df.rows| ==>
                  df.rows[i] == CoerceThrough(df.columns, old(df.rows[i]), parse, NumericColumns[..k])
    {
      var name := NumericColumns[k];
      ghost var before := df.rows;
      if name in df.columns {
        CoerceColumnInPlace(df, name, parse);
      }
      forall i | 0 <= i < |df.rows|
        ensures df.rows[i] == CoerceThrough(df.columns, old(df.rows[i]), parse, NumericColumns[..k + 1])
      {
        assert df.rows[i] == CoerceColumn(df.columns, before[i], name, parse);
        CoerceThroughStep(df.columns, old(df.rows[i]), parse, NumericColumns, k);
      }
    }
    assert NumericColumns[..|NumericColumns|] == NumericColumns;
  }

  /** Coercing one more column extends the coercion of the columns before it. */
  lemma CoerceThroughStep(columns: seq<string>, r: Row, parse: string -> Option<int>, names: seq<string>, k: int)
    requires 0 <= k < |names|
    ensures CoerceThrough(columns, r, parse, names[..k + 1]) ==
            CoerceColumn(columns, CoerceThrough(columns, r, parse, names[..k]), names[k], parse)
  {
    assert names[..k + 1][..k] == names[..k];
    assert names[..k + 1] != [];
  }

  /** The fill of every de-duplicated row followed by the coercion of every filled
      row gives the prepared rows. */
  lemma PreparedInSteps(t: Table, columns: seq<string>, parse: string -> Option<int>,
                        deduplicated: seq<Row>, filled: seq<Row>, coerced: seq<Row>)
    requires WellFormed(t) && |columns| == |t.columns| && deduplicated == KeepFirst(t.rows)
    requires |filled| == |deduplicated| && |coerced| == |filled|
    requires forall i :: 0 <= i < |filled| ==> filled[i] == FillRow(columns, deduplicated[i])
    requires forall i :: 0 <= i < |coerced| ==> coerced[i] == CoerceRow(columns, filled[i], parse)
    ensures coerced == Prepared(t, columns, parse)
  {
  }

  /** `Clean` is `dropna` over the prepared rows under the normalised labels. */
  lemma CleanInSteps(t: Table, parse: string -> Option<int>)
    requires WellFormed(t)
    ensures Clean(t, parse) ==
            DroppedIncomplete(Table(NormalizeAll(t.columns), Prepared(t, NormalizeAll(t.columns), parse)), NumericColumns)
  {
  }

  /** `clean_data(df)`. The caller's frame gets the normalised labels (the only step
      done on it); the remaining steps work on the copy `drop_duplicates` makes. */
  method CleanData(df: DataFrame, parse: string -> Option<int>) returns (res: Result<DataFrame>)
    requires df.Valid()
    modifies df
    ensures df.Valid() && df.columns == NormalizeAll(old(df.columns)) && df.rows == old(df.rows)
    ensures res.Err? <==> Clean(old(df.Value()), parse).Err?
    ensures res.Err? ==> res.error == Clean(old(df.Value()), parse).error
    ensures res.Ok? ==> (fresh(res.value) && res.value.Valid() &&
                         Clean(old(df.Value()), parse) == Ok(res.value.Value()))
  {
    ghost var t := df.Value();
    df.columns := NormalizeAll(df.columns);
    var d := df.DropDuplicates();
    ghost var deduplicated := d.rows;
    FillSentinel(d);
    ghost var filled := d.rows;
    CoerceNumeric(d, parse);
    PreparedInSteps(t, d.columns, parse, deduplicated, filled, d.rows);
    CleanInSteps(t, parse);
    res := d.DropNa(NumericColumns);
  }
}
