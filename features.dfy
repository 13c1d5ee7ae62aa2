/** The feature enricher, `feature_engineering` in src/cleaning.py: it adds
    `grade_improvement` (grades after minus grades before) and `user_category`
    ("AI User" exactly when `uses_ai` is the text "Yes", else "Non-User") to the
    frame it is given, in place. */
module Features {
  import opened Frames
  import opened Cleaning

  const GradesBefore := "grades_before_ai"
  const GradesAfter := "grades_after_ai"
  const GradeImprovement := "grade_improvement"
  const UserCategory := "user_category"
  const AiUser := "AI User"
  const NonUser := "Non-User"

  predicate IsText(c: Option<Cell>) {
    c.Some? && c.value.Str?
  }

  /** `after - before` for one row: a number, or missing (NaN) when either side is
      missing or holds text. Whether text raises a TypeError is decided for the whole
      column, by `TextClash`. */
  function Difference(after: Option<Cell>, before: Option<Cell>): (d: Option<Cell>)
    ensures d.Some? <==> after.Some? && after.value.Num? && before.Some? && before.value.Num?
    ensures d.Some? ==> d.value.Num? && before.value.n + d.value.n == after.value.n
  {
    if after.Some? && after.value.Num? && before.Some? && before.value.Num?
    then Some(Num(after.value.n - before.value.n))
    else None
  }

  /** `'AI User' if x == 'Yes' else 'Non-User'`: case-sensitive, and a missing value
      is not "Yes". */
  function Category(uses: Option<Cell>): (c: Option<Cell>)
    ensures c == Text(AiUser) || c == Text(NonUser)
    ensures c == Text(AiUser) <==> uses == Text("Yes")
  {
    if uses == Text("Yes") then Text(AiUser) else Text(NonUser)
  }

  /** pandas subtracts object columns cell by cell and, when that raises, again over
      only the rows where both cells are present; so text raises a TypeError only
      beside a present value. */
  predicate TextClash(after: Option<Cell>, before: Option<Cell>)
    ensures TextClash(after, before) ==> Difference(after, before).None?
    ensures !TextClash(after, before) && after.Some? && before.Some? ==> Difference(after, before).Some?
  {
    after.Some? && before.Some? && (IsText(after) || IsText(before))
  }

  /** Some row holds text in one of the two grade columns beside a present value in
      the other. */
  predicate HasTextGrade(t: Table) {
    exists i :: 0 <= i < |t.rows| &&
      TextClash(Lookup(t.columns, t.rows[i], GradesAfter), Lookup(t.columns, t.rows[i], GradesBefore))
  }

  function Improvements(t: Table): (values: seq<Option<Cell>>)
    ensures |values| == |t.rows|
  {
    seq(|t.rows|, i requires 0 <= i < |t.rows| =>
      Difference(Lookup(t.columns, t.rows[i], GradesAfter), Lookup(t.columns, t.rows[i], GradesBefore)))
  }

  function Categories(t: Table): (values: seq<Option<Cell>>)
    ensures |values| == |t.rows|
  {
    seq(|t.rows|, i requires 0 <= i < |t.rows| => Category(Lookup(t.columns, t.rows[i], UsesAi)))
  }

  /** The table after the `grade_improvement` step, or its TypeError. */
  function WithImprovement(t: Table): (res: Result<Table>)
    requires WellFormed(t)
    ensures res.Err? <==> GradesBefore in t.columns && GradesAfter in t.columns && HasTextGrade(t)
    ensures res.Ok? ==> WellFormed(res.value) && |res.value.rows| == |t.rows|
  {
    if GradesBefore in t.columns && GradesAfter in t.columns then
      if HasTextGrade(t) then Err(TypeError) else Ok(WithColumn(t, GradeImprovement, Improvements(t)))
    else Ok(t)
  }

  /** `feature_engineering(df)` as a value. */
  function Enrich(t: Table): (res: Result<Table>)
    requires WellFormed(t)
    ensures res.Err? <==> GradesBefore in t.columns && GradesAfter in t.columns && HasTextGrade(t)
    ensures res.Err? ==> res.error == TypeError
    ensures res.Ok? ==> WellFormed(res.value)
  {
    match WithImprovement(t)
    case Err(e) => Err(e)
    case Ok(t1) =>
      if UsesAi in t1.columns then Ok(WithColumn(t1, UserCategory, Categories(t1))) else Ok(t1)
  }

  /** The label `name` is one that enrichment assigns in a table with these
      columns: `grade_improvement` when both grade columns exist, `user_category`
      when `uses_ai` exists. */
  predicate Writes(columns: seq<string>, name: string) {
    || (name == GradeImprovement && GradesBefore in columns && GradesAfter in columns)
    || (name == UserCategory && UsesAi in columns)
  }

  /** A cell in a column that enrichment does not assign reads the same after it. */
  lemma EnrichKeepsCell(t: Table, i: int, j: int)
    requires WellFormed(t) && Enrich(t).Ok?
    requires 0 <= i < |t.rows| && 0 <= j < |t.columns| && !Writes(t.columns, t.columns[j])
    ensures j < |Enrich(t).value.rows[i]| && Enrich(t).value.rows[i][j] == t.rows[i][j]
  {
    var t1 := WithImprovement(t).value;
    if GradesBefore in t.columns && GradesAfter in t.columns {
      WithColumnKeeps(t, GradeImprovement, Improvements(t), i, j);
    }
    assert j < |t1.columns| && t1.columns[j] == t.columns[j];
    if GradesBefore in t.columns && GradesAfter in t.columns {
      assert |UsesAi| != |GradeImprovement|;
      WithColumnHas(t, GradeImprovement, Improvements(t), UsesAi);
    }
    if UsesAi in t1.columns {
      WithColumnKeeps(t1, UserCategory, Categories(t1), i, j);
    }
  }

  /** The labels after enrichment are the old ones followed by `grade_improvement`
      and then `user_category`, each where it is assigned and not already there. */
  lemma EnrichColumns(t: Table)
    requires WellFormed(t) && Enrich(t).Ok?
    ensures Enrich(t).value.columns ==
              t.columns
              + (if GradesBefore in t.columns && GradesAfter in t.columns && GradeImprovement !in t.columns
                 then [GradeImprovement] else [])
              + (if UsesAi in t.columns && UserCategory !in t.columns then [UserCategory] else [])
  {
    var t1 := WithImprovement(t).value;
    var first: seq<string> :=
      if GradesBefore in t.columns && GradesAfter in t.columns && GradeImprovement !in t.columns
      then [GradeImprovement] else [];
    var second: seq<string> := if UsesAi in t.columns && UserCategory !in t.columns then [UserCategory] else [];
    assert |UsesAi| != |GradeImprovement| && |UserCategory| != |GradeImprovement|;
    if GradesBefore in t.columns && GradesAfter in t.columns {
      WithColumnHas(t, GradeImprovement, Improvements(t), UsesAi);
      WithColumnHas(t, GradeImprovement, Improvements(t), UserCategory);
    }
    assert t1.columns == t.columns + first;
    if UsesAi in t.columns {
      assert Enrich(t).value == WithColumn(t1, UserCategory, Categories(t1));
      assert Enrich(t).value.columns == t1.columns + second;
    } else {
      assert Enrich(t).value == t1;
    }
  }

  /** Enrichment keeps every row, in order, keeps every column, in order, and changes
      no cell outside a column it assigns. */
  lemma EnrichKeepsRowsAndColumns(t: Table)
    requires WellFormed(t)
    ensures Enrich(t).Ok? ==> |Enrich(t).value.rows| == |t.rows|
    ensures Enrich(t).Ok? ==> t.columns <= Enrich(t).value.columns
    ensures Enrich(t).Ok? ==> forall i, j ::
              (0 <= i < |t.rows| && 0 <= j < |t.columns| && !Writes(t.columns, t.columns[j])) ==>
              Enrich(t).value.rows[i][j] == t.rows[i][j]
  {
    if Enrich(t).Ok? {
      var t1 := WithImprovement(t).value;
      var u := Enrich(t).value;
      assert t.columns <= t1.columns <= u.columns;
      forall i, j | 0 <= i < |t.rows| && 0 <= j < |t.columns| && !Writes(t.columns, t.columns[j])
        ensures Enrich(t).value.rows[i][j] == t.rows[i][j]
      {
        EnrichKeepsCell(t, i, j);
      }
    }
  }

  /** A label that enrichment does not assign reads the same after it, row by row. */
  lemma EnrichLookup(t: Table, name: string, i: int)
    requires WellFormed(t) && Enrich(t).Ok? && 0 <= i < |t.rows| && !Writes(t.columns, name)
    ensures Lookup(Enrich(t).value.columns, Enrich(t).value.rows[i], name) == Lookup(t.columns, t.rows[i], name)
  {
    var t1 := WithImprovement(t).value;
    if GradesBefore in t.columns && GradesAfter in t.columns {
      WithColumnLookup(t, GradeImprovement, Improvements(t), name, i);
    }
    if GradesBefore in t.columns && GradesAfter in t.columns {
      assert |UsesAi| != |GradeImprovement|;
      WithColumnHas(t, GradeImprovement, Improvements(t), UsesAi);
    }
    if UsesAi in t1.columns {
      WithColumnLookup(t1, UserCategory, Categories(t1), name, i);
    }
  }

  /** Without both grade columns and without `uses_ai`, enrichment returns the table
      as it was. */
  lemma EnrichWithoutInputs(t: Table)
    requires WellFormed(t)
    requires !(GradesBefore in t.columns && GradesAfter in t.columns) && UsesAi !in t.columns
    ensures Enrich(t) == Ok(t)
  {
    assert WithImprovement(t) == Ok(t);
  }

  /** When both grade columns exist, every row gets `grade_improvement`: the
      difference of its grades when both are numbers, missing otherwise. */
  lemma EnrichGradeImprovement(t: Table)
    requires WellFormed(t)
    ensures Enrich(t).Ok? && GradesBefore in t.columns && GradesAfter in t.columns ==>
              GradeImprovement in Enrich(t).value.columns &&
              forall i :: 0 <= i < |t.rows| ==>
                Lookup(Enrich(t).value.columns, Enrich(t).value.rows[i], GradeImprovement) ==
                Difference(Lookup(t.columns, t.rows[i], GradesAfter), Lookup(t.columns, t.rows[i], GradesBefore))
  {
    if Enrich(t).Ok? && GradesBefore in t.columns && GradesAfter in t.columns {
      var t1 := WithImprovement(t).value;
      WithColumnSpec(t, GradeImprovement, Improvements(t));
      forall i | 0 <= i < |t.rows|
        ensures Lookup(Enrich(t).value.columns, Enrich(t).value.rows[i], GradeImprovement) ==
                Difference(Lookup(t.columns, t.rows[i], GradesAfter), Lookup(t.columns, t.rows[i], GradesBefore))
      {
        if UsesAi in t1.columns {
          WithColumnLookup(t1, UserCategory, Categories(t1), GradeImprovement, i);
        }
      }
    }
  }

  /** Row `i` gets the category of its own `uses_ai` value. */
  lemma EnrichCategoryAt(t: Table, i: int)
    requires WellFormed(t) && Enrich(t).Ok? && UsesAi in t.columns && 0 <= i < |t.rows|
    ensures Lookup(Enrich(t).value.columns, Enrich(t).value.rows[i], UserCategory) ==
            Category(Lookup(t.columns, t.rows[i], UsesAi))
  {
    var t1 := WithImprovement(t).value;
    if t1 != t {
      WithColumnLookup(t, GradeImprovement, Improvements(t), UsesAi, i);
    }
    assert UsesAi in t1.columns;
    WithColumnSpec(t1, UserCategory, Categories(t1));
  }

  /** When `uses_ai` exists, every row gets `user_category`, which is "AI User"
      exactly when `uses_ai` is the text "Yes" (letter case included) and
      "Non-User" otherwise. */
  lemma EnrichUserCategory(t: Table)
    requires WellFormed(t)
    ensures Enrich(t).Ok? && UsesAi in t.columns ==>
              UserCategory in Enrich(t).value.columns &&
              forall i :: 0 <= i < |t.rows| ==>
                var category := Lookup(Enrich(t).value.columns, Enrich(t).value.rows[i], UserCategory);
                (category == Text(AiUser) <==> Lookup(t.columns, t.rows[i], UsesAi) == Text("Yes")) &&
                (category == Text(AiUser) || category == Text(NonUser))
  {
    if Enrich(t).Ok? && UsesAi in t.columns {
      assert UsesAi in WithImprovement(t).value.columns;
      forall i | 0 <= i < |t.rows|
        ensures Lookup(Enrich(t).value.columns, Enrich(t).value.rows[i], UserCategory) ==
                Category(Lookup(t.columns, t.rows[i], UsesAi))
      {
        EnrichCategoryAt(t, i);
      }
    }
  }

  /** `df['grades_after_ai'] - df['grades_before_ai']`: the column of differences, or
      the TypeError raised when a grade cell holds text beside a present grade. */
  method Subtract(t: Table) returns (res: Result<seq<Option<Cell>>>)
    ensures res.Err? <==> HasTextGrade(t)
    ensures res.Err? ==> res.error == TypeError
    ensures res.Ok? ==> res.value == Improvements(t)
  {
    var improvements: seq<Option<Cell>> := [];
    var i := 0;
    while i < |t.rows|
      invariant 0 <= i <= |t.rows|
      invariant improvements == Improvements(t)[..i]
      invariant forall m :: 0 <= m < i ==>
                  !TextClash(Lookup(t.columns, t.rows[m], GradesAfter), Lookup(t.columns, t.rows[m], GradesBefore))
    {
      var after := Lookup(t.columns, t.rows[i], GradesAfter);
      var before := Lookup(t.columns, t.rows[i], GradesBefore);
      if after.Some? && before.Some? && (IsText(after) || IsText(before)) {
        return Err(TypeError);
      }
      improvements := improvements + [Difference(after, before)];
      i := i + 1;
    }
    return Ok(improvements);
  }

  /** `df['uses_ai'].apply(lambda x: 'AI User' if x == 'Yes' else 'Non-User')`. */
  method Categorize(t: Table) returns (categories: seq<Option<Cell>>)
    ensures categories == Categories(t)
  {
    categories := [];
    var i := 0;
    while i < |t.rows|
      invariant 0 <= i <= |t.rows|
      invariant categories == Categories(t)[..i]
    {
      var uses := Lookup(t.columns, t.rows[i], UsesAi);
      categories := categories + [if uses == Text("Yes") then Text(AiUser) else Text(NonUser)];
      i := i + 1;
    }
  }

  /** `feature_engineering(df)`: adds the columns to the frame it is given and
      returns that same frame; on a TypeError the frame is left as it was. */
  method FeatureEngineering(df: DataFrame) returns (res: Result<DataFrame>)
    requires df.Valid()
    modifies df
    ensures res.Err? <==> Enrich(old(df.Value())).Err?
    ensures res.Err? ==> res.error == TypeError && df.Value() == old(df.Value())
    ensures res.Ok? ==> res.value == df && df.Valid() && Enrich(old(df.Value())) == Ok(df.Value())
  {
    if GradesBefore in df.columns && GradesAfter in df.columns {
      var improvements := Subtract(df.Value());
      if improvements.Err? {
        return Err(TypeError);
      }
      df.SetColumn(GradeImprovement, improvements.value);
    }
    assert WithImprovement(old(df.Value())) == Ok(df.Value());
    if UsesAi in df.columns {
      var categories := Categorize(df.Value());
      df.SetColumn(UserCategory, categories);
    }
    res := Ok(df);
  }
}
