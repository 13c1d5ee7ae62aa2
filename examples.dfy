/** Concrete rows that pin down behaviour the general lemmas leave open. */
module Examples {
  import opened Seqs
  import opened Frames
  import opened Cleaning
  import opened Features
  import opened ColumnNames

  /** Cleaned labels of a survey table without a `purpose_of_ai` column. */
  const Labels: seq<string> :=
    [UsesAi, ToolsUsed, "age", "study_hours_per_day", "grades_before_ai", "grades_after_ai", "daily_screen_time_hours"]

  function Student(uses: Option<Cell>, tool: Option<Cell>): Row {
    [uses, tool, Some(Num(20)), Some(Num(3)), Some(Num(70)), Some(Num(80)), Some(Num(5))]
  }

  /** The numeric columns of a student row hold its numbers. */
  lemma StudentNumbers(uses: Option<Cell>, tool: Option<Cell>)
    ensures forall n :: n in NumericColumns ==> Lookup(Labels, Student(uses, tool), n).Some? &&
                                                Lookup(Labels, Student(uses, tool), n).value.Num?
  {
    var r := Student(uses, tool);
    forall k | 2 <= k < |Labels|
      ensures Lookup(Labels, r, Labels[k]) == r[k]
    {
      assert forall m :: 0 <= m < k ==> |Labels[m]| != |Labels[k]|;
      IndexOfUnique(Labels, Labels[k], k);
    }
    assert NumericColumns == Labels[2..];
  }

  /** Two respondents who said "No" and differ only in a missing versus a named tool
      are different rows that the fill makes equal and complete, so they meet the
      conditions of `CleanNotIdempotent`. */
  lemma RowsTheFillMakesEqual(tool: string, parse: string -> Option<int>)
    ensures Student(Text("No"), None) != Student(Text("No"), Text(tool))
    ensures Prepare(Labels, Student(Text("No"), None), parse) == Student(Text("No"), Sentinel)
    ensures Prepare(Labels, Student(Text("No"), Text(tool)), parse) == Student(Text("No"), Sentinel)
    ensures Complete(Labels, Student(Text("No"), Sentinel), NumericColumns)
  {
    IndexOfUnique(Labels, UsesAi, 0);
    assert |Labels[0]| != |ToolsUsed|;
    IndexOfUnique(Labels, ToolsUsed, 1);
    assert Purpose !in Labels by {
      assert forall m :: 0 <= m < |Labels| && m != 1 ==> |Labels[m]| != |Purpose|;
      assert Labels[1][0] != Purpose[0];
    }
    assert SaidNo(Text("No"));
    assert FillRow(Labels, Student(Text("No"), None)) == Student(Text("No"), Sentinel);
    assert FillRow(Labels, Student(Text("No"), Text(tool))) == Student(Text("No"), Sentinel);
    StudentNumbers(Text("No"), Sentinel);
    CoerceRowWithoutText(Labels, Student(Text("No"), Sentinel), parse);
  }

  /** Each of the first four labels is already in the form `clean_data` gives it.
      The labels are split over two lemmas, and each lemma's cases over two
      branches, only to keep each proof obligation small: the branches are alike. */
  lemma FirstLabelsNormalized(k: nat)
    requires k < 4
    ensures IsNormalized(Labels[k])
  {
    if k < 2 {
      assert IsNormalized(Labels[k]);
    } else {
      assert IsNormalized(Labels[k]);
    }
  }

  /** So is each of the last three. */
  lemma LastLabelsNormalized(k: nat)
    requires 4 <= k < |Labels|
    ensures IsNormalized(Labels[k])
  {
    if k < 6 {
      assert IsNormalized(Labels[k]);
    } else {
      assert IsNormalized(Labels[k]);
    }
  }

  /** Cleaning keeps the labels as they are and finds every numeric column among them. */
  lemma LabelsClean()
    ensures NormalizeAll(Labels) == Labels
    ensures forall n :: n in NumericColumns ==> n in Labels
  {
    forall k | 0 <= k < |Labels| ensures IsNormalized(Labels[k]) {
      if k < 4 {
        FirstLabelsNormalized(k);
      } else {
        LastLabelsNormalized(k);
      }
    }
    NormalizeAllFixes(Labels);
    assert NumericColumns == Labels[2..];
  }

  /** A respondent who said "No" without naming a tool, and one who said "No" and
      named `tool`. */
  function TwoRespondents(tool: string): (t: Table)
    ensures WellFormed(t) && t.columns == Labels && |t.rows| == 2
  {
    Table(Labels, [Student(Text("No"), None), Student(Text("No"), Text(tool))])
  }

  /** Cleaning any table under these labels keeps them and succeeds: every numeric
      column is there. */
  lemma CleanUnderLabels(t: Table, parse: string -> Option<int>)
    requires WellFormed(t) && t.columns == Labels
    ensures NormalizeAll(t.columns) == Labels
    ensures Clean(t, parse).Ok?
  {
    LabelsClean();
    assert !exists n :: n in NumericColumns && n !in NormalizeAll(t.columns);
    assert !Clean(t, parse).Err?;
  }

  /** The two respondents form a table that cleaning changes when applied a second
      time. */
  lemma TwoRespondentsCleanedTwice(tool: string, parse: string -> Option<int>)
    ensures var t := TwoRespondents(tool);
            Clean(t, parse).Ok? && Clean(Clean(t, parse).value, parse) != Clean(t, parse)
  {
    var t := TwoRespondents(tool);
    CleanUnderLabels(t, parse);
    RowsTheFillMakesEqual(tool, parse);
    CleanNotIdempotent(t, parse, 0, 1);
  }
}
