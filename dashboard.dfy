/** The dashboard's data logic over the cleaned, enriched table: the sidebar's filter
    options, the two-stage row filter, the "Total Students" figure and the tool and
    purpose counts behind the bar and pie charts. A column the dashboard indexes
    must exist (pandas raises KeyError otherwise, which the dashboard does not
    handle). */
module Dashboard {
  import opened Seqs
  import opened Frames
  import opened Counts
  import opened Cleaning
  import opened Features

  function NotSentinel(): Option<Cell> -> bool {
    v => v != Sentinel
  }

  /** `df["user_category"].unique()`: the category options, each selected by default. */
  function CategoryOptions(t: Table): (options: seq<Option<Cell>>)
    requires UserCategory in t.columns
    ensures Distinct(options)
    ensures forall i :: 0 <= i < |options| ==> options[i] in Column(t, UserCategory)
    ensures forall i :: 0 <= i < |t.rows| ==> Lookup(t.columns, t.rows[i], UserCategory) in options
  {
    KeepFirst(Column(t, UserCategory))
  }

  /** `df[df["ai_tools_used"] != "None"]["ai_tools_used"].unique()`: the tool options,
      each selected by default. A missing tool (NaN) differs from "None" and is one of
      them. */
  function ToolOptions(t: Table): (options: seq<Option<Cell>>)
    requires ToolsUsed in t.columns
    ensures Distinct(options)
    ensures Sentinel !in options
    ensures forall i :: 0 <= i < |options| ==> options[i] in Column(t, ToolsUsed)
    ensures forall i :: 0 <= i < |t.rows| && Lookup(t.columns, t.rows[i], ToolsUsed) != Sentinel ==>
              Lookup(t.columns, t.rows[i], ToolsUsed) in options
  {
    var tools := Column(t, ToolsUsed);
    assert forall i :: 0 <= i < |t.rows| ==> tools[i] == Lookup(t.columns, t.rows[i], ToolsUsed);
    KeepFirst(Filter(tools, NotSentinel()))
  }

  /** The tool options come in the order in which the tools first appear. */
  lemma ToolOptionsOrder(t: Table)
    requires ToolsUsed in t.columns
    ensures forall i, j :: 0 <= i < j < |ToolOptions(t)| ==>
              IndexOf(Column(t, ToolsUsed), ToolOptions(t)[i]) < IndexOf(Column(t, ToolsUsed), ToolOptions(t)[j])
  {
    var tools := Column(t, ToolsUsed);
    var present := Filter(tools, NotSentinel());
    var options := ToolOptions(t);
    KeepFirstOrder(present);
    forall i, j | 0 <= i < j < |options|
      ensures IndexOf(tools, options[i]) < IndexOf(tools, options[j])
    {
      FilterFirstOrder(tools, NotSentinel(), options[i], options[j]);
    }
  }

  function InCategories(columns: seq<string>, selected: seq<Option<Cell>>): Row -> bool {
    r => Lookup(columns, r, UserCategory) in selected
  }

  /** `df[df["user_category"].isin(selected)]`. */
  function SelectCategories(t: Table, selected: seq<Option<Cell>>): (u: Table)
    requires WellFormed(t) && UserCategory in t.columns
    ensures WellFormed(u) && u.columns == t.columns
    ensures IsSubsequence(u.rows, t.rows)
    ensures forall r :: r in u.rows <==> r in t.rows && Lookup(t.columns, r, UserCategory) in selected
    ensures forall r :: Count(u.rows, r) ==
              (if Lookup(t.columns, r, UserCategory) in selected then Count(t.rows, r) else 0)
    ensures selected == [] ==> u.rows == []
  {
    FilterCounts(t.rows, InCategories(t.columns, selected));
    Table(t.columns, Filter(t.rows, InCategories(t.columns, selected)))
  }

  function ToolOrNonUser(columns: seq<string>, tools: seq<Option<Cell>>): Row -> bool {
    r => Lookup(columns, r, ToolsUsed) in tools || Lookup(columns, r, UserCategory) == Text(NonUser)
  }

  /** `df[df["ai_tools_used"].isin(tools) | (df["user_category"] == "Non-User")]`. */
  function SelectTools(t: Table, tools: seq<Option<Cell>>): (u: Table)
    requires WellFormed(t) && ToolsUsed in t.columns && UserCategory in t.columns
    ensures WellFormed(u) && u.columns == t.columns
    ensures IsSubsequence(u.rows, t.rows)
    ensures forall r :: r in u.rows <==>
              r in t.rows &&
              (Lookup(t.columns, r, ToolsUsed) in tools || Lookup(t.columns, r, UserCategory) == Text(NonUser))
    ensures forall r :: Count(u.rows, r) ==
              (if Lookup(t.columns, r, ToolsUsed) in tools || Lookup(t.columns, r, UserCategory) == Text(NonUser)
               then Count(t.rows, r) else 0)
  {
    FilterCounts(t.rows, ToolOrNonUser(t.columns, tools));
    Table(t.columns, Filter(t.rows, ToolOrNonUser(t.columns, tools)))
  }

  /** `df_filtered`: the category stage, then the tool stage. */
  function Filtered(t: Table, categories: seq<Option<Cell>>, tools: seq<Option<Cell>>): (u: Table)
    requires WellFormed(t) && ToolsUsed in t.columns && UserCategory in t.columns
    ensures WellFormed(u) && u.columns == t.columns
  {
    SelectTools(SelectCategories(t, categories), tools)
  }

  /** A row is shown exactly when its category is selected and either its tool is
      selected or it is a Non-User; the shown rows keep their order, and the "Total
      Students" figure counts them. */
  lemma FilteredSpec(t: Table, categories: seq<Option<Cell>>, tools: seq<Option<Cell>>)
    requires WellFormed(t) && ToolsUsed in t.columns && UserCategory in t.columns
    ensures forall r :: r in Filtered(t, categories, tools).rows <==>
              r in t.rows && Lookup(t.columns, r, UserCategory) in categories &&
              (Lookup(t.columns, r, ToolsUsed) in tools || Lookup(t.columns, r, UserCategory) == Text(NonUser))
    ensures IsSubsequence(Filtered(t, categories, tools).rows, t.rows)
    ensures forall r :: Count(Filtered(t, categories, tools).rows, r) ==
              (if Lookup(t.columns, r, UserCategory) in categories &&
                  (Lookup(t.columns, r, ToolsUsed) in tools || Lookup(t.columns, r, UserCategory) == Text(NonUser))
               then Count(t.rows, r) else 0)
  {
    var u := SelectCategories(t, categories);
    SubsequenceTransitive(Filtered(t, categories, tools).rows, u.rows, t.rows);
  }

  /** `len(df_filtered)`: never more than the students loaded. */
  function TotalStudents(t: Table, categories: seq<Option<Cell>>, tools: seq<Option<Cell>>): (n: nat)
    requires WellFormed(t) && ToolsUsed in t.columns && UserCategory in t.columns
    ensures n <= |t.rows|
    ensures categories == [] ==> n == 0
  {
    var f := Filtered(t, categories, tools);
    var u := SelectCategories(t, categories);
    SubsequenceTransitive(f.rows, u.rows, t.rows);
    SubsequenceLength(f.rows, t.rows);
    SubsequenceLength(f.rows, u.rows);
    |f.rows|
  }

  /** A Non-User whose category is selected is shown even when no tool is selected. */
  lemma NonUserShownWithoutTools(t: Table, categories: seq<Option<Cell>>, i: int)
    requires WellFormed(t) && ToolsUsed in t.columns && UserCategory in t.columns
    requires 0 <= i < |t.rows| && Lookup(t.columns, t.rows[i], UserCategory) == Text(NonUser)
    requires Text(NonUser) in categories
    ensures t.rows[i] in Filtered(t, categories, []).rows
  {
    FilteredSpec(t, categories, []);
    assert t.rows[i] in t.rows;
  }

  /** Every row's category is a category option, and its tool a tool option unless
      it is "None". */
  lemma OptionsCoverRows(t: Table)
    requires ToolsUsed in t.columns && UserCategory in t.columns
    ensures forall r :: r in t.rows ==> Lookup(t.columns, r, UserCategory) in CategoryOptions(t)
    ensures forall r :: r in t.rows && Lookup(t.columns, r, ToolsUsed) != Sentinel ==>
              Lookup(t.columns, r, ToolsUsed) in ToolOptions(t)
  {
    forall r | r in t.rows
      ensures Lookup(t.columns, r, UserCategory) in CategoryOptions(t)
      ensures Lookup(t.columns, r, ToolsUsed) != Sentinel ==> Lookup(t.columns, r, ToolsUsed) in ToolOptions(t)
    {
      var i :| 0 <= i < |t.rows| && t.rows[i] == r;
    }
  }

  /** With the default selections (every option), the only rows hidden are those
      whose tool is "None" and whose category is not Non-User. */
  lemma DefaultFilter(t: Table)
    requires WellFormed(t) && ToolsUsed in t.columns && UserCategory in t.columns
    ensures forall r :: r in Filtered(t, CategoryOptions(t), ToolOptions(t)).rows <==>
              r in t.rows &&
              (Lookup(t.columns, r, ToolsUsed) != Sentinel || Lookup(t.columns, r, UserCategory) == Text(NonUser))
  {
    FilteredSpec(t, CategoryOptions(t), ToolOptions(t));
    OptionsCoverRows(t);
  }

  /** With the default selections every row is shown when no row pairs a "None"
      tool with a category other than Non-User. */
  lemma DefaultFilterShowsAll(t: Table)
    requires WellFormed(t) && ToolsUsed in t.columns && UserCategory in t.columns
    requires forall i :: 0 <= i < |t.rows| ==>
               Lookup(t.columns, t.rows[i], ToolsUsed) != Sentinel ||
               Lookup(t.columns, t.rows[i], UserCategory) == Text(NonUser)
    ensures Filtered(t, CategoryOptions(t), ToolOptions(t)).rows == t.rows
  {
    var categories := CategoryOptions(t);
    var tools := ToolOptions(t);
    forall i | 0 <= i < |t.rows| ensures InCategories(t.columns, categories)(t.rows[i]) {
      assert Lookup(t.columns, t.rows[i], UserCategory) in categories;
    }
    var u := SelectCategories(t, categories);
    assert u.rows == t.rows;
    forall i | 0 <= i < |t.rows| ensures ToolOrNonUser(t.columns, tools)(t.rows[i]) {
      if Lookup(t.columns, t.rows[i], UserCategory) != Text(NonUser) {
        assert Lookup(t.columns, t.rows[i], ToolsUsed) in tools;
      }
    }
  }

  /** The present values of `values`, NaN dropped (`value_counts` drops NaN). */
  function Present(values: seq<Option<Cell>>): (cells: seq<Cell>)
    ensures forall c :: Count(cells, c) == Count(values, Some(c))
    ensures |cells| == |values| - Count(values, None)
  {
    if |values| == 0 then []
    else
      var init := values[..|values| - 1];
      var last := values[|values| - 1];
      var cells := Present(init);
      assert values == init + [last];
      if last.Some? then
        assert (cells + [last.value])[..|cells|] == cells;
        cells + [last.value]
      else cells
  }

  /** `r` is what `value_counts()` reports over the values of `column` other than
      "None": each such present value once, with its number of rows, nothing else,
      most frequent first, the counts adding up to the rows neither missing nor
      "None". */
  ghost predicate CountsNamedValues(r: seq<Entry<Cell>>, column: seq<Option<Cell>>) {
    Descending(r) &&
    Distinct(Keys(r)) &&
    (forall i :: 0 <= i < |r| ==>
       Some(r[i].key) != Sentinel && r[i].count == Count(column, Some(r[i].key)) > 0) &&
    (forall i :: 0 <= i < |column| && column[i].Some? && column[i] != Sentinel ==> column[i].value in Keys(r)) &&
    Total(r) == |column| - Count(column, None) - Count(column, Sentinel)
  }

  /** The counts of the values of `column` other than "None", NaN dropped. */
  function CountsWithoutSentinel(column: seq<Option<Cell>>): (r: seq<Entry<Cell>>)
    ensures CountsNamedValues(r, column)
  {
    var named := Filter(column, NotSentinel());
    var cells := Present(named);
    var r := ValueCounts(cells);
    ValueCountsSpec(cells);
    assert Total(r) == |column| - Count(column, None) - Count(column, Sentinel) by {
      FilterOutLength(column, NotSentinel(), Sentinel);
      FilterCount(column, NotSentinel(), None);
    }
    forall i | 0 <= i < |r| ensures Some(r[i].key) != Sentinel && r[i].count == Count(column, Some(r[i].key)) {
      FilterCount(column, NotSentinel(), Some(r[i].key));
    }
    forall i | 0 <= i < |column| && column[i].Some? && column[i] != Sentinel ensures column[i].value in Keys(r) {
      FilterCount(column, NotSentinel(), column[i]);
      assert Count(cells, column[i].value) > 0;
    }
    r
  }

  /** `t[t[name] != "None"][name].value_counts()`. */
  function NamedValueCounts(t: Table, name: string): (r: seq<Entry<Cell>>)
    requires name in t.columns
    ensures CountsNamedValues(r, Column(t, name))
  {
    CountsWithoutSentinel(Column(t, name))
  }

  /** The "AI Tool Popularity" bar chart's data. */
  function ToolCounts(f: Table): (r: seq<Entry<Cell>>)
    requires ToolsUsed in f.columns
    ensures CountsNamedValues(r, Column(f, ToolsUsed))
  {
    NamedValueCounts(f, ToolsUsed)
  }

  /** The "Usage Purpose Distribution" pie chart's data. */
  function PurposeCounts(f: Table): (r: seq<Entry<Cell>>)
    requires Purpose in f.columns
    ensures CountsNamedValues(r, Column(f, Purpose))
  {
    NamedValueCounts(f, Purpose)
  }
}
