# Student AI usage pipeline — a Dafny model

This project models the data logic of a small survey-analysis pipeline about
students' use of AI tools. It covers three parts:

- **The cleaner** (`clean_data` in `src/cleaning.py`). It normalises the column
  labels of the frame it is given, drops duplicate rows, fills the two AI columns
  (`ai_tools_used` and `purpose_of_ai`) with the text "None", coerces the five
  numeric columns to numbers, and drops the rows where any of them is missing.
- **The feature enricher** (`feature_engineering`). It adds `grade_improvement`
  and `user_category` to the frame it is given, in place.
- **The dashboard's data logic** (`dashboard/app.py`):
  - the sidebar's filter options;
  - the two-stage row filter (category, then tool);
  - the "Total Students" figure;
  - the `value_counts` behind the tool bar chart and the purpose pie chart.

A pandas data frame is modelled as a `Table`: its column labels, and rows of
optional cells in column order. A missing value (NaN) is `None`, and a cell holds
text or a number. Where the source mutates a frame (`clean_data`,
`feature_engineering`), the model uses the class `Frames.DataFrame`, whose methods
update its `columns` and `rows`. Each method is proved equal to a value-level
function: `Cleaning.Clean` or `Features.Enrich`. The properties are then proved
about those functions. The dashboard is straight-line code over an immutable frame,
so it is modelled as functions and lemmas over `Table`.

Modules:

- `Seqs`: first occurrence, order-preserving filter, de-duplication and counting,
  with their lemmas.
- `Frames`: cells, rows, tables, errors, and the class `DataFrame` with
  `drop_duplicates`, `dropna(subset=...)` and column assignment.
- `ColumnNames`: label normalisation.
- `Cleaning`: `clean_data`.
- `Features`: `feature_engineering`.
- `Counts`: `value_counts`.
- `Dashboard`: the dashboard.
- `Examples`: concrete rows.

The docstring of `clean_data` (`src/cleaning.py:17`) promises that duplicates are
removed. De-duplication, however, runs before the fill, so two rows that differ only
in a missing AI column can both survive and become equal. The model follows the
code: `Cleaning.CleanedRepeats` and `Cleaning.CleanNotIdempotent` prove that the
output can repeat a row and that cleaning it again can give a different table, and
`Examples.TwoRespondentsCleanedTwice` exhibits such a table.

## Model

| member | source | states |
|---|---|---|
| ColumnNames.TrimStart | src/cleaning.py:21 | `lstrip`: the result is a suffix of the input; the characters dropped are whitespace, and the result does not start with whitespace |
| ColumnNames.TrimEnd | src/cleaning.py:21 | `rstrip`: the result is a prefix of the input; the characters dropped are whitespace, and the result does not end with whitespace |
| ColumnNames.Lower | src/cleaning.py:21 | `lower`: same length; each character is lower-cased, so there are no upper-case letters |
| ColumnNames.ReplaceSpaces | src/cleaning.py:21 | `replace(' ', '_')`: same length; every space becomes `_` and no space remains |
| ColumnNames.Strip | src/cleaning.py:21 | `strip`: the input with its leading and trailing whitespace removed. The result is a prefix of the input after its leading whitespace (`TrimStart`, itself a suffix of the input preceded only by whitespace); the rest of that suffix is whitespace; and the result neither starts nor ends with whitespace |
| ColumnNames.NormalizeName | src/cleaning.py:21 | a normalised label has no space, no upper-case ASCII letter and no leading or trailing whitespace, and is never longer than the raw label |
| ColumnNames.NormalizeAll | src/cleaning.py:21 | the list comprehension: one label per raw label, each the `NormalizeName` of the raw label at the same position |
| ColumnNames.NormalizedIsFixedPoint | src/cleaning.py:21 | normalisation leaves a label unchanged exactly when the label is already normalised |
| ColumnNames.NormalizeNameIdempotent | src/cleaning.py:21 | normalising a label twice is the same as normalising it once |
| ColumnNames.NormalizeAllIdempotent | src/cleaning.py:21 | normalising every label twice is the same as normalising every label once |
| ColumnNames.NormalizeAllFixes | src/cleaning.py:21 | a list of labels that are each already normalised comes through label normalisation unchanged |
| Seqs.KeepFirst | src/cleaning.py:24 | `drop_duplicates`: no two equal rows remain; every input row is still present; the result is an order-preserving subsequence of the input |
| Seqs.KeepFirstOrder | src/cleaning.py:24 | the kept rows appear in the order of their first occurrence in the input |
| Seqs.KeepFirstShorter | src/cleaning.py:24 | de-duplication shortens a sequence exactly when it holds a repeated row |
| Seqs.Filter | src/cleaning.py:50 | boolean-mask selection: it keeps exactly the elements that satisfy the mask, in their original order |
| Frames.DroppedIncomplete | src/cleaning.py:50 | `dropna(subset)`: a KeyError naming exactly the subset labels that are not columns; otherwise the same columns, and exactly the rows with a value in every subset column, in order, each as many times as in the input |
| Frames.WithColumn | src/cleaning.py:60 | `df[name] = values`: the columns stay as they were when the label exists, and gain the label at the end otherwise; the row count is kept and the table stays well formed |
| Frames.WithColumnHas | src/cleaning.py:60 | after `df[name] = values` a label is present exactly when it was present before or is `name` |
| Frames.WithColumnSpec | src/cleaning.py:60 | after `df[name] = values` the named column reads `values`, row by row, and every cell outside the first column with that label is unchanged |
| Frames.WithColumnKeeps | src/cleaning.py:60 | assigning one column leaves every cell of every other existing column where it was |
| Frames.WithColumnLookup | src/cleaning.py:60 | assigning one column does not change what any other label reads |
| Frames.DataFrame.DropDuplicates | src/cleaning.py:24 | the loop builds a new frame whose value is the de-duplication of the old frame's rows |
| Frames.DataFrame.DropNa | src/cleaning.py:50 | the loops build a new frame, or return the KeyError, exactly as `DroppedIncomplete` describes |
| Frames.DataFrame.SetColumn | src/cleaning.py:60 | in place, the frame becomes `WithColumn` of its old value |
| Cleaning.SaidNo | src/cleaning.py:30 | the mask `astype(str).str.lower() == 'no'` for one cell: only a two-character text can match |
| Cleaning.SaidNoSpellings | src/cleaning.py:30 | the cells the mask selects are exactly the texts "no", "No", "nO" and "NO" |
| Cleaning.FillColumn | src/cleaning.py:33-38 | the masked assignment and `fillna` for one AI column of one row; the row keeps its length, and `FillRow`'s contract states what the column then holds |
| Cleaning.FillRow | src/cleaning.py:29-38 | if `uses_ai` exists, each existing AI column afterwards holds a value. That value is "None" when `uses_ai` says no (in any letter case) or when the cell was missing; otherwise the cell is unchanged. All other columns are untouched, and nothing changes when `uses_ai` is absent |
| Cleaning.Coerced | src/cleaning.py:47 | `to_numeric(errors='coerce')` on one cell never fails: text becomes its number or missing; numbers and missing cells are unchanged |
| Cleaning.CoercedIdempotent | src/cleaning.py:47 | coercing twice is the same as coercing once |
| Cleaning.CoerceThrough | src/cleaning.py:45-47 | the loop over the numeric columns for one row; the row keeps its length, and `CoerceThroughSpec` states what each column then holds |
| Cleaning.CoerceThroughSpec | src/cleaning.py:45-47 | after coercing the listed columns one by one, each of them reads the coerced original value, and no other column is touched |
| Cleaning.CoerceRow | src/cleaning.py:44-47 | each of the five numeric columns reads its coerced value, and no other column is touched |
| Cleaning.CoerceRowWithoutText | src/cleaning.py:44-47 | coercion leaves a row unchanged when none of its numeric columns holds text |
| Cleaning.Prepared | src/cleaning.py:24-47 | the de-duplicated input rows, each filled and then coerced, in order: a well-formed sequence no longer than the input |
| Cleaning.PreparedFromInput | src/cleaning.py:24-47 | every prepared row is the preparation of some input row |
| Cleaning.PreparedCoversInput | src/cleaning.py:24-47 | the preparation of every input row is among the prepared rows, since de-duplication keeps one copy of each |
| Cleaning.Clean | src/cleaning.py:13-52 | `clean_data` as a value. It returns a KeyError exactly when a numeric column is absent after normalisation. Otherwise: the labels are normalised; there are at most as many rows as in the input; every row is a prepared input row with all five numeric columns present; every complete prepared input row survives; and the order is that of the de-duplicated input |
| Cleaning.CleanCounts | src/cleaning.py:24-50 | the cleaned table holds each prepared, de-duplicated input row that has all five numeric columns exactly as many times as the prepared, de-duplicated input does, and no other row |
| Cleaning.CoerceRowKeeps | src/cleaning.py:44-47 | the numeric coercion leaves every non-numeric column reading what it read |
| Cleaning.PrepareFillsAiColumns | src/cleaning.py:29-47 | the coercion that follows the fill keeps `uses_ai` and the filled AI columns as they were |
| Cleaning.CleanedAiColumns | src/cleaning.py:29-38 | after cleaning, when `uses_ai` exists, no AI column is missing, and a respondent who said no holds "None" in both |
| Cleaning.CleanedRowsNumeric | src/cleaning.py:44-50 | after cleaning, every row holds a number in each of the five numeric columns |
| Cleaning.CleanedRepeats | src/cleaning.py:24-50 | when two different input rows become the same complete row after the fill and coercion, the cleaned table holds that row twice |
| Cleaning.RecleanShortens | src/cleaning.py:13-52 | cleaning a cleaned table that repeats a row succeeds and returns fewer rows |
| Cleaning.CleanNotIdempotent | src/cleaning.py:13-52 | under the conditions of `CleanedRepeats`, cleaning the cleaned table again gives a different result, so `clean_data` is not idempotent |
| Cleaning.NoMask | src/cleaning.py:30 | the mask holds for a row exactly when its `uses_ai` cell, printed and lower-cased, is "no" |
| Cleaning.FillColumnInPlace | src/cleaning.py:32-38 | `df.loc[mask, name] = 'None'` followed by `fillna('None')`, in place, row by row as `FillColumn` describes; the mask stays valid |
| Cleaning.FillSentinel | src/cleaning.py:29-38 | in place, every row becomes its `FillRow` |
| Cleaning.CoerceColumnInPlace | src/cleaning.py:47 | in place, every row has the named column coerced |
| Cleaning.CoerceNumeric | src/cleaning.py:44-47 | the loop over the numeric columns leaves every row as `CoerceRow` of its old value |
| Cleaning.CleanData | src/cleaning.py:13-52 | the method renames the caller's columns in place and leaves its rows alone. It returns the KeyError, or a new frame whose value is `Clean` of the frame it was given |
| Features.WithImprovement | src/cleaning.py:59-60 | the `grade_improvement` step: a TypeError exactly when both grade columns exist and some row holds text in one grade cell beside a present value in the other; otherwise a well-formed table with the same rows |
| Features.Difference | src/cleaning.py:60 | one row's `after - before`: a number exactly when both cells are numbers, and then the number that added to `before` gives `after`; missing otherwise |
| Features.TextClash | src/cleaning.py:60 | the rows that make the subtraction raise: both cells present and one of them text; such a row has no numeric difference, and a present pair without text always has one |
| Features.Category | src/cleaning.py:64 | the lambda: always "AI User" or "Non-User", and "AI User" exactly when the value is the text "Yes" |
| Features.Enrich | src/cleaning.py:54-66 | a TypeError exactly when both grade columns exist and some row holds text in one grade cell beside a present value in the other (text beside NaN gives NaN, since pandas retries the subtraction on the rows where both cells are present); otherwise a well-formed table |
| Features.EnrichKeepsCell | src/cleaning.py:54-66 | a cell in a column that enrichment does not assign reads the same after it; an existing `grade_improvement` column is assigned only when both grade columns exist, and an existing `user_category` only when `uses_ai` exists |
| Features.EnrichKeepsRowsAndColumns | src/cleaning.py:54-66 | enrichment keeps the row count, the row order, every existing column, and every cell outside the columns it assigns |
| Features.EnrichColumns | src/cleaning.py:59-64 | the labels after enrichment are exactly the old ones, then `grade_improvement` if both grade columns exist and it is new, then `user_category` if `uses_ai` exists and it is new |
| Features.EnrichWithoutInputs | src/cleaning.py:59-66 | without both grade columns and without `uses_ai`, the table is returned as it was |
| Features.EnrichLookup | src/cleaning.py:59-64 | every label that enrichment does not assign reads the same after it, row by row |
| Features.EnrichGradeImprovement | src/cleaning.py:59-60 | when both grade columns exist, every row's `grade_improvement` is after minus before when both are numbers, and missing otherwise |
| Features.EnrichCategoryAt | src/cleaning.py:63-64 | each row's `user_category` is the category of its own `uses_ai` value |
| Features.EnrichUserCategory | src/cleaning.py:63-64 | when `uses_ai` exists, `user_category` is "AI User" exactly when `uses_ai` is the text "Yes" (case-sensitive), and "Non-User" otherwise |
| Features.Subtract | src/cleaning.py:60 | the loop returns the column of differences, or the TypeError exactly when some row holds text in one grade cell beside a present value in the other |
| Features.Categorize | src/cleaning.py:64 | the loop returns the category of every row |
| Features.FeatureEngineering | src/cleaning.py:54-66 | in place, the frame becomes `Enrich` of its old value and is returned. On the TypeError (text in a grade cell beside a present grade) it is left unchanged |
| Counts.Position | dashboard/app.py:87 | the insertion point: every entry before it is counted at least as often as the new one, and the entry at it less often |
| Counts.InsertPermutes | dashboard/app.py:87 | inserting an entry adds exactly that entry to the multiset of entries, one to the length and its count to the total |
| Counts.InsertDescending | dashboard/app.py:87 | inserting an entry keeps the counts in non-increasing order |
| Counts.SortByCount | dashboard/app.py:87 | sorting is a permutation that keeps the total and gives non-increasing counts |
| Counts.TotalOfCounts | dashboard/app.py:87 | the per-value counts of the distinct values add up to the number of values |
| Counts.ValueCounts | dashboard/app.py:87 | `value_counts()` (also at line 108): the tally of the distinct values, reordered so that the counts never increase; `ValueCountsSpec` states what the entries are |
| Counts.ValueCountsSpec | dashboard/app.py:87 | `value_counts`: each value appears once, with its number of occurrences (at least 1); nothing else appears; the counts sum to the number of values; the most frequent come first |
| Dashboard.CategoryOptions | dashboard/app.py:29-30 | the category options are distinct, come from the column, and cover every row's category |
| Dashboard.ToolOptions | dashboard/app.py:35 | the tool options are distinct, never "None", come from the column, and include every tool other than "None" |
| Dashboard.ToolOptionsOrder | dashboard/app.py:35 | the tool options are in the order of their first appearance |
| Seqs.FilterFirstOrder | dashboard/app.py:35 | filtering keeps the relative order of first occurrences |
| Dashboard.SelectCategories | dashboard/app.py:47 | keeps exactly the rows whose category is selected, in order, each as many times as in the input; an empty selection keeps no rows |
| Dashboard.SelectTools | dashboard/app.py:51-52 | keeps exactly the rows whose tool is selected or whose category is "Non-User", in order, each as many times as in the input |
| Dashboard.Filtered | dashboard/app.py:47-52 | `df_filtered`: the category stage, then the tool stage; the columns are kept and the table stays well formed, and `FilteredSpec` states which rows are shown |
| Dashboard.FilteredSpec | dashboard/app.py:47-52 | a row is shown iff its category is selected and (its tool is selected or it is a Non-User); the shown rows are an order-preserving subsequence of the table, and each shown row appears as many times as in the table |
| Dashboard.TotalStudents | dashboard/app.py:62 | "Total Students" counts the shown rows: at most the number of loaded rows, and 0 when no category is selected |
| Dashboard.NonUserShownWithoutTools | dashboard/app.py:51-52 | a Non-User whose category is selected is shown even when no tool is selected |
| Dashboard.OptionsCoverRows | dashboard/app.py:29-35 | every row's category is a category option, and every tool other than "None" is a tool option |
| Dashboard.DefaultFilter | dashboard/app.py:29-52 | with the default selections, a row is hidden iff its tool is "None" and its category is not Non-User |
| Dashboard.DefaultFilterShowsAll | dashboard/app.py:29-52 | with the default selections, every row is shown when no row pairs a "None" tool with a category other than Non-User |
| Dashboard.Present | dashboard/app.py:87 | dropping NaN keeps every present value's occurrences and removes only the missing cells |
| Dashboard.CountsWithoutSentinel | dashboard/app.py:87 | the counts of a column's values other than "None" and NaN: each such value once, with its number of rows; counts non-increasing; total = rows − missing − "None" |
| Dashboard.NamedValueCounts | dashboard/app.py:87 | `t[t[name] != "None"][name].value_counts()` obeys the same over the named column |
| Dashboard.ToolCounts | dashboard/app.py:87 | the tool-popularity counts satisfy `CountsNamedValues` over `ai_tools_used` |
| Dashboard.PurposeCounts | dashboard/app.py:108 | the purpose-distribution counts satisfy `CountsNamedValues` over `purpose_of_ai` |
| Examples.StudentNumbers | src/cleaning.py:44-50 | the sample student row holds a number in each of the five numeric columns |
| Examples.RowsTheFillMakesEqual | src/cleaning.py:24-38 | two "No" respondents, one with a missing tool and one naming any tool, are different rows that become equal and complete after the fill |
| Examples.CleanUnderLabels | src/cleaning.py:21-50 | any well-formed table under the sample labels, which are already normalised and include the five numeric columns, cleans without a KeyError and keeps its labels |
| Examples.TwoRespondentsCleanedTwice | src/cleaning.py:13-52 | the table of those two respondents cleans successfully, and cleaning the result again gives a different table |

## Left out

- The model does not read or write files:
  - `load_data` in both files, `to_csv` and the `__main__` block are I/O;
  - the missing-file error is not modelled;
  - `read_csv` turning the text "None" back into NaN when the dashboard loads the CSV is not modelled. The dashboard functions take the table as it is.
- `src/quick_analysis.py` is not part of this model. It is console output and floating-point statistics.
- The dashboard's mean KPIs and their formatting (`dashboard/app.py:64-71`) are left out. They are floating-point averages.
- Streamlit widgets, page setup, caching and the plotly charts are left out. The model keeps only the data each chart is given.
- Numbers are mathematical integers. pandas' float64 arithmetic, and dtype inference by `read_csv`, are not modelled.
- Number parsing inside `pd.to_numeric` is the parameter `parse`. Its grammar belongs to pandas.
- Lower-casing (`str.lower`) is modelled for ASCII letters only. Whitespace for `strip` is Python's `str.isspace` set.
- Cleaning.Clean: two raw labels that normalise to the same label make pandas select several columns. The model reads the first one.
- Dashboard.CategoryOptions: a column the dashboard indexes is required to exist (pandas raises KeyError, which the dashboard does not handle). The same holds for the other dashboard functions.
- Counts.SortByCount: pandas does not document the order of values with equal counts. The model keeps first-appearance order.
