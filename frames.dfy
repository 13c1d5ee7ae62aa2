/** The tabular data the pipeline works on: a pandas data frame reduced to named
    columns and positional rows of optional cells, together with the few frame
    operations the pipeline relies on (`drop_duplicates`, `dropna(subset=...)` and
    column assignment `df[name] = values`). */
module Frames {
  import opened Seqs

  datatype Option<+T> = None | Some(value: T)

  /** A non-missing cell: text, or a number. Numbers are integers in this model. */
  datatype Cell = Str(text: string) | Num(n: int)

  /** One row: a cell per column, in column order; `None` is a missing value (NaN). */
  type Row = seq<Option<Cell>>

  /** The value of a data frame: column labels and rows. */
  datatype Table = Table(columns: seq<string>, rows: seq<Row>)

  /** The errors pandas raises on the paths modelled here. */
  datatype Error =
    | KeyError(missing: seq<string>)   // labels asked for that are not columns
    | TypeError                        // arithmetic on text cells

  datatype Result<+T> = Ok(value: T) | Err(error: Error)

  /** Every row has one cell per column. */
  predicate WellFormed(t: Table) {
    forall r :: r in t.rows ==> |r| == |t.columns|
  }

  function Text(s: string): Option<Cell> {
    Some(Str(s))
  }

  /** The cell of row `r` under label `name` (the first column so labelled), or
      missing when there is no such column. */
  function Lookup(columns: seq<string>, r: Row, name: string): Option<Cell> {
    var k := IndexOf(columns, name);
    if 0 <= k < |r| then r[k] else None
  }

  /** The values of one column, `df[name]`, row by row. */
  function Column(t: Table, name: string): (values: seq<Option<Cell>>)
    ensures |values| == |t.rows|
    ensures forall i :: 0 <= i < |t.rows| ==> values[i] == Lookup(t.columns, t.rows[i], name)
  {
    seq(|t.rows|, i requires 0 <= i < |t.rows| => Lookup(t.columns, t.rows[i], name))
  }

  /** Row `r` has a value in every column of `subset`. */
  predicate Complete(columns: seq<string>, r: Row, subset: seq<string>) {
    forall n :: n in subset ==> Lookup(columns, r, n).Some?
  }

  function IsComplete(columns: seq<string>, subset: seq<string>): Row -> bool {
    r => Complete(columns, r, subset)
  }

  function NotAColumn(columns: seq<string>): string -> bool {
    n => n !in columns
  }

  /** `df.dropna(subset=subset)`: the rows with a value in every column of `subset`,
      in order; a KeyError naming the labels of `subset` that are not columns. */
  function DroppedIncomplete(t: Table, subset: seq<string>): (res: Result<Table>)
    requires WellFormed(t)
    ensures res.Err? <==> exists n :: n in subset && n !in t.columns
    ensures res.Err? ==> (res.error.KeyError? && res.error.missing != [] &&
                          forall n :: n in res.error.missing <==> n in subset && n !in t.columns)
    ensures res.Ok? ==> WellFormed(res.value) && res.value.columns == t.columns
    ensures res.Ok? ==> IsSubsequence(res.value.rows, t.rows)
    ensures res.Ok? ==> forall r :: r in res.value.rows <==> r in t.rows && Complete(t.columns, r, subset)
    ensures res.Ok? ==> forall r :: Count(res.value.rows, r) == if Complete(t.columns, r, subset) then Count(t.rows, r) else 0
  {
    var missing := Filter(subset, NotAColumn(t.columns));
    if missing != [] then Err(KeyError(missing))
    else
      assert forall n :: n in subset ==> n in t.columns by {
        forall n | n in subset ensures n in t.columns {
          var k :| 0 <= k < |subset| && subset[k] == n;
        }
      }
      FilterCounts(t.rows, IsComplete(t.columns, subset));
      Ok(Table(t.columns, Filter(t.rows, IsComplete(t.columns, subset))))
  }

  /** Each row with its cell at position `k` replaced by the row's value. */
  function SetCells(rows: seq<Row>, k: nat, values: seq<Option<Cell>>): (r: seq<Row>)
    requires |values| == |rows| && forall i :: 0 <= i < |rows| ==> k < |rows[i]|
    ensures |r| == |rows|
    ensures forall i :: 0 <= i < |rows| ==> r[i] == rows[i][k := values[i]]
  {
    seq(|rows|, i requires 0 <= i < |rows| => rows[i][k := values[i]])
  }

  /** Each row with the row's value appended. */
  function AppendCells(rows: seq<Row>, values: seq<Option<Cell>>): (r: seq<Row>)
    requires |values| == |rows|
    ensures |r| == |rows|
    ensures forall i :: 0 <= i < |rows| ==> r[i] == rows[i] + [values[i]]
  {
    seq(|rows|, i requires 0 <= i < |rows| => rows[i] + [values[i]])
  }

  /** `df[name] = values`: overwrite the column labelled `name`, or append a new
      column at the end when there is none. */
  function WithColumn(t: Table, name: string, values: seq<Option<Cell>>): (u: Table)
    requires WellFormed(t) && |values| == |t.rows|
    ensures WellFormed(u)
    ensures u.columns == if name in t.columns then t.columns else t.columns + [name]
    ensures t.columns <= u.columns
    ensures |u.rows| == |t.rows|
  {
    var k := IndexOf(t.columns, name);
    forall i | 0 <= i < |t.rows| ensures |t.rows[i]| == |t.columns| {
      assert t.rows[i] in t.rows;
    }
    var columns := if k >= 0 then t.columns else t.columns + [name];
    var rows := if k >= 0 then SetCells(t.rows, k, values) else AppendCells(t.rows, values);
    assert forall i :: 0 <= i < |rows| ==> |rows[i]| == |columns|;
    forall r | r in rows ensures |r| == |columns| {
      var i :| 0 <= i < |rows| && rows[i] == r;
    }
    Table(columns, rows)
  }

  /** After `df[name] = values` the labels are the old ones and `name`. */
  lemma WithColumnHas(t: Table, name: string, values: seq<Option<Cell>>, other: string)
    requires WellFormed(t) && |values| == |t.rows|
    ensures other in WithColumn(t, name, values).columns <==> other in t.columns || other == name
  {
  }

  /** After `df[name] = values` the column `name` reads `values`, row by row, and
      every other cell is where it was. */
  lemma WithColumnSpec(t: Table, name: string, values: seq<Option<Cell>>)
    requires WellFormed(t) && |values| == |t.rows|
    ensures forall i :: 0 <= i < |t.rows| ==>
              Lookup(WithColumn(t, name, values).columns, WithColumn(t, name, values).rows[i], name) == values[i]
    ensures forall i, j :: 0 <= i < |t.rows| && 0 <= j < |t.rows[i]| && j != IndexOf(t.columns, name) ==>
              WithColumn(t, name, values).rows[i][j] == t.rows[i][j]
  {
    var u := WithColumn(t, name, values);
    var k := IndexOf(t.columns, name);
    IndexOfAppend(t.columns, name, name);
    forall i | 0 <= i < |t.rows| ensures Lookup(u.columns, u.rows[i], name) == values[i] {
      assert t.rows[i] in t.rows;
    }
  }

  /** Assigning column `name` does not move or change any other column. */
  lemma WithColumnLookup(t: Table, name: string, values: seq<Option<Cell>>, other: string, i: int)
    requires WellFormed(t) && |values| == |t.rows| && 0 <= i < |t.rows| && other != name
    ensures Lookup(WithColumn(t, name, values).columns, WithColumn(t, name, values).rows[i], other) ==
            Lookup(t.columns, t.rows[i], other)
  {
    var u := WithColumn(t, name, values);
    var k := IndexOf(t.columns, other);
    WithColumnSpec(t, name, values);
    if k >= 0 {
      assert u.columns[..k] == t.columns[..k];
      IndexOfUnique(u.columns, other, k);
      assert t.rows[i] in t.rows;
    }
  }

  /** Assigning column `name` leaves every cell of the other columns as it was. */
  lemma WithColumnKeeps(t: Table, name: string, values: seq<Option<Cell>>, i: int, j: int)
    requires WellFormed(t) && |values| == |t.rows|
    requires 0 <= i < |t.rows| && 0 <= j < |t.columns| && t.columns[j] != name
    ensures j < |WithColumn(t, name, values).rows[i]|
    ensures WithColumn(t, name, values).rows[i][j] == t.rows[i][j]
  {
    assert t.rows[i] in t.rows;
    assert WithColumn(t, name, values).rows[i] in WithColumn(t, name, values).rows;
    WithColumnSpec(t, name, values);
  }

  /** A pandas data frame: its column labels and its rows, both of which the
      pipeline updates in place. */
  class DataFrame {
    var columns: seq<string>
    var rows: seq<Row>

    function Value(): Table
      reads this
    {
      Table(columns, rows)
    }

    ghost predicate Valid()
      reads this
    {
      WellFormed(Value())
    }

    constructor (t: Table)
      requires WellFormed(t)
      ensures Valid() && Value() == t
    {
      columns := t.columns;
      rows := t.rows;
    }

    /** `df.drop_duplicates()`: a new frame keeping the first of every group of equal rows. */
    method DropDuplicates() returns (d: DataFrame)
      requires Valid()
      ensures fresh(d) && d.Valid()
      ensures d.Value() == Table(columns, KeepFirst(rows))
    {
      var kept: seq<Row> := [];
      var i := 0;
      while i < |rows|
        invariant 0 <= i <= |rows|
        invariant kept == KeepFirst(rows[..i])
      {
        assert rows[..i + 1][..i] == rows[..i];
        if rows[i] !in kept {
          kept := kept + [rows[i]];
        }
        i := i + 1;
      }
      assert rows[..i] == rows;
      forall m | 0 <= m < |kept| ensures |kept[m]| == |columns| {
        assert kept[m] in rows;
      }
      d := new DataFrame(Table(columns, kept));
    }

    /** `df.dropna(subset=subset)`: a new frame, or the KeyError pandas raises. */
    method DropNa(subset: seq<string>) returns (res: Result<DataFrame>)
      requires Valid()
      ensures res.Err? ==> DroppedIncomplete(Value(), subset) == Err(res.error)
      ensures res.Ok? ==> (fresh(res.value) && res.value.Valid() &&
                           DroppedIncomplete(Value(), subset) == Ok(res.value.Value()))
    {
      var missing: seq<string> := [];
      for k := 0 to |subset|
        invariant missing == Filter(subset[..k], NotAColumn(columns))
      {
        assert subset[..k + 1][..k] == subset[..k];
        if subset[k] !in columns {
          missing := missing + [subset[k]];
        }
      }
      assert subset[..|subset|] == subset;
      if missing != [] {
        return Err(KeyError(missing));
      }
      var kept: seq<Row> := [];
      var i := 0;
      while i < |rows|
        invariant 0 <= i <= |rows|
        invariant kept == Filter(rows[..i], IsComplete(columns, subset))
      {
        assert rows[..i + 1][..i] == rows[..i];
        if Complete(columns, rows[i], subset) {
          kept := kept + [rows[i]];
        }
        i := i + 1;
      }
      assert rows[..i] == rows;
      var d := new DataFrame(Table(columns, kept));
      res := Ok(d);
    }

    /** `df[name] = values`, in place. */
    method SetColumn(name: string, values: seq<Option<Cell>>)
      requires Valid() && |values| == |rows|
      modifies this
      ensures Valid() && Value() == WithColumn(old(Value()), name, values)
    {
      var u := WithColumn(Value(), name, values);
      columns := u.columns;
      rows := u.rows;
    }
  }
}
