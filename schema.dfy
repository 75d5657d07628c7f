/** The loaded table as the visualizer sees it: named columns, each with the data type the CSV
    reader inferred and its cells. The two different meanings of "numeric" in the script are
    two predicates on that data type. */
module Schema {
  import opened Cells

  datatype Option<T> = None | Some(value: T)

  /** The data types a loaded column can have. `OtherNumeric` stands for every other type the
      table library counts as numeric (narrower integers, float32, complex). */
  datatype DType = Int64 | Float64 | Boolean | OtherNumeric | Object | DateTime

  /** The table library's general numeric test; it accepts booleans. */
  predicate IsNumeric(t: DType)
  {
    t != Object && t != DateTime
  }

  /** The selection by the two type names float64 and int64, used by the correlation matrix. */
  predicate IsFloat64OrInt64(t: DType)
  {
    t == Int64 || t == Float64
  }

  /** The correlation matrix's test is strictly narrower than the test of the other plot types. */
  lemma Float64OrInt64IsNarrower()
    ensures forall t :: IsFloat64OrInt64(t) ==> IsNumeric(t)
    ensures IsNumeric(Boolean) && !IsFloat64OrInt64(Boolean)
    ensures IsNumeric(OtherNumeric) && !IsFloat64OrInt64(OtherNumeric)
  {
  }

  datatype Column = Column(name: string, dtype: DType, cells: seq<Cell>)

  /** A table: its columns in file order and its number of rows. */
  datatype Dataset = Dataset(columns: seq<Column>, rows: nat)

  /** A table as the CSV reader builds it: every column has one cell per row, and no two
      columns share a name (the reader renames repeated header names). */
  ghost predicate WellFormed(ds: Dataset)
  {
    && (forall i :: 0 <= i < |ds.columns| ==> |ds.columns[i].cells| == ds.rows)
    && (forall i, j :: 0 <= i < j < |ds.columns| ==> ds.columns[i].name != ds.columns[j].name)
  }

  /** Column selection by name, `df[name]`; `None` is the key error of an unknown name. */
  function Lookup(cols: seq<Column>, name: string): (r: Option<Column>)
    ensures r.Some? <==> exists i :: 0 <= i < |cols| && cols[i].name == name
    ensures r.Some? ==> r.value in cols && r.value.name == name
  {
    if cols == [] then None
    else if cols[0].name == name then Some(cols[0])
    else Lookup(cols[1..], name)
  }

  predicate HasColumn(ds: Dataset, name: string)
  {
    Lookup(ds.columns, name).Some?
  }

  function ColumnNamed(ds: Dataset, name: string): Column
    requires HasColumn(ds, name)
  {
    Lookup(ds.columns, name).value
  }

  /** In a well-formed table every column found by name has one cell per row, so `len(df)` is
      the length of any of its columns. */
  lemma ColumnLength(ds: Dataset, name: string)
    requires WellFormed(ds) && HasColumn(ds, name)
    ensures |ColumnNamed(ds, name).cells| == ds.rows
  {
    var c := ColumnNamed(ds, name);
    var i :| 0 <= i < |ds.columns| && ds.columns[i] == c;
  }

  predicate IsNumericColumn(ds: Dataset, name: string)
  {
    HasColumn(ds, name) && IsNumeric(ColumnNamed(ds, name).dtype)
  }

  /** Positions of the float64 and int64 columns, `select_dtypes(include=['float64', 'int64'])`:
      exactly those columns, each once, in the table's column order. */
  function SelectedIndices(cols: seq<Column>): (r: seq<nat>)
    ensures forall k :: 0 <= k < |r| ==> r[k] < |cols| && IsFloat64OrInt64(cols[r[k]].dtype)
    ensures forall i :: 0 <= i < |cols| && IsFloat64OrInt64(cols[i].dtype) ==> i in r
    ensures forall k, l :: 0 <= k < l < |r| ==> r[k] < r[l]
  {
    if cols == [] then []
    else
      var p := SelectedIndices(cols[..|cols| - 1]);
      assert forall i :: 0 <= i < |cols| - 1 ==> cols[..|cols| - 1][i] == cols[i];
      if IsFloat64OrInt64(cols[|cols| - 1].dtype) then p + [|cols| - 1] else p
  }

  /** The names of the float64 and int64 columns, in column order: name `k` is the name of
      the `k`-th selected column, and every such column's name is there. */
  function SelectedNames(cols: seq<Column>): (r: seq<string>)
    ensures |r| == |SelectedIndices(cols)|
    ensures forall k :: 0 <= k < |r| ==> r[k] == cols[SelectedIndices(cols)[k]].name
    ensures forall i :: 0 <= i < |cols| && IsFloat64OrInt64(cols[i].dtype) ==> cols[i].name in r
  {
    var idx := SelectedIndices(cols);
    var names := seq(|idx|, k requires 0 <= k < |idx| => cols[idx[k]].name);
    forall i | 0 <= i < |cols| && IsFloat64OrInt64(cols[i].dtype) ensures cols[i].name in names {
      var k :| 0 <= k < |idx| && idx[k] == i;
      assert names[k] == cols[i].name;
    }
    names
  }

  /** The selection is empty exactly when no column is float64 or int64. */
  lemma SelectionEmptyIff(cols: seq<Column>)
    ensures |SelectedIndices(cols)| == 0 <==> forall i :: 0 <= i < |cols| ==> !IsFloat64OrInt64(cols[i].dtype)
  {
  }
}
