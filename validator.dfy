/** The plot-request check the script runs before drawing: per plot type, which selected columns
    must be numeric, and the warning shown when one is not. */
module Validator {
  import opened Schema

  /** The six plot types, in the order the selector offers them. */
  datatype PlotType = Line | Bar | Scatter | Histogram | Box | Correlation

  const PLOT_TYPES: seq<PlotType> := [Line, Bar, Scatter, Histogram, Box, Correlation]

  /** The label the selector shows for a plot type; the script compares against these labels. */
  function PlotTypeName(t: PlotType): string
  {
    match t
    case Line => "Line Plot"
    case Bar => "Bar Plot"
    case Scatter => "Scatter Plot"
    case Histogram => "Histogram"
    case Box => "Box Plot"
    case Correlation => "Correlation Matrix"
  }

  /** The script's dispatch on the selected label; a label outside the six selects no branch. */
  function ParsePlotType(name: string): (r: Option<PlotType>)
    ensures r.Some? ==> PlotTypeName(r.value) == name
    ensures (exists t :: PlotTypeName(t) == name) ==> r.Some?
  {
    if name == "Line Plot" then Some(Line)
    else if name == "Bar Plot" then Some(Bar)
    else if name == "Scatter Plot" then Some(Scatter)
    else if name == "Histogram" then Some(Histogram)
    else if name == "Box Plot" then Some(Box)
    else if name == "Correlation Matrix" then Some(Correlation)
    else None
  }

  /** Every offered label selects its own plot type. */
  lemma ParseOfName(t: PlotType)
    ensures ParsePlotType(PlotTypeName(t)) == Some(t)
  {
  }

  /** The selector offers every plot type once, and each offered label selects the plot type at
      its own position. */
  lemma SelectorOffersEveryType()
    ensures forall t: PlotType :: t in PLOT_TYPES
    ensures forall i, j :: 0 <= i < j < |PLOT_TYPES| ==> PLOT_TYPES[i] != PLOT_TYPES[j]
    ensures forall i :: 0 <= i < |PLOT_TYPES| ==> ParsePlotType(PlotTypeName(PLOT_TYPES[i])) == Some(PLOT_TYPES[i])
  {
    forall t: PlotType
      ensures t in PLOT_TYPES
    {
      match t
      case Line => assert PLOT_TYPES[0] == t;
      case Bar => assert PLOT_TYPES[1] == t;
      case Scatter => assert PLOT_TYPES[2] == t;
      case Histogram => assert PLOT_TYPES[3] == t;
      case Box => assert PLOT_TYPES[4] == t;
      case Correlation => assert PLOT_TYPES[5] == t;
    }
    forall i | 0 <= i < |PLOT_TYPES|
      ensures ParsePlotType(PlotTypeName(PLOT_TYPES[i])) == Some(PLOT_TYPES[i])
    {
      ParseOfName(PLOT_TYPES[i]);
    }
  }

  /** The histogram's bin count, from a slider bounded to [5, 50]. */
  type BinCount = b: int | 5 <= b <= 50 witness 20

  /** A plot request: the plot type with the columns selected for it. */
  datatype Request =
    | LinePlot(x: string, y: string)
    | BarPlot(x: string, y: string)
    | ScatterPlot(x: string, y: string)
    | HistogramOf(column: string, bins: BinCount)
    | BoxPlot(group: string, value: string)
    | CorrelationMatrix
  {
    function Kind(): PlotType
    {
      if LinePlot? then Line
      else if BarPlot? then Bar
      else if ScatterPlot? then Scatter
      else if HistogramOf? then Histogram
      else if BoxPlot? then Box
      else Correlation
    }
  }

  const Y_NUMERIC: string := "Y-axis column must be numeric for this plot type."
  const BOTH_NUMERIC: string := "Both X and Y columns must be numeric for scatter plot."
  const HISTOGRAM_NUMERIC: string := "Column must be numeric for histogram."
  const BOX_NUMERIC: string := "Value column must be numeric for box plot."
  const NO_NUMERIC_COLUMNS: string := "No numeric columns found in the dataset for correlation matrix."

  /** The warning each plot type shows when its type constraint fails. */
  function WarningFor(t: PlotType): string
  {
    match t
    case Line => Y_NUMERIC
    case Bar => Y_NUMERIC
    case Scatter => BOTH_NUMERIC
    case Histogram => HISTOGRAM_NUMERIC
    case Box => BOX_NUMERIC
    case Correlation => NO_NUMERIC_COLUMNS
  }

  /** The check's outcome: draw, warn, or the unexpected error an unknown column name raises
      (which the script's catch-all handler reports). */
  datatype Verdict = Accepted | Warning(message: string) | Unexpected

  // The constraint table.

  /** Every column the request selects exists; the column selectors only offer existing names. */
  predicate ColumnsExist(ds: Dataset, r: Request)
  {
    match r
    case LinePlot(x, y) => HasColumn(ds, x) && HasColumn(ds, y)
    case BarPlot(x, y) => HasColumn(ds, x) && HasColumn(ds, y)
    case ScatterPlot(x, y) => HasColumn(ds, x) && HasColumn(ds, y)
    case HistogramOf(c, _) => HasColumn(ds, c)
    case BoxPlot(g, v) => HasColumn(ds, g) && HasColumn(ds, v)
    case CorrelationMatrix => true
  }

  /** The type constraint of each plot type. */
  predicate TypesFit(ds: Dataset, r: Request)
  {
    match r
    case LinePlot(_, y) => IsNumericColumn(ds, y)
    case BarPlot(_, y) => IsNumericColumn(ds, y)
    case ScatterPlot(x, y) => IsNumericColumn(ds, x) && IsNumericColumn(ds, y)
    case HistogramOf(c, _) => IsNumericColumn(ds, c)
    case BoxPlot(_, v) => IsNumericColumn(ds, v)
    case CorrelationMatrix => |SelectedIndices(ds.columns)| > 0
  }

  /** The script's check, branch by branch, in the order it reads the columns. */
  function Validate(ds: Dataset, r: Request): (v: Verdict)
    ensures v == Accepted <==> ColumnsExist(ds, r) && TypesFit(ds, r)
    ensures ColumnsExist(ds, r) ==> v != Unexpected
    ensures v.Warning? ==> v.message == WarningFor(r.Kind()) && !TypesFit(ds, r)
  {
    match r
    case LinePlot(x, y) =>
      CheckY(ds, x, y)
    case BarPlot(x, y) =>
      CheckY(ds, x, y)
    case ScatterPlot(x, y) =>
      CheckBoth(ds, x, y)
    case HistogramOf(c, _) =>
      CheckOne(ds, c)
    case BoxPlot(g, v) =>
      CheckValue(ds, g, v)
    case CorrelationMatrix =>
      if |SelectedIndices(ds.columns)| == 0 then Warning(NO_NUMERIC_COLUMNS) else Accepted
  }

  /** Line and bar plots: the y column is read and tested first, the x column only to draw. */
  function CheckY(ds: Dataset, x: string, y: string): (v: Verdict)
    ensures v == Accepted <==> HasColumn(ds, x) && IsNumericColumn(ds, y)
    ensures HasColumn(ds, x) && HasColumn(ds, y) ==> v != Unexpected
    ensures v.Warning? ==> v == Warning(Y_NUMERIC) && !IsNumericColumn(ds, y)
    ensures !HasColumn(ds, y) ==> v == Unexpected
    ensures HasColumn(ds, y) && !IsNumericColumn(ds, y) ==> v == Warning(Y_NUMERIC)
  {
    if !HasColumn(ds, y) then Unexpected
    else if !IsNumeric(ColumnNamed(ds, y).dtype) then Warning(Y_NUMERIC)
    else if !HasColumn(ds, x) then Unexpected
    else Accepted
  }

  /** Scatter plot: the x column is tested first and the y column only when x passes. */
  function CheckBoth(ds: Dataset, x: string, y: string): (v: Verdict)
    ensures v == Accepted <==> IsNumericColumn(ds, x) && IsNumericColumn(ds, y)
    ensures HasColumn(ds, x) && HasColumn(ds, y) ==> v != Unexpected
    ensures v.Warning? ==> v == Warning(BOTH_NUMERIC) && !(IsNumericColumn(ds, x) && IsNumericColumn(ds, y))
    ensures !HasColumn(ds, x) ==> v == Unexpected
    ensures HasColumn(ds, x) && !IsNumericColumn(ds, x) ==> v == Warning(BOTH_NUMERIC)
    ensures IsNumericColumn(ds, x) && !HasColumn(ds, y) ==> v == Unexpected
  {
    if !HasColumn(ds, x) then Unexpected
    else if !IsNumeric(ColumnNamed(ds, x).dtype) then Warning(BOTH_NUMERIC)
    else if !HasColumn(ds, y) then Unexpected
    else if !IsNumeric(ColumnNamed(ds, y).dtype) then Warning(BOTH_NUMERIC)
    else Accepted
  }

  /** Histogram: its one column is tested. */
  function CheckOne(ds: Dataset, c: string): (v: Verdict)
    ensures v == Accepted <==> IsNumericColumn(ds, c)
    ensures HasColumn(ds, c) ==> v != Unexpected
    ensures v.Warning? ==> v == Warning(HISTOGRAM_NUMERIC) && !IsNumericColumn(ds, c)
  {
    if !HasColumn(ds, c) then Unexpected
    else if !IsNumeric(ColumnNamed(ds, c).dtype) then Warning(HISTOGRAM_NUMERIC)
    else Accepted
  }

  /** Box plot: the value column is tested first, the grouping column only read to group. */
  function CheckValue(ds: Dataset, g: string, v: string): (w: Verdict)
    ensures w == Accepted <==> HasColumn(ds, g) && IsNumericColumn(ds, v)
    ensures HasColumn(ds, g) && HasColumn(ds, v) ==> w != Unexpected
    ensures w.Warning? ==> w == Warning(BOX_NUMERIC) && !IsNumericColumn(ds, v)
    ensures !HasColumn(ds, v) ==> w == Unexpected
    ensures HasColumn(ds, v) && !IsNumericColumn(ds, v) ==> w == Warning(BOX_NUMERIC)
  {
    if !HasColumn(ds, v) then Unexpected
    else if !IsNumeric(ColumnNamed(ds, v).dtype) then Warning(BOX_NUMERIC)
    else if !HasColumn(ds, g) then Unexpected
    else Accepted
  }

  // The constraint table, one plot type at a time.

  /** Line and bar plots warn exactly when the y column is not numeric; the type of the x
      column plays no part. */
  lemma LineBarRule(ds: Dataset, x: string, y: string, x': string)
    requires HasColumn(ds, x) && HasColumn(ds, x') && HasColumn(ds, y)
    ensures Validate(ds, LinePlot(x, y)) == Validate(ds, BarPlot(x, y))
    ensures Validate(ds, LinePlot(x, y)) == (if IsNumericColumn(ds, y) then Accepted else Warning(Y_NUMERIC))
    ensures Validate(ds, LinePlot(x, y)) == Validate(ds, LinePlot(x', y))
  {
  }

  /** A scatter plot is accepted exactly when both columns are numeric, and warns otherwise. */
  lemma ScatterRule(ds: Dataset, x: string, y: string)
    requires HasColumn(ds, x) && HasColumn(ds, y)
    ensures Validate(ds, ScatterPlot(x, y)) ==
      (if IsNumericColumn(ds, x) && IsNumericColumn(ds, y) then Accepted else Warning(BOTH_NUMERIC))
  {
  }

  /** A histogram is accepted exactly when its column is numeric, whatever the bin count. */
  lemma HistogramRule(ds: Dataset, c: string, bins: BinCount)
    requires HasColumn(ds, c)
    ensures Validate(ds, HistogramOf(c, bins)) ==
      (if IsNumericColumn(ds, c) then Accepted else Warning(HISTOGRAM_NUMERIC))
  {
  }

  /** A box plot is accepted exactly when its value column is numeric; the grouping column may
      have any type. */
  lemma BoxRule(ds: Dataset, g: string, v: string)
    requires HasColumn(ds, g) && HasColumn(ds, v)
    ensures Validate(ds, BoxPlot(g, v)) ==
      (if IsNumericColumn(ds, v) then Accepted else Warning(BOX_NUMERIC))
  {
  }

  /** The correlation matrix warns exactly when no column is float64 or int64, so a table whose
      only numeric column is boolean can be line-plotted but not correlated. */
  lemma CorrelationRule(ds: Dataset)
    ensures Validate(ds, CorrelationMatrix) == Warning(NO_NUMERIC_COLUMNS) <==>
      forall i :: 0 <= i < |ds.columns| ==> !IsFloat64OrInt64(ds.columns[i].dtype)
    ensures Validate(ds, CorrelationMatrix) != Unexpected
  {
    SelectionEmptyIff(ds.columns);
  }

  /** The two meanings of "numeric" disagree on a boolean column: a line plot of it is accepted,
      a correlation matrix of a table made only of it warns. */
  lemma BooleanColumnDisagreement()
    ensures Validate(Dataset([Column("flag", Boolean, [])], 0), LinePlot("flag", "flag")) == Accepted
    ensures Validate(Dataset([Column("flag", Boolean, [])], 0), CorrelationMatrix) == Warning(NO_NUMERIC_COLUMNS)
  {
    var ds := Dataset([Column("flag", Boolean, [])], 0);
    assert ds.columns[0].name == "flag";
    assert HasColumn(ds, "flag");
  }
}
