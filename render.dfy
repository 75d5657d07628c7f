/** The render plan: for an accepted request, what the script itself decides about the chart
    (titles, axis labels, tick rotation, colour fractions, box grouping and labels, correlation
    cell texts), with the plotting library's drawing left symbolic. */
module Render {
  import opened Cells
  import opened Schema
  import opened Palette
  import opened Validator

  // Tick rotation

  /** Rotation of the x tick labels: 45 degrees when the x column has more than ten distinct
      values (counting a missing value as one), 0 otherwise. */
  function XTickRotation(xs: seq<Cell>): (deg: int)
    ensures deg == 45 <==> |Elements(xs)| > 10
    ensures deg == 0 <==> |Elements(xs)| <= 10
  {
    if DistinctCount(xs) > 10 then 45 else 0
  }

  /** The correlation matrix always rotates its x tick labels by this much. */
  const CORRELATION_X_ROTATION: int := 45

  // Correlation cell texts

  /** One entry of the correlation matrix; a constant column correlates as NaN. */
  datatype CorrValue = Finite(r: real) | NaN

  datatype TextColour = White | Black

  function Abs(x: real): real
  {
    if x < 0.0 then -x else x
  }

  /** The contrast rule for the text on a correlation cell: white on strong correlations, black
      on weak ones, on exactly 0.5 in magnitude, and on NaN (whose comparisons are all false). */
  function TextColourFor(v: CorrValue): (c: TextColour)
    ensures c == Black <==> v.NaN? || (-0.5 <= v.r <= 0.5)
  {
    if v.Finite? && Abs(v.r) > 0.5 then White else Black
  }

  /** The contrast rule depends on the magnitude only: a correlation and its negation get the
      same text colour. */
  lemma ContrastIgnoresSign(r: real)
    ensures TextColourFor(Finite(r)) == TextColourFor(Finite(-r))
    ensures TextColourFor(Finite(r)) == White <==> r > 0.5 || r < -0.5
  {
  }

  /** The text drawn on one cell: at column `x` and row `y`, showing `value` (which the script
      formats with two decimals) in `colour`. */
  datatype CellText = CellText(x: nat, y: nat, value: CorrValue, colour: TextColour)

  /** `m` is an `n` by `n` matrix. */
  ghost predicate Square(m: seq<seq<CorrValue>>, n: nat)
  {
    |m| == n && forall i :: 0 <= i < n ==> |m[i]| == n
  }

  /** The text for the cell in row `i` and column `j`. */
  function Annotation(m: seq<seq<CorrValue>>, i: nat, j: nat): CellText
    requires Square(m, |m|) && i < |m| && j < |m|
  {
    CellText(j, i, m[i][j], TextColourFor(m[i][j]))
  }

  function RowTexts(m: seq<seq<CorrValue>>, i: nat): (r: seq<CellText>)
    requires Square(m, |m|) && i < |m|
    ensures |r| == |m|
    ensures forall j :: 0 <= j < |m| ==> r[j] == Annotation(m, i, j)
  {
    seq(|m|, j requires 0 <= j < |m| => Annotation(m, i, j))
  }

  /** The texts of the first `k` rows, row after row, each row left to right. */
  function TextsUpTo(m: seq<seq<CorrValue>>, k: nat): seq<CellText>
    requires Square(m, |m|) && k <= |m|
  {
    if k == 0 then [] else TextsUpTo(m, k - 1) + RowTexts(m, k - 1)
  }

  /** The texts of the whole matrix, in the order the script's nested loops emit them. */
  function CellTexts(m: seq<seq<CorrValue>>): seq<CellText>
    requires Square(m, |m|)
  {
    TextsUpTo(m, |m|)
  }

  lemma MulMonotone(a: nat, b: nat, n: nat)
    requires a <= b
    ensures a * n <= b * n
  {
    assert b * n == a * n + (b - a) * n;
  }

  /** A position `y * n + x` with `x < n` determines its row and its column. */
  lemma PositionUnique(y: nat, x: nat, y': nat, x': nat, n: nat)
    requires x < n && x' < n && y * n + x == y' * n + x'
    ensures y == y' && x == x'
  {
    if y < y' {
      MulMonotone(y + 1, y', n);
      assert false;
    } else if y' < y {
      MulMonotone(y' + 1, y, n);
      assert false;
    }
  }

  /** Text number `p` of the first `k` rows belongs to the cell at row `p / n`, column `p % n`. */
  lemma {:induction false} TextsUpToLayout(m: seq<seq<CorrValue>>, k: nat)
    requires Square(m, |m|) && k <= |m|
    ensures |TextsUpTo(m, k)| == k * |m|
    ensures forall p :: 0 <= p < |TextsUpTo(m, k)| ==>
      && TextsUpTo(m, k)[p].y < k && TextsUpTo(m, k)[p].x < |m|
      && p == TextsUpTo(m, k)[p].y * |m| + TextsUpTo(m, k)[p].x
      && TextsUpTo(m, k)[p] == Annotation(m, TextsUpTo(m, k)[p].y, TextsUpTo(m, k)[p].x)
  {
    if k > 0 {
      var n := |m|;
      TextsUpToLayout(m, k - 1);
      var prev := TextsUpTo(m, k - 1);
      var row := RowTexts(m, k - 1);
      assert TextsUpTo(m, k) == prev + row;
      assert |prev| == (k - 1) * n;
      assert (k - 1) * n + n == k * n;
      forall p | (k - 1) * n <= p < k * n
        ensures p - (k - 1) * n < n
        ensures TextsUpTo(m, k)[p] == Annotation(m, k - 1, p - (k - 1) * n)
      {
      }
    }
  }

  /** The text for row `i`, column `j` stands at position `i * n + j`. */
  lemma TextAt(m: seq<seq<CorrValue>>, i: nat, j: nat)
    requires Square(m, |m|) && i < |m| && j < |m|
    ensures i * |m| + j < |CellTexts(m)| && CellTexts(m)[i * |m| + j] == Annotation(m, i, j)
  {
    var n := |m|;
    var t := CellTexts(m);
    TextsUpToLayout(m, n);
    var p := i * n + j;
    MulMonotone(i + 1, n, n);
    assert p < n * n;
    var c := t[p];
    assert p == c.y * n + c.x;
    PositionUnique(c.y, c.x, i, j, n);
  }

  /** The nested loops emit exactly one text per cell of the n by n matrix: n * n texts, each
      for a cell inside the matrix and showing that cell's value and colour, no cell twice, and
      every cell's text among them. */
  lemma OneTextPerCell(m: seq<seq<CorrValue>>)
    requires Square(m, |m|)
    ensures |CellTexts(m)| == |m| * |m|
    ensures forall p :: 0 <= p < |CellTexts(m)| ==>
      CellTexts(m)[p].y < |m| && CellTexts(m)[p].x < |m| &&
      CellTexts(m)[p] == Annotation(m, CellTexts(m)[p].y, CellTexts(m)[p].x)
    ensures forall p, q :: 0 <= p < q < |CellTexts(m)| ==>
      CellTexts(m)[p].y != CellTexts(m)[q].y || CellTexts(m)[p].x != CellTexts(m)[q].x
    ensures forall i, j :: 0 <= i < |m| && 0 <= j < |m| ==> Annotation(m, i, j) in CellTexts(m)
  {
    TextsUpToLayout(m, |m|);
    forall p, q | 0 <= p < q < |CellTexts(m)|
      ensures CellTexts(m)[p].y != CellTexts(m)[q].y || CellTexts(m)[p].x != CellTexts(m)[q].x
    {
    }
    forall i, j | 0 <= i < |m| && 0 <= j < |m|
      ensures Annotation(m, i, j) in CellTexts(m)
    {
      TextAt(m, i, j);
    }
  }

  /** The script's nested loops over rows and columns, emitting one text per cell. */
  method AnnotateCells(m: seq<seq<CorrValue>>) returns (texts: seq<CellText>)
    requires Square(m, |m|)
    ensures texts == CellTexts(m)
  {
    var n := |m|;
    texts := [];
    for i := 0 to n
      invariant texts == TextsUpTo(m, i)
    {
      for j := 0 to n
        invariant texts == TextsUpTo(m, i) + RowTexts(m, i)[..j]
      {
        texts := texts + [CellText(j, i, m[i][j], TextColourFor(m[i][j]))];
        assert RowTexts(m, i)[..j + 1] == RowTexts(m, i)[..j] + [RowTexts(m, i)[j]];
      }
      assert RowTexts(m, i)[..n] == RowTexts(m, i);
    }
  }

  // Titles and axis labels

  ghost predicate EndsWith(t: string, s: string)
  {
    |s| <= |t| && t[|t| - |s|..] == s
  }

  /** `a + b + c` starts with `a` and ends with `c`. */
  lemma Framed(a: string, b: string, c: string)
    ensures a <= a + b + c && EndsWith(a + b + c, c)
  {
    assert (a + b + c)[..|a|] == a;
    assert (a + b + c)[|a + b|..] == c;
  }

  /** The chart title: it starts with the plot type's label and ends with the column the
      chart is read against (the x column, the histogram's column, the grouping column). */
  function Title(r: Request): (t: string)
    ensures PlotTypeName(r.Kind()) <= t
    ensures (r.LinePlot? || r.BarPlot? || r.ScatterPlot?) ==> EndsWith(t, " vs " + r.x)
    ensures r.HistogramOf? ==> EndsWith(t, " of " + r.column)
    ensures r.BoxPlot? ==> EndsWith(t, " grouped by " + r.group)
  {
    // Each title is the plot type's label, a middle part and a closing part.
    var (middle, closing) :=
      match r
      case LinePlot(x, y) => (" of " + y, " vs " + x)
      case BarPlot(x, y) => (" of " + y, " vs " + x)
      case ScatterPlot(x, y) => (" of " + y, " vs " + x)
      case HistogramOf(c, _) => ("", " of " + c)
      case BoxPlot(g, v) => (" of " + v, " grouped by " + g)
      case CorrelationMatrix => ("", "");
    Framed(PlotTypeName(r.Kind()), middle, closing);
    PlotTypeName(r.Kind()) + middle + closing
  }

  /** The titles in full: "<plot type> of <y> vs <x>" for line, bar and scatter plots,
      "Histogram of <column>", "Box Plot of <value> grouped by <group>" and the bare
      "Correlation Matrix". */
  lemma XyTitle(x: string, y: string)
    ensures Title(LinePlot(x, y)) == "Line Plot" + " of " + y + " vs " + x
    ensures Title(BarPlot(x, y)) == "Bar Plot" + " of " + y + " vs " + x
    ensures Title(ScatterPlot(x, y)) == "Scatter Plot" + " of " + y + " vs " + x
  {
  }

  lemma HistogramTitle(c: string, bins: BinCount)
    ensures Title(HistogramOf(c, bins)) == "Histogram" + " of " + c
  {
  }

  lemma BoxTitle(g: string, v: string)
    ensures Title(BoxPlot(g, v)) == "Box Plot" + " of " + v + " grouped by " + g
  {
  }

  lemma CorrelationTitle()
    ensures Title(CorrelationMatrix) == "Correlation Matrix"
  {
  }

  /** Title and axis labels of a chart with axes. */
  datatype Axes = Axes(title: string, xLabel: string, yLabel: string)

  // Box grouping

  /** The positions among the first `n` rows whose grouping cell is `key`: exactly those rows,
      each once, in row order. */
  function KeyRows(groups: seq<Cell>, key: Cell, n: nat): (r: seq<nat>)
    requires n <= |groups|
    ensures forall k :: 0 <= k < |r| ==> r[k] < n && groups[r[k]] == key
    ensures forall i :: 0 <= i < n && groups[i] == key ==> i in r
    ensures forall k, l :: 0 <= k < l < |r| ==> r[k] < r[l]
  {
    if n == 0 then []
    else KeyRows(groups, key, n - 1) + (if groups[n - 1] == key then [n - 1] else [])
  }

  function Min(a: nat, b: nat): nat
  {
    if a < b then a else b
  }

  /** The values of the rows whose grouping cell is `key`, in row order and with repetitions,
      as the group-by hands them to the box plot: one value per such row. */
  function ValuesWithKey(groups: seq<Cell>, values: seq<Cell>, key: Cell): (r: seq<Cell>)
    ensures var rows := KeyRows(groups, key, Min(|groups|, |values|));
      |r| == |rows| && forall k :: 0 <= k < |r| ==> r[k] == values[rows[k]]
    ensures forall c :: c in r ==> exists i :: 0 <= i < |groups| && i < |values| && groups[i] == key && values[i] == c
    ensures forall i :: 0 <= i < |groups| && i < |values| && groups[i] == key ==> values[i] in r
  {
    var rows := KeyRows(groups, key, Min(|groups|, |values|));
    var r := seq(|rows|, k requires 0 <= k < |rows| => values[rows[k]]);
    forall i | 0 <= i < |groups| && i < |values| && groups[i] == key ensures values[i] in r {
      var k :| 0 <= k < |rows| && rows[k] == i;
      assert r[k] == values[i];
    }
    r
  }

  /** The data of each box, one per group key, in the group-by's order. */
  function BoxData(groups: seq<Cell>, values: seq<Cell>, keys: seq<Cell>): (r: seq<seq<Cell>>)
    ensures |r| == |keys|
    ensures forall k :: 0 <= k < |keys| ==> r[k] == ValuesWithKey(groups, values, keys[k])
  {
    seq(|keys|, k requires 0 <= k < |keys| => ValuesWithKey(groups, values, keys[k]))
  }

  // The chart

  /** What the script has decided about a chart once it is drawn. */
  datatype Chart =
    | LineChart(axes: Axes, colour: Colour, xTickRotation: int)
    | BarChart(axes: Axes, barColours: seq<Colour>, xTickRotation: int)
    | ScatterChart(axes: Axes, colourValues: seq<int>, scheme: Scheme, colourBarLabel: string)
    | HistogramChart(axes: Axes, bins: BinCount, patchColours: seq<Colour>)
    | BoxChart(axes: Axes, groups: seq<Cell>, boxes: seq<seq<Cell>>, tickLabels: seq<Cell>,
               boxColours: seq<Colour>, boxAlpha: real, xTickRotation: int)
    | CorrelationChart(title: string, columns: seq<string>, texts: seq<CellText>, scheme: Scheme,
                       xTickRotation: int)
  {
    function Title(): string
    {
      if CorrelationChart? then title else axes.title
    }
  }

  /** The outcome of one interaction: a drawn chart, a warning, or the catch-all error. */
  datatype Outcome = Drawn(chart: Chart) | Warned(message: string) | Failed

  /** The whole decision of one interaction: check the request, then decide the chart.
      `corr` is the correlation matrix the table library computes over the float64 and int64
      columns; it is read only for a correlation matrix. */
  function Render(ds: Dataset, r: Request, scheme: Scheme, corr: seq<seq<CorrValue>>): (o: Outcome)
    requires WellFormed(ds)
    requires r.CorrelationMatrix? ==> Square(corr, |SelectedIndices(ds.columns)|)
    ensures o.Drawn? ==> Validate(ds, r) == Accepted
    ensures o.Drawn? ==> o.chart.Title() == Title(r)
    ensures Validate(ds, r).Warning? ==> o == Warned(Validate(ds, r).message)
    ensures Validate(ds, r) == Unexpected ==> o == Failed
    ensures Validate(ds, r) == Accepted && !r.BoxPlot? ==> o.Drawn?
    ensures Validate(ds, r) == Accepted && r.BoxPlot? ==>
      (o.Drawn? <==> BoxDrawable(ColumnNamed(ds, r.group).cells))
    ensures Validate(ds, r) == Accepted && !o.Drawn? ==> o == Failed
  {
    match Validate(ds, r)
    case Warning(message) => Warned(message)
    case Unexpected => Failed
    case Accepted => Draw(ds, r, scheme, corr)
  }

  /** The chart of an accepted request. */
  function Draw(ds: Dataset, r: Request, scheme: Scheme, corr: seq<seq<CorrValue>>): (o: Outcome)
    requires Validate(ds, r) == Accepted
    requires r.CorrelationMatrix? ==> Square(corr, |SelectedIndices(ds.columns)|)
    ensures o.Drawn? ==> o.chart.Title() == Title(r)
    ensures !r.BoxPlot? ==> o.Drawn?
    ensures r.BoxPlot? ==> (o.Drawn? <==> BoxDrawable(ColumnNamed(ds, r.group).cells))
    ensures !o.Drawn? ==> o == Failed
  {
    assert ColumnsExist(ds, r);
    var title := Title(r);
    match r
    case LinePlot(x, y) =>
      Drawn(LineChartOf(ColumnNamed(ds, x).cells, Axes(title, x, y), scheme))
    case BarPlot(x, y) =>
      Drawn(BarChartOf(ColumnNamed(ds, x).cells, ds.rows, Axes(title, x, y), scheme))
    case ScatterPlot(x, y) =>
      Drawn(ScatterChartOf(ds.rows, Axes(title, x, y), scheme))
    case HistogramOf(c, bins) =>
      Drawn(HistogramChartOf(bins, Axes(title, c, "Frequency"), scheme))
    case BoxPlot(g, v) =>
      DrawBox(ColumnNamed(ds, g).cells, ColumnNamed(ds, v).cells, Axes(title, g, v), scheme)
    case CorrelationMatrix =>
      Drawn(CorrelationChartOf(title, SelectedNames(ds.columns), corr, scheme))
  }

  /** The line plot: one colour, the scheme sampled at 0.6, with the x tick labels rotated by
      the distinct-value rule on the x column `xs`. */
  function LineChartOf(xs: seq<Cell>, axes: Axes, scheme: Scheme): (c: Chart)
    ensures c.LineChart? && c.axes == axes
    ensures c.colour == Sample(scheme, 0.6)
    ensures c.xTickRotation == 45 <==> |Elements(xs)| > 10
    ensures c.xTickRotation == 0 <==> |Elements(xs)| <= 10
  {
    LineChart(axes, Sample(scheme, LINE_FRACTION), XTickRotation(xs))
  }

  /** The bar plot of `n` rows: one bar per row, bar `i` coloured at fraction `i/n`, with the x
      tick labels rotated by the distinct-value rule on the x column `xs`. */
  function BarChartOf(xs: seq<Cell>, n: nat, axes: Axes, scheme: Scheme): (c: Chart)
    ensures c.BarChart? && c.axes == axes
    ensures |c.barColours| == n
    ensures forall i :: 0 <= i < n ==> c.barColours[i] == Sample(scheme, i as real / n as real)
    ensures c.xTickRotation == 45 <==> |Elements(xs)| > 10
    ensures c.xTickRotation == 0 <==> |Elements(xs)| <= 10
  {
    BarChart(axes, Shades(scheme, n), XTickRotation(xs))
  }

  /** The scatter plot of `n` rows: point `i` carries the colour value `i`, for 0 to n - 1, and
      the colour bar is labelled "Index". */
  function ScatterChartOf(n: nat, axes: Axes, scheme: Scheme): (c: Chart)
    ensures c.ScatterChart? && c.axes == axes && c.scheme == scheme
    ensures |c.colourValues| == n && forall i :: 0 <= i < n ==> c.colourValues[i] == i
    ensures c.colourBarLabel == "Index"
  {
    ScatterChart(axes, seq(n, i => i), scheme, "Index")
  }

  /** The histogram: one patch per bin, patch `i` of `bins` coloured at fraction `i/bins`. */
  function HistogramChartOf(bins: BinCount, axes: Axes, scheme: Scheme): (c: Chart)
    ensures c.HistogramChart? && c.axes == axes && c.bins == bins
    ensures |c.patchColours| == bins
    ensures forall i :: 0 <= i < bins ==> c.patchColours[i] == Sample(scheme, i as real / bins as real)
  {
    HistogramChart(axes, bins, Shades(scheme, bins))
  }

  /** The correlation matrix over the columns `names`: one text per cell of the n by n matrix
      `corr`, each showing its cell's value in its contrast colour, and x tick labels rotated by
      45. */
  function CorrelationChartOf(title: string, names: seq<string>, corr: seq<seq<CorrValue>>, scheme: Scheme): (c: Chart)
    requires Square(corr, |names|)
    ensures c.CorrelationChart? && c.title == title && c.columns == names && c.scheme == scheme
    ensures |c.texts| == |names| * |names|
    ensures forall i, j :: 0 <= i < |names| && 0 <= j < |names| ==> Annotation(corr, i, j) in c.texts
    ensures forall p :: 0 <= p < |c.texts| ==> c.texts[p].y < |names| && c.texts[p].x < |names|
    ensures c.xTickRotation == 45
  {
    OneTextPerCell(corr);
    CorrelationChart(title, names, CellTexts(corr), scheme, CORRELATION_X_ROTATION)
  }

  /** What a drawn box chart of the grouping column `gs` and value column `vs` is made of: the
      group keys are the column's present values in strictly increasing key order; the tick
      labels are its distinct values in first-seen order, one per box; box `k` holds the values
      of the rows whose grouping cell is key `k`, one per row, in row order, and when there is
      no key the library's single empty box stands alone; box `i` of `n` is coloured at fraction
      `i/n` with transparency 0.7; the tick labels are rotated by the distinct-value rule. */
  ghost predicate BoxLayout(gs: seq<Cell>, vs: seq<Cell>, scheme: Scheme, c: Chart)
  {
    && c.BoxChart?
    && StrictlySorted(c.groups) && (forall k :: k in c.groups <==> k in gs && k != Missing)
    && Distinct(c.tickLabels) && FirstSeenOrder(gs, c.tickLabels)
    && (forall k :: k in c.tickLabels <==> k in gs)
    && |c.boxes| == |c.tickLabels|
    && (c.groups == [] ==> c.boxes == [[]])
    && (c.groups != [] ==> |c.boxes| == |c.groups|)
    && (c.groups != [] ==> forall k :: 0 <= k < |c.groups| ==> c.boxes[k] == ValuesWithKey(gs, vs, c.groups[k]))
    && c.boxColours == Shades(scheme, |c.boxes|) && c.boxAlpha == BOX_ALPHA
    && (c.xTickRotation == 45 <==> |Elements(gs)| > 10)
    && (c.xTickRotation == 0 <==> |Elements(gs)| <= 10)
  }

  /** The grouping columns whose box plot the plotting library draws. It reads an empty list of
      datasets as one empty dataset and needs exactly one label per dataset, so it accepts a
      non-empty column without a missing value (one label per group key) and a column whose
      every cell is missing (one label, no group key, one empty box); a column that mixes
      missing and present values, or has no cell at all, has one label too many. */
  predicate BoxDrawable(gs: seq<Cell>)
  {
    (gs != [] && Missing !in gs) || Elements(gs) == {Missing}
  }

  /** The box plot: one box per group key in the group-by's sorted order, labelled with the
      column's first-seen distinct values; the plotting library pads an empty list of boxes to
      one empty box and rejects a label list whose length differs from the number of boxes. */
  function DrawBox(gs: seq<Cell>, vs: seq<Cell>, axes: Axes, scheme: Scheme): (o: Outcome)
    ensures o.Drawn? <==> BoxDrawable(gs)
    ensures !o.Drawn? ==> o == Failed
    ensures o.Drawn? ==> o.chart.BoxChart? && o.chart.axes == axes
    ensures o.Drawn? ==> BoxLayout(gs, vs, scheme, o.chart)
    ensures o.Drawn? && Missing in gs ==>
      o.chart.groups == [] && o.chart.boxes == [[]] && o.chart.tickLabels == [Missing]
  {
    var keys := GroupKeys(gs);
    var labels := Unique(gs);
    var datasets := if keys == [] then [[]] else BoxData(gs, vs, keys);
    LabelCount(gs);
    BoxCount(gs);
    if |labels| != |datasets| then Failed
    else
      Drawn(BoxChart(axes, keys, datasets, labels, Shades(scheme, |datasets|), BOX_ALPHA,
                     XTickRotation(gs)))
  }

  /** The library's dataset count matches the label count exactly for the drawable columns, and
      the only label of an all-missing column is the missing value. */
  lemma BoxCount(gs: seq<Cell>)
    ensures |Unique(gs)| == (if GroupKeys(gs) == [] then 1 else |GroupKeys(gs)|) <==> BoxDrawable(gs)
    ensures BoxDrawable(gs) && Missing in gs ==> GroupKeys(gs) == [] && Unique(gs) == [Missing]
  {
    var keys := GroupKeys(gs);
    var labels := Unique(gs);
    LabelCount(gs);
    if keys == [] {
      assert forall c :: c in gs ==> c == Missing;
      if Missing in gs {
        assert Elements(gs) == {Missing};
        assert labels[0] in gs;
      }
    } else {
      assert keys[0] in gs && keys[0] != Missing;
      assert Elements(gs) != {Missing};
    }
  }

  /** The two grouping columns the sorted keys alone would get wrong: a column of one missing
      cell is drawn as one empty box labelled with the missing value and coloured at fraction
      0, and a column without cells is rejected. */
  lemma BoxPadding(v: Cell, axes: Axes, scheme: Scheme)
    ensures DrawBox([Missing], [v], axes, scheme).Drawn?
    ensures DrawBox([Missing], [v], axes, scheme).chart.boxes == [[]]
    ensures DrawBox([Missing], [v], axes, scheme).chart.tickLabels == [Missing]
    ensures DrawBox([Missing], [v], axes, scheme).chart.boxColours == [Sample(scheme, 0.0)]
    ensures DrawBox([], [], axes, scheme) == Failed
  {
    assert Elements([Missing]) == {Missing};
    var c := DrawBox([Missing], [v], axes, scheme).chart;
    assert |c.boxColours| == 1;
  }

  // What each accepted plot type draws

  /** An accepted request is drawn by `Draw`. */
  lemma RenderAccepted(ds: Dataset, r: Request, scheme: Scheme, corr: seq<seq<CorrValue>>)
    requires WellFormed(ds)
    requires Validate(ds, r) == Accepted
    requires r.CorrelationMatrix? ==> Square(corr, |SelectedIndices(ds.columns)|)
    ensures Render(ds, r, scheme, corr) == Draw(ds, r, scheme, corr)
  {
  }

  /** An accepted line request is drawn in one colour, titled after both columns, with ticks
      rotated by the distinct values of its x column. */
  lemma LinePlan(ds: Dataset, x: string, y: string, scheme: Scheme, corr: seq<seq<CorrValue>>)
    requires WellFormed(ds)
    requires Validate(ds, LinePlot(x, y)) == Accepted
    ensures Render(ds, LinePlot(x, y), scheme, corr) ==
      Drawn(LineChartOf(ColumnNamed(ds, x).cells, Axes(Title(LinePlot(x, y)), x, y), scheme))
  {
    RenderAccepted(ds, LinePlot(x, y), scheme, corr);
  }

  /** An accepted bar request is drawn with one bar per row of the table. */
  lemma BarPlan(ds: Dataset, x: string, y: string, scheme: Scheme, corr: seq<seq<CorrValue>>)
    requires WellFormed(ds)
    requires Validate(ds, BarPlot(x, y)) == Accepted
    ensures Render(ds, BarPlot(x, y), scheme, corr) ==
      Drawn(BarChartOf(ColumnNamed(ds, x).cells, ds.rows, Axes(Title(BarPlot(x, y)), x, y), scheme))
    ensures ds.rows == |ColumnNamed(ds, x).cells| == |ColumnNamed(ds, y).cells|
  {
    RenderAccepted(ds, BarPlot(x, y), scheme, corr);
    assert ColumnsExist(ds, BarPlot(x, y));
    ColumnLength(ds, x);
    ColumnLength(ds, y);
  }

  /** An accepted scatter request is drawn with one colour value per row of the table. */
  lemma ScatterPlan(ds: Dataset, x: string, y: string, scheme: Scheme, corr: seq<seq<CorrValue>>)
    requires WellFormed(ds)
    requires Validate(ds, ScatterPlot(x, y)) == Accepted
    ensures Render(ds, ScatterPlot(x, y), scheme, corr) ==
      Drawn(ScatterChartOf(ds.rows, Axes(Title(ScatterPlot(x, y)), x, y), scheme))
    ensures ds.rows == |ColumnNamed(ds, x).cells| == |ColumnNamed(ds, y).cells|
  {
    RenderAccepted(ds, ScatterPlot(x, y), scheme, corr);
    assert ColumnsExist(ds, ScatterPlot(x, y));
    ColumnLength(ds, x);
    ColumnLength(ds, y);
  }

  /** An accepted histogram request is drawn with the requested number of bins and the y axis
      labelled "Frequency". */
  lemma HistogramPlan(ds: Dataset, c: string, bins: BinCount, scheme: Scheme, corr: seq<seq<CorrValue>>)
    requires WellFormed(ds)
    requires Validate(ds, HistogramOf(c, bins)) == Accepted
    ensures Render(ds, HistogramOf(c, bins), scheme, corr) ==
      Drawn(HistogramChartOf(bins, Axes(Title(HistogramOf(c, bins)), c, "Frequency"), scheme))
  {
    RenderAccepted(ds, HistogramOf(c, bins), scheme, corr);
  }

  /** An accepted box request is drawn by `DrawBox` on its two columns. */
  lemma BoxPlan(ds: Dataset, g: string, v: string, scheme: Scheme, corr: seq<seq<CorrValue>>)
    requires WellFormed(ds)
    requires Validate(ds, BoxPlot(g, v)) == Accepted
    ensures Render(ds, BoxPlot(g, v), scheme, corr) ==
      DrawBox(ColumnNamed(ds, g).cells, ColumnNamed(ds, v).cells, Axes(Title(BoxPlot(g, v)), g, v), scheme)
  {
    RenderAccepted(ds, BoxPlot(g, v), scheme, corr);
  }

  /** An accepted correlation request is drawn over the names of the float64 and int64 columns,
      in column order, with the title "Correlation Matrix". */
  lemma CorrelationPlan(ds: Dataset, scheme: Scheme, corr: seq<seq<CorrValue>>)
    requires WellFormed(ds)
    requires Validate(ds, CorrelationMatrix) == Accepted
    requires Square(corr, |SelectedIndices(ds.columns)|)
    ensures Render(ds, CorrelationMatrix, scheme, corr) ==
      Drawn(CorrelationChartOf(Title(CorrelationMatrix), SelectedNames(ds.columns), corr, scheme))
    ensures |SelectedNames(ds.columns)| > 0
  {
    RenderAccepted(ds, CorrelationMatrix, scheme, corr);
  }
}
