# Interactive dataset plotting tool: request check and render plan

This project models the decision logic of `visualizer.py`, a single-page tool for plotting
data. The user uploads a CSV table, chooses one of six plot types, the columns to plot and a
colour scheme, and gets a chart or a warning. The model covers two things.

- **The request check.** Every plot type has its own rule about which selected columns must be
  numeric, and its own warning text when one is not. The rules use two different meanings of
  "numeric":
  - the table library's general numeric test, which accepts booleans;
  - the correlation matrix's selection of exactly the `float64` and `int64` columns.

  A column name that does not exist makes the script raise an error. Its catch-all handler
  reports that error, and the model records it as a verdict of its own.
- **The render plan.** This is what the script decides about the chart it draws:
  - titles and axis labels;
  - tick label rotation;
  - the fraction of the colour scheme each bar, histogram patch and box is painted at;
  - the colour index of each scatter point;
  - the grouping and labelling of the box plot;
  - the text and text colour written on every cell of the correlation matrix.

The colour maps stay symbolic. A colour is the pair of a scheme and the fraction it is sampled
at, and the actual drawing is not modelled.

Modules:

- `Cells` (`cells.dfy`) covers the cell values of a column and the two orders derived from a
  column:
  - the distinct values in first-seen order (`unique()`);
  - the group keys in sorted order with missing values dropped (a sorting group-by).
- `Schema` (`schema.dfy`) covers column data types, both numeric tests, lookup by name and the
  `float64`/`int64` selection. It also states what the CSV reader guarantees about a table:
  every column has one cell per row, and no two columns share a name.
- `Palette` (`palette.dfy`) covers the colour fractions `i/n`. It also covers the in-place loops
  that paint bars, histogram patches and boxes, modelled as methods on arrays of patch styles.
- `Validator` (`validator.dfy`) covers the plot types and requests, and the per-type check with
  its warning texts.
- `Render` (`render.dfy`) covers the following:
  - tick rotation;
  - the contrast rule;
  - the correlation cell texts, including the nested loop that emits them;
  - titles;
  - the box plot;
  - the outcome of one interaction: drawn, warned or failed.

## Model

| member | source | states |
|---|---|---|
| Cells.Elements | visualizer.py:63 | the set of values of a column holds exactly the values that occur in it |
| Cells.Unique | visualizer.py:103 | the labels `unique()` gives: no repetitions, exactly the values of the column (a missing value included), in first-seen order, no more than the column's length |
| Cells.DistinctCardinality | visualizer.py:63 | a list without repetitions has as many entries as its set of values |
| Cells.DistinctCount | visualizer.py:63 | `len(column.unique())` is the number of distinct values of the column |
| Cells.Present | visualizer.py:102 | the non-missing cells of a column: exactly the values other than the missing value |
| Cells.TextLessIrreflexive | visualizer.py:102 | no text sorts before itself |
| Cells.TextLessTransitive | visualizer.py:102 | code-point order on texts is transitive |
| Cells.TextLessTotal | visualizer.py:102 | of two different texts one sorts before the other |
| Cells.KeyLessIrreflexive | visualizer.py:102 | no group key sorts before itself |
| Cells.KeyLessTransitive | visualizer.py:102 | group-key order (numbers by value, numbers before texts, texts by code point) is transitive |
| Cells.KeyLessTotal | visualizer.py:102 | of two different non-missing keys one sorts first |
| Cells.Insert | visualizer.py:102 | inserting a new key into a strictly sorted key list keeps it strictly sorted, adds exactly that key and grows it by one |
| Cells.SortKeys | visualizer.py:102 | sorting distinct keys gives a strictly sorted list of exactly those keys, of the same length |
| Cells.GroupKeys | visualizer.py:102 | the keys the group-by visits are strictly sorted and are exactly the column's non-missing values |
| Cells.UniqueCount | visualizer.py:103 | there are as many labels as distinct values |
| Cells.GroupKeysCount | visualizer.py:102 | there are as many group keys as distinct non-missing values |
| Cells.LabelCount | visualizer.py:102-103 | the number of labels is the number of group keys, plus one when the grouping column has a missing value |
| Cells.LabelsAndGroupsCanDisagree | visualizer.py:102-103 | for the column ["b", "a"] the labels come out as ["b", "a"] and the boxes as ["a", "b"], so label and box can belong to different groups |
| Schema.Float64OrInt64IsNarrower | visualizer.py:119 | every `float64`/`int64` column passes the general numeric test; boolean and other numeric types pass only the general test |
| Schema.Lookup | visualizer.py:49 | `df[name]` finds a column exactly when some column has that name, and then returns a column of the table with that name |
| Schema.ColumnLength | visualizer.py:56-58 | in a table as the CSV reader builds it, every column found by name has one cell per row, so `len(df)` is the length of the selected column |
| Schema.SelectedIndices | visualizer.py:119 | `select_dtypes` keeps exactly the `float64` and `int64` columns, each once, in column order |
| Schema.SelectedNames | visualizer.py:119 | the selected names are the names of the selected columns in order, and every such column's name is among them |
| Schema.SelectionEmptyIff | visualizer.py:119-122 | the selection is empty exactly when no column is `float64` or `int64` |
| Palette.Fractions | visualizer.py:57-58 | element `i` of `n` gets the fraction `i/n`: the first is 0, all lie in [0, 1), they strictly increase and are evenly spaced by `1/n` |
| Palette.FractionBounds | visualizer.py:58 | `i/n` lies in [0, 1) for `i < n` |
| Palette.FractionLess | visualizer.py:58 | a later element gets a larger fraction |
| Palette.FractionStep | visualizer.py:58 | neighbouring fractions differ by `1/n` |
| Palette.Shades | visualizer.py:107-108 | `n` colours, colour `i` is the chosen scheme sampled at `Fractions(n)[i]` |
| Palette.PaintBars | visualizer.py:57-58 | every bar gets face and edge colour of the scheme at `i/n`; nothing else about a bar changes |
| Palette.PaintPatches | visualizer.py:88-89 | every histogram patch gets the face colour of the scheme at `i/n`; edge and opacity are unchanged |
| Palette.ApplyBoxColours | visualizer.py:109-111 | boxes and colours are walked together up to the shorter list; each such box gets its colour as face colour and opacity 0.7, and the boxes beyond the colour list are unchanged |
| Palette.PaintBoxes | visualizer.py:107-111 | with the script's colour list, every box gets the scheme at `i/n` and opacity 0.7 |
| Validator.ParsePlotType | visualizer.py:34 | a label selects a plot type only if it is that type's label, and each of the six labels selects one |
| Validator.ParseOfName | visualizer.py:34 | every offered label selects its own plot type |
| Validator.SelectorOffersEveryType | visualizer.py:34 | the selector's list holds each of the six plot types exactly once, and each listed label selects the plot type at its own position |
| Validator.Validate | visualizer.py:45-124 | a request is accepted exactly when its columns exist and the type constraint of its plot type holds; if the columns exist the outcome is never the unexpected error; a warning carries the plot type's own text and occurs only when the type constraint fails |
| Validator.CheckY | visualizer.py:45-51 | line/bar check: accepted exactly when the x column exists and the y column is numeric; a warning only when y is not numeric; y is read first, so an unknown y fails and a present non-numeric y warns whatever x is |
| Validator.CheckBoth | visualizer.py:65-71 | scatter check: accepted exactly when both columns are numeric; a warning only when one of them is not; x is read first, so an unknown x fails and a present non-numeric x warns whatever y is, and y is only read once x is numeric |
| Validator.CheckOne | visualizer.py:80-86 | histogram check: accepted exactly when the column is numeric |
| Validator.CheckValue | visualizer.py:95-101 | box check: accepted exactly when the grouping column exists and the value column is numeric; the value column is read first, so an unknown value column fails and a present non-numeric one warns whatever the grouping column is |
| Validator.LineBarRule | visualizer.py:45-51 | line and bar plots get the same verdict; it depends on the y column only, and is a warning exactly when y is not numeric |
| Validator.ScatterRule | visualizer.py:69-70 | a scatter plot warns exactly when either column is not numeric |
| Validator.HistogramRule | visualizer.py:84-85 | a histogram warns exactly when its column is not numeric, whatever the bin count |
| Validator.BoxRule | visualizer.py:99-100 | a box plot warns exactly when the value column is not numeric; the grouping column may have any type |
| Validator.CorrelationRule | visualizer.py:119-123 | the correlation matrix warns exactly when no column is `float64` or `int64`, and never fails |
| Validator.BooleanColumnDisagreement | visualizer.py:119-123 | a table with one boolean column: a line plot of it is accepted, the correlation matrix warns |
| Render.XTickRotation | visualizer.py:63 | the x tick labels are rotated by 45 exactly when the column has more than ten distinct values, and by 0 otherwise |
| Render.TextColourFor | visualizer.py:134 | the text is black exactly when the value is NaN or its magnitude is at most 0.5 |
| Render.ContrastIgnoresSign | visualizer.py:134 | a correlation and its negation get the same text colour, and the colour is white exactly above 0.5 or below -0.5 |
| Render.RowTexts | visualizer.py:131-134 | one row of the matrix gives one text per column, text `j` being the annotation of cell (`i`, `j`) |
| Render.TextsUpToLayout | visualizer.py:130-134 | after `k` rows of the nested loop there are `k*n` texts, and text `p` belongs to row `p / n`, column `p % n`, showing that cell |
| Render.TextAt | visualizer.py:130-134 | the text of row `i`, column `j` is at position `i*n + j` |
| Render.OneTextPerCell | visualizer.py:130-134 | the loops emit `n*n` texts, one per cell: each shows its cell's value in that value's contrast colour, no cell twice, and every cell covered |
| Render.AnnotateCells | visualizer.py:130-134 | the nested loop over rows and columns produces exactly the cell texts, row by row |
| Render.Title | visualizer.py:60 | every title starts with the plot type's label and ends with " vs " and the x column (line, bar, scatter), " of " and the column (histogram), or " grouped by " and the grouping column (box) |
| Render.XyTitle | visualizer.py:60 | line and bar titles are "<plot type> of <y> vs <x>"; the scatter title is "Scatter Plot of <y> vs <x>" |
| Render.HistogramTitle | visualizer.py:91 | the histogram title is "Histogram of <column>" |
| Render.BoxTitle | visualizer.py:113 | the box title is "Box Plot of <value> grouped by <group>" |
| Render.CorrelationTitle | visualizer.py:140 | the correlation title is "Correlation Matrix" |
| Render.ValuesWithKey | visualizer.py:102 | one group's data as the group-by gives it: one value per row whose grouping cell is the key, in row order, repetitions kept (value `k` is the value of the `k`-th such row); so every value comes from such a row and every such row contributes its value |
| Render.KeyRows | visualizer.py:102 | the rows with a given grouping key: exactly those rows, each once, in increasing row order |
| Render.BoxData | visualizer.py:102 | one box per key, box `k` being the values of the rows with key `k` |
| Render.Render | visualizer.py:45-140 | one interaction on a table as the CSV reader builds it: a warning verdict shows its warning, an unknown column fails, an accepted request is drawn (a box plot only when its grouping column is `BoxDrawable`: non-empty without a missing value, or missing in every cell) and otherwise fails, and a drawn chart carries the request's title |
| Render.Draw | visualizer.py:52-140 | the chart of an accepted request carries the request's title; every plot type but the box plot is always drawn, the box plot exactly when its grouping column is `BoxDrawable`, and an undrawn box plot is the failure the catch-all handler reports |
| Render.LineChartOf | visualizer.py:53-63 | a line chart in one colour, the scheme at 0.6, with the rotation rule on the x column |
| Render.BarChartOf | visualizer.py:56-63 | one bar per row, bar `i` of `n` at fraction `i/n`; x tick labels rotated by 45 when the x column has more than ten distinct values, by 0 otherwise |
| Render.ScatterChartOf | visualizer.py:72-78 | point `i` gets the colour value `i`, for the rows 0 to n-1, and the colour bar is labelled "Index" |
| Render.HistogramChartOf | visualizer.py:87-93 | one patch per bin, patch `i` at fraction `i/bins` |
| Render.CorrelationChartOf | visualizer.py:125-140 | the matrix is labelled with the selected names, has one text per cell, covers every cell, and rotates its x ticks by 45 |
| Render.DrawBox | visualizer.py:102-116 | the box plot is drawn exactly when the grouping column is `BoxDrawable` (non-empty without a missing value, or missing in every cell), and fails otherwise; a drawn one has the layout `BoxLayout` states: sorted keys, first-seen labels, one label per box, box `k` holding exactly the values of the rows with key `k`, a single empty box labelled with the missing value when the column is all missing, colours at `i/n`, opacity 0.7, and rotation 45 above ten distinct group values, 0 otherwise |
| Render.BoxCount | visualizer.py:102-104 | the library's count of datasets (one per group key, or one empty dataset when there is no key) equals the label count exactly for the `BoxDrawable` columns, and an all-missing column has the one label `Missing` and no key |
| Render.BoxPadding | visualizer.py:102-111 | a grouping column of one missing cell gives one empty box labelled with the missing value and coloured at fraction 0; a grouping column without cells fails |
| Render.RenderAccepted | visualizer.py:45-140 | an accepted request is drawn by `Draw` |
| Render.LinePlan | visualizer.py:52-63 | an accepted line request is drawn by `LineChartOf` on its x column, titled and labelled after its columns |
| Render.BarPlan | visualizer.py:55-63 | an accepted bar request is drawn by `BarChartOf` with one bar per table row, and the table's row count is the length of both selected columns |
| Render.ScatterPlan | visualizer.py:72-78 | an accepted scatter request is drawn by `ScatterChartOf` with one point per table row, and the table's row count is the length of both selected columns |
| Render.HistogramPlan | visualizer.py:87-93 | an accepted histogram request is drawn by `HistogramChartOf` with the requested bin count and the y label "Frequency" |
| Render.BoxPlan | visualizer.py:102-116 | an accepted box request is drawn by `DrawBox` on its grouping and value columns |
| Render.CorrelationPlan | visualizer.py:119-140 | an accepted correlation request is drawn over the selected columns' names, of which there is at least one |

## Left out

- The web page itself is not modelled: the upload widget, the selectors and slider, the
  sidebar style list, the displayed table, the figure display and the PNG download. The
  selected plot type, columns, bin count and scheme become parameters.
- CSV parsing and data type inference are left out. The table and each column's data type are
  inputs.
- The drawing itself is left out, because it belongs to the plotting library:
  - the colour maps (a colour stays symbolic as scheme and fraction);
  - line and marker widths, point size and scatter transparency;
  - font sizes and title padding;
  - `configure_plot_style` (spines, grid, backgrounds) and the global style;
  - tight layout.
- Numerical results of the libraries are inputs or left out:
  - the Pearson correlation matrix is an input of `Render.Render`;
  - the histogram's bin edges and counts are left out, so is the property that the bin counts
    add up to the number of non-missing values;
  - the box statistics (quartiles, whiskers, outliers) are left out: each box is modelled by
    the list of its values.
- The two-decimal formatting of a correlation cell's text is left out. A cell text carries the
  value itself.
- After a warning the script still lays out, displays and offers the empty figure for download.
  The model stops at the warning.
- The text of the error message shown by the catch-all handler is left out, and so are
  exceptions the plotting or table library raises for reasons other than an unknown column and
  the box plot's label count. The model's `Failed` stands for those two errors only.
- Box plot order: the boxes follow the group-by's sorted key order, and the tick labels follow
  the first-seen order of `unique()`. The model keeps both orders rather than one shared order.
  It proves that the two can disagree (`Cells.LabelsAndGroupsCanDisagree`). It also proves that
  a grouping column mixing missing and present values has one label more than it has boxes,
  which the plotting library rejects; a column missing in every cell has one label and is drawn
  as the library's single empty box, and a column without cells has no label for that box and
  is rejected.
- The sort order of group keys is modelled for numbers and texts only:
  - numbers by value, numbers before texts, texts by code point;
  - date-time and boolean keys are treated as numbers or texts by the data they carry.
- Render.Render, Render.Draw: the chart kind matching the request kind is not an `ensures` of
  these two functions. The per-type lemmas `Render.LinePlan` through `Render.CorrelationPlan`
  state it for each plot type.
