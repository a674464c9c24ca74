# Pie chart row state and model synchronisation

A Dafny model of the non-drawing core of the pie chart widget `Wt::Chart::WPieChart`:

- the chart's configuration fields and their setters, each with its redraw rule;
- the per-row slice attributes (custom brush and explode factor) and how they follow
  row resets, inserts and removals announced by the data model;
- how the two tracked column indices (labels column and data column, `-1` meaning unset)
  follow column inserts and removals, and which data or header changes request a redraw;
- the cyclic search for the nearest visible row after or before a row;
- the darkened brush of side faces and the text of a slice label.

A redraw request (`update()`) is modelled as setting the chart's `dirty` flag.

Modules:

- `Colors`: channels, colours, brushes and `Darken`.
- `Labels`: label options and `LabelText`.
- `Ranges`: inclusive index ranges.
- `Slices`: `PieData` and one specification function per change the chart makes to its rows.
- `Columns`: the tracked-column index rules.
- `Neighbours`: `NextIndex` and `PrevIndex`.
- `Chart`: the class `PieChart`. Its methods change the fields in place. Each method's
  `modifies this`field` frame says what else stays unchanged. Their `ensures` tie the new
  state to the specification functions in `Slices` and `Columns`.

The row getters `brush(row)` and `explode(row)` are `Chart.PieChart.RowBrush` and
`Chart.PieChart.Explode`. `RowBrush` reads the row through `Slices.BrushOf`.

Inputs the model treats as abstract:

- The palette's brush for a row is a parameter.
- The model's row count is a parameter of the reset handlers.
- Whether a row's value is a number (not NaN) is a `seq<bool>`.
- The display text of a row's label cell is a `string` parameter.
- The `%.3g` rendering of the row's percentage is a `string` parameter.

Behaviour of the code that a reader might not expect, modelled as written:

- `setPerspectiveEnabled(false, h)` on a flat chart with `h != 0` requests a redraw even though
  the height stays 0. `Chart.PieChart.SetPerspectiveEnabled` states this exactly.
- `setDisplayLabels` always requests a redraw, even when the options do not change.
- `modelHeaderDataChanged` does not look at the header orientation. A change of row headers
  `[start, end]` therefore requests a redraw when a tracked column index lies in that range.
- `modelColumnsInserted` adds `end - start + 1` to a tracked column without checking that
  `start <= end`.
- The row and column handlers ignore their `parent` index. An insert or removal of child rows
  under some parent row therefore shifts the slices exactly as top-level rows would. The model's
  handlers have no `parent` parameter for that reason.
- `setBrush` and `setExplode` request a redraw on every call, even when the row already holds the
  given brush or factor. Unlike the column, shadow, angle and threshold setters, they do not
  compare with the old value first.

## Model

| member | source | states |
|---|---|---|
| `Colors.Darken` | src/Wt/Chart/WPieChart.C:593-606 | each RGB channel becomes the integer part of 3/4 of itself, so it never grows and stays in 0..255; alpha and brush style are kept |
| `Colors.DarkenMonotone` | src/Wt/Chart/WPieChart.C:598-601 | darkening keeps the order of two values of the red, the green and the blue channel |
| `Colors.DarkenStrictlyFades` | src/Wt/Chart/WPieChart.C:598-601 | each of red, green and blue gets strictly darker when it is 2 or more |
| `Labels.LabelText` | src/Wt/Chart/WPieChart.C:311-335 | without the percentage flag the text is the name part alone, and it is empty when neither flag is set. The name part is the label cell's text only if the text-label flag is set and a label column is configured. With the percentage flag the text is the name part, then `": "` only when the name part is non-empty, then the number and `%`. The text is empty exactly when there is no percentage and no name part |
| `Labels.NamePart` | src/Wt/Chart/WPieChart.C:316-318 | the name part is the label cell's text if the text-label flag is set and a label column is configured, and empty otherwise |
| `Labels.FruitLabel` | src/Wt/Chart/WPieChart.C:316-331 | name "Fruit" with number "25" and both flags gives "Fruit: 25%" |
| `Labels.PercentageOnlyWithoutLabelColumn` | src/Wt/Chart/WPieChart.C:316-331 | with no label column the percentage stands alone, without a separator |
| `Slices.Defaults` | src/Wt/Chart/WPieChart.C:680-681 | a rebuild gives `rowCount` slices, each with no custom brush and explode 0 |
| `Slices.BrushOf` | src/Wt/Chart/WPieChart.C:87-90 | a row with a custom brush is filled with that brush, any other row with the palette's brush for it |
| `Slices.WithBrush` | src/Wt/Chart/WPieChart.C:78-83 | setting a brush marks only that row as custom with the given brush; its explode and all other rows are kept |
| `Slices.WithExplode` | src/Wt/Chart/WPieChart.C:93-97 | setting an explode factor changes only that row's factor; its brush attributes and all other rows are kept |
| `Slices.InsertedRows` | src/Wt/Chart/WPieChart.C:721-728 | inserting rows `[start, end]` grows the slices by the range width: rows before `start` are kept, rows `start..end` are default, and every old row from `start` on moves up by the width |
| `Slices.RemovedRows` | src/Wt/Chart/WPieChart.C:730-737 | removing rows `[start, end]` drops exactly those rows: rows before `start` are kept and rows after `end` move down by the width |
| `Slices.InsertOneMore` | src/Wt/Chart/WPieChart.C:724-725 | one more iteration of the insert loop extends the insertion by one default row at position `i` |
| `Slices.RemoveOneMore` | src/Wt/Chart/WPieChart.C:733-734 | one more iteration of the erase loop extends the removal down to row `i` |
| `Slices.RemoveUndoesInsert` | src/Wt/Chart/WPieChart.C:721-737 | removing the rows just inserted restores the slices exactly |
| `Slices.BrushAfterSetBrush` | src/Wt/Chart/WPieChart.C:78-91 | after `setBrush(row, b)`, `brush(row)` is `b` whatever the palette says |
| `Slices.DefaultRowsUsePalette` | src/Wt/Chart/WPieChart.C:85-91 | after a rebuild every row is filled with the palette's brush and has explode 0 |
| `Slices.InsertedRowsUsePalette` | src/Wt/Chart/WPieChart.C:721-728 | a freshly inserted row is filled from the palette and not exploded |
| `Columns.AfterColumnsInserted` | src/Wt/Chart/WPieChart.C:689-693 | a tracked column before `start` is kept, one at or after it moves up by `end - start + 1`; `InsertKeepsTrackedColumn` shows it still names the same column |
| `Columns.AfterColumnsRemoved` | src/Wt/Chart/WPieChart.C:701-715 | a tracked column before `start` is kept, one in `[start, end]` becomes unset, one after `end` moves down by `end - start + 1`; `RemoveKeepsTrackedColumn` shows the surviving index names the same column |
| `Columns.UnsetStaysUnset` | src/Wt/Chart/WPieChart.C:686-719 | for `start >= 0`, an unset column stays unset on column insert and remove |
| `Columns.RemoveUndoesInsert` | src/Wt/Chart/WPieChart.C:686-719 | inserting and then removing the same column range leaves a tracked index as it was |
| `Columns.InsertKeepsTrackedColumn` | src/Wt/Chart/WPieChart.C:686-694 | after a column insert, the shifted index names the same model column as before |
| `Columns.RemoveKeepsTrackedColumn` | src/Wt/Chart/WPieChart.C:696-719 | after a column remove, a tracked index is unset exactly when its column was removed; otherwise it names the same model column |
| `Neighbours.NextIndexAsWritten` | src/Wt/Chart/WPieChart.C:644-654 | the loop as written runs past the last row exactly when `i` is not the last row and no later row is valid; otherwise it returns the nearest valid row after `i` |
| `Neighbours.OverrunMissesWrappedRow` | src/Wt/Chart/WPieChart.C:647 | whenever the as-written loop runs past the last row, the intended answer lies at or before `i` |
| `Neighbours.NextIndexOverrunExample` | src/Wt/Chart/WPieChart.C:647-651 | with rows valid, valid, NaN and `i = 1`, the loop runs past the last row although row 0 is the intended answer |
| `Neighbours.NextIndex` | src/Wt/Chart/WPieChart.C:644-654 | corrected search: the result is the first valid row after `i` in cyclic order, or `i` when no other row is valid |
| `Neighbours.PrevIndexAsWritten` | src/Wt/Chart/WPieChart.C:656-668 | the loop as written never ends exactly when `i` is the last row and neither row `i` nor any row before it is valid; otherwise it returns the nearest valid row before `i`, wrapping from 0 to the last row |
| `Neighbours.CyclingMissesAnswer` | src/Wt/Chart/WPieChart.C:659-661 | whenever the as-written loop cycles forever, the intended answer is `i` itself |
| `Neighbours.PrevIndexCycleExample` | src/Wt/Chart/WPieChart.C:659-665 | a single NaN row with `i = 0` makes the loop cycle, although 0 is the intended answer |
| `Neighbours.PrevIndex` | src/Wt/Chart/WPieChart.C:656-668 | corrected search, with no precondition beyond a valid `i`: the result is the first valid row before `i` in cyclic order, wrapping from 0 to the last row, or `i` when no other row is valid |
| `Neighbours.NextValidUnique` | src/Wt/Chart/WPieChart.C:644-654 | the next valid row is uniquely determined |
| `Neighbours.PrevValidUnique` | src/Wt/Chart/WPieChart.C:656-668 | the previous valid row is uniquely determined |
| `Neighbours.PrevOfNext` | src/Wt/Chart/WPieChart.C:644-668 | for a valid row `i` with another valid row, the previous valid row of its next valid row is `i` |
| `Chart.PieChart.constructor` | src/Wt/Chart/WPieChart.C:48-60 | both columns unset, height 0, no shadow, start angle 45, threshold 0, no label options, no slices |
| `Chart.PieChart.Update` | src/Wt/Chart/WPieChart.C:66 | a redraw is requested |
| `Chart.PieChart.SetLabelsColumn` | src/Wt/Chart/WPieChart.C:62-68 | stores the column; a redraw is requested exactly when it differs from the old one |
| `Chart.PieChart.SetDataColumn` | src/Wt/Chart/WPieChart.C:70-76 | stores the column; a redraw is requested exactly when it differs from the old one |
| `Chart.PieChart.SetBrush` | src/Wt/Chart/WPieChart.C:78-83 | the slices become `WithBrush` of the old ones, no other field changes, and a redraw is always requested |
| `Chart.PieChart.RowBrush` | src/Wt/Chart/WPieChart.C:85-91 | a row's custom brush if it has one, else the palette's brush for that row; `Slices.BrushAfterSetBrush` and `Slices.DefaultRowsUsePalette` give it after `setBrush` and after a rebuild |
| `Chart.PieChart.Explode` | src/Wt/Chart/WPieChart.C:99-102 | the row's stored explode factor: the one `WithExplode` last set, or 0 for a default row |
| `Chart.PieChart.SetExplode` | src/Wt/Chart/WPieChart.C:93-97 | the slices become `WithExplode` of the old ones, no other field changes, and a redraw is always requested |
| `Chart.PieChart.SetPerspectiveEnabled` | src/Wt/Chart/WPieChart.C:104-110 | the height is always `h` when enabled and 0 when disabled; a redraw is requested exactly when the old height was non-zero with perspective disabled, or differs from `h`; so every change of height requests one |
| `Chart.PieChart.SetShadowEnabled` | src/Wt/Chart/WPieChart.C:112-118 | stores the flag; a redraw is requested exactly when it changes |
| `Chart.PieChart.SetStartAngle` | src/Wt/Chart/WPieChart.C:120-126 | stores the angle; a redraw is requested exactly when it changes |
| `Chart.PieChart.SetAvoidLabelRendering` | src/Wt/Chart/WPieChart.C:128-134 | stores the threshold; a redraw is requested exactly when it changes |
| `Chart.PieChart.SetDisplayLabels` | src/Wt/Chart/WPieChart.C:136-141 | stores the options and always requests a redraw |
| `Chart.PieChart.ModelReset` | src/Wt/Chart/WPieChart.C:670-676 | the slices are rebuilt as defaults only when the row count differs. Otherwise they are kept with their overrides. Either way there is one slice per row and a redraw is requested |
| `Chart.PieChart.ModelChanged` | src/Wt/Chart/WPieChart.C:678-684 | the slices become `rowCount` defaults and a redraw is requested |
| `Chart.PieChart.ModelColumnsInserted` | src/Wt/Chart/WPieChart.C:686-694 | both tracked columns follow `AfterColumnsInserted`; no redraw is requested |
| `Chart.PieChart.ModelColumnsRemoved` | src/Wt/Chart/WPieChart.C:696-719 | both tracked columns follow `AfterColumnsRemoved`; a redraw is requested exactly when a tracked column lay in the removed range |
| `Chart.PieChart.ModelRowsInserted` | src/Wt/Chart/WPieChart.C:721-728 | the insert loop leaves `InsertedRows` of the old slices and always requests a redraw |
| `Chart.PieChart.ModelRowsRemoved` | src/Wt/Chart/WPieChart.C:730-737 | the erase loop leaves `RemovedRows` of the old slices and always requests a redraw |
| `Chart.PieChart.ModelDataChanged` | src/Wt/Chart/WPieChart.C:739-747 | a redraw is requested exactly when a tracked column lies in the changed column range |
| `Chart.PieChart.ModelHeaderDataChanged` | src/Wt/Chart/WPieChart.C:749-755 | a redraw is requested exactly when a tracked column lies in the changed header range |

## Left out

- Drawing and geometry are not modelled: `paint`, `drawPie`, `drawSlices`, `drawSide`, `drawOuter`,
  label placement and the `index90` search. They are double-precision trigonometry plus painter calls.
- The sum of the non-NaN values, the label threshold test and the `%.3g` formatting are not modelled.
  They are floating point. `LabelText` receives the formatted number as a string.
- `createLegendItemWidget`, `paintEvent`, `addDataPointArea` and `setShadow` are left out. They build
  widgets, own hit areas and set painter state. The legend's label is the same `LabelText`.
- The palette and the data model are external; they enter as parameters as listed above.
- Doubles (height, start angle, explode factor, threshold) are `real`. NaN is not modelled, though
  a NaN argument would make the source's `!=` tests always request a redraw.
- `Brush` has a style and a colour only. Gradients and named colours are not modelled.
- Chart.PieChart.constructor: does not state the initial `dirty` flag. The constructor's palette
  and padding setup goes through the base chart class, which is not part of this model.
- PrevIndexAsWritten: stops with `NeverEnds` when the counter wraps onto an invalid row `i`.
  From there the source would cycle through the rows before `i` forever.
- NextIndexAsWritten: stops when the counter reaches the row count. From there the source would
  read past the model's rows until the counter overflows.
- Row arguments must be in range for the getters and setters and for the row handlers
  `ModelRowsInserted` and `ModelRowsRemoved`. The source indexes, inserts into and erases from
  its vector unchecked.

## Findings

| source | as written | input that shows it | evidently intended | confidence | as-written member | corrected member |
|---|---|---|---|---|---|---|
| src/Wt/Chart/WPieChart.C:647 | `for (n = (i + 1) % r; n != i; ++n)`: the counter is reduced modulo the row count only at the start | valid rows `[true, true, false]`, `i = 1`: the counter reaches row 3, past the last row | `n = (n + 1) % r` on every step, so the search wraps to row 0 and returns it | high (not executed) | `Neighbours.NextIndexAsWritten` | `Neighbours.NextIndex` |
| src/Wt/Chart/WPieChart.C:659-665 | after row 0 the counter wraps with `p += r`; when that lands on `i` and row `i` is NaN, `--p` starts another round | one row, NaN, `i = 0`; or rows `[NaN, NaN]`, `i = 1`: the loop never ends | the search stops when the wrapped counter reaches `i` and returns `i`. Not reachable from line 451, which calls it only for non-NaN rows | medium (not executed) | `Neighbours.PrevIndexAsWritten` | `Neighbours.PrevIndex` |
