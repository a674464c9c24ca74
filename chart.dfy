/**
 * The state of a pie chart (WPieChart) and its reactions to setter calls and
 * to change notifications from its data model. Drawing is not modelled; a
 * redraw request (update()) sets the `dirty` flag.
 */
module Chart {
  import opened Colors
  import opened Labels
  import opened Ranges
  import opened Slices
  import opened Columns

  /** The orientation of a header change; the chart does not look at it. */
  datatype Orientation = Horizontal | Vertical

  class PieChart {
    var labelsColumn: int
    var dataColumn: int
    var height: real
    var shadow: bool
    var startAngle: real
    var avoidLabelRendering: real
    var labelOptions: set<LabelOption>
    /** One entry per model row, kept in lockstep with the model's row count. */
    var pie: seq<PieData>
    /** A redraw has been requested. */
    var dirty: bool

    /** A chart with no columns selected, flat, unshadowed, starting at 45 degrees, with no rows yet. */
    constructor ()
      ensures labelsColumn == Unset && dataColumn == Unset
      ensures height == 0.0 && !shadow && startAngle == 45.0
      ensures avoidLabelRendering == 0.0 && labelOptions == {}
      ensures pie == []
    {
      labelsColumn, dataColumn := Unset, Unset;
      height, shadow, startAngle := 0.0, false, 45.0;
      avoidLabelRendering, labelOptions := 0.0, {};
      pie := [];
      dirty := false;
    }

    /** Requests a redraw; never paints synchronously. */
    method Update()
      modifies this`dirty
      ensures dirty
    {
      dirty := true;
    }

    method SetLabelsColumn(modelColumn: int)
      modifies this`labelsColumn, this`dirty
      ensures labelsColumn == modelColumn
      ensures dirty == (old(dirty) || old(labelsColumn) != modelColumn)
    {
      if labelsColumn != modelColumn {
        labelsColumn := modelColumn;
        Update();
      }
    }

    method SetDataColumn(modelColumn: int)
      modifies this`dataColumn, this`dirty
      ensures dataColumn == modelColumn
      ensures dirty == (old(dirty) || old(dataColumn) != modelColumn)
    {
      if dataColumn != modelColumn {
        dataColumn := modelColumn;
        Update();
      }
    }

    /** Gives row `modelRow` a custom brush; no other row or attribute changes. */
    method SetBrush(modelRow: int, b: Brush)
      requires 0 <= modelRow < |pie|
      modifies this`pie, this`dirty
      ensures pie == WithBrush(old(pie), modelRow, b)
      ensures dirty
    {
      pie := pie[modelRow := pie[modelRow].(customBrush := true)];
      pie := pie[modelRow := pie[modelRow].(brush := b)];
      Update();
    }

    /** The fill of row `modelRow`, with `palette` giving the palette's brush per row. */
    function RowBrush(modelRow: int, palette: int -> Brush): (b: Brush)
      reads this
      requires 0 <= modelRow < |pie|
      ensures pie[modelRow].customBrush ==> b == pie[modelRow].brush
      ensures !pie[modelRow].customBrush ==> b == palette(modelRow)
    {
      BrushOf(pie, modelRow, palette(modelRow))
    }

    /** Sets the explode factor of row `modelRow`; no other row or attribute changes. */
    method SetExplode(modelRow: int, factor: real)
      requires 0 <= modelRow < |pie|
      modifies this`pie, this`dirty
      ensures pie == WithExplode(old(pie), modelRow, factor)
      ensures dirty
    {
      pie := pie[modelRow := pie[modelRow].(explode := factor)];
      Update();
    }

    /** The explode factor of row `modelRow`: 0 for a default row, else the last one set. */
    function Explode(modelRow: int): (f: real)
      reads this
      requires 0 <= modelRow < |pie|
      ensures f == pie[modelRow].explode
    {
      pie[modelRow].explode
    }

    /**
     * Enables or disables the perspective. Afterwards the height is `h` when
     * enabled and 0 when disabled, whichever branch is taken; a redraw is
     * requested when the old height was not 0 and perspective is disabled, or
     * when the old height differs from `h`.
     */
    method SetPerspectiveEnabled(enabled: bool, h: real)
      modifies this`height, this`dirty
      ensures height == if enabled then h else 0.0
      ensures dirty == (old(dirty) || (!enabled && old(height) != 0.0) || old(height) != h)
      ensures height != old(height) ==> dirty
    {
      if (!enabled && height != 0.0) || height != h {
        height := if enabled then h else 0.0;
        Update();
      }
    }

    method SetShadowEnabled(enabled: bool)
      modifies this`shadow, this`dirty
      ensures shadow == enabled
      ensures dirty == (old(dirty) || old(shadow) != enabled)
    {
      if shadow != enabled {
        shadow := enabled;
        Update();
      }
    }

    method SetStartAngle(angle: real)
      modifies this`startAngle, this`dirty
      ensures startAngle == angle
      ensures dirty == (old(dirty) || old(startAngle) != angle)
    {
      if startAngle != angle {
        startAngle := angle;
        Update();
      }
    }

    method SetAvoidLabelRendering(threshold: real)
      modifies this`avoidLabelRendering, this`dirty
      ensures avoidLabelRendering == threshold
      ensures dirty == (old(dirty) || old(avoidLabelRendering) != threshold)
    {
      if avoidLabelRendering != threshold {
        avoidLabelRendering := threshold;
        Update();
      }
    }

    /** Stores the label options and always requests a redraw, even when they are unchanged. */
    method SetDisplayLabels(options: set<LabelOption>)
      modifies this`labelOptions, this`dirty
      ensures labelOptions == options
      ensures dirty
    {
      labelOptions := options;
      Update();
    }

    /** The model was reset: rebuild the slices only if the row count no longer matches. */
    method ModelReset(rowCount: nat)
      modifies this`pie, this`dirty
      ensures pie == if rowCount != |old(pie)| then Defaults(rowCount) else old(pie)
      ensures |pie| == rowCount
      ensures dirty
    {
      if rowCount != |pie| {
        ModelChanged(rowCount);
      } else {
        Update();
      }
    }

    /** The model was replaced: one default slice per row, every override dropped. */
    method ModelChanged(rowCount: nat)
      modifies this`pie, this`dirty
      ensures pie == Defaults(rowCount)
      ensures dirty
    {
      pie := [];
      pie := pie + Defaults(rowCount);
      Update();
    }

    /** Columns [start, end] were inserted: tracked columns at or after `start` shift up; no redraw. */
    method ModelColumnsInserted(start: int, end: int)
      modifies this`labelsColumn, this`dataColumn
      ensures labelsColumn == AfterColumnsInserted(old(labelsColumn), start, end)
      ensures dataColumn == AfterColumnsInserted(old(dataColumn), start, end)
    {
      if labelsColumn >= start {
        labelsColumn := labelsColumn + (end - start + 1);
      }
      if dataColumn >= start {
        dataColumn := dataColumn + (end - start + 1);
      }
    }

    /**
     * Columns [start, end] were removed: a tracked column among them becomes
     * unset, one after them shifts down; a redraw is requested exactly when a
     * tracked column was unset.
     */
    method ModelColumnsRemoved(start: int, end: int)
      modifies this`labelsColumn, this`dataColumn, this`dirty
      ensures labelsColumn == AfterColumnsRemoved(old(labelsColumn), start, end)
      ensures dataColumn == AfterColumnsRemoved(old(dataColumn), start, end)
      ensures dirty == (old(dirty) || Within(old(labelsColumn), start, end) || Within(old(dataColumn), start, end))
    {
      var needUpdate := false;
      if labelsColumn >= start {
        if labelsColumn <= end {
          labelsColumn := Unset;
          needUpdate := true;
        } else {
          labelsColumn := labelsColumn - (end - start + 1);
        }
      }
      if dataColumn >= start {
        if dataColumn <= end {
          dataColumn := Unset;
          needUpdate := true;
        } else {
          dataColumn := dataColumn - (end - start + 1);
        }
      }
      if needUpdate {
        Update();
      }
    }

    /** Rows [start, end] were inserted: one default slice is inserted per row, at its position. */
    method ModelRowsInserted(start: int, end: int)
      requires start <= end ==> 0 <= start <= |pie|
      modifies this`pie, this`dirty
      ensures pie == InsertedRows(old(pie), start, end)
      ensures dirty
    {
      ghost var before := pie;
      var i := start;
      while i <= end
        invariant start <= end ==>
          start <= i <= end + 1 && pie == before[..start] + Defaults(i - start) + before[start..]
        invariant start > end ==> i == start && pie == before
      {
        InsertOneMore(before, start, i - start);
        pie := pie[..i] + [DefaultPieData] + pie[i..];
        i := i + 1;
      }
      Update();
    }

    /** Rows [start, end] were removed: their slices are erased, from the last one down. */
    method ModelRowsRemoved(start: int, end: int)
      requires start <= end ==> 0 <= start && end < |pie|
      modifies this`pie, this`dirty
      ensures pie == RemovedRows(old(pie), start, end)
      ensures dirty
    {
      ghost var before := pie;
      var i := end;
      while i >= start
        invariant i <= end && (start <= end ==> start - 1 <= i) && (start > end ==> i == end)
        invariant pie == RemovedRows(before, i + 1, end)
      {
        RemoveOneMore(before, i, end);
        pie := pie[..i] + pie[i + 1..];
        i := i - 1;
      }
      Update();
    }

    /** Cells in columns [firstColumn, lastColumn] changed: redraw only if a tracked column is among them. */
    method ModelDataChanged(firstColumn: int, lastColumn: int)
      modifies this`dirty
      ensures dirty == (old(dirty) || Within(labelsColumn, firstColumn, lastColumn)
                                   || Within(dataColumn, firstColumn, lastColumn))
    {
      if (labelsColumn >= firstColumn && labelsColumn <= lastColumn)
         || (dataColumn >= firstColumn && dataColumn <= lastColumn) {
        Update();
      }
    }

    /**
     * Header sections [start, end] changed: redraw only if a tracked column is
     * among them. The orientation is not consulted.
     */
    method ModelHeaderDataChanged(orientation: Orientation, start: int, end: int)
      modifies this`dirty
      ensures dirty == (old(dirty) || Within(labelsColumn, start, end) || Within(dataColumn, start, end))
    {
      if (labelsColumn >= start && labelsColumn <= end) || (dataColumn >= start && dataColumn <= end) {
        Update();
      }
    }
  }
}
