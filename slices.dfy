/**
 * The per-row slice attributes of a pie chart (WPieChart::PieData) and the
 * specification of every change the chart makes to its row vector.
 */
module Slices {
  import opened Colors
  import opened Ranges

  /** The attributes of one slice: an optional custom brush and an explode factor. */
  datatype PieData = PieData(customBrush: bool, brush: Brush, explode: real)

  /** A default-constructed PieData: no custom brush, no explode. */
  const DefaultPieData := PieData(false, DefaultBrush, 0.0)

  /** `n` default slices, as the chart holds them after a rebuild. */
  function Defaults(n: nat): (s: seq<PieData>)
    ensures |s| == n
    ensures forall k :: 0 <= k < n ==> s[k] == DefaultPieData
  {
    seq(n, _ => DefaultPieData)
  }

  /** The fill of row `row`: its custom brush if one is set, else the palette's brush for that row. */
  function BrushOf(pie: seq<PieData>, row: int, paletteBrush: Brush): (b: Brush)
    requires 0 <= row < |pie|
    ensures pie[row].customBrush ==> b == pie[row].brush
    ensures !pie[row].customBrush ==> b == paletteBrush
  {
    if pie[row].customBrush then pie[row].brush else paletteBrush
  }

  /** The slices after a custom brush `b` is set on row `row`. */
  function WithBrush(pie: seq<PieData>, row: int, b: Brush): (r: seq<PieData>)
    requires 0 <= row < |pie|
    ensures |r| == |pie|
    ensures r[row].customBrush && r[row].brush == b && r[row].explode == pie[row].explode
    ensures forall j :: 0 <= j < |pie| && j != row ==> r[j] == pie[j]
  {
    pie[row := pie[row].(customBrush := true, brush := b)]
  }

  /** The slices after the explode factor of row `row` is set to `f`. */
  function WithExplode(pie: seq<PieData>, row: int, f: real): (r: seq<PieData>)
    requires 0 <= row < |pie|
    ensures |r| == |pie|
    ensures r[row].explode == f
    ensures r[row].customBrush == pie[row].customBrush && r[row].brush == pie[row].brush
    ensures forall j :: 0 <= j < |pie| && j != row ==> r[j] == pie[j]
  {
    pie[row := pie[row].(explode := f)]
  }

  /**
   * The slices after rows [start, end] are inserted into the model: that many
   * default slices at position `start`, the old ones kept in order around them.
   */
  function InsertedRows(pie: seq<PieData>, start: int, end: int): (r: seq<PieData>)
    requires start <= end ==> 0 <= start <= |pie|
    ensures |r| == |pie| + Width(start, end)
    ensures start > end ==> r == pie
    ensures start <= end ==>
      && (forall k :: 0 <= k < start ==> r[k] == pie[k])
      && (forall k :: start <= k <= end ==> r[k] == DefaultPieData)
      && (forall k :: start <= k < |pie| ==> r[k + Width(start, end)] == pie[k])
  {
    if start <= end then pie[..start] + Defaults(end - start + 1) + pie[start..] else pie
  }

  /** The slices after rows [start, end] are removed from the model: exactly those are dropped. */
  function RemovedRows(pie: seq<PieData>, start: int, end: int): (r: seq<PieData>)
    requires start <= end ==> 0 <= start && end < |pie|
    ensures |r| == |pie| - Width(start, end)
    ensures start > end ==> r == pie
    ensures start <= end ==>
      && (forall k :: 0 <= k < start ==> r[k] == pie[k])
      && (forall k :: end < k < |pie| ==> r[k - Width(start, end)] == pie[k])
  {
    if start <= end then pie[..start] + pie[end + 1..] else pie
  }

  /**
   * One more default slice inserted at `start + k`, after `k` defaults already
   * inserted at `start`, gives `k + 1` defaults at `start`.
   */
  lemma InsertOneMore(pie: seq<PieData>, start: int, k: nat)
    requires 0 <= start <= |pie|
    ensures var p := pie[..start] + Defaults(k) + pie[start..];
      start + k <= |p| &&
      p[..start + k] + [DefaultPieData] + p[start + k..] == pie[..start] + Defaults(k + 1) + pie[start..]
  {
    var d := Defaults(k);
    var p := pie[..start] + d + pie[start..];
    assert p[..start + k] == pie[..start] + d;
    assert p[start + k..] == pie[start..];
    assert d + [DefaultPieData] == Defaults(k + 1);
  }

  /** Erasing row `i` extends a removal of [i + 1, end] to [i, end]. */
  lemma RemoveOneMore(pie: seq<PieData>, i: int, end: int)
    requires 0 <= i <= end < |pie|
    ensures var p := RemovedRows(pie, i + 1, end);
      i < |p| && RemovedRows(pie, i, end) == p[..i] + p[i + 1..]
  {
    var p := RemovedRows(pie, i + 1, end);
    assert p == pie[..i + 1] + pie[end + 1..];
    assert p[..i] == pie[..i];
    assert p[i + 1..] == pie[end + 1..];
  }

  /** Removing the rows just inserted gives back the slices as they were. */
  lemma {:induction false} RemoveUndoesInsert(pie: seq<PieData>, start: int, end: int)
    requires start <= end ==> 0 <= start <= |pie|
    ensures RemovedRows(InsertedRows(pie, start, end), start, end) == pie
  {
    if start <= end {
      var p := InsertedRows(pie, start, end);
      assert p[..start] == pie[..start];
      assert p[end + 1..] == pie[start..];
    }
  }

  /** After setting a custom brush on a row, that row is filled with it, whatever the palette says. */
  lemma BrushAfterSetBrush(pie: seq<PieData>, row: int, b: Brush, paletteBrush: Brush)
    requires 0 <= row < |pie|
    ensures BrushOf(WithBrush(pie, row, b), row, paletteBrush) == b
  {
  }

  /** A row without a custom brush is filled with the palette's brush for that row. */
  lemma DefaultRowsUsePalette(n: nat, row: int, paletteBrush: Brush)
    requires 0 <= row < n
    ensures BrushOf(Defaults(n), row, paletteBrush) == paletteBrush
    ensures Defaults(n)[row].explode == 0.0
  {
  }

  /** Inserted rows carry no override: they are filled from the palette and not exploded. */
  lemma InsertedRowsUsePalette(pie: seq<PieData>, start: int, end: int, row: int, paletteBrush: Brush)
    requires 0 <= start <= row <= end && start <= |pie|
    ensures BrushOf(InsertedRows(pie, start, end), row, paletteBrush) == paletteBrush
    ensures InsertedRows(pie, start, end)[row].explode == 0.0
  {
  }
}
