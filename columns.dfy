/**
 * How the chart's two tracked column indices (labels column, data column)
 * follow column insertions and removals in the model. -1 means "unset".
 */
module Columns {
  import opened Ranges

  const Unset: int := -1

  /** A tracked column after columns [start, end] are inserted: shifted if at or after `start`. */
  function AfterColumnsInserted(col: int, start: int, end: int): (c: int)
    ensures col < start ==> c == col
    ensures col >= start ==> c - col == end - start + 1
  {
    if col >= start then col + (end - start + 1) else col
  }

  /**
   * A tracked column after columns [start, end] are removed: unset if it was
   * one of them, shifted down if after them, unchanged if before them.
   */
  function AfterColumnsRemoved(col: int, start: int, end: int): (c: int)
    ensures col < start ==> c == col
    ensures Within(col, start, end) ==> c == Unset
    ensures col > end && col >= start ==> col - c == end - start + 1
  {
    if col >= start then
      if col <= end then Unset else col - (end - start + 1)
    else col
  }

  /** For a genuine range (start >= 0), an unset column stays unset on insert and on remove. */
  lemma UnsetStaysUnset(start: int, end: int)
    requires start >= 0
    ensures AfterColumnsInserted(Unset, start, end) == Unset
    ensures AfterColumnsRemoved(Unset, start, end) == Unset
  {
  }

  /** Removing the columns just inserted brings every tracked index back. */
  lemma RemoveUndoesInsert(col: int, start: int, end: int)
    requires start <= end
    ensures AfterColumnsRemoved(AfterColumnsInserted(col, start, end), start, end) == col
  {
  }

  /**
   * The shifted index still names the same model column: if `cols` are the
   * model's columns and `added` are inserted at `start`, the column at the new
   * index is the one that was tracked.
   */
  lemma InsertKeepsTrackedColumn<T>(cols: seq<T>, added: seq<T>, start: int, col: int)
    requires 0 <= start <= |cols| && |added| >= 1 && 0 <= col < |cols|
    ensures var after := cols[..start] + added + cols[start..];
      var c := AfterColumnsInserted(col, start, start + |added| - 1);
      0 <= c < |after| && after[c] == cols[col]
  {
  }

  /**
   * After removing [start, end] a tracked column is unset exactly when it was
   * removed; otherwise its new index names the same model column.
   */
  lemma RemoveKeepsTrackedColumn<T>(cols: seq<T>, start: int, end: int, col: int)
    requires 0 <= start <= end < |cols| && 0 <= col < |cols|
    ensures var after := cols[..start] + cols[end + 1..];
      var c := AfterColumnsRemoved(col, start, end);
      && (c == Unset <==> Within(col, start, end))
      && (c != Unset ==> 0 <= c < |after| && after[c] == cols[col])
  {
  }
}
