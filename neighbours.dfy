/**
 * The cyclic search for the nearest visible row after or before a row
 * (WPieChart::nextIndex and WPieChart::prevIndex). `valid[k]` says whether
 * row k's value in the data column is a number (not NaN).
 */
module Neighbours {

  /** The number of forward steps from row `i` to row `j` around `r` rows. */
  function Fwd(i: int, j: int, r: int): int
  {
    if i <= j then j - i else j - i + r
  }

  /** Reducing `i + 1` modulo `r` wraps only the last row, to row 0. */
  lemma WrapStep(i: int, r: int)
    requires 0 <= i < r
    ensures (i + 1) % r == if i + 1 < r then i + 1 else 0
  {
    if i + 1 == r {
      assert (i + 1) % r == r % r == 0;
    }
  }

  /**
   * `n` is the first valid row met when walking forward from `i` around the
   * circle, or `i` itself when no other row is valid.
   */
  predicate IsNextValid(valid: seq<bool>, i: int, n: int)
    requires 0 <= i < |valid|
  {
    var r := |valid|;
    && 0 <= n < r
    && (n == i || valid[n])
    && forall j :: 0 <= j < r && j != i && (n == i || Fwd(i, j, r) < Fwd(i, n, r)) ==> !valid[j]
  }

  /**
   * `p` is the first valid row met when walking backward from `i` around the
   * circle, or `i` itself when no other row is valid.
   */
  predicate IsPrevValid(valid: seq<bool>, i: int, p: int)
    requires 0 <= i < |valid|
  {
    var r := |valid|;
    && 0 <= p < r
    && (p == i || valid[p])
    && forall j :: 0 <= j < r && j != i && (p == i || Fwd(j, i, r) < Fwd(p, i, r)) ==> !valid[j]
  }

  /** The nearest valid row after `i`, wrapping from the last row to row 0. */
  method NextIndex(valid: seq<bool>, i: int) returns (n: int)
    requires 0 <= i < |valid|
    ensures IsNextValid(valid, i, n)
  {
    var r := |valid|;
    WrapStep(i, r);
    n := (i + 1) % r;
    while n != i
      invariant 0 <= n < r
      invariant forall j :: 0 <= j < r && j != i && (n == i || Fwd(i, j, r) < Fwd(i, n, r)) ==> !valid[j]
      decreases Fwd(n, i, r)
    {
      if valid[n] {
        return;
      }
      n := if n + 1 < r then n + 1 else 0;
    }
  }

  /** How the loop of nextIndex as written ends. */
  datatype Scan = Found(row: int) | PastLastRow

  /**
   * The scan from `i` reaches row |valid| without meeting a valid row: `i` is
   * not the last row and every row after it is invalid.
   */
  predicate Overruns(valid: seq<bool>, i: int)
  {
    0 <= i && i + 1 < |valid| && forall j :: i < j < |valid| ==> !valid[j]
  }

  /**
   * nextIndex as the source writes it: the counter is reduced modulo the row
   * count only before the first step, so a scan that starts before the last
   * row walks past it. The model stops at that point (PastLastRow), where the
   * source would go on to read rows the model does not have.
   */
  method NextIndexAsWritten(valid: seq<bool>, i: int) returns (s: Scan)
    requires 0 <= i < |valid|
    ensures s == PastLastRow <==> Overruns(valid, i)
    ensures s.Found? ==> IsNextValid(valid, i, s.row)
  {
    var r := |valid|;
    WrapStep(i, r);
    var n := (i + 1) % r;
    while n != i
      invariant i + 1 < r ==> i < n <= r
      invariant i + 1 == r ==> 0 <= n <= i
      invariant i + 1 < r ==> forall j :: i < j < n ==> !valid[j]
      invariant i + 1 == r ==> forall j :: 0 <= j < n || i < j < r ==> !valid[j]
      decreases if i < n then r - n else i - n
    {
      if n == r {
        return PastLastRow;
      }
      if valid[n] {
        return Found(n);
      }
      n := n + 1;
    }
    return Found(i);
  }

  /**
   * Whenever the as-written scan runs past the last row, the row it should
   * have found lies at or before `i`: the search had to wrap around.
   */
  lemma OverrunMissesWrappedRow(valid: seq<bool>, i: int, n: int)
    requires 0 <= i < |valid| && Overruns(valid, i) && IsNextValid(valid, i, n)
    ensures n <= i
  {
  }

  /** Rows 0 and 1 visible, row 2 NaN: from row 1 the next visible row is row 0, but nextIndex overruns. */
  lemma NextIndexOverrunExample()
    ensures Overruns([true, true, false], 1)
    ensures IsNextValid([true, true, false], 1, 0)
  {
    var valid := [true, true, false];
    assert forall j :: 0 <= j < 3 && j != 1 && Fwd(1, j, 3) < Fwd(1, 0, 3) ==> j == 2;
  }

  /**
   * The loop of prevIndex as written never ends: `i` is the last row, row `i`
   * is invalid and so is every row before it. After row 0 the counter wraps to
   * `i` itself, checks it, and goes round the rows before `i` again.
   */
  predicate CyclesForever(valid: seq<bool>, i: int)
  {
    0 <= i && i == |valid| - 1 && !valid[i] && forall j :: 0 <= j < i ==> !valid[j]
  }

  /** How the loop of prevIndex as written ends. */
  datatype Walk = Returned(row: int) | NeverEnds

  /**
   * prevIndex as the source writes it. When the counter wraps onto `i` and row
   * `i` is invalid, the source goes on cycling through rows it has already
   * found invalid; the model stops there (NeverEnds).
   */
  method PrevIndexAsWritten(valid: seq<bool>, i: int) returns (w: Walk)
    requires 0 <= i < |valid|
    ensures w == NeverEnds <==> CyclesForever(valid, i)
    ensures w.Returned? ==> IsPrevValid(valid, i, w.row)
  {
    var r := |valid|;
    var p := i - 1;
    while p != i
      invariant -1 <= p < r
      invariant i == r - 1 ==> p < i
      invariant var q := if p < 0 then p + r else p;
        forall j :: 0 <= j < r && j != i && (q == i || Fwd(j, i, r) < Fwd(q, i, r)) ==> !valid[j]
      decreases Fwd(i, if p < 0 then p + r else p, r)
    {
      if p < 0 {
        p := p + r;
      }
      if valid[p] {
        return Returned(p);
      }
      if p == i {
        // every row is invalid and the counter is back at i: the source never stops
        return NeverEnds;
      }
      p := p - 1;
    }
    return Returned(i);
  }

  /** When the as-written loop cycles forever, the intended answer is `i` itself. */
  lemma CyclingMissesAnswer(valid: seq<bool>, i: int)
    requires 0 <= i < |valid| && CyclesForever(valid, i)
    ensures IsPrevValid(valid, i, i)
  {
  }

  /** A single row whose value is NaN: prevIndex(0) never returns, although 0 is the intended answer. */
  lemma PrevIndexCycleExample()
    ensures CyclesForever([false], 0)
    ensures IsPrevValid([false], 0, 0)
  {
  }

  /**
   * The nearest valid row before `i`, wrapping from row 0 to the last row, or
   * `i` when no other row is valid. Unlike the source, the search ends when
   * the wrapped counter lands on `i`.
   */
  method PrevIndex(valid: seq<bool>, i: int) returns (p: int)
    requires 0 <= i < |valid|
    ensures IsPrevValid(valid, i, p)
  {
    var r := |valid|;
    p := i - 1;
    while p != i
      invariant -1 <= p < r
      invariant var q := if p < 0 then p + r else p;
        forall j :: 0 <= j < r && j != i && (q == i || Fwd(j, i, r) < Fwd(q, i, r)) ==> !valid[j]
      decreases Fwd(i, if p < 0 then p + r else p, r)
    {
      if p < 0 {
        p := p + r;
        if p == i {
          return;
        }
      }
      if valid[p] {
        return;
      }
      p := p - 1;
    }
    // the loop ends with p == i: no other row is valid
  }

  /** Each valid row has exactly one next valid row. */
  lemma NextValidUnique(valid: seq<bool>, i: int, n1: int, n2: int)
    requires 0 <= i < |valid|
    requires IsNextValid(valid, i, n1) && IsNextValid(valid, i, n2)
    ensures n1 == n2
  {
  }

  /** Each valid row has exactly one previous valid row. */
  lemma PrevValidUnique(valid: seq<bool>, i: int, p1: int, p2: int)
    requires 0 <= i < |valid|
    requires IsPrevValid(valid, i, p1) && IsPrevValid(valid, i, p2)
    ensures p1 == p2
  {
  }

  /** Walking back from the next valid row of a valid row `i` leads to `i` again. */
  lemma PrevOfNext(valid: seq<bool>, i: int, n: int, p: int)
    requires 0 <= i < |valid| && valid[i]
    requires IsNextValid(valid, i, n) && n != i
    requires IsPrevValid(valid, n, p)
    ensures p == i
  {
  }
}
